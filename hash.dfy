/**
 * `simpleHash`: the 32-bit rolling hash over UTF-16 code units used as the
 * cache fingerprint, with JavaScript's int32 wrap-around written out.
 */
module Hash {
  import opened Strings

  const TWO32: int := 0x1_0000_0000
  const TWO31: int := 0x8000_0000

  predicate IsInt32(x: int) {
    -TWO31 <= x < TWO31
  }

  /** ECMAScript's ToInt32: the value modulo 2^32, taken into the signed range. */
  function ToInt32(x: int): (r: int)
    ensures IsInt32(r)
    ensures (r - x) % TWO32 == 0
  {
    var m := x % TWO32;
    if m >= TWO31 then m - TWO32 else m
  }

  /** ToInt32 depends only on the residue modulo 2^32. */
  lemma ToInt32Congruent(x: int, y: int)
    requires (x - y) % TWO32 == 0
    ensures ToInt32(x) == ToInt32(y)
  {
    var k := (x - y) / TWO32;
    assert x == y + k * TWO32;
    assert x % TWO32 == y % TWO32;
  }

  lemma ScaleCongruent(a: int, b: int, f: int, c: int)
    requires (a - b) % TWO32 == 0
    ensures ((f * a + c) - (f * b + c)) % TWO32 == 0
  {
    var k := (a - b) / TWO32;
    assert a - b == k * TWO32;
    assert (f * a + c) - (f * b + c) == f * (a - b) == (f * k) * TWO32;
  }

  /** One step of the hash on the int32 value `h` and the code unit `c`. */
  function Step(h: int, c: int): int {
    ToInt32(31 * h + c)
  }

  /** The hash fold from a seed: `Step` applied to each unit from left to right. */
  function HashFrom(seed: int, units: seq<int>): (h: int)
    ensures units != [] ==> IsInt32(h)
    ensures units == [] ==> h == seed
  {
    if units == [] then seed else Step(HashFrom(seed, units[..|units| - 1]), units[|units| - 1])
  }

  /** The hash of a sequence of code units, starting from 0. */
  function Hash(units: seq<int>): (h: int)
    ensures IsInt32(h)
    ensures units == [] ==> h == 0
  {
    HashFrom(0, units)
  }

  /**
   * The source's step `((hash << 5) - hash) + character` followed by
   * `hash & hash` equals `Step`: the shift wraps to int32 and the final
   * `&` takes the sum back into int32.
   */
  lemma JsStep(h: int, c: int)
    requires IsInt32(h)
    ensures ToInt32(ToInt32(h * 32) - h + c) == Step(h, c)
  {
    var shifted := ToInt32(h * 32);
    assert (shifted - h + c) - (31 * h + c) == shifted - h * 32;
    ToInt32Congruent(shifted - h + c, 31 * h + c);
  }

  /** The hash is resumable: hashing a concatenation hashes the second part from the first part's hash. */
  lemma {:induction false} HashConcat(seed: int, a: seq<int>, b: seq<int>)
    ensures HashFrom(seed, a + b) == HashFrom(HashFrom(seed, a), b)
  {
    if b == [] {
      assert a + b == a;
    } else {
      assert (a + b)[..|a + b| - 1] == a + b[..|b| - 1];
      assert (a + b)[|a + b| - 1] == b[|b| - 1];
      HashConcat(seed, a, b[..|b| - 1]);
    }
  }

  /** Appending one code unit applies one step. */
  lemma HashAppend(s: seq<int>, c: int)
    ensures Hash(s + [c]) == ToInt32(31 * Hash(s) + c)
  {
    HashConcat(0, s, [c]);
    assert [c][..0] == [];
  }

  /** The polynomial `sum of units[i] * 31^(n-1-i)`, in Horner's form and without wrap-around. */
  function Horner(units: seq<int>): int {
    if units == [] then 0 else 31 * Horner(units[..|units| - 1]) + units[|units| - 1]
  }

  /** The rolling hash is the int32 reduction of the unbounded polynomial hash. */
  lemma {:induction false} HashIsHorner(units: seq<int>)
    ensures Hash(units) == ToInt32(Horner(units))
  {
    if units != [] {
      var p := units[..|units| - 1];
      var c := units[|units| - 1];
      HashIsHorner(p);
      var h := Hash(p);
      assert (h - Horner(p)) % TWO32 == 0;
      ScaleCongruent(h, Horner(p), 31, c);
      ToInt32Congruent(31 * h + c, 31 * Horner(p) + c);
    }
  }

  /** `simpleHash(str)`: the loop over the string's UTF-16 code units. */
  method SimpleHash(str: string) returns (hash: int)
    ensures hash == Hash(Utf16(str))
    ensures IsInt32(hash)
  {
    var units := Utf16(str);
    hash := 0;
    for i := 0 to |units|
      invariant hash == Hash(units[..i])
    {
      var character := units[i];
      JsStep(hash, character);
      ghost var before := hash;
      hash := ToInt32(hash * 32) - hash + character;  // ((hash << 5) - hash) + character
      hash := ToInt32(hash);                         // hash & hash
      assert units[..i + 1][..i] == units[..i];
      assert hash == Step(before, units[i]);
    }
    assert units[..|units|] == units;
  }
}
