/**
 * Field mappings: how one logical request field becomes one SQL condition
 * (`mapField`) and one positional parameter (`mapParam`).
 */
module Mapping {
  import opened Values
  import opened Strings

  /** The three type tags of `QueryType`. */
  const EQUALS: string := "equals"
  const IN: string := "in"
  const LIKE: string := "like"

  /**
   * A mapping descriptor as the source probes it at run time: a plain column
   * string (equals), an object with an optional `type` tag and a `name`, or
   * anything else (`undefined` for an unmapped key, a number, a boolean).
   */
  datatype Descriptor = Column(name: string) | Typed(typ: Option<string>, name: string) | Bad

  /** A mapping set: logical field name to descriptor. */
  type MappingSet = map<string, Descriptor>

  /** `mapping[k]`: a key with no entry reads as `undefined`. */
  function Lookup(m: MappingSet, key: string): (d: Descriptor)
    ensures d.Bad? <==> key !in m || m[key].Bad?
    ensures !d.Bad? ==> key in m && m[key] == d
  {
    if key in m then m[key] else Bad
  }

  /** `TBL_REALM_QUERY_MAPPING`. */
  const RealmMapping: MappingSet :=
    map["realmId" := Column("blizzId"), "region" := Column("region"), "realm" := Column("slug"), "house" := Column("house")]

  /** `TBL_ITEM_SUMMARY_QUERY_MAPPING`. */
  const ItemSummaryMapping: MappingSet :=
    map["house" := Typed(Some(IN), "house"), "id" := Column("item")]

  /**
   * The two tables: the realm table maps each of its four keys to a plain
   * column, the item-summary table asks for a membership test on `house`
   * and an equality on `item`; no column name holds a placeholder.
   */
  lemma TablesWellFormed()
    ensures RealmMapping.Keys == {"realmId", "region", "realm", "house"}
    ensures ItemSummaryMapping.Keys == {"house", "id"}
    ensures forall k :: k in RealmMapping ==> RealmMapping[k].Column?
    ensures Lookup(RealmMapping, "region") == Column("region") && Lookup(RealmMapping, "realm") == Column("slug")
    ensures IsMembership(Lookup(ItemSummaryMapping, "house")) && Lookup(ItemSummaryMapping, "house").name == "house"
    ensures Lookup(ItemSummaryMapping, "id") == Column("item")
    ensures forall k :: k in RealmMapping ==> !RealmMapping[k].Bad? && '?' !in RealmMapping[k].name
    ensures forall k :: k in ItemSummaryMapping ==> !ItemSummaryMapping[k].Bad? && '?' !in ItemSummaryMapping[k].name
  {
  }

  /** The comparison a well-formed descriptor asks for. */
  datatype MatchKind = Equals | Membership | Pattern

  function KindOf(d: Descriptor): MatchKind
    requires !d.Bad?
  {
    match d
    case Column(_) => Equals
    case Typed(t, _) => if t == Some(IN) then Membership else if t == Some(LIKE) then Pattern else Equals
  }

  predicate IsMembership(d: Descriptor) {
    d.Typed? && d.typ == Some(IN)
  }

  /** The text a condition of the given kind puts after its column. */
  function Operator(k: MatchKind): string {
    match k
    case Equals => " = ?"
    case Membership => " IN(?)"
    case Pattern => " LIKE ?"
  }

  predicate EndsWith(s: string, suffix: string) {
    |suffix| <= |s| && s[|s| - |suffix|..] == suffix
  }

  /** Reads a condition back into its column and its comparison, the inverse of `MapField`. */
  function ParseClause(c: string): Option<(string, MatchKind)> {
    if EndsWith(c, Operator(Membership)) then Some((c[..|c| - 6], Membership))
    else if EndsWith(c, Operator(Pattern)) then Some((c[..|c| - 7], Pattern))
    else if EndsWith(c, Operator(Equals)) then Some((c[..|c| - 4], Equals))
    else None
  }

  /** A text whose character at one suffix position differs from the suffix's does not end with it. */
  lemma NotEndsWith(s: string, suffix: string, k: nat)
    requires k < |suffix|
    requires |suffix| <= |s| ==> s[|s| - |suffix| + k] != suffix[k]
    ensures !EndsWith(s, suffix)
  {
  }

  /** Each comparison's text holds exactly one placeholder. */
  lemma OperatorPlaceholder(k: MatchKind)
    ensures Count(Operator(k), '?') == 1
  {
    match k
    case Membership =>
      assert " IN(" + "?" + ")" == " IN(?)";
      OnePlaceholder(" IN(", ")");
    case Pattern =>
      assert " LIKE " + "?" + "" == " LIKE ?";
      OnePlaceholder(" LIKE ", "");
    case Equals =>
      assert " = " + "?" + "" == " = ?";
      OnePlaceholder(" = ", "");
  }

  lemma OnePlaceholder(a: string, b: string)
    requires '?' !in a && '?' !in b
    ensures Count(a + "?" + b, '?') == 1
  {
    CountAbsent(a, '?');
    CountAbsent(b, '?');
    CountConcat(a, "?", '?');
    CountConcat(a + "?", b, '?');
  }

  lemma ParseMembership(column: string)
    ensures ParseClause(column + " IN(?)") == Some((column, Membership))
  {
    var c := column + " IN(?)";
    assert c[..|column|] == column;
    assert c[|c| - 6..] == " IN(?)";
  }

  lemma ParsePattern(column: string)
    ensures ParseClause(column + " LIKE ?") == Some((column, Pattern))
  {
    var c := column + " LIKE ?";
    assert c[..|column|] == column;
    assert c[|c| - 7..] == " LIKE ?";
    NotEndsWith(c, " IN(?)", 5);
  }

  lemma ParseEquals(column: string)
    ensures ParseClause(column + " = ?") == Some((column, Equals))
  {
    var c := column + " = ?";
    assert c[..|column|] == column;
    assert c[|c| - 4..] == " = ?";
    NotEndsWith(c, " IN(?)", 5);
    NotEndsWith(c, " LIKE ?", 4);
  }

  /**
   * `mapField`: the condition text for one descriptor. It fails exactly on a
   * descriptor that is neither a string nor an object; otherwise the text is
   * the column followed by the placeholder group of the comparison its tag
   * asks for.
   */
  function MapField(d: Descriptor): (r: Result<string>)
    ensures r.Err? <==> d.Bad?
    ensures r.Err? ==> r.error == BadFieldMapping
    ensures r.Ok? ==> r.value == d.name + Operator(KindOf(d))
  {
    match d
    case Column(c) => Ok(c + " = ?")
    case Typed(t, c) =>
      if t == Some(IN) then Ok(c + " IN(?)")
      else if t == Some(LIKE) then Ok(c + " LIKE ?")
      else Ok(c + " = ?")
    case Bad => Err(BadFieldMapping)
  }

  /**
   * A condition determines its descriptor's meaning: it parses back into the
   * column and the comparison, and holds one placeholder more than the column.
   */
  lemma MapFieldParses(d: Descriptor)
    requires !d.Bad?
    ensures ParseClause(MapField(d).value) == Some((d.name, KindOf(d)))
    ensures Count(MapField(d).value, '?') == Count(d.name, '?') + 1
  {
    CountConcat(d.name, Operator(KindOf(d)), '?');
    OperatorPlaceholder(KindOf(d));
    match KindOf(d)
    case Membership => ParseMembership(d.name);
    case Pattern => ParsePattern(d.name);
    case Equals => ParseEquals(d.name);
  }

  /** A shorthand column string and an explicit EQUALS object, or an object with any other tag, give the same condition. */
  lemma ShorthandIsEquals(column: string, t: Option<string>)
    requires t != Some(IN) && t != Some(LIKE)
    ensures MapField(Column(column)) == MapField(Typed(Some(EQUALS), column)) == MapField(Typed(t, column))
    ensures MapField(Column(column)) == Ok(column + " = ?")
  {
  }

  predicate NullFree(s: seq<Scalar>) {
    forall i :: 0 <= i < |s| ==> !IsNullish(s[i])
  }

  predicate Distinct(s: seq<Scalar>) {
    forall i, j :: 0 <= i < j < |s| ==> s[i] != s[j]
  }

  /** `value.filter(v => v != null)`. */
  function NonNull(s: seq<Scalar>): (r: seq<Scalar>)
    ensures NullFree(r)
    ensures forall x :: x in r <==> x in s && !IsNullish(x)
    ensures |r| <= |s|
  {
    if s == [] then []
    else
      var p := NonNull(s[..|s| - 1]);
      assert s == s[..|s| - 1] + [s[|s| - 1]];
      if IsNullish(s[|s| - 1]) then p else p + [s[|s| - 1]]
  }

  /** The filter keeps a single element exactly when it is neither null nor undefined. */
  lemma NonNullSingle(x: Scalar)
    ensures NonNull([x]) == if IsNullish(x) then [] else [x]
  {
    assert [x][..0] == [];
  }

  /** The filter works element by element: filtering a concatenation concatenates the filtered parts, so every non-null occurrence is kept, in order. */
  lemma {:induction false} NonNullConcat(a: seq<Scalar>, b: seq<Scalar>)
    ensures NonNull(a + b) == NonNull(a) + NonNull(b)
    decreases |b|
  {
    if b == [] {
      assert a + b == a;
    } else {
      var init := b[..|b| - 1];
      assert (a + b)[..|a + b| - 1] == a + init;
      assert (a + b)[|a + b| - 1] == b[|b| - 1];
      NonNullConcat(a, init);
    }
  }

  /** `[...new Set(s)]`: each element inserted in turn, a repeat leaving the set as it was. */
  function Dedup(s: seq<Scalar>): (r: seq<Scalar>)
    ensures Distinct(r)
    ensures forall x :: x in r <==> x in s
    ensures |r| <= |s|
  {
    if s == [] then []
    else
      var p := Dedup(s[..|s| - 1]);
      assert s == s[..|s| - 1] + [s[|s| - 1]];
      if s[|s| - 1] in p then p else p + [s[|s| - 1]]
  }

  /** The index of the first occurrence of `x` in `s`. */
  function FirstIndex(s: seq<Scalar>, x: Scalar): (i: nat)
    requires x in s
    ensures i < |s| && s[i] == x && x !in s[..i]
  {
    if x in s[..|s| - 1] then FirstIndex(s[..|s| - 1], x) else |s| - 1
  }

  /** The normaliser of a membership (IN) parameter: nulls dropped, then duplicates collapsed. */
  function Normalize(s: seq<Scalar>): (r: seq<Scalar>)
    ensures NullFree(r) && Distinct(r)
    ensures forall x :: x in r <==> x in s && !IsNullish(x)
  {
    Dedup(NonNull(s))
  }

  /**
   * `mapParam`: the positional parameter for one value. A string descriptor or
   * an object whose tag is not IN passes the value through; an IN descriptor
   * turns an array into its null-free, duplicate-free list of elements.
   */
  function MapParam(value: Value, d: Descriptor): (r: Result<Value>)
    ensures r.Err? <==> d.Bad? || (IsMembership(d) && !value.List?)
    ensures d.Bad? ==> r == Err(BadParamMapping)
    ensures IsMembership(d) && !value.List? ==> r == Err(NotAnArray)
    ensures !d.Bad? && !IsMembership(d) ==> r == Ok(value)
    ensures r.Ok? && IsMembership(d) ==>
      && r.value.List? && NullFree(r.value.items) && Distinct(r.value.items)
      && forall x :: x in r.value.items <==> x in value.items && !IsNullish(x)
  {
    match d
    case Column(_) => Ok(value)
    case Bad => Err(BadParamMapping)
    case Typed(t, _) =>
      if t != Some(IN) then Ok(value)
      else if value.List? then Ok(List(Normalize(value.items)))
      else Err(NotAnArray)
  }

  lemma {:induction false} FirstIndexOfPrefix(s: seq<Scalar>, x: Scalar)
    requires |s| > 0 && x in s[..|s| - 1]
    ensures FirstIndex(s, x) == FirstIndex(s[..|s| - 1], x)
  {
  }

  /** Set insertion keeps elements in the order of their first occurrence. */
  lemma {:induction false} DedupOrder(s: seq<Scalar>)
    ensures forall i, j :: 0 <= i < j < |Dedup(s)| ==> FirstIndex(s, Dedup(s)[i]) < FirstIndex(s, Dedup(s)[j])
  {
    if s != [] {
      var p := s[..|s| - 1];
      var last := s[|s| - 1];
      var q := Dedup(p);
      DedupOrder(p);
      assert s == p + [last];
      forall x | x in p ensures FirstIndex(s, x) == FirstIndex(p, x) {
        FirstIndexOfPrefix(s, x);
      }
      if last !in q {
        var r := Dedup(s);
        assert r == q + [last];
        forall i, j | 0 <= i < j < |r| ensures FirstIndex(s, r[i]) < FirstIndex(s, r[j]) {
          if j == |q| {
            assert r[i] == q[i] && q[i] in p;
            assert last !in p;
          } else {
            assert r[i] == q[i] && r[j] == q[j];
          }
        }
      }
    }
  }

  /** Filtering preserves the relative order of first occurrences of the kept elements. */
  lemma {:induction false} NonNullOrder(s: seq<Scalar>, x: Scalar, y: Scalar)
    requires x in s && y in s && !IsNullish(x) && !IsNullish(y)
    requires FirstIndex(s, x) < FirstIndex(s, y)
    ensures FirstIndex(NonNull(s), x) < FirstIndex(NonNull(s), y)
  {
    var p := s[..|s| - 1];
    var last := s[|s| - 1];
    var q := NonNull(p);
    var n := NonNull(s);
    assert s == p + [last];
    assert x in p;
    FirstIndexOfPrefix(s, x);
    if IsNullish(last) {
      assert n == q;
      FirstIndexOfPrefix(s, y);
      NonNullOrder(p, x, y);
    } else {
      assert n == q + [last];
      assert n[..|n| - 1] == q;
      FirstIndexOfPrefix(n, x);
      if y in p {
        FirstIndexOfPrefix(s, y);
        FirstIndexOfPrefix(n, y);
        NonNullOrder(p, x, y);
      } else {
        assert y !in q;
      }
    }
  }

  /** The normalised list keeps the input's first-occurrence order. */
  lemma NormalizeOrder(s: seq<Scalar>)
    ensures forall i, j :: 0 <= i < j < |Normalize(s)| ==> FirstIndex(s, Normalize(s)[i]) < FirstIndex(s, Normalize(s)[j])
  {
    var n := NonNull(s);
    var r := Normalize(s);
    DedupOrder(n);
    forall i, j | 0 <= i < j < |r| ensures FirstIndex(s, r[i]) < FirstIndex(s, r[j]) {
      if FirstIndex(s, r[j]) < FirstIndex(s, r[i]) {
        NonNullOrder(s, r[j], r[i]);
      }
    }
  }

  lemma {:induction false} NonNullOfNullFree(s: seq<Scalar>)
    requires NullFree(s)
    ensures NonNull(s) == s
  {
    if s != [] {
      NonNullOfNullFree(s[..|s| - 1]);
      assert s == s[..|s| - 1] + [s[|s| - 1]];
    }
  }

  lemma {:induction false} DedupOfDistinct(s: seq<Scalar>)
    requires Distinct(s)
    ensures Dedup(s) == s
  {
    if s != [] {
      DedupOfDistinct(s[..|s| - 1]);
      assert s == s[..|s| - 1] + [s[|s| - 1]];
      assert s[|s| - 1] !in s[..|s| - 1];
    }
  }

  /** Normalising a normalised list changes nothing. */
  lemma NormalizeIdempotent(s: seq<Scalar>)
    ensures Normalize(Normalize(s)) == Normalize(s)
  {
    var r := Normalize(s);
    NonNullOfNullFree(r);
    DedupOfDistinct(r);
  }

  lemma NonNullExample()
    ensures NonNull([Num(3), Null, Num(3), Num(5), Null]) == [Num(3), Num(3), Num(5)]
  {
    var s := [Num(3), Null, Num(3), Num(5), Null];
    assert s[..1] == [Num(3)] && s[..1][..0] == [];
    assert s[..2][..1] == s[..1];
    assert s[..3][..2] == s[..2];
    assert s[..4][..3] == s[..3];
    assert s[..4] == s[..|s| - 1];
    assert NonNull(s[..1]) == [Num(3)];
    assert NonNull(s[..2]) == [Num(3)];
    assert NonNull(s[..3]) == [Num(3), Num(3)];
  }

  lemma DedupExample()
    ensures Dedup([Num(3), Num(3), Num(5)]) == [Num(3), Num(5)]
  {
    var n := [Num(3), Num(3), Num(5)];
    assert n[..1] == [Num(3)] && n[..1][..0] == [];
    assert n[..2][..1] == n[..1];
    assert n[..2] == n[..|n| - 1];
    assert Dedup(n[..1]) == [Num(3)];
  }

  /** `[3, null, 3, 5, null]` normalises to `[3, 5]`. */
  lemma NormalizeExample()
    ensures Normalize([Num(3), Null, Num(3), Num(5), Null]) == [Num(3), Num(5)]
  {
    NonNullExample();
    DedupExample();
  }

  lemma DedupRepeat(x: Scalar, y: Scalar)
    requires x != y
    ensures Dedup([x, y, x]) == [x, y]
  {
    var s := [x, y, x];
    assert s[..1] == [x] && s[..1][..0] == [];
    assert s[..2][..1] == s[..1];
    assert s[..2] == s[..|s| - 1];
    assert Dedup(s[..1]) == [x];
    assert Dedup(s[..2]) == [x, y];
  }

  /** Two different non-null values followed by a repeat of the first normalise to the two values. */
  lemma NormalizeDistinctThenRepeat(x: Scalar, y: Scalar)
    requires !IsNullish(x) && !IsNullish(y) && x != y
    ensures Normalize([x, y, x]) == [x, y]
  {
    var s := [x, y, x];
    NonNullOfNullFree(s);
    DedupRepeat(x, y);
  }
}
