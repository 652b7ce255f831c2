/**
 * The memoising house lookup `getHouses`: a process-wide table from a query
 * fingerprint to the rows the store returned for it, filled on a miss and
 * never updated or evicted.
 */
module Cache {
  import opened Values
  import opened Strings
  import opened Mapping
  import opened Builder
  import opened Hash

  /** The statement `getHouses` completes with the realm conditions. */
  const RealmSql: string := "SELECT house FROM tblRealm"

  /** A row of `SELECT house FROM tblRealm`. */
  datatype HouseRow = HouseRow(house: Scalar)

  type Rows = seq<HouseRow>

  /** The text `getHouses` hashes: the statement without whitespace, a colon, the comma-joined parameters. */
  function FingerprintText(q: Query): (t: string)
    ensures var n := |StripWhitespace(q.sql)|;
      && n < |t| && t[..n] == StripWhitespace(q.sql) && t[n] == ':' && t[n + 1..] == RenderParams(q.params)
      && forall i :: 0 <= i < n ==> !IsWhitespace(t[i])
  {
    StripWhitespace(q.sql) + ":" + RenderParams(q.params)
  }

  /** The cache key of a built query. */
  function Fingerprint(q: Query): (key: int)
    ensures IsInt32(key)
  {
    Hash.Hash(Utf16(FingerprintText(q)))
  }

  /** Inserting a whitespace character anywhere in the statement does not change the key. */
  lemma FingerprintIgnoresWhitespace(a: string, w: char, b: string, params: seq<Value>)
    requires IsWhitespace(w)
    ensures Fingerprint(Query(a + [w] + b, params)) == Fingerprint(Query(a + b, params))
  {
    StripIgnoresWhitespace(a, w, b);
    assert FingerprintText(Query(a + [w] + b, params)) == FingerprintText(Query(a + b, params));
  }

  /**
   * Different parameter lists can give the same fingerprint text, because the
   * comma join does not escape commas inside a value: such queries share a
   * slot whatever the hash.
   */
  lemma ParamsTextAmbiguous(sql: string)
    ensures var q1 := Query(sql, [Atom(Str("eu,x")), Atom(Str("y"))]);
            var q2 := Query(sql, [Atom(Str("eu")), Atom(Str("x,y"))]);
            q1 != q2 && FingerprintText(q1) == FingerprintText(q2) && Fingerprint(q1) == Fingerprint(q2)
  {
    var q1 := Query(sql, [Atom(Str("eu,x")), Atom(Str("y"))]);
    var q2 := Query(sql, [Atom(Str("eu")), Atom(Str("x,y"))]);
    assert q1.params[0] != q2.params[0];
    RenderTwo(Str("eu,x"), Str("y"));
    RenderTwo(Str("eu"), Str("x,y"));
    assert "eu,x" + "," + "y" == "eu" + "," + "x,y";
  }

  lemma RenderTwo(x: Scalar, y: Scalar)
    ensures RenderParams([Atom(x), Atom(y)]) == RenderScalar(x) + "," + RenderScalar(y)
  {
    var ps := [Atom(x), Atom(y)];
    assert ps[1..] == [Atom(y)] && ps[1..][1..] == [];
    assert RenderAll(ps[1..][1..]) == [];
    assert RenderAll(ps[1..]) == [RenderScalar(y)];
    var parts := RenderAll(ps);
    assert parts == [RenderScalar(x), RenderScalar(y)];
    assert parts[1..] == [RenderScalar(y)];
    assert Join(parts[1..], ",") == RenderScalar(y);
    assert RenderParams(ps) == Join(parts, ",");
  }

  /**
   * The query executor `asyncQuery`, abstracted: its answer to a query may
   * depend on how many queries came before, and it may fail. `issued` records
   * every query sent to the store.
   */
  class Store {
    const answer: (Query, nat) -> Result<Rows>
    var issued: seq<Query>

    constructor (answer: (Query, nat) -> Result<Rows>)
      ensures this.answer == answer && issued == []
    {
      this.answer := answer;
      issued := [];
    }

    method Execute(q: Query) returns (r: Result<Rows>)
      modifies this
      ensures issued == old(issued) + [q]
      ensures r == answer(q, |old(issued)|)
    {
      r := answer(q, |issued|);
      issued := issued + [q];
    }
  }

  /** `houseCache` with `getHouses`. Entries are created on a miss and never changed afterwards. */
  class HouseCache {
    var entries: map<int, Rows>

    constructor ()
      ensures entries == map[]
    {
      entries := map[];
    }

    /**
     * `getHouses(data)`: build the realm query, fingerprint it, answer from
     * the table on a hit, otherwise ask the store and store a successful
     * answer under that key only.
     */
    method GetHouses(data: Data, store: Store) returns (r: Result<Rows>)
      modifies this, store
      ensures forall k :: k in old(entries) ==> k in entries && entries[k] == old(entries)[k]
      ensures Built(RealmSql, data, RealmMapping).Err? ==>
        && r == Err(Built(RealmSql, data, RealmMapping).error)
        && entries == old(entries) && store.issued == old(store.issued)
      ensures Built(RealmSql, data, RealmMapping).Ok? ==>
        var q := Built(RealmSql, data, RealmMapping).value;
        var key := Fingerprint(q);
        && (key in old(entries) ==>
              r == Ok(old(entries)[key]) && entries == old(entries) && store.issued == old(store.issued))
        && (key !in old(entries) ==>
              && store.issued == old(store.issued) + [q]
              && r == store.answer(q, |old(store.issued)|)
              && entries == if r.Ok? then old(entries)[key := r.value] else old(entries))
    {
      var query := BuildQuery(RealmSql, data, RealmMapping);
      if query.Err? {
        return Err(query.error);
      }
      var hash := SimpleHash(FingerprintText(query.value));
      if hash in entries {
        return Ok(entries[hash]);
      }
      var rows := store.Execute(query.value);
      if rows.Err? {
        return rows;
      }
      entries := entries[hash := rows.value];
      r := Ok(entries[hash]);
    }
  }

  /** Two sequential lookups with the same parameters: once the first succeeds, the second is a hit. */
  method LookupTwice(cache: HouseCache, data: Data, store: Store) returns (first: Result<Rows>, second: Result<Rows>)
    modifies cache, store
    ensures first.Ok? ==> second == first
    ensures first.Ok? ==> |store.issued| <= |old(store.issued)| + 1
  {
    first := cache.GetHouses(data, store);
    second := cache.GetHouses(data, store);
  }

  lemma RealmText()
    ensures RealmSql + " WHERE " + ("region" + " = ?") + " AND " + ("slug" + " = ?")
         == "SELECT house FROM tblRealm WHERE region = ? AND slug = ?"
  {
  }

  /** The realm query for a region and a realm slug. */
  lemma RealmQuery(region: string, realm: string)
    ensures Built(RealmSql, [Entry("region", Atom(Str(region))), Entry("realm", Atom(Str(realm)))], RealmMapping)
         == Ok(Query("SELECT house FROM tblRealm WHERE region = ? AND slug = ?", [Atom(Str(region)), Atom(Str(realm))]))
  {
    ColumnCondition(Entry("region", Atom(Str(region))), RealmMapping, "region");
    ColumnCondition(Entry("realm", Atom(Str(realm))), RealmMapping, "slug");
    RealmText();
    BuiltTwo(RealmSql, Entry("region", Atom(Str(region))), Entry("realm", Atom(Str(realm))), RealmMapping);
  }

  /** Resolving the houses of eu/silvermoon twice on a fresh cache sends one more query to the store. */
  method ResolveSilvermoonTwice(store: Store) returns (first: Result<Rows>, second: Result<Rows>)
    requires store.answer(Query("SELECT house FROM tblRealm WHERE region = ? AND slug = ?", [Atom(Str("eu")), Atom(Str("silvermoon"))]), |store.issued|).Ok?
    modifies store
    ensures |store.issued| == |old(store.issued)| + 1
    ensures first.Ok? && second == first
  {
    var cache := new HouseCache();
    var data := [Entry("region", Atom(Str("eu"))), Entry("realm", Atom(Str("silvermoon")))];
    RealmQuery("eu", "silvermoon");
    first := cache.GetHouses(data, store);
    second := cache.GetHouses(data, store);
  }
}
