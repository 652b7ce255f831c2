/**
 * `buildQuery`: the request parameters, key by key, become one condition and
 * one positional parameter each; the conditions are joined with AND after
 * the base statement.
 */
module Builder {
  import opened Values
  import opened Strings
  import opened Mapping

  /** One request parameter, `data[k]` under key `k`. */
  datatype Entry = Entry(key: string, value: Value)

  /** The request parameters in `Object.keys` order. */
  type Data = seq<Entry>

  /** A built query: the statement text and its positional parameters. */
  datatype Query = Query(sql: string, params: seq<Value>)

  /** One generated condition and the parameter its placeholder consumes. */
  datatype Condition = Condition(clause: string, param: Value)

  /** The condition for one entry: `mapField` first, then `mapParam`, on the entry's descriptor. */
  function ConditionFor(e: Entry, m: MappingSet): (r: Result<Condition>)
    ensures r.Err? <==> Lookup(m, e.key).Bad? || (IsMembership(Lookup(m, e.key)) && !e.value.List?)
    ensures Lookup(m, e.key).Bad? ==> r == Err(BadFieldMapping)
    ensures IsMembership(Lookup(m, e.key)) && !e.value.List? ==> r == Err(NotAnArray)
    ensures r.Ok? ==> MapField(Lookup(m, e.key)) == Ok(r.value.clause) && MapParam(e.value, Lookup(m, e.key)) == Ok(r.value.param)
  {
    var d := Lookup(m, e.key);
    match MapField(d)
    case Err(err) => Err(err)
    case Ok(clause) =>
      match MapParam(e.value, d)
      case Err(err) => Err(err)
      case Ok(param) => Ok(Condition(clause, param))
  }

  /** The conditions of all entries in order; the first entry that fails decides the error. */
  function Conditions(data: Data, m: MappingSet): Result<seq<Condition>> {
    if data == [] then Ok([])
    else
      match Conditions(data[..|data| - 1], m)
      case Err(err) => Err(err)
      case Ok(cs) =>
        match ConditionFor(data[|data| - 1], m)
        case Err(err) => Err(err)
        case Ok(c) => Ok(cs + [c])
  }

  /** The clause texts of the conditions, in order. */
  function Clauses(cs: seq<Condition>): (r: seq<string>)
    ensures |r| == |cs| && forall i :: 0 <= i < |cs| ==> r[i] == cs[i].clause
  {
    if cs == [] then [] else Clauses(cs[..|cs| - 1]) + [cs[|cs| - 1].clause]
  }

  /** The parameters of the conditions, in order. */
  function Params(cs: seq<Condition>): (r: seq<Value>)
    ensures |r| == |cs| && forall i :: 0 <= i < |cs| ==> r[i] == cs[i].param
  {
    if cs == [] then [] else Params(cs[..|cs| - 1]) + [cs[|cs| - 1].param]
  }

  /** The statement with its WHERE clause, or unchanged when there is no condition. */
  function Assemble(sql: string, cs: seq<Condition>): Query {
    Query(if |cs| > 0 then sql + " WHERE " + Join(Clauses(cs), " AND ") else sql, Params(cs))
  }

  /** What `buildQuery(sql, data, mapping)` returns or throws. */
  function Built(sql: string, data: Data, m: MappingSet): (r: Result<Query>)
    ensures data == [] ==> r == Ok(Query(sql, []))
    ensures r.Ok? <==> Conditions(data, m).Ok?
    ensures r.Ok? ==> sql <= r.value.sql
  {
    match Conditions(data, m)
    case Err(err) => Err(err)
    case Ok(cs) => Ok(Assemble(sql, cs))
  }

  /** `buildQuery`: the loop over the keys pushing onto `conditions` and `params`. */
  method BuildQuery(sql: string, data: Data, mapping: MappingSet) returns (r: Result<Query>)
    ensures r == Built(sql, data, mapping)
  {
    var conditions: seq<string> := [];
    var params: seq<Value> := [];
    var i := 0;
    while i < |data|
      invariant 0 <= i <= |data|
      invariant Conditions(data[..i], mapping).Ok?
      invariant conditions == Clauses(Conditions(data[..i], mapping).value)
      invariant params == Params(Conditions(data[..i], mapping).value)
    {
      var field := Lookup(mapping, data[i].key);
      var clause := MapField(field);
      if clause.Err? {
        PrefixError(data, mapping, i);
        return Err(clause.error);
      }
      var param := MapParam(data[i].value, field);
      if param.Err? {
        PrefixError(data, mapping, i);
        return Err(param.error);
      }
      ConditionsStep(data, mapping, i);
      conditions := conditions + [clause.value];
      params := params + [param.value];
      i := i + 1;
    }
    assert data[..|data|] == data;
    var text := sql;
    if |conditions| > 0 {
      text := sql + " WHERE " + Join(conditions, " AND ");
    }
    r := Ok(Query(text, params));
  }

  /** One more good entry appends its condition, its clause and its parameter. */
  lemma ConditionsStep(data: Data, m: MappingSet, i: nat)
    requires i < |data|
    requires Conditions(data[..i], m).Ok?
    requires ConditionFor(data[i], m).Ok?
    ensures Conditions(data[..i + 1], m) == Ok(Conditions(data[..i], m).value + [ConditionFor(data[i], m).value])
    ensures Clauses(Conditions(data[..i + 1], m).value) == Clauses(Conditions(data[..i], m).value) + [ConditionFor(data[i], m).value.clause]
    ensures Params(Conditions(data[..i + 1], m).value) == Params(Conditions(data[..i], m).value) + [ConditionFor(data[i], m).value.param]
  {
    var d := data[..i + 1];
    assert d[..|d| - 1] == data[..i];
    assert d[|d| - 1] == data[i];
    var cs := Conditions(data[..i], m).value;
    var c := ConditionFor(data[i], m).value;
    assert Conditions(d, m) == Ok(cs + [c]);
    assert (cs + [c])[..|cs|] == cs;
  }

  /** An entry that fails after a prefix of good ones decides the error of the whole build. */
  lemma {:induction false} PrefixError(data: Data, m: MappingSet, i: nat)
    requires i < |data|
    requires Conditions(data[..i], m).Ok?
    requires ConditionFor(data[i], m).Err?
    ensures Conditions(data, m) == Err(ConditionFor(data[i], m).error)
    ensures forall sql :: Built(sql, data, m) == Err(ConditionFor(data[i], m).error)
  {
    if i == |data| - 1 {
      assert data[..|data| - 1] == data[..i];
    } else {
      var init := data[..|data| - 1];
      assert init[..i] == data[..i] && init[i] == data[i];
      PrefixError(init, m, i);
    }
  }

  /** The conditions line up with the entries: one per key, the i-th made from the i-th entry. */
  lemma {:induction false} ConditionsAligned(data: Data, m: MappingSet)
    requires Conditions(data, m).Ok?
    ensures |Conditions(data, m).value| == |data|
    ensures forall i :: 0 <= i < |data| ==> ConditionFor(data[i], m) == Ok(Conditions(data, m).value[i])
  {
    if data != [] {
      var init := data[..|data| - 1];
      ConditionsAligned(init, m);
      var cs := Conditions(init, m).value;
      assert Conditions(data, m).value == cs + [ConditionFor(data[|data| - 1], m).value];
    }
  }

  /**
   * A successful build has one parameter per key, in key order, each the
   * `mapParam` of its entry, and appends the entries' `mapField` conditions
   * joined by AND; without keys the statement is returned unchanged.
   */
  lemma BuiltAligned(sql: string, data: Data, m: MappingSet)
    requires Built(sql, data, m).Ok?
    ensures var q := Built(sql, data, m).value;
      && |q.params| == |data|
      && (forall i :: 0 <= i < |data| ==> MapParam(data[i].value, Lookup(m, data[i].key)) == Ok(q.params[i]))
      && (|data| == 0 ==> q.sql == sql)
      && (|data| > 0 ==> exists clauses: seq<string> ::
            && |clauses| == |data|
            && (forall i :: 0 <= i < |data| ==> MapField(Lookup(m, data[i].key)) == Ok(clauses[i]))
            && q.sql == sql + " WHERE " + Join(clauses, " AND "))
  {
    ConditionsAligned(data, m);
    var cs := Conditions(data, m).value;
    BuiltOk(sql, data, m);
    var q := Built(sql, data, m).value;
    assert q == Assemble(sql, cs);
    forall i | 0 <= i < |data| ensures MapParam(data[i].value, Lookup(m, data[i].key)) == Ok(q.params[i]) {
      assert ConditionFor(data[i], m) == Ok(cs[i]);
    }
    if |data| > 0 {
      var clauses := Clauses(cs);
      forall i | 0 <= i < |data| ensures MapField(Lookup(m, data[i].key)) == Ok(clauses[i]) {
        assert ConditionFor(data[i], m) == Ok(cs[i]);
      }
      assert q.sql == sql + " WHERE " + Join(clauses, " AND ");
    }
  }

  /** The index of the first entry whose condition fails, if any. */
  predicate FirstFailure(data: Data, m: MappingSet, i: int) {
    && 0 <= i < |data| && ConditionFor(data[i], m).Err?
    && forall j :: 0 <= j < i ==> ConditionFor(data[j], m).Ok?
  }

  lemma {:induction false} ConditionsFail(data: Data, m: MappingSet)
    ensures Conditions(data, m).Err? ==> exists i :: FirstFailure(data, m, i) && Conditions(data, m).error == ConditionFor(data[i], m).error
    ensures Conditions(data, m).Ok? ==> forall i :: 0 <= i < |data| ==> ConditionFor(data[i], m).Ok?
  {
    if data != [] {
      var init := data[..|data| - 1];
      var last := |data| - 1;
      ConditionsFail(init, m);
      assert forall i :: 0 <= i < |init| ==> init[i] == data[i];
      if Conditions(init, m).Ok? {
        if ConditionFor(data[last], m).Err? {
          assert FirstFailure(data, m, last);
        }
      } else {
        var i :| FirstFailure(init, m, i) && Conditions(init, m).error == ConditionFor(init[i], m).error;
        assert FirstFailure(data, m, i);
      }
    }
  }

  /**
   * The build fails exactly when some entry fails, and then with the error of
   * the first failing entry: no partial result.
   */
  lemma BuiltFails(sql: string, data: Data, m: MappingSet)
    ensures Built(sql, data, m).Err? <==> exists i :: 0 <= i < |data| && ConditionFor(data[i], m).Err?
    ensures Built(sql, data, m).Err? ==> exists i :: FirstFailure(data, m, i) && Built(sql, data, m).error == ConditionFor(data[i], m).error
  {
    ConditionsFail(data, m);
    if Built(sql, data, m).Err? {
      var i :| FirstFailure(data, m, i) && Conditions(data, m).error == ConditionFor(data[i], m).error;
    }
  }

  /** A mapping set none of whose column names holds a placeholder. */
  predicate PlainColumns(m: MappingSet) {
    forall k :: k in m && !m[k].Bad? ==> Count(m[k].name, '?') == 0
  }

  /**
   * The built statement has exactly one more placeholder per parameter than
   * the base statement: the positional list and the placeholders line up.
   */
  lemma BuiltPlaceholders(sql: string, data: Data, m: MappingSet)
    requires PlainColumns(m)
    requires Built(sql, data, m).Ok?
    ensures Count(Built(sql, data, m).value.sql, '?') == Count(sql, '?') + |Built(sql, data, m).value.params|
  {
    var cs := Conditions(data, m).value;
    BuiltOk(sql, data, m);
    if |cs| > 0 {
      var clauses := Clauses(cs);
      ClausePlaceholders(data, m);
      assert Count(" AND ", '?') == 0;
      CountJoin(clauses, " AND ", '?');
      var j := Join(clauses, " AND ");
      assert Count(" WHERE ", '?') == 0;
      CountConcat(sql, " WHERE ", '?');
      CountConcat(sql + " WHERE ", j, '?');
    }
  }

  lemma ClausePlaceholders(data: Data, m: MappingSet)
    requires PlainColumns(m)
    requires Conditions(data, m).Ok?
    ensures forall i :: 0 <= i < |Conditions(data, m).value| ==> Count(Clauses(Conditions(data, m).value)[i], '?') == 1
  {
    ConditionsAligned(data, m);
    var cs := Conditions(data, m).value;
    forall i | 0 <= i < |cs| ensures Count(Clauses(cs)[i], '?') == 1 {
      assert ConditionFor(data[i], m) == Ok(cs[i]);
      MapFieldParses(Lookup(m, data[i].key));
    }
  }

  /** A request without parameters leaves the statement as it is and binds nothing. */
  lemma BuiltWithoutData(sql: string, m: MappingSet)
    ensures Built(sql, [], m) == Ok(Query(sql, []))
  {
  }

  /** A build over two good entries, spelled out. */
  lemma BuiltTwo(sql: string, e1: Entry, e2: Entry, m: MappingSet)
    requires ConditionFor(e1, m).Ok? && ConditionFor(e2, m).Ok?
    ensures var c1, c2 := ConditionFor(e1, m).value, ConditionFor(e2, m).value;
      Built(sql, [e1, e2], m) == Ok(Query(sql + " WHERE " + c1.clause + " AND " + c2.clause, [c1.param, c2.param]))
  {
    var data := [e1, e2];
    var c1, c2 := ConditionFor(e1, m).value, ConditionFor(e2, m).value;
    assert data[..0] == [];
    ConditionsStep(data, m, 0);
    ConditionsStep(data, m, 1);
    assert data[..2] == data;
    var cs := Conditions(data, m).value;
    assert cs == [c1, c2];
    AssembleTwo(sql, c1, c2);
    BuiltOk(sql, data, m);
  }

  lemma BuiltOk(sql: string, data: Data, m: MappingSet)
    requires Conditions(data, m).Ok?
    ensures Built(sql, data, m) == Ok(Assemble(sql, Conditions(data, m).value))
  {
  }

  lemma AssembleTwo(sql: string, c1: Condition, c2: Condition)
    ensures Assemble(sql, [c1, c2]) == Query(sql + " WHERE " + c1.clause + " AND " + c2.clause, [c1.param, c2.param])
  {
    var clauses := Clauses([c1, c2]);
    assert clauses[0] == c1.clause && clauses[1] == c2.clause;
    assert clauses == [c1.clause, c2.clause];
    JoinTwo(c1.clause, c2.clause, " AND ");
    var params := Params([c1, c2]);
    assert params[0] == c1.param && params[1] == c2.param;
    assert params == [c1.param, c2.param];
  }

  lemma JoinTwo(a: string, b: string, sep: string)
    ensures Join([a, b], sep) == a + sep + b
  {
    assert [a, b][1..] == [b];
  }

  /** An entry whose key maps to a plain column is an equality on that column with the value unchanged. */
  lemma ColumnCondition(e: Entry, m: MappingSet, column: string)
    requires e.key in m && m[e.key] == Column(column)
    ensures ConditionFor(e, m) == Ok(Condition(column + " = ?", e.value))
  {
  }

  /** An entry whose key maps to an IN descriptor and whose value is an array is a membership test on its normalised elements. */
  lemma MembershipCondition(e: Entry, m: MappingSet, column: string)
    requires e.key in m && m[e.key] == Typed(Some(IN), column) && e.value.List?
    ensures ConditionFor(e, m) == Ok(Condition(column + " IN(?)", List(Normalize(e.value.items))))
  {
  }
}
