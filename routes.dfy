/**
 * The one piece of logic in the `/price` handler: the house list resolved by
 * `getHouses` and the item id from the path become the item-summary query.
 */
module Routes {
  import opened Values
  import opened Mapping
  import opened Builder
  import opened Cache

  const ItemSummarySql: string := "SELECT * FROM tblItemSummary"

  /** `houses.map(h => h.house)`. */
  function HouseIds(houses: Rows): (ids: seq<Scalar>)
    ensures |ids| == |houses| && forall i :: 0 <= i < |houses| ==> ids[i] == houses[i].house
  {
    if houses == [] then [] else [houses[0].house] + HouseIds(houses[1..])
  }

  /** `{ house: houses.map(h => h.house), id: req.params.id }`, keys in that order. */
  function PriceFilter(houses: Rows, id: string): (d: Data)
    ensures |d| == 2 && d[0].key == "house" && d[1] == Entry("id", Atom(Str(id)))
    ensures d[0].value.List? && |d[0].value.items| == |houses|
    ensures forall i :: 0 <= i < |houses| ==> d[0].value.items[i] == houses[i].house
  {
    [Entry("house", List(HouseIds(houses))), Entry("id", Atom(Str(id)))]
  }

  lemma PriceText()
    ensures ItemSummarySql + " WHERE " + ("house" + " IN(?)") + " AND " + ("item" + " = ?")
         == "SELECT * FROM tblItemSummary WHERE house IN(?) AND item = ?"
  {
  }

  /**
   * The price query: a membership test on the normalised house ids, then an
   * equality on the item, with the parameters in that order.
   */
  lemma PriceQuery(houses: Rows, id: string)
    ensures Built(ItemSummarySql, PriceFilter(houses, id), ItemSummaryMapping)
         == Ok(Query("SELECT * FROM tblItemSummary WHERE house IN(?) AND item = ?",
                     [List(Normalize(HouseIds(houses))), Atom(Str(id))]))
  {
    var e1 := Entry("house", List(HouseIds(houses)));
    var e2 := Entry("id", Atom(Str(id)));
    MembershipCondition(e1, ItemSummaryMapping, "house");
    ColumnCondition(e2, ItemSummaryMapping, "item");
    PriceText();
    BuiltTwo(ItemSummarySql, e1, e2, ItemSummaryMapping);
  }

  lemma HouseIdsExample()
    ensures HouseIds([HouseRow(Num(101)), HouseRow(Num(205)), HouseRow(Num(101))]) == [Num(101), Num(205), Num(101)]
  {
  }

  /** Houses 101, 205, 101 and item 775: `house IN(?) AND item = ?` with `[[101, 205], "775"]`. */
  lemma ItemSummaryExample()
    ensures Built(ItemSummarySql, PriceFilter([HouseRow(Num(101)), HouseRow(Num(205)), HouseRow(Num(101))], "775"), ItemSummaryMapping)
         == Ok(Query("SELECT * FROM tblItemSummary WHERE house IN(?) AND item = ?",
                     [List([Num(101), Num(205)]), Atom(Str("775"))]))
  {
    var houses := [HouseRow(Num(101)), HouseRow(Num(205)), HouseRow(Num(101))];
    HouseIdsExample();
    NormalizeDistinctThenRepeat(Num(101), Num(205));
    PriceQuery(houses, "775");
  }
}
