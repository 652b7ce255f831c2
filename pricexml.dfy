/**
 * `priceToXml`: the price rows of one item become the object tree the `xml`
 * library serialises: an item node with the item id as attribute and one
 * price node per row.
 */
module PriceXml {
  import opened Values

  /**
   * A row of `SELECT * FROM tblItemSummary`, with the columns the tree reads.
   * The tree only copies column values, so their type `V` is left open.
   */
  datatype PriceRow<V> = PriceRow(item: V, house: V, lastseen: V, level: V, quantity: V, price: V)

  /**
   * The object shapes the tree is built from: `{_attr: {...}}` (attributes,
   * in order), `{name: [children]}` (an element) and `{name: value}` (an
   * element holding one value).
   */
  datatype XmlNode<V> =
    | Attrs(attrs: seq<(string, V)>)
    | Element(name: string, children: seq<XmlNode<V>>)
    | Leaf(name: string, value: V)

  /** The price node of one row. */
  function PriceNode<V(==)>(r: PriceRow<V>): (n: XmlNode<V>)
    ensures ReadPrice(r.item, n) == Some(r)
  {
    Element("price", [
      Attrs([("house", r.house), ("lastseen", r.lastseen), ("level", r.level)]),
      Leaf("quantity", r.quantity),
      Leaf("value", r.price)])
  }

  /** The price nodes of the rows, in row order. */
  function PriceNodes<V(==)>(rows: seq<PriceRow<V>>): (ns: seq<XmlNode<V>>)
    ensures |ns| == |rows| && forall i :: 0 <= i < |rows| ==> ns[i] == PriceNode(rows[i])
  {
    if rows == [] then [] else PriceNodes(rows[..|rows| - 1]) + [PriceNode(rows[|rows| - 1])]
  }

  /** The tree `priceToXml` returns for a non-empty row sequence. */
  function ItemTree<V(==)>(rows: seq<PriceRow<V>>): (t: XmlNode<V>)
    requires |rows| > 0
    ensures t.Element? && t.name == "item" && |t.children| == |rows| + 1
    ensures t.children[0] == Attrs([("id", rows[0].item)])
    ensures forall i :: 0 <= i < |rows| ==> t.children[i + 1] == PriceNode(rows[i])
  {
    Element("item", [Attrs([("id", rows[0].item)])] + PriceNodes(rows))
  }

  /**
   * `priceToXml(result)`: the loop pushing one price node per row, then the
   * item node. An empty result fails where the source reads `result[0]`.
   */
  method PriceToXml<V(==)>(result: seq<PriceRow<V>>) returns (r: Result<XmlNode<V>>)
    ensures r.Err? <==> |result| == 0
    ensures r.Err? ==> r.error == NoRows
    ensures r.Ok? ==> r.value == ItemTree(result)
    ensures r.Ok? ==>
      && r.value.Element? && r.value.name == "item"
      && |r.value.children| == |result| + 1
      && r.value.children[0] == Attrs([("id", result[0].item)])
      && forall i :: 0 <= i < |result| ==> r.value.children[i + 1] == PriceNode(result[i])
  {
    var prices: seq<XmlNode<V>> := [];
    for i := 0 to |result|
      invariant prices == PriceNodes(result[..i])
    {
      assert result[..i + 1][..i] == result[..i];
      prices := prices + [PriceNode(result[i])];
    }
    assert result[..|result|] == result;
    if |result| == 0 {
      return Err(NoRows);
    }
    r := Ok(Element("item", [Attrs([("id", result[0].item)])] + prices));
  }

  /** Reads one price node back into a row of the given item. */
  function ReadPrice<V(==)>(item: V, n: XmlNode<V>): Option<PriceRow<V>> {
    if && n.Element? && n.name == "price" && |n.children| == 3
       && n.children[0].Attrs? && |n.children[0].attrs| == 3
       && n.children[0].attrs[0].0 == "house"
       && n.children[0].attrs[1].0 == "lastseen"
       && n.children[0].attrs[2].0 == "level"
       && n.children[1].Leaf? && n.children[1].name == "quantity"
       && n.children[2].Leaf? && n.children[2].name == "value"
    then
      var a := n.children[0].attrs;
      Some(PriceRow(item, a[0].1, a[1].1, a[2].1, n.children[1].value, n.children[2].value))
    else None
  }

  function ReadPrices<V(==)>(item: V, ns: seq<XmlNode<V>>): Option<seq<PriceRow<V>>> {
    if ns == [] then Some([])
    else
      match ReadPrices(item, ns[..|ns| - 1])
      case None => None
      case Some(rs) =>
        match ReadPrice(item, ns[|ns| - 1])
        case None => None
        case Some(r) => Some(rs + [r])
  }

  /** Reads an item tree back into its rows: the item id from the attribute, the rest from the price nodes. */
  function ReadItem<V(==)>(n: XmlNode<V>): Option<seq<PriceRow<V>>> {
    if && n.Element? && n.name == "item" && |n.children| >= 1
       && n.children[0].Attrs? && |n.children[0].attrs| == 1 && n.children[0].attrs[0].0 == "id"
    then ReadPrices(n.children[0].attrs[0].1, n.children[1..])
    else None
  }

  predicate SameItem<V(==)>(rows: seq<PriceRow<V>>) {
    forall i :: 0 <= i < |rows| ==> rows[i].item == rows[0].item
  }

  lemma {:induction false} ReadPriceNodes<V>(item: V, rows: seq<PriceRow<V>>)
    requires forall i :: 0 <= i < |rows| ==> rows[i].item == item
    ensures ReadPrices(item, PriceNodes(rows)) == Some(rows)
  {
    if rows != [] {
      var init := rows[..|rows| - 1];
      ReadPriceNodes(item, init);
      var ns := PriceNodes(rows);
      assert ns[..|ns| - 1] == PriceNodes(init);
      assert rows == init + [rows[|rows| - 1]];
    }
  }

  /**
   * The tree loses nothing: when every row is for the same item, as the
   * price query's `item = ?` condition makes them, reading the tree back
   * gives the rows in their order.
   */
  lemma ItemTreeRoundTrip<V>(rows: seq<PriceRow<V>>)
    requires |rows| > 0 && SameItem(rows)
    ensures ReadItem(ItemTree(rows)) == Some(rows)
  {
    var t := ItemTree(rows);
    assert t.children[1..] == PriceNodes(rows);
    ReadPriceNodes(rows[0].item, rows);
  }
}
