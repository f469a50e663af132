/**
 * The invoice rows the form edits and the two helpers that grow and shrink
 * that list in place (app.py, add_item and remove_item).
 */
module Items {
  import opened Wrappers

  /** The value of an item's 'image_type' key: 'auto', 'uploaded' or Python's None. */
  datatype ImageType = Auto | Uploaded | Unset

  /** One invoice row; 'image_data' is the uploaded file's bytes, if any. */
  datatype LineItem = LineItem(
    model: string,
    qty: int,
    price: real,
    spec: string,
    imageData: Option<seq<bv8>>,
    imageType: ImageType)

  /** What the form guarantees of a row: at least one unit and a price that is not negative. */
  predicate ValidItem(item: LineItem) {
    item.qty >= 1 && item.price >= 0.0
  }

  /** The row that the session starts with and that add_item appends. */
  function DefaultItem(): (item: LineItem)
    ensures ValidItem(item)
    ensures item.model == "YH8-527" && item.qty == 4 && item.price == 80.0
    ensures item.imageType == Auto && item.imageData == None
  {
    LineItem("YH8-527", 4, 80.0, "Stroke: 6 inch, Load: 600 lbs", None, Auto)
  }

  /** Python's reading of a list index: a negative index counts from the end. */
  function PyIndex(index: int, len: nat): int {
    if index < 0 then index + len else index
  }

  /** The list with the element at position i taken out (list.pop(i)). */
  function RemoveAt<T>(s: seq<T>, i: nat): (r: seq<T>)
    requires i < |s|
    ensures |r| == |s| - 1
    ensures forall k :: 0 <= k < i ==> r[k] == s[k]
    ensures forall k :: i <= k < |r| ==> r[k] == s[k + 1]
    ensures multiset(r) + multiset{s[i]} == multiset(s)
  {
    assert s == s[..i] + [s[i]] + s[i + 1..];
    s[..i] + s[i + 1..]
  }

  /** Removing the row that was just appended gives back the list as it was. */
  lemma AppendThenRemoveLast<T>(s: seq<T>, x: T)
    ensures RemoveAt(s + [x], |s|) == s
  {
    assert (s + [x])[..|s|] == s;
  }

  /**
   * The session's 'invoice_items' list. Valid() is what the application keeps
   * true: the list is never empty.
   */
  class ItemList {
    var items: seq<LineItem>

    ghost predicate Valid()
      reads this
    {
      |items| >= 1
    }

    /** The session state's first value: one default row. */
    constructor ()
      ensures Valid()
      ensures items == [DefaultItem()]
    {
      items := [DefaultItem()];
    }

    /** add_item: append one default row and leave every earlier row as it was. */
    method AddItem()
      modifies this
      ensures items == old(items) + [DefaultItem()]
      ensures old(Valid()) ==> Valid()
    {
      items := items + [DefaultItem()];
    }

    /**
     * remove_item: pop the row at 'index' unless it is the only one. Python's
     * pop accepts -len <= index < len (a negative index counts from the end) and
     * raises IndexError otherwise; indexError reports that case, in which the
     * list is left as it was.
     */
    method RemoveItem(index: int) returns (indexError: bool)
      modifies this
      ensures old(|items|) <= 1 ==> !indexError && items == old(items)
      ensures old(|items|) > 1 && -old(|items|) <= index < old(|items|) ==>
        !indexError && items == RemoveAt(old(items), PyIndex(index, old(|items|)))
      ensures old(|items|) > 1 && !(-old(|items|) <= index < old(|items|)) ==>
        indexError && items == old(items)
      ensures old(Valid()) ==> Valid()
    {
      indexError := false;
      if |items| > 1 {
        var i := PyIndex(index, |items|);
        if 0 <= i < |items| {
          items := RemoveAt(items, i);
        } else {
          indexError := true;
        }
      }
    }
  }

  /** One press of a form button: "Add Item", or "Remove" on the row at the given index. */
  datatype Op = Add | Remove(index: int)

  /** The number of Add presses in a session. */
  function Adds(ops: seq<Op>): nat {
    if ops == [] then 0 else Adds(ops[..|ops| - 1]) + (if ops[|ops| - 1].Add? then 1 else 0)
  }

  /**
   * A session that starts from the default list and is edited by any sequence of
   * Add and Remove presses, in any order: it keeps at least one row, never more
   * than one per Add beyond the first, and (no row being edited) every row is the
   * default row.
   */
  method EditSession(ops: seq<Op>) returns (list: ItemList)
    ensures list.Valid()
    ensures |list.items| <= 1 + Adds(ops)
    ensures forall k :: 0 <= k < |list.items| ==> list.items[k] == DefaultItem()
  {
    list := new ItemList();
    var i := 0;
    while i < |ops|
      invariant 0 <= i <= |ops|
      invariant list.Valid()
      invariant |list.items| <= 1 + Adds(ops[..i])
      invariant forall k :: 0 <= k < |list.items| ==> list.items[k] == DefaultItem()
    {
      assert ops[..i + 1][..i] == ops[..i];
      match ops[i] {
        case Add =>
          list.AddItem();
        case Remove(index) =>
          var _ := list.RemoveItem(index);
      }
      i := i + 1;
    }
    assert ops[..i] == ops;
  }
}
