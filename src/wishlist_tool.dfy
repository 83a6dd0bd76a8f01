/** tools/wishlist_tool.py: the wishlist is a JSON list kept in one file; `add_to_wishlist`
    loads it, appends one entry and writes the whole list back, and `list_wishlist` loads it.
    The file is a field of the class; writing it back cannot fail in this model. */
module WishlistTool {
  import opened Wrappers
  import opened JsonValues
  import opened A2ATypes

  /** `product.copy()`, with "alert_price" set when a threshold is given. The caller's dict is
      a value here, so it cannot be changed by the add. */
  function Entry(product: Dict, alertPrice: Option<real>): (e: Dict)
    ensures alertPrice.Some? ==> e.Keys == product.Keys + {"alert_price"} && e["alert_price"] == JNum(alertPrice.value)
    ensures alertPrice.None? ==> e == product
    ensures forall k :: k in product && k != "alert_price" ==> k in e && e[k] == product[k]
  {
    if alertPrice.Some? then product["alert_price" := JNum(alertPrice.value)] else product
  }

  /** `_load()`: a missing file reads as the empty list; a garbled one raises the decoder's
      error; otherwise whatever the file holds. */
  function Load(file: JsonFile): (r: Result<Json, Exc>)
    ensures file.Missing? ==> r == Success(JArr([]))
    ensures file.Garbled? ==> r.Failure? && r.error.name == "JSONDecodeError"
    ensures file.Holding? ==> r == Success(file.data)
  {
    match file
    case Missing => Success(JArr([]))
    case Garbled(msg) => Failure(Exc("JSONDecodeError", msg))
    case Holding(data) => Success(data)
  }

  /** The file after one add, or the exception the add raises (the file then keeps its old
      contents). `wishlist.append` on anything but a list raises AttributeError. */
  function Added(file: JsonFile, entry: Dict): (r: Result<JsonFile, Exc>)
  {
    match Load(file)
    case Failure(e) => Failure(e)
    case Success(JArr(xs)) => Success(Holding(JArr(xs + [JObj(entry)])))
    case Success(other) => Failure(Exc("AttributeError", "'" + TypeName(other) + "' object has no attribute 'append'"))
  }

  /** Adding appends exactly one entry at the end of the listed wishlist and leaves the earlier
      entries as they were; it fails exactly when the wishlist does not load as a list. */
  lemma AddAppendsOne(file: JsonFile, entry: Dict)
    ensures Added(file, entry).Success? <==> Load(file).Success? && Load(file).value.JArr?
    ensures Added(file, entry).Success? ==>
              var before := Load(file).value.items;
              var after := Load(Added(file, entry).value);
              after.Success? && after.value.JArr?
              && after.value.items == before + [JObj(entry)]
              && after.value.items[|before|] == JObj(entry)
              && after.value.items[..|before|] == before
  {
    if Added(file, entry).Success? {
      var before := Load(file).value.items;
      assert (before + [JObj(entry)])[..|before|] == before;
    }
  }

  /** With no file yet, the first add leaves a wishlist of that one entry. */
  lemma FirstAdd(product: Dict, alertPrice: Option<real>)
    ensures Load(Missing) == Success(JArr([]))
    ensures Added(Missing, Entry(product, alertPrice)) == Success(Holding(JArr([JObj(Entry(product, alertPrice))])))
  {
    var empty: seq<Json> := [];
    assert empty + [JObj(Entry(product, alertPrice))] == [JObj(Entry(product, alertPrice))];
  }

  class Wishlist {
    /** memory/wishlist.json */
    var file: JsonFile

    constructor (initial: JsonFile)
      ensures file == initial
    {
      file := initial;
    }

    /** `list_wishlist()` */
    function List(): (r: Result<Json, Exc>)
      reads this
      ensures file.Missing? ==> r == Success(JArr([]))
    {
      Load(file)
    }

    /** `add_to_wishlist(product, alert_price)` */
    method Add(product: Dict, alertPrice: Option<real> := None) returns (r: Result<(), Exc>)
      modifies this
      ensures var after := Added(old(file), Entry(product, alertPrice));
              (r.Success? <==> after.Success?)
              && (after.Success? ==> file == after.value)
              && (after.Failure? ==> r == Failure(after.error) && file == old(file))
    {
      var entry := Entry(product, alertPrice);
      var loaded := Load(file);
      if loaded.Failure? {
        return Failure(loaded.error);
      }
      match loaded.value
      case JArr(xs) =>
        file := Holding(JArr(xs + [JObj(entry)]));
        return Success(());
      case other =>
        return Failure(Exc("AttributeError", "'" + TypeName(other) + "' object has no attribute 'append'"));
    }
  }
}
