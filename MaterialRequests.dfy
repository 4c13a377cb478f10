/**
 * The material request form: editing its list of line items and the
 * two-stage check run on submit (src/components/MRFForm.tsx).
 */
module MaterialRequests {
  import opened Seqs
  import Text

  datatype Urgency = Low | Medium | High | Urgent

  datatype LineItem = LineItem(
    id: string,
    description: string,
    quantity: int,
    unit: string,
    urgency: Urgency,
    purpose: string)

  /** The form's header fields (`formData`). */
  datatype Header = Header(
    mrfNumber: string,
    pic: string,
    department: string,
    project: string,
    requestDate: string,
    requiredDate: string,
    justification: string)

  /** The fields the item editors change, each with its new value. */
  datatype FieldUpdate =
    | SetDescription(description: string)
    | SetQuantity(quantity: int)
    | SetUnit(unit: string)
    | SetUrgency(urgency: Urgency)
    | SetPurpose(purpose: string)

  /** A fresh line: one piece, medium urgency, no description or purpose yet. */
  function BlankItem(id: string): (item: LineItem)
    ensures item.id == id && item.quantity == 1 && item.unit == "pcs" && item.urgency == Medium
    ensures item.description == "" && item.purpose == ""
  {
    LineItem(id, "", 1, "pcs", Medium, "")
  }

  /** `{ ...item, [field]: value }`: the one field named by the update changes, nothing else does. */
  function Apply(item: LineItem, u: FieldUpdate): (r: LineItem)
    ensures r.id == item.id
    ensures r.description == if u.SetDescription? then u.description else item.description
    ensures r.quantity == if u.SetQuantity? then u.quantity else item.quantity
    ensures r.unit == if u.SetUnit? then u.unit else item.unit
    ensures r.urgency == if u.SetUrgency? then u.urgency else item.urgency
    ensures r.purpose == if u.SetPurpose? then u.purpose else item.purpose
  {
    match u
    case SetDescription(v) => item.(description := v)
    case SetQuantity(v) => item.(quantity := v)
    case SetUnit(v) => item.(unit := v)
    case SetUrgency(v) => item.(urgency := v)
    case SetPurpose(v) => item.(purpose := v)
  }

  /** `updateItem`'s new list: items with the id get the update, the others stay as they were. */
  function UpdateById(items: seq<LineItem>, id: string, u: FieldUpdate): (r: seq<LineItem>)
    ensures |r| == |items|
    ensures forall i :: 0 <= i < |items| && items[i].id == id ==> r[i] == Apply(items[i], u)
    ensures forall i :: 0 <= i < |items| && items[i].id != id ==> r[i] == items[i]
    ensures forall i :: 0 <= i < |items| ==> r[i].id == items[i].id
  {
    MapWhere(items, (item: LineItem) => item.id == id, (item: LineItem) => Apply(item, u))
  }

  /** `removeItem`'s new list: every item with the id is dropped, the rest keep their order. */
  function RemoveById(items: seq<LineItem>, id: string): (r: seq<LineItem>)
    ensures forall i :: 0 <= i < |r| ==> r[i].id != id && r[i] in items
    ensures forall i :: 0 <= i < |items| && items[i].id != id ==> items[i] in r
    ensures IsSubsequence(r, items)
    ensures multiset(r) <= multiset(items)
    ensures forall i :: 0 <= i < |items| && items[i].id != id ==> multiset(r)[items[i]] == multiset(items)[items[i]]
  {
    FilterIsSubsequence(items, (item: LineItem) => item.id != id);
    FilterMultiset(items, (item: LineItem) => item.id != id);
    FilterSubMultiset(items, (item: LineItem) => item.id != id);
    Filter(items, (item: LineItem) => item.id != id)
  }

  predicate DistinctIds(items: seq<LineItem>)
  {
    forall i, j :: 0 <= i < j < |items| ==> items[i].id != items[j].id
  }

  /** With distinct ids, removing the id of one item removes exactly one item. */
  lemma {:induction false} RemoveOneOfDistinct(items: seq<LineItem>, k: nat)
    requires DistinctIds(items) && k < |items|
    ensures |RemoveById(items, items[k].id)| == |items| - 1
  {
    var id := items[k].id;
    var p := (item: LineItem) => item.id != id;
    if k == 0 {
      assert forall i :: 0 <= i < |items[1..]| ==> p(items[1..][i]);
      FilterKeepsAll(items[1..], p);
    } else {
      assert DistinctIds(items[1..]);
      assert items[1..][k - 1] == items[k];
      RemoveOneOfDistinct(items[1..], k - 1);
    }
  }

  /** The trash button is drawn on each item only while there is more than one. */
  predicate RemoveButtonShown(items: seq<LineItem>)
  {
    |items| > 1
  }

  /** With distinct ids, the trash button removes one item and never empties the list. */
  lemma RemoveButtonKeepsOneItem(items: seq<LineItem>, k: nat)
    requires DistinctIds(items) && RemoveButtonShown(items) && k < |items|
    ensures |RemoveById(items, items[k].id)| == |items| - 1 >= 1
  {
    RemoveOneOfDistinct(items, k);
  }

  /** The list stays non-empty exactly when some item has a different id. */
  lemma RemoveLeavesOthers(items: seq<LineItem>, id: string)
    ensures RemoveById(items, id) != [] <==> exists j :: 0 <= j < |items| && items[j].id != id
  {
    var r := RemoveById(items, id);
    if r != [] {
      assert r[0] in items;
    }
  }

  /** An item that still lacks its description or purpose. */
  predicate Incomplete(item: LineItem)
  {
    item.description == "" || item.purpose == ""
  }

  /** `items.some(item => !item.description || !item.purpose)`. */
  function SomeIncomplete(items: seq<LineItem>): (b: bool)
    ensures b <==> exists i :: 0 <= i < |items| && Incomplete(items[i])
  {
    if items == [] then false
    else Incomplete(items[0]) || SomeIncomplete(items[1..])
  }

  predicate HeaderComplete(h: Header)
  {
    h.pic != "" && h.department != "" && h.requiredDate != ""
  }

  datatype SubmitOutcome = MissingInformation | IncompleteItems | Submitted

  /**
   * `handleSubmit`: the header is checked first, and the items only when the
   * header is complete; quantities are not checked.
   */
  function Submit(h: Header, items: seq<LineItem>): (o: SubmitOutcome)
    ensures o == MissingInformation <==> !HeaderComplete(h)
    ensures o == IncompleteItems <==>
      HeaderComplete(h) && exists i :: 0 <= i < |items| && Incomplete(items[i])
    ensures o == Submitted <==>
      HeaderComplete(h) && forall i :: 0 <= i < |items| ==> !Incomplete(items[i])
  {
    if !HeaderComplete(h) then MissingInformation
    else if SomeIncomplete(items) then IncompleteItems
    else Submitted
  }

  /** Changing only quantities never changes the outcome of submitting. */
  lemma SubmitIgnoresQuantity(h: Header, items: seq<LineItem>, k: nat, q: int)
    requires k < |items|
    ensures Submit(h, items[k := items[k].(quantity := q)]) == Submit(h, items)
  {
    var changed := items[k := items[k].(quantity := q)];
    assert forall i :: 0 <= i < |items| ==> Incomplete(changed[i]) == Incomplete(items[i]);
  }

  /** The component's state: the header fields and the item list. */
  class MRFForm {
    var header: Header
    var items: seq<LineItem>

    /** The form as mounted at clock reading `now` on day `today`: one blank item with id "1". */
    constructor (now: nat, today: string)
      ensures header == Header("MRF-" + Text.NatToString(now), "", "", "", today, "", "")
      ensures items == [BlankItem("1")]
    {
      header := Header("MRF-" + Text.NatToString(now), "", "", "", today, "", "");
      items := [BlankItem("1")];
    }

    /** The header inputs' `onChange` handlers. */
    method EditHeader(h: Header)
      modifies this
      ensures header == h && items == old(items)
    {
      header := h;
    }

    /** `addItem`: append a blank item whose id is the clock reading. */
    method AddItem(now: nat)
      modifies this
      ensures items == old(items) + [BlankItem(Text.NatToString(now))] && header == old(header)
    {
      items := items + [BlankItem(Text.NatToString(now))];
    }

    /** `updateItem`: the list keeps its length and every id. */
    method UpdateItem(id: string, u: FieldUpdate)
      modifies this
      ensures items == UpdateById(old(items), id, u) && header == old(header)
    {
      items := UpdateById(items, id, u);
    }

    /**
     * `removeItem`, as reached from the trash button of item `k`, which is
     * drawn only while more than one item is listed; with distinct ids exactly
     * one item goes and the list stays non-empty.
     */
    method RemoveItemAt(k: nat)
      requires k < |items| && RemoveButtonShown(items)
      modifies this
      ensures old(DistinctIds(items)) ==> |items| == |old(items)| - 1 >= 1
      ensures items == RemoveById(old(items), old(items)[k].id) && header == old(header)
    {
      if DistinctIds(items) {
        RemoveButtonKeepsOneItem(items, k);
      }
      items := RemoveById(items, items[k].id);
    }
  }
}
