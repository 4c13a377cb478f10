/**
 * Inventory: the stock-availability check of a material-request line, the
 * stock status derived when an item is added, adding an item, and the search
 * filter (src/components/InventoryManager.tsx).
 */
module Inventory {
  import opened Optional
  import opened Seqs
  import Text

  datatype StockStatus = InStock | LowStock | OutOfStock

  datatype Item = Item(
    id: string,
    name: string,
    category: string,
    currentStock: int,
    minimumStock: int,
    unit: string,
    unitCost: int,
    location: string,
    lastUpdated: string,
    status: StockStatus)

  datatype Urgency = Low | Medium | High | Urgent

  /** A material-request line as the availability panel sees it. */
  datatype RequestLine = RequestLine(
    id: string,
    name: string,
    quantity: int,
    unit: string,
    description: string,
    urgency: Urgency)

  datatype Availability = Availability(available: bool, reason: string, action: string)

  /** The add-item form's fields (`newItem`). */
  datatype Form = Form(
    name: string,
    category: string,
    currentStock: int,
    minimumStock: int,
    unit: string,
    unitCost: int,
    location: string)

  const EmptyForm := Form("", "", 0, 0, "", 0, "")

  /** Two names match when they agree after lower-casing. */
  predicate SameName(a: string, b: string)
  {
    Text.Lower(a) == Text.Lower(b)
  }

  /** `inventory.find(...)` by name: the index of the first item whose name matches. */
  function FirstByName(inventory: seq<Item>, name: string): (r: Option<nat>)
    ensures r == None <==> forall j :: 0 <= j < |inventory| ==> !SameName(inventory[j].name, name)
    ensures r.Some? ==> r.value < |inventory| && SameName(inventory[r.value].name, name)
    ensures r.Some? ==> forall j :: 0 <= j < r.value ==> !SameName(inventory[j].name, name)
  {
    if inventory == [] then None
    else if SameName(inventory[0].name, name) then Some(0)
    else match FirstByName(inventory[1..], name)
      case None => None
      case Some(k) => Some(k + 1)
  }

  const NotInInventory := Availability(false, "Item not in inventory", "Add to inventory")
  const Sufficient := Availability(true, "Sufficient stock available", "Use from inventory")
  const OutOfStockVerdict := Availability(false, "Out of stock", "Purchase full quantity")

  /**
   * The reason given for a partial shortage: after "Only " come the decimal
   * digits of the stock, and the text ends with the digits of the quantity
   * needed, so both numbers can be read back from it.
   */
  function ShortageReason(stock: nat, unit: string, need: nat): (r: string)
    ensures "Only " + Text.NatToString(stock) + " " <= r
    ensures var nd := Text.NatToString(need); |nd| <= |r| && r[|r| - |nd|..] == nd
  {
    ShortageReasonParts(Text.NatToString(stock), unit, Text.NatToString(need));
    "Only " + Text.NatToString(stock) + " " + unit + " available, need " + Text.NatToString(need)
  }

  lemma ShortageReasonUnfolds(stock: nat, unit: string, need: nat)
    ensures ShortageReason(stock, unit, need)
      == "Only " + Text.NatToString(stock) + " " + unit + " available, need " + Text.NatToString(need)
  {
  }

  lemma ShortageReasonParts(st: string, unit: string, nd: string)
    ensures var r := "Only " + st + " " + unit + " available, need " + nd;
      r[..5] == "Only " && r[5..5 + |st|] == st && r[5 + |st|] == ' ' && r[|r| - |nd|..] == nd
  {
  }

  /** `checkMRFAvailability`: the verdict for one request line against the inventory. */
  function CheckAvailability(inventory: seq<Item>, line: RequestLine): (v: Availability)
    ensures FirstByName(inventory, line.name) == None ==> v == NotInInventory
    ensures FirstByName(inventory, line.name).Some? ==>
      var item := inventory[FirstByName(inventory, line.name).value];
      && (v.available <==> item.currentStock >= line.quantity)
      && (item.currentStock >= line.quantity ==> v == Sufficient)
      && (0 < item.currentStock < line.quantity ==>
            v == Availability(false, ShortageReason(item.currentStock, item.unit, line.quantity),
                              "Purchase additional quantity"))
      && (item.currentStock < line.quantity && item.currentStock <= 0 ==> v == OutOfStockVerdict)
  {
    match FirstByName(inventory, line.name)
    case None => NotInInventory
    case Some(k) =>
      var item := inventory[k];
      if item.currentStock >= line.quantity then Sufficient
      else if item.currentStock > 0 then
        Availability(false, ShortageReason(item.currentStock, item.unit, line.quantity),
                     "Purchase additional quantity")
      else OutOfStockVerdict
  }

  /** Only the first matching item is consulted: items after it do not change the verdict. */
  lemma {:induction false} FirstMatchDecides(inventory: seq<Item>, later: seq<Item>, line: RequestLine)
    requires FirstByName(inventory, line.name).Some?
    ensures CheckAvailability(inventory + later, line) == CheckAvailability(inventory, line)
  {
    FirstByNamePrefix(inventory, later, line.name);
  }

  lemma {:induction false} FirstByNamePrefix(inventory: seq<Item>, later: seq<Item>, name: string)
    requires FirstByName(inventory, name).Some?
    ensures FirstByName(inventory + later, name) == FirstByName(inventory, name)
  {
    var k := FirstByName(inventory, name).value;
    var whole := inventory + later;
    assert whole[k] == inventory[k];
    assert forall j :: 0 <= j < k ==> whole[j] == inventory[j];
  }

  /** The status stored for an item with the given stock levels (the expression in `handleAddItem`). */
  function DeriveStatus(currentStock: int, minimumStock: int): (s: StockStatus)
    ensures s == OutOfStock <==> currentStock <= 0
    ensures s == LowStock <==> 0 < currentStock <= minimumStock
    ensures s == InStock <==> currentStock > 0 && currentStock > minimumStock
  {
    if currentStock <= 0 then OutOfStock
    else if currentStock <= minimumStock then LowStock
    else InStock
  }

  /** The required-field check of `handleAddItem`. */
  predicate FormAccepted(f: Form)
  {
    f.name != "" && f.category != ""
  }

  /** The item `handleAddItem` builds from an accepted form. */
  function NewItem(f: Form, now: nat, today: string): (item: Item)
    ensures item.status == DeriveStatus(item.currentStock, item.minimumStock)
    ensures item.id == Text.NatToString(now) && item.lastUpdated == today
    ensures item.name == f.name && item.category == f.category && item.unit == f.unit
    ensures item.currentStock == f.currentStock && item.minimumStock == f.minimumStock
    ensures item.unitCost == f.unitCost && item.location == f.location
  {
    Item(Text.NatToString(now), f.name, f.category, f.currentStock, f.minimumStock, f.unit,
         f.unitCost, f.location, today, DeriveStatus(f.currentStock, f.minimumStock))
  }

  /** `filteredInventory`: the items whose name or category contains the search term, ignoring case. */
  function Search(inventory: seq<Item>, term: string): (r: seq<Item>)
    ensures forall item :: item in r <==> item in inventory && MatchesTerm(item, term)
  {
    Filter(inventory, (item: Item) => MatchesTerm(item, term))
  }

  predicate MatchesTerm(item: Item, term: string)
  {
    Text.Includes(Text.Lower(item.name), Text.Lower(term)) ||
    Text.Includes(Text.Lower(item.category), Text.Lower(term))
  }

  /** The search keeps the inventory's order. */
  lemma SearchKeepsOrder(inventory: seq<Item>, term: string)
    ensures IsSubsequence(Search(inventory, term), inventory)
  {
    FilterIsSubsequence(inventory, (item: Item) => MatchesTerm(item, term));
  }

  /** An empty search term shows the whole inventory. */
  lemma EmptySearchShowsAll(inventory: seq<Item>)
    ensures Search(inventory, "") == inventory
  {
    forall i | 0 <= i < |inventory| ensures MatchesTerm(inventory[i], "") {
      Text.IncludesEmpty(Text.Lower(inventory[i].name));
    }
    FilterKeepsAll(inventory, (item: Item) => MatchesTerm(item, ""));
  }

  /** Every stored status agrees with the item's stock levels. */
  ghost predicate StatusesDerived(inventory: seq<Item>)
  {
    forall i :: 0 <= i < |inventory| ==>
      inventory[i].status == DeriveStatus(inventory[i].currentStock, inventory[i].minimumStock)
  }

  /** The three items the component starts with. */
  const SeedInventory := [
    Item("1", "A4 Copy Paper", "Office Supplies", 50, 20, "reams", 5, "Storage Room A", "2024-01-20", InStock),
    Item("2", "Blue Ballpoint Pens", "Office Supplies", 5, 25, "boxes", 12, "Supply Cabinet", "2024-01-19", LowStock),
    Item("3", "Steel Pipes (2 inch)", "Construction", 0, 10, "pieces", 45, "Warehouse B", "2024-01-18", OutOfStock)
  ]

  /** The paper line of the seed data: ten reams are in stock, sixty are not. */
  lemma PaperScenario(line: RequestLine)
    requires line.name == "A4 Copy Paper"
    ensures line.quantity == 10 ==> CheckAvailability(SeedInventory, line) == Sufficient
    ensures line.quantity == 60 ==>
      CheckAvailability(SeedInventory, line) ==
        Availability(false, "Only 50 reams available, need 60", "Purchase additional quantity")
  {
    assert FirstByName(SeedInventory, line.name) == Some(0);
    if line.quantity == 60 {
      ShortageOfPaper();
    }
  }

  lemma ShortageOfPaper()
    ensures ShortageReason(50, "reams", 60) == "Only 50 reams available, need 60"
  {
    FiftyAndSixty();
    ShortageReasonUnfolds(50, "reams", 60);
    PaperShortageText();
  }

  lemma PaperShortageText()
    ensures "Only " + "50" + " " + "reams" + " available, need " + "60" == "Only 50 reams available, need 60"
  {
  }

  lemma FiftyAndSixty()
    ensures Text.NatToString(50) == "50" && Text.NatToString(60) == "60"
  {
  }

  /** The component's state: the inventory list and the add-item form. */
  class InventoryManager {
    var inventory: seq<Item>
    var form: Form

    ghost predicate Valid()
      reads this
    {
      StatusesDerived(inventory)
    }

    constructor ()
      ensures Valid()
      ensures inventory == SeedInventory && form == EmptyForm
    {
      inventory := SeedInventory;
      form := EmptyForm;
    }

    /** The add-item form's `onChange` handlers. */
    method EditForm(f: Form)
      requires Valid()
      modifies this
      ensures Valid()
      ensures inventory == old(inventory) && form == f
    {
      form := f;
    }

    /** `handleAddItem`: reject a form without name or category, or append the new item and clear the form. */
    method AddItem(now: nat, today: string) returns (added: bool)
      requires Valid()
      modifies this
      ensures Valid()
      ensures added == FormAccepted(old(form))
      ensures added ==> inventory == old(inventory) + [NewItem(old(form), now, today)] && form == EmptyForm
      ensures !added ==> inventory == old(inventory) && form == old(form)
    {
      if !FormAccepted(form) {
        return false;
      }
      inventory := inventory + [NewItem(form, now, today)];
      form := EmptyForm;
      added := true;
    }
  }
}
