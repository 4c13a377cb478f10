/**
 * Deliveries: scheduling, status updates with the delivered-date stamp, the
 * status tabs and the one transition button each tab offers
 * (src/components/DeliveryCoordinator.tsx).
 */
module Deliveries {
  import opened Optional
  import opened Seqs
  import Text

  datatype Status = Scheduled | InTransit | Delivered | PendingCoordination

  datatype DeliveryType = Office | Site | DirectToSite

  datatype DeliveryMethod = SupplierDelivery | Lalamove | CompanyVehicle

  datatype Delivery = Delivery(
    id: string,
    poId: string,
    supplierName: string,
    items: seq<string>,
    deliveryType: DeliveryType,
    status: Status,
    scheduledDate: string,
    deliveredDate: Option<string>,
    address: string,
    contactPerson: string,
    contactNumber: string,
    deliveryMethod: DeliveryMethod,
    trackingNumber: Option<string>,
    notes: Option<string>)

  /** The coordinate-delivery dialog's fields (`newDelivery`). */
  datatype Form = Form(
    poId: string,
    supplierName: string,
    deliveryType: DeliveryType,
    scheduledDate: string,
    address: string,
    contactPerson: string,
    contactNumber: string,
    deliveryMethod: DeliveryMethod,
    notes: string)

  const EmptyForm := Form("", "", Office, "", "", "", "", SupplierDelivery, "")

  /** The required-field check of `handleScheduleDelivery`. */
  predicate FormAccepted(f: Form)
  {
    f.poId != "" && f.scheduledDate != "" && f.address != ""
  }

  /** The delivery `handleScheduleDelivery` builds from an accepted form at clock reading `now`. */
  function NewDelivery(f: Form, now: nat): (d: Delivery)
    ensures d.status == Scheduled && d.items == ["New Items"]
    ensures d.id == "DEL-" + Text.NatToString(now)
    ensures d.poId == f.poId && d.supplierName == f.supplierName && d.deliveryType == f.deliveryType
    ensures d.scheduledDate == f.scheduledDate && d.address == f.address
    ensures d.contactPerson == f.contactPerson && d.contactNumber == f.contactNumber
    ensures d.deliveryMethod == f.deliveryMethod && d.notes == Some(f.notes)
    ensures d.deliveredDate == None && d.trackingNumber == None
  {
    Delivery("DEL-" + Text.NatToString(now), f.poId, f.supplierName, ["New Items"], f.deliveryType,
      Scheduled, f.scheduledDate, None, f.address, f.contactPerson, f.contactNumber,
      f.deliveryMethod, None, Some(f.notes))
  }

  /** One delivery after a status update: `delivered` stamps today's date, any other status leaves it. */
  function WithStatus(d: Delivery, s: Status, today: string): Delivery
  {
    d.(status := s, deliveredDate := if s == Delivered then Some(today) else d.deliveredDate)
  }

  /** `updateDeliveryStatus`'s new list: every delivery with the id gets the status, whatever it had. */
  function UpdateStatus(ds: seq<Delivery>, id: string, s: Status, today: string): (r: seq<Delivery>)
    ensures |r| == |ds|
    ensures forall i :: 0 <= i < |ds| && ds[i].id == id ==>
      && r[i].status == s
      && r[i].deliveredDate == (if s == Delivered then Some(today) else ds[i].deliveredDate)
      && r[i] == ds[i].(status := s, deliveredDate := r[i].deliveredDate)
    ensures forall i :: 0 <= i < |ds| && ds[i].id != id ==> r[i] == ds[i]
  {
    MapWhere(ds, (d: Delivery) => d.id == id, (d: Delivery) => WithStatus(d, s, today))
  }

  /** A delivered delivery always carries a delivered date. */
  ghost predicate DeliveredAreDated(ds: seq<Delivery>)
  {
    forall i :: 0 <= i < |ds| ==> ds[i].status == Delivered ==> ds[i].deliveredDate.Some?
  }

  lemma UpdateStatusKeepsDates(ds: seq<Delivery>, id: string, s: Status, today: string)
    requires DeliveredAreDated(ds)
    ensures DeliveredAreDated(UpdateStatus(ds, id, s, today))
  {
  }

  /**
   * The status the button on a delivery's card moves it to, by the tab the
   * card is in: "Mark In Transit", "Mark Delivered", "Schedule Delivery";
   * the Delivered tab has no such button.
   */
  function ButtonTarget(s: Status): (next: Option<Status>)
    ensures next == None <==> s == Delivered
    ensures next.Some? ==> Rank(next.value) == Rank(s) + 1
  {
    match s
    case Scheduled => Some(InTransit)
    case InTransit => Some(Delivered)
    case PendingCoordination => Some(Scheduled)
    case Delivered => None
  }

  /** Position in the delivery lifecycle. */
  function Rank(s: Status): nat
  {
    match s
    case PendingCoordination => 0
    case Scheduled => 1
    case InTransit => 2
    case Delivered => 3
  }

  predicate DistinctIds(ds: seq<Delivery>)
  {
    forall i, j :: 0 <= i < j < |ds| ==> ds[i].id != ds[j].id
  }

  /**
   * Clicking the button on card `k`: with distinct ids it advances exactly
   * that delivery one step and leaves the others, so no status moves back
   * and a delivered delivery stays delivered.
   */
  lemma ButtonAdvancesOnlyItsCard(ds: seq<Delivery>, k: nat, today: string)
    requires DistinctIds(ds) && k < |ds| && ButtonTarget(ds[k].status).Some?
    ensures var r := UpdateStatus(ds, ds[k].id, ButtonTarget(ds[k].status).value, today);
      && Rank(r[k].status) == Rank(ds[k].status) + 1
      && (forall i :: 0 <= i < |ds| && i != k ==> r[i] == ds[i])
      && (forall i :: 0 <= i < |ds| ==> Rank(r[i].status) >= Rank(ds[i].status))
      && (forall i :: 0 <= i < |ds| && ds[i].status == Delivered ==> r[i].status == Delivered)
  {
  }

  /**
   * Without distinct ids the guarantee fails: two deliveries that share an id,
   * one scheduled and one delivered; "Mark In Transit" on the first moves the
   * second back to in transit.
   */
  lemma SharedIdReopensDelivered(a: Delivery, b: Delivery, today: string)
    requires a.id == b.id && a.status == Scheduled && b.status == Delivered
    ensures UpdateStatus([a, b], a.id, ButtonTarget(a.status).value, today)[1].status == InTransit
  {
  }

  function ScheduledTab(ds: seq<Delivery>): (tab: seq<Delivery>)
    ensures forall d :: d in tab <==> d in ds && d.status == Scheduled
    ensures IsSubsequence(tab, ds)
  {
    FilterIsSubsequence(ds, (d: Delivery) => d.status == Scheduled);
    Filter(ds, (d: Delivery) => d.status == Scheduled)
  }

  function InTransitTab(ds: seq<Delivery>): (tab: seq<Delivery>)
    ensures forall d :: d in tab <==> d in ds && d.status == InTransit
    ensures IsSubsequence(tab, ds)
  {
    FilterIsSubsequence(ds, (d: Delivery) => d.status == InTransit);
    Filter(ds, (d: Delivery) => d.status == InTransit)
  }

  function DeliveredTab(ds: seq<Delivery>): (tab: seq<Delivery>)
    ensures forall d :: d in tab <==> d in ds && d.status == Delivered
    ensures IsSubsequence(tab, ds)
  {
    FilterIsSubsequence(ds, (d: Delivery) => d.status == Delivered);
    Filter(ds, (d: Delivery) => d.status == Delivered)
  }

  function PendingCoordinationTab(ds: seq<Delivery>): (tab: seq<Delivery>)
    ensures forall d :: d in tab <==> d in ds && d.status == PendingCoordination
    ensures IsSubsequence(tab, ds)
  {
    FilterIsSubsequence(ds, (d: Delivery) => d.status == PendingCoordination);
    Filter(ds, (d: Delivery) => d.status == PendingCoordination)
  }

  /** The four tabs partition the list: their sizes add up to its length. */
  lemma {:induction false} TabsPartition(ds: seq<Delivery>)
    ensures |ScheduledTab(ds)| + |InTransitTab(ds)| + |DeliveredTab(ds)| + |PendingCoordinationTab(ds)| == |ds|
  {
    if ds != [] {
      TabsPartition(ds[1..]);
    }
  }

  /** The two deliveries the component starts with. */
  const SeedDeliveries := [
    Delivery("DEL-001", "PO-001", "ABC Supplies Co.", ["Office Supplies", "Printer Paper", "Stationery"],
      Office, Scheduled, "2024-01-25", None, "Main Office, 123 Business Street, Makati City",
      "John Doe", "+63-917-123-4567", SupplierDelivery, None, None),
    Delivery("DEL-002", "PO-002", "Steel Works Inc.", ["Steel Pipes", "Fittings", "Welding Materials"],
      Site, PendingCoordination, "2024-02-01", None, "Construction Site A, Quezon City",
      "Site Foreman", "+63-917-987-6543", Lalamove, None, None)
  ]

  /** The component's state: the delivery list and the coordinate-delivery form. */
  class DeliveryCoordinator {
    var deliveries: seq<Delivery>
    var form: Form

    ghost predicate Valid()
      reads this
    {
      DeliveredAreDated(deliveries)
    }

    constructor ()
      ensures Valid()
      ensures deliveries == SeedDeliveries && form == EmptyForm
    {
      deliveries := SeedDeliveries;
      form := EmptyForm;
    }

    /** The dialog's `onChange` handlers. */
    method EditForm(f: Form)
      requires Valid()
      modifies this
      ensures Valid()
      ensures deliveries == old(deliveries) && form == f
    {
      form := f;
    }

    /** `handleScheduleDelivery`: reject an incomplete form without change, or append and clear the form. */
    method ScheduleDelivery(now: nat) returns (scheduled: bool)
      requires Valid()
      modifies this
      ensures Valid()
      ensures scheduled == FormAccepted(old(form))
      ensures scheduled ==> deliveries == old(deliveries) + [NewDelivery(old(form), now)] && form == EmptyForm
      ensures !scheduled ==> deliveries == old(deliveries) && form == old(form)
    {
      if !FormAccepted(form) {
        return false;
      }
      deliveries := deliveries + [NewDelivery(form, now)];
      form := EmptyForm;
      scheduled := true;
    }

    /** `updateDeliveryStatus`. */
    method UpdateDeliveryStatus(id: string, s: Status, today: string)
      requires Valid()
      modifies this
      ensures Valid()
      ensures deliveries == UpdateStatus(old(deliveries), id, s, today) && form == old(form)
    {
      UpdateStatusKeepsDates(deliveries, id, s, today);
      deliveries := UpdateStatus(deliveries, id, s, today);
    }
  }
}
