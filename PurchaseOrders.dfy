/**
 * Purchase orders: amount-based approval routing, creation from the create
 * dialog's form, sending, and the status tabs
 * (src/components/PurchaseOrderManager.tsx).
 */
module PurchaseOrders {
  import opened Optional
  import opened Seqs
  import Text

  datatype Status = Draft | PendingApproval | Approved | Sent | Acknowledged

  datatype PaymentTerms = PDC | FundTransfer | Terms

  datatype PurchaseOrder = PurchaseOrder(
    id: string,
    quotationId: string,
    supplierName: string,
    totalAmount: int,
    status: Status,
    paymentTerms: PaymentTerms,
    signatory: string,
    createdDate: string,
    approvalDate: Option<string>,
    sentDate: Option<string>,
    expectedDelivery: Option<string>)

  /** The create dialog's fields (`newPO`). */
  datatype Form = Form(
    quotationId: string,
    supplierName: string,
    totalAmount: int,
    paymentTerms: PaymentTerms,
    expectedDelivery: string)

  const EmptyForm := Form("", "", 0, PDC, "")

  /** Amounts at or above this need the dual signatory. */
  const DualApprovalThreshold := 20000
  const SingleSignatory := "Project Support Officer"
  const DualSignatory := "Finance Manager & Managing Director"
  const SameDay := "Same day"
  const OneToTwoDays := "1-2 days"

  /** Who signs a purchase order of the given amount (`getSignatory`). */
  function Signatory(amount: int): (s: string)
    ensures s == SingleSignatory <==> amount < DualApprovalThreshold
    ensures s == DualSignatory <==> amount >= DualApprovalThreshold
  {
    if amount < DualApprovalThreshold then SingleSignatory else DualSignatory
  }

  /** The expected approval time for an amount (`getApprovalTime`); it follows the signatory. */
  function ApprovalTime(amount: int): (t: string)
    ensures t == SameDay <==> Signatory(amount) == SingleSignatory
    ensures t == OneToTwoDays <==> Signatory(amount) == DualSignatory
  {
    if amount < DualApprovalThreshold then SameDay else OneToTwoDays
  }

  /** The dialog shows its "Approval Requirements" panel only for a positive amount. */
  predicate ApprovalPanelShown(amount: int)
  {
    amount > 0
  }

  /** The dual-approval warning, drawn inside the approval panel for amounts at or above the threshold. */
  function DualApprovalWarningShown(amount: int): (shown: bool)
    ensures shown <==> Signatory(amount) == DualSignatory
  {
    ApprovalPanelShown(amount) && amount >= DualApprovalThreshold
  }

  /**
   * The required-field check of `handleCreatePO`: supplier name and expected
   * delivery must be non-empty and the amount non-zero (JavaScript falsiness),
   * so a negative amount is accepted.
   */
  predicate FormAccepted(f: Form)
  {
    f.supplierName != "" && f.totalAmount != 0 && f.expectedDelivery != ""
  }

  lemma NegativeAmountAccepted(f: Form)
    requires f.supplierName != "" && f.expectedDelivery != "" && f.totalAmount < 0
    ensures FormAccepted(f)
    ensures Signatory(f.totalAmount) == SingleSignatory
  {
  }

  /** The order `handleCreatePO` builds from an accepted form at clock reading `now` on day `today`. */
  function NewOrder(f: Form, now: nat, today: string): (po: PurchaseOrder)
    ensures po.status == PendingApproval
    ensures po.signatory == Signatory(po.totalAmount)
    ensures po.id == "PO-" + Text.NatToString(now)
    ensures po.quotationId == if f.quotationId == "" then "QUO-" + Text.NatToString(now) else f.quotationId
    ensures po.supplierName == f.supplierName && po.totalAmount == f.totalAmount
    ensures po.paymentTerms == f.paymentTerms && po.expectedDelivery == Some(f.expectedDelivery)
    ensures po.createdDate == today && po.approvalDate == None && po.sentDate == None
  {
    PurchaseOrder(
      "PO-" + Text.NatToString(now),
      if f.quotationId == "" then "QUO-" + Text.NatToString(now) else f.quotationId,
      f.supplierName,
      f.totalAmount,
      PendingApproval,
      f.paymentTerms,
      Signatory(f.totalAmount),
      today,
      None,
      None,
      Some(f.expectedDelivery))
  }

  /** `handleSendPO`'s update: every order with the id becomes sent today, whatever its status was. */
  function MarkSent(orders: seq<PurchaseOrder>, id: string, today: string): (r: seq<PurchaseOrder>)
    ensures |r| == |orders|
    ensures forall i :: 0 <= i < |orders| && orders[i].id == id ==>
      r[i] == orders[i].(status := Sent, sentDate := Some(today))
    ensures forall i :: 0 <= i < |orders| && orders[i].id != id ==> r[i] == orders[i]
  {
    MapWhere(orders, (po: PurchaseOrder) => po.id == id,
      (po: PurchaseOrder) => po.(status := Sent, sentDate := Some(today)))
  }

  /** Sending twice is the same as sending once (on the same day). */
  lemma MarkSentIdempotent(orders: seq<PurchaseOrder>, id: string, today: string)
    ensures MarkSent(MarkSent(orders, id, today), id, today) == MarkSent(orders, id, today)
  {
  }

  /** Signatories that agree with the routing rule: what `handleCreatePO` stores and the seed data holds. */
  ghost predicate RoutedCorrectly(orders: seq<PurchaseOrder>)
  {
    forall i :: 0 <= i < |orders| ==> orders[i].signatory == Signatory(orders[i].totalAmount)
  }

  lemma MarkSentKeepsRouting(orders: seq<PurchaseOrder>, id: string, today: string)
    requires RoutedCorrectly(orders)
    ensures RoutedCorrectly(MarkSent(orders, id, today))
  {
  }

  /** The "Pending Approval" tab. */
  function PendingApprovalTab(orders: seq<PurchaseOrder>): (tab: seq<PurchaseOrder>)
    ensures forall po :: po in tab <==> po in orders && po.status == PendingApproval
    ensures IsSubsequence(tab, orders)
  {
    FilterIsSubsequence(orders, (po: PurchaseOrder) => po.status == PendingApproval);
    Filter(orders, (po: PurchaseOrder) => po.status == PendingApproval)
  }

  /** The "Approved" tab, the only one offering the "Send PO" button. */
  function ApprovedTab(orders: seq<PurchaseOrder>): (tab: seq<PurchaseOrder>)
    ensures forall po :: po in tab <==> po in orders && po.status == Approved
    ensures IsSubsequence(tab, orders)
  {
    FilterIsSubsequence(orders, (po: PurchaseOrder) => po.status == Approved);
    Filter(orders, (po: PurchaseOrder) => po.status == Approved)
  }

  /** The "Sent" tab: sent and acknowledged orders. */
  function SentTab(orders: seq<PurchaseOrder>): (tab: seq<PurchaseOrder>)
    ensures forall po :: po in tab <==> po in orders && (po.status == Sent || po.status == Acknowledged)
    ensures IsSubsequence(tab, orders)
  {
    FilterIsSubsequence(orders, (po: PurchaseOrder) => po.status == Sent || po.status == Acknowledged);
    Filter(orders, (po: PurchaseOrder) => po.status == Sent || po.status == Acknowledged)
  }

  function Drafts(orders: seq<PurchaseOrder>): (r: seq<PurchaseOrder>)
    ensures forall po :: po in r <==> po in orders && po.status == Draft
    ensures IsSubsequence(r, orders)
  {
    FilterIsSubsequence(orders, (po: PurchaseOrder) => po.status == Draft);
    Filter(orders, (po: PurchaseOrder) => po.status == Draft)
  }

  /** The three tabs show every order except the drafts, each in one tab only. */
  lemma {:induction false} TabsCoverAllButDrafts(orders: seq<PurchaseOrder>)
    ensures |PendingApprovalTab(orders)| + |ApprovedTab(orders)| + |SentTab(orders)| + |Drafts(orders)| == |orders|
  {
    if orders != [] {
      TabsCoverAllButDrafts(orders[1..]);
    }
  }

  lemma DraftInNoTab(orders: seq<PurchaseOrder>, po: PurchaseOrder)
    requires po.status == Draft
    ensures po !in PendingApprovalTab(orders) && po !in ApprovedTab(orders) && po !in SentTab(orders)
  {
  }

  /** The two orders the component starts with. */
  const SeedOrders := [
    PurchaseOrder("PO-001", "QUO-001", "ABC Supplies Co.", 15750, PendingApproval, PDC,
      SingleSignatory, "2024-01-15", None, None, Some("2024-01-25")),
    PurchaseOrder("PO-002", "QUO-002", "Steel Works Inc.", 89500, PendingApproval, FundTransfer,
      DualSignatory, "2024-01-16", None, None, Some("2024-02-01"))
  ]

  /** The component's state: the order list and the create dialog's form. */
  class PurchaseOrderManager {
    var orders: seq<PurchaseOrder>
    var form: Form

    ghost predicate Valid()
      reads this
    {
      RoutedCorrectly(orders)
    }

    constructor ()
      ensures Valid()
      ensures orders == SeedOrders && form == EmptyForm
    {
      orders := SeedOrders;
      form := EmptyForm;
    }

    /** The dialog's `onChange` handlers. */
    method EditForm(f: Form)
      requires Valid()
      modifies this
      ensures Valid()
      ensures orders == old(orders) && form == f
    {
      form := f;
    }

    /** `handleCreatePO`: reject an incomplete form without change, or append the new order and clear the form. */
    method CreatePO(now: nat, today: string) returns (created: bool)
      requires Valid()
      modifies this
      ensures Valid()
      ensures created == FormAccepted(old(form))
      ensures created ==> orders == old(orders) + [NewOrder(old(form), now, today)] && form == EmptyForm
      ensures !created ==> orders == old(orders) && form == old(form)
    {
      if !FormAccepted(form) {
        return false;
      }
      orders := orders + [NewOrder(form, now, today)];
      form := EmptyForm;
      created := true;
    }

    /** `handleSendPO`: mark every order with the id as sent today. */
    method SendPO(id: string, today: string)
      requires Valid()
      modifies this
      ensures Valid()
      ensures orders == MarkSent(old(orders), id, today) && form == old(form)
    {
      orders := MarkSent(orders, id, today);
    }
  }
}
