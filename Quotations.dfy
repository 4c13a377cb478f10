/**
 * Quotation requests: sending a request from the email form and the status
 * tabs (src/components/QuotationManager.tsx).
 */
module Quotations {
  import opened Optional
  import opened Seqs
  import Text

  datatype Status = Pending | Received | Approved | Rejected

  datatype Quotation = Quotation(
    id: string,
    mrfId: string,
    supplierName: string,
    supplierEmail: string,
    items: seq<string>,
    totalAmount: int,
    validUntil: string,
    status: Status,
    requestDate: string,
    responseDate: Option<string>)

  /** The request dialog's fields (`emailForm`). */
  datatype EmailForm = EmailForm(supplier: string, email: string, subject: string, message: string)

  const EmptyForm := EmailForm("", "", "", "")

  /** The required-field check of `handleSendQuotationRequest`; the subject may be empty. */
  predicate FormAccepted(f: EmailForm)
  {
    f.supplier != "" && f.email != "" && f.message != ""
  }

  /** The pending record a sent request creates: no amount, no validity date, one placeholder item. */
  function NewRequest(f: EmailForm, now: nat, today: string): (q: Quotation)
    ensures q.status == Pending && q.totalAmount == 0 && q.validUntil == ""
    ensures q.mrfId == "MRF-003" && q.items == ["New Items"] && q.requestDate == today
    ensures q.supplierName == f.supplier && q.supplierEmail == f.email
    ensures q.id == "QUO-" + Text.NatToString(now) && q.responseDate == None
  {
    Quotation("QUO-" + Text.NatToString(now), "MRF-003", f.supplier, f.email, ["New Items"], 0, "",
      Pending, today, None)
  }

  /** The "Active Requests" tab. */
  function PendingTab(qs: seq<Quotation>): (tab: seq<Quotation>)
    ensures forall q :: q in tab <==> q in qs && q.status == Pending
    ensures IsSubsequence(tab, qs)
  {
    FilterIsSubsequence(qs, (q: Quotation) => q.status == Pending);
    Filter(qs, (q: Quotation) => q.status == Pending)
  }

  /** The "Received Quotes" tab. */
  function ReceivedTab(qs: seq<Quotation>): (tab: seq<Quotation>)
    ensures forall q :: q in tab <==> q in qs && q.status == Received
    ensures IsSubsequence(tab, qs)
  {
    FilterIsSubsequence(qs, (q: Quotation) => q.status == Received);
    Filter(qs, (q: Quotation) => q.status == Received)
  }

  /** The "Approved" tab. */
  function ApprovedTab(qs: seq<Quotation>): (tab: seq<Quotation>)
    ensures forall q :: q in tab <==> q in qs && q.status == Approved
    ensures IsSubsequence(tab, qs)
  {
    FilterIsSubsequence(qs, (q: Quotation) => q.status == Approved);
    Filter(qs, (q: Quotation) => q.status == Approved)
  }

  function RejectedQuotations(qs: seq<Quotation>): (r: seq<Quotation>)
    ensures forall q :: q in r <==> q in qs && q.status == Rejected
    ensures IsSubsequence(r, qs)
  {
    FilterIsSubsequence(qs, (q: Quotation) => q.status == Rejected);
    Filter(qs, (q: Quotation) => q.status == Rejected)
  }

  /** The three tabs show every quotation except the rejected ones, each in one tab only. */
  lemma {:induction false} TabsCoverAllButRejected(qs: seq<Quotation>)
    ensures |PendingTab(qs)| + |ReceivedTab(qs)| + |ApprovedTab(qs)| + |RejectedQuotations(qs)| == |qs|
  {
    if qs != [] {
      TabsCoverAllButRejected(qs[1..]);
    }
  }

  /** A newly sent request shows up at the end of the "Active Requests" tab and nowhere else. */
  lemma NewRequestIsActive(qs: seq<Quotation>, f: EmailForm, now: nat, today: string)
    ensures PendingTab(qs + [NewRequest(f, now, today)]) == PendingTab(qs) + [NewRequest(f, now, today)]
    ensures ReceivedTab(qs + [NewRequest(f, now, today)]) == ReceivedTab(qs)
    ensures ApprovedTab(qs + [NewRequest(f, now, today)]) == ApprovedTab(qs)
  {
    var q := NewRequest(f, now, today);
    FilterAppend(qs, q, (q: Quotation) => q.status == Pending);
    FilterAppend(qs, q, (q: Quotation) => q.status == Received);
    FilterAppend(qs, q, (q: Quotation) => q.status == Approved);
  }

  /** The two quotations the component starts with. */
  const SeedQuotations := [
    Quotation("QUO-001", "MRF-001", "ABC Supplies Co.", "quotes@abcsupplies.com",
      ["Office Supplies", "Printer Paper", "Stationery"], 15750, "2024-02-15", Received,
      "2024-01-10", Some("2024-01-12")),
    Quotation("QUO-002", "MRF-002", "Steel Works Inc.", "sales@steelworks.com",
      ["Steel Pipes", "Fittings", "Welding Materials"], 89500, "2024-02-20", Pending,
      "2024-01-15", None)
  ]

  /** The component's state: the quotation list and the request dialog's form. */
  class QuotationManager {
    var quotations: seq<Quotation>
    var form: EmailForm

    constructor ()
      ensures quotations == SeedQuotations && form == EmptyForm
    {
      quotations := SeedQuotations;
      form := EmptyForm;
    }

    /** The dialog's `onChange` handlers. */
    method EditForm(f: EmailForm)
      modifies this
      ensures quotations == old(quotations) && form == f
    {
      form := f;
    }

    /** `handleSendQuotationRequest`: reject an incomplete form without change, or append and clear it. */
    method SendQuotationRequest(now: nat, today: string) returns (sent: bool)
      modifies this
      ensures sent == FormAccepted(old(form))
      ensures sent ==> quotations == old(quotations) + [NewRequest(old(form), now, today)] && form == EmptyForm
      ensures !sent ==> quotations == old(quotations) && form == old(form)
    {
      if !FormAccepted(form) {
        return false;
      }
      quotations := quotations + [NewRequest(form, now, today)];
      form := EmptyForm;
      sent := true;
    }
  }
}
