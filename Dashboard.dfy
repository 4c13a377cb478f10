/**
 * The dashboard: the statistics cards computed from the process list and the
 * recent-activity panel (src/pages/Index.tsx).
 */
module Dashboard {
  import opened Optional
  import opened Seqs

  datatype ProcessType = MRF | Quotation | PO | Delivery

  datatype ProcessStatus = Pending | Approved | Rejected | InProgress | Completed

  datatype Priority = Low | Medium | High | Urgent

  datatype ProcessItem = ProcessItem(
    id: string,
    kind: ProcessType,
    title: string,
    description: string,
    status: ProcessStatus,
    amount: Option<int>,
    priority: Priority,
    dueDate: string,
    assignee: string)

  datatype Stats = Stats(pendingApprovals: nat, activeOrders: nat, completedToday: nat, totalValue: int)

  /** `p.amount || 0`. */
  function AmountOrZero(p: ProcessItem): int
  {
    match p.amount
    case None => 0
    case Some(a) => a
  }

  /** `processes.reduce((sum, p) => sum + (p.amount || 0), 0)`, folding from the left. */
  function TotalValue(ps: seq<ProcessItem>): int
  {
    if ps == [] then 0 else TotalValue(ps[..|ps| - 1]) + AmountOrZero(ps[|ps| - 1])
  }

  /** The total of a concatenation is the sum of the totals. */
  lemma {:induction false} TotalValueConcat(a: seq<ProcessItem>, b: seq<ProcessItem>)
    ensures TotalValue(a + b) == TotalValue(a) + TotalValue(b)
    decreases |b|
  {
    if b == [] {
      assert a + b == a;
    } else {
      assert (a + b)[..|a + b| - 1] == a + b[..|b| - 1];
      TotalValueConcat(a, b[..|b| - 1]);
    }
  }

  /** With no negative amounts the total is not negative. */
  lemma {:induction false} TotalValueNonNegative(ps: seq<ProcessItem>)
    requires forall i :: 0 <= i < |ps| ==> AmountOrZero(ps[i]) >= 0
    ensures TotalValue(ps) >= 0
  {
    if ps != [] {
      TotalValueNonNegative(ps[..|ps| - 1]);
    }
  }

  /** Processes without an amount add nothing to the total. */
  lemma TotalValueSkipsMissing(ps: seq<ProcessItem>, p: ProcessItem)
    requires p.amount == None
    ensures TotalValue(ps + [p]) == TotalValue(ps)
  {
    assert (ps + [p])[..|ps + [p]| - 1] == ps;
  }

  function WithStatus(ps: seq<ProcessItem>, s: ProcessStatus): (r: seq<ProcessItem>)
    ensures forall p :: p in r <==> p in ps && p.status == s
    ensures IsSubsequence(r, ps)
    ensures |r| == |set i | 0 <= i < |ps| && ps[i].status == s|
  {
    FilterIsSubsequence(ps, (p: ProcessItem) => p.status == s);
    FilterLengthIsPositions(ps, (p: ProcessItem) => p.status == s);
    assert Positions(ps, (p: ProcessItem) => p.status == s) == set i | 0 <= i < |ps| && ps[i].status == s;
    Filter(ps, (p: ProcessItem) => p.status == s)
  }

  /** Two different statuses never count the same process twice. */
  lemma {:induction false} TwoStatusesFit(ps: seq<ProcessItem>, s: ProcessStatus, t: ProcessStatus)
    requires s != t
    ensures |WithStatus(ps, s)| + |WithStatus(ps, t)| <= |ps|
  {
    if ps != [] {
      TwoStatusesFit(ps[1..], s, t);
    }
  }

  /** The number shown on the "Completed Today" card, which does not depend on the data. */
  const CompletedToday := 3

  /** `stats`. */
  function ComputeStats(ps: seq<ProcessItem>): (st: Stats)
    ensures st.pendingApprovals == |set i | 0 <= i < |ps| && ps[i].status == Pending|
    ensures st.activeOrders == |set i | 0 <= i < |ps| && ps[i].status == InProgress|
    ensures st.pendingApprovals + st.activeOrders <= |ps|
    ensures st.completedToday == CompletedToday
    ensures st.totalValue == TotalValue(ps)
  {
    TwoStatusesFit(ps, Pending, InProgress);
    Stats(|WithStatus(ps, Pending)|, |WithStatus(ps, InProgress)|, CompletedToday, TotalValue(ps))
  }

  /** `processes.slice(0, 3)`: the first three processes, or all of them when there are fewer. */
  function RecentActivity(ps: seq<ProcessItem>): (r: seq<ProcessItem>)
    ensures |r| == if |ps| < 3 then |ps| else 3
    ensures r <= ps
  {
    if |ps| < 3 then ps else ps[..3]
  }

  /** The three processes the dashboard starts with. */
  const SeedProcesses := [
    ProcessItem("MRF-001", MRF, "Office Supplies Request", "Printer paper, pens, and folders for Q1",
      Pending, None, Medium, "2024-01-15", "John Doe (PIC)"),
    ProcessItem("PO-002", PO, "Construction Materials", "Steel pipes and fittings for Site A",
      InProgress, Some(45000), High, "2024-01-20", "Finance Manager"),
    ProcessItem("QUO-003", Quotation, "IT Equipment Quote", "Laptops and monitors for new hires",
      Pending, Some(15000), Medium, "2024-01-18", "Procurement Team")
  ]

  /** The seed data gives two pending approvals, one active order and a total of 60000. */
  lemma SeedStats()
    ensures ComputeStats(SeedProcesses) == Stats(2, 1, 3, 60000)
  {
    SeedTotal();
    SeedStatuses();
  }

  lemma SeedTotal()
    ensures TotalValue(SeedProcesses) == 60000
  {
    var ps := SeedProcesses;
    assert TotalValue(ps[..1]) == 0 by {
      assert ps[..1][..0] == [];
    }
    assert TotalValue(ps[..2]) == 45000 by {
      assert ps[..2][..1] == ps[..1];
    }
    assert ps[..|ps| - 1] == ps[..2];
  }

  lemma SeedStatuses()
    ensures WithStatus(SeedProcesses, Pending) == [SeedProcesses[0], SeedProcesses[2]]
    ensures WithStatus(SeedProcesses, InProgress) == [SeedProcesses[1]]
  {
    var ps := SeedProcesses;
    assert ps[1..][1..] == [ps[2]];
    assert [ps[2]][1..] == [];
  }
}
