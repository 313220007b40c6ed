/** Trade statuses, the table of permitted status changes, the status history it allows, and the
    event machine the deposit watcher drives. */
module Lifecycle {
  import opened Wrappers

  datatype Status =
    | QuoteProvided
    | QuoteExpired
    | TradeCreated
    | PendingDeposit
    | DepositReceived
    | DepositConfirmed
    | ConversionInProgress
    | ConversionCompleted
    | PayoutPending
    | PayoutCompleted
    | PayoutFailed
    | Dispute
    | DisputeClosed
    | Cancelled
  {
    /** The status as it is spelled, in lower case, inside an operation key. */
    function KeyText(): string {
      match this
      case QuoteProvided => "quote_provided"
      case QuoteExpired => "quote_expired"
      case TradeCreated => "trade_created"
      case PendingDeposit => "pending_deposit"
      case DepositReceived => "deposit_received"
      case DepositConfirmed => "deposit_confirmed"
      case ConversionInProgress => "conversion_in_progress"
      case ConversionCompleted => "conversion_completed"
      case PayoutPending => "payout_pending"
      case PayoutCompleted => "payout_completed"
      case PayoutFailed => "payout_failed"
      case Dispute => "dispute"
      case DisputeClosed => "dispute_closed"
      case Cancelled => "cancelled"
    }
  }

  /** The table of status changes that may be persisted; staying put is always permitted. */
  predicate Allowed(from: Status, to: Status) {
    from == to ||
    match from
    case QuoteProvided => to in {PendingDeposit, QuoteExpired}
    case PendingDeposit => to in {DepositReceived, Cancelled, Dispute}
    case DepositReceived => to in {DepositConfirmed, Dispute}
    case DepositConfirmed => to in {ConversionInProgress, Dispute}
    case ConversionInProgress => to in {ConversionCompleted, Dispute}
    case ConversionCompleted => to in {PayoutPending, Dispute}
    case PayoutPending => to in {PayoutCompleted, PayoutFailed, Dispute}
    case PayoutFailed => to in {PayoutPending, Dispute}
    case Dispute => to in {DepositConfirmed, ConversionCompleted, PayoutCompleted, DisputeClosed}
    case _ => false
  }

  predicate Final(s: Status) {
    s in {PayoutCompleted, DisputeClosed, Cancelled}
  }

  // ------------------------------------------------------------------ history

  datatype Change = Change(from: Option<Status>, to: Status)

  /** One trade's history rows, oldest first: an unbroken chain of permitted changes. */
  ghost predicate Chain(h: seq<Change>) {
    && h != []
    && h[0] == Change(None, PendingDeposit)
    && forall i :: 0 < i < |h| ==> Linked(h, i)
  }

  predicate Linked(h: seq<Change>, i: nat)
    requires 0 < i < |h|
  {
    h[i].from == Some(h[i - 1].to) && Allowed(h[i - 1].to, h[i].to)
  }

  predicate Visited(h: seq<Change>, s: Status) {
    exists i :: 0 <= i < |h| && h[i].to == s
  }

  function Current(h: seq<Change>): Status
    requires h != []
  {
    h[|h| - 1].to
  }

  lemma ChainExtends(h: seq<Change>, to: Status)
    requires Chain(h) && Allowed(Current(h), to)
    ensures Chain(h + [Change(Some(Current(h)), to)])
  {
    var g := h + [Change(Some(Current(h)), to)];
    forall i | 0 < i < |g|
      ensures Linked(g, i)
    {
      if i < |h| {
        assert Linked(h, i);
      }
    }
  }

  /** Completed, closed and cancelled trades stay where they are: once a chain has reached a final status it
      only ever repeats it. */
  lemma {:induction false} FinalIsFinal(h: seq<Change>, i: nat, j: nat)
    requires Chain(h) && i <= j < |h| && Final(h[i].to)
    ensures h[j].to == h[i].to
  {
    if i < j {
      FinalIsFinal(h, i, j - 1);
      assert Linked(h, j);
    }
  }

  /** The status every undisputed trade passes through just before it first reaches s. */
  function StageBefore(s: Status): Status
    requires s in {DepositReceived, DepositConfirmed, ConversionInProgress, ConversionCompleted, PayoutPending, PayoutCompleted}
  {
    match s
    case DepositReceived => PendingDeposit
    case DepositConfirmed => DepositReceived
    case ConversionInProgress => DepositConfirmed
    case ConversionCompleted => ConversionInProgress
    case PayoutPending => ConversionCompleted
    case PayoutCompleted => PayoutPending
  }

  /** Where h first reaches s; its length when it never does. */
  function FirstAt(h: seq<Change>, s: Status): (k: nat)
    ensures k <= |h|
    ensures k < |h| ==> h[k].to == s
    ensures forall i :: 0 <= i < k ==> h[i].to != s
  {
    if h == [] then 0
    else if h[0].to == s then 0
    else
      var k := FirstAt(h[1..], s);
      assert forall i :: 0 < i < k + 1 ==> h[i] == h[1..][i - 1];
      k + 1
  }

  // In a chain with no dispute up to k, whatever stands at k had its predecessor before it.
  lemma {:induction false} PredecessorVisited(h: seq<Change>, k: nat)
    requires Chain(h) && k < |h|
    requires forall i :: 0 <= i <= k ==> h[i].to != Dispute
    requires h[k].to in {DepositReceived, DepositConfirmed, ConversionInProgress, ConversionCompleted, PayoutPending, PayoutCompleted}
    ensures FirstAt(h, StageBefore(h[k].to)) < k
  {
    assert Linked(h, k);
    var s := h[k - 1].to;
    if s == h[k].to {
      PredecessorVisited(h, k - 1);
    } else if h[k].to == PayoutPending && s == PayoutFailed {
      FailedFollowsPending(h, k - 1);
      var j := FirstAt(h, PayoutPending);
      PredecessorVisited(h, j);
    } else {
      assert s == StageBefore(h[k].to);
    }
  }

  lemma {:induction false} FailedFollowsPending(h: seq<Change>, k: nat)
    requires Chain(h) && k < |h| && h[k].to == PayoutFailed
    ensures FirstAt(h, PayoutPending) < k
  {
    assert Linked(h, k);
    if h[k - 1].to == PayoutFailed {
      FailedFollowsPending(h, k - 1);
    }
  }

  /** A history that first reaches the stages of a sale and a payout strictly in their order. */
  predicate WholePath(h: seq<Change>) {
    0 < FirstAt(h, DepositReceived) < FirstAt(h, DepositConfirmed) < FirstAt(h, ConversionInProgress)
    < FirstAt(h, ConversionCompleted) < FirstAt(h, PayoutPending) < FirstAt(h, PayoutCompleted) < |h|
  }

  /** A trade that was never disputed and has been paid out went, in this order, through a detected deposit,
      a confirmed deposit, a sale, a finished sale and a pending payout. */
  lemma PaidMeansWholePath(h: seq<Change>)
    requires Chain(h) && !Visited(h, Dispute) && Visited(h, PayoutCompleted)
    ensures WholePath(h)
  {
    var k := FirstAt(h, PayoutCompleted);
    PredecessorVisited(h, k);
    PredecessorVisited(h, FirstAt(h, PayoutPending));
    PredecessorVisited(h, FirstAt(h, ConversionCompleted));
    PredecessorVisited(h, FirstAt(h, ConversionInProgress));
    PredecessorVisited(h, FirstAt(h, DepositConfirmed));
    assert h[0].to == PendingDeposit;
  }

  // ------------------------------------------------------------------ the event machine

  datatype Event =
    | QuoteCreated
    | QuoteAccepted
    | QuoteLapsed
    | DepositDetected
    | DepositFinal
    | ConversionStarted
    | ConversionDone
    | PayoutInitiated
    | PayoutSucceeded
    | PayoutErrored
    | DisputeRaised
    | DisputeResolved
    | TradeCancelled

  datatype Guard = Always | QuoteStillValid | WithinDepositWindow | EnoughConfirmations

  datatype Transition = Transition(from: Status, event: Event, to: Status, guard: Guard)

  /** What a guard may look at: the clock, the trade's deadlines and its confirmation counts. */
  datatype GuardView = GuardView(now: int, validUntil: int, expiresAt: int, fallback: int, required: int, confirmations: int)

  predicate Holds(g: Guard, v: GuardView) {
    match g
    case Always => true
    case QuoteStillValid => v.now <= v.validUntil
    case WithinDepositWindow => v.now <= v.expiresAt
    case EnoughConfirmations => v.confirmations >= (if v.required <= 0 then v.fallback else v.required)
  }

  const TRANSITIONS: seq<Transition> := [
    Transition(QuoteProvided, QuoteAccepted, PendingDeposit, QuoteStillValid),
    Transition(QuoteProvided, QuoteLapsed, QuoteExpired, Always),
    Transition(PendingDeposit, DepositDetected, DepositReceived, WithinDepositWindow),
    Transition(PendingDeposit, TradeCancelled, Cancelled, Always),
    Transition(DepositReceived, DepositFinal, DepositConfirmed, EnoughConfirmations),
    Transition(DepositConfirmed, ConversionStarted, ConversionInProgress, Always),
    Transition(ConversionInProgress, ConversionDone, ConversionCompleted, Always),
    Transition(ConversionInProgress, DisputeRaised, Dispute, Always),
    Transition(ConversionCompleted, PayoutInitiated, PayoutPending, Always),
    Transition(PayoutPending, PayoutSucceeded, PayoutCompleted, Always),
    Transition(PayoutPending, PayoutErrored, PayoutFailed, Always),
    Transition(PayoutFailed, PayoutInitiated, PayoutPending, Always),
    Transition(PayoutFailed, DisputeRaised, Dispute, Always),
    Transition(Dispute, DisputeResolved, PayoutCompleted, Always)
  ]

  /** Position of the last row for this status and event; None when the event is not valid there. */
  function RowFor(rows: seq<Transition>, s: Status, e: Event): (r: Option<nat>)
    ensures r.Some? ==> r.value < |rows| && rows[r.value].from == s && rows[r.value].event == e
    ensures r.None? <==> forall i :: 0 <= i < |rows| ==> !(rows[i].from == s && rows[i].event == e)
  {
    if rows == [] then None
    else if rows[|rows| - 1].from == s && rows[|rows| - 1].event == e then Some(|rows| - 1)
    else RowFor(rows[..|rows| - 1], s, e)
  }

  /** Status after the event, or None when the machine refuses it. */
  function Fire(s: Status, e: Event, v: GuardView): Option<Status> {
    match RowFor(TRANSITIONS, s, e)
    case None => None
    case Some(i) => if Holds(TRANSITIONS[i].guard, v) then Some(TRANSITIONS[i].to) else None
  }

  /** The machine, with the nested table its constructor fills from the list of transitions. */
  class TradeFsm {
    var table: map<(Status, Event), Transition>

    ghost predicate Valid()
      reads this
    {
      && (forall s, e :: (s, e) in table <==> RowFor(TRANSITIONS, s, e).Some?)
      && (forall s, e :: (s, e) in table ==> table[(s, e)] == TRANSITIONS[RowFor(TRANSITIONS, s, e).value])
    }

    constructor ()
      ensures Valid()
    {
      table := map[];
      new;
      var i := 0;
      while i < |TRANSITIONS|
        invariant 0 <= i <= |TRANSITIONS|
        invariant forall s, e :: (s, e) in table <==> RowFor(TRANSITIONS[..i], s, e).Some?
        invariant forall s, e :: (s, e) in table ==> table[(s, e)] == TRANSITIONS[RowFor(TRANSITIONS[..i], s, e).value]
      {
        var t := TRANSITIONS[i];
        assert TRANSITIONS[..i + 1][..i] == TRANSITIONS[..i];
        assert TRANSITIONS[..i + 1][i] == t;
        table := table[(t.from, t.event) := t];
        i := i + 1;
      }
      assert TRANSITIONS[..i] == TRANSITIONS;
    }

    /** Moves the trade on, or leaves its status alone and reports the refusal. */
    method Transition(status: Status, event: Event, view: GuardView) returns (next: Status, ok: bool)
      requires Valid()
      ensures ok <==> Fire(status, event, view).Some?
      ensures next == if ok then Fire(status, event, view).value else status
    {
      next, ok := status, false;
      if (status, event) in table {
        var row := table[(status, event)];
        if Holds(row.guard, view) {
          next, ok := row.to, true;
        }
      }
    }

    /** Says beforehand whether Transition will succeed. */
    method CanTransition(status: Status, event: Event, view: GuardView) returns (ok: bool)
      requires Valid()
      ensures ok <==> Fire(status, event, view).Some?
    {
      if (status, event) in table {
        ok := Holds(table[(status, event)].guard, view);
      } else {
        ok := false;
      }
    }
  }

  /** The two tables agree one way: every move of the event machine may be persisted, and the changes
      that may be persisted but that no event makes are exactly the ones listed. */
  lemma MachineRefinesTable(s: Status, t: Status)
    requires s != t
    ensures (exists i :: 0 <= i < |TRANSITIONS| && TRANSITIONS[i].from == s && TRANSITIONS[i].to == t)
       <==> Allowed(s, t) && (s, t) !in ONLY_IN_TABLE
  {
    if Allowed(s, t) && (s, t) !in ONLY_IN_TABLE {
      var i := match s
        case QuoteProvided => if t == PendingDeposit then 0 else 1
        case PendingDeposit => if t == DepositReceived then 2 else 3
        case DepositReceived => 4
        case DepositConfirmed => 5
        case ConversionInProgress => if t == ConversionCompleted then 6 else 7
        case ConversionCompleted => 8
        case PayoutPending => if t == PayoutCompleted then 9 else 10
        case PayoutFailed => if t == PayoutPending then 11 else 12
        case _ => 13;
      assert TRANSITIONS[i].from == s && TRANSITIONS[i].to == t;
    }
  }

  const ONLY_IN_TABLE: set<(Status, Status)> := {
    (PendingDeposit, Dispute), (DepositReceived, Dispute), (DepositConfirmed, Dispute),
    (ConversionCompleted, Dispute), (PayoutPending, Dispute),
    (Dispute, DepositConfirmed), (Dispute, ConversionCompleted), (Dispute, DisputeClosed)
  }

  // What the deposit watcher needs of the machine.
  lemma WatcherEvents(v: GuardView)
    ensures Fire(PendingDeposit, TradeCancelled, v) == Some(Cancelled)
    ensures Fire(PendingDeposit, DepositDetected, v) == if v.now <= v.expiresAt then Some(DepositReceived) else None
    ensures Fire(DepositReceived, DepositFinal, v)
         == if v.confirmations >= (if v.required <= 0 then v.fallback else v.required) then Some(DepositConfirmed) else None
  {
    assert TRANSITIONS[3] == Transition(PendingDeposit, TradeCancelled, Cancelled, Always);
    assert TRANSITIONS[2] == Transition(PendingDeposit, DepositDetected, DepositReceived, WithinDepositWindow);
    assert TRANSITIONS[4] == Transition(DepositReceived, DepositFinal, DepositConfirmed, EnoughConfirmations);
  }

  /** A quote becomes a trade that waits for its deposit as long as it is valid, and may expire at any time. */
  lemma QuoteEvents(v: GuardView)
    ensures Fire(QuoteProvided, QuoteAccepted, v) == if v.now <= v.validUntil then Some(PendingDeposit) else None
    ensures Fire(QuoteProvided, QuoteLapsed, v) == Some(QuoteExpired)
  {
    assert TRANSITIONS[0] == Transition(QuoteProvided, QuoteAccepted, PendingDeposit, QuoteStillValid);
    assert TRANSITIONS[1] == Transition(QuoteProvided, QuoteLapsed, QuoteExpired, Always);
  }
}
