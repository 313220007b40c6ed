/** Effects that happen once: a change asked for again under a reserved key does nothing, final statuses stay, and
    a paid trade that was never disputed went the whole way. */
module ExactlyOnce {
  import opened Wrappers
  import opened Text
  import opened Lifecycle
  import opened Ledger
  import opened Store
  import opened Steps
  import opened Bookkeeping
  import opened Growth

  /** The key under which a step's change is filed. */
  function KeyAsked(ask: Ask): OpKey {
    KeyOf(ask.trade, ask.to, ask.meta)
  }

  // Once an update has gone through, or was recognised as a repeat, its key is reserved.
  lemma AcceptedKeyIsReserved(s: Store, ask: Ask, tick: Tick)
    requires !Update(s, ask.trade, ask.to, ask.meta, tick).Refused?
    ensures KeyAsked(ask) in Settle(s, Update(s, ask.trade, ask.to, ask.meta, tick)).keys
  {
    hide KeyOf, FitsRow, Posted, Written, WithTicket, Allowed;
  }

  lemma ReservedKeyIsSilent(s: Store, ask: Ask, tick: Tick)
    requires KeyAsked(ask) in s.keys
    ensures Settle(s, Update(s, ask.trade, ask.to, ask.meta, tick)) == s
  {
    hide KeyOf, FitsRow, Posted, Commit, Allowed;
  }

  /** In any run, when a change was not refused, every later step asking for a change under the same key changes
      no table at all, whatever happened in between. */
  lemma AskedAgainIsSilent(cfg: Config, steps: seq<Step>, i: int, j: int, a: Step, b: Step, first: Ask, again: Ask)
    requires i < j && IsAt(steps, i, a) && IsAt(steps, j, b)
    requires AskOf(cfg, After(cfg, steps, i), a) == Some(first) && !OutcomeOf(cfg, After(cfg, steps, i), a).Refused?
    requires AskOf(cfg, After(cfg, steps, j), b) == Some(again) && KeyAsked(again) == KeyAsked(first)
    ensures After(cfg, steps, j + 1).db == After(cfg, steps, j).db
  {
    hide AskOf, KeyAsked, Update, After, Next, Later, OutcomeOf;
    var w, v := After(cfg, steps, i), After(cfg, steps, j);
    RunStep(cfg, steps, i, a);
    RunStep(cfg, steps, j, b);
    AskingStep(cfg, w, a, first);
    AskingStep(cfg, v, b, again);
    AcceptedKeyIsReserved(w.db, first, a.tick);
    GrowsBetween(cfg, steps, i + 1, j);
    KeyStays(After(cfg, steps, i + 1).db, v.db, KeyAsked(first));
    ReservedKeyIsSilent(v.db, again, b.tick);
  }

  lemma KeyStays(s: Store, after: Store, k: OpKey)
    requires Later(s, after) && k in s.keys
    ensures k in after.keys
  {
    hide TradesStay, HistoryStays, TicketsStay, QuotesStay;
  }

  lemma AskingStep(cfg: Config, w: World, step: Step, ask: Ask)
    requires AskOf(cfg, w, step) == Some(ask)
    ensures OutcomeOf(cfg, w, step) == Update(w.db, ask.trade, ask.to, ask.meta, step.tick)
    ensures Next(cfg, w, step).db == Settle(w.db, OutcomeOf(cfg, w, step))
  {
    hide WatchAsk, BackfillAsk, SellAsk, EndSaleAsk, RecoverAsk, StartPayoutAsk, PollPayoutAsk, WebhookAsk, RaiseAsk, Update;
  }

  /** A completion reported for a payout is filed under the reference up to case and outer white space. */
  lemma CompletionKeyIsFolded(trade: string, ref: string, other: string)
    requires Folded(ref) == Folded(other)
    ensures KeyAsked(PayoutCompleteAsk(trade, ref)) == KeyAsked(PayoutCompleteAsk(trade, other))
  {
    hide NormalizeKey, Folded, DefaultKey;
    var tail := trade + ":" + Folded(ref);
    CompletedHead(tail);
    assert "payout_completed:" + trade + ":" + Folded(ref) == "payout_completed:" + tail;
  }

  lemma CompletedHead(tail: string)
    ensures NormalizeKey("payout_completed:" + tail) != ""
  {
    assert KeyText("payout_completed:");
    NormalizeKeepsHead("payout_completed:", tail);
  }

  /** Webhook and poller may both report the same payout, in any order and any number of times, with the reference
      written in any case and with white space around it: only the first report that is not refused has an effect. */
  lemma PayoutCompletesOnce(cfg: Config, steps: seq<Step>, i: int, j: int, a: Step, b: Step, trade: string, ref: string, other: string)
    requires i < j && IsAt(steps, i, a) && IsAt(steps, j, b) && Folded(ref) == Folded(other)
    requires AskOf(cfg, After(cfg, steps, i), a) == Some(PayoutCompleteAsk(trade, ref)) && !OutcomeOf(cfg, After(cfg, steps, i), a).Refused?
    requires AskOf(cfg, After(cfg, steps, j), b) == Some(PayoutCompleteAsk(trade, other))
    ensures After(cfg, steps, j + 1).db == After(cfg, steps, j).db
  {
    CompletionKeyIsFolded(trade, ref, other);
    hide *;
    AskedAgainIsSilent(cfg, steps, i, j, a, b, PayoutCompleteAsk(trade, ref), PayoutCompleteAsk(trade, other));
  }

  /** Completed, closed and cancelled trades are never moved again, by any step of any run. */
  lemma FinalTradesStay(cfg: Config, steps: seq<Step>, k: int, id: string, status: Status)
    requires Final(status) && InStatus(After(cfg, steps, k).db, id, status)
    ensures InStatus(Run(cfg, steps).db, id, status)
  {
    hide Run, Final;
    RunGrows(cfg, steps, k);
    RunIsRecorded(cfg, Upto(steps, k));
    RunIsRecorded(cfg, steps);
    FinalStays(After(cfg, steps, k).db, Run(cfg, steps).db, id, status);
  }

  lemma FinalStays(s: Store, after: Store, id: string, status: Status)
    requires Recorded(s) && Recorded(after) && Later(s, after) && Final(status) && InStatus(s, id, status)
    ensures InStatus(after, id, status)
  {
    hide SameDeal, KeysStay, TicketsStay, QuotesStay, Linked;
    assert RecordedAt(s, id) && RecordedAt(after, id);
    var h, g := s.history[id], after.history[id];
    FinalIsFinal(g, |h| - 1, |g| - 1);
  }

  /** A paid trade that was never disputed went, in order, through every stage of the sale and the payout. */
  lemma PaidTradeWentTheWholeWay(cfg: Config, steps: seq<Step>, id: string)
    requires InStatus(Run(cfg, steps).db, id, PayoutCompleted) && !Visited(Past(Run(cfg, steps).db, id), Dispute)
    ensures WholePath(Past(Run(cfg, steps).db, id))
  {
    RunIsRecorded(cfg, steps);
    hide Run, Counted, WholePath;
    var s := Run(cfg, steps).db;
    assert RecordedAt(s, id);
    var h := Past(s, id);
    assert h[|h| - 1].to == PayoutCompleted;
    PaidMeansWholePath(h);
  }

  // Changes filed under the same explicit key have the same key, whatever else they say.
  lemma SameExplicitKey(trade: string, to: Status, m: Metadata, n: Metadata)
    requires m.key.Some? && m.key == n.key && NormalizeKey(m.key.value) != ""
    ensures KeyOf(trade, to, m) == KeyOf(trade, to, n)
  {
    hide NormalizeKey, DefaultKey;
  }

  lemma {:induction false} EventsStay(cfg: Config, steps: seq<Step>, i: int, step: Step, event: string)
    requires IsAt(steps, i, step) && Delivers(step, event)
    ensures event in Run(cfg, steps).events
  {
    hide NextDb, NextSales, NextAttempts;
    var n := |steps| - 1;
    if i < n {
      EventsStay(cfg, steps[..n], i, step, event);
    }
  }

  predicate Delivers(step: Step, event: string) {
    step.Webhook? && step.event == event
  }

  /** A webhook event is handled once: every later step that delivers the same event changes nothing at all. */
  lemma WebhookHandledOnce(cfg: Config, steps: seq<Step>, i: int, j: int, a: Step, b: Step, event: string)
    requires i < j && IsAt(steps, i, a) && IsAt(steps, j, b) && Delivers(a, event) && Delivers(b, event)
    ensures After(cfg, steps, j + 1) == After(cfg, steps, j)
  {
    hide Run;
    assert IsAt(Upto(steps, j), i, a);
    EventsStay(cfg, Upto(steps, j), i, a, event);
    RunStep(cfg, steps, j, b);
    SeenEventIsIgnored(cfg, After(cfg, steps, j), b, event);
  }

  lemma SeenEventIsIgnored(cfg: Config, w: World, step: Step, event: string)
    requires Delivers(step, event) && event in w.events
    ensures Next(cfg, w, step) == w
  {
    hide AnswersPayout, Update;
    assert w.events + {event} == w.events;
  }
}
