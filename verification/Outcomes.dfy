/** What causes lead to, over runs: a trade's history grows by a change only with a cause for it, and a cause met for the
    first time leads where it should. */
module Outcomes {
  import opened Wrappers
  import opened Text
  import opened Lifecycle
  import opened Ledger
  import opened Store
  import opened Steps
  import opened Bookkeeping
  import opened Growth
  import opened ExactlyOnce
  import opened Tickets
  import opened Changes
  import opened Disputed
  import opened Sales
  import opened Purposes
  import opened Refusals
  import opened Settlement
  import opened Causes

  // ------------------------------------------------------------------ one step

  /** A trade's history has grown by its change to a status, where it now stands. */
  ghost predicate Grew(s: Store, after: Store, id: string, t: Trade, to: Status) {
    InStatus(after, id, to) && Past(after, id) == Past(s, id) + [Change(Some(t.status), to)]
  }

  /** Or it stands where it stood, with the history it had. */
  ghost predicate Stayed(s: Store, after: Store, id: string, t: Trade) {
    InStatus(after, id, t.status) && Past(after, id) == Past(s, id)
  }

  /** A step leaves a trade where it stands, or moves it by a permitted change that it has a cause for. */
  lemma MovesOnlyByCause(cfg: Config, w: World, step: Step, id: string, t: Trade)
    requires RowIs(w.db, id, t)
    ensures Stayed(w.db, Next(cfg, w, step).db, id, t)
         || exists to :: Cause(cfg, w, step, id, t, to) && Allowed(t.status, to) && Grew(w.db, Next(cfg, w, step).db, id, t, to)
  {
    hide Next, Cause, Allowed, Wanted, Past, Given;
    StepAt(cfg, w, step, id);
    var ask := Wanted(cfg, w, step);
    if !Untouched(w.db, Next(cfg, w, step).db, id) {
      WantsIffCaused(cfg, w, step, id, t, ask.value.to);
    }
  }

  /** A change that a step has a cause for and that is carried out moves the trade there. */
  lemma CarriedOutMoves(cfg: Config, w: World, step: Step, id: string, t: Trade, to: Status)
    requires RowIs(w.db, id, t) && Cause(cfg, w, step, id, t, to) && OutcomeOf(cfg, w, step).Applied?
    ensures Grew(w.db, Next(cfg, w, step).db, id, t, to)
  {
    WantsIffCaused(cfg, w, step, id, t, to);
    hide Next, Cause, Wanted, Past, Posted, KeyAsked, SameDeal, Elsewhere, OutcomeOf;
    var ask := Wanted(cfg, w, step).value;
    WhenMade(cfg, w, step, ask);
    WrittenStatus(Ground(w, step), ask, step.tick);
  }

  lemma WrittenStatus(s: Store, ask: Ask, tick: Tick)
    ensures ask.trade in s.trades ==> Written(s.trades[ask.trade], ask.to, ask.meta, tick.now).status == ask.to
  {
    hide Given, Note;
  }

  // ------------------------------------------------------------------ first times

  /** Every key of a status change belongs to a trade that has been in that status. */
  ghost predicate KeysVisited(s: Store) {
    forall k <- s.keys :: k.scope.StatusChange? ==> Visited(Past(s, s.keys[k]), k.scope.to)
  }

  lemma MadeVisited(s: Store, ground: Store, after: Store, ask: Ask, tick: Tick)
    requires KeysVisited(s) && Makes(s, ground, after, ask, tick) && Recorded(s) && Owned(s)
    ensures KeysVisited(after)
  {
    var x := Change(Some(s.trades[ask.trade].status), ask.to);
    KeyScope(ask.trade, ask.to, ask.meta);
    hide KeyOf, Posted, SameDeal, Allowed, Visited, Past, Written;
    forall k | k in after.keys && k.scope.StatusChange?
      ensures Visited(Past(after, after.keys[k]), k.scope.to)
    {
      VisitedAppend(Past(s, ask.trade), x, k.scope.to);
      if k != KeyAsked(ask) && after.keys[k] != ask.trade {
        assert Kin(s, after, s.keys[k]);
      }
    }
  }

  lemma QuietVisited(cfg: Config, w: World, step: Step)
    requires KeysVisited(w.db) && Quiet(w.db, Next(cfg, w, step).db) && Owned(w.db)
    ensures KeysVisited(Next(cfg, w, step).db)
  {
    hide Next, Visited, Past, SameDeal;
    var s, after := w.db, Next(cfg, w, step).db;
    forall k | k in after.keys && k.scope.StatusChange?
      ensures Visited(Past(after, after.keys[k]), k.scope.to)
    {
      assert k in s.keys && Kin(s, after, s.keys[k]);
    }
  }

  lemma {:induction false} RunKeysVisited(cfg: Config, steps: seq<Step>)
    ensures KeysVisited(Run(cfg, steps).db)
  {
    hide KeysVisited, Next, Made, Recorded, Makes, Quiet, Owned;
    if steps == [] {
      NoKeysVisited();
    } else {
      var n := |steps| - 1;
      RunKeysVisited(cfg, steps[..n]);
      RunIsRecorded(cfg, steps[..n]);
      var w := Run(cfg, steps[..n]);
      CountedOwned(w.db);
      if Made(cfg, w, steps[n]).Some? {
        WhenMade(cfg, w, steps[n], Made(cfg, w, steps[n]).value);
        MadeVisited(w.db, Ground(w, steps[n]), Next(cfg, w, steps[n]).db, Made(cfg, w, steps[n]).value, steps[n].tick);
      } else {
        WhenNotMade(cfg, w, steps[n]);
        QuietVisited(cfg, w, steps[n]);
      }
    }
  }

  lemma NoKeysVisited()
    ensures KeysVisited(START.db)
  {
  }

  lemma CountedOwned(s: Store)
    requires Counted(s)
    ensures Owned(s)
  {
  }

  /** In any run the first request for a trade's change to a status is filed under a new key. */
  lemma FirstTimeIsNew(cfg: Config, steps: seq<Step>, step: Step, ask: Ask)
    requires Uuids(cfg) && Wanted(cfg, Run(cfg, steps), step) == Some(ask) && ask.trade in Run(cfg, steps).db.trades
    requires !Visited(Past(Run(cfg, steps).db, ask.trade), ask.to)
    ensures UuidText(ask.trade) && KeyAsked(ask) !in Run(cfg, steps).db.keys
  {
    RunKeysVisited(cfg, steps);
    RunKeysNamed(cfg, steps);
    RunNoResale(cfg, steps);
    hide Run, Wanted, Visited, Past, UuidText, KeyOf, KeysNamed, Uuids, SoldAndPast, AskedFor, Stored, PurposeOf;
    var w := Run(cfg, steps);
    KeyScope(ask.trade, ask.to, ask.meta);
    WantedIsFor(cfg, w, step, ask);
    StoredUnder(ask, PurposeOf(step, ask.to));
    if KeyAsked(ask) in w.db.keys {
      NotOthersKey(w.db, KeyAsked(ask), PurposeOf(step, ask.to), ask.trade);
    }
  }

  // What the machine asks of the update for a wanted change.
  lemma OutcomeIs(cfg: Config, w: World, step: Step, ask: Ask)
    requires Wanted(cfg, w, step) == Some(ask)
    ensures OutcomeOf(cfg, w, step) == Update(Ground(w, step), ask.trade, ask.to, ask.meta, step.tick)
    ensures Grounded(w.db, Ground(w, step), ask.trade)
  {
    GroundIs(w, step, ask);
    hide Wanted, Ground, Update, Grounded, Reopened;
  }

  // Under a new key a permitted change is carried out or refused, never ignored.
  lemma NewIsNotIgnored(s: Store, ground: Store, ask: Ask, tick: Tick, t: Trade)
    requires Grounded(s, ground, ask.trade) && RowIs(s, ask.trade, t) && Allowed(t.status, ask.to) && KeyAsked(ask) !in s.keys
    ensures Ready(ground, ask.trade, ask.to, ask.meta)
    ensures var o := Update(ground, ask.trade, ask.to, ask.meta, tick); o.Applied? || o.Refused?
  {
    hide KeyOf, Allowed, SameDeal, Past, Posted, FitsRow, NoticeFits, Commit;
    assert Kin(s, ground, ask.trade);
  }

  /** The first time a trade is to come to a status, and may, a step that has a cause for it brings it there, unless its
      texts are too wide. */
  lemma FirstTimeLeads(cfg: Config, steps: seq<Step>, step: Step, id: string, t: Trade, to: Status)
    requires Uuids(cfg) && RowIs(Run(cfg, steps).db, id, t) && Cause(cfg, Run(cfg, steps), step, id, t, to)
    requires Allowed(t.status, to) && !Visited(Past(Run(cfg, steps).db, id), to) && !OutcomeOf(cfg, Run(cfg, steps), step).Refused?
    ensures Grew(Run(cfg, steps).db, Next(cfg, Run(cfg, steps), step).db, id, t, to)
  {
    hide Run, Uuids, Cause, Allowed, Visited, Past, Next, Grew, Wanted, OutcomeOf, Update, KeyAsked, Grounded, Ground, UuidText;
    var w := Run(cfg, steps);
    WantsIffCaused(cfg, w, step, id, t, to);
    var ask := Wanted(cfg, w, step).value;
    FirstTimeIsNew(cfg, steps, step, ask);
    OutcomeIs(cfg, w, step, ask);
    NewIsNotIgnored(w.db, Ground(w, step), ask, step.tick, t);
    CarriedOutMoves(cfg, w, step, id, t, to);
  }

  // ------------------------------------------------------------------ payouts

  /** The reference of a trade's payout, as far as it is visible. */
  function Reference(t: Trade): string {
    Trim(TextOf(t.payoutId))
  }

  // The reference a request about it names.
  function HeardRef(step: Step, t: Trade): string {
    if step.Webhook? then step.payout else Reference(t)
  }

  function HeardReason(step: Step): string {
    if step.Webhook? then step.note else if step.PollPayout? then "graph payout failed with status " + step.status else ""
  }

  lemma HeardAsk(cfg: Config, w: World, step: Step, id: string, t: Trade, news: PayoutNews)
    requires RowIs(w.db, id, t) && Hears(w, step, id, t, news)
    ensures news == PaidOut ==> Wanted(cfg, w, step) == Some(PayoutCompleteAsk(id, HeardRef(step, t)))
    ensures news == Bounced ==> Wanted(cfg, w, step) == Some(PayoutFailedAsk(id, HeardRef(step, t), HeardReason(step)))
  {
    hide PayoutCompleteAsk, PayoutFailedAsk, Trim;
    if step.Webhook? {
      assert AnswersPayout(w.db, step.payout, step.target);
    } else {
      assert Given(t.payoutId) == Some(Trim(t.payoutId.value));
    }
  }

  lemma HeardText(w: World, step: Step, id: string, t: Trade, news: PayoutNews)
    requires Hears(w, step, id, t, news)
    ensures Trim(HeardRef(step, t)) == Reference(t)
  {
    TrimTwice(TextOf(t.payoutId));
    hide Trim;
  }

  lemma PayoutForms(id: string, ref: string, reason: string)
    ensures var ask := PayoutCompleteAsk(id, ref); ask.trade == id && ask.to == PayoutCompleted
    ensures var ask := PayoutFailedAsk(id, ref, reason); ask.trade == id && ask.to == PayoutFailed
    ensures var ask := PayoutPendingAsk(id, ref); ask.trade == id && ask.to == PayoutPending && (FitsColumn(Given(Some(ref))) ==> FitsRow(ask.meta))
  {
    hide Filed, Folded, Trim;
  }

  lemma NotResolving(w: World, step: Step)
    requires !step.Resolve?
    ensures Ground(w, step) == w.db
  {
  }

  lemma HeardIsCause(cfg: Config, w: World, step: Step, id: string, t: Trade, news: PayoutNews)
    requires Hears(w, step, id, t, news)
    ensures news == PaidOut ==> Cause(cfg, w, step, id, t, PayoutCompleted)
    ensures news == Bounced ==> Cause(cfg, w, step, id, t, PayoutFailed)
    ensures !step.Resolve?
  {
    hide Trim;
  }

  /** A payout the provider reports as bounced, asked or unasked, is marked as failed: a pending payout that has not failed
      before, whose reference has no more than 56 characters. */
  lemma BouncedFails(cfg: Config, steps: seq<Step>, step: Step, id: string, t: Trade)
    requires Uuids(cfg) && RowIs(Run(cfg, steps).db, id, t) && t.status == PayoutPending && Hears(Run(cfg, steps), step, id, t, Bounced)
    requires !Visited(Past(Run(cfg, steps).db, id), PayoutFailed) && |Reference(t)| <= 56
    ensures Grew(Run(cfg, steps).db, Next(cfg, Run(cfg, steps), step).db, id, t, PayoutFailed)
  {
    assert Allowed(PayoutPending, PayoutFailed);
    hide *;
    var w := Run(cfg, steps);
    HeardIsCause(cfg, w, step, id, t, Bounced);
    HeardAsk(cfg, w, step, id, t, Bounced);
    HeardText(w, step, id, t, Bounced);
    BouncedNotRefused(cfg, steps, step, id, t);
    FirstTimeLeads(cfg, steps, step, id, t, PayoutFailed);
  }

  lemma BouncedNotRefused(cfg: Config, steps: seq<Step>, step: Step, id: string, t: Trade)
    requires Uuids(cfg) && RowIs(Run(cfg, steps).db, id, t) && t.status == PayoutPending
    requires Wanted(cfg, Run(cfg, steps), step) == Some(PayoutFailedAsk(id, HeardRef(step, t), HeardReason(step))) && !step.Resolve?
    requires |Trim(HeardRef(step, t))| <= 56
    ensures !OutcomeOf(cfg, Run(cfg, steps), step).Refused?
  {
    PayoutForms(id, HeardRef(step, t), HeardReason(step));
    assert Allowed(PayoutPending, PayoutFailed);
    hide Run, Uuids, Wanted, OutcomeOf, Healthy, PayoutFailedAsk, PayoutCompleteAsk, Update, Ready, Owes, Trim, KeyOf, Allowed, Ground, Grounded, HeardRef, HeardReason;
    var w, ask := Run(cfg, steps), PayoutFailedAsk(id, HeardRef(step, t), HeardReason(step));
    RunIsHealthy(cfg, steps);
    NotResolving(w, step);
    OutcomeIs(cfg, w, step, ask);
    PayoutRefusedIff(w.db, id, HeardRef(step, t), HeardReason(step), step.tick);
    RefusedOnlyWhenReady(w.db, ask, t, step.tick);
  }

  // A permitted change is refused only under a new key.
  lemma RefusedOnlyWhenReady(s: Store, ask: Ask, t: Trade, tick: Tick)
    requires RowIs(s, ask.trade, t) && Allowed(t.status, ask.to)
    ensures Update(s, ask.trade, ask.to, ask.meta, tick).Refused? ==> Ready(s, ask.trade, ask.to, ask.meta)
  {
    hide KeyOf, Allowed, Posted, FitsRow, NoticeFits, Commit;
  }

  /** One it reports as made is completed, as long as the reference has no more than 60 characters. */
  lemma PaidOutCompletes(cfg: Config, steps: seq<Step>, step: Step, id: string, t: Trade)
    requires Uuids(cfg) && RowIs(Run(cfg, steps).db, id, t) && t.status == PayoutPending && Hears(Run(cfg, steps), step, id, t, PaidOut)
    requires 0 < |Reference(t)| <= 60
    ensures Grew(Run(cfg, steps).db, Next(cfg, Run(cfg, steps), step).db, id, t, PayoutCompleted)
  {
    assert Allowed(PayoutPending, PayoutCompleted);
    hide *;
    var w := Run(cfg, steps);
    HeardIsCause(cfg, w, step, id, t, PaidOut);
    HeardAsk(cfg, w, step, id, t, PaidOut);
    HeardText(w, step, id, t, PaidOut);
    PaidOutNotRefused(cfg, steps, step, id, t);
    NeverFinalBefore(cfg, steps, id, t, PayoutCompleted);
    FirstTimeLeads(cfg, steps, step, id, t, PayoutCompleted);
  }

  lemma PaidOutNotRefused(cfg: Config, steps: seq<Step>, step: Step, id: string, t: Trade)
    requires Uuids(cfg) && RowIs(Run(cfg, steps).db, id, t) && t.status == PayoutPending
    requires Wanted(cfg, Run(cfg, steps), step) == Some(PayoutCompleteAsk(id, HeardRef(step, t))) && !step.Resolve?
    requires 0 < |Trim(HeardRef(step, t))| <= 60
    ensures !OutcomeOf(cfg, Run(cfg, steps), step).Refused?
  {
    PayoutForms(id, HeardRef(step, t), "");
    assert Allowed(PayoutPending, PayoutCompleted);
    hide Run, Uuids, Wanted, OutcomeOf, Healthy, PayoutFailedAsk, PayoutCompleteAsk, Update, Ready, Owes, Trim, KeyOf, Allowed, Ground, Grounded, HeardRef;
    var w, ask := Run(cfg, steps), PayoutCompleteAsk(id, HeardRef(step, t));
    RunIsHealthy(cfg, steps);
    NotResolving(w, step);
    OutcomeIs(cfg, w, step, ask);
    PayoutRefusedIff(w.db, id, HeardRef(step, t), "", step.tick);
    RefusedOnlyWhenReady(w.db, ask, t, step.tick);
  }

  // A trade that is not in a final status has never been in it.
  lemma NeverFinalBefore(cfg: Config, steps: seq<Step>, id: string, t: Trade, to: Status)
    requires RowIs(Run(cfg, steps).db, id, t) && to in {PayoutCompleted, DisputeClosed, Cancelled} && t.status != to
    ensures !Visited(Past(Run(cfg, steps).db, id), to)
  {
    RunIsRecorded(cfg, steps);
    hide Run, Past, Linked, Counted;
    var h := Past(Run(cfg, steps).db, id);
    assert RecordedAt(Run(cfg, steps).db, id);
    hide Chain;
    if Visited(h, to) {
      var i :| 0 <= i < |h| && h[i].to == to;
      FinalIsFinal(h, i, |h| - 1);
      assert false;
    }
  }

  /** One it reports as under way, in a webhook, is marked as pending the first time. */
  lemma StillPendingPends(cfg: Config, steps: seq<Step>, step: Step, id: string, t: Trade)
    requires Uuids(cfg) && RowIs(Run(cfg, steps).db, id, t) && Informs(Run(cfg, steps), step, id, t) && step.news == StillPending
    requires Allowed(t.status, PayoutPending) && !Visited(Past(Run(cfg, steps).db, id), PayoutPending) && |Reference(t)| <= 128
    ensures Grew(Run(cfg, steps).db, Next(cfg, Run(cfg, steps), step).db, id, t, PayoutPending)
  {
    hide *;
    var w := Run(cfg, steps);
    PendingIsAsked(cfg, steps, step, id, t);
    PendingNotRefused(cfg, steps, step, id, t);
    FirstTimeLeads(cfg, steps, step, id, t, PayoutPending);
  }

  lemma PendingIsAsked(cfg: Config, steps: seq<Step>, step: Step, id: string, t: Trade)
    requires RowIs(Run(cfg, steps).db, id, t) && Informs(Run(cfg, steps), step, id, t) && step.news == StillPending
    requires !Visited(Past(Run(cfg, steps).db, id), PayoutPending)
    ensures Cause(cfg, Run(cfg, steps), step, id, t, PayoutPending) && !step.Resolve?
    ensures Wanted(cfg, Run(cfg, steps), step) == Some(PayoutPendingAsk(id, TextOf(t.payoutId)))
  {
    RunIsRecorded(cfg, steps);
    hide Run, PayoutPendingAsk, PayoutCompleteAsk, PayoutFailedAsk, Counted, Chain, Past;
    assert RecordedAt(Run(cfg, steps).db, id);
    ChainNotEmpty(Past(Run(cfg, steps).db, id));
    CurrentIsVisited(Past(Run(cfg, steps).db, id));
    assert AnswersPayout(Run(cfg, steps).db, step.payout, step.target);
  }

  lemma ChainNotEmpty(h: seq<Change>)
    requires Chain(h)
    ensures h != []
  {
  }

  lemma PendingNotRefused(cfg: Config, steps: seq<Step>, step: Step, id: string, t: Trade)
    requires Uuids(cfg) && RowIs(Run(cfg, steps).db, id, t) && Allowed(t.status, PayoutPending)
    requires Wanted(cfg, Run(cfg, steps), step) == Some(PayoutPendingAsk(id, TextOf(t.payoutId))) && !step.Resolve? && |Reference(t)| <= 128
    ensures !OutcomeOf(cfg, Run(cfg, steps), step).Refused?
  {
    var ref := TextOf(t.payoutId);
    PayoutForms(id, ref, "");
    TrimTwice(ref);
    TrimFits(ref);
    hide Run, Uuids, Wanted, OutcomeOf, Healthy, PayoutPendingAsk, Update, Ready, Trim, KeyOf, Allowed, Ground, Grounded, Fine, TextOf, FitsRow, Given;
    var w, ask := Run(cfg, steps), PayoutPendingAsk(id, ref);
    RunIsHealthy(cfg, steps);
    HealthyIsFine(w.db, id);
    NotResolving(w, step);
    OutcomeIs(cfg, w, step, ask);
    RefusedOnlyWhenReady(w.db, ask, t, step.tick);
    if Ready(w.db, id, ask.to, ask.meta) {
      QuietNotice(w.db, id, ask.to, ask.meta);
      NothingOwed(w.db, id, ask.meta);
      RefusedIff(w.db, id, ask.to, ask.meta, step.tick);
    }
  }

  lemma NothingOwed(s: Store, id: string, m: Metadata)
    ensures !Owes(s, id, PayoutPending, m) && !Owes(s, id, DisputeClosed, m)
  {
  }

  /** A webhook whose news is neither, and an answer that a payout is still under way, change no table. */
  lemma UnclearChangesNothing(cfg: Config, w: World, step: Step)
    requires (step.Webhook? && step.news == Unclear) || (step.PollPayout? && step.news in {StillPending, Unclear})
    ensures Next(cfg, w, step).db == w.db
  {
    hide Given, Update, PayoutCompleteAsk, PayoutFailedAsk, PayoutPendingAsk, AnswersPayout;
  }

  // ------------------------------------------------------------------ what reaches the user

  lemma TimesGrow(h: seq<Change>, x: Change, to: Status)
    requires h != []
    ensures Times(h + [x], to) == Times(h, to) + if x.to == to then 1 else 0
  {
    assert (h + [x])[..|h|] == h;
  }

  lemma SameTerms(cfg: Config, steps: seq<Step>, step: Step, id: string, t: Trade, u: Trade)
    requires RowIs(Run(cfg, steps).db, id, t) && RowIs(Next(cfg, Run(cfg, steps), step).db, id, u)
    ensures u.toExpected == t.toExpected && Past(Run(cfg, steps).db, id) != []
  {
    RunIsRecorded(cfg, steps);
    hide Run, Next, Counted, Chain, KeysStay, HistoryStays, TicketsStay, QuotesStay;
    NextGrows(cfg, Run(cfg, steps), step);
    assert RecordedAt(Run(cfg, steps).db, id);
    ChainNotEmpty(Past(Run(cfg, steps).db, id));
  }

  /** In any run a trade's user is paid by a step if and only if the step changes the trade to PAYOUT_COMPLETED, which takes
      the provider's word that the payout was made or an admin who forces the completion; the step then pays exactly the
      amount owed, and no other step pays anything. */
  lemma PaidOnlyByCause(cfg: Config, steps: seq<Step>, step: Step, id: string, t: Trade, u: Trade)
    requires RowIs(Run(cfg, steps).db, id, t) && RowIs(Next(cfg, Run(cfg, steps), step).db, id, u)
    ensures var w, after := Run(cfg, steps), Next(cfg, Run(cfg, steps), step).db;
            if Grew(w.db, after, id, t, PayoutCompleted)
            then PaidOver(after.ledger, id, u) == PaidOver(w.db.ledger, id, t) + t.toExpected
                 && (Hears(w, step, id, t, PaidOut) || Settles(w.db, step, id, ForceComplete))
            else PaidOver(after.ledger, id, u) == PaidOver(w.db.ledger, id, t)
  {
    hide *;
    var w := Run(cfg, steps);
    RunMore(cfg, steps, step);
    UserIsPaid(cfg, steps, id, t);
    UserIsPaid(cfg, steps + [step], id, u);
    SameTerms(cfg, steps, step, id, t, u);
    MovesOnlyByCause(cfg, w, step, id, t);
    TimesAfter(cfg, w, step, id, t);
    PaidMore(t.toExpected, Times(Past(w.db, id), PayoutCompleted));
  }

  lemma PaidMore(amount: int, times: int)
    ensures amount * (times + 1) == amount * times + amount
  {
  }

  lemma RunMore(cfg: Config, steps: seq<Step>, step: Step)
    ensures Run(cfg, steps + [step]) == Next(cfg, Run(cfg, steps), step)
  {
    hide Next, Run;
    assert (steps + [step])[..|steps|] == steps;
    RunLast(cfg, steps + [step]);
  }

  lemma TimesAfter(cfg: Config, w: World, step: Step, id: string, t: Trade)
    requires RowIs(w.db, id, t) && Past(w.db, id) != []
    ensures var s, after := w.db, Next(cfg, w, step).db;
            Times(Past(after, id), PayoutCompleted) == Times(Past(s, id), PayoutCompleted) + if Grew(s, after, id, t, PayoutCompleted) then 1 else 0
    ensures Grew(w.db, Next(cfg, w, step).db, id, t, PayoutCompleted) ==> Hears(w, step, id, t, PaidOut) || Settles(w.db, step, id, ForceComplete)
  {
    hide Next, Past, Times, Allowed, Hears, Settles;
    MovesOnlyByCause(cfg, w, step, id, t);
    var s, after := w.db, Next(cfg, w, step).db;
    if !Stayed(s, after, id, t) {
      var to :| Cause(cfg, w, step, id, t, to) && Allowed(t.status, to) && Grew(s, after, id, t, to);
      TimesGrow(Past(s, id), Change(Some(t.status), to), PayoutCompleted);
    }
  }

  // ------------------------------------------------------------------ closing a dispute

  // Metadata that stores no text.
  predicate ClosingMeta(m: Metadata) {
    m.txHash.None? && m.payoutRef.None? && m.orderId.None? && m.conversionId.None?
  }

  lemma ClosingAsk(s: Store, step: Step, id: string, now: int)
    requires Settles(s, step, id, CloseNoPayout) && id in s.trades
    ensures exists m :: ClosingMeta(m) && ResolveAsk(s, step.ticket, step.mode, step.note) == Some(Ask(id, DisputeClosed, m))
    ensures Reopened(s, id, CloseNoPayout, now) == s
  {
    hide Trim;
    var k := s.tickets[step.ticket];
    var m := ResolutionAsk(id, s.trades[id], k.reason, CloseNoPayout, step.note).meta;
    assert ClosingMeta(m) && ResolveAsk(s, step.ticket, step.mode, step.note) == Some(Ask(id, DisputeClosed, m));
  }

  lemma ClosingNotRefused(s: Store, id: string, t: Trade, m: Metadata, tick: Tick)
    requires Healthy(s) && RowIs(s, id, t) && t.status == Dispute && ClosingMeta(m)
    ensures !Update(s, id, DisputeClosed, m, tick).Refused?
  {
    assert Allowed(Dispute, DisputeClosed) && FitsRow(m);
    hide Healthy, Update, Ready, FitsRow, Fine, NoticeLong, Owes, Allowed;
    HealthyIsFine(s, id);
    RefusedOnlyWhenReady(s, Ask(id, DisputeClosed, m), t, tick);
    if Ready(s, id, DisputeClosed, m) {
      QuietNotice(s, id, DisputeClosed, m);
      NothingOwed(s, id, m);
      RefusedIff(s, id, DisputeClosed, m, tick);
    }
  }

  // What the call does to the ledger and to the tickets.
  lemma ClosedTables(s: Store, ticket: nat, note: string, resolver: string, tick: Tick, ask: Ask)
    requires OneOpen(s.tickets) && ResolveAsk(s, ticket, Some(CloseNoPayout), note) == Some(ask) && ask.to == DisputeClosed
    requires Reopened(s, ask.trade, CloseNoPayout, tick.now) == s && !Update(s, ask.trade, ask.to, ask.meta, tick).Refused?
    ensures var after := Resolved(s, ticket, Some(CloseNoPayout), note, resolver, tick);
            after.ledger == s.ledger && !HasOpenTicket(after, ask.trade)
  {
    hide ResolveAsk, Resolved, Update, HasOpenTicket, OneOpen, Reopened, Settle;
    DisputeResolvedIff(s, ticket, CloseNoPayout, note, resolver, tick, ask);
    ResolvedIs(s, ticket, CloseNoPayout, note, resolver, tick, ask);
    ClosingPostsNothing(s, ask, tick);
  }

  lemma ClosingPostsNothing(s: Store, ask: Ask, tick: Tick)
    requires ask.to == DisputeClosed
    ensures Settle(s, Update(s, ask.trade, ask.to, ask.meta, tick)).ledger == s.ledger
  {
    hide KeyOf, OperationKey, FitsRow, NoticeFits, Written, Past, Allowed;
  }

  /** An admin who closes a dispute without payout always closes it: the trade comes to DISPUTE_CLOSED, nothing is posted,
      and no ticket of the trade is left open. */
  lemma ClosingCloses(cfg: Config, steps: seq<Step>, step: Step, id: string, t: Trade)
    requires Uuids(cfg) && RowIs(Run(cfg, steps).db, id, t) && t.status == Dispute && Settles(Run(cfg, steps).db, step, id, CloseNoPayout)
    ensures var s, after := Run(cfg, steps).db, Next(cfg, Run(cfg, steps), step).db;
            Grew(s, after, id, t, DisputeClosed) && after.ledger == s.ledger && !HasOpenTicket(after, id)
  {
    var w := Run(cfg, steps);
    ClosingStep(cfg, w, step, id, t);
    hide *;
    RunIsHealthy(cfg, steps);
    RunKeepsOneOpen(cfg, steps);
    NeverFinalBefore(cfg, steps, id, t, DisputeClosed);
    ClosingAsk(w.db, step, id, step.tick.now);
    var m :| ClosingMeta(m) && ResolveAsk(w.db, step.ticket, step.mode, step.note) == Some(Ask(id, DisputeClosed, m));
    ClosingNotRefused(w.db, id, t, m, step.tick);
    ClosedTables(w.db, step.ticket, step.note, step.resolver, step.tick, Ask(id, DisputeClosed, m));
    ClosingOutcome(cfg, w, step, Ask(id, DisputeClosed, m));
    FirstTimeLeads(cfg, steps, step, id, t, DisputeClosed);
  }

  lemma ClosingStep(cfg: Config, w: World, step: Step, id: string, t: Trade)
    requires Settles(w.db, step, id, CloseNoPayout) && RowIs(w.db, id, t) && t.status == Dispute
    ensures step == Resolve(step.ticket, Some(CloseNoPayout), step.note, step.resolver, step.tick) && step.mode == Some(CloseNoPayout)
    ensures id in w.db.trades && Cause(cfg, w, step, id, t, DisputeClosed) && Allowed(t.status, DisputeClosed)
    ensures Next(cfg, w, step).db == Resolved(w.db, step.ticket, Some(CloseNoPayout), step.note, step.resolver, step.tick)
  {
    hide Resolved;
  }

  lemma ClosingOutcome(cfg: Config, w: World, step: Step, ask: Ask)
    requires step.Resolve? && step.mode == Some(CloseNoPayout) && ResolveAsk(w.db, step.ticket, step.mode, step.note) == Some(ask)
    requires Reopened(w.db, ask.trade, CloseNoPayout, step.tick.now) == w.db
    ensures OutcomeOf(cfg, w, step) == Update(w.db, ask.trade, ask.to, ask.meta, step.tick)
  {
    hide ResolveAsk, ResolveGround, Update, Reopened;
    ResolvedIs(w.db, step.ticket, CloseNoPayout, step.note, step.resolver, step.tick, ask);
  }
}
