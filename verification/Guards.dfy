/** What stands in a trade's way: no payout without authorisation, no cancellation in time, a dispute for every
    faulty deposit and for every confirmation lost, and an end to failing sales. */
module Guards {
  import opened Wrappers
  import opened Text
  import opened Lifecycle
  import opened Ledger
  import opened Store
  import opened Steps
  import opened Asks
  import opened Growth
  import opened ExactlyOnce
  import opened Tickets
  import opened Changes
  import opened Disputed

  // ------------------------------------------------------------------ authorisation

  /** A trade is being paid, or carries a payout reference, only if it was authorised and has come so far. */
  predicate PaidRightly(t: Trade) {
    (t.payoutId.Some? || t.status in PAYING) ==> t.authorized && t.status in PAYING
  }

  /** Every never-disputed trade is paid rightly. */
  ghost predicate Authorised(s: Store) {
    forall id <- s.trades :: AuthorisedAt(s, id)
  }

  predicate AuthorisedAt(s: Store, id: string) {
    id in s.trades && !WasDisputed(s, id) ==> PaidRightly(s.trades[id])
  }

  /** A request that pays: it is for an authorised trade ready for payout, or for one already being paid. */
  predicate PaysRightly(s: Store, ask: Ask) {
    ask.to in PAYING && ask.trade in s.trades && Allowed(s.trades[ask.trade].status, ask.to) ==>
      var t := s.trades[ask.trade];
      (t.authorized && t.status == ConversionCompleted) || t.payoutId.Some? || t.status == PayoutPending
  }

  /** A trade a payout request may be about. */
  predicate MayBePaid(s: Store, trade: string) {
    trade in s.trades && var t := s.trades[trade];
    t.payoutId.Some? || t.status == PayoutPending || (t.authorized && t.status == ConversionCompleted)
  }

  lemma PayoutAsksPayRightly(s: Store, trade: string, ref: string, reason: string)
    requires MayBePaid(s, trade)
    ensures PaysRightly(s, PayoutPendingAsk(trade, ref)) && PaysRightly(s, PayoutCompleteAsk(trade, ref)) && PaysRightly(s, PayoutFailedAsk(trade, ref, reason))
  {
    hide Filed, Folded;
  }

  lemma StartPaysRightly(s: Store, trade: string, answer: PayoutAnswer, ask: Ask)
    requires StartPayoutAsk(s, trade, answer) == Some(ask)
    ensures PaysRightly(s, ask)
  {
    hide PayoutPendingAsk, Trim;
    if answer.Initiated? {
      PayoutAsksPayRightly(s, trade, answer.ref, "");
    }
  }

  lemma PollPaysRightly(s: Store, trade: string, news: PayoutNews, status: string, ask: Ask)
    requires PollPayoutAsk(s, trade, news, status) == Some(ask)
    ensures PaysRightly(s, ask)
  {
    hide PayoutCompleteAsk, PayoutFailedAsk, Given, PaysRightly;
    PayoutAsksPayRightly(s, trade, Given(s.trades[trade].payoutId).value, "graph payout failed with status " + status);
  }

  lemma WebhookPaysRightly(w: World, event: string, payout: string, target: Option<string>, news: PayoutNews, note: string, ask: Ask)
    requires WebhookAsk(w, event, payout, target, news, note) == Some(ask)
    ensures PaysRightly(w.db, ask)
  {
    hide PayoutCompleteAsk, PayoutFailedAsk, PayoutPendingAsk, PaysRightly;
    PayoutAsksPayRightly(w.db, target.value, payout, note);
  }

  lemma AskPaysRightly(cfg: Config, w: World, step: Step, ask: Ask)
    requires AskOf(cfg, w, step) == Some(ask)
    ensures Proper(w.db, ask) && PaysRightly(w.db, ask)
  {
    AskIsProper(cfg, w, step, ask);
    hide PaysRightly, WatchAsk, BackfillAsk, StartPayoutAsk, PollPayoutAsk, WebhookAsk, SellAsk, EndSaleAsk, RecoverAsk, RaiseAsk, Proper;
    if step.StartPayout? {
      StartPaysRightly(w.db, step.trade, step.payoutAnswer, ask);
    } else if step.PollPayout? {
      PollPaysRightly(w.db, step.trade, step.news, step.status, ask);
    } else if step.Webhook? {
      WebhookPaysRightly(w, step.event, step.payout, step.target, step.news, step.note, ask);
    } else {
      NothingPaid(w.db, ask);
    }
  }

  lemma NothingPaid(s: Store, ask: Ask)
    requires ask.to !in PAYING
    ensures PaysRightly(s, ask)
  {
  }

  lemma ChangeKeepsRight(s: Store, t: Trade, ask: Ask, now: int)
    requires RowIs(s, ask.trade, t) && Allowed(t.status, ask.to) && ask.to != Dispute
    requires Proper(s, ask) && PaysRightly(s, ask) && PaidRightly(t)
    ensures PaidRightly(Written(t, ask.to, ask.meta, now))
  {
    hide Given, Note, Plain;
    assert ask.meta.payoutRef.None? ==> Given(ask.meta.payoutRef).None? by { NoneGiven(ask.meta.payoutRef); }
  }

  lemma NoneGiven(v: Option<string>)
    ensures v.None? ==> Given(v).None?
  {
  }

  // The trade a change is for: a resolution's has been in dispute.
  lemma MadeAuthorised(cfg: Config, w: World, step: Step, ask: Ask, after: Store)
    requires Authorised(w.db) && TicketsOfDisputed(w.db) && Wanted(cfg, w, step) == Some(ask)
    requires Makes(w.db, Ground(w, step), after, ask, step.tick)
    ensures AuthorisedAt(after, ask.trade)
  {
    VisitedAppend(Past(w.db, ask.trade), Change(Some(w.db.trades[ask.trade].status), ask.to), Dispute);
    if step.Resolve? {
      ResolutionDisputed(w.db, step.ticket, step.mode, step.note, ask);
    } else {
      hide AskOf, Allowed, Visited, Past, Posted, KeyAsked, Written, Proper, PaysRightly, SameDeal, PaidRightly, Elsewhere;
      AskPaysRightly(cfg, w, step, ask);
      assert AuthorisedAt(w.db, ask.trade);
      if !WasDisputed(after, ask.trade) {
        ChangeKeepsRight(w.db, w.db.trades[ask.trade], ask, step.tick.now);
      }
    }
  }

  lemma ResolutionDisputed(s: Store, ticket: nat, mode: Option<Mode>, note: string, ask: Ask)
    requires TicketsOfDisputed(s) && ResolveAsk(s, ticket, mode, note) == Some(ask)
    ensures WasDisputed(s, ask.trade)
  {
    hide WasDisputed;
    ResolvedIs(s, ticket, mode.value, note, "", Tick(0, []), ask);
  }

  lemma KinAuthorised(s: Store, after: Store, id: string)
    requires AuthorisedAt(s, id) && Kin(s, after, id)
    ensures AuthorisedAt(after, id)
  {
    hide Past, Visited;
  }

  lemma NextAuthorised(cfg: Config, w: World, step: Step)
    requires Authorised(w.db) && TicketsOfDisputed(w.db)
    ensures Authorised(Next(cfg, w, step).db)
  {
    var s, after := w.db, Next(cfg, w, step).db;
    var made := Made(cfg, w, step);
    hide Next, OutcomeOf, Wanted, Ground, TicketsOfDisputed, AuthorisedAt, Kin, Visited, Past, SameDeal, Posted, KeyAsked, Written;
    if made.Some? {
      WhenMade(cfg, w, step, made.value);
      MadeAuthorised(cfg, w, step, made.value, after);
    } else {
      WhenNotMade(cfg, w, step);
    }
    hide Makes, Quiet;
    forall id | id in after.trades
      ensures AuthorisedAt(after, id)
    {
      if id !in s.trades {
        NewAuthorised(cfg, w, step, id);
      } else if made.None? || made.value.trade != id {
        KinIs(cfg, w, step, id);
        KinAuthorised(s, after, id);
      }
    }
  }

  lemma KinIs(cfg: Config, w: World, step: Step, id: string)
    requires id in w.db.trades && (Made(cfg, w, step).Some? ==> Made(cfg, w, step).value.trade != id)
    ensures Kin(w.db, Next(cfg, w, step).db, id)
  {
    var made := Made(cfg, w, step);
    hide Next, OutcomeOf, Wanted, Ground, Kin, Posted, KeyAsked, Written;
    if made.Some? {
      WhenMade(cfg, w, step, made.value);
    } else {
      WhenNotMade(cfg, w, step);
    }
  }

  lemma NewAuthorised(cfg: Config, w: World, step: Step, id: string)
    requires id !in w.db.trades
    ensures AuthorisedAt(Next(cfg, w, step).db, id)
  {
    hide Next, Past, Visited;
    if id in Next(cfg, w, step).db.trades {
      BornAt(cfg, w, step, id);
    }
  }

  lemma {:induction false} RunIsAuthorised(cfg: Config, steps: seq<Step>)
    ensures Authorised(Run(cfg, steps).db)
  {
    if steps != [] {
      var n := |steps| - 1;
      RunIsAuthorised(cfg, steps[..n]);
      RunTickets(cfg, steps[..n]);
      hide Authorised, Next, TicketsOfDisputed;
      NextAuthorised(cfg, Run(cfg, steps[..n]), steps[n]);
    }
  }

  /** In any run a never-disputed trade is paid out, or carries a payout reference, only if its user authorised the
      payout. */
  lemma NoPayoutWithoutAuthorisation(cfg: Config, steps: seq<Step>, id: string, t: Trade)
    requires RowIs(Run(cfg, steps).db, id, t) && !WasDisputed(Run(cfg, steps).db, id) && (t.payoutId.Some? || t.status in PAYING)
    ensures t.authorized
  {
    hide Run, Visited;
    RunIsAuthorised(cfg, steps);
    assert AuthorisedAt(Run(cfg, steps).db, id);
  }

  // ------------------------------------------------------------------ deadlines

  /** A request that cancels is the watcher's, for a trade waiting past its deadline; one that receives a deposit is the
      scanner's, or the watcher's before the deadline. */
  predicate InTime(s: Store, step: Step, ask: Ask) {
    && (ask.to == Cancelled ==> Expires(s, step, ask.trade))
    && (ask.to == DepositReceived ==> step.Backfill? || WatchedInTime(s, step, ask.trade))
  }

  predicate Expires(s: Store, step: Step, id: string) {
    step.Watch? && step.trade == id && InStatus(s, id, PendingDeposit) && step.tick.now > s.trades[id].expiresAt
  }

  predicate WatchedInTime(s: Store, step: Step, id: string) {
    step.Watch? && step.trade == id && id in s.trades && step.tick.now <= s.trades[id].expiresAt
  }

  lemma WatchKeepsDeadline(cfg: Config, s: Store, trade: string, seen: Sighting, holder: Option<string>, tick: Tick, ask: Ask)
    requires WatchCase(cfg, s, trade, seen, holder, tick.now, ask)
    ensures InTime(s, Watch(trade, seen, holder, tick), ask)
  {
    hide Clean, Insisted, DepositDispute, DepositNote, ExpiryNote, Proper;
    if reason :| ask == DepositDispute("deposit_dispute:", trade, seen.txHash, reason) {
      DisputeIsProper(s, "deposit_dispute:", trade, seen.txHash, reason);
    }
  }

  lemma WantedInTime(cfg: Config, w: World, step: Step, ask: Ask)
    requires Wanted(cfg, w, step) == Some(ask)
    ensures InTime(w.db, step, ask)
  {
    hide WatchAsk, BackfillAsk, WatchCase, BackfillCase, Proper, ResolutionAsk, InTime;
    if step.Resolve? {
      ResolvedIs(w.db, step.ticket, step.mode.value, step.note, "", step.tick, ask);
      OthersInTime(w.db, step, ask);
    } else if step.Watch? {
      WatchCases(cfg, w.db, step.trade, step.seen, step.holder, step.tick.now, ask);
      WatchKeepsDeadline(cfg, w.db, step.trade, step.seen, step.holder, step.tick, ask);
    } else {
      AskIsProper(cfg, w, step, ask);
      OthersInTime(w.db, step, ask);
    }
  }

  lemma OthersInTime(s: Store, step: Step, ask: Ask)
    requires ask.to != Cancelled && (ask.to == DepositReceived ==> step.Backfill?)
    ensures InTime(s, step, ask)
  {
  }

  /** A trade is cancelled only by the watcher, while it waits and after its deadline; and the watcher takes a deposit
      as received only before it. */
  lemma CancelledOnlyWhenExpired(cfg: Config, w: World, step: Step, id: string, to: Status)
    requires id in w.db.trades && !InStatus(w.db, id, to) && InStatus(Next(cfg, w, step).db, id, to)
    ensures to == Cancelled ==> Expires(w.db, step, id)
    ensures to == DepositReceived ==> step.Backfill? || WatchedInTime(w.db, step, id)
  {
    StepAt(cfg, w, step, id);
    hide Next, Wanted, Past, Given, Allowed, Expires, WatchedInTime;
    WantedInTime(cfg, w, step, Wanted(cfg, w, step).value);
  }

  // ------------------------------------------------------------------ faults

  /** A trade put into dispute, ticketed, with nothing posted for it, if the dispute's key is new and its hash fits;
      otherwise no table changed. */
  predicate DisputedIffNew(s: Store, after: Store, ask: Ask, hash: string) {
    if KeyAsked(ask) !in s.keys && |Trim(hash)| <= COLUMN_WIDTH
    then InStatus(after, ask.trade, Dispute) && HasOpenTicket(after, ask.trade) && after.ledger == s.ledger
    else after == s
  }

  lemma DisputeGoesThrough(s: Store, ask: Ask, t: Trade, tick: Tick, hash: string)
    requires RowIs(s, ask.trade, t) && ask.to == Dispute && Allowed(t.status, Dispute) && ask.meta.skipLedger
    requires FitsRow(ask.meta) <==> |Trim(hash)| <= COLUMN_WIDTH
    ensures DisputedIffNew(s, Settle(s, Update(s, ask.trade, ask.to, ask.meta, tick)), ask, hash)
  {
    hide Update, KeyOf, FitsRow, Allowed, Note, Given, OpenTicketOf, WithTicket, Past, Commit, OperationKey, PostingsFor, Trim;
    UpdateCases(s, ask.trade, ask.to, ask.meta, tick);
    if KeyAsked(ask) !in s.keys && FitsRow(ask.meta) {
      AppliesUnposted(s, ask.trade, ask.to, ask.meta, tick);
      WhenApplied(s, ask.trade, ask.to, ask.meta, tick);
      OpeningOpens(s.tickets, ask.trade, ask.meta.byUser, Note(ask.meta), ask.trade);
    }
  }

  lemma DisputeFits(prefix: string, trade: string, hash: string, reason: string, ask: Ask)
    requires ask == DepositDispute(prefix, trade, hash, reason)
    ensures (FitsRow(ask.meta) <==> |Trim(hash)| <= COLUMN_WIDTH) && ask.meta.skipLedger && ask.to == Dispute && ask.trade == trade
  {
    TrimTwice(hash);
    hide Folded, Trim, Filed;
  }

  // A step that asks for a deposit dispute of a trade not in dispute.
  lemma FiledDispute(cfg: Config, w: World, step: Step, prefix: string, trade: string, t: Trade, hash: string, reason: string, ask: Ask)
    requires AskOf(cfg, w, step) == Some(ask) && ask == DepositDispute(prefix, trade, hash, reason)
    requires RowIs(w.db, trade, t) && Allowed(t.status, Dispute)
    ensures DisputedIffNew(w.db, Next(cfg, w, step).db, ask, hash)
  {
    DisputeFits(prefix, trade, hash, reason, ask);
    hide AskOf, Allowed, Next, Trim, DepositDispute, Update, FitsRow, DisputedIffNew;
    DisputeGoesThrough(w.db, ask, t, step.tick, hash);
    AskingStep(cfg, w, step, ask);
  }

  lemma DisputePermitted(s: Status)
    ensures s in BACKFILLED ==> Allowed(s, Dispute)
  {
  }

  /** A trade the watcher still checks: its deposit is received, or awaited and not late. */
  predicate Watched(s: Store, trade: string, t: Trade, now: int) {
    RowIs(s, trade, t) && t.address != "" && (t.status == DepositReceived || (t.status == PendingDeposit && now <= t.expiresAt))
  }

  /** A faulty deposit the watcher finds in time, whatever the fault is, puts the trade into dispute exactly when the
      dispute's key is new and the hash fits its column; otherwise no table changes and the deposit stays as it was. */
  lemma FaultyDepositIsDisputed(cfg: Config, w: World, trade: string, t: Trade, seen: Sighting, holder: Option<string>, tick: Tick, fault: Fault)
    requires Watched(w.db, trade, t, tick.now) && seen.found && LookedUp(w.db, seen, holder)
    requires FaultOf(cfg, trade, t, seen, holder, true) == Some(fault)
    ensures DisputedIffNew(w.db, Next(cfg, w, Watch(trade, seen, holder, tick)).db,
                           DepositDispute("deposit_dispute:", trade, seen.txHash, WatcherReason(fault)), seen.txHash)
  {
    hide FaultOf, LookedUp, DepositDispute, WatcherReason, Fired, PolicyFor, View, DepositNote, ExpiryNote, Next, DisputedIffNew, Allowed;
    DisputePermitted(t.status);
    FiledDispute(cfg, w, Watch(trade, seen, holder, tick), "deposit_dispute:", trade, t, seen.txHash, WatcherReason(fault),
                 DepositDispute("deposit_dispute:", trade, seen.txHash, WatcherReason(fault)));
  }

  /** A trade past its confirmation, up to and including a pending payout. */
  predicate Confirmed(s: Store, trade: string, t: Trade) {
    RowIs(s, trade, t) && Trim(t.address) != "" && t.status in {DepositConfirmed, ConversionInProgress, ConversionCompleted, PayoutPending}
  }

  /** A trade past its confirmation whose deposit loses confirmations below finality, up to and including a pending
      payout, is disputed exactly when that dispute's key is new and the hash fits its column; otherwise no table
      changes. */
  lemma LostFinalityIsDisputed(cfg: Config, w: World, trade: string, t: Trade, seen: Sighting, holder: Option<string>, tick: Tick)
    requires Confirmed(w.db, trade, t) && Clean(cfg, w.db, trade, seen, holder, false) && seen.confirmations < PolicyFor(cfg, t).finality
    ensures DisputedIffNew(w.db, Next(cfg, w, Backfill(trade, seen, holder, tick)).db,
                           DepositDispute("backfill_dispute:", trade, seen.txHash, "finality_dropped_below_threshold"), seen.txHash)
  {
    hide FaultOf, LookedUp, DepositDispute, BackfillReason, PolicyFor, Trim, Filed, Folded, Next, DisputedIffNew, Allowed;
    DisputePermitted(t.status);
    FiledDispute(cfg, w, Backfill(trade, seen, holder, tick), "backfill_dispute:", trade, t, seen.txHash, "finality_dropped_below_threshold",
                 DepositDispute("backfill_dispute:", trade, seen.txHash, "finality_dropped_below_threshold"));
  }

  // ------------------------------------------------------------------ failing sales

  /** Failed attempts to sell one trade, each with the error it met and its time. */
  function FailedSales(trade: string, tries: seq<(string, Tick)>): seq<Step> {
    seq(|tries|, i requires 0 <= i < |tries| => Sell(trade, TryAgain(tries[i].0), tries[i].1))
  }

  lemma OneFailure(cfg: Config, w: World, trade: string, error: string, tick: Tick)
    requires ForSale(w.db, trade) && Attempts(w, trade) < 5
    ensures var v := Next(cfg, w, Sell(trade, TryAgain(error), tick)); v.db == w.db && Attempts(v, trade) == Attempts(w, trade) + 1
  {
    SellAskWhen(w, trade, TryAgain(error));
    hide SellAsk;
  }

  /** Up to five failures in a row are counted, and change no table. */
  lemma {:induction false} FailuresAreCounted(cfg: Config, w: World, trade: string, tries: seq<(string, Tick)>)
    requires ForSale(w.db, trade) && Attempts(w, trade) == 0 && |tries| <= 5
    ensures var v := RunFrom(cfg, w, FailedSales(trade, tries)); v.db == w.db && Attempts(v, trade) == |tries|
  {
    var steps := FailedSales(trade, tries);
    if tries != [] {
      var n := |tries| - 1;
      FailuresAreCounted(cfg, w, trade, tries[..n]);
      assert steps[..n] == FailedSales(trade, tries[..n]);
      hide Next;
      OneFailure(cfg, RunFrom(cfg, w, steps[..n]), trade, tries[n].0, tries[n].1);
    }
  }

  // ------------------------------------------------------------------ retries

  /** A trade no sale or payout of which is recorded, waiting for one or the other. */
  predicate Waiting(t: Trade) {
    || (t.status == DepositConfirmed && t.orderId.None? && t.payoutId.None? && t.toActual.None? && t.conversionId.None?)
    || (t.status == ConversionCompleted && t.payoutId.None? && t.completedAt.None?)
  }

  lemma RetryWritten(t: Trade, disputed: string, trade: string, note: string, now: int, ask: Ask)
    requires ask == ResolutionAsk(trade, t, disputed, RetryProcessing, note)
    ensures var u := if RetryStatus(t) == ConversionCompleted then t.(payoutId := None, completedAt := None, updatedAt := now) else t;
            Waiting(Written(u, ask.to, ask.meta, now))
  {
    hide FirstNonBlank, Trim, Note;
  }

  /** A worker takes the trade up: the conversion worker records the next order it fills for it, or the payout worker
      starts a payout of it, if its user has authorised one. */
  ghost predicate TakenUp(s: Store, id: string) {
    id in s.trades && Waiting(s.trades[id]) &&
    if s.trades[id].status == DepositConfirmed then
      forall w: World, order, exchange :: w.db == s ==> SellAsk(w, id, Sold(order, exchange)).Some?
    else
      forall ref :: StartPayoutAsk(s, id, Initiated(ref)).Some? <==> s.trades[id].authorized
  }

  lemma WaitingIsTakenUp(s: Store, id: string)
    requires id in s.trades && Waiting(s.trades[id])
    ensures TakenUp(s, id)
  {
    hide Filed, Folded, Trim, PayoutPendingAsk;
    if s.trades[id].status == DepositConfirmed {
      forall w: World, order, exchange | w.db == s
        ensures SellAsk(w, id, Sold(order, exchange)).Some?
      {
      }
    }
  }

  /** A retry that goes through under a new key leaves the trade where a worker takes it up: unsold and up for sale, or
      ready for a new payout once that is authorised. */
  lemma RetriedIsPickedUp(s: Store, ticket: nat, note: string, resolver: string, tick: Tick, ask: Ask)
    requires ResolveAsk(s, ticket, Some(RetryProcessing), note) == Some(ask) && KeyAsked(ask) !in s.keys
    requires !Update(Reopened(s, ask.trade, RetryProcessing, tick.now), ask.trade, ask.to, ask.meta, tick).Refused?
    ensures TakenUp(Resolved(s, ticket, Some(RetryProcessing), note, resolver, tick), ask.trade)
  {
    var id, ground := ask.trade, Reopened(s, ask.trade, RetryProcessing, tick.now);
    RetryAsk(s, ticket, note, ask);
    ResolvedIs(s, ticket, RetryProcessing, note, resolver, tick, ask);
    RetryWritten(s.trades[id], s.tickets[ticket].reason, id, note, tick.now, ask);
    assert ground.keys == s.keys;
    hide Resolved, ResolveAsk, Closed, Update, KeyOf, Written, Waiting, TakenUp, Posted, Past, WithTicket, Note, FitsRow, Allowed, RetryStatus, Commit, NoticeFits;
    UpdateCases(ground, ask.trade, ask.to, ask.meta, tick);
    WhenApplied(ground, ask.trade, ask.to, ask.meta, tick);
    WaitingIsTakenUp(Resolved(s, ticket, Some(RetryProcessing), note, resolver, tick), id);
  }

  lemma RetryAsk(s: Store, ticket: nat, note: string, ask: Ask)
    requires ResolveAsk(s, ticket, Some(RetryProcessing), note) == Some(ask)
    ensures About(s, ticket, ask.trade)
    ensures About(s, ticket, ask.trade) ==> ask == ResolutionAsk(ask.trade, s.trades[ask.trade], s.tickets[ticket].reason, RetryProcessing, note)
  {
    hide RetryStatus, FirstNonBlank, Trim;
  }
}
