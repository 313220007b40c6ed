/** Why a trade comes to a status: for every status the steps that bring a trade there and what they have found, whoever
    takes them. */
module Causes {
  import opened Wrappers
  import opened Text
  import opened Lifecycle
  import opened Store
  import opened Steps
  import opened Asks
  import opened Sightings
  import DepositPolicy

  // ------------------------------------------------------------------ what steps have found

  /** The watcher looks at a trade that waits in time, or whose deposit is received. */
  predicate Watches(s: Store, step: Step, id: string, t: Trade) {
    && step.Watch? && step.trade == id && t.address != "" && Answered(s, step.seen, step.holder)
    && (t.status == DepositReceived || (t.status == PendingDeposit && step.tick.now <= t.expiresAt))
  }

  /** The backfill scanner looks at a trade anywhere between its creation and its payout. */
  predicate Scans(s: Store, step: Step, id: string, t: Trade) {
    && step.Backfill? && step.trade == id && Trim(t.address) != "" && Answered(s, step.seen, step.holder)
    && t.status in {PendingDeposit, DepositReceived, DepositConfirmed, ConversionInProgress, ConversionCompleted, PayoutPending}
  }

  /** Either of them finds nothing wrong with the deposit. */
  predicate FindsDeposit(cfg: Config, s: Store, step: Step, id: string, t: Trade) {
    || (Watches(s, step, id, t) && Faultless(cfg, id, t, step.seen, step.holder, true))
    || (Scans(s, step, id, t) && Faultless(cfg, id, t, step.seen, step.holder, false))
  }

  /** Or something. */
  predicate FindsFault(cfg: Config, s: Store, step: Step, id: string, t: Trade) {
    || (Watches(s, step, id, t) && !Faultless(cfg, id, t, step.seen, step.holder, true))
    || (Scans(s, step, id, t) && !Faultless(cfg, id, t, step.seen, step.holder, false))
  }

  function Policy(cfg: Config, t: Trade): DepositPolicy.Policy {
    cfg.policy(t.from, cfg.place(t.from, t.address).0)
  }

  /** Confirmations the watcher waits for: the policy's, or the event machine's own when it asks for none. */
  function Awaited(cfg: Config, t: Trade): int {
    if Policy(cfg, t).finality > 0 then Policy(cfg, t).finality
    else match t.from
      case BTC => 2
      case ETH => 12
      case USDC => 12
      case _ => 1
  }

  /** The exchange's answer to an attempt to sell a confirmed deposit. */
  predicate Sells(step: Step, id: string, t: Trade) {
    step.Sell? && step.trade == id && t.status == DepositConfirmed
  }

  /** The exchange's report on an order it has filled for the trade. */
  predicate OrderKnown(w: World, id: string, order: string) {
    Sale(id, Trim(order)) in w.sales
  }

  /** The payout provider's answer for a trade ready to be paid out. */
  predicate Pays(step: Step, id: string, t: Trade) {
    step.StartPayout? && step.trade == id && t.status == ConversionCompleted && t.authorized && t.payoutId.None?
  }

  /** What the payout provider says of a payout: asked about a pending one, or in a webhook not seen before that names it. */
  predicate Hears(w: World, step: Step, id: string, t: Trade, news: PayoutNews) {
    || (step.PollPayout? && step.trade == id && step.news == news && t.status == PayoutPending
        && t.payoutId.Some? && Trim(t.payoutId.value) != "")
    || (Informs(w, step, id, t) && step.news == news)
  }

  /** A webhook not seen before that names the trade's payout, of those that carry it the trade touched last. */
  predicate Informs(w: World, step: Step, id: string, t: Trade) {
    && step.Webhook? && step.event !in w.events && step.payout != "" && step.target == Some(id) && t.payoutId == Some(step.payout)
    && forall other <- w.db.trades :: w.db.trades[other].payoutId == Some(step.payout) ==> w.db.trades[other].updatedAt <= t.updatedAt
  }

  /** An admin resolves an open ticket of the trade. */
  predicate Settles(s: Store, step: Step, id: string, mode: Mode) {
    && step.Resolve? && step.mode == Some(mode) && step.ticket < |s.tickets|
    && s.tickets[step.ticket].trade == id && s.tickets[step.ticket].resolution.None?
  }

  /** Nothing of a sale or a payout is recorded. */
  predicate Unsold(t: Trade) {
    t.orderId.None? && t.toActual.None? && t.payoutId.None? && t.conversionId.None?
  }

  // ------------------------------------------------------------------ causes

  /** A step's cause for a trade to come to a status. */
  predicate Cause(cfg: Config, w: World, step: Step, id: string, t: Trade, to: Status) {
    match to
    case DepositReceived =>
      t.status == PendingDeposit && FindsDeposit(cfg, w.db, step, id, t) && step.seen.confirmations >= Policy(cfg, t).detection
    case DepositConfirmed =>
      || (t.status == DepositReceived && FindsDeposit(cfg, w.db, step, id, t)
          && (if step.Watch? then step.seen.confirmations >= Policy(cfg, t).detection && step.seen.confirmations >= Awaited(cfg, t)
              else step.seen.confirmations >= Policy(cfg, t).finality))
      || (Settles(w.db, step, id, RetryProcessing) && Unsold(t))
    case Cancelled =>
      step.Watch? && step.trade == id && t.status == PendingDeposit && step.tick.now > t.expiresAt
    case ConversionInProgress =>
      Sells(step, id, t) && step.answer.Sold?
    case ConversionCompleted =>
      || (step.FinishSale? && step.trade == id && OrderKnown(w, id, step.order))
      || (Settles(w.db, step, id, RetryProcessing) && !Unsold(t))
    case PayoutPending =>
      || (Pays(step, id, t) && step.payoutAnswer.Initiated?)
      || (Informs(w, step, id, t) && step.news == StillPending && t.status != PayoutPending)
    case PayoutCompleted =>
      Hears(w, step, id, t, PaidOut) || Settles(w.db, step, id, ForceComplete)
    case PayoutFailed =>
      Hears(w, step, id, t, Bounced) || (Pays(step, id, t) && step.payoutAnswer.Rejected?)
    case DisputeClosed =>
      Settles(w.db, step, id, CloseNoPayout)
    case Dispute =>
      || FindsFault(cfg, w.db, step, id, t)
      || (t.status !in {PendingDeposit, DepositReceived} && step.Backfill? && FindsDeposit(cfg, w.db, step, id, t)
          && step.seen.confirmations < Policy(cfg, t).finality)
      || (Sells(step, id, t) && (step.answer.Hopeless? || (step.answer.TryAgain? && Attempts(w, id) + 1 >= 6)))
      || (step.FailSale? && step.trade == id && OrderKnown(w, id, step.order))
      || (step.RecoverSale? && step.trade == id && t.status == ConversionInProgress && step.tick.now >= t.updatedAt + 600)
      || (step.RaiseDispute? && step.trade == id)
    case _ => false
  }

  /** The step asks for this change of the trade. */
  predicate Wants(cfg: Config, w: World, step: Step, id: string, to: Status) {
    match Wanted(cfg, w, step)
    case None => false
    case Some(ask) => ask.trade == id && ask.to == to
  }

  predicate AsksFor(ask: Option<Ask>, id: string, to: Status) {
    ask.Some? && ask.value.trade == id && ask.value.to == to
  }

  // ------------------------------------------------------------------ worker by worker

  lemma DisputesTrade(prefix: string, trade: string, hash: string)
    ensures forall reason :: DepositDispute(prefix, trade, hash, reason).trade == trade && DepositDispute(prefix, trade, hash, reason).to == Dispute
  {
    hide Folded, Filed, Trim;
  }

  lemma WatchCauses(cfg: Config, w: World, step: Step, id: string, t: Trade, to: Status)
    requires RowIs(w.db, id, t) && step.Watch?
    ensures AsksFor(WatchAsk(cfg, w.db, step.trade, step.seen, step.holder, step.tick.now), id, to) <==> Cause(cfg, w, step, id, t, to)
  {
    hide FaultOf, Faultless, Fire, LookedUp, Answered, Trim, WatcherReason, DepositNote, ExpiryNote, DepositDispute, PolicyFor;
    AnsweredIff(cfg, w.db, t, step.seen, step.holder);
    FaultlessIff(cfg, id, t, step.seen, step.holder, true);
    var v, u := View(t, step.tick.now, 0, 0), View(t, step.tick.now, PolicyFor(cfg, t).finality, step.seen.confirmations);
    WatcherEvents(v);
    WatcherEvents(u);
    DisputesTrade("deposit_dispute:", step.trade, step.seen.txHash);
  }

  lemma AnsweredIff(cfg: Config, s: Store, t: Trade, seen: Sighting, holder: Option<string>)
    ensures Answered(s, seen, holder) <==> seen.found && LookedUp(s, seen, holder)
    ensures PolicyFor(cfg, t) == Policy(cfg, t)
  {
    hide AnswersHash, Trim;
  }

  // What the scanner's look at a trade comes to.
  predicate ScanCause(cfg: Config, s: Store, step: Step, id: string, t: Trade, to: Status) {
    step.Backfill? && Scans(s, step, id, t) &&
    if !Faultless(cfg, id, t, step.seen, step.holder, false) then to == Dispute
    else if t.status == PendingDeposit then to == DepositReceived && step.seen.confirmations >= Policy(cfg, t).detection
    else if t.status == DepositReceived then to == DepositConfirmed && step.seen.confirmations >= Policy(cfg, t).finality
    else to == Dispute && step.seen.confirmations < Policy(cfg, t).finality
  }

  lemma ScansIff(s: Store, step: Step, id: string, t: Trade)
    requires step.Backfill?
    ensures Scans(s, step, id, t) <==>
              step.trade == id && t.status in BACKFILLED && Trim(t.address) != "" && step.seen.found && LookedUp(s, step.seen, step.holder)
  {
    hide AnswersHash, Trim;
  }

  lemma ScanAsks(cfg: Config, s: Store, step: Step, id: string, t: Trade, to: Status)
    requires RowIs(s, id, t) && step.Backfill?
    ensures AsksFor(BackfillAsk(cfg, s, step.trade, step.seen, step.holder), id, to) <==> ScanCause(cfg, s, step, id, t, to)
  {
    hide FaultOf, Faultless, LookedUp, Scans, Trim, BackfillReason, Filed, Folded, Policy, PolicyFor, BACKFILLED;
    AnsweredIff(cfg, s, t, step.seen, step.holder);
    ScansIff(s, step, id, t);
    FaultlessIff(cfg, id, t, step.seen, step.holder, false);
  }

  lemma BackfillCauses(cfg: Config, w: World, step: Step, id: string, t: Trade, to: Status)
    requires RowIs(w.db, id, t) && step.Backfill?
    ensures AsksFor(BackfillAsk(cfg, w.db, step.trade, step.seen, step.holder), id, to) <==> Cause(cfg, w, step, id, t, to)
  {
    hide BackfillAsk, Faultless, Answered, Trim;
    ScanAsks(cfg, w.db, step, id, t, to);
  }

  lemma SellCauses(cfg: Config, w: World, step: Step, id: string, t: Trade, to: Status)
    requires RowIs(w.db, id, t) && step.Sell?
    ensures AsksFor(SellAsk(w, step.trade, step.answer), id, to) <==> Cause(cfg, w, step, id, t, to)
  {
    SellAskWhen(w, step.trade, step.answer);
    hide SellAsk, Attempts;
  }

  lemma EndCauses(cfg: Config, w: World, step: Step, id: string, t: Trade, to: Status)
    requires RowIs(w.db, id, t)
    ensures step.FinishSale? ==> (AsksFor(EndSaleAsk(w, step.trade, step.order, step.note, ConversionCompleted, "conversion_completed:"), id, to)
                                  <==> Cause(cfg, w, step, id, t, to))
    ensures step.FailSale? ==> (AsksFor(EndSaleAsk(w, step.trade, step.order, step.note, Dispute, "conversion_failed_dispute:"), id, to)
                                <==> Cause(cfg, w, step, id, t, to))
  {
    hide Trim, Folded, Filed;
  }

  lemma RecoverCauses(cfg: Config, w: World, step: Step, id: string, t: Trade, to: Status)
    requires RowIs(w.db, id, t) && step.RecoverSale?
    ensures AsksFor(RecoverAsk(w.db, step.trade, step.tick.now), id, to) <==> Cause(cfg, w, step, id, t, to)
  {
    hide RecoverAsk;
    RecoverTo(w.db, step.trade, step.tick.now);
  }

  lemma RecoverTo(s: Store, trade: string, now: int)
    ensures RecoverAsk(s, trade, now).Some? <==> InStatus(s, trade, ConversionInProgress) && now >= s.trades[trade].updatedAt + 600
    ensures forall ask :: RecoverAsk(s, trade, now) == Some(ask) ==> ask.trade == trade && ask.to == Dispute
  {
    hide Lower, Filed, Given;
  }

  lemma StartCauses(cfg: Config, w: World, step: Step, id: string, t: Trade, to: Status)
    requires RowIs(w.db, id, t) && step.StartPayout?
    ensures AsksFor(StartPayoutAsk(w.db, step.trade, step.payoutAnswer), id, to) <==> Cause(cfg, w, step, id, t, to)
  {
    hide Trim, Folded, Filed;
  }

  lemma PollCauses(cfg: Config, w: World, step: Step, id: string, t: Trade, to: Status)
    requires RowIs(w.db, id, t) && step.PollPayout?
    ensures AsksFor(PollPayoutAsk(w.db, step.trade, step.news, step.status), id, to) <==> Cause(cfg, w, step, id, t, to)
  {
    hide Trim, Folded, Filed;
  }

  lemma WebhookCauses(cfg: Config, w: World, step: Step, id: string, t: Trade, to: Status)
    requires RowIs(w.db, id, t) && step.Webhook?
    ensures AsksFor(WebhookAsk(w, step.event, step.payout, step.target, step.news, step.note), id, to) <==> Cause(cfg, w, step, id, t, to)
  {
    hide Trim, Folded, Filed;
  }

  lemma ResolutionCauses(cfg: Config, w: World, step: Step, id: string, t: Trade, to: Status)
    requires RowIs(w.db, id, t) && step.Resolve?
    ensures AsksFor(ResolveAsk(w.db, step.ticket, step.mode, step.note), id, to) <==> Cause(cfg, w, step, id, t, to)
  {
    hide ResolutionAsk;
    if MayResolve(w.db, step.ticket, step.mode) {
      var k := w.db.tickets[step.ticket];
      ResolutionTo(k.trade, w.db.trades[k.trade], k.reason, step.mode.value, step.note);
    }
  }

  /** Where each way of resolving a dispute leads. */
  lemma ResolutionTo(trade: string, t: Trade, reason: string, mode: Mode, note: string)
    ensures var ask := ResolutionAsk(trade, t, reason, mode, note);
            ask.trade == trade && ask.to == match mode
                                            case RetryProcessing => if Unsold(t) then DepositConfirmed else ConversionCompleted
                                            case CloseNoPayout => DisputeClosed
                                            case ForceComplete => PayoutCompleted
  {
    hide Trim, FirstNonBlank, ForcedRef;
  }

  /** A step asks for a trade's change to a status if and only if it has a cause for it. */
  lemma WantsIffCaused(cfg: Config, w: World, step: Step, id: string, t: Trade, to: Status)
    requires RowIs(w.db, id, t)
    ensures Wants(cfg, w, step, id, to) <==> Cause(cfg, w, step, id, t, to)
  {
    WantsAsked(cfg, w, step, id, to);
    hide *;
    match step
    case Watch(trade, seen, holder, tick) => WatchCauses(cfg, w, step, id, t, to);
    case Backfill(trade, seen, holder, tick) => BackfillCauses(cfg, w, step, id, t, to);
    case Sell(trade, answer, tick) => SellCauses(cfg, w, step, id, t, to);
    case FinishSale(trade, order, note, tick) => EndCauses(cfg, w, step, id, t, to);
    case FailSale(trade, order, note, tick) => EndCauses(cfg, w, step, id, t, to);
    case RecoverSale(trade, tick) => RecoverCauses(cfg, w, step, id, t, to);
    case StartPayout(trade, answer, tick) => StartCauses(cfg, w, step, id, t, to);
    case PollPayout(trade, news, status, tick) => PollCauses(cfg, w, step, id, t, to);
    case Webhook(event, payout, target, news, note, tick) => WebhookCauses(cfg, w, step, id, t, to);
    case Resolve(ticket, mode, note, resolver, tick) => ResolutionCauses(cfg, w, step, id, t, to);
    case RaiseDispute(trade, note, tick) => OtherCauses(cfg, w, step, id, t, to);
    case Offer(quote, user, asset, amount, price, tick) => OtherCauses(cfg, w, step, id, t, to);
    case Lapse(quote, tick) => OtherCauses(cfg, w, step, id, t, to);
    case Accept(trade, user, quote, bank, cleared, address, authorized, tick) => OtherCauses(cfg, w, step, id, t, to);
  }

  lemma OtherCauses(cfg: Config, w: World, step: Step, id: string, t: Trade, to: Status)
    requires RowIs(w.db, id, t) && (step.RaiseDispute? || step.Offer? || step.Lapse? || step.Accept?)
    ensures AsksFor(AskOf(cfg, w, step), id, to) <==> Cause(cfg, w, step, id, t, to)
  {
    hide Trim;
  }

  lemma WantsAsked(cfg: Config, w: World, step: Step, id: string, to: Status)
    ensures step.Resolve? ==> (Wants(cfg, w, step, id, to) <==> AsksFor(ResolveAsk(w.db, step.ticket, step.mode, step.note), id, to))
    ensures !step.Resolve? ==> (Wants(cfg, w, step, id, to) <==> AsksFor(AskOf(cfg, w, step), id, to))
    ensures step.Watch? ==> AskOf(cfg, w, step) == WatchAsk(cfg, w.db, step.trade, step.seen, step.holder, step.tick.now)
    ensures step.Backfill? ==> AskOf(cfg, w, step) == BackfillAsk(cfg, w.db, step.trade, step.seen, step.holder)
    ensures step.Sell? ==> AskOf(cfg, w, step) == SellAsk(w, step.trade, step.answer)
    ensures step.FinishSale? ==>
              AskOf(cfg, w, step) == EndSaleAsk(w, step.trade, step.order, step.note, ConversionCompleted, "conversion_completed:")
    ensures step.FailSale? ==> AskOf(cfg, w, step) == EndSaleAsk(w, step.trade, step.order, step.note, Dispute, "conversion_failed_dispute:")
    ensures step.RecoverSale? ==> AskOf(cfg, w, step) == RecoverAsk(w.db, step.trade, step.tick.now)
    ensures step.StartPayout? ==> AskOf(cfg, w, step) == StartPayoutAsk(w.db, step.trade, step.payoutAnswer)
    ensures step.PollPayout? ==> AskOf(cfg, w, step) == PollPayoutAsk(w.db, step.trade, step.news, step.status)
    ensures step.Webhook? ==> AskOf(cfg, w, step) == WebhookAsk(w, step.event, step.payout, step.target, step.news, step.note)
  {
    hide WatchAsk, BackfillAsk, SellAsk, EndSaleAsk, RecoverAsk, StartPayoutAsk, PollPayoutAsk, WebhookAsk, RaiseAsk, ResolveAsk;
  }
}
