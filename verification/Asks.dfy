/** What the status changes requested by workers, webhooks and users have in common. */
module Asks {
  import opened Wrappers
  import opened Text
  import opened Lifecycle
  import opened Ledger
  import opened Store
  import opened Steps
  import Decimal

  /** Metadata that overrides no amount and clears nothing. */
  predicate Plain(m: Metadata) {
    && m.toAmountActual.None? && m.payoutAmount.None? && m.fxSpread == 0 && m.expressFee == 0
    && m.conversionId.None? && !m.clearReason
  }

  /** A request in a state: only deposits are confirmed from DEPOSIT_RECEIVED, only sales carry an order, only
      deposit disputes skip the ledger. */
  predicate Proper(s: Store, ask: Ask) {
    && (ask.to == DepositConfirmed ==> ask.trade in s.trades && s.trades[ask.trade].status == DepositReceived)
    && (ask.meta.orderId.Some? ==> ask.to in {ConversionInProgress, ConversionCompleted, Dispute})
    && Plain(ask.meta)
    && (ask.meta.skipLedger ==> ask.to == Dispute)
    && (ask.meta.payoutRef.Some? ==> ask.to in {PayoutPending, PayoutCompleted, PayoutFailed})
  }

  lemma DisputeIsProper(s: Store, prefix: string, trade: string, hash: string, reason: string)
    ensures Proper(s, DepositDispute(prefix, trade, hash, reason))
    ensures DepositDispute(prefix, trade, hash, reason).to == Dispute && DepositDispute(prefix, trade, hash, reason).trade == trade
    ensures DepositDispute(prefix, trade, hash, reason).meta.key.Some?
  {
    hide Folded, Trim;
  }

  lemma DepositNotesArePlain(prefix: string, trade: string, hash: string)
    ensures Plain(DepositNote(prefix, trade, hash)) && Plain(ExpiryNote(trade))
    ensures DepositNote(prefix, trade, hash).orderId.None? && ExpiryNote(trade).orderId.None?
    ensures !DepositNote(prefix, trade, hash).skipLedger && !ExpiryNote(trade).skipLedger
    ensures DepositNote(prefix, trade, hash).payoutRef.None? && ExpiryNote(trade).payoutRef.None?
    ensures DepositNote(prefix, trade, hash).key.Some? && ExpiryNote(trade).key.Some?
  {
    hide Folded;
  }

  // What the event machine turns the watcher's events into.
  lemma FiredAsks(trade: string, t: Trade, v: GuardView, m: Metadata)
    ensures t.status == PendingDeposit ==> Fired(trade, t, TradeCancelled, v, m) == Some(Ask(trade, Cancelled, m))
    ensures t.status == PendingDeposit && Fired(trade, t, DepositDetected, v, m).Some? ==>
              Fired(trade, t, DepositDetected, v, m) == Some(Ask(trade, DepositReceived, m))
    ensures t.status == DepositReceived && Fired(trade, t, DepositFinal, v, m).Some? ==>
              Fired(trade, t, DepositFinal, v, m) == Some(Ask(trade, DepositConfirmed, m))
              && v.confirmations >= if v.required <= 0 then v.fallback else v.required
  {
    WatcherEvents(v);
    hide Fire;
  }

  /** A deposit seen with nothing wrong with it. */
  predicate Clean(cfg: Config, s: Store, trade: string, seen: Sighting, holder: Option<string>, screens: bool) {
    trade in s.trades && LookedUp(s, seen, holder) && seen.found && FaultOf(cfg, trade, s.trades[trade], seen, holder, screens).None?
  }

  /** Confirmations the watcher insists on. */
  function Insisted(cfg: Config, t: Trade): int {
    if PolicyFor(cfg, t).finality <= 0 then FallbackConfirmations(t.from) else PolicyFor(cfg, t).finality
  }

  /** What the watcher asks for: a dispute, the expiry of a waiting trade, or the next deposit status. */
  ghost predicate WatchCase(cfg: Config, s: Store, trade: string, seen: Sighting, holder: Option<string>, now: int, ask: Ask) {
    trade in s.trades && var t := s.trades[trade];
    || (t.status == PendingDeposit && now > t.expiresAt && ask == Ask(trade, Cancelled, ExpiryNote(trade)))
    || (exists reason :: ask == DepositDispute("deposit_dispute:", trade, seen.txHash, reason))
    || (t.status == PendingDeposit && now <= t.expiresAt && Clean(cfg, s, trade, seen, holder, true)
        && seen.confirmations >= PolicyFor(cfg, t).detection
        && ask == Ask(trade, DepositReceived, DepositNote("deposit_detected:", trade, seen.txHash)))
    || (t.status == DepositReceived && Clean(cfg, s, trade, seen, holder, true) && seen.confirmations >= Insisted(cfg, t)
        && ask == Ask(trade, DepositConfirmed, DepositNote("deposit_confirmed:", trade, seen.txHash)))
  }

  /** The watcher asks for nothing else. */
  lemma WatchCases(cfg: Config, s: Store, trade: string, seen: Sighting, holder: Option<string>, now: int, ask: Ask)
    requires WatchAsk(cfg, s, trade, seen, holder, now) == Some(ask)
    ensures WatchCase(cfg, s, trade, seen, holder, now, ask)
  {
    var t := s.trades[trade];
    hide LookedUp, FaultOf, PolicyFor, Fired, DepositDispute, WatcherReason, DepositNote, ExpiryNote, FallbackConfirmations;
    var u := View(t, now, PolicyFor(cfg, t).finality, seen.confirmations);
    FiredAsks(trade, t, View(t, now, 0, 0), ExpiryNote(trade));
    FiredAsks(trade, t, u, DepositNote("deposit_detected:", trade, seen.txHash));
    FiredAsks(trade, t, u, DepositNote("deposit_confirmed:", trade, seen.txHash));
  }

  // A deposit's own metadata makes a proper request.
  lemma NoteIsProper(s: Store, trade: string, to: Status, m: Metadata)
    requires trade in s.trades
    requires to == DepositConfirmed ==> s.trades[trade].status == DepositReceived
    requires Plain(m) && m.orderId.None? && !m.skipLedger && m.payoutRef.None?
    ensures Proper(s, Ask(trade, to, m))
  {
    hide Plain;
  }

  lemma WatchIsProper(cfg: Config, s: Store, trade: string, seen: Sighting, holder: Option<string>, now: int, ask: Ask)
    requires WatchCase(cfg, s, trade, seen, holder, now, ask)
    ensures Proper(s, ask) && ask.trade == trade && trade in s.trades && ask.to in {Cancelled, DepositReceived, DepositConfirmed, Dispute} && ask.meta.key.Some?
  {
    hide Clean, Insisted, DepositDispute, DepositNote, ExpiryNote, Proper, Plain;
    if reason :| ask == DepositDispute("deposit_dispute:", trade, seen.txHash, reason) {
      DisputeIsProper(s, "deposit_dispute:", trade, seen.txHash, reason);
    }
    DepositNotesArePlain("deposit_detected:", trade, seen.txHash);
    DepositNotesArePlain("deposit_confirmed:", trade, seen.txHash);
    if ask.to != Dispute {
      NoteIsProper(s, trade, ask.to, ask.meta);
    }
  }

  /** What the backfill scanner asks for: a dispute, or the next deposit status. */
  ghost predicate BackfillCase(cfg: Config, s: Store, trade: string, seen: Sighting, holder: Option<string>, ask: Ask) {
    trade in s.trades && var t := s.trades[trade];
    || (exists reason :: ask == DepositDispute("backfill_dispute:", trade, seen.txHash, reason))
    || (t.status == PendingDeposit && Clean(cfg, s, trade, seen, holder, false)
        && seen.confirmations >= PolicyFor(cfg, t).detection
        && ask == Ask(trade, DepositReceived,
                      BackfillNote("backfill_deposit_detected:", trade, seen.txHash, "backfill detected deposit")))
    || (t.status == DepositReceived && Clean(cfg, s, trade, seen, holder, false) && seen.confirmations >= PolicyFor(cfg, t).finality
        && ask == Ask(trade, DepositConfirmed,
                      BackfillNote("backfill_deposit_confirmed:", trade, seen.txHash, "backfill confirmed deposit")))
  }

  /** The scanner asks for nothing else. */
  lemma BackfillCases(cfg: Config, s: Store, trade: string, seen: Sighting, holder: Option<string>, ask: Ask)
    requires BackfillAsk(cfg, s, trade, seen, holder) == Some(ask)
    ensures BackfillCase(cfg, s, trade, seen, holder, ask)
  {
    hide LookedUp, FaultOf, PolicyFor, DepositDispute, BackfillReason, Filed, Folded, Trim;
  }

  lemma BackfillNotesArePlain(prefix: string, trade: string, hash: string, reason: string)
    ensures var m := BackfillNote(prefix, trade, hash, reason); Plain(m) && m.orderId.None? && !m.skipLedger && m.payoutRef.None? && m.key.Some?
  {
    hide Folded, Trim;
  }

  lemma BackfillIsProper(cfg: Config, s: Store, trade: string, seen: Sighting, holder: Option<string>, ask: Ask)
    requires BackfillCase(cfg, s, trade, seen, holder, ask)
    ensures Proper(s, ask) && ask.trade == trade && trade in s.trades && ask.to in {DepositReceived, DepositConfirmed, Dispute} && ask.meta.key.Some?
  {
    hide Clean, DepositDispute, BackfillNote, Proper, Plain;
    if reason :| ask == DepositDispute("backfill_dispute:", trade, seen.txHash, reason) {
      DisputeIsProper(s, "backfill_dispute:", trade, seen.txHash, reason);
    }
    BackfillNotesArePlain("backfill_deposit_detected:", trade, seen.txHash, "backfill detected deposit");
    BackfillNotesArePlain("backfill_deposit_confirmed:", trade, seen.txHash, "backfill confirmed deposit");
    if ask.to != Dispute {
      NoteIsProper(s, trade, ask.to, ask.meta);
    }
  }

  // ------------------------------------------------------------------ all requests

  const PAYING := {PayoutPending, PayoutFailed, PayoutCompleted}

  /** Who asks for what: only the watcher cancels, only it and the scanner receive and confirm deposits or name their
      transactions, only an accepted order starts a sale and only a started sale is completed, and only the payout worker
      and the provider's webhooks touch payouts. */
  predicate ByItsWorker(step: Step, ask: Ask) {
    && ask.to != PendingDeposit
    && (ask.to == Cancelled ==> step.Watch?)
    && (ask.to == DepositReceived || ask.to == DepositConfirmed || ask.meta.txHash.Some? ==> step.Watch? || step.Backfill?)
    && (ask.to == ConversionInProgress ==> step.Sell? && step.answer.Sold?)
    && (ask.to == ConversionCompleted ==> step.FinishSale?)
    && (ask.to in PAYING ==> step.StartPayout? || step.PollPayout? || step.Webhook?)
    && (ask.meta.key.None? ==> step.RaiseDispute?)
  }

  lemma SellIsProper(w: World, trade: string, answer: SaleAnswer, tick: Tick, ask: Ask)
    requires SellAsk(w, trade, answer) == Some(ask)
    ensures Proper(w.db, ask) && ByItsWorker(Sell(trade, answer, tick), ask)
  {
    hide Folded, Trim, STARTED, Decimal.Spell;
  }

  lemma SaleEndIsProper(w: World, trade: string, order: string, note: string, tick: Tick, ask: Ask)
    ensures EndSaleAsk(w, trade, order, note, ConversionCompleted, "conversion_completed:") == Some(ask) ==>
              Proper(w.db, ask) && ByItsWorker(FinishSale(trade, order, note, tick), ask)
    ensures EndSaleAsk(w, trade, order, note, Dispute, "conversion_failed_dispute:") == Some(ask) ==>
              Proper(w.db, ask) && ByItsWorker(FailSale(trade, order, note, tick), ask)
  {
    hide Folded, Trim;
  }

  lemma RecoverIsProper(s: Store, trade: string, tick: Tick, ask: Ask)
    requires RecoverAsk(s, trade, tick.now) == Some(ask)
    ensures Proper(s, ask) && ByItsWorker(RecoverSale(trade, tick), ask)
  {
    hide Lower, Given;
  }

  /** A request about a payout that names its key and no transaction. */
  predicate PaysOut(s: Store, ask: Ask) {
    Proper(s, ask) && ask.to in PAYING && ask.meta.txHash.None? && ask.meta.key.Some?
  }

  // The three payout requests, whoever makes them.
  lemma PayoutIsProper(s: Store, trade: string, ref: string, reason: string)
    ensures PaysOut(s, PayoutPendingAsk(trade, ref)) && PaysOut(s, PayoutCompleteAsk(trade, ref)) && PaysOut(s, PayoutFailedAsk(trade, ref, reason))
  {
    hide Folded;
  }

  lemma StartPayoutIsProper(s: Store, trade: string, answer: PayoutAnswer, ask: Ask)
    requires StartPayoutAsk(s, trade, answer) == Some(ask)
    ensures PaysOut(s, ask)
  {
    hide PayoutPendingAsk, Trim;
    if answer.Initiated? {
      PayoutIsProper(s, trade, answer.ref, "");
    }
  }

  lemma PollIsProper(s: Store, trade: string, news: PayoutNews, status: string, ask: Ask)
    requires PollPayoutAsk(s, trade, news, status) == Some(ask)
    ensures PaysOut(s, ask)
  {
    hide PayoutCompleteAsk, PayoutFailedAsk, Given, PaysOut;
    PayoutIsProper(s, trade, Given(s.trades[trade].payoutId).value, "graph payout failed with status " + status);
  }

  lemma WebhookIsProper(w: World, event: string, payout: string, target: Option<string>, news: PayoutNews, note: string, ask: Ask)
    requires WebhookAsk(w, event, payout, target, news, note) == Some(ask)
    ensures PaysOut(w.db, ask)
  {
    hide PayoutCompleteAsk, PayoutFailedAsk, PayoutPendingAsk, AnswersPayout, PaysOut;
    PayoutIsProper(w.db, target.value, payout, note);
  }

  lemma RaiseIsProper(s: Store, trade: string, note: string, tick: Tick, ask: Ask)
    requires RaiseAsk(s, trade, note) == Some(ask)
    ensures Proper(s, ask) && ByItsWorker(RaiseDispute(trade, note, tick), ask)
  {
  }

  /** Every request made outside an admin's resolution is proper, and made by the worker it belongs to. */
  lemma AskIsProper(cfg: Config, w: World, step: Step, ask: Ask)
    requires AskOf(cfg, w, step) == Some(ask)
    ensures Proper(w.db, ask) && ByItsWorker(step, ask)
  {
    hide Proper, Plain, WatchAsk, BackfillAsk, SellAsk, EndSaleAsk, RecoverAsk, StartPayoutAsk, PollPayoutAsk, WebhookAsk, RaiseAsk, WatchCase, BackfillCase;
    match step
    case Watch(trade, seen, holder, tick) =>
      WatchCases(cfg, w.db, trade, seen, holder, tick.now, ask);
      WatchIsProper(cfg, w.db, trade, seen, holder, tick.now, ask);
    case Backfill(trade, seen, holder, tick) =>
      BackfillCases(cfg, w.db, trade, seen, holder, ask);
      BackfillIsProper(cfg, w.db, trade, seen, holder, ask);
    case Sell(trade, answer, tick) => SellIsProper(w, trade, answer, tick, ask);
    case FinishSale(trade, order, note, tick) => SaleEndIsProper(w, trade, order, note, tick, ask);
    case FailSale(trade, order, note, tick) => SaleEndIsProper(w, trade, order, note, tick, ask);
    case RecoverSale(trade, tick) => RecoverIsProper(w.db, trade, tick, ask);
    case StartPayout(trade, answer, tick) => StartPayoutIsProper(w.db, trade, answer, ask);
    case PollPayout(trade, news, status, tick) => PollIsProper(w.db, trade, news, status, ask);
    case Webhook(event, payout, target, news, note, tick) => WebhookIsProper(w, event, payout, target, news, note, ask);
    case RaiseDispute(trade, note, tick) => RaiseIsProper(w.db, trade, note, tick, ask);
    case _ =>
  }

  /** Only the conversion worker's accepted order asks for CONVERSION_IN_PROGRESS. */
  lemma OnlySalesStart(cfg: Config, w: World, step: Step, ask: Ask)
    requires AskOf(cfg, w, step) == Some(ask) && ask.to == ConversionInProgress
    ensures Starts(w, step, ask)
  {
    hide SellAsk, Proper;
    AskIsProper(cfg, w, step, ask);
    SellAskWhen(w, step.trade, step.answer);
  }

  /** An accepted order for a trade that is up for sale. */
  predicate Starts(w: World, step: Step, ask: Ask) {
    step.Sell? && step.answer.Sold? && ask.trade == step.trade && ForSale(w.db, step.trade) && SellAsk(w, step.trade, step.answer) == Some(ask)
  }

  // When the conversion worker asks for a status change, and for which.
  lemma SellAskWhen(w: World, trade: string, answer: SaleAnswer)
    ensures SellAsk(w, trade, answer).Some? <==> ForSale(w.db, trade) && (answer.TryAgain? ==> Attempts(w, trade) + 1 >= MAX_ATTEMPTS)
    ensures forall ask :: SellAsk(w, trade, answer) == Some(ask) ==> ask.trade == trade && ask.to == if answer.Sold? then ConversionInProgress else Dispute
  {
    hide Filed, Folded, Trim;
  }

  // An admin's retry goes back before the sale only when no order is recorded.
  lemma ResolutionSparesSales(trade: string, t: Trade, disputed: string, mode: Mode, note: string)
    ensures var ask := ResolutionAsk(trade, t, disputed, mode, note);
            (ask.to == DepositConfirmed ==> t.orderId.None?) && ask.meta.orderId.None? && ask.trade == trade
            && ask.to in {DepositConfirmed, ConversionCompleted, DisputeClosed, PayoutCompleted}
  {
    hide FirstNonBlank, Trim, ForcedRef;
  }
}
