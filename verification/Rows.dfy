/** What a change writes on a trade's row: the references it was given, the times, the amount an admin forces, and nothing
    else. */
module Rows {
  import opened Wrappers
  import opened Text
  import opened Lifecycle
  import opened Ledger
  import opened Store
  import opened Steps
  import opened Asks
  import opened Growth
  import opened ExactlyOnce
  import opened Changes
  import opened Causes
  import Decimal

  /** A text that was given, unless it is blank. */
  function Opt(x: string): Option<string> {
    if x == "" then None else Some(x)
  }

  /** The transaction a step names. */
  function HashOf(step: Step, to: Status): string {
    if (step.Watch? || step.Backfill?) && to != Cancelled then Trim(step.seen.txHash) else ""
  }

  /** The order it names. */
  function OrderOf(step: Step, t: Trade): string {
    match step
    case Sell(_, answer, _) => if answer.Sold? then Trim(answer.order) else ""
    case FinishSale(_, order, _, _) => Trim(order)
    case FailSale(_, order, _, _) => Trim(order)
    case RecoverSale(_, _) => Trim(TextOf(t.orderId))
    case _ => ""
  }

  /** The payout reference it names; an admin who forces a completion makes one up when there is none. */
  function RefOf(step: Step, id: string, t: Trade): string {
    match step
    case StartPayout(_, answer, _) => if answer.Initiated? then Trim(answer.ref) else ""
    case PollPayout(_, _, _, _) => Trim(TextOf(t.payoutId))
    case Webhook(_, payout, _, _, _, _) => Trim(payout)
    case Resolve(_, mode, _, _, _) =>
      if mode != Some(ForceComplete) then ""
      else if Trim(TextOf(t.payoutId)) != "" then Trim(TextOf(t.payoutId))
      else Trim("ADMIN-FORCED-" + Upper(if |id| >= 8 then id[..8] else id))
    case _ => ""
  }

  /** The words of a person or a provider that go with a dispute, a bounced payout or a closing. */
  function WordsOf(step: Step): string {
    match step
    case RaiseDispute(_, note, _) => Trim(note)
    case FailSale(_, _, note, _) => Trim(note)
    case Webhook(_, _, _, news, note, _) => if news == Bounced then Trim(note) else ""
    case Resolve(_, mode, note, _, _) => if mode == Some(CloseNoPayout) then Trim(note) else ""
    case _ => ""
  }

  /** An admin's call that takes the trade out of dispute to go on. */
  predicate Resumes(step: Step) {
    step.Resolve? && (step.mode == Some(RetryProcessing) || step.mode == Some(ForceComplete))
  }

  predicate Forces(step: Step) {
    step.Resolve? && step.mode == Some(ForceComplete)
  }

  /** A retry that goes back to the payout. */
  predicate Repays(step: Step, t: Trade) {
    step.Resolve? && step.mode == Some(RetryProcessing) && !Unsold(t)
  }

  function Kept(text: Option<string>, was: Option<string>): Option<string> {
    if text.Some? then text else was
  }

  /** The row a step writes when it changes a trade to a status. */
  predicate RowSays(step: Step, id: string, t: Trade, u: Trade, to: Status, now: int) {
    && u.user == t.user && u.quote == t.quote && u.bank == t.bank && u.from == t.from && u.to == t.to && u.fromAmount == t.fromAmount
    && u.toExpected == t.toExpected && u.fee == t.fee && u.address == t.address && u.authorized == t.authorized && u.expiresAt == t.expiresAt
    && u.conversionId == t.conversionId
    && u.status == to && u.updatedAt == now
    && u.txHash == Kept(Opt(HashOf(step, to)), t.txHash)
    && u.orderId == Kept(Opt(OrderOf(step, t)), t.orderId)
    && u.payoutId == (if Repays(step, t) then None else Kept(Opt(RefOf(step, id, t)), t.payoutId))
    && u.toActual == (if Forces(step) then Some(t.toExpected) else t.toActual)
    && u.confirmedAt == (if to == DepositConfirmed then Some(now) else t.confirmedAt)
    && u.completedAt == (if to == PayoutCompleted then Some(now) else if Repays(step, t) then None else t.completedAt)
    && (Resumes(step) ==> u.disputeReason.None?)
    && (!Resumes(step) && to !in {Dispute, PayoutFailed, DisputeClosed} ==> u.disputeReason == t.disputeReason)
    && (WordsOf(step) != "" && to in {Dispute, PayoutFailed, DisputeClosed} ==> u.disputeReason == Some(WordsOf(step)))
  }

  // ------------------------------------------------------------------ what each worker passes along

  /** What a request passes along. */
  predicate MetaSays(step: Step, id: string, t: Trade, ask: Ask) {
    var m := ask.meta;
    && Given(m.txHash) == Opt(HashOf(step, ask.to)) && Given(m.orderId) == Opt(OrderOf(step, t)) && Given(m.payoutRef) == Opt(RefOf(step, id, t))
    && m.conversionId.None? && m.toAmountActual == (if Forces(step) then Some(t.toExpected) else None)
    && m.clearReason == Resumes(step) && (WordsOf(step) != "" ==> Note(m) == WordsOf(step))
  }

  lemma GivenTwice(x: string)
    ensures Given(Some(x)) == Opt(Trim(x)) == Given(Some(Trim(x)))
    ensures Given(None) == None && forall v: Option<string> :: Given(v) == Opt(Trim(TextOf(v)))
    ensures Trim(Trim(x)) == Trim(x)
  {
    TrimTwice(x);
    TrimNothing();
    hide Trim;
  }

  lemma WatchMeta(cfg: Config, s: Store, step: Step, id: string, t: Trade, ask: Ask)
    requires step.Watch? && WatchCase(cfg, s, step.trade, step.seen, step.holder, step.tick.now, ask)
    ensures MetaSays(step, id, t, ask)
  {
    GivenTwice(step.seen.txHash);
    hide Trim, Clean, Insisted, Given, Filed, Folded;
  }

  lemma BackfillMeta(cfg: Config, s: Store, step: Step, id: string, t: Trade, ask: Ask)
    requires step.Backfill? && BackfillCase(cfg, s, step.trade, step.seen, step.holder, ask)
    ensures MetaSays(step, id, t, ask)
  {
    GivenTwice(step.seen.txHash);
    hide Trim, Clean, Given, Filed, Folded;
  }

  lemma SellMeta(w: World, step: Step, id: string, t: Trade, ask: Ask)
    requires step.Sell? && SellAsk(w, step.trade, step.answer) == Some(ask)
    ensures MetaSays(step, id, t, ask)
  {
    GivenTwice(if step.answer.Sold? then step.answer.order else "");
    hide Trim, Given, Filed, Folded, Decimal.Spell;
  }

  lemma EndMeta(w: World, step: Step, id: string, t: Trade, to: Status, prefix: string, ask: Ask)
    requires (step.FinishSale? || step.FailSale?) && EndSaleAsk(w, step.trade, step.order, step.note, to, prefix) == Some(ask)
    ensures MetaSays(step, id, t, ask)
  {
    GivenTwice(step.order);
    hide Trim, Given, Filed, Folded;
  }

  lemma RecoverMeta(s: Store, step: Step, t: Trade, ask: Ask)
    requires step.RecoverSale? && RecoverAsk(s, step.trade, step.tick.now) == Some(ask) && RowIs(s, step.trade, t)
    ensures MetaSays(step, step.trade, t, ask)
  {
    GivenTwice(TextOf(t.orderId));
    GivenTwice(Trim(TextOf(t.orderId)));
    hide Trim, Given, Filed, Folded, Lower;
  }

  lemma PayoutMeta(id: string, ref: string, reason: string)
    ensures Given(PayoutPendingAsk(id, ref).meta.payoutRef) == Opt(Trim(ref)) == Given(PayoutCompleteAsk(id, ref).meta.payoutRef)
    ensures Given(PayoutFailedAsk(id, ref, reason).meta.payoutRef) == Opt(Trim(ref)) && Note(PayoutFailedAsk(id, ref, reason).meta) == Trim(reason)
    ensures forall m :: m in {PayoutPendingAsk(id, ref).meta, PayoutCompleteAsk(id, ref).meta, PayoutFailedAsk(id, ref, reason).meta} ==>
              m.txHash.None? && m.orderId.None? && m.conversionId.None? && m.toAmountActual.None? && !m.clearReason
    ensures PayoutFailedAsk(id, ref, reason).to == PayoutFailed
  {
    GivenTwice(ref);
    hide Trim, Given, Filed, Folded;
  }

  lemma StartMeta(s: Store, step: Step, id: string, t: Trade, ask: Ask)
    requires step.StartPayout? && StartPayoutAsk(s, step.trade, step.payoutAnswer) == Some(ask)
    ensures MetaSays(step, id, t, ask)
  {
    PayoutMeta(step.trade, if step.payoutAnswer.Initiated? then step.payoutAnswer.ref else "", "");
    hide Trim, PayoutPendingAsk, PayoutFailedAsk, PayoutCompleteAsk;
  }

  lemma PollMeta(s: Store, step: Step, t: Trade, ask: Ask)
    requires step.PollPayout? && PollPayoutAsk(s, step.trade, step.news, step.status) == Some(ask) && RowIs(s, step.trade, t)
    ensures MetaSays(step, step.trade, t, ask)
  {
    var ref := Given(t.payoutId).value;
    GivenTwice(TextOf(t.payoutId));
    GivenTwice(ref);
    PayoutMeta(step.trade, ref, "graph payout failed with status " + step.status);
    TrimTwice(TextOf(t.payoutId));
    hide Trim, PayoutPendingAsk, PayoutFailedAsk, PayoutCompleteAsk;
  }

  lemma WebhookMeta(w: World, step: Step, id: string, t: Trade, ask: Ask)
    requires step.Webhook? && WebhookAsk(w, step.event, step.payout, step.target, step.news, step.note) == Some(ask)
    ensures MetaSays(step, id, t, ask)
  {
    PayoutMeta(step.target.value, step.payout, step.note);
    hide Trim, PayoutPendingAsk, PayoutFailedAsk, PayoutCompleteAsk, AnswersPayout;
  }

  lemma ForceText(id: string, t: Trade)
    ensures Given(Some(ForcedRef(id, t)))
         == Opt(if Trim(TextOf(t.payoutId)) != "" then Trim(TextOf(t.payoutId))
                else Trim("ADMIN-FORCED-" + Upper(if |id| >= 8 then id[..8] else id)))
  {
    hide Trim, Upper, Given;
    GivenTwice(TextOf(t.payoutId));
    GivenTwice(ForcedRef(id, t));
  }

  lemma ClosingWords(note: string)
    ensures Trim(note) != "" ==> Trim(Trim(note)) == Trim(note)
  {
    TrimTwice(note);
    hide Trim;
  }

  lemma ResolutionMeta(s: Store, step: Step, id: string, t: Trade, ask: Ask)
    requires step.Resolve? && ResolveAsk(s, step.ticket, step.mode, step.note) == Some(ask) && ask.trade == id && RowIs(s, id, t)
    ensures MetaSays(step, id, t, ask)
  {
    hide Trim, FirstNonBlank, ForcedRef, RetryStatus, Given;
    GivenTwice("");
    ClosingWords(step.note);
    ForceText(id, t);
  }

  lemma RaiseMeta(s: Store, step: Step, id: string, t: Trade, ask: Ask)
    requires step.RaiseDispute? && RaiseAsk(s, step.trade, step.note) == Some(ask)
    ensures MetaSays(step, id, t, ask)
  {
    hide Trim, Given;
    GivenTwice("");
  }

  lemma WantedMeta(cfg: Config, w: World, step: Step, id: string, t: Trade, ask: Ask)
    requires Wanted(cfg, w, step) == Some(ask) && ask.trade == id && RowIs(w.db, id, t)
    ensures MetaSays(step, id, t, ask)
  {
    AskedBy(cfg, w, step, ask);
    hide *;
    match step
    case Watch(trade, seen, holder, tick) =>
      WatchCases(cfg, w.db, trade, seen, holder, tick.now, ask);
      WatchMeta(cfg, w.db, step, id, t, ask);
    case Backfill(trade, seen, holder, tick) =>
      BackfillCases(cfg, w.db, trade, seen, holder, ask);
      BackfillMeta(cfg, w.db, step, id, t, ask);
    case Sell(trade, answer, tick) => SellMeta(w, step, id, t, ask);
    case FinishSale(trade, order, note, tick) => EndMeta(w, step, id, t, ConversionCompleted, "conversion_completed:", ask);
    case FailSale(trade, order, note, tick) => EndMeta(w, step, id, t, Dispute, "conversion_failed_dispute:", ask);
    case RecoverSale(trade, tick) => RecoverMeta(w.db, step, t, ask);
    case StartPayout(trade, answer, tick) => StartMeta(w.db, step, id, t, ask);
    case PollPayout(trade, news, status, tick) => PollMeta(w.db, step, t, ask);
    case Webhook(event, payout, target, news, note, tick) => WebhookMeta(w, step, id, t, ask);
    case RaiseDispute(trade, note, tick) => RaiseMeta(w.db, step, id, t, ask);
    case Resolve(ticket, mode, note, resolver, tick) => ResolutionMeta(w.db, step, id, t, ask);
    case _ =>
  }

  // The request is its worker's, about the step's trade.
  lemma AskedBy(cfg: Config, w: World, step: Step, ask: Ask)
    requires Wanted(cfg, w, step) == Some(ask)
    ensures !(step.Offer? || step.Lapse? || step.Accept?)
    ensures step.Watch? ==> WatchAsk(cfg, w.db, step.trade, step.seen, step.holder, step.tick.now) == Some(ask)
    ensures step.Backfill? ==> BackfillAsk(cfg, w.db, step.trade, step.seen, step.holder) == Some(ask)
    ensures step.Sell? ==> SellAsk(w, step.trade, step.answer) == Some(ask)
    ensures step.FinishSale? ==> EndSaleAsk(w, step.trade, step.order, step.note, ConversionCompleted, "conversion_completed:") == Some(ask)
    ensures step.FailSale? ==> EndSaleAsk(w, step.trade, step.order, step.note, Dispute, "conversion_failed_dispute:") == Some(ask)
    ensures step.RecoverSale? ==> RecoverAsk(w.db, step.trade, step.tick.now) == Some(ask) && ask.trade == step.trade
    ensures step.StartPayout? ==> StartPayoutAsk(w.db, step.trade, step.payoutAnswer) == Some(ask)
    ensures step.PollPayout? ==> PollPayoutAsk(w.db, step.trade, step.news, step.status) == Some(ask) && ask.trade == step.trade
    ensures step.Webhook? ==> WebhookAsk(w, step.event, step.payout, step.target, step.news, step.note) == Some(ask)
    ensures step.RaiseDispute? ==> RaiseAsk(w.db, step.trade, step.note) == Some(ask)
    ensures step.Resolve? ==> ResolveAsk(w.db, step.ticket, step.mode, step.note) == Some(ask)
  {
    if step.RecoverSale? {
      RecoverTo(w.db, step.trade, step.tick.now);
    }
    hide WatchAsk, BackfillAsk, SellAsk, EndSaleAsk, RecoverAsk, StartPayoutAsk, WebhookAsk, RaiseAsk, ResolveAsk, Filed, Folded, Given;
  }

  // ------------------------------------------------------------------ the row

  lemma RowOfMeta(s: Store, step: Step, id: string, t: Trade, g: Trade, ask: Ask, now: int)
    requires MetaSays(step, id, t, ask) && g == (if Repays(step, t) then t.(payoutId := None, completedAt := None, updatedAt := now) else t)
    requires step.Resolve? && step.mode == Some(RetryProcessing) ==> ask.to == DepositConfirmed || ask.to == ConversionCompleted
    ensures RowSays(step, id, t, Written(g, ask.to, ask.meta, now), ask.to, now)
  {
    hide Trim, Upper, Unsold;
  }

  lemma GroundRow(w: World, step: Step, id: string, t: Trade, ask: Ask)
    requires RowIs(w.db, id, t) && ask.trade == id && (step.Resolve? ==> ResolveAsk(w.db, step.ticket, step.mode, step.note) == Some(ask))
    ensures RowIs(Ground(w, step), id, if Repays(step, t) then t.(payoutId := None, completedAt := None, updatedAt := step.tick.now) else t)
    ensures step.Resolve? && step.mode == Some(RetryProcessing) ==> ask.to == DepositConfirmed || ask.to == ConversionCompleted
  {
    if step.Resolve? {
      var k := w.db.tickets[step.ticket];
      ResolutionTo(k.trade, w.db.trades[k.trade], k.reason, step.mode.value, step.note);
      ResolutionSparesSales(k.trade, w.db.trades[k.trade], k.reason, step.mode.value, step.note);
    }
    hide ResolutionAsk;
  }

  /** The whole row a step's change leaves: the references the step gives replace the ones there were, blank ones replace
      nothing; only a retry after the sale forgets a reference, the failed payout's; only a forced completion sets an amount, the
      one owed; terms never change. */
  lemma RowWritten(cfg: Config, w: World, step: Step, id: string, t: Trade, to: Status)
    requires RowIs(w.db, id, t) && Cause(cfg, w, step, id, t, to) && OutcomeOf(cfg, w, step).Applied?
    ensures exists u :: RowIs(Next(cfg, w, step).db, id, u) && RowSays(step, id, t, u, to, step.tick.now)
  {
    WantsIffCaused(cfg, w, step, id, t, to);
    hide Next, Cause, Wanted, Past, Posted, KeyAsked, SameDeal, Elsewhere, OutcomeOf, RowSays, MetaSays, Repays, Ground, Written, Allowed;
    var ask := Wanted(cfg, w, step).value;
    WhenMade(cfg, w, step, ask);
    AskedBy(cfg, w, step, ask);
    WantedMeta(cfg, w, step, id, t, ask);
    GroundRow(w, step, id, t, ask);
    var g := Ground(w, step).trades[id];
    RowOfMeta(w.db, step, id, t, g, ask, step.tick.now);
    RowThere(w.db, Ground(w, step), Next(cfg, w, step).db, ask, step.tick);
    assert RowSays(step, id, t, Next(cfg, w, step).db.trades[id], to, step.tick.now);
  }

  lemma RowThere(s: Store, ground: Store, after: Store, ask: Ask, tick: Tick)
    requires Makes(s, ground, after, ask, tick)
    ensures ask.trade in ground.trades && RowIs(after, ask.trade, Written(ground.trades[ask.trade], ask.to, ask.meta, tick.now))
  {
    hide Posted, KeyAsked, SameDeal, Allowed, Past, Written;
  }
}
