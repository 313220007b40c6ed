/** What an operation key is for: its head tells which worker or call filed the change, and for which trade, so keys
    filed for different purposes or trades never meet. */
module Purposes {
  import opened Wrappers
  import opened Text
  import opened Lifecycle
  import opened Ledger
  import opened Store
  import opened Steps
  import Decimal
  import opened Asks
  import opened Bookkeeping
  import opened Growth
  import opened ExactlyOnce
  import opened Changes
  import opened Disputed
  import opened Sales

  datatype Purpose =
    | Expired
    | Detected | BackfillDetected
    | Confirmed | BackfillConfirmed
    | FaultyDeposit | BackfillDispute
    | SaleStarted | SaleHopeless | RetriesExhausted
    | SaleCompleted | SaleFailed | SaleTimedOut
    | PayoutStarted | PayoutRejected | PayoutDone | PayoutBounced
    | ByDefault(to: Status)

  /** The status changed to. */
  function Target(p: Purpose): Status {
    match p
    case Expired => Cancelled
    case Detected => DepositReceived
    case BackfillDetected => DepositReceived
    case Confirmed => DepositConfirmed
    case BackfillConfirmed => DepositConfirmed
    case FaultyDeposit => Dispute
    case BackfillDispute => Dispute
    case SaleStarted => ConversionInProgress
    case SaleHopeless => Dispute
    case RetriesExhausted => Dispute
    case SaleCompleted => ConversionCompleted
    case SaleFailed => Dispute
    case SaleTimedOut => Dispute
    case PayoutStarted => PayoutPending
    case PayoutRejected => PayoutFailed
    case PayoutDone => PayoutCompleted
    case PayoutBounced => PayoutFailed
    case ByDefault(to) => to
  }

  /** What the key begins with, before the trade. */
  function Head(p: Purpose): string {
    match p
    case Expired => "trade_expired:"
    case Detected => "deposit_detected:"
    case BackfillDetected => "backfill_deposit_detected:"
    case Confirmed => "deposit_confirmed:"
    case BackfillConfirmed => "backfill_deposit_confirmed:"
    case FaultyDeposit => "deposit_dispute:"
    case BackfillDispute => "backfill_dispute:"
    case SaleStarted => STARTED
    case SaleHopeless => "conversion_escalation:"
    case RetriesExhausted => "conversion_retries_exhausted:"
    case SaleCompleted => "conversion_completed:"
    case SaleFailed => "conversion_failed_dispute:"
    case SaleTimedOut => "conversion_reconcile_timeout:"
    case PayoutStarted => "payout_pending:"
    case PayoutRejected => "payout_failed_initiation:"
    case PayoutDone => "payout_completed:"
    case PayoutBounced => "payout_failed:"
    case ByDefault(to) => "trade:" + to.KeyText() + ":"
  }

  // Characters that tell the heads of one status apart.
  function Mark(p: Purpose): (char, char, char) {
    match p
    case Expired => ('t', 'e', ':')
    case Detected => ('d', 'e', 't')
    case BackfillDetected => ('b', 'p', 's')
    case Confirmed => ('d', 'f', 'r')
    case BackfillConfirmed => ('b', 'p', 's')
    case FaultyDeposit => ('d', 'p', 't')
    case BackfillDispute => ('b', 's', 'u')
    case SaleStarted => ('c', 's', 'a')
    case SaleHopeless => ('c', 'e', 'c')
    case RetriesExhausted => ('c', 'r', 't')
    case SaleCompleted => ('c', 'c', 'm')
    case SaleFailed => ('c', 'f', 'i')
    case SaleTimedOut => ('c', 'r', 'c')
    case PayoutStarted => ('p', 'i', 'g')
    case PayoutRejected => ('p', 'e', '_')
    case PayoutDone => ('p', 'l', 't')
    case PayoutBounced => ('p', 'e', ':')
    case ByDefault(_) => ('t', ':', ':')
  }

  lemma StatusTexts(to: Status)
    ensures KeyText(to.KeyText()) && 7 <= |to.KeyText()| <= 22
  {
  }

  /** The heads of the keys that requests without one of their own are filed under: a user's dispute, and an admin's retry,
      closing and forced completion. */
  lemma DefaultHeads()
    ensures Head(ByDefault(Dispute)) == "trade:" + "dispute" + ":"
    ensures Head(ByDefault(DisputeClosed)) == "trade:" + "dispute_closed" + ":"
    ensures Head(ByDefault(DepositConfirmed)) == "trade:" + "deposit_confirmed" + ":"
    ensures Head(ByDefault(ConversionCompleted)) == "trade:" + "conversion_completed" + ":"
    ensures Head(ByDefault(PayoutCompleted)) == "trade:" + "payout_completed" + ":"
  {
  }

  lemma DefaultHead(to: Status)
    ensures var h := Head(ByDefault(to));
            14 <= |h| <= 40 && h[0] == 't' && h[5] == ':' && h[|h| - 1] == ':' && KeyText(h)
  {
    StatusTexts(to);
    hide Status.KeyText, KeyText;
    TradeMark();
    JoinKeyText("trade:", to.KeyText());
    JoinKeyText("trade:" + to.KeyText(), ":");
    var h := "trade:" + to.KeyText() + ":";
    assert h[0] == "trade:"[0] && h[5] == "trade:"[5];
  }

  lemma TradeMark()
    ensures KeyText("trade:") && KeyText(":")
  {
  }

  lemma NamedMarks(p: Purpose)
    requires !p.ByDefault?
    ensures var h := Head(p); 14 <= |h| <= 40 && (h[0], h[11], h[13]) == Mark(p)
  {
  }

  lemma NamedEnds(p: Purpose)
    requires !p.ByDefault?
    ensures var h := Head(p); 14 <= |h| && h[|h| - 1] == ':' && (h[0] == 't' ==> h[5] == '_')
  {
  }

  lemma DepositHeads(p: Purpose)
    requires p.Expired? || p.Detected? || p.BackfillDetected? || p.Confirmed? || p.BackfillConfirmed? || p.FaultyDeposit? || p.BackfillDispute?
    ensures KeyText(Head(p))
  {
  }

  lemma SaleHeads(p: Purpose)
    requires p.SaleStarted? || p.SaleHopeless? || p.RetriesExhausted? || p.SaleCompleted? || p.SaleFailed? || p.SaleTimedOut?
    ensures KeyText(Head(p))
  {
  }

  lemma PayoutHeads(p: Purpose)
    requires p.PayoutStarted? || p.PayoutRejected? || p.PayoutDone? || p.PayoutBounced?
    ensures KeyText(Head(p))
  {
  }

  lemma Marked(p: Purpose)
    ensures !IsSpace(Mark(p).0)
  {
  }

  lemma HeadForm(p: Purpose)
    ensures var h := Head(p); 14 <= |h| <= 40 && KeyText(h) && !IsSpace(h[0]) && h[|h| - 1] == ':'
  {
    if p.ByDefault? {
      DefaultHead(p.to);
      assert !IsSpace('t');
    } else {
      hide Head, KeyText, IsSpace, Mark;
      NamedMarks(p);
      Marked(p);
      NamedEnds(p);
      NamedHeadText(p);
    }
  }

  lemma NamedHeadText(p: Purpose)
    requires !p.ByDefault?
    ensures KeyText(Head(p))
  {
    hide Head, KeyText;
    if p.SaleStarted? || p.SaleHopeless? || p.RetriesExhausted? || p.SaleCompleted? || p.SaleFailed? || p.SaleTimedOut? {
      SaleHeads(p);
    } else if p.PayoutStarted? || p.PayoutRejected? || p.PayoutDone? || p.PayoutBounced? {
      PayoutHeads(p);
    } else {
      DepositHeads(p);
    }
  }

  // The heads of one status tell themselves apart.
  lemma MarksTell(p: Purpose, q: Purpose)
    requires Target(p) == Target(q) && Mark(p) == Mark(q)
    ensures p == q
  {
  }

  lemma SameStart(a: string, b: string, text: string)
    requires a <= text && b <= text && |a| >= 14 && |b| >= 14
    ensures a[0] == b[0] && a[5] == b[5]
  {
  }

  lemma SameMark(p: Purpose, q: Purpose, text: string)
    requires Target(p) == Target(q) && Head(p) <= text && Head(q) <= text
    ensures p == q
  {
    hide Head, Mark, Target, KeyText;
    HeadForm(p);
    HeadForm(q);
    if !p.ByDefault? && !q.ByDefault? {
      NamedMarks(p);
      NamedMarks(q);
      MarksTell(p, q);
    } else if p.ByDefault? && q.ByDefault? {
      DefaultTarget(p);
      DefaultTarget(q);
    } else {
      var named, default := if p.ByDefault? then q else p, if p.ByDefault? then p else q;
      NamedEnds(named);
      DefaultHead(default.to);
      SameStart(Head(named), Head(default), text);
    }
  }

  lemma DefaultTarget(p: Purpose)
    requires p.ByDefault?
    ensures Target(p) == p.to
  {
  }

  /** Two keys of one status with a common beginning, as long as their heads and trades, have the same purpose and are
      the same trade's. */
  lemma HeadsTell(p: Purpose, q: Purpose, a: string, b: string, text: string)
    requires Target(p) == Target(q) && UuidText(a) && UuidText(b) && Head(p) + a <= text && Head(q) + b <= text
    ensures p == q && a == b
  {
    hide Head, Target, UuidText;
    UuidIsKeyText(a);
    UuidIsKeyText(b);
    SameMark(p, q, text);
    var n := |Head(p)|;
    assert a == (Head(p) + a)[n..] && b == (Head(p) + b)[n..];
  }

  // ------------------------------------------------------------------ what each step files

  /** The purpose of the change a step asks for. */
  function PurposeOf(step: Step, to: Status): Purpose {
    match step
    case Watch(_, _, _, _) =>
      if to == Cancelled then Expired else if to == Dispute then FaultyDeposit else if to == DepositReceived then Detected else Confirmed
    case Backfill(_, _, _, _) =>
      if to == Dispute then BackfillDispute else if to == DepositReceived then BackfillDetected else BackfillConfirmed
    case Sell(_, answer, _) =>
      if answer.Sold? then SaleStarted else if answer.Hopeless? then SaleHopeless else RetriesExhausted
    case FinishSale(_, _, _, _) => SaleCompleted
    case FailSale(_, _, _, _) => SaleFailed
    case RecoverSale(_, _) => SaleTimedOut
    case StartPayout(_, answer, _) => if answer.Initiated? then PayoutStarted else PayoutRejected
    case PollPayout(_, _, _, _) => if to == PayoutCompleted then PayoutDone else PayoutBounced
    case Webhook(_, _, _, _, _, _) =>
      if to == PayoutPending then PayoutStarted else if to == PayoutCompleted then PayoutDone else PayoutBounced
    case _ => ByDefault(to)
  }

  /** A request filed for a purpose: under a key of its own that names its trade, or under the default one. */
  ghost predicate AskedFor(ask: Ask, p: Purpose) {
    Target(p) == ask.to
    && if p.ByDefault? then ask.meta.key.None? else exists tail: string :: ask.meta.key == Some(Head(p) + ask.trade + tail)
  }

  lemma FiledIsFor(ask: Ask, p: Purpose, tail: string)
    requires Target(p) == ask.to && !p.ByDefault? && ask.meta.key == Filed(Head(p), ask.trade, tail)
    ensures AskedFor(ask, p)
  {
    assert Head(p) + ask.trade + ":" + tail == Head(p) + ask.trade + (":" + tail);
    hide Head, Target;
  }

  lemma NamedIsFor(ask: Ask, p: Purpose)
    requires Target(p) == ask.to && !p.ByDefault? && ask.meta.key == Some(Head(p) + ask.trade)
    ensures AskedFor(ask, p)
  {
    assert Head(p) + ask.trade + "" == Head(p) + ask.trade;
    hide Head, Target;
  }

  lemma WatchForms(trade: string, hash: string)
    ensures AskedFor(Ask(trade, Cancelled, ExpiryNote(trade)), Expired)
    ensures AskedFor(Ask(trade, DepositReceived, DepositNote("deposit_detected:", trade, hash)), Detected)
    ensures AskedFor(Ask(trade, DepositConfirmed, DepositNote("deposit_confirmed:", trade, hash)), Confirmed)
  {
    hide Folded, Trim, AskedFor;
    NamedIsFor(Ask(trade, Cancelled, ExpiryNote(trade)), Expired);
    FiledIsFor(Ask(trade, DepositReceived, DepositNote("deposit_detected:", trade, hash)), Detected, Folded(hash));
    FiledIsFor(Ask(trade, DepositConfirmed, DepositNote("deposit_confirmed:", trade, hash)), Confirmed, Folded(hash));
  }

  lemma BackfillForms(trade: string, hash: string, reason: string)
    ensures AskedFor(Ask(trade, DepositReceived, BackfillNote("backfill_deposit_detected:", trade, hash, reason)), BackfillDetected)
    ensures AskedFor(Ask(trade, DepositConfirmed, BackfillNote("backfill_deposit_confirmed:", trade, hash, reason)), BackfillConfirmed)
  {
    hide Folded, Trim, AskedFor;
    FiledIsFor(Ask(trade, DepositReceived, BackfillNote("backfill_deposit_detected:", trade, hash, reason)), BackfillDetected, Folded(hash));
    FiledIsFor(Ask(trade, DepositConfirmed, BackfillNote("backfill_deposit_confirmed:", trade, hash, reason)), BackfillConfirmed, Folded(hash));
  }

  lemma DisputeForms(trade: string, hash: string, reason: string)
    ensures AskedFor(DepositDispute("deposit_dispute:", trade, hash, reason), FaultyDeposit)
    ensures AskedFor(DepositDispute("backfill_dispute:", trade, hash, reason), BackfillDispute)
  {
    hide Folded, Trim, AskedFor;
    var tail := if Trim(hash) != "" then Folded(hash) else Folded(reason);
    FiledIsFor(DepositDispute("deposit_dispute:", trade, hash, reason), FaultyDeposit, tail);
    FiledIsFor(DepositDispute("backfill_dispute:", trade, hash, reason), BackfillDispute, tail);
  }

  lemma WatchIsFor(cfg: Config, s: Store, trade: string, seen: Sighting, holder: Option<string>, tick: Tick, ask: Ask)
    requires WatchCase(cfg, s, trade, seen, holder, tick.now, ask)
    ensures AskedFor(ask, PurposeOf(Watch(trade, seen, holder, tick), ask.to))
  {
    WatchForms(trade, seen.txHash);
    hide Clean, Insisted, DepositNote, ExpiryNote, DepositDispute, AskedFor;
    if reason :| ask == DepositDispute("deposit_dispute:", trade, seen.txHash, reason) {
      DisputeForms(trade, seen.txHash, reason);
      DisputeIsProper(s, "deposit_dispute:", trade, seen.txHash, reason);
    }
  }

  lemma BackfillIsFor(cfg: Config, s: Store, trade: string, seen: Sighting, holder: Option<string>, tick: Tick, ask: Ask)
    requires BackfillCase(cfg, s, trade, seen, holder, ask)
    ensures AskedFor(ask, PurposeOf(Backfill(trade, seen, holder, tick), ask.to))
  {
    BackfillForms(trade, seen.txHash, "backfill detected deposit");
    BackfillForms(trade, seen.txHash, "backfill confirmed deposit");
    hide Clean, BackfillNote, DepositDispute, AskedFor, PolicyFor;
    if reason :| ask == DepositDispute("backfill_dispute:", trade, seen.txHash, reason) {
      DisputeForms(trade, seen.txHash, reason);
      DisputeIsProper(s, "backfill_dispute:", trade, seen.txHash, reason);
    }
  }

  lemma SaleNoteIsFor(trade: string, order: string, exchange: string)
    ensures AskedFor(Ask(trade, ConversionInProgress, SaleNote(trade, order, exchange)), SaleStarted)
  {
    hide Folded, Trim, AskedFor, STARTED;
    FiledIsFor(Ask(trade, ConversionInProgress, SaleNote(trade, order, exchange)), SaleStarted, Folded(order));
  }

  lemma EscalationIsFor(trade: string, reason: string)
    ensures AskedFor(Ask(trade, Dispute, EscalationNote("conversion_escalation:", trade, reason)), SaleHopeless)
    ensures AskedFor(Ask(trade, Dispute, EscalationNote("conversion_retries_exhausted:", trade, reason)), RetriesExhausted)
  {
    hide AskedFor;
    NamedIsFor(Ask(trade, Dispute, EscalationNote("conversion_escalation:", trade, reason)), SaleHopeless);
    NamedIsFor(Ask(trade, Dispute, EscalationNote("conversion_retries_exhausted:", trade, reason)), RetriesExhausted);
  }

  lemma SellIsFor(w: World, trade: string, answer: SaleAnswer, tick: Tick, ask: Ask)
    requires SellAsk(w, trade, answer) == Some(ask)
    ensures AskedFor(ask, PurposeOf(Sell(trade, answer, tick), ask.to))
  {
    hide Folded, Trim, AskedFor, STARTED, Decimal.Spell, SaleNote, Head;
    match answer
    case Sold(order, exchange) => SaleNoteIsFor(trade, order, exchange);
    case Hopeless(error) => EscalationIsFor(trade, ask.meta.reason.value);
    case TryAgain(error) => EscalationIsFor(trade, ask.meta.reason.value);
  }

  lemma SaleEndIsFor(w: World, trade: string, order: string, note: string, ask: Ask)
    ensures EndSaleAsk(w, trade, order, note, ConversionCompleted, "conversion_completed:") == Some(ask) ==> AskedFor(ask, SaleCompleted)
    ensures EndSaleAsk(w, trade, order, note, Dispute, "conversion_failed_dispute:") == Some(ask) ==> AskedFor(ask, SaleFailed)
  {
    hide Folded, Trim, AskedFor;
    if EndSaleAsk(w, trade, order, note, ConversionCompleted, "conversion_completed:") == Some(ask) {
      FiledIsFor(ask, SaleCompleted, Folded(order));
    }
    if EndSaleAsk(w, trade, order, note, Dispute, "conversion_failed_dispute:") == Some(ask) {
      FiledIsFor(ask, SaleFailed, Folded(order));
    }
  }

  lemma RecoverIsFor(s: Store, trade: string, now: int, ask: Ask)
    requires RecoverAsk(s, trade, now) == Some(ask)
    ensures AskedFor(ask, SaleTimedOut)
  {
    hide Lower, Given, AskedFor;
    var order := Given(s.trades[trade].orderId);
    if order.Some? {
      FiledIsFor(ask, SaleTimedOut, Lower(order.value));
    } else {
      NamedIsFor(ask, SaleTimedOut);
    }
  }

  // The three payout requests, whoever makes them.
  lemma PayoutIsFor(trade: string, ref: string, reason: string)
    ensures AskedFor(PayoutPendingAsk(trade, ref), PayoutStarted) && AskedFor(PayoutCompleteAsk(trade, ref), PayoutDone)
    ensures AskedFor(PayoutFailedAsk(trade, ref, reason), PayoutBounced)
  {
    hide Folded, AskedFor;
    FiledIsFor(PayoutPendingAsk(trade, ref), PayoutStarted, Folded(ref));
    FiledIsFor(PayoutCompleteAsk(trade, ref), PayoutDone, Folded(ref));
    FiledIsFor(PayoutFailedAsk(trade, ref, reason), PayoutBounced, Folded(ref));
  }

  // Which payout request it is shows in its target.
  lemma PayoutPurpose(step: Step, trade: string, ref: string, reason: string)
    ensures step.PollPayout? || step.Webhook? ==>
              && PurposeOf(step, PayoutCompleteAsk(trade, ref).to) == PayoutDone
              && PurposeOf(step, PayoutFailedAsk(trade, ref, reason).to) == PayoutBounced
    ensures step.Webhook? ==> PurposeOf(step, PayoutPendingAsk(trade, ref).to) == PayoutStarted
  {
    hide Filed, Folded;
  }

  lemma StartIsFor(s: Store, trade: string, answer: PayoutAnswer, tick: Tick, ask: Ask)
    requires StartPayoutAsk(s, trade, answer) == Some(ask)
    ensures AskedFor(ask, PurposeOf(StartPayout(trade, answer, tick), ask.to))
  {
    hide PayoutPendingAsk, Trim, AskedFor;
    if answer.Initiated? {
      PayoutIsFor(trade, answer.ref, "");
    } else {
      NamedIsFor(ask, PayoutRejected);
    }
  }

  lemma PollIsFor(s: Store, trade: string, news: PayoutNews, status: string, tick: Tick, ask: Ask)
    requires PollPayoutAsk(s, trade, news, status) == Some(ask)
    ensures AskedFor(ask, PurposeOf(PollPayout(trade, news, status, tick), ask.to))
  {
    hide PayoutCompleteAsk, PayoutFailedAsk, Given, AskedFor, PurposeOf;
    var ref, reason := Given(s.trades[trade].payoutId).value, "graph payout failed with status " + status;
    PayoutIsFor(trade, ref, reason);
    PayoutPurpose(PollPayout(trade, news, status, tick), trade, ref, reason);
  }

  lemma WebhookIsFor(w: World, event: string, payout: string, target: Option<string>, news: PayoutNews, note: string, tick: Tick, ask: Ask)
    requires WebhookAsk(w, event, payout, target, news, note) == Some(ask)
    ensures AskedFor(ask, PurposeOf(Webhook(event, payout, target, news, note, tick), ask.to))
  {
    hide PayoutCompleteAsk, PayoutFailedAsk, PayoutPendingAsk, AnswersPayout, AskedFor, PurposeOf;
    PayoutIsFor(target.value, payout, note);
    PayoutPurpose(Webhook(event, payout, target, news, note, tick), target.value, payout, note);
  }

  /** Every request is filed for its step's purpose. */
  lemma AskIsFor(cfg: Config, w: World, step: Step, ask: Ask)
    requires AskOf(cfg, w, step) == Some(ask)
    ensures AskedFor(ask, PurposeOf(step, ask.to))
  {
    hide WatchAsk, BackfillAsk, SellAsk, EndSaleAsk, RecoverAsk, StartPayoutAsk, PollPayoutAsk, WebhookAsk, AskedFor, WatchCase, BackfillCase;
    match step
    case Watch(trade, seen, holder, tick) =>
      WatchCases(cfg, w.db, trade, seen, holder, tick.now, ask);
      WatchIsFor(cfg, w.db, trade, seen, holder, tick, ask);
    case Backfill(trade, seen, holder, tick) =>
      BackfillCases(cfg, w.db, trade, seen, holder, ask);
      BackfillIsFor(cfg, w.db, trade, seen, holder, tick, ask);
    case Sell(trade, answer, tick) => SellIsFor(w, trade, answer, tick, ask);
    case FinishSale(trade, order, note, tick) => SaleEndIsFor(w, trade, order, note, ask);
    case FailSale(trade, order, note, tick) => SaleEndIsFor(w, trade, order, note, ask);
    case RecoverSale(trade, tick) => RecoverIsFor(w.db, trade, tick.now, ask);
    case StartPayout(trade, answer, tick) => StartIsFor(w.db, trade, answer, tick, ask);
    case PollPayout(trade, news, status, tick) => PollIsFor(w.db, trade, news, status, tick, ask);
    case Webhook(event, payout, target, news, note, tick) => WebhookIsFor(w, event, payout, target, news, note, tick, ask);
    case RaiseDispute(trade, note, tick) => DefaultIsFor(ask);
    case _ =>
  }

  lemma DefaultIsFor(ask: Ask)
    ensures ask.meta.key.None? ==> AskedFor(ask, ByDefault(ask.to))
  {
  }

  lemma ResolutionIsFor(s: Store, ticket: nat, mode: Option<Mode>, note: string, ask: Ask)
    requires ResolveAsk(s, ticket, mode, note) == Some(ask)
    ensures AskedFor(ask, ByDefault(ask.to)) && ask.to in {DepositConfirmed, ConversionCompleted, DisputeClosed, PayoutCompleted}
  {
    hide FirstNonBlank, Trim, ForcedRef;
  }

  /** Every change wanted is filed for its step's purpose, and only users' disputes and admins' resolutions go by default
      keys; nothing sends a trade back to waiting. */
  ghost predicate ForItsPurpose(step: Step, ask: Ask) {
    && AskedFor(ask, PurposeOf(step, ask.to)) && ask.to != PendingDeposit
    && (PurposeOf(step, ask.to).ByDefault? ==> if ask.to == Dispute then step.RaiseDispute? else step.Resolve?)
  }

  lemma WantedIsFor(cfg: Config, w: World, step: Step, ask: Ask)
    requires Wanted(cfg, w, step) == Some(ask)
    ensures ForItsPurpose(step, ask)
  {
    hide AskOf, ResolveAsk, AskedFor, Proper;
    if step.Resolve? {
      ResolutionIsFor(w.db, step.ticket, step.mode, step.note, ask);
    } else {
      AskIsFor(cfg, w, step, ask);
      AskIsProper(cfg, w, step, ask);
      RaisesDispute(cfg, w, step, ask);
    }
  }

  lemma RaisesDispute(cfg: Config, w: World, step: Step, ask: Ask)
    requires AskOf(cfg, w, step) == Some(ask)
    ensures PurposeOf(step, ask.to).ByDefault? ==> step.RaiseDispute? && ask.to == Dispute
  {
    hide WatchAsk, BackfillAsk, SellAsk, EndSaleAsk, RecoverAsk, StartPayoutAsk, PollPayoutAsk, WebhookAsk;
  }

  // ------------------------------------------------------------------ the stored text

  lemma LongHead(p: Purpose, trade: string)
    requires UuidText(trade)
    ensures var h := Head(p) + trade; h != "" && KeyText(h) && !IsSpace(h[0]) && !IsSpace(h[|h| - 1]) && |h| <= 76
  {
    UuidEnds(trade);
    hide Head, UuidText, KeyText, IsSpace;
    HeadForm(p);
    UuidIsKeyText(trade);
    JoinKeyText(Head(p), trade);
  }

  lemma UuidEnds(trade: string)
    requires UuidText(trade)
    ensures |trade| == 36 && !IsSpace(trade[35])
  {
    UuidDigits(trade, 0);
  }

  lemma {:induction false} UuidDigits(id: string, i: nat)
    requires UuidFrom(id, i) && |id| == 36 && i <= 35
    ensures IsHex(id[35])
    decreases 36 - i
  {
    if i < 35 {
      UuidDigits(id, i + 1);
    }
  }

  /** A key is stored under its purpose and its trade. */
  predicate Stored(k: OpKey, p: Purpose, trade: string) {
    k.scope == StatusChange(Target(p)) && Head(p) + trade <= k.text
  }

  lemma StoredUnder(ask: Ask, p: Purpose)
    requires AskedFor(ask, p) && UuidText(ask.trade)
    ensures Stored(KeyAsked(ask), p, ask.trade)
  {
    hide Head, Target, UuidText, OperationKey, NormalizeKey, KeyText, IsSpace;
    LongHead(p, ask.trade);
    KeyScope(ask.trade, ask.to, ask.meta);
    if p.ByDefault? {
      DefaultTarget(p);
      DefaultText(ask);
    } else {
      var tail :| ask.meta.key == Some(Head(p) + ask.trade + tail);
      ExplicitText(ask, Head(p) + ask.trade, tail);
    }
  }

  lemma ExplicitText(ask: Ask, head: string, tail: string)
    requires ask.meta.key == Some(head + tail) && head != "" && KeyText(head) && !IsSpace(head[0]) && !IsSpace(head[|head| - 1])
    requires |head| <= 76
    ensures head <= KeyAsked(ask).text
  {
    hide NormalizeKey, DefaultKey, KeyText, IsSpace;
    StoredHead(head, tail);
    NormalizeKeepsHead(head, tail);
  }

  lemma DefaultText(ask: Ask)
    requires ask.meta.key.None? && UuidText(ask.trade)
    ensures Head(ByDefault(ask.to)) + ask.trade <= KeyAsked(ask).text
  {
    LongHead(ByDefault(ask.to), ask.trade);
    DefaultRaw(ask.trade, ask.to, ask.meta);
    hide NormalizeKey, KeyText, IsSpace, UuidText, Parts, Head, OperationKey;
    StoredHead(Head(ByDefault(ask.to)) + ask.trade, if Parts(ask.meta) == "" then ":default" else Parts(ask.meta));
  }

  lemma DefaultRaw(trade: string, to: Status, m: Metadata)
    requires m.key.None?
    ensures OperationKey(trade, to, m)
         == NormalizeKey(Head(ByDefault(to)) + trade + if Parts(m) == "" then ":default" else Parts(m))
  {
    hide NormalizeKey, Parts, Status.KeyText;
  }

  /** The purpose a step's change is filed for. */
  lemma MadeIsStored(cfg: Config, w: World, step: Step, ask: Ask)
    requires Made(cfg, w, step) == Some(ask) && NoResale(w.db)
    ensures UuidText(ask.trade) && Stored(KeyAsked(ask), PurposeOf(step, ask.to), ask.trade) && ForItsPurpose(step, ask)
  {
    hide *;
    MadeIsWanted(cfg, w, step, ask);
    WhenMade(cfg, w, step, ask);
    MadeIsUuid(w.db, Ground(w, step), Next(cfg, w, step).db, ask, step.tick);
    WantedIsFor(cfg, w, step, ask);
    ForPurpose(step, ask);
    StoredUnder(ask, PurposeOf(step, ask.to));
  }

  lemma ForPurpose(step: Step, ask: Ask)
    requires ForItsPurpose(step, ask)
    ensures AskedFor(ask, PurposeOf(step, ask.to))
  {
    hide AskedFor, PurposeOf;
  }

  lemma MadeIsUuid(s: Store, ground: Store, after: Store, ask: Ask, tick: Tick)
    requires NoResale(s) && Makes(s, ground, after, ask, tick)
    ensures UuidText(ask.trade)
  {
    hide UuidText, SoldAndPast, Posted, KeyAsked, SameDeal;
  }

  // ------------------------------------------------------------------ whose key it is

  ghost predicate NamedFor(k: OpKey, owner: string) {
    UuidText(owner) && exists p :: Stored(k, p, owner)
  }

  /** Every key of a status change names the purpose and the trade it was filed for. */
  ghost predicate KeysNamed(s: Store) {
    forall k <- s.keys :: k.scope.StatusChange? ==> NamedFor(k, s.keys[k])
  }

  lemma MadeNamed(s: Store, ground: Store, after: Store, ask: Ask, tick: Tick, p: Purpose)
    requires KeysNamed(s) && Makes(s, ground, after, ask, tick) && UuidText(ask.trade) && Stored(KeyAsked(ask), p, ask.trade)
    ensures KeysNamed(after)
  {
    hide KeyAsked, Posted, SameDeal, Allowed, UuidText, Stored;
  }

  lemma QuietNamed(s: Store, after: Store)
    requires KeysNamed(s) && Quiet(s, after)
    ensures KeysNamed(after)
  {
    hide NamedFor;
    forall k | k in after.keys && k.scope.StatusChange?
      ensures NamedFor(k, after.keys[k])
    {
      assert k in s.keys;
    }
  }

  lemma NextNamed(cfg: Config, w: World, step: Step)
    requires KeysNamed(w.db) && NoResale(w.db)
    ensures KeysNamed(Next(cfg, w, step).db)
  {
    hide *;
    if Made(cfg, w, step).Some? {
      var ask := Made(cfg, w, step).value;
      WhenMade(cfg, w, step, ask);
      MadeIsStored(cfg, w, step, ask);
      MadeNamed(w.db, Ground(w, step), Next(cfg, w, step).db, ask, step.tick, PurposeOf(step, ask.to));
    } else {
      WhenNotMade(cfg, w, step);
      QuietNamed(w.db, Next(cfg, w, step).db);
    }
  }

  lemma NothingNamed(cfg: Config)
    ensures KeysNamed(Run(cfg, []).db)
  {
    hide NamedFor;
  }

  /** In every run each key of a status change begins with its purpose and the trade that owns it. */
  lemma {:induction false} RunKeysNamed(cfg: Config, steps: seq<Step>)
    requires Uuids(cfg)
    ensures KeysNamed(Run(cfg, steps).db)
  {
    hide *;
    if steps == [] {
      NothingNamed(cfg);
    } else {
      var n := |steps| - 1;
      RunKeysNamed(cfg, steps[..n]);
      RunNoResale(cfg, steps[..n]);
      RunLast(cfg, steps);
      NextNamed(cfg, Run(cfg, steps[..n]), steps[n]);
    }
  }

  lemma NotOthersKey(s: Store, k: OpKey, p: Purpose, id: string)
    requires KeysNamed(s) && k in s.keys && Stored(k, p, id) && UuidText(id)
    ensures s.keys[k] == id && k in StatusKeys(s.keys, id)
  {
    hide Head, Target, UuidText;
    assert NamedFor(k, s.keys[k]);
    var q :| Stored(k, q, s.keys[k]);
    HeadsTell(p, q, id, s.keys[k], k.text);
  }

  /** A trade whose history holds nothing but its creation has no keys, so every request for it is filed under a new one. */
  lemma UnmovedHasNoKeys(s: Store, ask: Ask, p: Purpose)
    requires KeysNamed(s) && Counted(s) && ask.trade in s.trades && UuidText(ask.trade) && |Past(s, ask.trade)| == 1 && AskedFor(ask, p)
    ensures KeyAsked(ask) !in s.keys
  {
    hide KeyAsked, AskedFor, UuidText, KeysNamed, Stored, StatusKeys, Past;
    StoredUnder(ask, p);
    assert CountedAt(s, ask.trade);
    if KeyAsked(ask) in s.keys {
      NotOthersKey(s, KeyAsked(ask), p, ask.trade);
    }
  }

  // ------------------------------------------------------------------ trades that have not moved

  ghost predicate UnmovedAt(s: Store, id: string)
    requires id in s.trades
  {
    s.trades[id].status == PendingDeposit ==> Past(s, id) == [Change(None, PendingDeposit)]
  }

  /** A trade waiting for its deposit has nothing in its history but its creation. */
  ghost predicate WaitingUnmoved(s: Store) {
    forall id <- s.trades :: UnmovedAt(s, id)
  }

  lemma NextUnmoved(cfg: Config, w: World, step: Step)
    requires WaitingUnmoved(w.db)
    ensures WaitingUnmoved(Next(cfg, w, step).db)
  {
    hide Next, Past, Wanted, Allowed, Given, AskedFor, PurposeOf;
    forall id | id in Next(cfg, w, step).db.trades
      ensures UnmovedAt(Next(cfg, w, step).db, id)
    {
      if id in w.db.trades {
        StepAt(cfg, w, step, id);
        assert UnmovedAt(w.db, id);
        if Wanted(cfg, w, step).Some? {
          WantedIsFor(cfg, w, step, Wanted(cfg, w, step).value);
        }
      } else {
        BornAt(cfg, w, step, id);
      }
    }
  }

  lemma {:induction false} RunUnmoved(cfg: Config, steps: seq<Step>)
    ensures WaitingUnmoved(Run(cfg, steps).db)
  {
    if steps != [] {
      var n := |steps| - 1;
      RunUnmoved(cfg, steps[..n]);
      hide WaitingUnmoved, Next;
      NextUnmoved(cfg, Run(cfg, steps[..n]), steps[n]);
    }
  }

  // ------------------------------------------------------------------ keys nobody can have filed

  /** Whether a step may file a change for a purpose. */
  predicate MayFile(step: Step, p: Purpose) {
    PurposeOf(step, Target(p)) == p && (p.ByDefault? ==> if p.to == Dispute then step.RaiseDispute? else step.Resolve?)
  }

  lemma MadeMayFile(cfg: Config, w: World, step: Step, ask: Ask, p: Purpose, id: string)
    requires Made(cfg, w, step) == Some(ask) && NoResale(w.db) && UuidText(id) && Stored(KeyAsked(ask), p, id)
    ensures MayFile(step, p)
  {
    hide Made, UuidText, Stored, KeyAsked, PurposeOf, AskedFor, Target;
    MadeIsStored(cfg, w, step, ask);
    StoredTells(KeyAsked(ask), PurposeOf(step, ask.to), ask.trade, p, id);
    ForTarget(ask, p);
  }

  lemma ForTarget(ask: Ask, p: Purpose)
    requires AskedFor(ask, p)
    ensures Target(p) == ask.to
    ensures p.ByDefault? ==> p.to == ask.to
  {
    hide Head;
  }

  lemma StoredTells(k: OpKey, p: Purpose, a: string, q: Purpose, b: string)
    requires Stored(k, p, a) && Stored(k, q, b) && UuidText(a) && UuidText(b)
    ensures p == q && a == b
  {
    hide Head, Target, UuidText;
    HeadsTell(p, q, a, b, k.text);
  }

  lemma NextUnfiled(cfg: Config, w: World, step: Step, k: OpKey, p: Purpose, id: string)
    requires NoResale(w.db) && UuidText(id) && Stored(k, p, id) && !MayFile(step, p) && k !in w.db.keys
    ensures k !in Next(cfg, w, step).db.keys
  {
    assert k.scope.StatusChange?;
    hide *;
    if Made(cfg, w, step).Some? {
      var ask := Made(cfg, w, step).value;
      WhenMade(cfg, w, step, ask);
      MadeKeys(w.db, Ground(w, step), Next(cfg, w, step).db, ask, step.tick);
      if KeyAsked(ask) == k {
        MadeMayFile(cfg, w, step, ask, p, id);
      }
    } else {
      WhenNotMade(cfg, w, step);
      QuietKeys(w.db, Next(cfg, w, step).db, k);
    }
  }

  lemma MadeKeys(s: Store, ground: Store, after: Store, ask: Ask, tick: Tick)
    requires Makes(s, ground, after, ask, tick)
    ensures after.keys == s.keys[KeyAsked(ask) := ask.trade]
  {
    hide KeyAsked, Posted, SameDeal, Allowed;
  }

  lemma QuietKeys(s: Store, after: Store, k: OpKey)
    requires Quiet(s, after) && k.scope.StatusChange?
    ensures k in after.keys <==> k in s.keys
  {
  }

  predicate NoneFiles(steps: seq<Step>, p: Purpose) {
    forall step <- steps :: !MayFile(step, p)
  }

  /** A key of a purpose no step of a run files for is new. */
  lemma {:induction false} UnfiledIsNew(cfg: Config, steps: seq<Step>, k: OpKey, p: Purpose, id: string)
    requires Uuids(cfg) && UuidText(id) && Stored(k, p, id) && NoneFiles(steps, p)
    ensures k !in Run(cfg, steps).db.keys
  {
    if steps != [] {
      var n := |steps| - 1;
      hide MayFile, Stored, UuidText, Next;
      UnfiledIsNew(cfg, steps[..n], k, p, id);
      RunNoResale(cfg, steps[..n]);
      NextUnfiled(cfg, Run(cfg, steps[..n]), steps[n], k, p, id);
    }
  }
}
