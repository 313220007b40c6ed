/** What dispute tickets say: which step opens one, who raised it, the reason it gives, and what closing one writes. */
module Reports {
  import opened Wrappers
  import opened Text
  import opened Lifecycle
  import opened Ledger
  import opened Store
  import opened Steps
  import opened Sightings
  import opened Tickets
  import opened Causes
  import opened Rows
  import Decimal

  /** What is wrong with a deposit, first things first, in the words of the watcher or of the scanner. */
  function FaultWords(cfg: Config, id: string, t: Trade, seen: Sighting, holder: Option<string>, watcher: bool): string {
    var place := cfg.place(t.from, t.address);
    var tolerance := cfg.policy(t.from, place.0).tolerance;
    if Trim(seen.txHash) != "" && holder != None && holder != Some(id) then
      if watcher then "duplicate_deposit_tx_hash" else "backfill_duplicate_deposit_tx_hash"
    else if !NetworksAgree(cfg.network(seen.network), place.0) then
      if watcher then "wrong_deposit_network" else "backfill_wrong_deposit_network"
    else if !AddressesAgree(seen.address, place.1) then
      if watcher then "wrong_deposit_address" else "backfill_wrong_deposit_address"
    else if watcher && !Unlisted(cfg, seen.address, place.1) then
      "high_risk_wallet_blocklist"
    else if seen.amount < t.fromAmount - tolerance || seen.amount > t.fromAmount + tolerance then
      if watcher then "wrong_deposit_amount" else "backfill_wrong_deposit_amount"
    else
      if watcher then "deposit_reorg_or_replacement_risk" else "backfill_detected_reorg_or_replacement"
  }

  /** The reason a step gives for a dispute. */
  function Reason(cfg: Config, w: World, step: Step, id: string, t: Trade): string {
    match step
    case Watch(_, seen, holder, _) => FaultWords(cfg, id, t, seen, holder, true)
    case Backfill(_, seen, holder, _) =>
      if Faultless(cfg, id, t, seen, holder, false) then "finality_dropped_below_threshold" else FaultWords(cfg, id, t, seen, holder, false)
    case Sell(_, answer, _) => SaleWords(answer, Attempts(w, id))
    case FailSale(_, _, note, _) => Trim(note)
    case RecoverSale(_, _) => Trim("conversion reconciliation timed out; manual review required")
    case RaiseDispute(_, note, _) => Trim(note)
    case _ => ""
  }

  function SaleWords(answer: SaleAnswer, failed: nat): string {
    match answer
    case Hopeless(error) => Trim("conversion requires manual review: " + Trim(error))
    case TryAgain(error) =>
      Trim("conversion retry limit reached after " + Decimal.Spell(failed + 1) + " attempts: " + Trim(error))
    case Sold(_, _) => ""
  }

  /** The trade has an open ticket. */
  predicate Ticketed(s: Store, id: string) {
    exists i :: 0 <= i < |s.tickets| && s.tickets[i].trade == id && s.tickets[i].resolution.None?
  }

  function Stated(reason: string): string {
    if reason == "" then "Trade requires manual review" else reason
  }

  // ------------------------------------------------------------------ what each worker reports

  // Engine words need no trimming.
  lemma WordsStay(s: string)
    requires Fluent(s)
    ensures Trim(s) == s
  {
    assert !IsSpace(s[0]) && !IsSpace(s[|s| - 1]);
    Decimal.VisibleEnds(s);
  }

  predicate Fluent(s: string) {
    s != "" && IsLower(s[0]) && IsLower(s[|s| - 1])
  }

  lemma FaultIs(cfg: Config, id: string, t: Trade, seen: Sighting, holder: Option<string>, watcher: bool)
    requires FaultOf(cfg, id, t, seen, holder, watcher).Some?
    ensures var fault := FaultOf(cfg, id, t, seen, holder, watcher).value;
            (if watcher then WatcherReason(fault) else BackfillReason(fault)) == FaultWords(cfg, id, t, seen, holder, watcher)
  {
    var place := cfg.place(t.from, t.address);
    ClashIff(cfg.network(seen.network), place.0);
    ClashIff(seen.address, place.1);
    BlockedIff(cfg, seen.address, place.1);
    ToleratedIff(t.fromAmount, seen.amount, PolicyFor(cfg, t).tolerance);
    hide Trim, NetworksClash, AddressesClash, Blocked, DepositPolicy.OutsideTolerance, NetworksAgree, AddressesAgree, Unlisted;
  }

  lemma ReasonsAreFluent(f: Fault)
    ensures Fluent(WatcherReason(f)) && Fluent(BackfillReason(f))
  {
  }

  lemma DroppedIsFluent()
    ensures Fluent("finality_dropped_below_threshold")
  {
  }

  // A request for a dispute says who raised it and why.
  predicate Says(ask: Ask, byUser: bool, reason: string) {
    ask.meta.byUser == byUser && Note(ask.meta) == reason
  }

  lemma DepositSays(prefix: string, trade: string, hash: string, reason: string)
    requires Fluent(reason)
    ensures Says(DepositDispute(prefix, trade, hash, reason), false, reason)
  {
    WordsStay(reason);
    hide Trim, Folded, Filed;
  }

  lemma WatchSays(cfg: Config, w: World, step: Step, id: string, t: Trade, ask: Ask)
    requires RowIs(w.db, id, t) && step.Watch? && ask.trade == id && ask.to == Dispute
    requires WatchAsk(cfg, w.db, step.trade, step.seen, step.holder, step.tick.now) == Some(ask)
    ensures Says(ask, false, Reason(cfg, w, step, id, t))
  {
    hide Says, FaultOf, Fire, LookedUp, Trim, WatcherReason, DepositNote, ExpiryNote, DepositDispute, PolicyFor, FaultWords, Fluent;
    var u := View(t, step.tick.now, PolicyFor(cfg, t).finality, step.seen.confirmations);
    WatcherEvents(View(t, step.tick.now, 0, 0));
    WatcherEvents(u);
    DisputesTrade("deposit_dispute:", step.trade, step.seen.txHash);
    var fault := FaultOf(cfg, step.trade, t, step.seen, step.holder, true);
    if fault.Some? {
      FaultIs(cfg, id, t, step.seen, step.holder, true);
      ReasonsAreFluent(fault.value);
      DepositSays("deposit_dispute:", id, step.seen.txHash, WatcherReason(fault.value));
    }
  }

  lemma BackfillSays(cfg: Config, w: World, step: Step, id: string, t: Trade, ask: Ask)
    requires RowIs(w.db, id, t) && step.Backfill? && ask.trade == id && ask.to == Dispute
    requires BackfillAsk(cfg, w.db, step.trade, step.seen, step.holder) == Some(ask)
    ensures Says(ask, false, Reason(cfg, w, step, id, t))
  {
    hide Says, FaultOf, Trim, BackfillReason, DepositDispute, FaultWords, Fluent, Faultless, BackfillAsk;
    BackfillDisputes(cfg, w.db, step, t, ask);
    FaultlessIff(cfg, id, t, step.seen, step.holder, false);
    var fault := FaultOf(cfg, id, t, step.seen, step.holder, false);
    if fault.Some? {
      ReasonsAreFluent(fault.value);
      FaultIs(cfg, id, t, step.seen, step.holder, false);
      DepositSays("backfill_dispute:", id, step.seen.txHash, BackfillReason(fault.value));
    } else {
      DroppedIsFluent();
      DepositSays("backfill_dispute:", id, step.seen.txHash, "finality_dropped_below_threshold");
    }
  }

  lemma BackfillDisputes(cfg: Config, s: Store, step: Step, t: Trade, ask: Ask)
    requires step.Backfill? && RowIs(s, ask.trade, t) && ask.to == Dispute
    requires BackfillAsk(cfg, s, step.trade, step.seen, step.holder) == Some(ask)
    ensures var fault := FaultOf(cfg, ask.trade, t, step.seen, step.holder, false);
            ask == DepositDispute("backfill_dispute:", ask.trade, step.seen.txHash,
                                  if fault.Some? then BackfillReason(fault.value) else "finality_dropped_below_threshold")
  {
    hide FaultOf, LookedUp, Trim, BackfillReason, BackfillNote, Filed, Folded, PolicyFor, BACKFILLED;
  }

  lemma SellSays(w: World, step: Step, ask: Ask)
    requires step.Sell? && SellAsk(w, step.trade, step.answer) == Some(ask) && ask.to == Dispute
    ensures Says(ask, false, SaleWords(step.answer, Attempts(w, step.trade)))
  {
    hide Trim, Folded, Filed, Decimal.Spell;
  }

  lemma EndSays(w: World, step: Step, ask: Ask)
    requires step.FailSale? && EndSaleAsk(w, step.trade, step.order, step.note, Dispute, "conversion_failed_dispute:") == Some(ask)
    ensures Says(ask, false, Trim(step.note))
  {
    hide Trim, Folded, Filed;
  }

  lemma RecoverSays(s: Store, step: Step, ask: Ask)
    requires step.RecoverSale? && RecoverAsk(s, step.trade, step.tick.now) == Some(ask)
    ensures Says(ask, false, Trim("conversion reconciliation timed out; manual review required"))
  {
    hide Trim, Lower, Filed, Given;
  }

  lemma RaiseSays(s: Store, step: Step, ask: Ask)
    requires step.RaiseDispute? && RaiseAsk(s, step.trade, step.note) == Some(ask)
    ensures Says(ask, true, Trim(step.note))
  {
    hide Trim;
  }

  lemma DisputeSays(cfg: Config, w: World, step: Step, id: string, t: Trade, ask: Ask)
    requires RowIs(w.db, id, t) && Cause(cfg, w, step, id, t, Dispute) && Wanted(cfg, w, step) == Some(ask) && ask.trade == id && ask.to == Dispute
    ensures Says(ask, step.RaiseDispute?, Reason(cfg, w, step, id, t))
  {
    AskedBy(cfg, w, step, ask);
    DisputingStep(cfg, w, step, id, t);
    hide *;
    match step
    case Watch(trade, seen, holder, tick) => WatchSays(cfg, w, step, id, t, ask);
    case Backfill(trade, seen, holder, tick) => BackfillSays(cfg, w, step, id, t, ask);
    case Sell(trade, answer, tick) => SellSays(w, step, ask);
    case FailSale(trade, order, note, tick) => EndSays(w, step, ask);
    case RecoverSale(trade, tick) => RecoverSays(w.db, step, ask);
    case RaiseDispute(trade, note, tick) => RaiseSays(w.db, step, ask);
    case _ =>
  }

  // The steps that dispute a trade, and the reason spelled out for each.
  lemma DisputingStep(cfg: Config, w: World, step: Step, id: string, t: Trade)
    requires Cause(cfg, w, step, id, t, Dispute)
    ensures step.Watch? || step.Backfill? || step.Sell? || step.FailSale? || step.RecoverSale? || step.RaiseDispute?
    ensures step.Sell? ==> step.trade == id && Reason(cfg, w, step, id, t) == SaleWords(step.answer, Attempts(w, step.trade))
    ensures step.FailSale? ==> Reason(cfg, w, step, id, t) == Trim(step.note)
    ensures step.RaiseDispute? ==> Reason(cfg, w, step, id, t) == Trim(step.note)
    ensures step.RecoverSale? ==> Reason(cfg, w, step, id, t) == Trim("conversion reconciliation timed out; manual review required")
  {
    hide Faultless, FaultWords, SaleWords, Trim, Answered, Policy, Settles, OrderKnown;
  }

  // ------------------------------------------------------------------ tickets

  /** A step disputes a trade: it has a cause to, and the change is made. */
  ghost predicate Disputes(cfg: Config, w: World, step: Step, id: string, t: Trade) {
    RowIs(w.db, id, t) && Cause(cfg, w, step, id, t, Dispute) && OutcomeOf(cfg, w, step).Applied?
  }

  /** A dispute that is carried out tickets the trade: an open ticket it has is kept, otherwise one is opened, by the user if
      and only if it is the user's own request, with the reason the step gives. */
  lemma DisputeTickets(cfg: Config, w: World, step: Step, id: string, t: Trade)
    requires Disputes(cfg, w, step, id, t)
    ensures Next(cfg, w, step).db.tickets
         == if Ticketed(w.db, id) then w.db.tickets
            else w.db.tickets + [Ticket(id, step.RaiseDispute?, Stated(Reason(cfg, w, step, id, t)), None)]
  {
    hide *;
    var ask := DisputingAsk(cfg, w, step, id, t);
    DisputeSays(cfg, w, step, id, t, ask);
    OpenedIs(w.db, id, ask.meta.byUser, Note(ask.meta));
    TicketsAfter(cfg, w, step, ask);
    TicketIs(w.db.tickets, id, ask, step.RaiseDispute?, Reason(cfg, w, step, id, t));
  }

  lemma DisputingAsk(cfg: Config, w: World, step: Step, id: string, t: Trade) returns (ask: Ask)
    requires Disputes(cfg, w, step, id, t)
    ensures Wanted(cfg, w, step) == Some(ask) && ask.trade == id && ask.to == Dispute && OutcomeOf(cfg, w, step).Applied? && !step.Resolve?
    ensures RowIs(w.db, id, t) && Cause(cfg, w, step, id, t, Dispute)
  {
    hide Cause, Wanted, OutcomeOf, Reason;
    WantsIffCaused(cfg, w, step, id, t, Dispute);
    DisputingStep(cfg, w, step, id, t);
    ask := Wanted(cfg, w, step).value;
  }

  lemma TicketIs(tickets: seq<Ticket>, id: string, ask: Ask, byUser: bool, reason: string)
    requires Says(ask, byUser, reason)
    ensures Ticket(id, ask.meta.byUser, Stated(Note(ask.meta)), None) == Ticket(id, byUser, Stated(reason), None)
  {
    hide Note;
  }

  lemma OpenedIs(s: Store, id: string, byUser: bool, note: string)
    ensures WithTicket(s.tickets, id, byUser, note)
         == if Ticketed(s, id) then s.tickets else s.tickets + [Ticket(id, byUser, Stated(note), None)]
  {
    var r := OpenTicketOf(s.tickets, id);
    hide OpenTicketOf;
    assert r.Some? ==> s.tickets[r.value].trade == id && s.tickets[r.value].resolution.None?;
  }

  lemma TicketsAfter(cfg: Config, w: World, step: Step, ask: Ask)
    requires !step.Resolve? && Wanted(cfg, w, step) == Some(ask) && OutcomeOf(cfg, w, step).Applied?
    ensures Next(cfg, w, step).db.tickets
         == if ask.to == Dispute then WithTicket(w.db.tickets, ask.trade, ask.meta.byUser, Note(ask.meta)) else w.db.tickets
  {
    PlainStep(cfg, w, step, ask);
    hide *;
    TicketsUpdated(w.db, ask, step.tick);
  }

  lemma TicketsUpdated(s: Store, ask: Ask, tick: Tick)
    ensures Settle(s, Update(s, ask.trade, ask.to, ask.meta, tick)).tickets
         == if Update(s, ask.trade, ask.to, ask.meta, tick).Applied? && ask.to == Dispute
            then WithTicket(s.tickets, ask.trade, ask.meta.byUser, Note(ask.meta)) else s.tickets
  {
    hide Update, WithTicket, Note, Allowed, KeyOf, FitsRow, Posted, Written, Past, NoticeFits;
    if Update(s, ask.trade, ask.to, ask.meta, tick).Applied? {
      WhenApplied(s, ask.trade, ask.to, ask.meta, tick);
    }
  }

  lemma PlainStep(cfg: Config, w: World, step: Step, ask: Ask)
    requires !step.Resolve? && Wanted(cfg, w, step) == Some(ask)
    ensures OutcomeOf(cfg, w, step) == Update(w.db, ask.trade, ask.to, ask.meta, step.tick)
    ensures Next(cfg, w, step).db == Settle(w.db, Update(w.db, ask.trade, ask.to, ask.meta, step.tick))
  {
    hide WatchAsk, BackfillAsk, SellAsk, EndSaleAsk, RecoverAsk, StartPayoutAsk, PollPayoutAsk, WebhookAsk, RaiseAsk, Update,
         NextSales, NextAttempts, NextEvents, Settle;
  }

  /** The ticket an admin resolves is closed with what the admin did, the note unless it is blank, and the admin's name. */
  predicate TicketClosed(before: seq<Ticket>, after: seq<Ticket>, step: Step) {
    step.Resolve? && step.mode.Some? && step.ticket < |before| && before[step.ticket].resolution.None? &&
    after == before[step.ticket := before[step.ticket].(resolution :=
      Some(Resolution(step.mode.value, Opt(Trim(step.note)), if Trim(step.resolver) == "" then "admin" else Trim(step.resolver), step.tick.now)))]
  }

  /** Every other step leaves all tickets alone, but for an admin's call, which closes the open ticket it names unless it is
      refused. */
  lemma TicketsElse(cfg: Config, w: World, step: Step)
    requires forall id, t :: !Disputes(cfg, w, step, id, t)
    ensures Next(cfg, w, step).db.tickets == w.db.tickets
         || (!OutcomeOf(cfg, w, step).Refused? && TicketClosed(w.db.tickets, Next(cfg, w, step).db.tickets, step))
  {
    if step.Resolve? {
      ResolvedTickets(cfg, w, step);
    } else if Wanted(cfg, w, step).Some? {
      var ask := Wanted(cfg, w, step).value;
      PlainStep(cfg, w, step, ask);
      NotDisputing(cfg, w, step, ask);
      hide *;
      TicketsUpdated(w.db, ask, step.tick);
    } else {
      UnaskedTickets(cfg, w, step);
    }
  }

  lemma NotDisputing(cfg: Config, w: World, step: Step, ask: Ask)
    requires Wanted(cfg, w, step) == Some(ask) && !step.Resolve? && forall id, t :: !Disputes(cfg, w, step, id, t)
    ensures !(Update(w.db, ask.trade, ask.to, ask.meta, step.tick).Applied? && ask.to == Dispute)
  {
    PlainStep(cfg, w, step, ask);
    hide Wanted, OutcomeOf, Cause, Next, Disputes, Update;
    var o := Update(w.db, ask.trade, ask.to, ask.meta, step.tick);
    if o.Applied? && ask.to == Dispute {
      AppliedIsThere(w.db, ask, step.tick);
      var t := w.db.trades[ask.trade];
      WantsIffCaused(cfg, w, step, ask.trade, t, Dispute);
      DisputesWhen(cfg, w, step, ask.trade, t);
      assert false;
    }
  }

  lemma DisputesWhen(cfg: Config, w: World, step: Step, id: string, t: Trade)
    requires RowIs(w.db, id, t) && Cause(cfg, w, step, id, t, Dispute) && OutcomeOf(cfg, w, step).Applied?
    ensures Disputes(cfg, w, step, id, t)
  {
    hide Cause, OutcomeOf;
  }

  lemma AppliedIsThere(s: Store, ask: Ask, tick: Tick)
    requires Update(s, ask.trade, ask.to, ask.meta, tick).Applied?
    ensures ask.trade in s.trades
  {
    hide Allowed, KeyOf, FitsRow, Posted, NoticeFits, Commit;
  }

  lemma UnaskedTickets(cfg: Config, w: World, step: Step)
    requires !step.Resolve? && Wanted(cfg, w, step).None?
    ensures Next(cfg, w, step).db.tickets == w.db.tickets
  {
    hide AskOf, MayAccept, CreationKey, NewTrade, Priced, UnitOf, PositivePrice, NextSales, NextAttempts, NextEvents;
  }

  lemma ResolvedTickets(cfg: Config, w: World, step: Step)
    requires step.Resolve?
    ensures Next(cfg, w, step).db.tickets == w.db.tickets
         || (!OutcomeOf(cfg, w, step).Refused? && TicketClosed(w.db.tickets, Next(cfg, w, step).db.tickets, step))
  {
    hide ResolutionAsk, Reopened, Update, Trim, NextSales, NextAttempts, NextEvents, Settle;
    if ResolveAsk(w.db, step.ticket, step.mode, step.note).Some? {
      var ask := ResolveAsk(w.db, step.ticket, step.mode, step.note).value;
      var ground := ResolveGround(w.db, step.ticket, step.mode, step.tick.now);
      ResolvedIs(w.db, step.ticket, step.mode.value, step.note, step.resolver, step.tick, ask);
      ReopenedFields(w.db, ask.trade, step.mode.value, step.tick.now);
      TicketsUpdated(ground, ask, step.tick);
    }
  }
}
