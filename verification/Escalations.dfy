/** Sales that fail for good: when the conversion worker's escalation puts a trade into dispute, and when it is
    swallowed because the trade was escalated before. */
module Escalations {
  import opened Wrappers
  import opened Text
  import opened Lifecycle
  import opened Ledger
  import opened Store
  import opened Steps
  import opened Asks
  import opened LedgerKeys
  import opened LedgerRuns
  import opened ExactlyOnce
  import opened Changes
  import opened Sales
  import opened Purposes
  import opened Refusals
  import opened Guards
  import Causes

  /** The worker gives up on selling a trade: the sale is hopeless, or it failed for the sixth time. */
  predicate GivesUp(w: World, id: string, answer: SaleAnswer) {
    ForSale(w.db, id) && (answer.Hopeless? || (answer.TryAgain? && Attempts(w, id) + 1 >= MAX_ATTEMPTS))
  }

  function WayOut(answer: SaleAnswer): Purpose {
    if answer.Hopeless? then SaleHopeless else RetriesExhausted
  }

  /** The key all escalations of a trade for one purpose are filed under. */
  function EscalationKey(id: string, p: Purpose): OpKey {
    KeyOf(id, Dispute, BLANK.(key := Some(Head(p) + id)))
  }

  // ------------------------------------------------------------------ one escalation

  /** What the worker asks for when it gives up on a trade. */
  predicate EscalationAsk(w: World, id: string, answer: SaleAnswer, ask: Ask) {
    && SellAsk(w, id, answer) == Some(ask) && ask.trade == id && ask.to == Dispute && InStatus(w.db, id, DepositConfirmed)
    && Escalating(ask.meta, id, WayOut(answer))
  }

  /** Metadata filed under a trade's escalation key that stores no text. */
  predicate Escalating(m: Metadata, id: string, p: Purpose) {
    m == BLANK.(key := Some(Head(p) + id), reason := m.reason)
  }

  lemma EscalationForm(w: World, id: string, answer: SaleAnswer)
    requires GivesUp(w, id, answer)
    ensures exists ask :: EscalationAsk(w, id, answer, ask)
  {
    hide Trim;
    assert EscalationAsk(w, id, answer, SellAsk(w, id, answer).value);
  }

  lemma EscalationFiled(id: string, m: Metadata, p: Purpose)
    requires Escalating(m, id, p) && UuidText(id)
    ensures KeyAsked(Ask(id, Dispute, m)) == EscalationKey(id, p)
  {
    hide OperationKey, NormalizeKey, UuidText, Head, KeyText, IsSpace, KeyOf;
    LongHead(p, id);
    var head := Head(p) + id;
    assert head + "" == head;
    NormalizeKeepsHead(head, "");
    SameExplicitKey(id, Dispute, m, BLANK.(key := Some(head)));
  }

  // A key made of a head and a trade leaves room for a dispute's row keys.
  lemma EscalationFits(id: string, m: Metadata, p: Purpose)
    requires UuidText(id) && Escalating(m, id, p)
    ensures !TooLong(OperationKey(id, Dispute, m), DisputeAdjustment)
  {
    KindLengths();
    CreditLength();
    hide UuidText, Head, NormalizeKey, KeyText, IsSpace, Trim, Kind.KeyText, Direction.KeyText, OperationKey;
    LongHead(p, id);
    var raw := Head(p) + id;
    TrimIs(raw);
    NormalLength(raw);
    assert raw + "" == raw;
    NormalizeKeepsHead(raw, "");
    ExplicitKey(id, Dispute, m, raw);
  }

  lemma EscalationPermitted(m: Metadata, id: string, p: Purpose)
    requires Escalating(m, id, p)
    ensures Allowed(DepositConfirmed, Dispute) && FitsRow(m)
  {
    hide Head;
  }

  lemma EscalationNotRefused(s: Store, id: string, m: Metadata, p: Purpose, tick: Tick)
    requires Fine(s, id) && InStatus(s, id, DepositConfirmed) && Escalating(m, id, p)
    ensures !Update(s, id, Dispute, m, tick).Refused?
  {
    EscalationPermitted(m, id, p);
    assert MainKind(Dispute) == DisputeAdjustment;
    hide Sound, UuidText, KeyOf, FitsRow, Allowed, Update, OperationKey, TooLong, NoticeLong, Owes, Escalating, MainKind;
    EscalationFits(id, m, p);
    QuietNotice(s, id, Dispute, m);
    if Ready(s, id, Dispute, m) {
      RefusedIff(s, id, Dispute, m, tick);
    } else {
      UsedIsDuplicate(s, id, Dispute, m, tick);
    }
  }

  lemma UsedIsDuplicate(s: Store, id: string, to: Status, m: Metadata, tick: Tick)
    requires id in s.trades && Allowed(s.trades[id].status, to) && KeyOf(id, to, m) in s.keys
    ensures Update(s, id, to, m, tick) == Duplicate
  {
    hide KeyOf, FitsRow, Posted, Commit, NoticeFits, Allowed;
  }

  /** A trade put into dispute if the key was new, and no table changed otherwise. */
  predicate EscalationEnds(s: Store, after: Store, id: string, isNew: bool) {
    && id in after.trades && (after.trades[id].status == Dispute <==> isNew)
    && (!isNew ==> after == s && ForSale(after, id))
  }

  // An update that is not refused moves the trade exactly when its key is new, and otherwise does nothing.
  lemma MovesOrNothing(s: Store, ask: Ask, tick: Tick)
    requires !Update(s, ask.trade, ask.to, ask.meta, tick).Refused? && InStatus(s, ask.trade, DepositConfirmed) && ask.to == Dispute
    ensures Update(s, ask.trade, ask.to, ask.meta, tick).Applied? <==> KeyAsked(ask) !in s.keys
    ensures EscalationEnds(s, Settle(s, Update(s, ask.trade, ask.to, ask.meta, tick)), ask.trade, KeyAsked(ask) !in s.keys)
  {
    hide KeyOf, FitsRow, Posted, Allowed, Past, WithTicket, Note, Given, NoticeFits;
  }

  /** When the worker gives up on a trade it is never refused: the trade goes into dispute if and only if the trade was
      never escalated under that key before, and otherwise no table changes and the trade stays up for sale. */
  lemma EscalationDisputes(cfg: Config, w: World, id: string, answer: SaleAnswer, tick: Tick)
    requires Healthy(w.db) && GivesUp(w, id, answer)
    ensures !OutcomeOf(cfg, w, Sell(id, answer, tick)).Refused?
    ensures OutcomeOf(cfg, w, Sell(id, answer, tick)).Applied? <==> EscalationKey(id, WayOut(answer)) !in w.db.keys
    ensures EscalationEnds(w.db, Next(cfg, w, Sell(id, answer, tick)).db, id, EscalationKey(id, WayOut(answer)) !in w.db.keys)
  {
    hide *;
    EscalationForm(w, id, answer);
    var ask :| EscalationAsk(w, id, answer, ask);
    EscalationMeans(w, id, answer, ask);
    HealthyIsFine(w.db, id);
    FineTrade(w.db, id);
    SellingAsks(cfg, w, id, answer, tick);
    AskingStep(cfg, w, Sell(id, answer, tick), ask);
    EscalationFiled(id, ask.meta, WayOut(answer));
    EscalationNotRefused(w.db, id, ask.meta, WayOut(answer), tick);
    MovesOrNothing(w.db, ask, tick);
  }

  /** Failed attempts remembered after one more: none once an order is filled or the worker gives up, as it does on the sixth
      failure in a row. */
  function Remembered(answer: SaleAnswer, failed: nat): nat {
    if answer.TryAgain? && failed < 5 then failed + 1 else 0
  }

  /** A recovery of the trade's sale that goes through or has gone through before. */
  predicate Recovers(cfg: Config, w: World, step: Step, id: string) {
    && step.RecoverSale? && step.trade == id && InStatus(w.db, id, ConversionInProgress)
    && step.tick.now >= w.db.trades[id].updatedAt + 600 && !OutcomeOf(cfg, w, step).Refused?
  }

  predicate Tries(s: Store, step: Step, id: string) {
    step.Sell? && step.trade == id && InStatus(s, id, DepositConfirmed)
  }

  /** How many failed attempts are remembered of a trade: attempts count, successes and giving up forget them, a recovery
      forgets them, and nothing else touches the count. */
  lemma AttemptsMove(cfg: Config, w: World, step: Step, id: string)
    requires Healthy(w.db)
    ensures Attempts(Next(cfg, w, step), id)
         == if Tries(w.db, step, id) then Remembered(step.answer, Attempts(w, id))
            else if Recovers(cfg, w, step, id) then 0 else Attempts(w, id)
  {
    hide *;
    if Tries(w.db, step, id) {
      TriesStep(w.db, step, id);
      AfterTry(cfg, w, id, step.answer, step.tick);
    } else if step.RecoverSale? {
      AfterRecovery(cfg, w, step, id);
    } else {
      AttemptsElse(cfg, w, step, id);
    }
  }

  lemma TriesStep(s: Store, step: Step, id: string)
    requires Tries(s, step, id)
    ensures step == Sell(id, step.answer, step.tick) && ForSale(s, id)
  {
  }

  lemma AfterTry(cfg: Config, w: World, id: string, answer: SaleAnswer, tick: Tick)
    requires Healthy(w.db) && ForSale(w.db, id)
    ensures Attempts(Next(cfg, w, Sell(id, answer, tick)), id) == Remembered(answer, Attempts(w, id))
  {
    hide NextDb, NextSales, NextEvents, OutcomeOf, Healthy, EscalationEnds, EscalationKey;
    if GivesUp(w, id, answer) {
      EscalationDisputes(cfg, w, id, answer, tick);
    }
  }

  lemma AfterRecovery(cfg: Config, w: World, step: Step, id: string)
    requires step.RecoverSale?
    ensures Attempts(Next(cfg, w, step), id) == if Recovers(cfg, w, step, id) then 0 else Attempts(w, id)
  {
    hide NextDb, NextSales, NextEvents, OutcomeOf, AskOf;
    RecoveryAsked(cfg, w, step);
  }

  lemma RecoveryAsked(cfg: Config, w: World, step: Step)
    requires step.RecoverSale?
    ensures AskOf(cfg, w, step).Some? <==>
              InStatus(w.db, step.trade, ConversionInProgress) && step.tick.now >= w.db.trades[step.trade].updatedAt + 600
  {
    Causes.RecoverTo(w.db, step.trade, step.tick.now);
    hide RecoverAsk;
  }

  lemma AttemptsElse(cfg: Config, w: World, step: Step, id: string)
    requires !Tries(w.db, step, id) && !step.RecoverSale?
    ensures Attempts(Next(cfg, w, step), id) == Attempts(w, id) && !Recovers(cfg, w, step, id)
  {
    hide NextDb, NextSales, NextEvents, OutcomeOf;
  }

  lemma EscalationMeans(w: World, id: string, answer: SaleAnswer, ask: Ask)
    requires EscalationAsk(w, id, answer, ask)
    ensures ask == Ask(id, Dispute, ask.meta) && Escalating(ask.meta, id, WayOut(answer))
    ensures SellAsk(w, id, answer) == Some(ask) && InStatus(w.db, id, DepositConfirmed) && id in w.db.trades
  {
    hide SellAsk, Escalating, WayOut;
  }

  lemma FineTrade(s: Store, id: string)
    requires Fine(s, id)
    ensures UuidText(id)
  {
    hide Sound, UuidText;
  }

  lemma SellingAsks(cfg: Config, w: World, id: string, answer: SaleAnswer, tick: Tick)
    ensures AskOf(cfg, w, Sell(id, answer, tick)) == SellAsk(w, id, answer)
  {
    hide SellAsk;
  }

  /** Six failures in a row: the first five change no table and are counted, and the sixth puts the trade into dispute if
      and only if its attempts were never exhausted before. */
  lemma SixthFailureDisputesIff(cfg: Config, w: World, id: string, tries: seq<(string, Tick)>, last: string, end: Tick)
    requires Healthy(w.db) && ForSale(w.db, id) && Attempts(w, id) == 0 && |tries| == 5
    ensures var v := RunFrom(cfg, w, FailedSales(id, tries));
            && v.db == w.db
            && EscalationEnds(w.db, Next(cfg, v, Sell(id, TryAgain(last), end)).db, id, EscalationKey(id, RetriesExhausted) !in w.db.keys)
  {
    hide RunFrom, Next, EscalationKey, Healthy, EscalationEnds, OutcomeOf;
    FailuresAreCounted(cfg, w, id, tries);
    EscalationDisputes(cfg, RunFrom(cfg, w, FailedSales(id, tries)), id, TryAgain(last), end);
  }

  // ------------------------------------------------------------------ over runs

  /** A step by which the worker gives up on a trade for a reason. */
  predicate Escalates(step: Step, id: string, p: Purpose) {
    step.Sell? && step.trade == id && !step.answer.Sold? && WayOut(step.answer) == p
  }

  /** Some step of a run escalated the trade and was carried out. */
  ghost predicate Escalated(cfg: Config, steps: seq<Step>, id: string, p: Purpose) {
    steps != [] &&
      var n := |steps| - 1;
      Escalated(cfg, steps[..n], id, p) || (Escalates(steps[n], id, p) && Made(cfg, Run(cfg, steps[..n]), steps[n]).Some?)
  }

  // Only an escalation of the trade is filed under its escalation key.
  lemma EscalationFiles(cfg: Config, w: World, step: Step, id: string, p: Purpose, ask: Ask)
    requires NoResale(w.db) && UuidText(id) && (p == SaleHopeless || p == RetriesExhausted) && Made(cfg, w, step) == Some(ask)
    ensures KeyAsked(ask) == EscalationKey(id, p) <==> Escalates(step, id, p)
  {
    MadeIsStored(cfg, w, step, ask);
    MadeIsWanted(cfg, w, step, ask);
    hide Made, UuidText, Stored, EscalationKey, NoResale, KeyAsked, Wanted, ForItsPurpose, Escalates;
    EscalationStored(id, p);
    WantedEscalation(cfg, w, step, ask);
    if KeyAsked(ask) == EscalationKey(id, p) {
      StoredTells(KeyAsked(ask), PurposeOf(step, ask.to), ask.trade, p, id);
    }
  }

  // An escalation is filed under its key, and nothing else has its purpose.
  lemma WantedEscalation(cfg: Config, w: World, step: Step, ask: Ask)
    requires Wanted(cfg, w, step) == Some(ask) && UuidText(ask.trade)
    ensures forall id, p :: Escalates(step, id, p) ==> ask.trade == id && KeyAsked(ask) == EscalationKey(id, p)
    ensures forall p :: p == SaleHopeless || p == RetriesExhausted ==> PurposeOf(step, ask.to) == p ==> Escalates(step, ask.trade, p)
  {
    EscalationPurpose(step, ask.to);
    hide UuidText, EscalationKey, KeyAsked, PurposeOf, SellAsk, ResolveAsk;
    if step.Sell? && !step.answer.Sold? {
      SellAskWhen(w, step.trade, step.answer);
      EscalationForm(w, step.trade, step.answer);
      var other :| EscalationAsk(w, step.trade, step.answer, other);
      hide Escalating, WayOut;
      EscalationFiled(step.trade, ask.meta, WayOut(step.answer));
    }
  }

  lemma EscalationPurpose(step: Step, to: Status)
    ensures var p := PurposeOf(step, to);
            p == SaleHopeless || p == RetriesExhausted ==> step.Sell? && !step.answer.Sold? && WayOut(step.answer) == p
  {
  }

  lemma EscalationStored(id: string, p: Purpose)
    requires UuidText(id) && (p == SaleHopeless || p == RetriesExhausted)
    ensures Stored(EscalationKey(id, p), p, id)
  {
    var ask := Ask(id, Dispute, BLANK.(key := Some(Head(p) + id)));
    hide Head, UuidText, KeyOf, Stored;
    NamedIsFor(ask, p);
    StoredUnder(ask, p);
  }

  lemma FilesOneMore(cfg: Config, w: World, step: Step, id: string, p: Purpose)
    requires NoResale(w.db) && UuidText(id) && (p == SaleHopeless || p == RetriesExhausted)
    ensures EscalationKey(id, p) in Next(cfg, w, step).db.keys
       <==> EscalationKey(id, p) in w.db.keys || (Escalates(step, id, p) && Made(cfg, w, step).Some?)
  {
    EscalationScope(id, p);
    hide *;
    if Made(cfg, w, step).Some? {
      var ask := Made(cfg, w, step).value;
      WhenMade(cfg, w, step, ask);
      MadeKeys(w.db, Ground(w, step), Next(cfg, w, step).db, ask, step.tick);
      EscalationFiles(cfg, w, step, id, p, ask);
    } else {
      WhenNotMade(cfg, w, step);
      QuietKeys(w.db, Next(cfg, w, step).db, EscalationKey(id, p));
    }
  }

  lemma EscalationScope(id: string, p: Purpose)
    ensures EscalationKey(id, p).scope.StatusChange?
  {
    hide OperationKey, Head;
  }

  /** A trade's escalation key is reserved exactly when an earlier step of the run escalated the trade. */
  lemma {:induction false} FiledWhenEscalated(cfg: Config, steps: seq<Step>, id: string, p: Purpose)
    requires Uuids(cfg) && UuidText(id) && (p == SaleHopeless || p == RetriesExhausted)
    ensures EscalationKey(id, p) in Run(cfg, steps).db.keys <==> Escalated(cfg, steps, id, p)
  {
    hide EscalationKey, Next, Escalates, Made, UuidText, Uuids, NoResale;
    if steps != [] {
      var n := |steps| - 1;
      FiledWhenEscalated(cfg, steps[..n], id, p);
      RunNoResale(cfg, steps[..n]);
      FilesOneMore(cfg, Run(cfg, steps[..n]), steps[n], id, p);
    }
  }

  /** A sale is escalated once in a trade's life for each of the two reasons: in any run, when the worker gives up on a
      trade, the trade goes into dispute if and only if no earlier step escalated it for the same reason; otherwise
      nothing changes, and a trade sent back by an admin's retry stays up for sale. */
  lemma EscalatesOnce(cfg: Config, steps: seq<Step>, id: string, answer: SaleAnswer, tick: Tick)
    requires Uuids(cfg) && GivesUp(Run(cfg, steps), id, answer)
    ensures EscalationEnds(Run(cfg, steps).db, Next(cfg, Run(cfg, steps), Sell(id, answer, tick)).db, id, !Escalated(cfg, steps, id, WayOut(answer)))
  {
    RunIsHealthy(cfg, steps);
    assert id in Run(cfg, steps).db.trades;
    hide Run, Next, EscalationKey, Escalated, Sound, NoResale, UuidText, GivesUp, OutcomeOf, EscalationEnds;
    HealthyIsFine(Run(cfg, steps).db, id);
    EscalationDisputes(cfg, Run(cfg, steps), id, answer, tick);
    FiledWhenEscalated(cfg, steps, id, WayOut(answer));
  }
}
