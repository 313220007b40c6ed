/** Deposits: one transaction backs one undisputed trade, and no deposit is confirmed without final evidence. */
module Deposits {
  import opened Wrappers
  import opened Text
  import opened Lifecycle
  import opened Ledger
  import opened Store
  import opened Steps
  import opened Asks
  import opened Sightings
  import opened Bookkeeping
  import opened Growth
  import opened Tickets
  import opened Disputed
  import DepositPolicy

  // ------------------------------------------------------------------ one transaction, one trade

  predicate SameHash(t: Trade, u: Trade) {
    t.txHash.Some? && u.txHash.Some? && Lower(t.txHash.value) == Lower(u.txHash.value)
  }

  /** Two different trades, neither ever disputed, do not hold the same transaction. */
  ghost predicate Apart(s: Store, a: string, b: string) {
    a in s.trades && b in s.trades && a != b && !WasDisputed(s, a) && !WasDisputed(s, b) ==> !SameHash(s.trades[a], s.trades[b])
  }

  /** No two different trades, neither ever disputed, hold the same transaction, ignoring case. */
  ghost predicate HashesApart(s: Store) {
    forall a <- s.trades, b <- s.trades :: Apart(s, a, b)
  }

  /** The hash a request records is on no trade, or already on the one it is for. */
  ghost predicate HashFree(s: Store, ask: Ask) {
    ask.to == Dispute || Given(ask.meta.txHash).None? ||
    (ask.trade in s.trades && HoldsHash(s.trades[ask.trade], Given(ask.meta.txHash).value)) ||
    (forall id <- s.trades :: !HoldsHash(s.trades[id], Given(ask.meta.txHash).value))
  }

  lemma CleanIsFree(cfg: Config, s: Store, seen: Sighting, holder: Option<string>, screens: bool, ask: Ask)
    requires ask.trade in s.trades && Clean(cfg, s, ask.trade, seen, holder, screens)
    requires Given(ask.meta.txHash) == Given(Some(seen.txHash))
    ensures HashFree(s, ask)
  {
    TrimTwice(seen.txHash);
    hide Trim, PolicyFor, Lower, Blocked, AddressesClash, NetworksClash;
  }

  lemma HashFreeWatch(cfg: Config, s: Store, trade: string, seen: Sighting, holder: Option<string>, now: int, ask: Ask)
    requires WatchCase(cfg, s, trade, seen, holder, now, ask)
    ensures HashFree(s, ask)
  {
    NoteHash("deposit_detected:", trade, seen.txHash, "");
    NoteHash("deposit_confirmed:", trade, seen.txHash, "");
    hide Clean, DepositDispute, DepositNote, ExpiryNote, HashFree, Insisted, BackfillNote;
    if reason :| ask == DepositDispute("deposit_dispute:", trade, seen.txHash, reason) {
      DisputeIsFree(s, "deposit_dispute:", trade, seen.txHash, reason);
    } else if ask == Ask(trade, Cancelled, ExpiryNote(trade)) {
      NoHashIsFree(s, ask);
    } else {
      CleanIsFree(cfg, s, seen, holder, true, ask);
    }
  }

  lemma NoteHash(prefix: string, trade: string, hash: string, reason: string)
    ensures Given(DepositNote(prefix, trade, hash).txHash) == Given(Some(hash))
    ensures Given(BackfillNote(prefix, trade, hash, reason).txHash) == Given(Some(hash))
    ensures ExpiryNote(trade).txHash.None?
  {
    TrimTwice(hash);
    hide Trim, Filed, Folded;
  }

  lemma DisputeIsFree(s: Store, prefix: string, trade: string, hash: string, reason: string)
    ensures HashFree(s, DepositDispute(prefix, trade, hash, reason))
  {
    DisputeIsProper(s, prefix, trade, hash, reason);
    hide DepositDispute;
  }

  lemma NoHashIsFree(s: Store, ask: Ask)
    requires ask.meta.txHash.None?
    ensures HashFree(s, ask)
  {
  }

  lemma HashFreeBackfill(cfg: Config, s: Store, trade: string, seen: Sighting, holder: Option<string>, ask: Ask)
    requires BackfillCase(cfg, s, trade, seen, holder, ask)
    ensures HashFree(s, ask)
  {
    NoteHash("backfill_deposit_detected:", trade, seen.txHash, "backfill detected deposit");
    NoteHash("backfill_deposit_confirmed:", trade, seen.txHash, "backfill confirmed deposit");
    hide Clean, DepositDispute, BackfillNote, HashFree, DepositNote, ExpiryNote;
    if reason :| ask == DepositDispute("backfill_dispute:", trade, seen.txHash, reason) {
      DisputeIsFree(s, "backfill_dispute:", trade, seen.txHash, reason);
    } else {
      CleanIsFree(cfg, s, seen, holder, false, ask);
    }
  }

  lemma WantedIsFree(cfg: Config, w: World, step: Step, ask: Ask)
    requires Wanted(cfg, w, step) == Some(ask)
    ensures HashFree(w.db, ask)
  {
    hide HashFree, WatchAsk, BackfillAsk, WatchCase, BackfillCase;
    if step.Watch? {
      WatchCases(cfg, w.db, step.trade, step.seen, step.holder, step.tick.now, ask);
      HashFreeWatch(cfg, w.db, step.trade, step.seen, step.holder, step.tick.now, ask);
    } else if step.Backfill? {
      BackfillCases(cfg, w.db, step.trade, step.seen, step.holder, ask);
      HashFreeBackfill(cfg, w.db, step.trade, step.seen, step.holder, ask);
    } else {
      OthersNameNoHash(cfg, w, step, ask);
      NoHashIsFree(w.db, ask);
    }
  }

  // No other request mentions a transaction.
  lemma OthersNameNoHash(cfg: Config, w: World, step: Step, ask: Ask)
    requires Wanted(cfg, w, step) == Some(ask) && !step.Watch? && !step.Backfill?
    ensures ask.meta.txHash.None?
  {
    hide AskOf, FirstNonBlank, Trim, ForcedRef, RetryStatus;
    if !step.Resolve? {
      AskIsProper(cfg, w, step, ask);
    }
  }

  // A free hash written on an undisputed trade meets no other undisputed trade's.
  lemma TouchedApart(s: Store, after: Store, a: string, b: string, ask: Ask)
    requires HashesApart(s) && a != b && Touched(s, after, a, Some(ask)) && Untouched(s, after, b) && HashFree(s, ask)
    ensures Apart(after, a, b) && Apart(after, b, a)
  {
    VisitedAppend(Past(s, a), Change(Some(s.trades[a].status), ask.to), Dispute);
    if Given(ask.meta.txHash).Some? {
      GivenIsTrimmed(ask.meta.txHash);
    }
    hide Past, Allowed, Given, Trim, Visited, Lower;
    assert Apart(s, a, b);
  }

  lemma GivenIsTrimmed(v: Option<string>)
    requires Given(v).Some?
    ensures Trim(Given(v).value) == Given(v).value != "" && Lower("") != Lower(Given(v).value)
  {
    TrimTwice(v.value);
    hide Trim;
    assert |Lower(Given(v).value)| > 0;
  }

  lemma NextApartOld(cfg: Config, w: World, step: Step, a: string, b: string)
    requires HashesApart(w.db) && a in w.db.trades && b in w.db.trades && a != b
    ensures Apart(Next(cfg, w, step).db, a, b)
  {
    StepAt(cfg, w, step, a);
    StepAt(cfg, w, step, b);
    var s, after, ask := w.db, Next(cfg, w, step).db, Wanted(cfg, w, step);
    if ask.Some? {
      WantedIsFree(cfg, w, step, ask.value);
    }
    hide Next, Wanted, HashFree, Apart, HashesApart, Given, Allowed, Past;
    if Untouched(s, after, a) && Untouched(s, after, b) {
      UntouchedApart(s, after, a, b);
    } else if Untouched(s, after, b) {
      TouchedApart(s, after, a, b, ask.value);
    } else if Untouched(s, after, a) {
      TouchedApart(s, after, b, a, ask.value);
    }
  }

  lemma UntouchedApart(s: Store, after: Store, a: string, b: string)
    requires HashesApart(s) && a != b && Untouched(s, after, a) && Untouched(s, after, b)
    ensures Apart(after, a, b)
  {
    hide Past, Visited, Lower;
    assert Apart(s, a, b);
  }

  lemma NextApart(cfg: Config, w: World, step: Step)
    requires HashesApart(w.db)
    ensures HashesApart(Next(cfg, w, step).db)
  {
    var after := Next(cfg, w, step).db;
    hide Next, Apart;
    forall a, b | a in after.trades && b in after.trades
      ensures Apart(after, a, b)
    {
      if a == b {
        NotTwo(after, a);
      } else if a in w.db.trades && b in w.db.trades {
        NextApartOld(cfg, w, step, a, b);
      } else {
        NewHasNoHash(cfg, w, step, a, b);
      }
    }
  }

  lemma NotTwo(s: Store, a: string)
    ensures Apart(s, a, a)
  {
  }

  lemma NewHasNoHash(cfg: Config, w: World, step: Step, a: string, b: string)
    requires a !in w.db.trades || b !in w.db.trades
    ensures Apart(Next(cfg, w, step).db, a, b)
  {
    hide Next, Past, Visited;
    var after := Next(cfg, w, step).db;
    if a in after.trades && a !in w.db.trades {
      BornAt(cfg, w, step, a);
    }
    if b in after.trades && b !in w.db.trades {
      BornAt(cfg, w, step, b);
    }
  }

  /** In any run mixing the watcher and the backfill scanner, no two different trades that were never disputed hold
      the same transaction hash, ignoring case, even though disputing a trade records the hash on it too. */
  lemma {:induction false} OneTradePerTransaction(cfg: Config, steps: seq<Step>)
    ensures HashesApart(Run(cfg, steps).db)
  {
    if steps != [] {
      var n := |steps| - 1;
      OneTradePerTransaction(cfg, steps[..n]);
      hide HashesApart, Next;
      NextApart(cfg, Run(cfg, steps[..n]), steps[n]);
    }
  }

  // ------------------------------------------------------------------ final evidence

  /** A sighting that makes a deposit final: found on the expected network and address, within tolerance, neither
      reversed nor replaced, and confirmed often enough for its currency and network. */
  predicate FinalSighting(cfg: Config, t: Trade, seen: Sighting) {
    var place := cfg.place(t.from, t.address);
    var policy := cfg.policy(t.from, place.0);
    && seen.found && !seen.reversed && !seen.replaced
    && NetworksAgree(cfg.network(seen.network), place.0) && AddressesAgree(seen.address, place.1)
    && t.fromAmount - policy.tolerance <= seen.amount <= t.fromAmount + policy.tolerance
    && seen.confirmations >= policy.finality
  }

  /** The wallet a deposit was seen at is not blocked. */
  predicate Unblocked(cfg: Config, t: Trade, seen: Sighting) {
    Unlisted(cfg, seen.address, cfg.place(t.from, t.address).1)
  }

  /** A step that shows a received deposit to be final; the watcher's also that its wallet is not blocked. */
  predicate Evidence(cfg: Config, s: Store, step: Step, id: string) {
    id in s.trades && s.trades[id].status == DepositReceived &&
    match step
    case Watch(trade, seen, holder, tick) =>
      trade == id && FinalSighting(cfg, s.trades[id], seen) && Unblocked(cfg, s.trades[id], seen)
    case Backfill(trade, seen, holder, tick) => trade == id && FinalSighting(cfg, s.trades[id], seen)
    case _ => false
  }

  lemma CleanIsFinal(cfg: Config, s: Store, trade: string, seen: Sighting, holder: Option<string>, screens: bool)
    requires trade in s.trades && Clean(cfg, s, trade, seen, holder, screens)
    requires seen.confirmations >= PolicyFor(cfg, s.trades[trade]).finality
    ensures FinalSighting(cfg, s.trades[trade], seen) && (screens ==> Unblocked(cfg, s.trades[trade], seen))
  {
    FaultlessIff(cfg, trade, s.trades[trade], seen, holder, screens);
    hide LookedUp, Trim, FaultOf, NetworksAgree, AddressesAgree, Unlisted;
  }

  /** Every policy the engine may apply is sane. */
  ghost predicate SanePolicies(cfg: Config) {
    forall c, network :: DepositPolicy.Sane(cfg.policy(c, network))
  }

  lemma PolicyIsSane(cfg: Config, t: Trade)
    requires SanePolicies(cfg)
    ensures DepositPolicy.Sane(PolicyFor(cfg, t))
  {
  }

  lemma WatchEvidence(cfg: Config, s: Store, trade: string, seen: Sighting, holder: Option<string>, tick: Tick, ask: Ask)
    requires SanePolicies(cfg) && WatchCase(cfg, s, trade, seen, holder, tick.now, ask) && ask.to == DepositConfirmed
    ensures Evidence(cfg, s, Watch(trade, seen, holder, tick), trade) && ask.trade == trade
  {
    hide Clean, DepositNote, ExpiryNote, FinalSighting, Unblocked, SanePolicies, PolicyFor, FallbackConfirmations, DepositDispute;
    PolicyIsSane(cfg, s.trades[trade]);
    NotADispute(s, "deposit_dispute:", trade, seen.txHash, ask);
    CleanIsFinal(cfg, s, trade, seen, holder, true);
  }

  lemma NotADispute(s: Store, prefix: string, trade: string, hash: string, ask: Ask)
    requires ask.to == DepositConfirmed
    ensures !exists reason :: ask == DepositDispute(prefix, trade, hash, reason)
  {
    hide DepositDispute;
    forall reason: string
      ensures ask != DepositDispute(prefix, trade, hash, reason)
    {
      DisputeIsProper(s, prefix, trade, hash, reason);
    }
  }

  lemma BackfillEvidence(cfg: Config, s: Store, trade: string, seen: Sighting, holder: Option<string>, tick: Tick, ask: Ask)
    requires BackfillCase(cfg, s, trade, seen, holder, ask) && ask.to == DepositConfirmed
    ensures Evidence(cfg, s, Backfill(trade, seen, holder, tick), trade) && ask.trade == trade
  {
    hide Clean, BackfillNote, FinalSighting, PolicyFor, DepositDispute;
    NotADispute(s, "backfill_dispute:", trade, seen.txHash, ask);
    CleanIsFinal(cfg, s, trade, seen, holder, false);
  }

  lemma ConfirmingAsk(cfg: Config, w: World, step: Step, ask: Ask)
    requires SanePolicies(cfg) && AskOf(cfg, w, step) == Some(ask) && ask.to == DepositConfirmed
    ensures Evidence(cfg, w.db, step, ask.trade)
  {
    AskIsProper(cfg, w, step, ask);
    hide WatchAsk, BackfillAsk, WatchCase, BackfillCase, Evidence, SanePolicies, Proper;
    if step.Watch? {
      WatchCases(cfg, w.db, step.trade, step.seen, step.holder, step.tick.now, ask);
      WatchEvidence(cfg, w.db, step.trade, step.seen, step.holder, step.tick, ask);
    } else if step.Backfill? {
      BackfillCases(cfg, w.db, step.trade, step.seen, step.holder, ask);
      BackfillEvidence(cfg, w.db, step.trade, step.seen, step.holder, step.tick, ask);
    } else {
      hide AskOf;
    }
  }

  /** An admin's retry of a dispute over a trade with no order recorded. */
  predicate UnsoldRetry(s: Store, step: Step, id: string) {
    step.Resolve? && step.mode == Some(RetryProcessing) && MayResolve(s, step.ticket, step.mode)
    && About(s, step.ticket, id) && s.trades[id].orderId.None?
  }

  /** With sane policies a trade comes to DEPOSIT_CONFIRMED only by final evidence of its deposit, or by an admin's
      retry of a dispute over a trade with no order recorded. */
  lemma ConfirmedOnlyOnEvidence(cfg: Config, w: World, step: Step, id: string)
    requires SanePolicies(cfg) && id in w.db.trades
    requires !InStatus(w.db, id, DepositConfirmed) && InStatus(Next(cfg, w, step).db, id, DepositConfirmed)
    ensures Evidence(cfg, w.db, step, id) || UnsoldRetry(w.db, step, id)
  {
    StepAt(cfg, w, step, id);
    ConfirmingStep(cfg, w, step, id, Wanted(cfg, w, step).value);
  }

  lemma ConfirmingStep(cfg: Config, w: World, step: Step, id: string, ask: Ask)
    requires SanePolicies(cfg) && Wanted(cfg, w, step) == Some(ask) && ask.trade == id && ask.to == DepositConfirmed
    ensures Evidence(cfg, w.db, step, id) || UnsoldRetry(w.db, step, id)
  {
    hide Evidence, SanePolicies, AskOf, FirstNonBlank, Trim, ForcedRef;
    if !step.Resolve? {
      ConfirmingAsk(cfg, w, step, ask);
    }
  }

  /** A step of the run showed the trade's deposit to be final. */
  ghost predicate ProvenBy(cfg: Config, steps: seq<Step>, id: string, i: int) {
    0 <= i < |steps| && Evidence(cfg, After(cfg, steps, i).db, steps[i], id)
  }

  /** Some step of the run did. */
  ghost predicate Proven(cfg: Config, steps: seq<Step>, id: string) {
    exists i :: ProvenBy(cfg, steps, id, i)
  }

  lemma ProvenStays(cfg: Config, steps: seq<Step>, id: string)
    requires Proven(cfg, Upto(steps, |steps| - 1), id)
    ensures Proven(cfg, steps, id)
  {
    hide Run, Evidence;
    var before := Upto(steps, |steps| - 1);
    var i :| ProvenBy(cfg, before, id, i);
    assert Upto(before, i) == Upto(steps, i);
    assert ProvenBy(cfg, steps, id, i);
  }

  /** A trade that was confirmed and never disputed. */
  predicate ConfirmedClean(s: Store, id: string) {
    id in s.trades && Visited(Past(s, id), DepositConfirmed) && !WasDisputed(s, id)
  }

  /** A trade that was never disputed and has been confirmed, and so every one that has been paid out, had its
      deposit shown final by some step of the run. */
  lemma {:induction false} ConfirmedMeansProven(cfg: Config, steps: seq<Step>, id: string)
    requires SanePolicies(cfg) && ConfirmedClean(Run(cfg, steps).db, id)
    ensures Proven(cfg, steps, id)
  {
    assert steps != [];
    var n := |steps| - 1;
    var w := Run(cfg, steps[..n]);
    RunIsRecorded(cfg, steps[..n]);
    RunTickets(cfg, steps[..n]);
    assert Upto(steps, n) == steps[..n] && After(cfg, steps, n) == w;
    RunLast(cfg, steps);
    hide Run, Next, ConfirmedClean, Evidence;
    NewlyConfirmed(cfg, w, steps[n], id);
    if ConfirmedClean(w.db, id) {
      ConfirmedMeansProven(cfg, steps[..n], id);
      ProvenStays(cfg, steps, id);
    } else {
      assert ProvenBy(cfg, steps, id, n);
    }
  }

  lemma NewlyConfirmed(cfg: Config, w: World, step: Step, id: string)
    requires SanePolicies(cfg) && Recorded(w.db) && TicketsOfDisputed(w.db) && ConfirmedClean(Next(cfg, w, step).db, id)
    ensures ConfirmedClean(w.db, id) || Evidence(cfg, w.db, step, id)
  {
    var s, after := w.db, Next(cfg, w, step).db;
    hide Next, Later, Evidence, SanePolicies, Wanted, MayResolve, Given, Allowed;
    NextGrows(cfg, w, step);
    if WasDisputed(s, id) {
      DisputedStays(s, after, id);
    }
    if id !in s.trades {
      BornAt(cfg, w, step, id);
      assert false;
    } else {
      hide Visited, Past;
      StepAt(cfg, w, step, id);
      if !ConfirmedClean(s, id) {
        var ask := Wanted(cfg, w, step).value;
        VisitedAppend(Past(s, id), Change(Some(s.trades[id].status), ask.to), DepositConfirmed);
        ConfirmingStep(cfg, w, step, id, ask);
        TicketsAreDisputes(s, step, id);
      }
    }
  }

  lemma TicketsAreDisputes(s: Store, step: Step, id: string)
    requires TicketsOfDisputed(s) && !WasDisputed(s, id)
    ensures !UnsoldRetry(s, step, id)
  {
    hide WasDisputed;
  }
}
