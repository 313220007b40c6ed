/** The ledger over whole runs whose transactions come one after the other: how far every balance read back is from the
    account's debits minus its credits, and exactly when it is not off at all. */
module LedgerClock {
  import opened Wrappers
  import opened Lifecycle
  import opened Ledger
  import opened Store
  import opened Steps
  import opened Asks
  import opened Growth
  import opened ExactlyOnce
  import opened Changes
  import opened LedgerRuns
  import opened LedgerReading
  import opened Quotes

  /** Steps that may write to the ledger. */
  predicate MayPost(step: Step) {
    !(step.Offer? || step.Lapse? || step.Accept? || (step.Sell? && step.answer.Sold?))
  }

  /** Transactions that may write to the ledger begin one after the other. */
  ghost predicate Clocked(steps: seq<Step>) {
    forall i, j :: 0 <= i < j < |steps| && MayPost(steps[i]) && MayPost(steps[j]) ==> steps[i].tick.now < steps[j].tick.now
  }

  /** The fee of the conversion a step makes, if it makes one. */
  function FeeTaken(cfg: Config, w: World, step: Step): int {
    var ask := Made(cfg, w, step);
    if ask.Some? && ask.value.to == ConversionCompleted && ask.value.trade in w.db.trades then w.db.trades[ask.value.trade].fee else 0
  }

  /** Unless the step takes a fee, its rows' identifiers do not matter; if it does, the fee's credit row has drawn a
      larger one than the proceeds' debit row. */
  predicate DrawnInOrder(cfg: Config, w: World, step: Step) {
    FeeTaken(cfg, w, step) > 0 ==> step.tick.Id(5) > step.tick.Id(2)
  }

  ghost predicate AllDrawnInOrder(cfg: Config, steps: seq<Step>) {
    steps != [] ==>
      var n := |steps| - 1;
      AllDrawnInOrder(cfg, steps[..n]) && DrawnInOrder(cfg, Run(cfg, steps[..n]), steps[n])
  }

  /** The fees of a run's conversions whose rows drew the other order. */
  function UnreadFees(cfg: Config, steps: seq<Step>): int {
    if steps == [] then 0
    else
      var n := |steps| - 1; var w := Run(cfg, steps[..n]);
      UnreadFees(cfg, steps[..n]) + if steps[n].tick.Id(5) > steps[n].tick.Id(2) then 0 else FeeTaken(cfg, w, steps[n])
  }

  // ------------------------------------------------------------------ one step

  lemma WantedIsPlain(cfg: Config, w: World, step: Step, ask: Ask)
    requires Wanted(cfg, w, step) == Some(ask)
    ensures ask.meta.fxSpread == 0 && ask.meta.expressFee == 0 && (ask.meta.skipLedger ==> ask.to == Dispute)
    ensures MayPost(step) || ask.to == ConversionInProgress
  {
    hide AskOf, Text.FirstNonBlank, Text.Trim, ForcedRef, RetryStatus;
    if !step.Resolve? {
      AskIsProper(cfg, w, step, ask);
      AskingPosts(cfg, w, step, ask);
    }
  }

  lemma AskingPosts(cfg: Config, w: World, step: Step, ask: Ask)
    requires AskOf(cfg, w, step) == Some(ask)
    ensures MayPost(step) || ask.to == ConversionInProgress
  {
    hide WatchAsk, BackfillAsk, SellAsk, EndSaleAsk, RecoverAsk, StartPayoutAsk, PollPayoutAsk, WebhookAsk, RaiseAsk;
    if step.Sell? {
      SellAskWhen(w, step.trade, step.answer);
    }
  }

  /** The terms every trade has from its quote. */
  predicate Terms(t: Trade) {
    t.from != t.to == NGN && t.fee >= 0 && t.toExpected >= 0
  }

  lemma TradeTerms(s: Store, id: string, t: Trade)
    requires Quoted(s) && RowIs(s, id, t)
    ensures Terms(t)
  {
    hide ProceedsRight;
    assert Backed(s, t) && FairQuote(s.quotes[t.quote]);
  }

  // A change to another status that posts, posts once.
  predicate PostsOnce(ps: seq<Posting>) {
    |ps| == 1 && ps[0].debit != ps[0].credit
  }

  lemma OnePosting(t: Trade, to: Status, m: Metadata)
    requires to in {DepositConfirmed, PayoutCompleted, PayoutFailed, Dispute}
    ensures PostsOnce(PostingsFor(t, to, m))
  {
    hide ResolvePayoutAmount, DisputeAmount;
  }

  lemma NoPosting(t: Trade, to: Status, m: Metadata)
    requires to !in {DepositConfirmed, ConversionCompleted, PayoutCompleted, PayoutFailed, Dispute}
    ensures PostingsFor(t, to, m) == []
  {
  }

  /** Rows read after a transaction: off by its fee more if the draw was wrong, and in order if they were and it was right. */
  ghost predicate ReadOn(rows: seq<Entry>, after: seq<Entry>, off: int, fee: int, tick: Tick) {
    && ReadsOff(after, off + if tick.Id(5) > tick.Id(2) then 0 else fee)
    && (InOrder(after) <==> InOrder(rows) && (fee > 0 ==> tick.Id(5) > tick.Id(2)))
  }

  function FeeOf(t: Trade, to: Status): int {
    if to == ConversionCompleted then t.fee else 0
  }

  // What a change's postings do to the balances read back.
  lemma ChangeReads(rows: seq<Entry>, trade: string, t: Trade, to: Status, m: Metadata, opKey: string, tick: Tick, off: int, done: seq<Entry>)
    requires ReadsOff(rows, off) && Older(rows, tick.now) && Terms(t) && m.fxSpread == 0 && m.expressFee == 0
    requires PostAll(rows, trade, PostingsFor(t, to, m), opKey, tick) == Ok(done)
    ensures ReadOn(rows, done, off, FeeOf(t, to), tick)
  {
    hide PostingsFor, ReadsOff, Older, InOrder, PostAll;
    if to == ConversionCompleted {
      FeeOrderDecides(rows, trade, t, m, opKey, tick, off);
    } else if to in {DepositConfirmed, PayoutCompleted, PayoutFailed, Dispute} {
      OnePosting(t, to, m);
      var ps := PostingsFor(t, to, m);
      assert ps == [ps[0]];
      SinglePosting(rows, trade, ps[0], opKey, tick, off);
    } else {
      NoPosting(t, to, m);
      EmptyPost(rows, trade, opKey, tick);
    }
  }

  lemma EmptyPost(rows: seq<Entry>, trade: string, opKey: string, tick: Tick)
    ensures PostAll(rows, trade, [], opKey, tick) == Ok(rows)
  {
  }

  lemma SameTerms(t: Trade, u: Trade, to: Status)
    requires SameDeal(t, u) && Terms(t)
    ensures Terms(u) && FeeOf(u, to) == FeeOf(t, to)
  {
  }

  lemma MakesReads(s: Store, ground: Store, after: Store, ask: Ask, tick: Tick, off: int, t: Trade)
    requires Makes(s, ground, after, ask, tick) && RowIs(s, ask.trade, t) && Terms(t) && ReadsOff(s.ledger, off)
    requires ask.meta.fxSpread == 0 && ask.meta.expressFee == 0 && (ask.meta.skipLedger ==> ask.to == Dispute)
    requires Older(s.ledger, tick.now) || ask.to == ConversionInProgress
    ensures ReadOn(s.ledger, after.ledger, off, FeeOf(t, ask.to), tick)
  {
    hide PostingsFor, ReadsOff, Older, InOrder, PostAll, OperationKey, KeyAsked, Allowed, SameDeal, Terms, Past, Written, Elsewhere;
    var u := ground.trades[ask.trade];
    SameTerms(t, u, ask.to);
    if !ask.meta.skipLedger {
      if ask.to == ConversionInProgress {
        NoPosting(u, ask.to, ask.meta);
        EmptyPost(s.ledger, ask.trade, OperationKey(ask.trade, ask.to, ask.meta), tick);
      } else {
        ChangeReads(s.ledger, ask.trade, u, ask.to, ask.meta, OperationKey(ask.trade, ask.to, ask.meta), tick, off, after.ledger);
      }
    }
  }

  /** One step, later than every row: balances stay as far off as they were, but for a fee taken whose rows drew the
      wrong order, and rows stay in sorting order but for the same. */
  lemma NextReads(cfg: Config, w: World, step: Step, off: int)
    requires Quoted(w.db) && ReadsOff(w.db.ledger, off) && (MayPost(step) ==> Older(w.db.ledger, step.tick.now))
    ensures ReadOn(w.db.ledger, Next(cfg, w, step).db.ledger, off, FeeTaken(cfg, w, step), step.tick)
  {
    hide Quoted, ReadsOff, Older, InOrder, Next, OutcomeOf, Wanted, Makes, Terms, MayPost, Kin;
    var made := Made(cfg, w, step);
    if made.Some? {
      var ask := made.value;
      WhenMade(cfg, w, step, ask);
      WantedIsPlain(cfg, w, step, ask);
      MakesOf(w.db, Ground(w, step), Next(cfg, w, step).db, ask, step.tick);
      TradeTerms(w.db, ask.trade, w.db.trades[ask.trade]);
      MakesReads(w.db, Ground(w, step), Next(cfg, w, step).db, ask, step.tick, off, w.db.trades[ask.trade]);
    } else {
      WhenNotMade(cfg, w, step);
    }
  }

  lemma MakesOf(s: Store, ground: Store, after: Store, ask: Ask, tick: Tick)
    requires Makes(s, ground, after, ask, tick)
    ensures ask.trade in s.trades
  {
    hide Posted, KeyAsked, SameDeal, Allowed, Past, Written, Elsewhere;
  }

  // ------------------------------------------------------------------ when rows were written

  /** A step of the run began then and may have written. */
  ghost predicate PostedThen(steps: seq<Step>, at: int) {
    exists i :: 0 <= i < |steps| && MayPost(steps[i]) && at == steps[i].tick.now
  }

  /** Every row was written by a step of the run. */
  ghost predicate RowsTimed(rows: seq<Entry>, steps: seq<Step>) {
    forall k :: 0 <= k < |rows| ==> PostedThen(steps, rows[k].at)
  }

  /** The last step, and those before it. */
  predicate LastIs(steps: seq<Step>, before: seq<Step>, step: Step) {
    steps == before + [step]
  }

  lemma TimedIsOlder(rows: seq<Entry>, steps: seq<Step>, before: seq<Step>, step: Step)
    requires LastIs(steps, before, step) && RowsTimed(rows, before) && Clocked(steps) && MayPost(step)
    ensures Older(rows, step.tick.now)
  {
    hide MayPost;
    forall k | 0 <= k < |rows|
      ensures rows[k].at < step.tick.now
    {
      assert PostedThen(before, rows[k].at);
      var i :| 0 <= i < |before| && MayPost(before[i]) && rows[k].at == before[i].tick.now;
      assert steps[i] == before[i] && steps[|before|] == step;
    }
  }

  /** Rows added at one time. */
  ghost predicate AddedAt(rows: seq<Entry>, after: seq<Entry>, now: int) {
    rows <= after && forall k :: |rows| <= k < |after| ==> after[k].at == now
  }

  lemma MakesTimes(s: Store, ground: Store, after: Store, ask: Ask, tick: Tick)
    requires Makes(s, ground, after, ask, tick)
    ensures AddedAt(s.ledger, after.ledger, tick.now) && (ask.to == ConversionInProgress ==> after.ledger == s.ledger)
  {
    hide PostAll, OperationKey, KeyAsked, SameDeal, Allowed, PostingsFor, Past, Written, Elsewhere;
    var t := ground.trades[ask.trade];
    if !ask.meta.skipLedger {
      PostAllAppends(s.ledger, ask.trade, PostingsFor(t, ask.to, ask.meta), OperationKey(ask.trade, ask.to, ask.meta), tick);
    }
    if ask.to == ConversionInProgress {
      NoPosting(t, ask.to, ask.meta);
      EmptyPost(s.ledger, ask.trade, OperationKey(ask.trade, ask.to, ask.meta), tick);
    }
  }

  lemma NextTimes(cfg: Config, w: World, step: Step)
    ensures AddedAt(w.db.ledger, Next(cfg, w, step).db.ledger, step.tick.now)
    ensures !MayPost(step) ==> Next(cfg, w, step).db.ledger == w.db.ledger
  {
    hide Next, OutcomeOf, Wanted, Makes, MayPost, Kin;
    var made := Made(cfg, w, step);
    if made.Some? {
      WhenMade(cfg, w, step, made.value);
      WantedIsPlain(cfg, w, step, made.value);
      MakesTimes(w.db, Ground(w, step), Next(cfg, w, step).db, made.value, step.tick);
    } else {
      WhenNotMade(cfg, w, step);
    }
  }

  lemma TimedMore(rows: seq<Entry>, after: seq<Entry>, steps: seq<Step>, before: seq<Step>, step: Step)
    requires LastIs(steps, before, step) && RowsTimed(rows, before) && AddedAt(rows, after, step.tick.now) && (!MayPost(step) ==> after == rows)
    ensures RowsTimed(after, steps)
  {
    hide MayPost;
    forall k | 0 <= k < |after|
      ensures PostedThen(steps, after[k].at)
    {
      if k < |rows| {
        assert PostedThen(before, rows[k].at);
        var i :| 0 <= i < |before| && MayPost(before[i]) && rows[k].at == before[i].tick.now;
        assert steps[i] == before[i];
      } else {
        assert steps[|before|] == step;
      }
    }
  }

  // ------------------------------------------------------------------ runs

  /** What a run's balances read: off by its unread fees, and in order if and only if every draw was. */
  ghost predicate ReadsAs(cfg: Config, steps: seq<Step>) {
    var rows := Run(cfg, steps).db.ledger;
    ReadsOff(rows, UnreadFees(cfg, steps)) && RowsTimed(rows, steps) && (InOrder(rows) <==> AllDrawnInOrder(cfg, steps))
  }

  lemma NothingRead(cfg: Config)
    ensures ReadsAs(cfg, [])
  {
    hide DrawnInOrder;
  }

  lemma ClockedBefore(steps: seq<Step>, before: seq<Step>, step: Step)
    requires Clocked(steps) && LastIs(steps, before, step)
    ensures Clocked(before)
  {
    hide MayPost;
    forall i, j | 0 <= i < j < |before| && MayPost(before[i]) && MayPost(before[j])
      ensures before[i].tick.now < before[j].tick.now
    {
      assert steps[i] == before[i] && steps[j] == before[j];
    }
  }

  lemma ReadsOneMore(cfg: Config, steps: seq<Step>, before: seq<Step>, step: Step)
    requires Clocked(steps) && LastIs(steps, before, step) && Quoted(Run(cfg, before).db) && ReadsAs(cfg, before)
    ensures ReadsAs(cfg, steps)
  {
    hide Next, Quoted, ReadsOff, InOrder, RowsTimed, FeeTaken, Clocked, MayPost;
    var w := Run(cfg, before);
    if MayPost(step) {
      TimedIsOlder(w.db.ledger, steps, before, step);
    }
    NextReads(cfg, w, step, UnreadFees(cfg, before));
    NextTimes(cfg, w, step);
    TimedMore(w.db.ledger, Next(cfg, w, step).db.ledger, steps, before, step);
    assert steps[..|steps| - 1] == before && steps[|steps| - 1] == step;
  }

  lemma {:induction false} RunReads(cfg: Config, steps: seq<Step>)
    requires Clocked(steps)
    ensures ReadsAs(cfg, steps)
  {
    hide Run, ReadsAs, Clocked, MayPost, Quoted;
    if steps == [] {
      NothingRead(cfg);
    } else {
      var before, step := steps[..|steps| - 1], steps[|steps| - 1];
      assert LastIs(steps, before, step);
      ClockedBefore(steps, before, step);
      RunReads(cfg, before);
      RunIsQuoted(cfg, before);
      ReadsOneMore(cfg, steps, before, step);
    }
  }

  lemma FeeIsNotNegative(cfg: Config, w: World, step: Step)
    requires Quoted(w.db)
    ensures FeeTaken(cfg, w, step) >= 0
  {
    hide Quoted, Made;
    var ask := Made(cfg, w, step);
    if ask.Some? && ask.value.trade in w.db.trades {
      TradeTerms(w.db, ask.value.trade, w.db.trades[ask.value.trade]);
    }
  }

  lemma {:induction false} UnreadIff(cfg: Config, steps: seq<Step>)
    ensures UnreadFees(cfg, steps) >= 0 && (UnreadFees(cfg, steps) == 0 <==> AllDrawnInOrder(cfg, steps))
  {
    if steps != [] {
      var n := |steps| - 1;
      UnreadIff(cfg, steps[..n]);
      RunIsQuoted(cfg, steps[..n]);
      hide Run, Quoted, FeeTaken;
      FeeIsNotNegative(cfg, Run(cfg, steps[..n]), steps[n]);
    }
  }

  /** The cached balances, exactly: in every run whose transactions begin one after the other, every balance read back is
      its account's debits minus its credits, except the fiat holding account's, which is too high by the fees of the
      conversions whose fee row drew the smaller identifier. Nothing is off, and all rows are in sorting order, if and
      only if every conversion with a fee drew its two rows in order. */
  lemma RunReadsIff(cfg: Config, steps: seq<Step>)
    requires Clocked(steps)
    ensures var rows := Run(cfg, steps).db.ledger;
            && (forall a, c :: Balance(rows, a, c)
                  == Net(rows, a, c) + if a == Holding(NGN) && c == NGN then UnreadFees(cfg, steps) else 0)
            && (InOrder(rows) <==> AllDrawnInOrder(cfg, steps))
            && (UnreadFees(cfg, steps) == 0 <==> AllDrawnInOrder(cfg, steps))
  {
    RunReads(cfg, steps);
    UnreadIff(cfg, steps);
    hide Run, AllDrawnInOrder, UnreadFees, Balance, Net, InOrder;
  }

  /** The trial balance over any such run: summed over all accounts the balances read back come to zero in every currency
      but fiat, and in fiat to those fees; each trade's debits equal its credits. */
  lemma RunBalances(cfg: Config, steps: seq<Step>, accounts: seq<Account>, c: Currency)
    requires Clocked(steps) && Distinct(accounts) && Covers(accounts, Run(cfg, steps).db.ledger)
    ensures SumBalance(accounts, Run(cfg, steps).db.ledger, c) == if c == NGN then UnreadFees(cfg, steps) else 0
    ensures forall trade :: Moved(Run(cfg, steps).db.ledger, trade, Debit, c) == Moved(Run(cfg, steps).db.ledger, trade, Credit, c)
  {
    RunReads(cfg, steps);
    RunIsSound(cfg, steps);
    hide Run, UnreadFees, ReadsOff, Journal, LedgerKeys.UniqueKeys, LedgerKeys.Traced, Distinct, Covers;
    var rows := Run(cfg, steps).db.ledger;
    TrialBalance(accounts, rows, c, UnreadFees(cfg, steps));
    forall trade: string ensures Moved(rows, trade, Debit, c) == Moved(rows, trade, Credit, c) {
      TradeBalances(rows, trade, c);
    }
  }
}
