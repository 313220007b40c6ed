/** The books of a trade, account by account: what every trade, disputed or not, has in every account after any run, by how
    often it was confirmed, sold, paid, bounced and disputed. */
module Accounts {
  import opened Wrappers
  import opened Lifecycle
  import opened Ledger
  import opened Store
  import opened Steps
  import opened Asks
  import opened Bookkeeping
  import opened Growth
  import opened ExactlyOnce
  import opened Changes
  import opened Disputed
  import opened Quotes
  import opened Settlement
  import Decimal

  /** How often a trade was confirmed, sold, paid, bounced, and disputed with an amount set aside. */
  datatype Counts = Counts(confirmed: int, sold: int, paid: int, bounced: int, disputed: int)

  /** What it then has in an account: debits less credits. */
  function Sheet(t: Trade, n: Counts, a: Account, c: Currency): int {
    if a.currency != c then 0
    else match a
      case Blockchain(_) => if c == t.from then -(t.fromAmount * n.confirmed) else 0
      case Holding(_) =>
        if c == t.from then t.fromAmount * (n.confirmed - n.sold)
        else if c == t.to then t.toExpected * (n.sold - n.paid - n.bounced - n.disputed)
        else 0
      case Inventory(_) =>
        if c == t.from then t.fromAmount * n.sold else if c == t.to then -((t.toExpected + t.fee) * n.sold) else 0
      case FeeRevenue(_) => if c == t.to then t.fee * n.sold else 0
      case Wallet(user, _) => if c == t.to && user == t.user then t.toExpected * n.paid else 0
      case FailedSuspense(_) => if c == t.to then t.toExpected * n.bounced else 0
      case DisputeSuspense(_) => if c == t.to then t.toExpected * n.disputed else 0
      case SpreadRevenue(_) => 0
      case ExpressRevenue(_) => 0
  }

  /** The ledger holds for a trade, in every account, what its sheet says. */
  ghost predicate OnSheet(rows: seq<Entry>, id: string, t: Trade, n: Counts) {
    forall a, c :: TradeNet(rows, id, a, c) == Sheet(t, n, a, c)
  }

  const NONE := Counts(0, 0, 0, 0, 0)

  /** A trade's history grows by a change to a status. */
  predicate GrewTo(s: Store, after: Store, id: string, to: Status) {
    var h, g := Past(s, id), Past(after, id);
    h != [] && |g| == |h| + 1 && g[|h|].to == to
  }

  /** A dispute with an amount set aside: every one but those the deposit checks raise. */
  predicate SetsAside(cfg: Config, w: World, step: Step, id: string) {
    GrewTo(w.db, Next(cfg, w, step).db, id, Dispute) && !step.Watch? && !step.Backfill?
  }

  /** How often a run set an amount aside for a trade. */
  function SetAside(cfg: Config, steps: seq<Step>, id: string): int {
    if steps == [] then 0
    else
      var n := |steps| - 1;
      SetAside(cfg, steps[..n], id) + if SetsAside(cfg, Run(cfg, steps[..n]), steps[n], id) then 1 else 0
  }

  function CountsOf(h: seq<Change>, disputed: int): Counts {
    Counts(Times(h, DepositConfirmed), Times(h, ConversionCompleted), Times(h, PayoutCompleted), Times(h, PayoutFailed), disputed)
  }

  /** The change to a status, counted. */
  function Single(to: Status): Counts {
    match to
    case DepositConfirmed => Counts(1, 0, 0, 0, 0)
    case ConversionCompleted => Counts(0, 1, 0, 0, 0)
    case PayoutCompleted => Counts(0, 0, 1, 0, 0)
    case PayoutFailed => Counts(0, 0, 0, 1, 0)
    case Dispute => Counts(0, 0, 0, 0, 1)
    case _ => Counts(0, 0, 0, 0, 0)
  }

  function Plus(m: Counts, n: Counts): Counts {
    Counts(m.confirmed + n.confirmed, m.sold + n.sold, m.paid + n.paid, m.bounced + n.bounced, m.disputed + n.disputed)
  }

  // ------------------------------------------------------------------ arithmetic

  lemma Times4(x: int, a: int, b: int, c: int, d: int, e: int, f: int, g: int, h: int)
    ensures x * (a + e - (b + f) - (c + g) - (d + h)) == x * (a - b - c - d) + x * (e - f - g - h)
  {
  }

  lemma Times1(x: int, a: int, b: int)
    ensures x * (a + b) == x * a + x * b
  {
  }

  lemma SheetAdds(t: Trade, m: Counts, n: Counts, a: Account, c: Currency)
    ensures Sheet(t, Plus(m, n), a, c) == Sheet(t, m, a, c) + Sheet(t, n, a, c)
  {
    Times1(t.fromAmount, m.confirmed, n.confirmed);
    Times1(t.fromAmount, m.sold, n.sold);
    Times1(t.fromAmount, m.confirmed - m.sold, n.confirmed - n.sold);
    Times1(t.toExpected + t.fee, m.sold, n.sold);
    Times1(t.fee, m.sold, n.sold);
    Times1(t.toExpected, m.paid, n.paid);
    Times1(t.toExpected, m.bounced, n.bounced);
    Times1(t.toExpected, m.disputed, n.disputed);
    Times4(t.toExpected, m.sold, m.paid, m.bounced, m.disputed, n.sold, n.paid, n.bounced, n.disputed);
  }

  lemma SheetOfDeal(t: Trade, u: Trade, n: Counts, a: Account, c: Currency)
    requires SameDeal(t, u)
    ensures Sheet(t, n, a, c) == Sheet(u, n, a, c)
  {
  }

  // ------------------------------------------------------------------ one change

  /** Terms every trade has from its quote. */
  predicate SoundTerms(t: Trade) {
    t.from != t.to && t.toExpected >= 0 && t.fee >= 0 && t.fromAmount > 0
  }

  lemma SingleEffect(t: Trade, to: Status, a: Account, c: Currency)
    requires to != ConversionCompleted && SoundTerms(t)
    ensures Effect(Usual(t, to), a, c) == Sheet(t, Single(to), a, c)
  {
    var ps := Usual(t, to);
    if ps != [] {
      EffectOfOne(ps[0], a, c);
      assert ps == [ps[0]];
    }
    hide Effect;
  }

  lemma SoldEffect(t: Trade, a: Account, c: Currency)
    requires SoundTerms(t)
    ensures Effect(Usual(t, ConversionCompleted), a, c) == Sheet(t, Single(ConversionCompleted), a, c)
  {
    hide Effect, Usual;
    SaleEffect(t, a, c);
  }

  lemma UsualEffect(t: Trade, to: Status, a: Account, c: Currency)
    requires SoundTerms(t)
    ensures Effect(Usual(t, to), a, c) == Sheet(t, Single(to), a, c)
  {
    hide Effect, Usual, Sheet, Single;
    if to == ConversionCompleted {
      SoldEffect(t, a, c);
    } else {
      SingleEffect(t, to, a, c);
    }
  }

  // Only the deposit checks' disputes leave the ledger alone.
  lemma SkipsWhen(cfg: Config, w: World, step: Step, ask: Ask)
    requires Wanted(cfg, w, step) == Some(ask)
    ensures ask.meta.skipLedger <==> ask.to == Dispute && (step.Watch? || step.Backfill?)
  {
    hide WatchAsk, BackfillAsk, WatchCase, BackfillCase;
    if step.Watch? {
      WatchCases(cfg, w.db, step.trade, step.seen, step.holder, step.tick.now, ask);
      WatchSkips(cfg, w.db, step.trade, step.seen, step.holder, step.tick.now, ask);
    } else if step.Backfill? {
      BackfillCases(cfg, w.db, step.trade, step.seen, step.holder, ask);
      BackfillSkips(cfg, w.db, step.trade, step.seen, step.holder, ask);
    } else {
      OthersPost(cfg, w, step, ask);
    }
  }

  lemma DisputeSkips(prefix: string, trade: string, hash: string, reason: string)
    ensures DepositDispute(prefix, trade, hash, reason).meta.skipLedger && DepositDispute(prefix, trade, hash, reason).to == Dispute
  {
    hide Folded, Filed, Text.Trim;
  }

  lemma WatchSkips(cfg: Config, s: Store, trade: string, seen: Sighting, holder: Option<string>, now: int, ask: Ask)
    requires WatchCase(cfg, s, trade, seen, holder, now, ask)
    ensures ask.meta.skipLedger <==> ask.to == Dispute
  {
    DepositNotesArePlain("deposit_detected:", trade, seen.txHash);
    DepositNotesArePlain("deposit_confirmed:", trade, seen.txHash);
    hide Clean, Insisted, DepositDispute, DepositNote, ExpiryNote;
    if reason :| ask == DepositDispute("deposit_dispute:", trade, seen.txHash, reason) {
      DisputeSkips("deposit_dispute:", trade, seen.txHash, reason);
    }
  }

  lemma BackfillSkips(cfg: Config, s: Store, trade: string, seen: Sighting, holder: Option<string>, ask: Ask)
    requires BackfillCase(cfg, s, trade, seen, holder, ask)
    ensures ask.meta.skipLedger <==> ask.to == Dispute
  {
    BackfillNotesArePlain("backfill_deposit_detected:", trade, seen.txHash, "backfill detected deposit");
    BackfillNotesArePlain("backfill_deposit_confirmed:", trade, seen.txHash, "backfill confirmed deposit");
    hide Clean, DepositDispute, BackfillNote;
    if reason :| ask == DepositDispute("backfill_dispute:", trade, seen.txHash, reason) {
      DisputeSkips("backfill_dispute:", trade, seen.txHash, reason);
    }
  }

  lemma OthersPost(cfg: Config, w: World, step: Step, ask: Ask)
    requires Wanted(cfg, w, step) == Some(ask) && !step.Watch? && !step.Backfill?
    ensures !ask.meta.skipLedger
  {
    hide Text.Trim, Folded, Filed, Given, RetryStatus, ForcedRef, Text.FirstNonBlank, Text.Lower, Decimal.Spell;
  }

  // What a change the ledger follows means for every account.
  lemma MadeMeans(s: Store, ground: Store, after: Store, ask: Ask, tick: Tick, t: Trade, id: string, a: Account, c: Currency)
    requires Makes(s, ground, after, ask, tick) && RowIs(s, ask.trade, t) && SoundTerms(t) && Unaltered(t) && Usually(t, ask.meta)
    ensures TradeNet(after.ledger, id, a, c)
         == TradeNet(s.ledger, id, a, c) + if id == ask.trade && !ask.meta.skipLedger then Sheet(t, Single(ask.to), a, c) else 0
  {
    var g := ground.trades[ask.trade];
    hide Posted, Usual, Usually, PostingsFor, Effect, TradeNet, Past, KeyAsked, Allowed, SameDeal, Unaltered, Sheet, Single, Elsewhere, SoundTerms;
    WrittenAmount(t, g, ask.to, ask.meta, tick.now);
    hide Written;
    UsualPosted(g, ask.to, ask.meta);
    UsualOfDeal(t, g, ask.to);
    UsualEffect(t, ask.to, a, c);
    PostedNet(ground, ask.trade, g, ask.to, ask.meta, tick, after.ledger, id, a, c);
  }

  // ------------------------------------------------------------------ runs

  /** The books of a trade, as they should be. */
  ghost predicate Booked(cfg: Config, steps: seq<Step>, id: string) {
    var s := Run(cfg, steps).db;
    id in s.trades ==> OnSheet(s.ledger, id, s.trades[id], CountsOf(Past(s, id), SetAside(cfg, steps, id)))
  }

  /** What holds of a trade in every state a run reaches. */
  ghost predicate Regular(s: Store, id: string, t: Trade) {
    RowIs(s, id, t) && SoundTerms(t) && Unaltered(t) && Past(s, id) != []
  }

  lemma RunOrderly(cfg: Config, steps: seq<Step>, id: string, t: Trade)
    requires RowIs(Run(cfg, steps).db, id, t)
    ensures Regular(Run(cfg, steps).db, id, t)
  {
    RunIsAccounted(cfg, steps);
    RunIsRecorded(cfg, steps);
    RunIsQuoted(cfg, steps);
    hide Run, TradeNet, Contribution, Counted, HasTerms, ProceedsRight;
    TermsOf(Run(cfg, steps).db, id, t);
    PastIsNotEmpty(Run(cfg, steps).db, id);
    assert SettledAt(Run(cfg, steps).db, id);
    assert Backed(Run(cfg, steps).db, t);
  }

  lemma TimesMore(h: seq<Change>, x: Change)
    requires h != []
    ensures forall to :: Times(h + [x], to) == Times(h, to) + if x.to == to then 1 else 0
  {
    assert (h + [x])[..|h|] == h;
  }

  // One more change, and one more count, unless it is a dispute with nothing set aside.
  lemma CountsMore(h: seq<Change>, x: Change, n: int, more: int)
    requires h != [] && more == (if x.to == Dispute then 1 else 0)
    ensures CountsOf(h + [x], n + more) == Plus(CountsOf(h, n), Single(x.to))
    ensures x.to == Dispute ==> CountsOf(h + [x], n) == CountsOf(h, n)
  {
    TimesMore(h, x);
    hide Times;
  }

  /** A trade's accounts at the end of a step, its counts as they are by then. */
  ghost predicate BooksMove(s: Store, after: Store, id: string, n: int, more: int) {
    id in s.trades && id in after.trades &&
    (OnSheet(s.ledger, id, s.trades[id], CountsOf(Past(s, id), n)) ==> OnSheet(after.ledger, id, after.trades[id], CountsOf(Past(after, id), n + more)))
  }

  /** What a change adds to a trade's accounts. */
  ghost predicate NetsMove(rows: seq<Entry>, after: seq<Entry>, id: string, t: Trade, m: Counts) {
    forall a, c :: TradeNet(after, id, a, c) == TradeNet(rows, id, a, c) + Sheet(t, m, a, c)
  }

  lemma MadeNets(s: Store, ground: Store, after: Store, ask: Ask, tick: Tick, t: Trade)
    requires Makes(s, ground, after, ask, tick) && RowIs(s, ask.trade, t) && SoundTerms(t) && Unaltered(t) && Usually(t, ask.meta)
    ensures NetsMove(s.ledger, after.ledger, ask.trade, t, if ask.meta.skipLedger then NONE else Single(ask.to))
  {
    hide Makes, Usually, TradeNet, Unaltered, Sheet, Single, SoundTerms;
    forall a: Account, c: Currency
      ensures TradeNet(after.ledger, ask.trade, a, c)
           == TradeNet(s.ledger, ask.trade, a, c) + Sheet(t, if ask.meta.skipLedger then NONE else Single(ask.to), a, c)
    {
      MadeMeans(s, ground, after, ask, tick, t, ask.trade, a, c);
      NothingSheet(t, a, c);
    }
  }

  lemma SheetMoves(rows: seq<Entry>, after: seq<Entry>, id: string, t: Trade, u: Trade, n: Counts, m: Counts)
    requires NetsMove(rows, after, id, t, m) && SameDeal(t, u)
    ensures OnSheet(rows, id, t, n) ==> OnSheet(after, id, u, Plus(n, m))
  {
    hide TradeNet, Sheet, SameDeal, Plus;
    if OnSheet(rows, id, t, n) {
      forall a: Account, c: Currency
        ensures TradeNet(after, id, a, c) == Sheet(u, Plus(n, m), a, c)
      {
        SheetOfDeal(t, u, Plus(n, m), a, c);
        SheetAdds(t, n, m, a, c);
      }
    }
  }

  lemma MadeBooks(s: Store, ground: Store, after: Store, ask: Ask, tick: Tick, t: Trade, n: int, more: int)
    requires Makes(s, ground, after, ask, tick) && Regular(s, ask.trade, t) && Usually(t, ask.meta)
    requires more == if ask.to == Dispute && !ask.meta.skipLedger then 1 else 0
    requires ask.meta.skipLedger ==> ask.to == Dispute
    ensures BooksMove(s, after, ask.trade, n, more)
  {
    hide Posted, Usually, TradeNet, Past, KeyAsked, Allowed, SameDeal, Unaltered, OnSheet, Single, SoundTerms, CountsOf, Plus, Written, NetsMove, NONE;
    var id, x := ask.trade, Change(Some(t.status), ask.to);
    MadeNets(s, ground, after, ask, tick, t);
    WrittenAmount(t, ground.trades[id], ask.to, ask.meta, tick.now);
    CountsMore(Past(s, id), x, n, if ask.to == Dispute then 1 else 0);
    PlusNothing(CountsOf(Past(s, id), n));
    SheetMoves(s.ledger, after.ledger, id, t, after.trades[id], CountsOf(Past(s, id), n), if ask.meta.skipLedger then NONE else Single(ask.to));
  }

  lemma PlusNothing(n: Counts)
    ensures Plus(n, NONE) == n
  {
  }

  lemma KinBooks(s: Store, after: Store, id: string, n: int)
    requires Kin(s, after, id) && SameNets(s.ledger, after.ledger, id)
    ensures BooksMove(s, after, id, n, 0)
  {
    hide TradeNet, Past, SameDeal, Sheet, CountsOf;
    if OnSheet(s.ledger, id, s.trades[id], CountsOf(Past(s, id), n)) {
      forall a: Account, c: Currency
        ensures TradeNet(after.ledger, id, a, c) == Sheet(after.trades[id], CountsOf(Past(after, id), n), a, c)
      {
        SheetOfDeal(s.trades[id], after.trades[id], CountsOf(Past(s, id), n), a, c);
      }
    }
  }

  lemma MadeElsewhere(s: Store, ground: Store, after: Store, ask: Ask, tick: Tick, id: string)
    requires Makes(s, ground, after, ask, tick) && id in s.trades && id != ask.trade
    ensures Kin(s, after, id) && SameNets(s.ledger, after.ledger, id)
  {
    hide Posted, TradeNet, Past, KeyAsked, Allowed, SameDeal, Written;
    OthersNet(ground, ask, tick, after.ledger, id);
  }

  // A trade that was there before the step.
  lemma NextBooks(cfg: Config, steps: seq<Step>, step: Step, id: string, t: Trade, n: int)
    requires RowIs(Run(cfg, steps).db, id, t)
    ensures var w := Run(cfg, steps); BooksMove(w.db, Next(cfg, w, step).db, id, n, if SetsAside(cfg, w, step, id) then 1 else 0)
  {
    hide *;
    var w := Run(cfg, steps);
    RunOrderly(cfg, steps, id, t);
    var made := Made(cfg, w, step);
    if made.Some? {
      var ask := made.value;
      WhenMade(cfg, w, step, ask);
      MadeIsWanted(cfg, w, step, ask);
      SkipsWhen(cfg, w, step, ask);
      if id == ask.trade {
        WantedIsUsual(cfg, w, step, ask);
        AsideWhenMade(cfg, w, step, ask, t);
        UsualRow(w.db, ask, t);
        MadeBooks(w.db, Ground(w, step), Next(cfg, w, step).db, ask, step.tick, t, n, if ask.to == Dispute && !ask.meta.skipLedger then 1 else 0);
      } else {
        RowIsThere(w.db, id, t);
        MadeElsewhere(w.db, Ground(w, step), Next(cfg, w, step).db, ask, step.tick, id);
        KinAside(cfg, w, step, id);
        KinBooks(w.db, Next(cfg, w, step).db, id, n);
      }
    } else {
      WhenNotMade(cfg, w, step);
      QuietKin(w.db, Next(cfg, w, step).db, id, t);
      KinAside(cfg, w, step, id);
      KinBooks(w.db, Next(cfg, w, step).db, id, n);
    }
  }

  lemma RowIsThere(s: Store, id: string, t: Trade)
    requires RowIs(s, id, t)
    ensures id in s.trades
  {
  }

  lemma UsualRow(s: Store, ask: Ask, t: Trade)
    requires RowIs(s, ask.trade, t) && (ask.trade in s.trades ==> Usually(s.trades[ask.trade], ask.meta))
    ensures Usually(t, ask.meta)
  {
    hide Usually;
  }

  lemma QuietKin(s: Store, after: Store, id: string, t: Trade)
    requires Quiet(s, after) && RowIs(s, id, t)
    ensures Kin(s, after, id) && SameNets(s.ledger, after.ledger, id)
  {
    hide Kin, TradeNet;
  }

  lemma KinAside(cfg: Config, w: World, step: Step, id: string)
    requires Kin(w.db, Next(cfg, w, step).db, id)
    ensures !SetsAside(cfg, w, step, id)
  {
    hide Next, Past, SameDeal;
  }

  lemma AsideWhenMade(cfg: Config, w: World, step: Step, ask: Ask, t: Trade)
    requires Makes(w.db, Ground(w, step), Next(cfg, w, step).db, ask, step.tick) && Regular(w.db, ask.trade, t)
    requires ask.meta.skipLedger <==> ask.to == Dispute && (step.Watch? || step.Backfill?)
    ensures SetsAside(cfg, w, step, ask.trade) <==> ask.to == Dispute && !ask.meta.skipLedger
  {
    hide Next, Ground, Past, Posted, KeyAsked, Allowed, SameDeal, Written, Elsewhere, Unaltered, SoundTerms;
  }

  // A trade that is not there yet.
  lemma {:induction false} NothingAside(cfg: Config, steps: seq<Step>, id: string)
    requires id !in Run(cfg, steps).db.trades
    ensures SetAside(cfg, steps, id) == 0
  {
    if steps != [] {
      var n := |steps| - 1;
      RunIsRecorded(cfg, steps[..n]);
      hide SetsAside, Next, Counted, RecordedAt;
      NextGrows(cfg, Run(cfg, steps[..n]), steps[n]);
      hide KeysStay, HistoryStays, TicketsStay, QuotesStay, SameDeal;
      NothingAside(cfg, steps[..n], id);
      NoHistoryNoAside(cfg, Run(cfg, steps[..n]), steps[n], id);
    }
  }

  lemma NoHistoryNoAside(cfg: Config, w: World, step: Step, id: string)
    requires id !in w.db.trades && Recorded(w.db)
    ensures !SetsAside(cfg, w, step, id)
  {
    hide Next, RecordedAt;
  }

  lemma NothingSheet(t: Trade, a: Account, c: Currency)
    ensures Sheet(t, NONE, a, c) == 0
  {
  }

  /** The last step of a run. */
  predicate LastStep(steps: seq<Step>, before: seq<Step>, step: Step) {
    steps == before + [step]
  }

  lemma LastWorld(cfg: Config, steps: seq<Step>, before: seq<Step>, step: Step, id: string)
    requires LastStep(steps, before, step)
    ensures Run(cfg, steps) == Next(cfg, Run(cfg, before), step)
    ensures SetAside(cfg, steps, id) == SetAside(cfg, before, id) + if SetsAside(cfg, Run(cfg, before), step, id) then 1 else 0
  {
    hide Next, SetsAside;
    assert steps[..|steps| - 1] == before;
  }

  lemma BornBooks(cfg: Config, steps: seq<Step>, before: seq<Step>, step: Step, id: string)
    requires LastStep(steps, before, step) && id !in Run(cfg, before).db.trades
    ensures Booked(cfg, steps, id)
  {
    LastWorld(cfg, steps, before, step, id);
    RunIsAccounted(cfg, before);
    RunIsRecorded(cfg, before);
    hide Run, Next, TradeNet, SettledAt, Sheet, SetsAside, SetAside, Counted, RecordedAt;
    var w, after := Run(cfg, before), Next(cfg, Run(cfg, before), step).db;
    NothingAside(cfg, before, id);
    NoHistoryNoAside(cfg, w, step, id);
    if id in after.trades {
      BornAt(cfg, w, step, id);
      forall a: Account, c: Currency
        ensures TradeNet(after.ledger, id, a, c) == Sheet(after.trades[id], NONE, a, c)
      {
        NoRowsNoNet(w.db.ledger, id, a, c);
        NothingSheet(after.trades[id], a, c);
      }
    }
  }

  lemma OldBooks(cfg: Config, steps: seq<Step>, before: seq<Step>, step: Step, id: string)
    requires LastStep(steps, before, step) && id in Run(cfg, before).db.trades && Booked(cfg, before, id)
    ensures Booked(cfg, steps, id)
  {
    hide Run, Next, OnSheet, SetsAside, SetAside, CountsOf, Past;
    var w := Run(cfg, before);
    LastWorld(cfg, steps, before, step, id);
    NextBooks(cfg, before, step, id, w.db.trades[id], SetAside(cfg, before, id));
  }

  /** In any run every trade has in every account exactly what its sheet says: of the asset, what was received less what was
      sold; of fiat, what is owed for each sale less what each payout, each bounced payout and each posted dispute took; its
      fee with the platform; and nothing anywhere else. */
  lemma {:induction false} RunIsBooked(cfg: Config, steps: seq<Step>, id: string)
    ensures Booked(cfg, steps, id)
  {
    hide Run, Booked;
    if steps == [] {
      NothingBooked(cfg, id);
    } else {
      var before, step := steps[..|steps| - 1], steps[|steps| - 1];
      assert LastStep(steps, before, step);
      RunIsBooked(cfg, before, id);
      if id in Run(cfg, before).db.trades {
        OldBooks(cfg, steps, before, step, id);
      } else {
        BornBooks(cfg, steps, before, step, id);
      }
    }
  }

  lemma NothingBooked(cfg: Config, id: string)
    ensures Booked(cfg, [], id)
  {
    hide OnSheet;
  }
}
