/** What every trade's history puts into the ledger: for a trade never in dispute all of it, for any trade what reached
    the user; and a clean run settles, leaving nothing behind in the holding account. */
module Settlement {
  import opened Wrappers
  import opened Lifecycle
  import opened Ledger
  import opened Store
  import opened Steps
  import opened Asks
  import opened Bookkeeping
  import opened Growth
  import opened ExactlyOnce
  import opened Tickets
  import opened Changes
  import opened Disputed
  import opened Quotes

  /** What reaching a status posts for a trade when nothing overrides its amounts. */
  function Usual(t: Trade, to: Status): seq<Posting> {
    PostingsFor(t.(toActual := None), to, BLANK)
  }

  /** What a trade with this history contributed to an account. */
  function Contribution(t: Trade, h: seq<Change>, a: Account, c: Currency): int {
    if |h| <= 1 then 0 else Contribution(t, h[..|h| - 1], a, c) + Effect(Usual(t, h[|h| - 1].to), a, c)
  }

  /** Every row belongs to a trade. */
  ghost predicate RowsOwned(s: Store) {
    forall i :: 0 <= i < |s.ledger| ==> s.ledger[i].trade in s.trades
  }

  /** No amount recorded but the expected one. */
  predicate Unaltered(t: Trade) {
    t.toActual.None? || t.toActual == Some(t.toExpected)
  }

  /** The accounts a dispute's adjustment moves an amount between. */
  predicate Adjusted(a: Account) {
    a.Holding? || a.DisputeSuspense?
  }

  /** The ledger holds what the trade's history says, but that a trade once in dispute, whose adjustment may have been
      left out, answers for no account such an adjustment touches. */
  ghost predicate SettledAt(s: Store, id: string) {
    && id in s.trades && Unaltered(s.trades[id])
    && forall a, c :: !(Adjusted(a) && WasDisputed(s, id)) ==> TradeNet(s.ledger, id, a, c) == Contribution(s.trades[id], Past(s, id), a, c)
  }

  ghost predicate Accounted(s: Store) {
    RowsOwned(s) && forall id <- s.trades :: SettledAt(s, id)
  }

  // ------------------------------------------------------------------ small facts

  lemma UsualOfDeal(t: Trade, u: Trade, to: Status)
    requires SameDeal(t, u)
    ensures Usual(t, to) == Usual(u, to)
  {
  }

  lemma {:induction false} ContributionOfDeal(t: Trade, u: Trade, h: seq<Change>, a: Account, c: Currency)
    requires SameDeal(t, u)
    ensures Contribution(t, h, a, c) == Contribution(u, h, a, c)
  {
    hide SameDeal, Usual;
    if |h| > 1 {
      ContributionOfDeal(t, u, h[..|h| - 1], a, c);
      UsualOfDeal(t, u, h[|h| - 1].to);
    }
  }

  /** Metadata that names no amount but the expected one. */
  predicate Usually(t: Trade, m: Metadata) {
    (m.toAmountActual.None? || m.toAmountActual == Some(t.toExpected)) && m.payoutAmount.None? && m.fxSpread == 0 && m.expressFee == 0
  }

  lemma UsualPosted(t: Trade, to: Status, m: Metadata)
    requires Unaltered(t) && Usually(t, m)
    ensures PostingsFor(t, to, m) == Usual(t, to)
  {
  }

  lemma {:induction false} NoRowsNoNet(rows: seq<Entry>, id: string, a: Account, c: Currency)
    requires forall i :: 0 <= i < |rows| ==> rows[i].trade != id
    ensures TradeNet(rows, id, a, c) == 0
  {
    if rows != [] {
      NoRowsNoNet(rows[..|rows| - 1], id, a, c);
    }
  }

  // A status change adds its postings' effect to its own trade and nothing to any other.
  lemma PostedNet(s: Store, trade: string, t: Trade, to: Status, m: Metadata, tick: Tick, rows: seq<Entry>, id: string, a: Account, c: Currency)
    requires RowIs(s, trade, t) && PostedAs(s, trade, to, m, tick, rows)
    ensures TradeNet(rows, id, a, c) == TradeNet(s.ledger, id, a, c) + if id == trade && !m.skipLedger then Effect(PostingsFor(t, to, m), a, c) else 0
  {
    hide PostAll, PostingsFor, OperationKey, Effect, TradeNet;
    if !m.skipLedger {
      PostAllEffect(s.ledger, trade, PostingsFor(s.trades[trade], to, m), OperationKey(trade, to, m), tick, id, a, c);
    }
  }

  /** The rows a change leaves. */
  ghost predicate PostedAs(s: Store, trade: string, to: Status, m: Metadata, tick: Tick, rows: seq<Entry>) {
    trade in s.trades && Posted(s, trade, to, m, tick) == Ok(rows)
  }

  /** Rows added for a trade. */
  ghost predicate AddedFor(rows: seq<Entry>, after: seq<Entry>, trade: string) {
    rows <= after && forall i :: |rows| <= i < |after| ==> after[i].trade == trade
  }

  lemma PostedOwned(s: Store, trade: string, to: Status, m: Metadata, tick: Tick, rows: seq<Entry>)
    requires PostedAs(s, trade, to, m, tick, rows)
    ensures AddedFor(s.ledger, rows, trade)
  {
    hide PostAll, PostingsFor, OperationKey;
    if !m.skipLedger {
      PostAllAppends(s.ledger, trade, PostingsFor(s.trades[trade], to, m), OperationKey(trade, to, m), tick);
    }
  }

  // ------------------------------------------------------------------ one change

  // The requests: only a forced completion names an amount, the expected one, and only disputes skip the ledger.
  lemma WantedIsUsual(cfg: Config, w: World, step: Step, ask: Ask)
    requires Wanted(cfg, w, step) == Some(ask)
    ensures ask.trade in w.db.trades ==> Usually(w.db.trades[ask.trade], ask.meta)
    ensures ask.meta.skipLedger ==> ask.to == Dispute
  {
    hide AskOf, Text.FirstNonBlank, Text.Trim, ForcedRef, RetryStatus;
    if !step.Resolve? {
      AskIsProper(cfg, w, step, ask);
    }
  }

  lemma DisputeAdjusts(t: Trade, a: Account, c: Currency)
    requires !Adjusted(a)
    ensures Effect(Usual(t, Dispute), a, c) == 0
  {
  }

  // The trade the change is for.
  lemma ChangedSettles(s: Store, ground: Store, after: Store, ask: Ask, tick: Tick)
    requires Makes(s, ground, after, ask, tick) && SettledAt(s, ask.trade) && Past(s, ask.trade) != []
    requires ask.trade in s.trades ==> Usually(s.trades[ask.trade], ask.meta)
    requires ask.meta.skipLedger ==> ask.to == Dispute
    ensures SettledAt(after, ask.trade)
  {
    var id := ask.trade;
    var t, g, u := s.trades[id], ground.trades[id], after.trades[id];
    hide Posted, Usual, Usually, PostingsFor, Effect, TradeNet, Past, Contribution, KeyAsked, Allowed, SameDeal, Visited, Unaltered;
    WrittenAmount(t, g, ask.to, ask.meta, tick.now);
    hide Written;
    UsualPosted(g, ask.to, ask.meta);
    UsualOfDeal(t, g, ask.to);
    VisitedAppend(Past(s, id), Change(Some(t.status), ask.to), Dispute);
    forall a: Account, c: Currency | !(Adjusted(a) && WasDisputed(after, id))
      ensures TradeNet(after.ledger, id, a, c) == Contribution(u, Past(after, id), a, c)
    {
      PostedNet(ground, id, g, ask.to, ask.meta, tick, after.ledger, id, a, c);
      ContributionOfDeal(t, u, Past(after, id), a, c);
      ContributionGrows(t, Past(s, id), Change(Some(t.status), ask.to), a, c);
      if ask.meta.skipLedger {
        DisputeAdjusts(t, a, c);
      }
    }
  }

  // The row a change writes has the terms and no other amount.
  lemma WrittenAmount(t: Trade, g: Trade, to: Status, m: Metadata, now: int)
    requires SameDeal(t, g) && g.toActual == t.toActual && Unaltered(t) && Usually(t, m)
    ensures SameDeal(t, Written(g, to, m, now)) && Unaltered(Written(g, to, m, now)) && Unaltered(g) && Usually(g, m)
  {
    hide Text.Trim;
  }

  lemma ContributionGrows(t: Trade, h: seq<Change>, x: Change, a: Account, c: Currency)
    requires h != []
    ensures Contribution(t, h + [x], a, c) == Contribution(t, h, a, c) + Effect(Usual(t, x.to), a, c)
  {
    assert (h + [x])[..|h|] == h;
  }

  /** The ledger holds for a trade what it held. */
  ghost predicate SameNets(rows: seq<Entry>, after: seq<Entry>, id: string) {
    forall a, c :: TradeNet(after, id, a, c) == TradeNet(rows, id, a, c)
  }

  // Any other trade.
  lemma BystanderSettles(s: Store, after: Store, id: string)
    requires Kin(s, after, id) && SettledAt(s, id) && SameNets(s.ledger, after.ledger, id)
    ensures SettledAt(after, id)
  {
    var t, u := s.trades[id], after.trades[id];
    assert Unaltered(u);
    hide SameDeal, TradeNet, Past, Contribution, Visited, Unaltered;
    forall a: Account, c: Currency | !(Adjusted(a) && WasDisputed(after, id))
      ensures TradeNet(after.ledger, id, a, c) == Contribution(u, Past(after, id), a, c)
    {
      ContributionOfDeal(t, u, Past(s, id), a, c);
    }
  }

  lemma OthersNet(s: Store, ask: Ask, tick: Tick, rows: seq<Entry>, id: string)
    requires PostedAs(s, ask.trade, ask.to, ask.meta, tick, rows) && id != ask.trade
    ensures SameNets(s.ledger, rows, id)
  {
    hide Posted, TradeNet, Effect, PostingsFor;
    forall a: Account, c: Currency
      ensures TradeNet(rows, id, a, c) == TradeNet(s.ledger, id, a, c)
    {
      PostedNet(s, ask.trade, s.trades[ask.trade], ask.to, ask.meta, tick, rows, id, a, c);
    }
  }

  lemma PastIsNotEmpty(s: Store, id: string)
    requires Recorded(s) && id in s.trades
    ensures Past(s, id) != []
  {
    hide Linked;
    assert RecordedAt(s, id);
  }

  lemma MadeAccounted(s: Store, ground: Store, after: Store, ask: Ask, tick: Tick)
    requires Accounted(s) && Recorded(s) && Makes(s, ground, after, ask, tick)
    requires ask.trade in s.trades ==> Usually(s.trades[ask.trade], ask.meta)
    requires ask.meta.skipLedger ==> ask.to == Dispute
    ensures Accounted(after)
  {
    hide Posted, Usually, Past, KeyAsked, Allowed, SettledAt, Written, SameDeal, Chain;
    PostedOwned(ground, ask.trade, ask.to, ask.meta, tick, after.ledger);
    assert RowsOwned(after);
    forall id | id in after.trades
      ensures SettledAt(after, id)
    {
      if id == ask.trade {
        PastIsNotEmpty(s, id);
        ChangedSettles(s, ground, after, ask, tick);
      } else {
        OthersNet(ground, ask, tick, after.ledger, id);
        BystanderSettles(s, after, id);
      }
    }
  }

  // ------------------------------------------------------------------ steps and runs

  lemma BornSettled(s: Store, after: Store, step: Step, id: string)
    requires RowsOwned(s) && id !in s.trades && Born(s, after, step, id)
    ensures SettledAt(after, id)
  {
    hide TradeNet, Past;
    forall a: Account, c: Currency
      ensures TradeNet(after.ledger, id, a, c) == Contribution(after.trades[id], Past(after, id), a, c)
    {
      NoRowsNoNet(after.ledger, id, a, c);
    }
  }

  lemma NextAccounted(cfg: Config, w: World, step: Step)
    requires Accounted(w.db) && Recorded(w.db)
    ensures Accounted(Next(cfg, w, step).db)
  {
    var s, after := w.db, Next(cfg, w, step).db;
    hide Next, Accounted, Recorded, Made, Wanted, Ground, Usually, SettledAt, Makes, Kin, Born;
    var made := Made(cfg, w, step);
    if made.Some? {
      var ask := made.value;
      WhenMade(cfg, w, step, ask);
      MadeIsWanted(cfg, w, step, ask);
      WantedIsUsual(cfg, w, step, ask);
      MadeAccounted(s, Ground(w, step), after, ask, step.tick);
    } else {
      WhenNotMade(cfg, w, step);
      QuietAccounted(cfg, w, step);
    }
  }

  lemma QuietAccounted(cfg: Config, w: World, step: Step)
    requires Accounted(w.db) && Quiet(w.db, Next(cfg, w, step).db)
    ensures Accounted(Next(cfg, w, step).db)
  {
    var s, after := w.db, Next(cfg, w, step).db;
    hide Next, SettledAt, SameDeal, Past, Born;
    forall id | id in after.trades
      ensures SettledAt(after, id)
    {
      if id in s.trades {
        BystanderSettles(s, after, id);
      } else {
        BornAt(cfg, w, step, id);
        BornSettled(s, after, step, id);
      }
    }
    assert forall id <- s.trades :: Kin(s, after, id) && id in after.trades;
  }

  /** In any run the ledger holds, for every account and every trade never disputed, exactly what the trade's history
      says it should; and for a trade disputed at some time too, in every account but those a dispute's adjustment
      touches. */
  lemma {:induction false} RunIsAccounted(cfg: Config, steps: seq<Step>)
    ensures Accounted(Run(cfg, steps).db)
  {
    if steps != [] {
      var n := |steps| - 1;
      RunIsAccounted(cfg, steps[..n]);
      RunIsRecorded(cfg, steps[..n]);
      hide Accounted, Next, Recorded, Counted;
      NextAccounted(cfg, Run(cfg, steps[..n]), steps[n]);
    }
  }

  // ------------------------------------------------------------------ what reached the user

  /** How often a history changes to a status. */
  function Times(h: seq<Change>, x: Status): nat {
    if |h| <= 1 then 0 else Times(h[..|h| - 1], x) + if h[|h| - 1].to == x then 1 else 0
  }

  /** What a trade has put into its user's wallet. */
  function PaidOver(rows: seq<Entry>, id: string, t: Trade): int {
    TradeNet(rows, id, Wallet(t.user, t.to), t.to)
  }

  lemma WalletEffect(t: Trade, to: Status)
    requires 0 <= t.toExpected
    ensures Effect(Usual(t, to), Wallet(t.user, t.to), t.to) == if to == PayoutCompleted then t.toExpected else 0
  {
    var w := Wallet(t.user, t.to);
    if to == ConversionCompleted {
      SaleEffect(t, w, t.to);
    } else if Usual(t, to) != [] {
      assert |Usual(t, to)| == 1;
      EffectOfOne(Usual(t, to)[0], w, t.to);
    }
  }

  lemma {:induction false} WalletContribution(t: Trade, h: seq<Change>)
    requires 0 <= t.toExpected
    ensures Contribution(t, h, Wallet(t.user, t.to), t.to) == t.toExpected * Times(h, PayoutCompleted)
  {
    hide Effect, Usual;
    if |h| > 1 {
      WalletContribution(t, h[..|h| - 1]);
      WalletEffect(t, h[|h| - 1].to);
    }
  }

  /** In any run every trade, disputed or not, has put into its user's wallet the amount its quote promised as many times as
      it changed to PAYOUT_COMPLETED: the user is overpaid if and only if something was owed and it did so more than once. */
  lemma UserIsPaid(cfg: Config, steps: seq<Step>, id: string, t: Trade)
    requires RowIs(Run(cfg, steps).db, id, t)
    ensures var s := Run(cfg, steps).db; var times := Times(Past(s, id), PayoutCompleted);
            PaidOver(s.ledger, id, t) == t.toExpected * times
            && (PaidOver(s.ledger, id, t) > t.toExpected <==> t.toExpected > 0 && times > 1)
  {
    RunIsAccounted(cfg, steps);
    RunIsQuoted(cfg, steps);
    hide Run;
    TermsOf(Run(cfg, steps).db, id, t);
    assert SettledAt(Run(cfg, steps).db, id);
    hide Accounted, Quoted, TradeNet, Contribution, Past, Times, Visited, HasTerms;
    WalletContribution(t, Past(Run(cfg, steps).db, id));
    MoreThanOnce(t.toExpected, Times(Past(Run(cfg, steps).db, id), PayoutCompleted));
  }

  lemma MoreThanOnce(amount: int, times: int)
    requires 0 <= amount && 0 <= times
    ensures amount * times > amount <==> amount > 0 && times > 1
  {
    if times > 1 {
      assert amount * times == amount * (times - 2) + 2 * amount;
    }
  }

  // ------------------------------------------------------------------ a clean run

  const PATH := [PendingDeposit, DepositReceived, DepositConfirmed, ConversionInProgress, ConversionCompleted, PayoutPending, PayoutCompleted]

  /** A history with no dispute, no failed payout and no repeated status. */
  ghost predicate CleanHistory(h: seq<Change>) {
    && Chain(h) && !Visited(h, Dispute) && !Visited(h, PayoutFailed)
    && forall i :: 0 < i < |h| ==> h[i].to != h[i - 1].to
  }

  // A cancelled trade goes nowhere, and the path goes nowhere but on.
  lemma NotCancelledBefore(h: seq<Change>, i: nat)
    requires CleanHistory(h) && i + 1 < |h|
    ensures h[i].to != Cancelled
  {
    assert Linked(h, i + 1);
  }

  lemma {:induction false} OnPath(h: seq<Change>, i: nat)
    requires CleanHistory(h) && i < |h|
    ensures (i < |PATH| && h[i].to == PATH[i]) || h[i].to == Cancelled
  {
    if i > 0 {
      OnPath(h, i - 1);
      NotCancelledBefore(h, i - 1);
      assert Linked(h, i);
      assert h[i].to != Dispute && h[i].to != PayoutFailed;
    }
  }

  /** A clean history that reaches PAYOUT_COMPLETED is the whole path, once. */
  lemma CleanPath(h: seq<Change>)
    requires CleanHistory(h) && Visited(h, PayoutCompleted)
    ensures WholeWay(h)
  {
    var k :| 0 <= k < |h| && h[k].to == PayoutCompleted;
    hide CleanHistory, Chain;
    OnPath(h, k);
    forall i | 0 <= i < |h|
      ensures i < |PATH| && h[i].to == PATH[i]
    {
      OnPath(h, i);
      if i < k {
        NotCancelledBefore(h, i);
      } else if i > k {
        OnPath(h, i - 1);
        NotCancelledBefore(h, i - 1);
        LastOfPath(h, i);
      }
    }
    assert PATH[k] == PayoutCompleted;
    assert h[|h| - 1].to == PATH[|h| - 1];
  }

  // Nothing follows the end of the path.
  lemma LastOfPath(h: seq<Change>, i: nat)
    requires CleanHistory(h) && 0 < i < |h| && h[i - 1].to in PATH[1..]
    ensures h[i].to != Cancelled
  {
    assert Linked(h, i);
  }

  function One(p: Posting, a: Account, c: Currency): int {
    if p.amount <= 0 || p.currency != c then 0
    else (if p.debit == a then p.amount else 0) - (if p.credit == a then p.amount else 0)
  }

  lemma EffectAppend(ps: seq<Posting>, p: Posting, a: Account, c: Currency)
    ensures Effect(ps + [p], a, c) == Effect(ps, a, c) + One(p, a, c)
  {
    assert (ps + [p])[..|ps|] == ps;
  }

  lemma EffectOfOne(p: Posting, a: Account, c: Currency)
    ensures Effect([p], a, c) == One(p, a, c)
  {
    EffectAppend([], p, a, c);
    assert [] + [p] == [p];
  }

  // The effects of the three statuses of the path that post.
  lemma DepositEffect(t: Trade, a: Account, c: Currency)
    ensures Effect(Usual(t, DepositConfirmed), a, c) == One(Posting(Deposit, t.from, t.fromAmount, Holding(t.from), Blockchain(t.from)), a, c)
  {
    hide Effect, One;
    EffectOfOne(Usual(t, DepositConfirmed)[0], a, c);
  }

  lemma PayoutEffect(t: Trade, a: Account, c: Currency)
    ensures Effect(Usual(t, PayoutCompleted), a, c) == One(Posting(Payout, t.to, t.toExpected, Wallet(t.user, t.to), Holding(t.to)), a, c)
  {
    hide Effect, One;
    EffectOfOne(Usual(t, PayoutCompleted)[0], a, c);
  }

  lemma SaleEffect(t: Trade, a: Account, c: Currency)
    ensures Effect(Usual(t, ConversionCompleted), a, c)
         == One(Posting(ConversionAsset, t.from, t.fromAmount, Inventory(t.from), Holding(t.from)), a, c)
          + One(Posting(ConversionFiat, t.to, t.toExpected + t.fee, Holding(t.to), Inventory(t.to)), a, c)
          + One(Posting(PlatformFee, t.to, t.fee, FeeRevenue(t.to), Holding(t.to)), a, c)
  {
    hide Effect;
    var ps := Usual(t, ConversionCompleted);
    assert ps[3].amount == 0 && ps[4].amount == 0;
    FiveEffects(ps[0], ps[1], ps[2], ps[3], ps[4], a, c);
    assert ps == [ps[0]] + [ps[1]] + [ps[2]] + [ps[3]] + [ps[4]];
  }

  lemma FiveEffects(p: Posting, q: Posting, r: Posting, x: Posting, y: Posting, a: Account, c: Currency)
    ensures Effect([p] + [q] + [r] + [x] + [y], a, c) == One(p, a, c) + One(q, a, c) + One(r, a, c) + One(x, a, c) + One(y, a, c)
  {
    hide Effect, One;
    EffectOfOne(p, a, c);
    EffectAppend([p], q, a, c);
    EffectAppend([p] + [q], r, a, c);
    EffectAppend([p] + [q] + [r], x, a, c);
    EffectAppend([p] + [q] + [r] + [x], y, a, c);
  }

  lemma QuietEffects(t: Trade, a: Account, c: Currency)
    ensures Effect(Usual(t, DepositReceived), a, c) == 0
    ensures Effect(Usual(t, ConversionInProgress), a, c) == 0
    ensures Effect(Usual(t, PayoutPending), a, c) == 0
  {
  }

  lemma ContributionAt(t: Trade, h: seq<Change>, k: nat, a: Account, c: Currency)
    requires 1 <= k < |h|
    ensures Contribution(t, h[..k + 1], a, c) == Contribution(t, h[..k], a, c) + Effect(Usual(t, h[k].to), a, c)
  {
    hide Effect, Usual;
    assert h[..k + 1][..k] == h[..k];
  }

  lemma NoContributionYet(t: Trade, h: seq<Change>, a: Account, c: Currency)
    requires |h| >= 1
    ensures Contribution(t, h[..1], a, c) == 0
  {
  }

  /** A clean, paid history: the whole path. */
  predicate WholeWay(h: seq<Change>) {
    |h| == |PATH| && forall i :: 0 <= i < |h| ==> h[i].to == PATH[i]
  }

  lemma PathContribution(t: Trade, h: seq<Change>, a: Account, c: Currency)
    requires WholeWay(h)
    ensures Contribution(t, h, a, c)
         == One(Posting(Deposit, t.from, t.fromAmount, Holding(t.from), Blockchain(t.from)), a, c)
          + One(Posting(ConversionAsset, t.from, t.fromAmount, Inventory(t.from), Holding(t.from)), a, c)
          + One(Posting(ConversionFiat, t.to, t.toExpected + t.fee, Holding(t.to), Inventory(t.to)), a, c)
          + One(Posting(PlatformFee, t.to, t.fee, FeeRevenue(t.to), Holding(t.to)), a, c)
          + One(Posting(Payout, t.to, t.toExpected, Wallet(t.user, t.to), Holding(t.to)), a, c)
  {
    NoContributionYet(t, h, a, c);
    QuietEffects(t, a, c);
    hide Contribution, Effect, Usual, One;
    DepositEffect(t, a, c);
    SaleEffect(t, a, c);
    PayoutEffect(t, a, c);
    assert h[..7] == h;
    ContributionAt(t, h, 1, a, c);
    ContributionAt(t, h, 2, a, c);
    ContributionAt(t, h, 3, a, c);
    ContributionAt(t, h, 4, a, c);
    ContributionAt(t, h, 5, a, c);
    ContributionAt(t, h, 6, a, c);
  }

  lemma PathSettles(t: Trade, h: seq<Change>)
    requires WholeWay(h) && 0 <= t.toExpected && 0 <= t.fee && t.from != t.to
    ensures Contribution(t, h, Holding(t.from), t.from) == 0 && Contribution(t, h, Holding(t.to), t.to) == 0
    ensures Contribution(t, h, Wallet(t.user, t.to), t.to) == t.toExpected
    ensures Contribution(t, h, FeeRevenue(t.to), t.to) == t.fee
  {
    PathContribution(t, h, Holding(t.from), t.from);
    PathContribution(t, h, Holding(t.to), t.to);
    PathContribution(t, h, Wallet(t.user, t.to), t.to);
    PathContribution(t, h, FeeRevenue(t.to), t.to);
    hide Contribution, WholeWay;
  }

  /** What a trade owes once paid, and nothing left in the holding account. */
  predicate LeavesNothing(s: Store, id: string, t: Trade) {
    && TradeNet(s.ledger, id, Holding(t.from), t.from) == 0 && TradeNet(s.ledger, id, Holding(t.to), t.to) == 0
    && PaidOver(s.ledger, id, t) == t.toExpected && TradeNet(s.ledger, id, FeeRevenue(t.to), t.to) == t.fee
  }

  /** The terms of the trade's quote. */
  predicate HasTerms(s: Store, t: Trade) {
    t.quote in s.quotes && t.toExpected == s.quotes[t.quote].net && t.fee == s.quotes[t.quote].fee
  }

  /** A clean run settles: a trade paid without dispute, failed payout or repeated status has left nothing in the
      holding account in either currency, has paid the user exactly what its quote promised and the platform exactly
      its fee. */
  lemma CleanRunSettles(cfg: Config, steps: seq<Step>, id: string, t: Trade)
    requires RowIs(Run(cfg, steps).db, id, t) && t.status == PayoutCompleted && CleanHistory(Past(Run(cfg, steps).db, id))
    ensures LeavesNothing(Run(cfg, steps).db, id, t) && HasTerms(Run(cfg, steps).db, t)
  {
    RunIsAccounted(cfg, steps);
    RunIsRecorded(cfg, steps);
    RunIsQuoted(cfg, steps);
    hide Run;
    SettledStore(Run(cfg, steps).db, id, t);
  }

  lemma SettledStore(s: Store, id: string, t: Trade)
    requires Accounted(s) && Recorded(s) && Quoted(s) && RowIs(s, id, t) && t.status == PayoutCompleted && CleanHistory(Past(s, id))
    ensures LeavesNothing(s, id, t) && HasTerms(s, t)
  {
    var h := Past(s, id);
    TermsOf(s, id, t);
    assert RecordedAt(s, id);
    CurrentIsVisited(h);
    assert !WasDisputed(s, id);
    assert SettledAt(s, id);
    hide Accounted, Recorded, Quoted, TradeNet, Contribution, Past, Visited, Linked;
    CleanPath(h);
    PathSettles(t, h);
  }

  lemma TermsOf(s: Store, id: string, t: Trade)
    requires Quoted(s) && RowIs(s, id, t)
    ensures HasTerms(s, t) && 0 <= t.toExpected && 0 <= t.fee && t.from != t.to
  {
    assert Backed(s, t);
    assert FairQuote(s.quotes[t.quote]);
    hide ProceedsRight;
  }

  // ------------------------------------------------------------------ forced completions

  lemma ForcedAmount(s: Store, ticket: nat, note: string, ask: Ask)
    requires ResolveAsk(s, ticket, Some(ForceComplete), note) == Some(ask)
    ensures ask.to == PayoutCompleted && !ask.meta.skipLedger && ask.trade in s.trades
    ensures ask.trade in s.trades ==> ask.meta.toAmountActual == Some(s.trades[ask.trade].toExpected)
  {
    hide Text.FirstNonBlank, Text.Trim, ForcedRef;
  }

  /** A forced completion that is not refused pays in the ledger whatever the status it finds: the user's wallet gains
      the expected amount if and only if the operation key is new, so a trade already paid, but left with an open
      ticket, is paid again. */
  lemma ForcedCompletionPays(s: Store, ticket: nat, note: string, resolver: string, tick: Tick, ask: Ask, t: Trade)
    requires ResolveAsk(s, ticket, Some(ForceComplete), note) == Some(ask) && RowIs(s, ask.trade, t) && t.toExpected > 0
    requires !Update(s, ask.trade, ask.to, ask.meta, tick).Refused?
    ensures PaidOver(Resolved(s, ticket, Some(ForceComplete), note, resolver, tick).ledger, ask.trade, t)
         == PaidOver(s.ledger, ask.trade, t) + if KeyAsked(ask) in s.keys then 0 else t.toExpected
  {
    ResolvedIs(s, ticket, ForceComplete, note, resolver, tick, ask);
    ForcedAmount(s, ticket, note, ask);
    hide Update, ResolveAsk, Resolved, Closed, PaidOver, KeyAsked, RetryStatus, Settle;
    PaidBy(s, ask, tick, t);
  }

  lemma PaidBy(s: Store, ask: Ask, tick: Tick, t: Trade)
    requires RowIs(s, ask.trade, t) && ask.to == PayoutCompleted && !ask.meta.skipLedger && ask.meta.toAmountActual == Some(t.toExpected)
    requires t.toExpected > 0 && !Update(s, ask.trade, ask.to, ask.meta, tick).Refused?
    ensures PaidOver(Settle(s, Update(s, ask.trade, ask.to, ask.meta, tick)).ledger, ask.trade, t)
         == PaidOver(s.ledger, ask.trade, t) + if KeyAsked(ask) in s.keys then 0 else t.toExpected
  {
    ForcedEffect(t, ask.meta);
    UpdateCases(s, ask.trade, ask.to, ask.meta, tick);
    hide KeyOf, Posted, TradeNet, Effect, PostingsFor, Update, FitsRow, Allowed, Commit, NoticeFits;
    var o := Update(s, ask.trade, ask.to, ask.meta, tick);
    if o.Applied? {
      WhenApplied(s, ask.trade, ask.to, ask.meta, tick);
      PostedNet(s, ask.trade, t, ask.to, ask.meta, tick, o.after.ledger, ask.trade, Wallet(t.user, t.to), t.to);
    }
  }

  lemma ForcedEffect(t: Trade, m: Metadata)
    requires m.toAmountActual == Some(t.toExpected) && t.toExpected > 0
    ensures Effect(PostingsFor(t, PayoutCompleted, m), Wallet(t.user, t.to), t.to) == t.toExpected
  {
    hide Effect;
    EffectOfOne(PostingsFor(t, PayoutCompleted, m)[0], Wallet(t.user, t.to), t.to);
  }
}
