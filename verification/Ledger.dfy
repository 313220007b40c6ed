/** The double-entry ledger: rows, the running balance a posting reads back, and postings.
    A row's `at` is the start of the transaction that wrote it and its `id` is a random identifier, so rows
    written by one transaction share `at` and the balance query orders them by `id`. */
module Ledger {
  import opened Wrappers
  import opened Text

  datatype Currency = BTC | ETH | USDC | USDT | NGN | USD

  datatype Direction = Debit | Credit
  {
    function KeyText(): string {
      match this
      case Debit => ":debit"
      case Credit => ":credit"
    }
  }

  datatype Kind =
    | Deposit
    | ConversionAsset
    | ConversionFiat
    | PlatformFee
    | FxSpread
    | ExpressFee
    | Payout
    | PayoutFailedReserve
    | DisputeAdjustment
  {
    /** What a posting of this kind adds to the operation key. */
    function KeyText(): string {
      match this
      case Deposit => ":deposit"
      case ConversionAsset => ":conversion_asset"
      case ConversionFiat => ":conversion_fiat"
      case PlatformFee => ":platform_fee"
      case FxSpread => ":fx_spread"
      case ExpressFee => ":express_fee"
      case Payout => ":payout"
      case PayoutFailedReserve => ":payout_failed"
      case DisputeAdjustment => ":dispute"
    }
  }

  datatype Account =
    | Blockchain(currency: Currency)
    | Holding(currency: Currency)
    | Inventory(currency: Currency)
    | FeeRevenue(currency: Currency)
    | SpreadRevenue(currency: Currency)
    | ExpressRevenue(currency: Currency)
    | FailedSuspense(currency: Currency)
    | DisputeSuspense(currency: Currency)
    | Wallet(user: string, currency: Currency)

  datatype Entry = Entry(
    trade: string, kind: Kind, currency: Currency, amount: int, direction: Direction,
    account: Account, balanceAfter: int, key: string, at: int, id: int)

  /** A transaction's clock reading and the random identifiers its rows draw. */
  datatype Tick = Tick(now: int, ids: seq<int>)
  {
    function Id(k: nat): int {
      if k < |ids| then ids[k] else k
    }
  }

  datatype Posting = Posting(kind: Kind, currency: Currency, amount: int, debit: Account, credit: Account)

  datatype Failure = KeyTooLong | KeyTaken

  // Width of the ledger's unique key column.
  const KEY_WIDTH := 128

  function Signed(e: Entry): int {
    if e.direction == Debit then e.amount else -e.amount
  }

  predicate On(e: Entry, a: Account, c: Currency) {
    e.account == a && e.currency == c
  }

  predicate Newer(x: Entry, y: Entry) {
    x.at > y.at || (x.at == y.at && x.id > y.id)
  }

  /** Debits minus credits of an account over all rows: what its balance means. */
  function Net(rows: seq<Entry>, a: Account, c: Currency): int {
    if rows == [] then 0
    else
      var e := rows[|rows| - 1];
      Net(rows[..|rows| - 1], a, c) + if On(e, a, c) then Signed(e) else 0
  }

  /** The row the balance query picks: the account's newest by time, then identifier. */
  function Latest(rows: seq<Entry>, a: Account, c: Currency): (r: Option<nat>)
    ensures r.Some? ==> r.value < |rows| && On(rows[r.value], a, c)
    ensures r.Some? ==> forall i :: 0 <= i < |rows| && On(rows[i], a, c) ==> !Newer(rows[i], rows[r.value])
    ensures r.None? <==> forall i :: 0 <= i < |rows| ==> !On(rows[i], a, c)
  {
    if rows == [] then None
    else
      var n := |rows| - 1;
      var older := Latest(rows[..n], a, c);
      if On(rows[n], a, c) && (older.None? || Newer(rows[n], rows[older.value])) then Some(n) else older
  }

  /** What a posting reads back as the account's balance so far. */
  function Balance(rows: seq<Entry>, a: Account, c: Currency): int {
    match Latest(rows, a, c)
    case None => 0
    case Some(i) => rows[i].balanceAfter
  }

  function RowKey(opKey: string, kind: Kind, d: Direction): string {
    NormalizeKey(opKey + kind.KeyText() + d.KeyText())
  }

  predicate KeyUsed(rows: seq<Entry>, key: string) {
    exists i :: 0 <= i < |rows| && rows[i].key == key
  }

  function DebitRow(rows: seq<Entry>, trade: string, p: Posting, opKey: string, tick: Tick, k: nat): Entry {
    Entry(trade, p.kind, p.currency, p.amount, Debit, p.debit, Balance(rows, p.debit, p.currency) + p.amount,
          RowKey(opKey, p.kind, Debit), tick.now, tick.Id(2 * k))
  }

  function CreditRow(rows: seq<Entry>, trade: string, p: Posting, opKey: string, tick: Tick, k: nat): Entry {
    Entry(trade, p.kind, p.currency, p.amount, Credit, p.credit, Balance(rows, p.credit, p.currency) - p.amount,
          RowKey(opKey, p.kind, Credit), tick.now, tick.Id(2 * k + 1))
  }

  function Fits(rows: seq<Entry>, kind: Kind, opKey: string): Option<Failure> {
    var debitKey, creditKey := RowKey(opKey, kind, Debit), RowKey(opKey, kind, Credit);
    if |debitKey| > KEY_WIDTH || |creditKey| > KEY_WIDTH then Some(KeyTooLong)
    else if KeyUsed(rows, debitKey) || KeyUsed(rows, creditKey) || debitKey == creditKey then Some(KeyTaken)
    else None
  }

  /** One balanced posting: nothing for an amount that is not positive, otherwise a debit and a credit row
      written together, each carrying the balance its account had before plus or minus the amount. */
  function Post(rows: seq<Entry>, trade: string, p: Posting, opKey: string, tick: Tick, k: nat): Result<seq<Entry>, Failure> {
    if p.amount <= 0 then Ok(rows)
    else match Fits(rows, p.kind, opKey)
      case Some(f) => Err(f)
      case None => Ok(rows + [DebitRow(rows, trade, p, opKey, tick, k), CreditRow(rows, trade, p, opKey, tick, k)])
  }

  /** Postings of one transaction, first to last; the first refusal refuses them all. */
  function PostAll(rows: seq<Entry>, trade: string, ps: seq<Posting>, opKey: string, tick: Tick): Result<seq<Entry>, Failure> {
    if ps == [] then Ok(rows)
    else
      var k := |ps| - 1;
      match PostAll(rows, trade, ps[..k], opKey, tick)
      case Err(f) => Err(f)
      case Ok(done) => Post(done, trade, ps[k], opKey, tick, k)
  }

  // ------------------------------------------------------------------ what every posting keeps

  /** A pair of rows as a posting writes them. */
  ghost predicate PairAt(rows: seq<Entry>, i: nat)
    requires i + 1 < |rows|
  {
    var d, c := rows[i], rows[i + 1];
    && d.direction == Debit && c.direction == Credit && d.account != c.account
    && d.trade == c.trade && d.kind == c.kind && d.currency == c.currency && d.amount == c.amount > 0 && d.at == c.at
    && d.balanceAfter == Balance(rows[..i], d.account, d.currency) + d.amount
    && c.balanceAfter == Balance(rows[..i], c.account, c.currency) - c.amount
  }

  /** Rows that came about by balanced postings only. */
  ghost predicate Journal(rows: seq<Entry>) {
    rows == [] || (|rows| >= 2 && PairAt(rows, |rows| - 2) && Journal(rows[..|rows| - 2]))
  }

  predicate Balanced(ps: seq<Posting>) {
    forall p <- ps :: p.debit != p.credit
  }

  // The rows a pair adds, seen from both ends.
  lemma PairEnds(rows: seq<Entry>, d: Entry, c: Entry)
    ensures var after := rows + [d, c];
            && after[|after| - 2] == d && after[|after| - 1] == c
            && after[..|after| - 2] == rows && after[..|after| - 1] == rows + [d] && (rows + [d])[..|rows|] == rows
  {
  }

  lemma PostShape(rows: seq<Entry>, trade: string, p: Posting, opKey: string, tick: Tick, k: nat)
    requires p.amount > 0 && Post(rows, trade, p, opKey, tick, k).Ok?
    ensures Post(rows, trade, p, opKey, tick, k).value
         == rows + [DebitRow(rows, trade, p, opKey, tick, k), CreditRow(rows, trade, p, opKey, tick, k)]
  {
    hide RowKey, Fits;
  }

  lemma JournalPair(rows: seq<Entry>, d: Entry, c: Entry)
    requires Journal(rows)
    requires d.direction == Debit && c.direction == Credit && d.account != c.account
    requires d.trade == c.trade && d.kind == c.kind && d.currency == c.currency && d.amount == c.amount > 0 && d.at == c.at
    requires d.balanceAfter == Balance(rows, d.account, d.currency) + d.amount
    requires c.balanceAfter == Balance(rows, c.account, c.currency) - c.amount
    ensures Journal(rows + [d, c])
  {
    PairEnds(rows, d, c);
  }

  lemma PostKeepsJournal(rows: seq<Entry>, trade: string, p: Posting, opKey: string, tick: Tick, k: nat)
    requires Journal(rows) && p.debit != p.credit && Post(rows, trade, p, opKey, tick, k).Ok?
    ensures Journal(Post(rows, trade, p, opKey, tick, k).value)
  {
    hide RowKey, Fits;
    if p.amount > 0 {
      PostShape(rows, trade, p, opKey, tick, k);
      JournalPair(rows, DebitRow(rows, trade, p, opKey, tick, k), CreditRow(rows, trade, p, opKey, tick, k));
    }
  }

  lemma {:induction false} PostAllKeepsJournal(rows: seq<Entry>, trade: string, ps: seq<Posting>, opKey: string, tick: Tick)
    requires Journal(rows) && Balanced(ps) && PostAll(rows, trade, ps, opKey, tick).Ok?
    ensures Journal(PostAll(rows, trade, ps, opKey, tick).value)
  {
    hide RowKey, Fits;
    if ps != [] {
      var k := |ps| - 1;
      PostAllKeepsJournal(rows, trade, ps[..k], opKey, tick);
      PostKeepsJournal(PostAll(rows, trade, ps[..k], opKey, tick).value, trade, ps[k], opKey, tick, k);
    }
  }

  /** Postings only ever append. */
  lemma {:induction false} PostAllAppends(rows: seq<Entry>, trade: string, ps: seq<Posting>, opKey: string, tick: Tick)
    requires PostAll(rows, trade, ps, opKey, tick).Ok?
    ensures rows <= PostAll(rows, trade, ps, opKey, tick).value
    ensures forall i :: |rows| <= i < |PostAll(rows, trade, ps, opKey, tick).value|
              ==> var e := PostAll(rows, trade, ps, opKey, tick).value[i]; e.trade == trade && e.at == tick.now
  {
    hide RowKey, Fits;
    if ps != [] {
      PostAllAppends(rows, trade, ps[..|ps| - 1], opKey, tick);
    }
  }

  // ------------------------------------------------------------------ balances read back

  /** Each account's rows were written in the order the balance query sorts them by. */
  ghost predicate InOrder(rows: seq<Entry>) {
    forall i, j :: 0 <= i < j < |rows| && rows[i].account == rows[j].account && rows[i].currency == rows[j].currency
      ==> Newer(rows[j], rows[i])
  }

  lemma LatestInOrder(rows: seq<Entry>, a: Account, c: Currency)
    requires rows != [] && InOrder(rows)
    ensures InOrder(rows[..|rows| - 1])
    ensures On(rows[|rows| - 1], a, c) ==> Latest(rows, a, c) == Some(|rows| - 1)
    ensures Balance(rows, a, c)
         == if On(rows[|rows| - 1], a, c) then rows[|rows| - 1].balanceAfter else Balance(rows[..|rows| - 1], a, c)
  {
    var n := |rows| - 1;
    var older := Latest(rows[..n], a, c);
    if On(rows[n], a, c) && older.Some? {
      assert Newer(rows[n], rows[older.value]);
    }
  }

  lemma NetOfPair(rows: seq<Entry>, a: Account, c: Currency)
    requires |rows| >= 2
    ensures Net(rows, a, c) == Net(rows[..|rows| - 2], a, c)
         + (if On(rows[|rows| - 2], a, c) then Signed(rows[|rows| - 2]) else 0)
         + (if On(rows[|rows| - 1], a, c) then Signed(rows[|rows| - 1]) else 0)
  {
    assert rows[..|rows| - 1][..|rows| - 2] == rows[..|rows| - 2];
  }

  lemma BalanceOfPair(rows: seq<Entry>, a: Account, c: Currency)
    requires |rows| >= 2 && InOrder(rows)
    ensures InOrder(rows[..|rows| - 2])
    ensures Balance(rows, a, c)
         == if On(rows[|rows| - 1], a, c) then rows[|rows| - 1].balanceAfter
            else if On(rows[|rows| - 2], a, c) then rows[|rows| - 2].balanceAfter
            else Balance(rows[..|rows| - 2], a, c)
  {
    LatestInOrder(rows, a, c);
    LatestInOrder(rows[..|rows| - 1], a, c);
    assert rows[..|rows| - 1][..|rows| - 2] == rows[..|rows| - 2];
  }

  /** The running balance is the balance: when every account's rows were written in the order they are sorted,
      what a posting reads back is the sum of all the account's debits minus all its credits. */
  lemma {:induction false} BalanceIsNet(rows: seq<Entry>, a: Account, c: Currency)
    requires Journal(rows) && InOrder(rows)
    ensures Balance(rows, a, c) == Net(rows, a, c)
  {
    if rows != [] {
      BalanceOfPair(rows, a, c);
      NetOfPair(rows, a, c);
      BalanceIsNet(rows[..|rows| - 2], a, c);
    }
  }

  // ------------------------------------------------------------------ trial balance

  predicate Distinct(accounts: seq<Account>) {
    forall i, j :: 0 <= i < j < |accounts| ==> accounts[i] != accounts[j]
  }

  predicate Covers(accounts: seq<Account>, rows: seq<Entry>) {
    forall e <- rows :: e.account in accounts
  }

  function SumNet(accounts: seq<Account>, rows: seq<Entry>, c: Currency): int {
    if accounts == [] then 0 else Net(rows, accounts[0], c) + SumNet(accounts[1..], rows, c)
  }

  function SumBalance(accounts: seq<Account>, rows: seq<Entry>, c: Currency): int {
    if accounts == [] then 0 else Balance(rows, accounts[0], c) + SumBalance(accounts[1..], rows, c)
  }

  lemma {:induction false} SumNetOfLast(accounts: seq<Account>, rows: seq<Entry>, c: Currency)
    requires Distinct(accounts) && rows != []
    ensures SumNet(accounts, rows, c) == SumNet(accounts, rows[..|rows| - 1], c)
         + if rows[|rows| - 1].account in accounts && rows[|rows| - 1].currency == c then Signed(rows[|rows| - 1]) else 0
  {
    if accounts != [] {
      SumNetOfLast(accounts[1..], rows, c);
      assert forall i :: 0 <= i < |accounts[1..]| ==> accounts[1..][i] == accounts[i + 1];
      assert accounts[0] !in accounts[1..];
      assert accounts == [accounts[0]] + accounts[1..];
    }
  }

  /** Double entry: over any accounts that cover the ledger, true balances cancel out, in every currency. */
  lemma {:induction false} NetsCancel(accounts: seq<Account>, rows: seq<Entry>, c: Currency)
    requires Journal(rows) && Distinct(accounts) && Covers(accounts, rows)
    ensures SumNet(accounts, rows, c) == 0
  {
    if rows == [] {
      EmptyNets(accounts, c);
    } else {
      var n := |rows|;
      SumNetOfLast(accounts, rows, c);
      SumNetOfLast(accounts, rows[..n - 1], c);
      assert rows[..n - 1][..n - 2] == rows[..n - 2];
      assert rows[n - 1] in rows && rows[n - 2] in rows;
      NetsCancel(accounts, rows[..n - 2], c);
    }
  }

  lemma {:induction false} EmptyNets(accounts: seq<Account>, c: Currency)
    ensures SumNet(accounts, [], c) == 0
  {
    if accounts != [] {
      EmptyNets(accounts[1..], c);
    }
  }

  // ------------------------------------------------------------------ one trade's share

  function Moved(rows: seq<Entry>, trade: string, d: Direction, c: Currency): int {
    if rows == [] then 0
    else
      var e := rows[|rows| - 1];
      Moved(rows[..|rows| - 1], trade, d, c) + if e.trade == trade && e.direction == d && e.currency == c then e.amount else 0
  }

  /** Each trade's debits equal its credits, whatever the clock did. */
  lemma {:induction false} TradeBalances(rows: seq<Entry>, trade: string, c: Currency)
    requires Journal(rows)
    ensures Moved(rows, trade, Debit, c) == Moved(rows, trade, Credit, c)
  {
    if rows != [] {
      var n := |rows|;
      assert rows[..n - 1][..n - 2] == rows[..n - 2];
      TradeBalances(rows[..n - 2], trade, c);
    }
  }

  /** What one trade contributed to an account. */
  function TradeNet(rows: seq<Entry>, trade: string, a: Account, c: Currency): int {
    if rows == [] then 0
    else
      var e := rows[|rows| - 1];
      TradeNet(rows[..|rows| - 1], trade, a, c) + if e.trade == trade && On(e, a, c) then Signed(e) else 0
  }

  /** What a list of postings means for an account, before any of it is written. */
  function Effect(ps: seq<Posting>, a: Account, c: Currency): int {
    if ps == [] then 0
    else
      var p := ps[|ps| - 1];
      Effect(ps[..|ps| - 1], a, c)
      + (if p.amount > 0 && p.currency == c && p.debit == a then p.amount else 0)
      - (if p.amount > 0 && p.currency == c && p.credit == a then p.amount else 0)
  }

  lemma TradeNetOfPair(rows: seq<Entry>, d: Entry, cr: Entry, trade: string, a: Account, c: Currency)
    ensures TradeNet(rows + [d, cr], trade, a, c) == TradeNet(rows, trade, a, c)
         + (if d.trade == trade && On(d, a, c) then Signed(d) else 0)
         + (if cr.trade == trade && On(cr, a, c) then Signed(cr) else 0)
  {
    PairEnds(rows, d, cr);
  }

  /** Posting changes a trade's contribution by exactly the postings' effect and no other trade's at all. */
  lemma {:induction false} PostAllEffect(rows: seq<Entry>, trade: string, ps: seq<Posting>, opKey: string, tick: Tick,
                                         other: string, a: Account, c: Currency)
    requires PostAll(rows, trade, ps, opKey, tick).Ok?
    ensures TradeNet(PostAll(rows, trade, ps, opKey, tick).value, other, a, c)
         == TradeNet(rows, other, a, c) + if other == trade then Effect(ps, a, c) else 0
  {
    hide RowKey, Fits;
    if ps != [] {
      var k := |ps| - 1;
      PostAllEffect(rows, trade, ps[..k], opKey, tick, other, a, c);
      var done := PostAll(rows, trade, ps[..k], opKey, tick).value;
      if ps[k].amount > 0 {
        PostShape(done, trade, ps[k], opKey, tick, k);
        TradeNetOfPair(done, DebitRow(done, trade, ps[k], opKey, tick, k), CreditRow(done, trade, ps[k], opKey, tick, k),
                       other, a, c);
      }
    }
  }

  // ------------------------------------------------------------------ keys

  // Where a row key tells its kind: two characters near the end of the kind's text.
  function Tag(kind: Kind): (char, char) {
    match kind
    case Deposit => ('p', 'o')
    case ConversionAsset => ('a', 's')
    case ConversionFiat => ('_', 'f')
    case PlatformFee => ('m', '_')
    case FxSpread => ('p', 'r')
    case ExpressFee => ('s', '_')
    case Payout => ('a', 'y')
    case PayoutFailedReserve => ('a', 'i')
    case DisputeAdjustment => ('s', 'p')
  }

  lemma KindTag(kind: Kind)
    ensures |kind.KeyText()| >= 5 && kind.KeyText()[0] == ':'
    ensures (kind.KeyText()[|kind.KeyText()| - 5], kind.KeyText()[|kind.KeyText()| - 4]) == Tag(kind)
    ensures KeyText(kind.KeyText())
  {
  }

  // A common ending can be taken off, and so can the tag in front of it.
  lemma StripEnding(a: string, b: string, e: string)
    requires a + e == b + e
    ensures a == b
  {
    assert a == (a + e)[..|a|] && b == (b + e)[..|b|];
  }

  lemma EndingAt(a: string, e: string, k: nat)
    requires 0 < k <= |e|
    ensures (a + e)[|a + e| - k] == e[|e| - k]
  {
  }

  /** The end of a row key names its kind and direction, so rows of different kinds or directions never
      share a key, and rows of one kind and direction share it only if they share the operation key. */
  lemma RowKeysDiffer(k1: string, kind1: Kind, d1: Direction, k2: string, kind2: Kind, d2: Direction)
    requires k1 + kind1.KeyText() + d1.KeyText() == k2 + kind2.KeyText() + d2.KeyText()
    ensures k1 == k2 && kind1 == kind2 && d1 == d2
  {
    KindTag(kind1);
    KindTag(kind2);
    hide Kind.KeyText;
    var n1, n2 := kind1.KeyText(), kind2.KeyText();
    EndingAt(k1 + n1, d1.KeyText(), 3);
    EndingAt(k2 + n2, d2.KeyText(), 3);
    assert d1 == d2;
    hide Direction.KeyText;
    StripEnding(k1 + n1, k2 + n2, d1.KeyText());
    EndingAt(k1, n1, 5);
    EndingAt(k1, n1, 4);
    EndingAt(k2, n2, 5);
    EndingAt(k2, n2, 4);
    assert Tag(kind1) == Tag(kind2);
    assert kind1 == kind2;
    StripEnding(k1, k2, n1);
  }
}
