/** What the balance query reads. Rows of one transaction share their time, and the query then orders them by random
    identifiers, so after a conversion the holding account is read right or wrong by the draw of two of them. */
module LedgerReading {
  import opened Wrappers
  import opened Lifecycle
  import opened Ledger
  import opened Store

  /** Every row is older than the transaction now beginning. */
  ghost predicate Older(rows: seq<Entry>, now: int) {
    forall i :: 0 <= i < |rows| ==> rows[i].at < now
  }

  ghost predicate OlderOn(rows: seq<Entry>, now: int, a: Account, c: Currency) {
    forall i :: 0 <= i < |rows| && On(rows[i], a, c) ==> rows[i].at < now
  }

  /** The query sorts the row after all others of its account. */
  ghost predicate Tops(rows: seq<Entry>, e: Entry) {
    forall i :: 0 <= i < |rows| && On(rows[i], e.account, e.currency) ==> Newer(e, rows[i])
  }

  function OffAt(a: Account, c: Currency, off: int): int {
    if a == Holding(NGN) && c == NGN then off else 0
  }

  /** Every balance read back is its account's debits minus its credits, but for the fiat holding account's, which is
      too high by `off`. */
  ghost predicate ReadsOff(rows: seq<Entry>, off: int) {
    forall a, c :: Balance(rows, a, c) == Net(rows, a, c) + OffAt(a, c, off)
  }

  // ------------------------------------------------------------------ one row

  lemma AppendReads(rows: seq<Entry>, e: Entry, a: Account, c: Currency)
    ensures Net(rows + [e], a, c) == Net(rows, a, c) + if On(e, a, c) then Signed(e) else 0
    ensures !On(e, a, c) ==> Balance(rows + [e], a, c) == Balance(rows, a, c)
    ensures On(e, a, c) && (Latest(rows, a, c).None? || Newer(e, rows[Latest(rows, a, c).value])) ==>
              Balance(rows + [e], a, c) == e.balanceAfter
    ensures On(e, a, c) && Latest(rows, a, c).Some? && !Newer(e, rows[Latest(rows, a, c).value]) ==>
              Balance(rows + [e], a, c) == Balance(rows, a, c)
  {
    var after := rows + [e];
    assert after[..|rows|] == rows && after[|rows|] == e;
    var r := Latest(rows, a, c);
    assert r.Some? ==> after[r.value] == rows[r.value];
  }

  // A row on top of its account, with the balance it read and its amount, is read back as it should be.
  lemma TopRow(rows: seq<Entry>, e: Entry, off: int)
    requires Tops(rows, e) && ReadsOff(rows, off) && e.balanceAfter == Balance(rows, e.account, e.currency) + Signed(e)
    ensures ReadsOff(rows + [e], off) && (InOrder(rows + [e]) <==> InOrder(rows))
  {
    forall a, c
      ensures Balance(rows + [e], a, c) == Net(rows + [e], a, c) + OffAt(a, c, off)
    {
      AppendReads(rows, e, a, c);
      hide Latest, Net, InOrder, Newer;
      assert Balance(rows, a, c) == Net(rows, a, c) + OffAt(a, c, off);
    }
    TopOrder(rows, e);
  }

  lemma TopOrder(rows: seq<Entry>, e: Entry)
    requires Tops(rows, e)
    ensures InOrder(rows + [e]) <==> InOrder(rows)
  {
    var after := rows + [e];
    if InOrder(after) {
      forall i, j | 0 <= i < j < |rows| && rows[i].account == rows[j].account && rows[i].currency == rows[j].currency
        ensures Newer(rows[j], rows[i])
      {
        assert after[i] == rows[i] && after[j] == rows[j];
      }
    }
  }

  // A row sorted below its account's newest is not read: the account's balance stays what it was.
  lemma LowRow(rows: seq<Entry>, e: Entry, off: int)
    requires ReadsOff(rows, off) && e.account == Holding(NGN) && e.currency == NGN
    requires var top := Latest(rows, Holding(NGN), NGN); top.Some? && !Newer(e, rows[top.value])
    ensures ReadsOff(rows + [e], off - Signed(e)) && !InOrder(rows + [e])
  {
    forall a, c
      ensures Balance(rows + [e], a, c) == Net(rows + [e], a, c) + OffAt(a, c, off - Signed(e))
    {
      AppendReads(rows, e, a, c);
      hide Latest, Net, InOrder, Newer;
      assert Balance(rows, a, c) == Net(rows, a, c) + OffAt(a, c, off);
    }
    hide Latest, Net, Newer;
    var after, k := rows + [e], Latest(rows, Holding(NGN), NGN).value;
    assert after[k] == rows[k] && after[|rows|] == e;
  }

  // ------------------------------------------------------------------ one posting

  // Both rows of a posting on top of their accounts.
  lemma TopPair(rows: seq<Entry>, d: Entry, cr: Entry, off: int)
    requires d.account != cr.account && Tops(rows, d) && Tops(rows, cr) && ReadsOff(rows, off)
    requires d.balanceAfter == Balance(rows, d.account, d.currency) + Signed(d)
    requires cr.balanceAfter == Balance(rows, cr.account, cr.currency) + Signed(cr)
    ensures ReadsOff(rows + [d, cr], off) && (InOrder(rows + [d, cr]) <==> InOrder(rows))
  {
    assert rows + [d, cr] == rows + [d] + [cr];
    AppendReads(rows, d, cr.account, cr.currency);
    TopRow(rows, d, off);
    TopsMore(rows, d, cr);
    hide Balance, ReadsOff, InOrder, Tops;
    TopRow(rows + [d], cr, off);
  }

  lemma TopsMore(rows: seq<Entry>, d: Entry, cr: Entry)
    requires d.account != cr.account && Tops(rows, cr)
    ensures Tops(rows + [d], cr)
  {
  }

  lemma OlderTops(rows: seq<Entry>, e: Entry)
    requires OlderOn(rows, e.at, e.account, e.currency)
    ensures Tops(rows, e)
  {
  }

  lemma PairElsewhere(rows: seq<Entry>, d: Entry, cr: Entry, now: int, a: Account, c: Currency)
    requires OlderOn(rows, now, a, c) && !On(d, a, c) && !On(cr, a, c)
    ensures OlderOn(rows + [d, cr], now, a, c)
  {
  }

  /** A posting on accounts the transaction has not touched yet. */
  lemma FreshPosting(rows: seq<Entry>, trade: string, p: Posting, opKey: string, tick: Tick, k: nat, off: int)
    requires p.debit != p.credit && Post(rows, trade, p, opKey, tick, k).Ok? && ReadsOff(rows, off)
    requires OlderOn(rows, tick.now, p.debit, p.currency) && OlderOn(rows, tick.now, p.credit, p.currency)
    ensures var done := Post(rows, trade, p, opKey, tick, k).value; ReadsOff(done, off) && (InOrder(done) <==> InOrder(rows))
  {
    hide RowKey, Fits, Balance, ReadsOff, InOrder, Tops, OlderOn;
    if p.amount > 0 {
      PostShape(rows, trade, p, opKey, tick, k);
      var d, cr := DebitRow(rows, trade, p, opKey, tick, k), CreditRow(rows, trade, p, opKey, tick, k);
      OlderTops(rows, d);
      OlderTops(rows, cr);
      TopPair(rows, d, cr, off);
    }
  }

  lemma PostedElsewhere(rows: seq<Entry>, trade: string, p: Posting, opKey: string, tick: Tick, k: nat, a: Account, c: Currency)
    requires Post(rows, trade, p, opKey, tick, k).Ok? && OlderOn(rows, tick.now, a, c) && ((a != p.debit && a != p.credit) || c != p.currency)
    ensures OlderOn(Post(rows, trade, p, opKey, tick, k).value, tick.now, a, c)
  {
    hide RowKey, Fits, Balance, OlderOn;
    if p.amount > 0 {
      PostShape(rows, trade, p, opKey, tick, k);
      PairElsewhere(rows, DebitRow(rows, trade, p, opKey, tick, k), CreditRow(rows, trade, p, opKey, tick, k), tick.now, a, c);
    }
  }

  lemma OlderEverywhere(rows: seq<Entry>, now: int, a: Account, c: Currency)
    requires Older(rows, now)
    ensures OlderOn(rows, now, a, c)
  {
  }

  /** A transaction with one posting, later than all before it, keeps every balance as right as it was. */
  lemma SinglePosting(rows: seq<Entry>, trade: string, p: Posting, opKey: string, tick: Tick, off: int)
    requires p.debit != p.credit && PostAll(rows, trade, [p], opKey, tick).Ok? && ReadsOff(rows, off) && Older(rows, tick.now)
    ensures var done := PostAll(rows, trade, [p], opKey, tick).value; ReadsOff(done, off) && (InOrder(done) <==> InOrder(rows))
  {
    hide Post, ReadsOff, InOrder, OlderOn, Older;
    assert [p][..0] == [] && [p][..1] == [p];
    Unfold(rows, trade, [p], 0, opKey, tick);
    OlderEverywhere(rows, tick.now, p.debit, p.currency);
    OlderEverywhere(rows, tick.now, p.credit, p.currency);
    FreshPosting(rows, trade, p, opKey, tick, 0, off);
  }

  lemma Unfold(rows: seq<Entry>, trade: string, ps: seq<Posting>, k: nat, opKey: string, tick: Tick)
    requires k < |ps|
    ensures PostAll(rows, trade, ps[..k + 1], opKey, tick).Ok? ==>
              PostAll(rows, trade, ps[..k], opKey, tick).Ok?
              && PostAll(rows, trade, ps[..k + 1], opKey, tick)
                 == Post(PostAll(rows, trade, ps[..k], opKey, tick).value, trade, ps[k], opKey, tick, k)
    ensures k == 0 ==> PostAll(rows, trade, ps[..k], opKey, tick) == Ok(rows)
  {
    hide Post;
    assert ps[..k + 1][..k] == ps[..k];
  }

  // ------------------------------------------------------------------ a conversion

  /** The postings of a conversion with no spread and no express fee, written one after the other. */
  function Converted(rows: seq<Entry>, trade: string, t: Trade, m: Metadata, opKey: string, tick: Tick): Result<seq<Entry>, Failure> {
    PostAll(rows, trade, PostingsFor(t, ConversionCompleted, m), opKey, tick)
  }

  function AssetPosting(t: Trade): Posting {
    Posting(ConversionAsset, t.from, t.fromAmount, Inventory(t.from), Holding(t.from))
  }

  function ProceedsPosting(t: Trade): Posting {
    Posting(ConversionFiat, t.to, t.toExpected + t.fee, Holding(t.to), Inventory(t.to))
  }

  function FeePosting(t: Trade): Posting {
    Posting(PlatformFee, t.to, t.fee, FeeRevenue(t.to), Holding(t.to))
  }

  lemma ConvertedStepwise(rows: seq<Entry>, trade: string, t: Trade, m: Metadata, opKey: string, tick: Tick)
    requires m.fxSpread == 0 && m.expressFee == 0 && Converted(rows, trade, t, m, opKey, tick).Ok?
    ensures var a := Post(rows, trade, AssetPosting(t), opKey, tick, 0);
            a.Ok? && var b := Post(a.value, trade, ProceedsPosting(t), opKey, tick, 1);
            b.Ok? && Post(b.value, trade, FeePosting(t), opKey, tick, 2) == Converted(rows, trade, t, m, opKey, tick)
  {
    var ps := PostingsFor(t, ConversionCompleted, m);
    assert ps[..5] == ps;
    Unfold(rows, trade, ps, 4, opKey, tick);
    Unfold(rows, trade, ps, 3, opKey, tick);
    Unfold(rows, trade, ps, 2, opKey, tick);
    Unfold(rows, trade, ps, 1, opKey, tick);
    Unfold(rows, trade, ps, 0, opKey, tick);
    assert ps[3].amount == 0 && ps[4].amount == 0;
    hide Fits, RowKey, Balance, PostAll;
  }

  /** The account's newest row was written now under this identifier, and every other row of it is older. */
  ghost predicate TopIs(rows: seq<Entry>, now: int, id: int, a: Account, c: Currency) {
    && Latest(rows, a, c).Some? && rows[Latest(rows, a, c).value].at == now && rows[Latest(rows, a, c).value].id == id
    && forall i :: 0 <= i < |rows| && On(rows[i], a, c) ==> rows[i].at < now || (rows[i].at == now && rows[i].id == id)
  }

  lemma PairTop(rows: seq<Entry>, d: Entry, cr: Entry)
    requires OlderOn(rows, d.at, d.account, d.currency) && d.account != cr.account
    ensures TopIs(rows + [d, cr], d.at, d.id, d.account, d.currency)
  {
    var after := rows + [d, cr];
    var top := Latest(after, d.account, d.currency);
    assert after[|rows|] == d && On(after[|rows|], d.account, d.currency);
    hide Latest;
    assert !Newer(after[|rows|], after[top.value]);
  }

  lemma ProceedsTop(rows: seq<Entry>, trade: string, t: Trade, opKey: string, tick: Tick)
    requires t.toExpected + t.fee > 0 && OlderOn(rows, tick.now, Holding(t.to), t.to)
    requires Post(rows, trade, ProceedsPosting(t), opKey, tick, 1).Ok?
    ensures TopIs(Post(rows, trade, ProceedsPosting(t), opKey, tick, 1).value, tick.now, tick.Id(2), Holding(t.to), t.to)
  {
    hide Fits, RowKey, Balance, TopIs, OlderOn;
    var p := ProceedsPosting(t);
    PostShape(rows, trade, p, opKey, tick, 1);
    PairTop(rows, DebitRow(rows, trade, p, opKey, tick, 1), CreditRow(rows, trade, p, opKey, tick, 1));
  }

  // A pair whose debit is on top of its account and whose credit may not be on top of the fiat holding account.
  lemma DrawnPair(rows: seq<Entry>, d: Entry, cr: Entry, id: int, off: int)
    requires d.account != cr.account && d.at == cr.at && Tops(rows, d) && ReadsOff(rows, off)
    requires cr.account == Holding(NGN) && cr.currency == NGN && TopIs(rows, cr.at, id, Holding(NGN), NGN)
    requires d.balanceAfter == Balance(rows, d.account, d.currency) + Signed(d)
    requires cr.balanceAfter == Balance(rows, cr.account, cr.currency) + Signed(cr)
    ensures ReadsOff(rows + [d, cr], if cr.id > id then off else off - Signed(cr))
    ensures InOrder(rows + [d, cr]) <==> InOrder(rows) && cr.id > id
  {
    hide Balance, InOrder, ReadsOff, Tops, TopIs, Latest, Newer;
    if cr.id > id {
      DrawnOnTop(rows, cr, id);
      TopPair(rows, d, cr, off);
    } else {
      TopRow(rows, d, off);
      assert rows + [d, cr] == rows + [d] + [cr];
      StillTop(rows, d, Holding(NGN), NGN);
      DrawnBelow(rows, cr, id);
      LowRow(rows + [d], cr, off);
    }
  }

  lemma DrawnBelow(rows: seq<Entry>, e: Entry, id: int)
    requires TopIs(rows, e.at, id, e.account, e.currency) && e.id <= id
    ensures var top := Latest(rows, e.account, e.currency); top.Some? && !Newer(e, rows[top.value])
  {
    hide Latest;
  }

  /** The fee's two rows: the credit is on top of the proceeds, or below them, by the draw. */
  lemma FeeReads(rows: seq<Entry>, trade: string, t: Trade, opKey: string, tick: Tick, off: int)
    requires t.fee > 0 && t.to == NGN && ReadsOff(rows, off) && OlderOn(rows, tick.now, FeeRevenue(t.to), t.to)
    requires TopIs(rows, tick.now, tick.Id(2), Holding(t.to), t.to) && Post(rows, trade, FeePosting(t), opKey, tick, 2).Ok?
    ensures var done := Post(rows, trade, FeePosting(t), opKey, tick, 2).value;
            ReadsOff(done, off + if tick.Id(5) > tick.Id(2) then 0 else t.fee)
            && (InOrder(done) <==> InOrder(rows) && tick.Id(5) > tick.Id(2))
  {
    hide Fits, RowKey, Balance, InOrder, ReadsOff, Tops, TopIs, OlderOn;
    var p := FeePosting(t);
    PostShape(rows, trade, p, opKey, tick, 2);
    var d, cr := DebitRow(rows, trade, p, opKey, tick, 2), CreditRow(rows, trade, p, opKey, tick, 2);
    OlderTops(rows, d);
    DrawnPair(rows, d, cr, tick.Id(2), off);
  }

  lemma DrawnOnTop(rows: seq<Entry>, e: Entry, id: int)
    requires TopIs(rows, e.at, id, e.account, e.currency) && e.id > id
    ensures Tops(rows, e)
  {
    hide Latest;
  }

  lemma StillTop(rows: seq<Entry>, d: Entry, a: Account, c: Currency)
    requires !On(d, a, c)
    ensures Latest(rows + [d], a, c) == Latest(rows, a, c)
    ensures Latest(rows, a, c).Some? ==> (rows + [d])[Latest(rows, a, c).value] == rows[Latest(rows, a, c).value]
  {
    assert (rows + [d])[..|rows|] == rows;
  }

  /** A conversion later than everything before it, on a ledger whose fiat holding balance is read too high by `off`:
      the fee is missing from what is read from now on, unless its credit row drew a larger identifier than the
      proceeds' debit row; and rows stay in sorting order exactly when it did. */
  lemma FeeOrderDecides(rows: seq<Entry>, trade: string, t: Trade, m: Metadata, opKey: string, tick: Tick, off: int)
    requires ReadsOff(rows, off) && Older(rows, tick.now)
    requires t.from != t.to == NGN && t.fee >= 0 && t.toExpected >= 0 && m.fxSpread == 0 && m.expressFee == 0
    requires Converted(rows, trade, t, m, opKey, tick).Ok?
    ensures var done := Converted(rows, trade, t, m, opKey, tick).value;
            ReadsOff(done, off + if tick.Id(5) > tick.Id(2) then 0 else t.fee)
            && (InOrder(done) <==> InOrder(rows) && (t.fee > 0 ==> tick.Id(5) > tick.Id(2)))
  {
    ConvertedStepwise(rows, trade, t, m, opKey, tick);
    hide Converted, Post, PostingsFor, ReadsOff, InOrder, Older, OlderOn, TopIs;
    var r1 := Post(rows, trade, AssetPosting(t), opKey, tick, 0).value;
    var r2 := Post(r1, trade, ProceedsPosting(t), opKey, tick, 1).value;
    AssetReads(rows, trade, t, opKey, tick, off);
    FreshPosting(r1, trade, ProceedsPosting(t), opKey, tick, 1, off);
    PostedElsewhere(r1, trade, ProceedsPosting(t), opKey, tick, 1, FeeRevenue(t.to), t.to);
    if t.fee > 0 {
      ProceedsTop(r1, trade, t, opKey, tick);
      FeeReads(r2, trade, t, opKey, tick, off);
    } else {
      assert Post(r2, trade, FeePosting(t), opKey, tick, 2) == Ok(r2) by { NothingPosted(r2, trade, FeePosting(t), opKey, tick, 2); }
    }
  }

  lemma NothingPosted(rows: seq<Entry>, trade: string, p: Posting, opKey: string, tick: Tick, k: nat)
    requires p.amount <= 0
    ensures Post(rows, trade, p, opKey, tick, k) == Ok(rows)
  {
    hide Fits;
  }

  lemma AssetReads(rows: seq<Entry>, trade: string, t: Trade, opKey: string, tick: Tick, off: int)
    requires ReadsOff(rows, off) && Older(rows, tick.now) && t.from != t.to && Post(rows, trade, AssetPosting(t), opKey, tick, 0).Ok?
    ensures var done := Post(rows, trade, AssetPosting(t), opKey, tick, 0).value;
            ReadsOff(done, off) && (InOrder(done) <==> InOrder(rows))
            && OlderOn(done, tick.now, Holding(t.to), t.to) && OlderOn(done, tick.now, Inventory(t.to), t.to)
            && OlderOn(done, tick.now, FeeRevenue(t.to), t.to)
  {
    hide Post, ReadsOff, InOrder, Older, OlderOn;
    var p := AssetPosting(t);
    OlderEverywhere(rows, tick.now, p.debit, p.currency);
    OlderEverywhere(rows, tick.now, p.credit, p.currency);
    FreshPosting(rows, trade, p, opKey, tick, 0, off);
    OlderEverywhere(rows, tick.now, Holding(t.to), t.to);
    OlderEverywhere(rows, tick.now, Inventory(t.to), t.to);
    OlderEverywhere(rows, tick.now, FeeRevenue(t.to), t.to);
    PostedElsewhere(rows, trade, p, opKey, tick, 0, Holding(t.to), t.to);
    PostedElsewhere(rows, trade, p, opKey, tick, 0, Inventory(t.to), t.to);
    PostedElsewhere(rows, trade, p, opKey, tick, 0, FeeRevenue(t.to), t.to);
  }

  // ------------------------------------------------------------------ the trial balance

  lemma {:induction false} SumOff(accounts: seq<Account>, rows: seq<Entry>, c: Currency, off: int)
    requires ReadsOff(rows, off) && Distinct(accounts)
    ensures SumBalance(accounts, rows, c) == SumNet(accounts, rows, c) + if Holding(NGN) in accounts && c == NGN then off else 0
  {
    if accounts != [] {
      SumOff(accounts[1..], rows, c, off);
      assert forall i :: 0 <= i < |accounts[1..]| ==> accounts[1..][i] == accounts[i + 1];
      assert accounts[0] !in accounts[1..];
      assert accounts == [accounts[0]] + accounts[1..];
      hide Balance, Net;
      assert Balance(rows, accounts[0], c) == Net(rows, accounts[0], c) + OffAt(accounts[0], c, off);
    }
  }

  // An account outside a covering list has no rows, so nothing is read of it.
  lemma Untouched(accounts: seq<Account>, rows: seq<Entry>, a: Account, c: Currency)
    requires Journal(rows) && Distinct(accounts) && Covers(accounts, rows) && a !in accounts
    ensures Balance(rows, a, c) == 0 && Net(rows, a, c) == 0
  {
    var more := [a] + accounts;
    NetsCancel(accounts, rows, c);
    NetsCancel(more, rows, c);
    assert more[1..] == accounts;
    hide Net;
    forall i | 0 <= i < |rows|
      ensures !On(rows[i], a, c)
    {
      assert rows[i] in rows;
    }
  }

  /** The trial balance: summed over all accounts, the balances read back come to zero in every currency, but for fiat,
      where they come to what the holding account is read too high by. */
  lemma TrialBalance(accounts: seq<Account>, rows: seq<Entry>, c: Currency, off: int)
    requires Journal(rows) && ReadsOff(rows, off) && Distinct(accounts) && Covers(accounts, rows)
    ensures SumBalance(accounts, rows, c) == if c == NGN then off else 0
  {
    SumOff(accounts, rows, c, off);
    NetsCancel(accounts, rows, c);
    if Holding(NGN) !in accounts {
      Untouched(accounts, rows, Holding(NGN), NGN);
      hide Balance, Net;
      assert Balance(rows, Holding(NGN), NGN) == Net(rows, Holding(NGN), NGN) + OffAt(Holding(NGN), NGN, off);
    }
  }
}
