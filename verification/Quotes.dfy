/** From quote to ledger: a quote is accepted or expires, backs one trade, and its gross amount is what the sale of
    that trade posts. */
module Quotes {
  import opened Wrappers
  import opened Lifecycle
  import opened Ledger
  import opened Store
  import opened Steps
  import opened Growth
  import opened Tickets
  import Pricing

  /** A quote's amounts add up, and it was not both accepted and expired. */
  predicate FairQuote(q: Quote) {
    && q.net + q.fee == q.gross && 0 <= q.net && 0 <= q.fee && q.fromAmount > 0 && q.from != q.to && q.to == NGN
    && !(q.acceptedAt.Some? && q.expiredAt.Some?)
  }

  /** A trade has the terms of its quote, which is accepted. */
  predicate Backed(s: Store, t: Trade) {
    && t.quote in s.quotes
    && var q := s.quotes[t.quote];
       q.acceptedAt.Some? && t.user == q.user && t.from == q.from && t.to == q.to && t.fromAmount == q.fromAmount
       && t.toExpected == q.net && t.fee == q.fee
  }

  ghost predicate QuotesFair(s: Store) {
    forall q <- s.quotes :: FairQuote(s.quotes[q])
  }

  ghost predicate TradesBacked(s: Store) {
    forall id <- s.trades :: Backed(s, s.trades[id])
  }

  ghost predicate OneTradeEach(s: Store) {
    forall a <- s.trades, b <- s.trades :: a != b ==> s.trades[a].quote != s.trades[b].quote
  }

  /** Every posting of a sale's proceeds is the gross amount of its trade's quote. */
  predicate ProceedsRight(s: Store, e: Entry) {
    e.trade in s.trades && s.trades[e.trade].quote in s.quotes
    && (e.kind == ConversionFiat ==> e.amount == s.quotes[s.trades[e.trade].quote].gross && e.currency == s.trades[e.trade].to)
  }

  ghost predicate LedgerRight(s: Store) {
    forall i :: 0 <= i < |s.ledger| ==> ProceedsRight(s, s.ledger[i])
  }

  ghost predicate Quoted(s: Store) {
    QuotesFair(s) && TradesBacked(s) && OneTradeEach(s) && LedgerRight(s)
  }

  // ------------------------------------------------------------------ quotes

  lemma PricedFairly(amount: int, unit: int, asset: Currency, price: Price)
    requires unit > 0 && amount >= 0 && PositivePrice(price)
    ensures var a := Priced(amount, unit, asset, price); a.net + a.fee == a.gross && 0 <= a.net && 0 <= a.fee
  {
    hide Pricing.Live, Pricing.Fallback;
    match price
    case LivePrice(crypto, fiat) => Pricing.LiveQuoteIsSound(amount, unit, crypto, fiat);
    case FallbackPrice => Pricing.FallbackQuoteIsSound(amount, amount, unit, FallbackCryptoPrice(asset));
  }

  lemma OfferedQuoted(s: Store, quote: string, user: string, asset: Currency, amount: int, price: Price, now: int)
    requires Quoted(s)
    ensures Quoted(Offered(s, quote, user, asset, amount, price, now))
  {
    var after := Offered(s, quote, user, asset, amount, price, now);
    if after != s {
      PricedFairly(amount, UnitOf(asset).value, asset, price);
      hide Priced;
      assert QuotesFair(after);
      MoreQuotes(s, after);
    }
  }

  // Quotes added, or marked as expired, leave trades and ledger as right as they were.
  lemma MoreQuotes(s: Store, after: Store)
    requires Quoted(s) && QuotesFair(after) && after.trades == s.trades && after.ledger == s.ledger
    requires QuotesStay(s, after)
    ensures Quoted(after)
  {
    hide FairQuote;
    forall id | id in after.trades
      ensures Backed(after, after.trades[id])
    {
      assert Backed(s, s.trades[id]);
    }
    forall i | 0 <= i < |after.ledger|
      ensures ProceedsRight(after, after.ledger[i])
    {
      assert ProceedsRight(s, s.ledger[i]);
    }
  }

  lemma LapsedQuoted(s: Store, quote: string, now: int)
    requires Quoted(s)
    ensures Quoted(Lapsed(s, quote, now))
  {
    var after := Lapsed(s, quote, now);
    if after != s {
      assert QuotesFair(after);
      hide FairQuote;
      MoreQuotes(s, after);
    }
  }

  /** Minor units in one coin of an asset that can be sold. */
  function Coin(asset: Currency): int {
    match asset
    case BTC => 100_000_000
    case ETH => 1_000_000_000_000_000_000
    case _ => 1_000_000
  }

  /** What an amount is worth, times the minor units in a coin: at the prices found, or at the fixed ones. */
  function WorthInKobo(asset: Currency, amount: int, price: Price): real {
    match price
    case LivePrice(crypto, fiat) => Pricing.Kobo(amount, crypto, fiat)
    case FallbackPrice => Pricing.Kobo(amount, match asset case BTC => 68000.0 case ETH => 3200.0 case _ => 1.0, 1650.0)
  }

  /** An offer that is made: for a positive amount of an asset that can be sold, at prices that are not negative. */
  predicate MayQuote(s: Store, step: Step) {
    step.Offer? && step.quote !in s.quotes && step.amount > 0 && step.asset in {BTC, ETH, USDC, USDT}
    && (step.price.LivePrice? ==> step.price.crypto >= 0.0 && step.price.fiat >= 0.0)
  }

  /** The quote it makes, good for two minutes: gross is the worth in whole kobo, and the fee is what is left of it when the
      tiered rate is taken off on the live path, two per cent in whole kobo on the other. */
  predicate QuoteMade(step: Step, q: Quote) {
    && step.Offer? && q.user == step.user && q.from == step.asset && q.to == NGN && q.fromAmount == step.amount
    && q.validUntil == step.tick.now + 120 && q.acceptedAt.None? && q.expiredAt.None?
    && var kobo, coin := WorthInKobo(step.asset, step.amount, step.price), Coin(step.asset) as real;
    && q.net + q.fee == q.gross && Pricing.RoundedDown(q.gross, kobo, coin)
    && if step.price.LivePrice? then Pricing.RoundedDown(q.net, Pricing.LessFee(kobo, Pricing.FeeBps(step.amount)), coin)
       else 50 * q.fee <= q.gross < 50 * q.fee + 50
  }

  lemma PricedAs(step: Step, unit: int)
    requires step.Offer? && step.amount > 0 && UnitOf(step.asset) == Some(unit) && PositivePrice(step.price)
    ensures step.asset in {BTC, ETH, USDC, USDT} && unit == Coin(step.asset) && unit > 0
    ensures unit > 0 ==> QuoteMade(step, var a := Priced(step.amount, unit, step.asset, step.price);
                                         Quote(step.user, step.asset, NGN, step.amount, a.gross, a.fee, a.net, step.tick.now + 120, None, None))
  {
    hide Pricing.Live, Pricing.Fallback, Pricing.RoundedDown, Pricing.LessFee, Pricing.FeeBps, Pricing.Kobo;
    PricedFairly(step.amount, unit, step.asset, step.price);
    match step.price
    case LivePrice(crypto, fiat) => Pricing.LiveAmounts(step.amount, unit, crypto, fiat);
    case FallbackPrice => Pricing.FallbackAmounts(step.amount, unit, FallbackCryptoPrice(step.asset));
  }

  /** Only this quote is new. */
  ghost predicate OneMore(s: Store, after: Store, step: Step, q: Quote) {
    step.Offer? && QuoteMade(step, q) && after == s.(quotes := s.quotes[step.quote := q])
  }

  /** An offer makes such a quote if and only if it may, and changes nothing else. */
  lemma OfferMakes(cfg: Config, w: World, step: Step)
    requires step.Offer?
    ensures if MayQuote(w.db, step) then exists q :: OneMore(w.db, Next(cfg, w, step).db, step, q) else Next(cfg, w, step) == w
  {
    hide Priced, QuoteMade;
    if MayQuote(w.db, step) {
      PricedAs(step, UnitOf(step.asset).value);
      var a := Priced(step.amount, UnitOf(step.asset).value, step.asset, step.price);
      assert OneMore(w.db, Next(cfg, w, step).db, step,
                     Quote(step.user, step.asset, NGN, step.amount, a.gross, a.fee, a.net, step.tick.now + 120, None, None));
    }
  }

  /** A quote whose time is up, neither used nor expired. */
  predicate MayLapse(s: Store, step: Step) {
    step.Lapse? && step.quote in s.quotes &&
    var q := s.quotes[step.quote];
    q.acceptedAt == None && q.expiredAt == None && step.tick.now >= q.validUntil
  }

  /** Only this quote has changed: it is marked as expired. */
  predicate MarkedExpired(s: Store, after: Store, step: Step) {
    step.Lapse? && step.quote in s.quotes && after == s.(quotes := s.quotes[step.quote := s.quotes[step.quote].(expiredAt := Some(step.tick.now))])
  }

  /** A quote lapses if and only if it is neither used nor expired and its time is up. */
  lemma LapseMarks(cfg: Config, w: World, step: Step)
    requires step.Lapse?
    ensures if MayLapse(w.db, step) then MarkedExpired(w.db, Next(cfg, w, step).db, step) else Next(cfg, w, step) == w
  {
  }

  // ------------------------------------------------------------------ new trades

  lemma AcceptedFair(cfg: Config, s: Store, trade: string, user: string, quote: string, bank: string, cleared: bool,
                     address: string, authorized: bool, now: int)
    requires QuotesFair(s)
    ensures QuotesFair(Accepted(cfg, s, trade, user, quote, bank, cleared, address, authorized, now))
  {
    hide CreationKey;
  }

  lemma AcceptedBacked(cfg: Config, s: Store, trade: string, user: string, quote: string, bank: string, cleared: bool,
                       address: string, authorized: bool, now: int)
    requires TradesBacked(s) && OneTradeEach(s) && QuotesFair(s)
    ensures var after := Accepted(cfg, s, trade, user, quote, bank, cleared, address, authorized, now);
            TradesBacked(after) && OneTradeEach(after)
  {
    hide CreationKey;
    var after := Accepted(cfg, s, trade, user, quote, bank, cleared, address, authorized, now);
    if after != s {
      forall id | id in after.trades
        ensures Backed(after, after.trades[id])
        ensures id != trade ==> after.trades[id].quote != quote
      {
        if id != trade {
          assert Backed(s, s.trades[id]);
        }
      }
    }
  }

  lemma AcceptedQuoted(cfg: Config, s: Store, trade: string, user: string, quote: string, bank: string, cleared: bool,
                       address: string, authorized: bool, now: int)
    requires Quoted(s)
    ensures Quoted(Accepted(cfg, s, trade, user, quote, bank, cleared, address, authorized, now))
  {
    hide QuotesFair, TradesBacked, OneTradeEach, LedgerRight, Accepted;
    AcceptedFair(cfg, s, trade, user, quote, bank, cleared, address, authorized, now);
    AcceptedBacked(cfg, s, trade, user, quote, bank, cleared, address, authorized, now);
    AcceptedLedger(cfg, s, trade, user, quote, bank, cleared, address, authorized, now);
  }

  lemma AcceptedLedger(cfg: Config, s: Store, trade: string, user: string, quote: string, bank: string, cleared: bool,
                       address: string, authorized: bool, now: int)
    requires LedgerRight(s)
    ensures LedgerRight(Accepted(cfg, s, trade, user, quote, bank, cleared, address, authorized, now))
  {
    hide CreationKey, NewTrade;
    var after := Accepted(cfg, s, trade, user, quote, bank, cleared, address, authorized, now);
    forall i | 0 <= i < |after.ledger|
      ensures ProceedsRight(after, after.ledger[i])
    {
      assert ProceedsRight(s, s.ledger[i]);
    }
  }

  // ------------------------------------------------------------------ postings

  /** Each row a transaction adds is the trade's and states one of its postings. */
  predicate States(e: Entry, trade: string, ps: seq<Posting>) {
    e.trade == trade && exists i :: 0 <= i < |ps| && ps[i].kind == e.kind && ps[i].amount == e.amount && ps[i].currency == e.currency
  }

  lemma {:induction false} PostAllStates(rows: seq<Entry>, trade: string, ps: seq<Posting>, opKey: string, tick: Tick)
    requires PostAll(rows, trade, ps, opKey, tick).Ok?
    ensures rows <= PostAll(rows, trade, ps, opKey, tick).value
    ensures forall i :: |rows| <= i < |PostAll(rows, trade, ps, opKey, tick).value|
              ==> States(PostAll(rows, trade, ps, opKey, tick).value[i], trade, ps)
  {
    hide RowKey, Fits, Balance;
    if ps != [] {
      var n := |ps| - 1;
      PostAllStates(rows, trade, ps[..n], opKey, tick);
      var sofar, done := PostAll(rows, trade, ps[..n], opKey, tick).value, PostAll(rows, trade, ps, opKey, tick).value;
      forall i | |rows| <= i < |done|
        ensures States(done[i], trade, ps)
      {
        if i < |sofar| {
          assert done[i] == sofar[i];
          StatesMore(done[i], trade, ps);
        } else {
          assert ps[n].kind == done[i].kind;
        }
      }
    }
  }

  lemma StatesMore(e: Entry, trade: string, ps: seq<Posting>)
    requires ps != [] && States(e, trade, ps[..|ps| - 1])
    ensures States(e, trade, ps)
  {
    var i :| 0 <= i < |ps| - 1 && ps[..|ps| - 1][i].kind == e.kind && ps[..|ps| - 1][i].amount == e.amount
              && ps[..|ps| - 1][i].currency == e.currency;
    assert ps[i] == ps[..|ps| - 1][i];
  }

  lemma ProceedsPosted(t: Trade, to: Status, m: Metadata, e: Entry, trade: string)
    requires States(e, trade, PostingsFor(t, to, m)) && e.kind == ConversionFiat
    ensures e.amount == t.toExpected + t.fee && e.currency == t.to
  {
  }

  lemma PostedRight(s: Store, trade: string, to: Status, m: Metadata, tick: Tick)
    requires Quoted(s) && trade in s.trades && Posted(s, trade, to, m, tick).Ok?
    ensures forall i :: 0 <= i < |Posted(s, trade, to, m, tick).value| ==> ProceedsRight(s, Posted(s, trade, to, m, tick).value[i])
  {
    hide PostAll, PostingsFor, OperationKey, FairQuote, States;
    var t, rows := s.trades[trade], Posted(s, trade, to, m, tick).value;
    if !m.skipLedger {
      PostAllStates(s.ledger, trade, PostingsFor(t, to, m), OperationKey(trade, to, m), tick);
      assert Backed(s, t) && FairQuote(s.quotes[t.quote]);
      FairSum(s.quotes[t.quote]);
      forall i | 0 <= i < |rows|
        ensures ProceedsRight(s, rows[i])
      {
        if i < |s.ledger| {
          assert rows[i] == s.ledger[i];
        } else {
          StatesTrade(rows[i], trade, PostingsFor(t, to, m));
          if rows[i].kind == ConversionFiat {
            ProceedsPosted(t, to, m, rows[i], trade);
          }
        }
      }
    }
  }

  lemma FairSum(q: Quote)
    requires FairQuote(q)
    ensures q.net + q.fee == q.gross
  {
  }

  lemma StatesTrade(e: Entry, trade: string, ps: seq<Posting>)
    requires States(e, trade, ps)
    ensures e.trade == trade
  {
  }

  // Terms, quotes and rows that are right stay right when trades keep their terms.
  lemma SameTermsQuoted(s: Store, after: Store)
    requires QuotesFair(s) && TradesBacked(s) && OneTradeEach(s) && after.quotes == s.quotes
    requires TradesStay(s, after) && forall id :: id in after.trades <==> id in s.trades
    requires forall i :: 0 <= i < |after.ledger| ==> ProceedsRight(s, after.ledger[i])
    ensures Quoted(after)
  {
    hide FairQuote;
    forall id | id in after.trades
      ensures Backed(after, after.trades[id]) && after.trades[id].quote == s.trades[id].quote
    {
      assert Backed(s, s.trades[id]);
      assert SameDeal(s.trades[id], after.trades[id]);
    }
    assert OneTradeEach(after);
    forall i | 0 <= i < |after.ledger|
      ensures ProceedsRight(after, after.ledger[i])
    {
      var e := after.ledger[i];
      assert ProceedsRight(s, e);
      assert SameDeal(s.trades[e.trade], after.trades[e.trade]);
    }
  }

  lemma UpdateQuoted(s: Store, trade: string, to: Status, m: Metadata, tick: Tick)
    requires Quoted(s)
    ensures Quoted(Settle(s, Update(s, trade, to, m, tick)))
  {
    UpdateGrows(s, trade, to, m, tick);
    SettledElsewhere(s, trade, to, m, tick);
    var o := Update(s, trade, to, m, tick);
    hide Update, KeyOf, Written, Posted, Past, FitsRow, Allowed, Note, WithTicket, ProceedsRight, FairQuote, Backed;
    if o.Applied? {
      WhenApplied(s, trade, to, m, tick);
      PostedRight(s, trade, to, m, tick);
      hide Quoted, TradesStay, HistoryStays, KeysStay, QuotesStay, TicketsStay;
      QuotedParts(s);
      SameTermsQuoted(s, o.after);
    }
  }

  lemma QuotedParts(s: Store)
    requires Quoted(s)
    ensures QuotesFair(s) && TradesBacked(s) && OneTradeEach(s) && LedgerRight(s)
  {
  }

  lemma ResolvedQuoted(s: Store, ticket: nat, mode: Option<Mode>, note: string, resolver: string, tick: Tick)
    requires Quoted(s)
    ensures Quoted(Resolved(s, ticket, mode, note, resolver, tick))
  {
    hide Quoted, Update, ResolutionAsk, Reopened, Closed;
    var ask, ground := ResolveAsk(s, ticket, mode, note), ResolveGround(s, ticket, mode, tick.now);
    if ask.Some? {
      ReopenedQuoted(s, s.tickets[ticket].trade, mode.value, tick.now);
      UpdateQuoted(ground, ask.value.trade, ask.value.to, ask.value.meta, tick);
      SameButTicketsQuoted(Settle(ground, Update(ground, ask.value.trade, ask.value.to, ask.value.meta, tick)),
                           Resolved(s, ticket, mode, note, resolver, tick));
    }
  }

  lemma ReopenedQuoted(s: Store, trade: string, m: Mode, now: int)
    requires Quoted(s)
    ensures Quoted(Reopened(s, trade, m, now))
  {
    ReopenedGrows(s, trade, m, now);
    ReopenedFields(s, trade, m, now);
    hide Reopened, KeysStay, HistoryStays, QuotesStay, TicketsStay, TradesStay, ProceedsRight, QuotesFair, TradesBacked, OneTradeEach;
    SameTermsQuoted(s, Reopened(s, trade, m, now));
  }

  lemma SameButTicketsQuoted(s: Store, after: Store)
    requires Quoted(s)
    ensures after == s.(tickets := after.tickets) ==> Quoted(after)
  {
    hide FairQuote;
    if after == s.(tickets := after.tickets) {
      forall id | id in after.trades
        ensures Backed(after, after.trades[id])
      {
        assert Backed(s, s.trades[id]);
      }
      forall i | 0 <= i < |after.ledger|
        ensures ProceedsRight(after, after.ledger[i])
      {
        assert ProceedsRight(s, s.ledger[i]);
      }
    }
  }

  lemma NextQuoted(cfg: Config, w: World, step: Step)
    requires Quoted(w.db)
    ensures Quoted(Next(cfg, w, step).db)
  {
    hide Quoted, Offered, Lapsed, Accepted, Resolved, AskOf, Update;
    match step
    case Offer(quote, user, asset, amount, price, tick) => OfferedQuoted(w.db, quote, user, asset, amount, price, tick.now);
    case Lapse(quote, tick) => LapsedQuoted(w.db, quote, tick.now);
    case Accept(trade, user, quote, bank, cleared, address, authorized, tick) =>
      AcceptedQuoted(cfg, w.db, trade, user, quote, bank, cleared, address, authorized, tick.now);
    case Resolve(ticket, mode, note, resolver, tick) => ResolvedQuoted(w.db, ticket, mode, note, resolver, tick);
    case _ =>
      var ask := AskOf(cfg, w, step);
      if ask.Some? {
        UpdateQuoted(w.db, ask.value.trade, ask.value.to, ask.value.meta, step.tick);
      }
  }

  /** In any run, on the live and the fallback price: no quote is both accepted and expired, each backs at most one
      trade, which keeps its terms, and every posting of the proceeds of that trade's sale is the quote's gross
      amount, which is what the user gets plus the fee. */
  lemma {:induction false} RunIsQuoted(cfg: Config, steps: seq<Step>)
    ensures Quoted(Run(cfg, steps).db)
  {
    if steps != [] {
      var n := |steps| - 1;
      RunIsQuoted(cfg, steps[..n]);
      hide Quoted, Next;
      NextQuoted(cfg, Run(cfg, steps[..n]), steps[n]);
    }
  }
}
