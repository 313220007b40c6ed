/** What no step ever takes back: the tables only grow, and what they say is final stays. */
module Growth {
  import opened Wrappers
  import opened Lifecycle
  import opened Ledger
  import opened Store
  import opened Steps
  import opened Bookkeeping

  /** The terms of a trade, and the order once one is recorded. */
  ghost predicate SameDeal(t: Trade, u: Trade) {
    && u.user == t.user && u.quote == t.quote && u.bank == t.bank && u.from == t.from && u.to == t.to
    && u.fromAmount == t.fromAmount && u.toExpected == t.toExpected && u.fee == t.fee
    && u.address == t.address && u.authorized == t.authorized && u.expiresAt == t.expiresAt
    && (t.orderId.Some? ==> u.orderId.Some?)
  }

  ghost predicate TradesStay(s: Store, after: Store) {
    forall id <- s.trades :: id in after.trades && SameDeal(s.trades[id], after.trades[id])
  }

  ghost predicate KeysStay(s: Store, after: Store) {
    forall k <- s.keys :: k in after.keys && after.keys[k] == s.keys[k]
  }

  ghost predicate HistoryStays(s: Store, after: Store) {
    forall id <- s.history :: id in after.history && s.history[id] <= after.history[id]
  }

  /** A ticket keeps its subject, and once closed it never changes. */
  ghost predicate SameTicket(k: Ticket, l: Ticket) {
    l.trade == k.trade && l.byUser == k.byUser && l.reason == k.reason && (!IsOpen(k) ==> l == k)
  }

  ghost predicate TicketsStay(s: Store, after: Store) {
    |s.tickets| <= |after.tickets| && forall i :: 0 <= i < |s.tickets| ==> SameTicket(s.tickets[i], after.tickets[i])
  }

  /** A quote keeps its terms, and once accepted or expired it stays so. */
  ghost predicate SameOffer(q: Quote, r: Quote) {
    && r.(acceptedAt := q.acceptedAt, expiredAt := q.expiredAt) == q
    && (q.acceptedAt.Some? ==> r.acceptedAt == q.acceptedAt) && (q.expiredAt.Some? ==> r.expiredAt == q.expiredAt)
  }

  ghost predicate QuotesStay(s: Store, after: Store) {
    forall q <- s.quotes :: q in after.quotes && SameOffer(s.quotes[q], after.quotes[q])
  }

  ghost predicate Later(s: Store, after: Store) {
    && TradesStay(s, after) && KeysStay(s, after) && HistoryStays(s, after) && s.ledger <= after.ledger
    && TicketsStay(s, after) && QuotesStay(s, after)
  }

  lemma LaterChains(a: Store, b: Store, c: Store)
    requires Later(a, b) && Later(b, c)
    ensures Later(a, c)
  {
    hide SameDeal;
    forall id | id in a.trades
      ensures SameDeal(a.trades[id], c.trades[id])
    {
      DealChains(a.trades[id], b.trades[id], c.trades[id]);
    }
  }

  lemma DealChains(t: Trade, u: Trade, v: Trade)
    requires SameDeal(t, u) && SameDeal(u, v)
    ensures SameDeal(t, v)
  {
  }

  lemma WrittenSameDeal(t: Trade, to: Status, m: Metadata, now: int)
    ensures SameDeal(t, Written(t, to, m, now))
  {
    hide Given, Note;
  }

  lemma WithTicketStays(s: Store, after: Store, trade: string, byUser: bool, note: string)
    requires after.tickets == s.tickets || after.tickets == WithTicket(s.tickets, trade, byUser, note)
    ensures TicketsStay(s, after)
  {
    hide OpenTicketOf;
  }

  lemma CommitTrades(s: Store, trade: string, to: Status, m: Metadata, rows: seq<Entry>, now: int)
    requires trade in s.trades
    ensures TradesStay(s, Commit(s, trade, to, m, rows, now))
  {
    WrittenSameDeal(s.trades[trade], to, m, now);
    hide Written, WithTicket, Past, KeyOf, SameDeal;
    forall id | id in s.trades
      ensures SameDeal(s.trades[id], Commit(s, trade, to, m, rows, now).trades[id])
    {
      SameDealSelf(s.trades[id]);
    }
  }

  lemma SameDealSelf(t: Trade)
    ensures SameDeal(t, t)
  {
  }

  lemma CommitGrows(s: Store, trade: string, to: Status, m: Metadata, rows: seq<Entry>, now: int)
    requires trade in s.trades && KeyOf(trade, to, m) !in s.keys && s.ledger <= rows
    ensures Later(s, Commit(s, trade, to, m, rows, now))
  {
    var after := Commit(s, trade, to, m, rows, now);
    CommitTrades(s, trade, to, m, rows, now);
    WithTicketStays(s, after, trade, m.byUser, Note(m));
    CommitHistory(s, trade, to, m, rows, now);
    CommitQuotes(s, trade, to, m, rows, now);
    hide Written, WithTicket, KeyOf, Note, TradesStay, TicketsStay, HistoryStays, QuotesStay, Past;
  }

  lemma CommitHistory(s: Store, trade: string, to: Status, m: Metadata, rows: seq<Entry>, now: int)
    requires trade in s.trades
    ensures HistoryStays(s, Commit(s, trade, to, m, rows, now))
  {
    hide Written, WithTicket, KeyOf, Note;
  }

  lemma CommitQuotes(s: Store, trade: string, to: Status, m: Metadata, rows: seq<Entry>, now: int)
    requires trade in s.trades
    ensures QuotesStay(s, Commit(s, trade, to, m, rows, now))
  {
    hide Written, WithTicket, KeyOf, Note, Past;
  }

  lemma LaterSelf(s: Store)
    ensures Later(s, s)
  {
  }

  lemma UpdateGrows(s: Store, trade: string, to: Status, m: Metadata, tick: Tick)
    ensures Later(s, Settle(s, Update(s, trade, to, m, tick)))
  {
    LaterSelf(s);
    hide Later, KeyOf, FitsRow, Commit, Allowed;
    var o := Update(s, trade, to, m, tick);
    if o.Applied? {
      PostedGrows(s, trade, to, m, tick);
      hide Posted;
      CommitGrows(s, trade, to, m, Posted(s, trade, to, m, tick).value, tick.now);
    }
  }

  lemma PostedGrows(s: Store, trade: string, to: Status, m: Metadata, tick: Tick)
    requires trade in s.trades && Posted(s, trade, to, m, tick).Ok?
    ensures s.ledger <= Posted(s, trade, to, m, tick).value
  {
    hide PostAll, PostingsFor, OperationKey;
    if !m.skipLedger {
      PostAllAppends(s.ledger, trade, PostingsFor(s.trades[trade], to, m), OperationKey(trade, to, m), tick);
    }
  }

  lemma AcceptedGrows(cfg: Config, s: Store, trade: string, user: string, quote: string, bank: string, cleared: bool,
                      address: string, authorized: bool, now: int)
    requires Recorded(s)
    ensures Later(s, Accepted(cfg, s, trade, user, quote, bank, cleared, address, authorized, now))
  {
    hide CreationKey, NewTrade, RecordedAt;
  }

  lemma LapsedGrows(s: Store, quote: string, now: int)
    ensures Later(s, Lapsed(s, quote, now))
  {
  }

  lemma OfferedGrows(s: Store, quote: string, user: string, asset: Currency, amount: int, price: Price, now: int)
    ensures Later(s, Offered(s, quote, user, asset, amount, price, now))
  {
    hide Priced, PositivePrice, UnitOf;
  }

  lemma ReopenedGrows(s: Store, trade: string, mode: Mode, now: int)
    ensures Later(s, Reopened(s, trade, mode, now)) && Reopened(s, trade, mode, now).tickets == s.tickets
  {
    hide RetryStatus;
  }

  lemma WithClosedGrows(s: Store, ticket: nat, mode: Mode, note: string, resolver: string, now: int)
    requires ticket < |s.tickets| ==> IsOpen(s.tickets[ticket])
    ensures Later(s, WithClosed(s, ticket, mode, note, resolver, now))
  {
    hide Text.Trim;
  }

  // A status change leaves the tickets that exist as they are.
  lemma UpdateLeavesTickets(s: Store, trade: string, to: Status, m: Metadata, tick: Tick)
    ensures s.tickets <= Settle(s, Update(s, trade, to, m, tick)).tickets
  {
    hide KeyOf, FitsRow, Allowed, Posted, Written, OpenTicketOf, Note;
  }

  lemma ResolvedGrows(s: Store, ticket: nat, mode: Option<Mode>, note: string, resolver: string, tick: Tick)
    ensures Later(s, Resolved(s, ticket, mode, note, resolver, tick))
  {
    hide Later, ResolutionAsk, Update, Reopened, Closed;
    LaterSelf(s);
    var ask, ground := ResolveAsk(s, ticket, mode, note), ResolveGround(s, ticket, mode, tick.now);
    if ask.Some? {
      ReopenedGrows(s, s.tickets[ticket].trade, mode.value, tick.now);
      UpdateGrows(ground, ask.value.trade, ask.value.to, ask.value.meta, tick);
      UpdateLeavesTickets(ground, ask.value.trade, ask.value.to, ask.value.meta, tick);
      var after := Settle(ground, Update(ground, ask.value.trade, ask.value.to, ask.value.meta, tick));
      WithClosedGrows(after, ticket, mode.value, note, resolver, tick.now);
      LaterChains(s, ground, after);
      LaterChains(s, after, WithClosed(after, ticket, mode.value, note, resolver, tick.now));
    }
  }

  lemma NextGrows(cfg: Config, w: World, step: Step)
    requires Recorded(w.db)
    ensures Later(w.db, Next(cfg, w, step).db)
  {
    LaterSelf(w.db);
    hide Later, Offered, Lapsed, Accepted, Resolved, Recorded, AskOf, Update;
    match step
    case Offer(quote, user, asset, amount, price, tick) => OfferedGrows(w.db, quote, user, asset, amount, price, tick.now);
    case Lapse(quote, tick) => LapsedGrows(w.db, quote, tick.now);
    case Accept(trade, user, quote, bank, cleared, address, authorized, tick) =>
      AcceptedGrows(cfg, w.db, trade, user, quote, bank, cleared, address, authorized, tick.now);
    case Resolve(ticket, mode, note, resolver, tick) => ResolvedGrows(w.db, ticket, mode, note, resolver, tick);
    case _ =>
      var ask := AskOf(cfg, w, step);
      if ask.Some? {
        UpdateGrows(w.db, ask.value.trade, ask.value.to, ask.value.meta, step.tick);
      }
  }

  /** Along any run nothing is taken back: trades keep their terms and a recorded order, reserved keys stay
      reserved, histories and the ledger are only appended to, closed tickets and used quotes never change. */
  lemma {:induction false} RunGrows(cfg: Config, steps: seq<Step>, k: int)
    ensures Later(After(cfg, steps, k).db, Run(cfg, steps).db)
    decreases |steps|
  {
    if k >= |steps| || steps == [] {
      RunWhole(cfg, steps);
      LaterSelf(Run(cfg, steps).db);
    } else {
      var n := |steps| - 1;
      RunGrows(cfg, steps[..n], k);
      assert Upto(steps[..n], k) == Upto(steps, k);
      RunIsRecorded(cfg, steps[..n]);
      NextGrows(cfg, Run(cfg, steps[..n]), steps[n]);
      hide Later, Recorded, Counted, Next;
      LaterChains(After(cfg, steps, k).db, Run(cfg, steps[..n]).db, Run(cfg, steps).db);
    }
  }

  /** The same between any two points of a run. */
  lemma GrowsBetween(cfg: Config, steps: seq<Step>, i: int, j: int)
    requires i <= j
    ensures Later(After(cfg, steps, i).db, After(cfg, steps, j).db)
  {
    hide Later, Run;
    RunGrows(cfg, Upto(steps, j), i);
    assert Upto(Upto(steps, j), i) == Upto(steps, i);
  }
}
