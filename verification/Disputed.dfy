/** One step seen from one trade: what it may append to the trade's history, and which trades have tickets. */
module Disputed {
  import opened Wrappers
  import opened Lifecycle
  import opened Ledger
  import opened Store
  import opened Steps
  import opened Bookkeeping
  import opened Growth
  import opened Tickets

  /** The trade has been in dispute at some time. */
  predicate WasDisputed(s: Store, id: string) {
    Visited(Past(s, id), Dispute)
  }

  /** Only trades that have been disputed have tickets. */
  ghost predicate TicketsOfDisputed(s: Store) {
    forall i :: 0 <= i < |s.tickets| ==> s.tickets[i].trade in s.trades && WasDisputed(s, s.tickets[i].trade)
  }

  lemma VisitedStays(h: seq<Change>, g: seq<Change>, x: Status)
    requires h <= g && Visited(h, x)
    ensures Visited(g, x)
  {
    var i :| 0 <= i < |h| && h[i].to == x;
    assert g[i].to == x;
  }

  lemma VisitedAppend(h: seq<Change>, c: Change, x: Status)
    ensures Visited(h + [c], x) <==> Visited(h, x) || c.to == x
  {
    var g := h + [c];
    assert g[|h|] == c;
    if Visited(h, x) {
      VisitedStays(h, g, x);
    }
    if Visited(g, x) {
      var i :| 0 <= i < |g| && g[i].to == x;
      if i < |h| {
        assert h[i].to == x;
      }
    }
  }

  lemma CurrentIsVisited(h: seq<Change>)
    requires h != []
    ensures Visited(h, Current(h))
  {
    assert h[|h| - 1].to == Current(h);
  }

  lemma PastStays(s: Store, after: Store, id: string)
    requires Later(s, after) && id in s.history
    ensures Past(s, id) <= Past(after, id)
  {
    hide TradesStay, KeysStay, TicketsStay, QuotesStay;
  }

  lemma DisputedStays(s: Store, after: Store, id: string)
    requires Later(s, after) && WasDisputed(s, id)
    ensures WasDisputed(after, id)
  {
    hide Later;
    assert id in s.history;
    PastStays(s, after, id);
    VisitedStays(Past(s, id), Past(after, id), Dispute);
  }

  lemma UpdateTickets(s: Store, trade: string, to: Status, m: Metadata, tick: Tick)
    requires TicketsOfDisputed(s)
    ensures TicketsOfDisputed(Settle(s, Update(s, trade, to, m, tick)))
  {
    UpdateGrows(s, trade, to, m, tick);
    hide Update, Later, WasDisputed, OpenTicketOf, KeyOf, Written, Posted, FitsRow, Allowed, Note, Past;
    var o := Update(s, trade, to, m, tick);
    if o.Applied? {
      WhenApplied(s, trade, to, m, tick);
      if to == Dispute {
        NowDisputed(s, o.after, trade);
      }
      forall i | 0 <= i < |o.after.tickets|
        ensures o.after.tickets[i].trade in o.after.trades && WasDisputed(o.after, o.after.tickets[i].trade)
      {
        if i < |s.tickets| {
          assert o.after.tickets[i] == s.tickets[i];
          DisputedStays(s, o.after, s.tickets[i].trade);
        }
      }
    }
  }

  lemma NowDisputed(s: Store, after: Store, trade: string)
    requires trade in s.trades
    requires after.history == s.history[trade := Past(s, trade) + [Change(Some(s.trades[trade].status), Dispute)]]
    ensures WasDisputed(after, trade)
  {
    VisitedAppend(Past(s, trade), Change(Some(s.trades[trade].status), Dispute), Dispute);
  }

  lemma SameTicketTrades(s: Store, after: Store)
    requires TicketsOfDisputed(s) && Later(s, after) && |after.tickets| == |s.tickets|
    ensures TicketsOfDisputed(after)
  {
    hide WasDisputed, KeysStay, HistoryStays, QuotesStay, SameDeal;
    forall i | 0 <= i < |after.tickets|
      ensures after.tickets[i].trade in after.trades && WasDisputed(after, after.tickets[i].trade)
    {
      assert SameTicket(s.tickets[i], after.tickets[i]);
      DisputedStays(s, after, s.tickets[i].trade);
    }
  }

  lemma ResolvedTickets(s: Store, ticket: nat, mode: Option<Mode>, note: string, resolver: string, tick: Tick)
    requires TicketsOfDisputed(s)
    ensures TicketsOfDisputed(Resolved(s, ticket, mode, note, resolver, tick))
  {
    ResolvedGrows(s, ticket, mode, note, resolver, tick);
    hide TicketsOfDisputed, Later, Update, ResolutionAsk, Reopened, Closed;
    var ask, ground := ResolveAsk(s, ticket, mode, note), ResolveGround(s, ticket, mode, tick.now);
    if ask.Some? {
      var a := ask.value;
      ResolvedIs(s, ticket, mode.value, note, resolver, tick, a);
      ReopenedFields(s, a.trade, mode.value, tick.now);
      NonDisputeKeepsTickets(ground, a.trade, a.to, a.meta, tick);
      hide SameButOne;
      SameTicketTrades(s, Resolved(s, ticket, mode, note, resolver, tick));
    }
  }

  lemma NextTickets(cfg: Config, w: World, step: Step)
    requires TicketsOfDisputed(w.db) && Recorded(w.db)
    ensures TicketsOfDisputed(Next(cfg, w, step).db)
  {
    NextGrows(cfg, w, step);
    hide Later, TicketsOfDisputed, Recorded, Priced, Resolved, AskOf, Update, MayAccept, CreationKey;
    match step
    case Resolve(ticket, mode, note, resolver, tick) => ResolvedTickets(w.db, ticket, mode, note, resolver, tick);
    case Offer(quote, user, asset, amount, price, tick) => SameTicketTrades(w.db, Next(cfg, w, step).db);
    case Lapse(quote, tick) => SameTicketTrades(w.db, Next(cfg, w, step).db);
    case Accept(trade, user, quote, bank, cleared, address, authorized, tick) => SameTicketTrades(w.db, Next(cfg, w, step).db);
    case _ =>
      var ask := AskOf(cfg, w, step);
      if ask.Some? {
        UpdateTickets(w.db, ask.value.trade, ask.value.to, ask.value.meta, step.tick);
      }
  }

  lemma {:induction false} RunTickets(cfg: Config, steps: seq<Step>)
    ensures TicketsOfDisputed(Run(cfg, steps).db)
  {
    if steps != [] {
      var n := |steps| - 1;
      RunTickets(cfg, steps[..n]);
      RunIsRecorded(cfg, steps[..n]);
      hide TicketsOfDisputed, Next, Recorded, Counted;
      NextTickets(cfg, Run(cfg, steps[..n]), steps[n]);
    }
  }

  // ------------------------------------------------------------------ one step, one trade

  /** A step either leaves a trade's row of terms, history and status alone, or makes the one change it asks for. */
  ghost predicate Untouched(s: Store, after: Store, id: string) {
    && id in s.trades && id in after.trades && Past(after, id) == Past(s, id) && after.trades[id].status == s.trades[id].status
    && after.trades[id].txHash == s.trades[id].txHash
    && after.trades[id].toActual == s.trades[id].toActual
  }

  ghost predicate Touched(s: Store, after: Store, id: string, ask: Option<Ask>) {
    && id in s.trades && ask.Some? && ask.value.trade == id && id in after.trades && Allowed(s.trades[id].status, ask.value.to)
    && Past(after, id) == Past(s, id) + [Change(Some(s.trades[id].status), ask.value.to)]
    && after.trades[id].status == ask.value.to
    && after.trades[id].txHash == Coalesce(Given(ask.value.meta.txHash), s.trades[id].txHash)
    && after.trades[id].toActual == Coalesce(ask.value.meta.toAmountActual, s.trades[id].toActual)
  }

  lemma UpdateAt(s: Store, ask: Ask, tick: Tick, id: string)
    requires id in s.trades
    ensures var after := Settle(s, Update(s, ask.trade, ask.to, ask.meta, tick));
            Untouched(s, after, id) || Touched(s, after, id, Some(ask))
  {
    hide Update, KeyOf, Posted, FitsRow, Allowed, Note, WithTicket, Given, NoticeFits;
    if Update(s, ask.trade, ask.to, ask.meta, tick).Applied? {
      WhenApplied(s, ask.trade, ask.to, ask.meta, tick);
    }
  }

  lemma ResolvedAt(s: Store, ticket: nat, mode: Option<Mode>, note: string, resolver: string, tick: Tick, id: string)
    requires id in s.trades
    ensures var after := Resolved(s, ticket, mode, note, resolver, tick);
            Untouched(s, after, id) || Touched(s, after, id, ResolveAsk(s, ticket, mode, note))
  {
    var ask, ground := ResolveAsk(s, ticket, mode, note), ResolveGround(s, ticket, mode, tick.now);
    GroundFields(s, ticket, mode, tick.now, id);
    hide Update, ResolutionAsk, Reopened, Closed, Given, Allowed, Settle, MayResolve, ResolveGround;
    if ask.Some? {
      UpdateAt(ground, ask.value, tick, id);
    }
  }

  lemma GroundFields(s: Store, ticket: nat, mode: Option<Mode>, now: int, id: string)
    requires id in s.trades
    ensures Untouched(s, ResolveGround(s, ticket, mode, now), id)
  {
    hide RetryStatus;
  }

  lemma StepAt(cfg: Config, w: World, step: Step, id: string)
    requires id in w.db.trades
    ensures Untouched(w.db, Next(cfg, w, step).db, id) || Touched(w.db, Next(cfg, w, step).db, id, Wanted(cfg, w, step))
  {
    hide Priced, Resolved, ResolveAsk, AskOf, Update, MayAccept, CreationKey, Touched, PositivePrice, ResolveGround, NextSales, NextAttempts, NextEvents;
    if step.Resolve? {
      ResolvedAt(w.db, step.ticket, step.mode, step.note, step.resolver, step.tick, id);
    } else if !(step.Offer? || step.Lapse? || step.Accept?) {
      var ask := AskOf(cfg, w, step);
      hide Untouched;
      if ask.Some? {
        UpdateAt(w.db, ask.value, step.tick, id);
      } else {
        UntouchedSelf(w.db, id);
      }
    }
  }

  lemma UntouchedSelf(s: Store, id: string)
    requires id in s.trades
    ensures Untouched(s, s, id)
  {
  }

  /** An acceptance that is granted: of a quote neither used nor expired, in time, by the user it was made for, to that user's
      own bank account, cleared, and for the first time. */
  predicate MayBegin(cfg: Config, s: Store, step: Step, id: string) {
    && step.Accept? && step.trade == id && cfg.isId(id) && id !in s.trades && step.quote in s.quotes
    && var q := s.quotes[step.quote];
    && q.acceptedAt.None? && q.expiredAt.None? && step.tick.now <= q.validUntil && q.user == step.user
    && step.bank in cfg.banks && cfg.banks[step.bank] == step.user && step.cleared
    && CreationKey(step.user, step.quote, step.bank) !in s.keys
  }

  /** The trade it brings into being: waiting half an hour for its deposit, with its quote's terms, its user's bank account
      and authorisation, and nothing recorded; its quote is used, and nothing else has changed. */
  ghost predicate Born(s: Store, after: Store, step: Step, id: string) {
    && step.Accept? && step.quote in s.quotes && id in after.trades
    && var t, q, now := after.trades[id], s.quotes[step.quote], step.tick.now;
    && t.status == PendingDeposit && t.user == step.user && t.quote == step.quote && t.bank == step.bank
    && t.from == q.from && t.to == q.to && t.fromAmount == q.fromAmount && t.toExpected == q.net && t.fee == q.fee
    && t.address == step.address && t.authorized == step.authorized && t.expiresAt == now + 1800 && t.updatedAt == now
    && t.toActual.None? && t.txHash.None? && t.confirmedAt.None? && t.orderId.None? && t.conversionId.None? && t.payoutId.None?
    && t.disputeReason.None? && t.completedAt.None?
    && Past(after, id) == [Change(None, PendingDeposit)]
    && after == s.(quotes := s.quotes[step.quote := q.(acceptedAt := Some(now))], trades := s.trades[id := t],
                   keys := s.keys[CreationKey(step.user, step.quote, step.bank) := id], history := s.history[id := Past(after, id)])
  }

  /** A trade comes into being if and only if a step is such an acceptance. */
  lemma BornIff(cfg: Config, w: World, step: Step, id: string)
    requires id !in w.db.trades
    ensures id in Next(cfg, w, step).db.trades <==> MayBegin(cfg, w.db, step, id)
  {
    hide Priced, Resolved, AskOf, Update, CreationKey, PositivePrice, OutcomeOf, NextSales, NextAttempts, NextEvents, UnitOf;
    if step.Resolve? {
      ResolvedTrades(w.db, step.ticket, step.mode, step.note, step.resolver, step.tick);
    } else if !(step.Offer? || step.Lapse? || step.Accept?) {
      AskedTrades(cfg, w, step);
    }
  }

  lemma BornAt(cfg: Config, w: World, step: Step, id: string)
    requires id !in w.db.trades && id in Next(cfg, w, step).db.trades
    ensures MayBegin(cfg, w.db, step, id) && Born(w.db, Next(cfg, w, step).db, step, id)
  {
    BornIff(cfg, w, step, id);
    hide Priced, Resolved, AskOf, Update, CreationKey, PositivePrice, OutcomeOf, NextSales, NextAttempts, NextEvents;
  }

  /** An acceptance that is not granted changes nothing. */
  lemma NotBegun(cfg: Config, w: World, step: Step)
    requires step.Accept? && !MayBegin(cfg, w.db, step, step.trade)
    ensures Next(cfg, w, step) == w
  {
    hide CreationKey, NewTrade;
  }

  lemma ResolvedTrades(s: Store, ticket: nat, mode: Option<Mode>, note: string, resolver: string, tick: Tick)
    ensures Resolved(s, ticket, mode, note, resolver, tick).trades.Keys == s.trades.Keys
  {
    hide Update, ResolutionAsk, RetryStatus, Closed, Settle;
    var ask, ground := ResolveAsk(s, ticket, mode, note), ResolveGround(s, ticket, mode, tick.now);
    if ask.Some? {
      SettledElsewhere(ground, ask.value.trade, ask.value.to, ask.value.meta, tick);
    }
  }

  lemma AskedTrades(cfg: Config, w: World, step: Step)
    ensures !step.Resolve? ==> Settle(w.db, OutcomeOf(cfg, w, step)).trades.Keys == w.db.trades.Keys
  {
    hide AskOf, Update;
    var ask := AskOf(cfg, w, step);
    if ask.Some? {
      SettledElsewhere(w.db, ask.value.trade, ask.value.to, ask.value.meta, step.tick);
    }
  }
}
