/** One step seen from the tables: the one status change it makes, or none. */
module Changes {
  import opened Wrappers
  import opened Text
  import opened Lifecycle
  import opened Ledger
  import opened Store
  import opened Steps
  import opened Asks
  import opened Growth
  import opened ExactlyOnce

  /** The status change a step makes, if it makes one. */
  function Made(cfg: Config, w: World, step: Step): Option<Ask> {
    if OutcomeOf(cfg, w, step).Applied? then Wanted(cfg, w, step) else None
  }

  lemma MadeIsWanted(cfg: Config, w: World, step: Step, ask: Ask)
    requires Made(cfg, w, step) == Some(ask)
    ensures Wanted(cfg, w, step) == Some(ask)
  {
    hide OutcomeOf, Wanted;
  }

  /** A trade with the same terms, actual amount, status and history, which may have lost its payout reference. */
  ghost predicate Kin(s: Store, after: Store, id: string) {
    && id in s.trades && id in after.trades && SameDeal(s.trades[id], after.trades[id])
    && after.trades[id].toActual == s.trades[id].toActual && after.trades[id].status == s.trades[id].status && Past(after, id) == Past(s, id)
    && (after.trades[id].payoutId.None? || after.trades[id].payoutId == s.trades[id].payoutId)
  }

  /** No trade but one has changed. */
  ghost predicate Elsewhere(s: Store, after: Store, trade: string) {
    (forall id :: id in after.trades <==> id in s.trades) && forall id <- s.trades :: id != trade ==> Kin(s, after, id)
  }

  /** The tables a change was made on, and what became of them. */
  ghost predicate Makes(s: Store, ground: Store, after: Store, ask: Ask, tick: Tick) {
    && Kin(s, ground, ask.trade) && ground.ledger == s.ledger
    && Allowed(s.trades[ask.trade].status, ask.to) && KeyAsked(ask) !in s.keys
    && Posted(ground, ask.trade, ask.to, ask.meta, tick).Ok?
    && after.ledger == Posted(ground, ask.trade, ask.to, ask.meta, tick).value
    && after.keys == s.keys[KeyAsked(ask) := ask.trade]
    && Elsewhere(s, after, ask.trade)
    && after.trades[ask.trade] == Written(ground.trades[ask.trade], ask.to, ask.meta, tick.now)
    && Past(after, ask.trade) == Past(s, ask.trade) + [Change(Some(s.trades[ask.trade].status), ask.to)]
  }

  /** The ledger, the keys of status changes and every trade's history as they were. */
  ghost predicate Quiet(s: Store, after: Store) {
    && after.ledger == s.ledger
    && (forall k: OpKey :: k.scope.StatusChange? ==> (k in after.keys <==> k in s.keys) && (k in s.keys ==> after.keys[k] == s.keys[k]))
    && forall id <- s.trades :: Kin(s, after, id)
  }

  /** The tables a change is made on: the ones there were, but for the trade a resolution has reopened. */
  ghost predicate Grounded(s: Store, ground: Store, trade: string) {
    && ground == s.(trades := ground.trades) && (forall id :: id in ground.trades <==> id in s.trades)
    && forall id <- s.trades ::
         Kin(s, ground, id) && (id != trade ==> ground.trades[id] == s.trades[id])
  }

  lemma AppliedMakes(s: Store, ground: Store, ask: Ask, tick: Tick, after: Store)
    requires Grounded(s, ground, ask.trade) && Update(ground, ask.trade, ask.to, ask.meta, tick) == Applied(after)
    ensures Makes(s, ground, after, ask, tick)
  {
    hide Update, SameDeal, Posted, KeyOf, Written, WithTicket, FitsRow, Allowed, NoticeFits, Note, Elsewhere;
    WhenApplied(ground, ask.trade, ask.to, ask.meta, tick);
    assert Kin(s, ground, ask.trade);
    AppliedElsewhere(s, ground, ask, tick, after);
  }

  lemma AppliedElsewhere(s: Store, ground: Store, ask: Ask, tick: Tick, after: Store)
    requires Grounded(s, ground, ask.trade) && Update(ground, ask.trade, ask.to, ask.meta, tick) == Applied(after)
    ensures Elsewhere(s, after, ask.trade)
  {
    hide Update, SameDeal, Posted, KeyOf, Written, WithTicket, FitsRow, Allowed, NoticeFits, Note, Kin;
    WhenApplied(ground, ask.trade, ask.to, ask.meta, tick);
    forall id | id in s.trades && id != ask.trade
      ensures Kin(s, after, id)
    {
      KinOn(s, ground, after, id);
    }
  }

  lemma KinOn(s: Store, ground: Store, after: Store, id: string)
    requires Kin(s, ground, id) && id in after.trades && after.trades[id] == ground.trades[id] && Past(after, id) == Past(ground, id)
    ensures Kin(s, after, id)
  {
    hide SameDeal, Past;
  }

  lemma ReopenedGrounds(s: Store, trade: string, mode: Mode, now: int)
    ensures Grounded(s, Reopened(s, trade, mode, now), trade)
  {
    hide RetryStatus, Kin;
    forall id | id in s.trades
      ensures Kin(s, Reopened(s, trade, mode, now), id)
    {
      KinReopened(s, trade, mode, now, id);
    }
  }

  lemma KinReopened(s: Store, trade: string, mode: Mode, now: int, id: string)
    requires id in s.trades
    ensures Kin(s, Reopened(s, trade, mode, now), id)
  {
    hide RetryStatus;
  }

  lemma SameGrounds(s: Store, trade: string)
    ensures Grounded(s, s, trade)
  {
    hide Past;
  }

  /** The same tables, but for tickets. */
  ghost predicate SameButTickets(s: Store, after: Store) {
    after == s.(tickets := after.tickets)
  }

  lemma ClosedMakes(s: Store, ground: Store, mid: Store, after: Store, ask: Ask, tick: Tick)
    requires Makes(s, ground, mid, ask, tick) && SameButTickets(mid, after)
    ensures Makes(s, ground, after, ask, tick)
  {
    hide Posted, KeyAsked, SameDeal, Allowed, Written;
    forall id | id in s.trades && id != ask.trade
      ensures Kin(s, after, id)
    {
      assert Kin(s, mid, id);
    }
  }

  lemma GroundIs(w: World, step: Step, ask: Ask)
    requires step.Resolve? ==> ResolveAsk(w.db, step.ticket, step.mode, step.note) == Some(ask)
    ensures Grounded(w.db, Ground(w, step), ask.trade)
  {
    hide ResolutionAsk, Reopened, Grounded;
    if step.Resolve? {
      var k := w.db.tickets[step.ticket];
      ResolutionSparesSales(k.trade, w.db.trades[k.trade], k.reason, step.mode.value, step.note);
      ReopenedGrounds(w.db, k.trade, step.mode.value, step.tick.now);
    } else {
      SameGrounds(w.db, ask.trade);
    }
  }

  // All a step does beside its change is to close a ticket.
  lemma NextIs(cfg: Config, w: World, step: Step, after: Store)
    requires OutcomeOf(cfg, w, step) == Applied(after)
    ensures SameButTickets(after, Next(cfg, w, step).db)
  {
    hide WatchAsk, BackfillAsk, SellAsk, EndSaleAsk, RecoverAsk, StartPayoutAsk, PollPayoutAsk, WebhookAsk, RaiseAsk, ResolutionAsk, Update, Reopened,
         Closed, Priced, Accepted, NextSales, NextAttempts, NextEvents;
  }

  /** A step that makes a status change files it under a new key, writes its postings and the trade's row, appends to its
      history, and changes no other trade's. */
  lemma WhenMade(cfg: Config, w: World, step: Step, ask: Ask)
    requires Made(cfg, w, step) == Some(ask)
    ensures Makes(w.db, Ground(w, step), Next(cfg, w, step).db, ask, step.tick)
  {
    var ground := Ground(w, step);
    var after := OutcomeOf(cfg, w, step).after;
    NextIs(cfg, w, step, after);
    GroundIs(w, step, ask);
    hide Update, AskOf, ResolveAsk, ResolveGround, Makes, Next, Grounded, SameButTickets;
    AppliedMakes(w.db, ground, ask, step.tick, after);
    ClosedMakes(w.db, ground, after, Next(cfg, w, step).db, ask, step.tick);
  }

  // A step that makes no change, of an admin.
  lemma UnresolvedIsQuiet(s: Store, ticket: nat, mode: Option<Mode>, note: string, resolver: string, tick: Tick, ask: Ask)
    requires ResolveAsk(s, ticket, mode, note) == Some(ask)
    requires !Update(ResolveGround(s, ticket, mode, tick.now), ask.trade, ask.to, ask.meta, tick).Applied?
    ensures Quiet(s, Resolved(s, ticket, mode, note, resolver, tick))
  {
    SameGrounds(s, "");
    var k := s.tickets[ticket];
    ReopenedGrounds(s, k.trade, mode.value, tick.now);
    hide ResolutionAsk, Update, Reopened, Closed, Kin, SameDeal;
    GroundedIsQuiet(s, s, s, "");
    GroundedIsQuiet(s, Reopened(s, k.trade, mode.value, tick.now), Resolved(s, ticket, mode, note, resolver, tick), k.trade);
  }

  lemma GroundedIsQuiet(s: Store, ground: Store, after: Store, trade: string)
    requires Grounded(s, ground, trade)
    ensures SameButTickets(ground, after) ==> Quiet(s, after)
  {
    hide SameDeal;
    forall id | id in s.trades && SameButTickets(ground, after)
      ensures Kin(s, after, id)
    {
      assert Kin(s, ground, id);
    }
  }

  /** Any other step leaves the ledger, the keys of status changes and all histories alone. */
  lemma WhenNotMade(cfg: Config, w: World, step: Step)
    requires Made(cfg, w, step).None?
    ensures Quiet(w.db, Next(cfg, w, step).db)
  {
    hide AskOf, ResolveAsk, ResolveGround, Resolved, Priced, MayAccept, Update, NormalizeKey, TrimRight, PositivePrice, UnitOf, NextSales,
         NextAttempts, NextEvents, NewTrade, Kin, Quiet;
    if step.Resolve? {
      UnmadeResolution(cfg, w, step);
    } else if step.Offer? || step.Lapse? || step.Accept? {
      QuoteStepIsQuiet(cfg, w, step);
    } else {
      SameIsQuiet(w.db);
    }
  }

  lemma SameIsQuiet(s: Store)
    ensures Quiet(s, s)
  {
    hide Past;
  }

  lemma QuoteStepIsQuiet(cfg: Config, w: World, step: Step)
    requires step.Offer? || step.Lapse? || step.Accept?
    ensures Quiet(w.db, Next(cfg, w, step).db)
  {
    hide Priced, MayAccept, NormalizeKey, TrimRight, PositivePrice, UnitOf, NextSales, NextAttempts, NextEvents, NewTrade;
  }

  lemma UnmadeResolution(cfg: Config, w: World, step: Step)
    requires step.Resolve? && Made(cfg, w, step).None?
    ensures Quiet(w.db, Next(cfg, w, step).db)
  {
    SameGrounds(w.db, "");
    GroundedIsQuiet(w.db, w.db, w.db, "");
    hide AskOf, ResolveGround, ResolutionAsk, Update, NextSales, NextAttempts, NextEvents, Quiet, Closed;
    var ask := ResolveAsk(w.db, step.ticket, step.mode, step.note);
    if ask.Some? {
      UnresolvedIsQuiet(w.db, step.ticket, step.mode, step.note, step.resolver, step.tick, ask.value);
    }
  }
}
