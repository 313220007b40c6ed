/** Accepted orders over runs: every creation key that is reserved names a quote that is used, so an order is turned down as a
    repeat only where its quote is used already. */
module Orders {
  import opened Wrappers
  import opened Text
  import opened Ledger
  import opened Store
  import opened Steps
  import opened Bookkeeping
  import opened Growth
  import opened Sales
  import opened Tickets
  import opened Purposes
  import opened Disputed
  import opened Refusals

  /** The text an order's key is reserved under, where user, quote and bank account have identifiers of 36 characters. */
  function CreationText(user: string, quote: string, bank: string): string {
    "trade_create:" + user + ":" + quote + ":" + bank
  }

  predicate Drawn(user: string, quote: string, bank: string) {
    UuidText(user) && UuidText(quote) && UuidText(bank)
  }

  lemma CreationForm(user: string, quote: string, bank: string)
    requires Drawn(user, quote, bank)
    ensures var h := CreationText(user, quote, bank); |h| == 123 && KeyText(h) && !IsSpace(h[0]) && !IsSpace(h[122])
  {
    UuidEnds(bank);
    UuidIsKeyText(user);
    UuidIsKeyText(quote);
    UuidIsKeyText(bank);
    assert KeyText("trade_create:") && KeyText(":");
    hide KeyText, UuidText;
    JoinKeyText("trade_create:", user);
    JoinKeyText("trade_create:" + user, ":");
    JoinKeyText("trade_create:" + user + ":", quote);
    JoinKeyText("trade_create:" + user + ":" + quote, ":");
    JoinKeyText("trade_create:" + user + ":" + quote + ":", bank);
    assert CreationText(user, quote, bank)[122] == bank[35];
  }

  /** The key names all three, whole. */
  lemma CreationKeyIs(user: string, quote: string, bank: string)
    requires Drawn(user, quote, bank)
    ensures CreationKey(user, quote, bank) == OpKey(TradeCreation, CreationText(user, quote, bank))
  {
    CreationForm(user, quote, bank);
    var h := CreationText(user, quote, bank);
    hide KeyText, IsSpace, NormalizeKey, Drawn;
    StoredHead(h, "");
    assert h + "" == h;
    NormalLength(h);
  }

  lemma CreationTextsTell(user: string, quote: string, bank: string, u: string, q: string, b: string)
    requires |user| == |quote| == |bank| == 36 && |u| == |q| == |b| == 36
    requires CreationText(user, quote, bank) == CreationText(u, q, b)
    ensures user == u && quote == q && bank == b
  {
    var s, t := CreationText(user, quote, bank), CreationText(u, q, b);
    assert s[13..49] == user && s[50..86] == quote && s[87..] == bank;
    assert t[13..49] == u && t[50..86] == q && t[87..] == b;
  }

  // ------------------------------------------------------------------ over runs

  predicate Names(k: OpKey, user: string, quote: string, bank: string) {
    |user| == |quote| == |bank| == 36 && k.text == CreationText(user, quote, bank)
  }

  predicate IsUsed(s: Store, quote: string) {
    quote in s.quotes && s.quotes[quote].acceptedAt.Some?
  }

  ghost predicate NamesUsed(s: Store, k: OpKey) {
    exists user, quote, bank :: Names(k, user, quote, bank) && IsUsed(s, quote)
  }

  /** Every creation key names a quote that is used. */
  ghost predicate OrdersUsed(s: Store) {
    forall k <- s.keys :: k.scope.TradeCreation? ==> NamesUsed(s, k)
  }

  predicate DrawnOrder(step: Step) {
    step.Accept? ==> Drawn(step.user, step.quote, step.bank)
  }

  /** Users, quotes and bank accounts are named by identifiers drawn as trades' are. */
  predicate DrawnOrders(steps: seq<Step>) {
    forall i :: 0 <= i < |steps| ==> DrawnOrder(steps[i])
  }

  lemma UpdateKeys(s: Store, ask: Ask, tick: Tick)
    ensures forall k: OpKey :: k.scope.TradeCreation? && k in Settle(s, Update(s, ask.trade, ask.to, ask.meta, tick)).keys ==> k in s.keys
  {
    hide Update, OperationKey, FitsRow, Posted, Written, Past, NoticeFits, WithTicket, Note;
    if Update(s, ask.trade, ask.to, ask.meta, tick).Applied? {
      WhenApplied(s, ask.trade, ask.to, ask.meta, tick);
    }
  }

  lemma ResolvedKeys(s: Store, ticket: nat, mode: Option<Mode>, note: string, resolver: string, tick: Tick)
    ensures forall k: OpKey :: k.scope.TradeCreation? && k in Resolved(s, ticket, mode, note, resolver, tick).keys ==> k in s.keys
  {
    hide ResolutionAsk, Reopened, Update, Closed, Settle;
    if ResolveAsk(s, ticket, mode, note).Some? {
      var ask := ResolveAsk(s, ticket, mode, note).value;
      ResolvedIs(s, ticket, mode.value, note, resolver, tick, ask);
      ReopenedFields(s, ask.trade, mode.value, tick.now);
      UpdateKeys(ResolveGround(s, ticket, mode, tick.now), ask, tick);
    }
  }

  lemma OtherKeys(cfg: Config, w: World, step: Step)
    requires !(step.Accept? && MayBegin(cfg, w.db, step, step.trade))
    ensures forall k: OpKey :: k.scope.TradeCreation? && k in Next(cfg, w, step).db.keys ==> k in w.db.keys
  {
    if step.Accept? {
      NotBegun(cfg, w, step);
    }
    hide AskOf, ResolveAsk, Resolved, Accepted, MayBegin, Priced, UnitOf, PositivePrice, Update, Settle, NextSales, NextAttempts, NextEvents;
    if step.Resolve? {
      ResolvedKeys(w.db, step.ticket, step.mode, step.note, step.resolver, step.tick);
    } else if Wanted(cfg, w, step).Some? {
      UpdateKeys(w.db, Wanted(cfg, w, step).value, step.tick);
    }
  }

  lemma StaysUsed(s: Store, after: Store, k: OpKey)
    requires QuotesStay(s, after) && NamesUsed(s, k)
    ensures NamesUsed(after, k)
  {
    var user, quote, bank :| Names(k, user, quote, bank) && IsUsed(s, quote);
    assert SameOffer(s.quotes[quote], after.quotes[quote]);
    assert IsUsed(after, quote);
  }

  lemma NewIsUsed(s: Store, after: Store, step: Step, id: string)
    requires Born(s, after, step, id) && DrawnOrder(step)
    ensures NamesUsed(after, CreationKey(step.user, step.quote, step.bank))
    ensures forall k: OpKey :: k in after.keys ==> k in s.keys || k == CreationKey(step.user, step.quote, step.bank)
  {
    CreationKeyIs(step.user, step.quote, step.bank);
    CreationForm(step.user, step.quote, step.bank);
    hide CreationKey, UuidFrom, CreationText;
    assert Names(CreationKey(step.user, step.quote, step.bank), step.user, step.quote, step.bank);
    assert IsUsed(after, step.quote);
  }

  lemma NextOrders(cfg: Config, w: World, step: Step)
    requires OrdersUsed(w.db) && DrawnOrder(step) && Recorded(w.db)
    ensures OrdersUsed(Next(cfg, w, step).db)
  {
    var after := Next(cfg, w, step).db;
    NextGrows(cfg, w, step);
    hide Recorded, Next, MayBegin, Born, NamesUsed, QuotesStay, TradesStay, KeysStay, HistoryStays, TicketsStay, DrawnOrder, CreationKey;
    if step.Accept? && MayBegin(cfg, w.db, step, step.trade) {
      NotThere(cfg, w.db, step);
      BornIff(cfg, w, step, step.trade);
      BornAt(cfg, w, step, step.trade);
      NewIsUsed(w.db, after, step, step.trade);
    } else {
      OtherKeys(cfg, w, step);
    }
    forall k | k in after.keys && k.scope.TradeCreation?
      ensures NamesUsed(after, k)
    {
      if k in w.db.keys {
        StaysUsed(w.db, after, k);
      }
    }
  }

  lemma NotThere(cfg: Config, s: Store, step: Step)
    requires step.Accept? && MayBegin(cfg, s, step, step.trade)
    ensures step.trade !in s.trades
  {
    hide CreationKey;
  }

  lemma {:induction false} RunOrders(cfg: Config, steps: seq<Step>)
    requires DrawnOrders(steps)
    ensures OrdersUsed(Run(cfg, steps).db)
  {
    hide Next, DrawnOrder, NamesUsed, Recorded;
    if steps != [] {
      RunOrders(cfg, steps[..|steps| - 1]);
      RunIsRecorded(cfg, steps[..|steps| - 1]);
      NextOrders(cfg, Run(cfg, steps[..|steps| - 1]), steps[|steps| - 1]);
    }
  }

  /** An order that may be accepted: an identifier not taken, a quote neither used nor expired, in time, by the user it was
      made for, to that user's own bank account, cleared. */
  predicate MayOrder(cfg: Config, s: Store, step: Step) {
    && step.Accept? && cfg.isId(step.trade) && step.trade !in s.trades && step.quote in s.quotes
    && var q := s.quotes[step.quote];
    && q.acceptedAt.None? && q.expiredAt.None? && step.tick.now <= q.validUntil && q.user == step.user
    && step.bank in cfg.banks && cfg.banks[step.bank] == step.user && step.cleared
  }

  /** After any run, an order begins its trade if and only if it may be accepted: no repeat of another order's key stands in
      its way. Otherwise it changes nothing. */
  lemma OrderBeginsIff(cfg: Config, steps: seq<Step>, step: Step)
    requires DrawnOrders(steps) && step.Accept? && DrawnOrder(step)
    ensures var w := Run(cfg, steps);
            if MayOrder(cfg, w.db, step) then Born(w.db, Next(cfg, w, step).db, step, step.trade) else Next(cfg, w, step) == w
  {
    var w := Run(cfg, steps);
    RunOrders(cfg, steps);
    UnusedWhen(cfg, w.db, step);
    MayBeginIff(cfg, w.db, step);
    hide *;
    if MayOrder(cfg, w.db, step) {
      NotThere(cfg, w.db, step);
      BornIff(cfg, w, step, step.trade);
      BornAt(cfg, w, step, step.trade);
    } else {
      NotBegun(cfg, w, step);
    }
  }

  lemma UnusedWhen(cfg: Config, s: Store, step: Step)
    requires OrdersUsed(s) && step.Accept? && DrawnOrder(step)
    ensures MayOrder(cfg, s, step) ==> CreationKey(step.user, step.quote, step.bank) !in s.keys
  {
    hide OrdersUsed, DrawnOrder, CreationKey;
    if MayOrder(cfg, s, step) {
      KeyIsNew(s, step);
    }
  }

  lemma MayBeginIff(cfg: Config, s: Store, step: Step)
    requires step.Accept?
    ensures MayBegin(cfg, s, step, step.trade) <==> MayOrder(cfg, s, step) && CreationKey(step.user, step.quote, step.bank) !in s.keys
  {
    hide CreationKey;
  }

  lemma KeyIsNew(s: Store, step: Step)
    requires OrdersUsed(s) && step.Accept? && DrawnOrder(step) && !IsUsed(s, step.quote)
    ensures CreationKey(step.user, step.quote, step.bank) !in s.keys
  {
    var k := CreationKey(step.user, step.quote, step.bank);
    CreationKeyIs(step.user, step.quote, step.bank);
    CreationForm(step.user, step.quote, step.bank);
    hide CreationKey, UuidFrom, CreationText;
    if k in s.keys {
      var user, quote, bank :| Names(k, user, quote, bank) && IsUsed(s, quote);
      CreationTextsTell(step.user, step.quote, step.bank, user, quote, bank);
      assert false;
    }
  }
}
