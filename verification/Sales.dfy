/** A trade's asset is sold once: a recorded order is never cleared and never lets the trade be sold again. */
module Sales {
  import opened Wrappers
  import opened Text
  import opened Lifecycle
  import opened Ledger
  import opened Store
  import opened Steps
  import opened Asks
  import opened Bookkeeping
  import opened Growth

  const AFTER_SALE := {ConversionInProgress, ConversionCompleted, PayoutPending, PayoutCompleted, PayoutFailed, Dispute, DisputeClosed}

  predicate SoldAndPast(t: Trade) {
    t.orderId.Some? ==> t.status in AFTER_SALE
  }

  /** A trade with a recorded order is past the sale. */
  ghost predicate NoResale(s: Store) {
    forall id <- s.trades :: SoldAndPast(s.trades[id]) && UuidText(id)
  }

  lemma WrittenNotForSale(t: Trade, to: Status, m: Metadata, now: int)
    requires SoldAndPast(t) && Allowed(t.status, to)
    requires to == DepositConfirmed ==> t.status == DepositReceived || t.orderId.None?
    requires m.orderId.Some? ==> to in {ConversionInProgress, ConversionCompleted, Dispute}
    ensures SoldAndPast(Written(t, to, m, now))
  {
    hide Note, Trim;
  }

  /** A change that goes back before the sale only when no order is recorded, and records one only from the sale on. */
  predicate SparesSale(s: Store, trade: string, to: Status, m: Metadata) {
    && (trade in s.trades && to == DepositConfirmed ==> s.trades[trade].status == DepositReceived || s.trades[trade].orderId.None?)
    && (m.orderId.Some? ==> to in {ConversionInProgress, ConversionCompleted, Dispute})
  }

  lemma UpdateNoResale(s: Store, trade: string, to: Status, m: Metadata, tick: Tick)
    requires NoResale(s) && SparesSale(s, trade, to, m)
    ensures NoResale(Settle(s, Update(s, trade, to, m, tick)))
  {
    hide KeyOf, FitsRow, Allowed, Posted, Written, WithTicket, SoldAndPast, UuidText;
    if Update(s, trade, to, m, tick).Applied? {
      WrittenNotForSale(s.trades[trade], to, m, tick.now);
    }
  }

  lemma AcceptedNoResale(cfg: Config, s: Store, trade: string, user: string, quote: string, bank: string, cleared: bool,
                         address: string, authorized: bool, now: int)
    requires Uuids(cfg)
    requires NoResale(s)
    ensures NoResale(Accepted(cfg, s, trade, user, quote, bank, cleared, address, authorized, now))
  {
    hide MayAccept, UuidText, CreationKey;
  }

  lemma SameTradesNoResale(s: Store, after: Store)
    requires NoResale(s) && forall id <- after.trades :: id in s.trades
    requires forall id <- after.trades :: after.trades[id].orderId == s.trades[id].orderId && after.trades[id].status == s.trades[id].status
    ensures NoResale(after)
  {
    hide UuidText;
    forall id | id in after.trades
      ensures SoldAndPast(after.trades[id]) && UuidText(id)
    {
      assert SoldAndPast(s.trades[id]) && UuidText(id);
    }
  }

  lemma ResolvedNoResale(s: Store, ticket: nat, mode: Option<Mode>, note: string, resolver: string, tick: Tick)
    requires NoResale(s)
    ensures NoResale(Resolved(s, ticket, mode, note, resolver, tick))
  {
    hide NoResale, ResolutionAsk, Update, RetryStatus, Closed;
    var ask, ground := ResolveAsk(s, ticket, mode, note), ResolveGround(s, ticket, mode, tick.now);
    if ask.Some? {
      var k := s.tickets[ticket];
      SameTradesNoResale(s, ground);
      ResolutionSparesSales(k.trade, s.trades[k.trade], k.reason, mode.value, note);
      UpdateNoResale(ground, ask.value.trade, ask.value.to, ask.value.meta, tick);
      var after := Settle(ground, Update(ground, ask.value.trade, ask.value.to, ask.value.meta, tick));
      SameTradesNoResale(after, WithClosed(after, ticket, mode.value, note, resolver, tick.now));
    }
  }

  lemma NextNoResale(cfg: Config, w: World, step: Step)
    requires Uuids(cfg)
    requires NoResale(w.db)
    ensures NoResale(Next(cfg, w, step).db)
  {
    hide NoResale, Priced, Accepted, Resolved, AskOf, Update, Uuids;
    match step
    case Offer(quote, user, asset, amount, price, tick) => SameTradesNoResale(w.db, Offered(w.db, quote, user, asset, amount, price, tick.now));
    case Lapse(quote, tick) => SameTradesNoResale(w.db, Lapsed(w.db, quote, tick.now));
    case Accept(trade, user, quote, bank, cleared, address, authorized, tick) =>
      AcceptedNoResale(cfg, w.db, trade, user, quote, bank, cleared, address, authorized, tick.now);
    case Resolve(ticket, mode, note, resolver, tick) => ResolvedNoResale(w.db, ticket, mode, note, resolver, tick);
    case _ =>
      var ask := AskOf(cfg, w, step);
      if ask.Some? {
        AskIsProper(cfg, w, step, ask.value);
        UpdateNoResale(w.db, ask.value.trade, ask.value.to, ask.value.meta, step.tick);
      }
  }

  lemma {:induction false} RunNoResale(cfg: Config, steps: seq<Step>)
    requires Uuids(cfg)
    ensures NoResale(Run(cfg, steps).db)
  {
    if steps != [] {
      var n := |steps| - 1;
      RunNoResale(cfg, steps[..n]);
      hide NoResale, Next;
      NextNoResale(cfg, Run(cfg, steps[..n]), steps[n]);
    }
  }

  // ------------------------------------------------------------------ keys of started sales

  /** A sale's key names its trade; it is filed with an order, or the order was blank. */
  ghost predicate StartedKey(s: Store, k: OpKey)
    requires k in s.keys
  {
    && s.keys[k] in s.trades && UuidText(s.keys[k])
    && STARTED + s.keys[k] + ":" <= k.text
    && (s.trades[s.keys[k]].orderId.Some? || k.text == STARTED + s.keys[k] + ":")
  }

  ghost predicate StartsFiled(s: Store) {
    forall k <- s.keys :: k.scope == StatusChange(ConversionInProgress) ==> StartedKey(s, k)
  }

  /** An order the database can record. */
  predicate GoodOrder(order: string) {
    0 < |Trim(order)| <= COLUMN_WIDTH
  }

  lemma HeadIsKeyText(trade: string)
    requires UuidText(trade)
    ensures var head := STARTED + trade + ":"; KeyText(head) && |head| == 56 && !IsSpace(head[0]) && !IsSpace(head[|head| - 1])
  {
    hide UuidText;
    UuidIsKeyText(trade);
    hide KeyText;
    assert KeyText(STARTED) && KeyText(":");
    JoinKeyText(STARTED, trade);
    JoinKeyText(STARTED + trade, ":");
  }

  lemma {:induction false} UuidCharacters(id: string, i: nat)
    requires UuidFrom(id, i)
    ensures forall j :: i <= j < |id| ==> KeyChar(id[j])
    decreases |id| - i
  {
    if i < |id| {
      UuidCharacters(id, i + 1);
    }
  }

  lemma UuidIsKeyText(trade: string)
    requires UuidText(trade)
    ensures KeyText(trade) && |trade| == 36
  {
    UuidCharacters(trade, 0);
  }

  lemma JoinKeyText(a: string, b: string)
    requires KeyText(a) && KeyText(b)
    ensures KeyText(a + b)
  {
    hide KeyChar;
  }

  // The head of a key survives being normalised twice, and so does the first character after it.
  lemma StoredHead(head: string, tail: string)
    requires head != "" && KeyText(head) && !IsSpace(head[0]) && !IsSpace(head[|head| - 1]) && |head| <= MAX_KEY
    ensures head <= TrimRight(NormalizeKey(head + tail))
  {
    hide KeyText, IsSpace, NormalizeKey;
    NormalizeKeepsHead(head, tail);
    var once := NormalizeKey(head + tail);
    var rest := once[|head|..];
    assert once == head + rest;
    NormalizeKeepsHead(head, rest);
    NormalizeAgain(head + tail);
  }

  lemma FoldedStart(order: string)
    requires Trim(order) != ""
    ensures Folded(order) != "" && KeyText(Folded(order)[..1]) && !IsSpace(Folded(order)[0])
  {
    var t := Trim(order);
    TrimIs(order);
    assert Folded(order)[0] == LowerChar(t[0]);
  }

  /** A sale's stored key: its head names the trade, and goes on exactly when the order is not blank. */
  lemma StartedKeyText(trade: string, order: string)
    requires UuidText(trade)
    ensures var head := STARTED + trade + ":"; var text := TrimRight(NormalizeKey(head + Folded(order)));
            head <= text && (Trim(order) == "" ==> text == head) && (Trim(order) != "" ==> |text| > |head|)
  {
    var head := STARTED + trade + ":";
    HeadIsKeyText(trade);
    hide *;
    if Trim(order) == "" {
      BlankKey(head, order);
    } else {
      OrderKey(head, order);
    }
  }

  lemma BlankKey(head: string, order: string)
    requires head != "" && KeyText(head) && !IsSpace(head[0]) && !IsSpace(head[|head| - 1]) && |head| <= MAX_KEY && Trim(order) == ""
    ensures TrimRight(NormalizeKey(head + Folded(order))) == head
  {
    BlankOrder(head, order);
    hide *;
    assert head + "" == head;
    StoredHead(head, "");
    NormalizeOf(head);
  }

  lemma OrderKey(head: string, order: string)
    requires head != "" && KeyText(head) && !IsSpace(head[0]) && !IsSpace(head[|head| - 1]) && |head| < MAX_KEY && Trim(order) != ""
    ensures head < TrimRight(NormalizeKey(head + Folded(order)))
  {
    FoldedStart(order);
    hide *;
    LongerKey(head, Folded(order));
  }

  lemma LongerKey(head: string, tail: string)
    requires head != "" && KeyText(head) && !IsSpace(head[0]) && |head| < MAX_KEY
    requires tail != "" && KeyText(tail[..1]) && !IsSpace(tail[0])
    ensures head < TrimRight(NormalizeKey(head + tail))
  {
    hide *;
    JoinKeyText(head, tail[..1]);
    var more := head + tail[..1];
    assert more[|more| - 1] == tail[0] && more[0] == head[0];
    StoredHead(more, tail[1..]);
    assert head + tail == more + tail[1..];
  }

  lemma BlankOrder(head: string, order: string)
    requires Trim(order) == ""
    ensures head + Folded(order) == head
  {
    assert Folded(order) == "";
  }

  lemma NormalizeOf(head: string)
    requires head <= TrimRight(NormalizeKey(head)) && |head| <= MAX_KEY
    ensures TrimRight(NormalizeKey(head)) == head
  {
  }

  // Two sales' keys with the same stored text belong to the same trade.
  lemma SameHeadSameTrade(a: string, b: string, text: string)
    requires UuidText(a) && UuidText(b) && STARTED + a + ":" <= text && STARTED + b + ":" <= text
    ensures a == b
  {
    HeadIsKeyText(a);
    HeadIsKeyText(b);
    var x, y := STARTED + a + ":", STARTED + b + ":";
    hide UuidText;
    assert x == y;
    assert a == x[|STARTED|..|STARTED| + 36] && b == y[|STARTED|..|STARTED| + 36];
  }

  // ------------------------------------------------------------------ recording an order

  lemma SaleAsk(w: World, trade: string, order: string, exchange: string)
    requires ForSale(w.db, trade)
    ensures SellAsk(w, trade, Sold(order, exchange)) == Some(Ask(trade, ConversionInProgress, SaleNote(trade, order, exchange)))
  {
    hide Filed, Folded, Trim;
  }

  lemma SaleNoteKey(trade: string, order: string, exchange: string)
    requires UuidText(trade)
    ensures KeyOf(trade, ConversionInProgress, SaleNote(trade, order, exchange))
         == OpKey(StatusChange(ConversionInProgress), TrimRight(NormalizeKey(STARTED + trade + ":" + Folded(order))))
  {
    StartedKeyText(trade, order);
    SaleNoteFields(trade, order, exchange);
    hide UuidText, STARTED, Folded, SaleNote, DefaultKey;
    var raw := STARTED + trade + ":" + Folded(order);
    assert NormalizeKey(raw) != "" by {
      if NormalizeKey(raw) == "" {
        BlankNormalizes();
        assert false;
      }
    }
    hide NormalizeKey;
  }

  lemma BlankNormalizes()
    ensures NormalizeKey("") == ""
  {
  }

  lemma SaleNoteFields(trade: string, order: string, exchange: string)
    ensures var m := SaleNote(trade, order, exchange);
            && m.key == Some(STARTED + trade + ":" + Folded(order)) && m.orderId == Some(Trim(order))
            && m.txHash.None? && m.payoutRef.None? && m.conversionId.None?
  {
    hide Folded, Trim, STARTED;
  }

  // What recording an order means for the row.
  lemma OrderGiven(trade: string, order: string, exchange: string)
    ensures var m := SaleNote(trade, order, exchange);
            (FitsRow(m) <==> |Trim(order)| <= COLUMN_WIDTH) && (Given(m.orderId).Some? <==> Trim(order) != "")
  {
    SaleNoteFields(trade, order, exchange);
    TrimTwice(order);
    hide SaleNote, Trim;
  }

  /** What recording a started sale passes along. */
  ghost predicate StartNoted(trade: string, m: Metadata) {
    UuidText(trade) && exists order, exchange :: m == SaleNote(trade, order, exchange)
  }

  lemma StartsFiledUpdate(s: Store, trade: string, to: Status, m: Metadata, tick: Tick)
    requires StartsFiled(s)
    requires to == ConversionInProgress ==> StartNoted(trade, m)
    ensures StartsFiled(Settle(s, Update(s, trade, to, m, tick)))
  {
    hide Update, FitsRow, Allowed, Posted, WithTicket, Given, Note, UuidText, SaleNote, KeyOf, STARTED, Past, Written;
    var o := Update(s, trade, to, m, tick);
    if o.Applied? {
      WhenApplied(s, trade, to, m, tick);
      KeyScope(trade, to, m);
      OrderStays(s.trades[trade], to, m, tick.now);
      forall l | l in o.after.keys && l.scope == StatusChange(ConversionInProgress)
        ensures StartedKey(o.after, l)
      {
        if l in s.keys {
          assert StartedKey(s, l);
        } else {
          var order, exchange :| m == SaleNote(trade, order, exchange);
          SaleNoteKey(trade, order, exchange);
          StartedKeyText(trade, order);
          OrderGiven(trade, order, exchange);
        }
      }
    }
  }

  lemma OrderStays(t: Trade, to: Status, m: Metadata, now: int)
    ensures t.orderId.Some? ==> Written(t, to, m, now).orderId.Some?
    ensures Written(t, to, m, now).orderId == Coalesce(Given(m.orderId), t.orderId)
  {
    hide Given, Note;
  }

  lemma KeyScope(trade: string, to: Status, m: Metadata)
    ensures KeyOf(trade, to, m).scope == StatusChange(to)
  {
    hide NormalizeKey, OperationKey;
  }

  lemma SameStarts(s: Store, after: Store)
    requires StartsFiled(s) && after.keys == s.keys && forall id <- s.trades :: id in after.trades
    requires forall id <- s.trades :: s.trades[id].orderId.Some? ==> after.trades[id].orderId.Some?
    ensures StartsFiled(after)
  {
    hide UuidText, STARTED;
    forall k | k in after.keys && k.scope == StatusChange(ConversionInProgress)
      ensures StartedKey(after, k)
    {
      assert StartedKey(s, k);
    }
  }

  lemma AcceptedStarts(cfg: Config, s: Store, trade: string, user: string, quote: string, bank: string, cleared: bool,
                       address: string, authorized: bool, now: int)
    requires StartsFiled(s)
    ensures StartsFiled(Accepted(cfg, s, trade, user, quote, bank, cleared, address, authorized, now))
  {
    var after := Accepted(cfg, s, trade, user, quote, bank, cleared, address, authorized, now);
    hide UuidText, STARTED, MayAccept, NormalizeKey;
    forall k | k in after.keys && k.scope == StatusChange(ConversionInProgress)
      ensures StartedKey(after, k)
    {
      assert StartedKey(s, k);
    }
  }

  lemma ResolvedStarts(s: Store, ticket: nat, mode: Option<Mode>, note: string, resolver: string, tick: Tick)
    requires StartsFiled(s)
    ensures StartsFiled(Resolved(s, ticket, mode, note, resolver, tick))
  {
    hide StartsFiled, ResolutionAsk, Update, RetryStatus, Closed;
    var ask, ground := ResolveAsk(s, ticket, mode, note), ResolveGround(s, ticket, mode, tick.now);
    if ask.Some? {
      var k := s.tickets[ticket];
      SameStarts(s, ground);
      ResolutionSparesSales(k.trade, s.trades[k.trade], k.reason, mode.value, note);
      StartsFiledUpdate(ground, ask.value.trade, ask.value.to, ask.value.meta, tick);
      var after := Settle(ground, Update(ground, ask.value.trade, ask.value.to, ask.value.meta, tick));
      SameStarts(after, WithClosed(after, ticket, mode.value, note, resolver, tick.now));
    }
  }

  lemma StartingAsk(cfg: Config, w: World, step: Step, ask: Ask)
    requires AskOf(cfg, w, step) == Some(ask) && ask.to == ConversionInProgress && NoResale(w.db)
    ensures StartNoted(ask.trade, ask.meta)
  {
    OnlySalesStart(cfg, w, step, ask);
    hide AskOf, SellAsk, SaleNote, UuidText;
    SaleAsk(w, step.trade, step.answer.order, step.answer.exchange);
  }

  lemma NextStarts(cfg: Config, w: World, step: Step)
    requires NoResale(w.db) && StartsFiled(w.db)
    ensures StartsFiled(Next(cfg, w, step).db)
  {
    hide NoResale, StartsFiled, Priced, Accepted, Resolved, AskOf, Update, UuidText, SaleNote;
    match step
    case Offer(quote, user, asset, amount, price, tick) => SameStarts(w.db, Offered(w.db, quote, user, asset, amount, price, tick.now));
    case Lapse(quote, tick) => SameStarts(w.db, Lapsed(w.db, quote, tick.now));
    case Accept(trade, user, quote, bank, cleared, address, authorized, tick) =>
      AcceptedStarts(cfg, w.db, trade, user, quote, bank, cleared, address, authorized, tick.now);
    case Resolve(ticket, mode, note, resolver, tick) => ResolvedStarts(w.db, ticket, mode, note, resolver, tick);
    case _ =>
      var ask := AskOf(cfg, w, step);
      if ask.Some? {
        if ask.value.to == ConversionInProgress {
          StartingAsk(cfg, w, step, ask.value);
        }
        StartsFiledUpdate(w.db, ask.value.trade, ask.value.to, ask.value.meta, step.tick);
      }
  }

  lemma {:induction false} RunStarts(cfg: Config, steps: seq<Step>)
    requires Uuids(cfg)
    ensures StartsFiled(Run(cfg, steps).db)
  {
    if steps != [] {
      var n := |steps| - 1;
      RunStarts(cfg, steps[..n]);
      RunNoResale(cfg, steps[..n]);
      hide NoResale, StartsFiled, Next;
      NextStarts(cfg, Run(cfg, steps[..n]), steps[n]);
    }
  }

  // A good order's key is new: no earlier sale of this or any other trade was filed under it.
  lemma FreshStart(s: Store, trade: string, order: string, exchange: string)
    requires StartsFiled(s) && UuidText(trade) && trade in s.trades && s.trades[trade].orderId.None? && Trim(order) != ""
    ensures KeyOf(trade, ConversionInProgress, SaleNote(trade, order, exchange)) !in s.keys
  {
    var k := KeyOf(trade, ConversionInProgress, SaleNote(trade, order, exchange));
    SaleNoteKey(trade, order, exchange);
    StartedKeyText(trade, order);
    hide SaleNote, Trim, UuidText, STARTED, NormalizeKey, KeyOf, Folded, StartedKey;
    if k in s.keys {
      assert StartedKey(s, k);
      hide StartsFiled;
      OtherStart(s, k, trade);
    }
  }

  // A sale's key in the table whose text begins like this trade's is this trade's.
  lemma OtherStart(s: Store, k: OpKey, trade: string)
    requires k in s.keys && StartedKey(s, k) && UuidText(trade) && STARTED + trade + ":" <= k.text
    ensures s.keys[k] == trade && trade in s.trades
    ensures s.trades[trade].orderId.Some? || k.text == STARTED + trade + ":"
  {
    hide UuidText, STARTED;
    SameHeadSameTrade(trade, s.keys[k], k.text);
  }

  lemma SaleEnds(s: Store, trade: string, order: string, exchange: string, tick: Tick)
    requires NoResale(s) && StartsFiled(s) && ForSale(s, trade)
    ensures var after := Settle(s, Update(s, trade, ConversionInProgress, SaleNote(trade, order, exchange), tick));
            GoodOrderIffRecorded(after, trade, order) && (|Trim(order)| > COLUMN_WIDTH ==> after == s)
  {
    hide *;
    var m := SaleNote(trade, order, exchange);
    if GoodOrder(order) {
      GoodSaleApplies(s, trade, order, exchange, tick);
    }
    if Update(s, trade, ConversionInProgress, m, tick).Applied? {
      AppliedSale(s, trade, order, exchange, tick);
    } else {
      IgnoredSale(s, trade, order, exchange, tick);
    }
  }

  lemma GoodSaleApplies(s: Store, trade: string, order: string, exchange: string, tick: Tick)
    requires NoResale(s) && StartsFiled(s) && ForSale(s, trade) && GoodOrder(order)
    ensures Update(s, trade, ConversionInProgress, SaleNote(trade, order, exchange), tick).Applied?
  {
    var m := SaleNote(trade, order, exchange);
    ForSaleIsUnsold(s, trade);
    OrderGiven(trade, order, exchange);
    GoodIsNotBlank(order);
    hide *;
    FreshStart(s, trade, order, exchange);
    StartPostsNothing(s.trades[trade], m);
    AppliesUnposted(s, trade, ConversionInProgress, m, tick);
  }

  lemma GoodIsNotBlank(order: string)
    requires GoodOrder(order)
    ensures Trim(order) != "" && |Trim(order)| <= COLUMN_WIDTH
  {
    hide Trim;
  }

  lemma AppliedSale(s: Store, trade: string, order: string, exchange: string, tick: Tick)
    requires NoResale(s) && ForSale(s, trade)
    requires Update(s, trade, ConversionInProgress, SaleNote(trade, order, exchange), tick).Applied?
    ensures GoodOrderIffRecorded(Settle(s, Update(s, trade, ConversionInProgress, SaleNote(trade, order, exchange), tick)), trade, order)
    ensures |Trim(order)| <= COLUMN_WIDTH
  {
    var m := SaleNote(trade, order, exchange);
    hide Update, SaleNote, Trim, UuidText, KeyOf, Given, FitsRow, NoResale, Written, Posted, Past, WithTicket, Note, Allowed;
    ForSaleIsUnsold(s, trade);
    OrderGiven(trade, order, exchange);
    WhenApplied(s, trade, ConversionInProgress, m, tick);
    OrderStays(s.trades[trade], ConversionInProgress, m, tick.now);
    hide ForSale;
  }

  predicate GoodOrderIffRecorded(s: Store, trade: string, order: string) {
    trade in s.trades && (s.trades[trade].orderId.Some? <==> GoodOrder(order))
  }

  lemma IgnoredSale(s: Store, trade: string, order: string, exchange: string, tick: Tick)
    requires NoResale(s) && StartsFiled(s) && ForSale(s, trade)
    requires !Update(s, trade, ConversionInProgress, SaleNote(trade, order, exchange), tick).Applied?
    ensures Settle(s, Update(s, trade, ConversionInProgress, SaleNote(trade, order, exchange), tick)) == s
    ensures GoodOrderIffRecorded(s, trade, order)
  {
    ForSaleIsUnsold(s, trade);
    hide Update, NoResale, StartsFiled, GoodOrder, SaleNote, UuidText;
    if GoodOrder(order) {
      GoodSaleApplies(s, trade, order, exchange, tick);
    }
  }

  lemma ForSaleIsUnsold(s: Store, trade: string)
    requires NoResale(s) && ForSale(s, trade)
    ensures trade in s.trades && UuidText(trade) && s.trades[trade].orderId.None?
    ensures Allowed(s.trades[trade].status, ConversionInProgress)
  {
    hide UuidText;
    assert SoldAndPast(s.trades[trade]);
  }

  lemma StartPostsNothing(t: Trade, m: Metadata)
    ensures PostingsFor(t, ConversionInProgress, m) == []
  {
  }

  /** In every state any run reaches: when the exchange fills an order for a trade, the order is recorded if and
      only if its identifier is not blank and fits the column; an identifier too long leaves the trade up for
      sale, and the next pass of the worker sells the same deposit again. */
  lemma SaleRecordedIff(cfg: Config, steps: seq<Step>, trade: string, order: string, exchange: string, tick: Tick)
    requires Uuids(cfg)
    requires ForSale(Run(cfg, steps).db, trade)
    ensures var w := Run(cfg, steps); var v := Next(cfg, w, Sell(trade, Sold(order, exchange), tick));
            && v.sales == w.sales + [Sale(trade, Trim(order))]
            && GoodOrderIffRecorded(v.db, trade, order)
            && (|Trim(order)| > COLUMN_WIDTH ==> ForSale(v.db, trade))
  {
    RunNoResale(cfg, steps);
    RunStarts(cfg, steps);
    hide Run;
    SaleStep(cfg, Run(cfg, steps), trade, order, exchange, tick);
  }

  lemma SaleStep(cfg: Config, w: World, trade: string, order: string, exchange: string, tick: Tick)
    requires NoResale(w.db) && StartsFiled(w.db) && ForSale(w.db, trade)
    ensures var v := Next(cfg, w, Sell(trade, Sold(order, exchange), tick));
            && v.sales == w.sales + [Sale(trade, Trim(order))]
            && GoodOrderIffRecorded(v.db, trade, order)
            && (|Trim(order)| > COLUMN_WIDTH ==> v.db == w.db)
  {
    hide SaleNote, Trim, NoResale, StartsFiled, Update, SellAsk, NextAttempts, NextEvents, GoodOrder, GoodOrderIffRecorded;
    SaleAsk(w, trade, order, exchange);
    SaleEnds(w.db, trade, order, exchange, tick);
  }

  // ------------------------------------------------------------------ at most one sale

  predicate GoodOrders(steps: seq<Step>) {
    forall step <- steps :: step.Sell? && step.answer.Sold? ==> GoodOrder(step.answer.order)
  }

  /** Every sale was of a different trade, and every trade that was sold carries its order. */
  ghost predicate SoldOnce(w: World) {
    && (forall i, j :: 0 <= i < j < |w.sales| ==> w.sales[i].trade != w.sales[j].trade)
    && forall sale <- w.sales :: sale.trade in w.db.trades && w.db.trades[sale.trade].orderId.Some?
  }

  lemma SalesStay(w: World, v: World)
    requires SoldOnce(w) && Later(w.db, v.db) && v.sales == w.sales
    ensures SoldOnce(v)
  {
    hide KeysStay, HistoryStays, TicketsStay, QuotesStay;
  }

  lemma SaleAdded(w: World, v: World, sale: Sale)
    requires SoldOnce(w) && Later(w.db, v.db) && v.sales == w.sales + [sale]
    requires sale.trade in w.db.trades && w.db.trades[sale.trade].orderId.None?
    requires sale.trade in v.db.trades && v.db.trades[sale.trade].orderId.Some?
    ensures SoldOnce(v)
  {
    hide KeysStay, HistoryStays, TicketsStay, QuotesStay;
    SalesStay(w, v.(sales := w.sales));
    assert forall i :: 0 <= i < |w.sales| ==> w.sales[i] in w.sales;
  }

  /** No second sale: in any run whose filled orders carry recordable identifiers, each trade's deposit is sold at
      most once, whatever disputes, retries, webhooks and backfills happen in between. */
  lemma {:induction false} SoldAtMostOnce(cfg: Config, steps: seq<Step>)
    requires Uuids(cfg)
    requires GoodOrders(steps)
    ensures SoldOnce(Run(cfg, steps))
  {
    if steps != [] {
      var n := |steps| - 1;
      SoldAtMostOnce(cfg, steps[..n]);
      RunIsRecorded(cfg, steps[..n]);
      RunNoResale(cfg, steps[..n]);
      RunStarts(cfg, steps[..n]);
      assert steps[n] in steps;
      hide SoldOnce, Next, Recorded, Counted, NoResale, StartsFiled, GoodOrder;
      NextSoldOnce(cfg, Run(cfg, steps[..n]), steps[n]);
    }
  }

  lemma NextSoldOnce(cfg: Config, w: World, step: Step)
    requires SoldOnce(w) && Recorded(w.db) && NoResale(w.db) && StartsFiled(w.db)
    requires step.Sell? && step.answer.Sold? ==> GoodOrder(step.answer.order)
    ensures SoldOnce(Next(cfg, w, step))
  {
    hide SoldOnce, Later, NextDb, Recorded, NoResale, StartsFiled, Trim, GoodOrder, ForSale;
    var v := Next(cfg, w, step);
    NextGrows(cfg, w, step);
    if step.Sell? && step.answer.Sold? && ForSale(w.db, step.trade) {
      ForSaleIsUnsold(w.db, step.trade);
      SaleStep(cfg, w, step.trade, step.answer.order, step.answer.exchange, step.tick);
      ForSaleExists(w.db, step.trade);
      hide Next;
      SaleAdded(w, v, Sale(step.trade, Trim(step.answer.order)));
    } else {
      assert v.sales == w.sales;
      hide Next;
      SalesStay(w, v);
    }
  }

  lemma ForSaleExists(s: Store, trade: string)
    requires ForSale(s, trade)
    ensures trade in s.trades
  {
  }
}
