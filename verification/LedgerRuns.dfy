/** What every run keeps about the ledger, and exactly when a status change is refused. */
module LedgerRuns {
  import opened Wrappers
  import opened Text
  import opened Lifecycle
  import opened Ledger
  import opened Store
  import opened Steps
  import opened LedgerKeys

  ghost predicate Sound(s: Store) {
    Journal(s.ledger) && UniqueKeys(s.ledger) && Traced(s.ledger, s.keys)
  }

  lemma KindsOfOne(p: Posting)
    ensures KindsOf([p]) == {p.kind} && DistinctKinds([p])
  {
    assert [p][..0] == [];
  }

  lemma KindsOfMore(ps: seq<Posting>, p: Posting)
    requires DistinctKinds(ps) && p.kind !in KindsOf(ps)
    ensures KindsOf(ps + [p]) == KindsOf(ps) + {p.kind} && DistinctKinds(ps + [p])
  {
    assert (ps + [p])[..|ps + [p]| - 1] == ps;
  }

  /** A change posts each kind once, and only kinds that are its own. */
  lemma PostingKinds(t: Trade, to: Status, m: Metadata)
    ensures DistinctKinds(PostingsFor(t, to, m))
    ensures forall kind <- KindsOf(PostingsFor(t, to, m)) :: Poster(kind) == to
  {
    var ps := PostingsFor(t, to, m);
    hide Balanced;
    if |ps| == 1 {
      KindsOfOne(ps[0]);
      assert ps == [ps[0]];
    } else if |ps| == 5 {
      ConversionKinds(ps[0], ps[1], ps[2], ps[3], ps[4]);
      assert ps == [ps[0]] + [ps[1]] + [ps[2]] + [ps[3]] + [ps[4]];
    }
  }

  lemma ConversionKinds(a: Posting, b: Posting, c: Posting, d: Posting, e: Posting)
    requires a.kind == ConversionAsset && b.kind == ConversionFiat && c.kind == PlatformFee && d.kind == FxSpread && e.kind == ExpressFee
    ensures DistinctKinds([a] + [b] + [c] + [d] + [e])
    ensures KindsOf([a] + [b] + [c] + [d] + [e]) == {ConversionAsset, ConversionFiat, PlatformFee, FxSpread, ExpressFee}
  {
    hide KindsOf, DistinctKinds;
    KindsOfOne(a);
    KindsOfMore([a], b);
    KindsOfMore([a] + [b], c);
    KindsOfMore([a] + [b] + [c], d);
    KindsOfMore([a] + [b] + [c] + [d], e);
  }

  lemma Reserves(trade: string, t: Trade, to: Status, m: Metadata)
    ensures DistinctKinds(PostingsFor(t, to, m)) && KeyForm(OperationKey(trade, to, m))
    ensures forall kind <- KindsOf(PostingsFor(t, to, m)) :: Reservation(OperationKey(trade, to, m), kind) == KeyOf(trade, to, m)
  {
    PostingKinds(t, to, m);
    hide PostingsFor, KindsOf, DistinctKinds, NormalizeKey, KeyForm;
  }

  // Reserving a key and writing rows under it keeps the ledger sound.
  lemma PostedIsSound(s: Store, trade: string, to: Status, m: Metadata, tick: Tick)
    requires Sound(s) && trade in s.trades && KeyOf(trade, to, m) !in s.keys
    ensures Posted(s, trade, to, m, tick).Err? <==> !m.skipLedger && Overlong(PostingsFor(s.trades[trade], to, m), OperationKey(trade, to, m))
    ensures Posted(s, trade, to, m, tick).Err? ==> Posted(s, trade, to, m, tick).error == KeyTooLong
    ensures Posted(s, trade, to, m, tick).Ok? ==>
              var rows := Posted(s, trade, to, m, tick).value;
              Journal(rows) && UniqueKeys(rows) && Traced(rows, s.keys[KeyOf(trade, to, m) := trade])
  {
    var t, opKey, k := s.trades[trade], OperationKey(trade, to, m), KeyOf(trade, to, m);
    Reserves(trade, t, to, m);
    hide PostingsFor, OperationKey, KeyOf, KindsOf, DistinctKinds, Overlong, PostAll, Journal, UniqueKeys, Reservation, KeyForm, TracedRow;
    if m.skipLedger {
      MoreKeys(s.ledger, s.keys, k, trade);
    } else {
      var ps := PostingsFor(t, to, m);
      PostAllUnlessTooLong(s.ledger, trade, ps, opKey, tick, s.keys);
      var o := PostAll(s.ledger, trade, ps, opKey, tick);
      if o.Ok? {
        PostAllKeepsJournal(s.ledger, trade, ps, opKey, tick);
        ExplainedIsTraced(o.value, s.keys, opKey, KindsOf(ps), k, trade);
      }
    }
  }

  lemma MoreKeys(rows: seq<Entry>, keys: map<OpKey, string>, k: OpKey, owner: string)
    requires Traced(rows, keys)
    ensures Traced(rows, keys[k := owner])
  {
    hide Spelled, Reservation;
    forall i | 0 <= i < |rows|
      ensures TracedRow(rows[i], keys[k := owner])
    {
      var key: string :| Spelled(rows[i], key) && Reservation(key, rows[i].kind) in keys;
      assert Spelled(rows[i], key) && Reservation(key, rows[i].kind) in keys[k := owner];
    }
  }

  lemma UpdateIsSound(s: Store, trade: string, to: Status, m: Metadata, tick: Tick)
    requires Sound(s)
    ensures Sound(Settle(s, Update(s, trade, to, m, tick)))
  {
    hide KeyOf, FitsRow, Allowed, Posted, Written, WithTicket, Journal, UniqueKeys, Traced;
    if Update(s, trade, to, m, tick).Applied? {
      PostedIsSound(s, trade, to, m, tick);
    }
  }

  /** Something a change writes is too wide for its column: a reference, the key of its notification, or the row keys
      of a positive posting. */
  predicate TooWide(trade: string, t: Trade, to: Status, m: Metadata) {
    !FitsRow(m) || !NoticeFits(trade, t, to, m) || (!m.skipLedger && Overlong(PostingsFor(t, to, m), OperationKey(trade, to, m)))
  }

  /** In a sound state a status change is refused exactly when there is no such trade, the table forbids it, or its
      key is new and something it writes is too wide; and the ledger never refuses a key as taken. */
  lemma UpdateRefusedIff(s: Store, trade: string, to: Status, m: Metadata, tick: Tick)
    requires Sound(s)
    ensures Update(s, trade, to, m, tick).Refused?
       <==> (trade !in s.trades || !Allowed(s.trades[trade].status, to)
             || (KeyOf(trade, to, m) !in s.keys && TooWide(trade, s.trades[trade], to, m)))
    ensures Update(s, trade, to, m, tick) != Refused(LedgerRefused(KeyTaken))
  {
    hide KeyOf, FitsRow, NoticeFits, Allowed, Posted, Commit, Overlong, Sound, OperationKey, PostingsFor;
    if trade in s.trades && KeyOf(trade, to, m) !in s.keys {
      PostedIsSound(s, trade, to, m, tick);
    }
  }

  lemma SameBooks(s: Store, after: Store)
    requires Sound(s) && after.ledger == s.ledger && after.keys == s.keys
    ensures Sound(after)
  {
    hide Journal, UniqueKeys, Traced;
  }

  lemma AcceptedIsSound(cfg: Config, s: Store, trade: string, user: string, quote: string, bank: string, cleared: bool,
                        address: string, authorized: bool, now: int)
    requires Sound(s)
    ensures Sound(Accepted(cfg, s, trade, user, quote, bank, cleared, address, authorized, now))
  {
    hide MayAccept, CreationKey, Journal, UniqueKeys, Traced;
    MoreKeys(s.ledger, s.keys, CreationKey(user, quote, bank), trade);
  }

  lemma ResolvedIsSound(s: Store, ticket: nat, mode: Option<Mode>, note: string, resolver: string, tick: Tick)
    requires Sound(s)
    ensures Sound(Resolved(s, ticket, mode, note, resolver, tick))
  {
    hide Sound, ResolutionAsk, Update, RetryStatus, Closed;
    var ask, ground := ResolveAsk(s, ticket, mode, note), ResolveGround(s, ticket, mode, tick.now);
    if ask.Some? {
      SameBooks(s, ground);
      UpdateIsSound(ground, ask.value.trade, ask.value.to, ask.value.meta, tick);
      var after := Settle(ground, Update(ground, ask.value.trade, ask.value.to, ask.value.meta, tick));
      SameBooks(after, WithClosed(after, ticket, mode.value, note, resolver, tick.now));
    }
  }

  lemma NextIsSound(cfg: Config, w: World, step: Step)
    requires Sound(w.db)
    ensures Sound(Next(cfg, w, step).db)
  {
    hide Sound, Priced, Accepted, Resolved, AskOf, Update;
    match step
    case Offer(quote, user, asset, amount, price, tick) => SameBooks(w.db, Offered(w.db, quote, user, asset, amount, price, tick.now));
    case Lapse(quote, tick) => SameBooks(w.db, Lapsed(w.db, quote, tick.now));
    case Accept(trade, user, quote, bank, cleared, address, authorized, tick) =>
      AcceptedIsSound(cfg, w.db, trade, user, quote, bank, cleared, address, authorized, tick.now);
    case Resolve(ticket, mode, note, resolver, tick) => ResolvedIsSound(w.db, ticket, mode, note, resolver, tick);
    case _ =>
      var ask := AskOf(cfg, w, step);
      if ask.Some? {
        UpdateIsSound(w.db, ask.value.trade, ask.value.to, ask.value.meta, step.tick);
      }
  }

  /** In every state any run reaches, the ledger consists of balanced pairs, no two rows share a key, and every row
      goes back to a reserved operation key of the status that posts its kind. */
  lemma {:induction false} RunIsSound(cfg: Config, steps: seq<Step>)
    ensures Sound(Run(cfg, steps).db)
  {
    if steps != [] {
      var n := |steps| - 1;
      RunIsSound(cfg, steps[..n]);
      hide Sound, Next;
      NextIsSound(cfg, Run(cfg, steps[..n]), steps[n]);
    }
  }
}
