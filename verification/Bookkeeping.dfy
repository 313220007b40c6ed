/** What every run keeps about a trade's history and its operation keys, and that keys make effects happen once. */
module Bookkeeping {
  import opened Wrappers
  import opened Lifecycle
  import opened Store
  import opened Steps
  import opened Text
  import opened Ledger

  /** A trade's history: an unbroken chain of permitted changes that ends at the trade's status. */
  ghost predicate RecordedAt(s: Store, id: string)
    requires id in s.trades
  {
    Chain(Past(s, id)) && Current(Past(s, id)) == s.trades[id].status
  }

  ghost predicate Recorded(s: Store) {
    && (forall id :: id in s.history <==> id in s.trades)
    && forall id <- s.trades :: RecordedAt(s, id)
  }

  /** The keys under which a trade's status changes were filed. */
  ghost function StatusKeys(keys: map<OpKey, string>, id: string): set<OpKey> {
    set k | k in keys && k.scope.StatusChange? && keys[k] == id
  }

  /** One reserved key for every status change in a trade's history, and no others. */
  ghost predicate CountedAt(s: Store, id: string) {
    |StatusKeys(s.keys, id)| == |Past(s, id)| - 1
  }

  ghost predicate Owned(s: Store) {
    forall k <- s.keys :: s.keys[k] in s.trades
  }

  ghost predicate Counted(s: Store) {
    Owned(s) && forall id <- s.trades :: CountedAt(s, id)
  }

  ghost predicate Kept(s: Store) {
    Recorded(s) && Counted(s)
  }

  lemma NewKey(keys: map<OpKey, string>, k: OpKey, owner: string, id: string)
    requires k !in keys
    ensures k !in StatusKeys(keys, id)
    ensures StatusKeys(keys[k := owner], id)
         == if k.scope.StatusChange? && owner == id then StatusKeys(keys, id) + {k} else StatusKeys(keys, id)
  {
  }

  lemma StillOwned(s: Store, after: Store, trade: string, k: OpKey)
    requires Owned(s) && after.keys == s.keys[k := trade] && trade in after.trades
    requires forall id <- s.trades :: id in after.trades
    ensures Owned(after)
  {
  }

  /** One permitted change of one trade, with its key and its history row. */
  ghost predicate Changed(s: Store, after: Store, trade: string, to: Status, k: OpKey) {
    && trade in s.trades && Allowed(s.trades[trade].status, to)
    && k !in s.keys && k.scope.StatusChange? && after.keys == s.keys[k := trade]
    && after.history == s.history[trade := Past(s, trade) + [Change(Some(s.trades[trade].status), to)]]
    && (forall id :: id in after.trades <==> id in s.trades)
    && after.trades[trade].status == to
    && forall other <- s.trades :: other != trade ==> after.trades[other] == s.trades[other]
  }

  lemma ChangedAt(s: Store, after: Store, trade: string, to: Status, k: OpKey, id: string)
    requires Recorded(s) && Counted(s) && Changed(s, after, trade, to, k) && id in after.trades
    ensures RecordedAt(after, id) && CountedAt(after, id)
  {
    assert RecordedAt(s, id) && CountedAt(s, id);
    hide Recorded, Counted, Allowed, Chain, StatusKeys, Past;
    NewKey(s.keys, k, trade, id);
    ChangedPast(s, after, trade, to, k, id);
    if id == trade {
      ChainExtends(Past(s, id), to);
    }
  }

  lemma ChangedPast(s: Store, after: Store, trade: string, to: Status, k: OpKey, id: string)
    requires Changed(s, after, trade, to, k) && id in s.trades
    ensures Past(after, id) == if id == trade then Past(s, id) + [Change(Some(s.trades[id].status), to)] else Past(s, id)
  {
    hide Allowed;
  }

  lemma ChangedTables(s: Store, after: Store, trade: string, to: Status, k: OpKey)
    requires Kept(s) && Changed(s, after, trade, to, k)
    ensures Owned(after) && forall id :: id in after.history <==> id in after.trades
  {
    hide RecordedAt, CountedAt, Allowed, Past;
  }

  lemma ChangedKeeps(s: Store, after: Store, trade: string, to: Status, k: OpKey)
    requires Kept(s) && Changed(s, after, trade, to, k)
    ensures Kept(after)
  {
    hide RecordedAt, CountedAt, Owned, Changed;
    ChangedTables(s, after, trade, to, k);
    forall id | id in after.trades
      ensures RecordedAt(after, id) && CountedAt(after, id)
    {
      ChangedAt(s, after, trade, to, k, id);
    }
  }

  lemma CommitKeeps(s: Store, trade: string, to: Status, m: Metadata, rows: seq<Entry>, now: int)
    requires Kept(s) && trade in s.trades && Allowed(s.trades[trade].status, to) && KeyOf(trade, to, m) !in s.keys
    ensures Kept(Commit(s, trade, to, m, rows, now))
  {
    hide Given, WithTicket, OperationKey, NormalizeKey, Note, Kept, Allowed, Coalesce;
    ChangedKeeps(s, Commit(s, trade, to, m, rows, now), trade, to, KeyOf(trade, to, m));
  }

  lemma UpdateKeeps(s: Store, trade: string, to: Status, m: Metadata, tick: Tick)
    requires Kept(s)
    ensures Kept(Settle(s, Update(s, trade, to, m, tick)))
  {
    hide Kept, Posted, KeyOf, FitsRow, Commit, Allowed;
    var o := Update(s, trade, to, m, tick);
    if o.Applied? {
      CommitKeeps(s, trade, to, m, Posted(s, trade, to, m, tick).value, tick.now);
    }
  }

  lemma FoundedKeeps(s: Store, after: Store, trade: string, k: OpKey)
    requires Kept(s) && trade !in s.trades && k !in s.keys && k.scope.TradeCreation?
    requires after.keys == s.keys[k := trade] && after.history == s.history[trade := [Change(None, PendingDeposit)]]
    requires (forall id :: id in after.trades <==> id in s.trades || id == trade) && after.trades[trade].status == PendingDeposit
    requires forall other <- s.trades :: after.trades[other] == s.trades[other]
    ensures Kept(after)
  {
    StillOwned(s, after, trade, k);
    hide RecordedAt, CountedAt, Owned;
    forall id | id in after.trades
      ensures RecordedAt(after, id) && CountedAt(after, id)
    {
      FoundedAt(s, after, trade, k, id);
    }
  }

  lemma FoundedAt(s: Store, after: Store, trade: string, k: OpKey, id: string)
    requires Kept(s) && trade !in s.trades && k !in s.keys && k.scope.TradeCreation?
    requires after.keys == s.keys[k := trade] && after.history == s.history[trade := [Change(None, PendingDeposit)]]
    requires (forall id :: id in after.trades <==> id in s.trades || id == trade) && after.trades[trade].status == PendingDeposit
    requires forall other <- s.trades :: after.trades[other] == s.trades[other]
    requires id in after.trades
    ensures RecordedAt(after, id) && CountedAt(after, id)
  {
    NewKey(s.keys, k, trade, id);
    if id == trade {
      NoKeys(s, id);
      hide StatusKeys, Allowed;
    } else {
      assert RecordedAt(s, id) && CountedAt(s, id);
      hide StatusKeys, Chain;
    }
  }

  lemma NoKeys(s: Store, id: string)
    requires Owned(s) && id !in s.trades
    ensures StatusKeys(s.keys, id) == {}
  {
  }

  lemma AcceptedKeeps(cfg: Config, s: Store, trade: string, user: string, quote: string, bank: string, cleared: bool,
                      address: string, authorized: bool, now: int)
    requires Kept(s)
    ensures Kept(Accepted(cfg, s, trade, user, quote, bank, cleared, address, authorized, now))
  {
    var after := Accepted(cfg, s, trade, user, quote, bank, cleared, address, authorized, now);
    hide MayAccept, Kept, NormalizeKey;
    if after != s {
      FoundedKeeps(s, after, trade, CreationKey(user, quote, bank));
    }
  }

  // Histories, keys and statuses are all that matters.
  lemma SameKeeps(s: Store, after: Store)
    requires Kept(s) && after.keys == s.keys && after.history == s.history && (forall id :: id in after.trades <==> id in s.trades)
    requires forall id <- s.trades :: after.trades[id].status == s.trades[id].status
    ensures Kept(after)
  {
    forall id | id in after.trades
      ensures RecordedAt(after, id) && CountedAt(after, id)
    {
      assert RecordedAt(s, id) && CountedAt(s, id);
    }
  }

  lemma ResolvedKeeps(s: Store, ticket: nat, mode: Option<Mode>, note: string, resolver: string, tick: Tick)
    requires Kept(s)
    ensures Kept(Resolved(s, ticket, mode, note, resolver, tick))
  {
    hide Kept, ResolutionAsk, Update, RetryStatus, Closed;
    var ask, ground := ResolveAsk(s, ticket, mode, note), ResolveGround(s, ticket, mode, tick.now);
    if ask.Some? {
      SameKeeps(s, ground);
      UpdateKeeps(ground, ask.value.trade, ask.value.to, ask.value.meta, tick);
      var after := Settle(ground, Update(ground, ask.value.trade, ask.value.to, ask.value.meta, tick));
      SameKeeps(after, WithClosed(after, ticket, mode.value, note, resolver, tick.now));
    }
  }

  lemma NextKeeps(cfg: Config, w: World, step: Step)
    requires Kept(w.db)
    ensures Kept(Next(cfg, w, step).db)
  {
    hide Kept, Priced, Accepted, Resolved;
    match step
    case Offer(quote, user, asset, amount, price, tick) => SameKeeps(w.db, Offered(w.db, quote, user, asset, amount, price, tick.now));
    case Lapse(quote, tick) => SameKeeps(w.db, Lapsed(w.db, quote, tick.now));
    case Accept(trade, user, quote, bank, cleared, address, authorized, tick) =>
      AcceptedKeeps(cfg, w.db, trade, user, quote, bank, cleared, address, authorized, tick.now);
    case Resolve(ticket, mode, note, resolver, tick) => ResolvedKeeps(w.db, ticket, mode, note, resolver, tick);
    case _ =>
      var ask := AskOf(cfg, w, step);
      hide AskOf, Update;
      if ask.Some? {
        UpdateKeeps(w.db, ask.value.trade, ask.value.to, ask.value.meta, step.tick);
      }
  }

  /** In every state any run reaches, each trade's history is an unbroken chain of permitted changes from
      PENDING_DEPOSIT to its status, and its status keys number exactly the changes after the first row. */
  lemma {:induction false} RunIsRecorded(cfg: Config, steps: seq<Step>)
    ensures Recorded(Run(cfg, steps).db) && Counted(Run(cfg, steps).db)
  {
    if steps != [] {
      var n := |steps| - 1;
      RunIsRecorded(cfg, steps[..n]);
      NextKeeps(cfg, Run(cfg, steps[..n]), steps[n]);
    }
  }
}
