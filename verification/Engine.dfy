/** The engine as the program writes it: tables updated row by row inside transactions, loops over postings, rows and
    pending payouts. Every method is proved to make exactly the step of the machine it stands for. */
module Engine {
  import opened Wrappers
  import opened Text
  import opened Lifecycle
  import opened Ledger
  import opened Store
  import opened Steps
  import opened Asks
  import DepositPolicy
  import Bookkeeping
  import LedgerKeys
  import LedgerRuns
  import LedgerClock
  import Sales
  import Tickets
  import Settlement

  class TradeEngine {
    const cfg: Config

    var quotes: map<string, Quote>
    var trades: map<string, Trade>
    var keys: map<OpKey, string>
    var history: map<string, seq<Change>>
    var ledger: seq<Entry>
    var tickets: seq<Ticket>

    var sales: seq<Sale>
    var attempts: map<string, nat>
    var events: set<string>

    /** The steps carried out since the engine was set up. */
    ghost var trace: seq<Step>

    ghost function Db(): Store
      reads this
    {
      Store(quotes, trades, keys, history, ledger, tickets)
    }

    ghost function State(): World
      reads this
    {
      World(Db(), sales, attempts, events)
    }

    /** The engine is where the machine is after the same steps. */
    ghost predicate Valid()
      reads this
    {
      State() == Run(cfg, trace)
    }

    /** The engine has made exactly the step of the machine. */
    twostate predicate Stepped(step: Step)
      reads this
    {
      State() == Next(cfg, old(State()), step)
    }

    /** And noted it. */
    twostate predicate Carried(step: Step)
      reads this
    {
      Valid() && trace == old(trace) + [step] && Stepped(step)
    }

    /** The step's change was refused. */
    twostate predicate RefusedIn(step: Step)
      reads this
    {
      OutcomeOf(cfg, old(State()), step).Refused?
    }

    constructor (config: Config)
      ensures cfg == config && State() == START && trace == [] && Valid()
    {
      trace := [];
      cfg := config;
      quotes, trades, keys, history, ledger, tickets := map[], map[], map[], map[], [], [];
      sales, attempts, events := [], map[], {};
    }

    /** Notes a step that has just been carried out. */
    ghost method Record(step: Step)
      requires State() == Next(cfg, Run(cfg, trace), step)
      modifies `trace
      ensures Valid() && trace == old(trace) + [step]
    {
      RunMore(cfg, trace, step);
      hide Run, Next;
      trace := trace + [step];
    }

    // ------------------------------------------------------------------ operation keys and the ledger

    /** Inserts the key unless it is there; says whether it was inserted. */
    method Reserve(k: OpKey, owner: string) returns (inserted: bool)
      modifies `keys
      ensures inserted <==> k !in old(keys)
      ensures keys == if inserted then old(keys)[k := owner] else old(keys)
    {
      inserted := k !in keys;
      if inserted {
        keys := keys[k := owner];
      }
    }

    /** The newest balance of an account, found by scanning the ledger. */
    method LedgerBalance(a: Account, c: Currency) returns (balance: int)
      ensures balance == Balance(ledger, a, c)
    {
      hide Latest;
      var best: Option<nat> := None;
      var i := 0;
      LatestOfNone(a, c);
      while i < |ledger|
        invariant 0 <= i <= |ledger|
        invariant best == Latest(ledger[..i], a, c)
        invariant best.Some? ==> best.value < i
      {
        LatestOfMore(ledger, i, a, c);
        if On(ledger[i], a, c) && (best.None? || Newer(ledger[i], ledger[best.value])) {
          best := Some(i);
        }
        i := i + 1;
      }
      assert ledger[..i] == ledger;
      balance := if best.Some? then ledger[best.value].balanceAfter else 0;
    }

    method KeyIsUsed(key: string) returns (used: bool)
      ensures used <==> KeyUsed(ledger, key)
    {
      used := false;
      var i := 0;
      while i < |ledger|
        invariant 0 <= i <= |ledger|
        invariant used <==> exists j :: 0 <= j < i && ledger[j].key == key
      {
        if ledger[i].key == key {
          used := true;
        }
        i := i + 1;
      }
    }

    /** Writes the two rows of one posting, or reports why the key column refuses them. */
    method PostBalanced(trade: string, p: Posting, opKey: string, tick: Tick, k: nat) returns (failure: Option<Failure>)
      modifies `ledger
      ensures match Post(old(ledger), trade, p, opKey, tick, k)
              case Ok(rows) => failure.None? && ledger == rows
              case Err(f) => failure == Some(f) && ledger == old(ledger)
    {
      hide RowKey, Balance, KeyUsed;
      failure := None;
      if p.amount <= 0 {
        return;
      }
      var debitBefore := LedgerBalance(p.debit, p.currency);
      var creditBefore := LedgerBalance(p.credit, p.currency);
      var debitKey, creditKey := RowKey(opKey, p.kind, Debit), RowKey(opKey, p.kind, Credit);
      if |debitKey| > KEY_WIDTH || |creditKey| > KEY_WIDTH {
        return Some(KeyTooLong);
      }
      var debitUsed := KeyIsUsed(debitKey);
      var creditUsed := KeyIsUsed(creditKey);
      if debitUsed || creditUsed || debitKey == creditKey {
        return Some(KeyTaken);
      }
      ledger := ledger + [
        Entry(trade, p.kind, p.currency, p.amount, Debit, p.debit, debitBefore + p.amount, debitKey, tick.now, tick.Id(2 * k)),
        Entry(trade, p.kind, p.currency, p.amount, Credit, p.credit, creditBefore - p.amount, creditKey, tick.now, tick.Id(2 * k + 1))];
    }

    /** Posts one after the other until one is refused. */
    method PostEach(trade: string, ps: seq<Posting>, opKey: string, tick: Tick) returns (failure: Option<Failure>)
      modifies `ledger
      ensures match PostAll(old(ledger), trade, ps, opKey, tick)
              case Ok(rows) => failure.None? && ledger == rows
              case Err(f) => failure == Some(f)
    {
      hide Post;
      failure := None;
      var i := 0;
      while i < |ps|
        invariant 0 <= i <= |ps| && failure.None?
        invariant PostAll(old(ledger), trade, ps[..i], opKey, tick) == Ok(ledger)
      {
        assert ps[..i + 1][..i] == ps[..i];
        failure := PostBalanced(trade, ps[i], opKey, tick, i);
        if failure.Some? {
          RefusedOnce(old(ledger), trade, ps, i + 1, opKey, tick);
          return;
        }
        i := i + 1;
      }
      assert ps[..i] == ps;
    }

    // ------------------------------------------------------------------ the status update

    /** The references the metadata gives, written over the row's. */
    method WriteReferences(t: Trade, m: Metadata) returns (u: Trade)
      ensures u == t.(txHash := Coalesce(Given(m.txHash), t.txHash), payoutId := Coalesce(Given(m.payoutRef), t.payoutId),
                      orderId := Coalesce(Given(m.orderId), t.orderId), conversionId := Coalesce(Given(m.conversionId), t.conversionId))
    {
      hide Given;
      u := t;
      if Given(m.txHash).Some? {
        u := u.(txHash := Given(m.txHash));
      }
      if Given(m.payoutRef).Some? {
        u := u.(payoutId := Given(m.payoutRef));
      }
      if Given(m.orderId).Some? {
        u := u.(orderId := Given(m.orderId));
      }
      if Given(m.conversionId).Some? {
        u := u.(conversionId := Given(m.conversionId));
      }
    }

    /** The trade row after a change, written field by field. */
    method WriteRow(t: Trade, to: Status, m: Metadata, now: int) returns (u: Trade)
      ensures u == Written(t, to, m, now)
    {
      hide Given, Note;
      u := WriteReferences(t, m);
      if m.toAmountActual.Some? {
        u := u.(toActual := m.toAmountActual);
      }
      if to == DepositConfirmed {
        u := u.(confirmedAt := Some(now));
      } else if to == PayoutCompleted {
        u := u.(completedAt := Some(now));
      }
      var note := Note(m);
      if m.clearReason {
        u := u.(disputeReason := None);
      } else if note != "" && (to == Dispute || to == PayoutFailed || to == DisputeClosed) {
        u := u.(disputeReason := Some(note));
      }
      u := u.(status := to, updatedAt := now);
    }

    /** Opens a ticket unless the trade has an open one. */
    method OpenDispute(trade: string, byUser: bool, note: string)
      modifies `tickets
      ensures tickets == WithTicket(old(tickets), trade, byUser, note)
    {
      var i := |tickets|;
      while i > 0
        invariant 0 <= i <= |tickets|
        invariant forall j :: i <= j < |tickets| ==> !(tickets[j].trade == trade && IsOpen(tickets[j]))
      {
        i := i - 1;
        if tickets[i].trade == trade && IsOpen(tickets[i]) {
          return;
        }
      }
      var reason := note;
      if reason == "" {
        reason := "Trade requires manual review";
      }
      tickets := tickets + [Ticket(trade, byUser, reason, None)];
    }

    /** One transaction: reserve the key, write the row, post, append to the history, open a ticket. A repeated key
        leaves everything as it was, and so does a refusal, which undoes what the transaction had written. */
    method UpdateTradeStatus(trade: string, to: Status, m: Metadata, tick: Tick) returns (refused: Option<Refusal>)
      modifies `trades, `keys, `history, `ledger, `tickets
      ensures Db() == Settle(old(Db()), Update(old(Db()), trade, to, m, tick))
      ensures refused == match Update(old(Db()), trade, to, m, tick) case Refused(why) => Some(why) case _ => None
    {
      hide Allowed, OperationKey, NormalizeKey, TrimRight, FitsRow, PostingsFor, PostAll, Written, WithTicket, Note, Update, NoticeFits;
      UpdateCases(Db(), trade, to, m, tick);
      refused := None;
      if trade !in trades {
        return Some(NoSuchTrade);
      }
      var t := trades[trade];
      if !Allowed(t.status, to) {
        return Some(NotPermitted);
      }
      var keysBefore, ledgerBefore := keys, ledger;
      var opKey := OperationKey(trade, to, m);
      ReservedText(trade, to, m);
      var inserted := Reserve(OpKey(StatusChange(to), NormalizeKey(opKey)), trade);
      if !inserted {
        return;
      }
      if !FitsRow(m) {
        keys := keysBefore;
        return Some(ColumnOverflow);
      }
      var u := WriteRow(t, to, m, tick.now);
      if !m.skipLedger {
        var failure := PostEach(trade, PostingsFor(t, to, m), opKey, tick);
        if failure.Some? {
          keys, ledger := keysBefore, ledgerBefore;
          return Some(LedgerRefused(failure.value));
        }
      }
      if !NoticeFits(trade, t, to, m) {
        keys, ledger := keysBefore, ledgerBefore;
        return Some(NoticeTooLong);
      }
      trades := trades[trade := u];
      history := history[trade := (if trade in history then history[trade] else []) + [Change(Some(t.status), to)]];
      if to == Dispute {
        OpenDispute(trade, m.byUser, Note(m));
      }
    }

    // ------------------------------------------------------------------ quotes and new trades

    method CreateQuote(quote: string, user: string, asset: Currency, amount: int, price: Price, tick: Tick)
      requires Valid()
      modifies `quotes, `trace
      ensures Carried(Offer(quote, user, asset, amount, price, tick))
    {
      hide Priced, Run;
      if quote !in quotes && amount > 0 && UnitOf(asset).Some? && PositivePrice(price) {
        var a := Priced(amount, UnitOf(asset).value, asset, price);
        quotes := quotes[quote := Quote(user, asset, NGN, amount, a.gross, a.fee, a.net, tick.now + QUOTE_TTL, None, None)];
      }
      Record(Offer(quote, user, asset, amount, price, tick));
    }

    method ExpireQuote(quote: string, tick: Tick)
      requires Valid()
      modifies `quotes, `trace
      ensures Carried(Lapse(quote, tick))
    {
      hide Run;
      if quote in quotes && quotes[quote].acceptedAt.None? && quotes[quote].expiredAt.None? && quotes[quote].validUntil <= tick.now {
        quotes := quotes[quote := quotes[quote].(expiredAt := Some(tick.now))];
      }
      Record(Lapse(quote, tick));
    }

    /** Checks the quote, the bank account and the creation key, and writes the trade. */
    method InsertTrade(trade: string, user: string, quote: string, bank: string, cleared: bool, address: string, authorized: bool, tick: Tick)
      modifies `quotes, `trades, `keys, `history
      ensures Stepped(Accept(trade, user, quote, bank, cleared, address, authorized, tick))
    {
      AcceptIs(cfg, State(), trade, user, quote, bank, cleared, address, authorized, tick);
      hide CreationKey, Next, NewTrade;
      if quote !in quotes || quotes[quote].acceptedAt.Some? || quotes[quote].expiredAt.Some? || tick.now > quotes[quote].validUntil {
        return;
      }
      if quotes[quote].user != user || bank !in cfg.banks || cfg.banks[bank] != user || !cleared {
        return;
      }
      if !cfg.isId(trade) || trade in trades {
        return;
      }
      var q := quotes[quote];
      var inserted := Reserve(CreationKey(user, quote, bank), trade);
      if !inserted {
        return;
      }
      quotes := quotes[quote := q.(acceptedAt := Some(tick.now))];
      trades := trades[trade := NewTrade(q, quote, bank, address, authorized, tick.now)];
      history := history[trade := [Change(None, PendingDeposit)]];
    }

    method CreateTrade(trade: string, user: string, quote: string, bank: string, cleared: bool, address: string, authorized: bool, tick: Tick)
      requires Valid()
      modifies `quotes, `trades, `keys, `history, `trace
      ensures Carried(Accept(trade, user, quote, bank, cleared, address, authorized, tick))
    {
      hide Run, Next;
      InsertTrade(trade, user, quote, bank, cleared, address, authorized, tick);
      Record(Accept(trade, user, quote, bank, cleared, address, authorized, tick));
    }

    // ------------------------------------------------------------------ workers

    /** The trade holding a transaction hash that was touched last, if any: a row the lookup may return. */
    method FindByTxHash(hash: string) returns (holder: Option<string>)
      ensures AnswersHash(Db(), hash, holder)
    {
      hide HoldsHash;
      holder := None;
      var rest := trades.Keys;
      while rest != {}
        invariant rest <= trades.Keys
        invariant holder.Some? ==> holder.value in trades && HoldsHash(trades[holder.value], hash)
        invariant forall id <- trades :: id !in rest && HoldsHash(trades[id], hash) ==>
                    holder.Some? && trades[id].updatedAt <= trades[holder.value].updatedAt
        decreases |rest|
      {
        var id :| id in rest;
        if HoldsHash(trades[id], hash) && (holder.None? || trades[holder.value].updatedAt < trades[id].updatedAt) {
          holder := Some(id);
        }
        rest := rest - {id};
      }
    }

    /** Carries out a step's request, if it makes one. */
    method Carry(ask: Option<Ask>, tick: Tick) returns (refused: bool)
      modifies `trades, `keys, `history, `ledger, `tickets
      ensures ask.None? ==> Db() == old(Db()) && !refused
      ensures ask.Some? ==> var o := Update(old(Db()), ask.value.trade, ask.value.to, ask.value.meta, tick);
                            Db() == Settle(old(Db()), o) && (refused <==> o.Refused?)
    {
      hide Update, Settle;
      refused := false;
      if ask.Some? {
        var why := UpdateTradeStatus(ask.value.trade, ask.value.to, ask.value.meta, tick);
        refused := why.Some?;
      }
    }

    /** Checks a sighting step by step and reports the first thing wrong with it. */
    method InspectDeposit(trade: string, t: Trade, seen: Sighting, holder: Option<string>, screens: bool) returns (fault: Option<Fault>)
      ensures fault == FaultOf(cfg, trade, t, seen, holder, screens)
    {
      hide PolicyFor, Trim, Blocked, AddressesClash, NetworksClash;
      var (network, address) := cfg.place(t.from, t.address);
      if Trim(seen.txHash) != "" && holder.Some? && holder.value != trade {
        return Some(DuplicateHash);
      }
      if NetworksClash(cfg.network(seen.network), network) {
        return Some(WrongNetwork);
      }
      if AddressesClash(seen.address, address) {
        return Some(WrongAddress);
      }
      if screens && Blocked(cfg, seen.address, address) {
        return Some(BlockedWallet);
      }
      if DepositPolicy.OutsideTolerance(t.fromAmount, seen.amount, PolicyFor(cfg, t).tolerance) {
        return Some(WrongAmount);
      }
      if seen.reversed || seen.replaced {
        return Some(Unsettled);
      }
      fault := None;
    }

    /** What the watcher decides about one trade. */
    method JudgeWatched(trade: string, seen: Sighting, now: int) returns (holder: Option<string>, ask: Option<Ask>)
      ensures ask == WatchAsk(cfg, Db(), trade, seen, holder, now)
    {
      hide FaultOf, PolicyFor, AnswersHash, Fired, View, DepositDispute, DepositNote, ExpiryNote, WatcherReason, Trim;
      holder, ask := None, None;
      if trade !in trades {
        return;
      }
      var t := trades[trade];
      if t.status != PendingDeposit && t.status != DepositReceived {
        return;
      }
      if t.status == PendingDeposit && now > t.expiresAt {
        ask := Fired(trade, t, TradeCancelled, View(t, now, 0, 0), ExpiryNote(trade));
        return;
      }
      if t.address == "" || !seen.found {
        return;
      }
      holder := FindByTxHash(seen.txHash);
      var fault := InspectDeposit(trade, t, seen, holder, true);
      if fault.Some? {
        ask := Some(DepositDispute("deposit_dispute:", trade, seen.txHash, WatcherReason(fault.value)));
        return;
      }
      var policy := PolicyFor(cfg, t);
      if seen.confirmations < policy.detection {
        return;
      }
      var view := View(t, now, policy.finality, seen.confirmations);
      if t.status == PendingDeposit {
        ask := Fired(trade, t, DepositDetected, view, DepositNote("deposit_detected:", trade, seen.txHash));
      } else {
        ask := Fired(trade, t, DepositFinal, view, DepositNote("deposit_confirmed:", trade, seen.txHash));
      }
    }

    /** The deposit watcher's pass over one trade. */
    method WatchDeposit(trade: string, seen: Sighting, tick: Tick) returns (holder: Option<string>)
      requires Valid()
      modifies `trades, `keys, `history, `ledger, `tickets, `trace
      ensures Carried(Watch(trade, seen, holder, tick))
    {
      hide WatchAsk, Update, Run;
      var ask: Option<Ask>;
      holder, ask := JudgeWatched(trade, seen, tick.now);
      var refused := Carry(ask, tick);
      Record(Watch(trade, seen, holder, tick));
    }

    /** What the backfill scanner decides about one trade. */
    method JudgeBackfilled(trade: string, seen: Sighting) returns (holder: Option<string>, ask: Option<Ask>)
      ensures ask == BackfillAsk(cfg, Db(), trade, seen, holder)
    {
      hide FaultOf, PolicyFor, AnswersHash, DepositDispute, BackfillReason, Trim, Filed, Folded;
      holder, ask := None, None;
      if trade !in trades {
        return;
      }
      var t := trades[trade];
      if t.status !in BACKFILLED || Trim(t.address) == "" || !seen.found {
        return;
      }
      holder := FindByTxHash(seen.txHash);
      var fault := InspectDeposit(trade, t, seen, holder, false);
      if fault.Some? {
        ask := Some(DepositDispute("backfill_dispute:", trade, seen.txHash, BackfillReason(fault.value)));
        return;
      }
      var policy := PolicyFor(cfg, t);
      match t.status
      case PendingDeposit =>
        if seen.confirmations >= policy.detection {
          ask := Some(Ask(trade, DepositReceived,
            BLANK.(txHash := Some(Trim(seen.txHash)), reason := Some("backfill detected deposit"),
                   key := Filed("backfill_deposit_detected:", trade, Folded(seen.txHash)))));
        }
      case DepositReceived =>
        if seen.confirmations >= policy.finality {
          ask := Some(Ask(trade, DepositConfirmed,
            BLANK.(txHash := Some(Trim(seen.txHash)), reason := Some("backfill confirmed deposit"),
                   key := Filed("backfill_deposit_confirmed:", trade, Folded(seen.txHash)))));
        }
      case _ =>
        if seen.confirmations < policy.finality {
          ask := Some(DepositDispute("backfill_dispute:", trade, seen.txHash, "finality_dropped_below_threshold"));
        }
    }

    /** The backfill scanner's pass over one trade. */
    method BackfillDeposit(trade: string, seen: Sighting, tick: Tick) returns (holder: Option<string>)
      requires Valid()
      modifies `trades, `keys, `history, `ledger, `tickets, `trace
      ensures Carried(Backfill(trade, seen, holder, tick))
    {
      hide BackfillAsk, Update, Run;
      var ask: Option<Ask>;
      holder, ask := JudgeBackfilled(trade, seen);
      var refused := Carry(ask, tick);
      Record(Backfill(trade, seen, holder, tick));
    }

    method CurrentWorld() returns (w: World)
      ensures w == State()
    {
      w := World(Store(quotes, trades, keys, history, ledger, tickets), sales, attempts, events);
    }

    /** The exchange filled an order: forget the attempts, note the sale, record it on the trade. */
    method SaleFilled(trade: string, order: string, exchange: string, tick: Tick) returns (refused: bool)
      requires ForSale(Db(), trade)
      modifies `trades, `keys, `history, `ledger, `tickets, `sales, `attempts
      ensures Stepped(Sell(trade, Sold(order, exchange), tick))
      ensures RefusedIn(Sell(trade, Sold(order, exchange), tick)) <==> refused
    {
      hide Update, SellAsk, Trim, Next, OutcomeOf;
      var w := CurrentWorld();
      SellAskWhen(w, trade, Sold(order, exchange));
      SellIs(cfg, w, trade, Sold(order, exchange), tick);
      attempts := attempts - {trade};
      sales := sales + [Sale(trade, Trim(order))];
      refused := Carry(SellAsk(w, trade, Sold(order, exchange)), tick);
    }

    /** The sale cannot succeed: escalate, and forget the attempts unless the escalation fails. */
    method SaleHopeless(trade: string, error: string, tick: Tick) returns (refused: bool)
      requires ForSale(Db(), trade)
      modifies `trades, `keys, `history, `ledger, `tickets, `attempts
      ensures Stepped(Sell(trade, Hopeless(error), tick))
      ensures RefusedIn(Sell(trade, Hopeless(error), tick)) <==> refused
    {
      hide Update, SellAsk, Next, OutcomeOf;
      var w := CurrentWorld();
      SellAskWhen(w, trade, Hopeless(error));
      SellIs(cfg, w, trade, Hopeless(error), tick);
      refused := Carry(SellAsk(w, trade, Hopeless(error)), tick);
      if !refused {
        attempts := attempts - {trade};
      }
    }

    /** The sale failed: count the attempt, and escalate at the last one. */
    method SaleFailed(trade: string, error: string, tick: Tick) returns (refused: bool)
      requires ForSale(Db(), trade)
      modifies `trades, `keys, `history, `ledger, `tickets, `attempts
      ensures Stepped(Sell(trade, TryAgain(error), tick))
      ensures RefusedIn(Sell(trade, TryAgain(error), tick)) <==> refused
    {
      hide Update, SellAsk, Next, OutcomeOf;
      var w := CurrentWorld();
      SellAskWhen(w, trade, TryAgain(error));
      SellIs(cfg, w, trade, TryAgain(error), tick);
      refused := false;
      var n := (if trade in attempts then attempts[trade] else 0) + 1;
      attempts := attempts[trade := n];
      if n >= MAX_ATTEMPTS {
        refused := Carry(SellAsk(w, trade, TryAgain(error)), tick);
        if !refused {
          attempts := attempts - {trade};
        }
      }
    }

    /** The conversion worker's pass over one trade. */
    method SellDeposit(trade: string, answer: SaleAnswer, tick: Tick) returns (refused: bool)
      requires Valid()
      modifies `trades, `keys, `history, `ledger, `tickets, `sales, `attempts, `trace
      ensures Carried(Sell(trade, answer, tick))
      ensures RefusedIn(Sell(trade, answer, tick)) <==> refused
    {
      hide Next, OutcomeOf, Run;
      refused := false;
      if trade !in trades || trades[trade].status != DepositConfirmed {
        NothingToSell(cfg, State(), trade, answer, tick);
      } else {
        match answer
        case Sold(order, exchange) => refused := SaleFilled(trade, order, exchange, tick);
        case Hopeless(error) => refused := SaleHopeless(trade, error, tick);
        case TryAgain(error) => refused := SaleFailed(trade, error, tick);
      }
      Record(Sell(trade, answer, tick));
    }

    /** The end of a sale, as the exchange reported it. */
    method EndSale(trade: string, order: string, note: string, filled: bool, tick: Tick)
      requires Valid()
      modifies `trades, `keys, `history, `ledger, `tickets, `trace
      ensures Carried(if filled then FinishSale(trade, order, note, tick) else FailSale(trade, order, note, tick))
    {
      hide Run, Update, EndSaleAsk;
      var w := CurrentWorld();
      var ask := if filled then EndSaleAsk(w, trade, order, note, ConversionCompleted, "conversion_completed:")
                 else EndSaleAsk(w, trade, order, note, Dispute, "conversion_failed_dispute:");
      var refused := Carry(ask, tick);
      Record(if filled then FinishSale(trade, order, note, tick) else FailSale(trade, order, note, tick));
    }

    /** The worker's whole pass over a trade whose order the exchange filled: record the sale and, unless that fails,
        its end as far as the exchange has reported one. */
    method ConvertDeposit(trade: string, order: string, exchange: string, note: string, filled: Option<bool>, tick: Tick)
      requires Valid() && ForSale(Db(), trade)
      modifies `trades, `keys, `history, `ledger, `tickets, `sales, `attempts, `trace
      ensures Valid()
      ensures var start := Sell(trade, Sold(order, exchange), tick);
              var w := Next(cfg, old(State()), start);
              State() == if filled.None? || OutcomeOf(cfg, old(State()), start).Refused? then w
                         else if filled.value then Next(cfg, w, FinishSale(trade, order, note, tick))
                         else Next(cfg, w, FailSale(trade, order, note, tick))
    {
      hide Next, OutcomeOf, Run;
      var refused := SaleFilled(trade, order, exchange, tick);
      Record(Sell(trade, Sold(order, exchange), tick));
      if !refused && filled.Some? {
        EndSale(trade, order, note, filled.value, tick);
      }
    }

    /** What the conversion worker decides about a sale under way. */
    method JudgeStale(trade: string, now: int) returns (ask: Option<Ask>)
      ensures ask == RecoverAsk(Db(), trade, now)
      ensures ask.Some? ==> trade in trades && trades[trade].status == ConversionInProgress && now - trades[trade].updatedAt >= SALE_TIMEOUT
      ensures ask.Some? ==> ask.value.trade == trade && ask.value.to == Dispute && ask.value.meta.orderId == Given(trades[trade].orderId)
    {
      hide Trim, Lower;
      ask := None;
      if trade !in trades || trades[trade].status != ConversionInProgress {
        return;
      }
      if now - trades[trade].updatedAt < SALE_TIMEOUT {
        return;
      }
      var note := BLANK.(reason := Some("conversion reconciliation timed out; manual review required"),
                         key := Some("conversion_reconcile_timeout:" + trade));
      var orderId := trades[trade].orderId;
      if orderId.Some? && Trim(orderId.value) != "" {
        var order := Trim(orderId.value);
        note := note.(orderId := Some(order), key := Filed("conversion_reconcile_timeout:", trade, Lower(order)));
      }
      ask := Some(Ask(trade, Dispute, note));
    }

    /** Moves a sale that has been under way for too long into dispute. */
    method RecoverStaleSale(trade: string, tick: Tick)
      requires Valid()
      modifies `trades, `keys, `history, `ledger, `tickets, `attempts, `trace
      ensures Carried(RecoverSale(trade, tick))
    {
      hide Run, Update, RecoverAsk;
      var ask := JudgeStale(trade, tick.now);
      var refused := Carry(ask, tick);
      if ask.Some? && !refused {
        attempts := attempts - {trade};
      }
      Record(RecoverSale(trade, tick));
    }

    /** What the payout worker decides about a trade ready for payout. */
    method JudgePayout(trade: string, answer: PayoutAnswer) returns (ask: Option<Ask>)
      ensures ask == StartPayoutAsk(Db(), trade, answer)
      ensures ask.Some? ==> trade in trades && trades[trade].authorized && trades[trade].payoutId.None?
      ensures ask.Some? ==> ask.value.trade == trade && (ask.value.to == PayoutPending <==> answer.Initiated?)
    {
      hide PayoutPendingAsk, Trim;
      ask := None;
      if trade !in trades {
        return;
      }
      var t := trades[trade];
      if t.status != ConversionCompleted || !t.authorized || t.payoutId.Some? {
        return;
      }
      match answer
      case Initiated(ref) =>
        PayoutForms(trade, ref, "");
        ask := Some(PayoutPendingAsk(trade, ref));
      case Rejected(error) =>
        ask := Some(Ask(trade, PayoutFailed,
          BLANK.(reason := Some("non-retryable payout initiation error: " + Trim(error)),
                 key := Some("payout_failed_initiation:" + trade))));
      case Unavailable =>
    }

    method InitiatePayout(trade: string, answer: PayoutAnswer, tick: Tick)
      requires Valid()
      modifies `trades, `keys, `history, `ledger, `tickets, `trace
      ensures Carried(StartPayout(trade, answer, tick))
    {
      hide Run, Update, StartPayoutAsk;
      var ask := JudgePayout(trade, answer);
      var refused := Carry(ask, tick);
      Record(StartPayout(trade, answer, tick));
    }

    /** What the payout worker decides about a pending payout. */
    method JudgePending(trade: string, news: PayoutNews, status: string) returns (ask: Option<Ask>)
      ensures ask == PollPayoutAsk(Db(), trade, news, status)
      ensures ask.Some? ==> trade in trades && trades[trade].status == PayoutPending && ask.value.meta.payoutRef == Given(trades[trade].payoutId)
      ensures ask.Some? ==> ask.value.trade == trade && (ask.value.to == PayoutCompleted <==> news == PaidOut)
    {
      hide PayoutCompleteAsk, PayoutFailedAsk, Trim;
      ask := None;
      if trade !in trades || trades[trade].status != PayoutPending {
        return;
      }
      var payoutId := trades[trade].payoutId;
      if payoutId.None? || Trim(payoutId.value) == "" {
        return;
      }
      var ref, reason := Trim(payoutId.value), "graph payout failed with status " + status;
      PayoutForms(trade, ref, reason);
      if news == PaidOut {
        ask := Some(PayoutCompleteAsk(trade, ref));
      } else if news == Bounced {
        ask := Some(PayoutFailedAsk(trade, ref, reason));
      }
    }

    method ReconcilePayout(trade: string, news: PayoutNews, status: string, tick: Tick)
      requires Valid()
      modifies `trades, `keys, `history, `ledger, `tickets, `trace
      ensures Carried(PollPayout(trade, news, status, tick))
    {
      hide Run, Update, PollPayoutAsk;
      var ask := JudgePending(trade, news, status);
      var refused := Carry(ask, tick);
      Record(PollPayout(trade, news, status, tick));
    }

    /** The payout worker's pass over the payouts it found pending, with what the provider said of each. */
    method ReconcilePendingPayouts(polls: seq<Step>)
      requires Valid() && forall p <- polls :: p.PollPayout?
      modifies `trades, `keys, `history, `ledger, `tickets, `trace
      ensures Valid() && trace == old(trace) + polls
      ensures State() == RunFrom(cfg, old(State()), polls)
    {
      hide Next, Run;
      var i := 0;
      while i < |polls|
        invariant 0 <= i <= |polls|
        invariant Valid() && trace == old(trace) + polls[..i]
        invariant State() == RunFrom(cfg, old(State()), polls[..i])
      {
        assert polls[..i + 1][..i] == polls[..i];
        ReconcilePayout(polls[i].trade, polls[i].news, polls[i].status, polls[i].tick);
        i := i + 1;
      }
      assert polls[..i] == polls;
    }

    // ------------------------------------------------------------------ webhooks, users and admins

    /** The trade paid under a reference that was touched last, if any. */
    method FindByPayout(payout: string) returns (target: Option<string>)
      ensures AnswersPayout(Db(), payout, target)
    {
      target := None;
      var rest := trades.Keys;
      while rest != {}
        invariant rest <= trades.Keys
        invariant target.Some? ==> target.value in trades && trades[target.value].payoutId == Some(payout)
        invariant forall id <- trades :: id !in rest && trades[id].payoutId == Some(payout) ==>
                    target.Some? && trades[id].updatedAt <= trades[target.value].updatedAt
        decreases |rest|
      {
        var id :| id in rest;
        if trades[id].payoutId == Some(payout) && (target.None? || trades[target.value].updatedAt < trades[id].updatedAt) {
          target := Some(id);
        }
        rest := rest - {id};
      }
    }

    /** What a payout webhook not seen before asks for. */
    method JudgeWebhook(event: string, payout: string, news: PayoutNews, note: string) returns (target: Option<string>, ask: Option<Ask>)
      requires event !in events
      ensures ask == WebhookAsk(State(), event, payout, target, news, note)
      ensures ask.Some? ==> target == Some(ask.value.trade) && ask.value.trade in trades && trades[ask.value.trade].payoutId == Some(payout)
      ensures ask.Some? ==> forall id <- trades :: trades[id].payoutId == Some(payout) ==> trades[id].updatedAt <= trades[ask.value.trade].updatedAt
      ensures ask.Some? ==> LedTo(news, ask.value.to)
    {
      hide AnswersPayout, PayoutCompleteAsk, PayoutFailedAsk, PayoutPendingAsk;
      target, ask := None, None;
      if payout == "" {
        return;
      }
      target := FindByPayout(payout);
      if target.None? {
        return;
      }
      FoundIsTrade(Db(), payout, target);
      PayoutForms(target.value, payout, note);
      match news
      case PaidOut => ask := Some(PayoutCompleteAsk(target.value, payout));
      case Bounced => ask := Some(PayoutFailedAsk(target.value, payout, note));
      case StillPending =>
        if trades[target.value].status != PayoutPending {
          ask := Some(PayoutPendingAsk(target.value, payout));
        }
      case Unclear =>
    }

    /** A payout webhook: ignored when seen before, and marked as seen whatever becomes of it. */
    method HandleWebhook(event: string, payout: string, news: PayoutNews, note: string, tick: Tick) returns (target: Option<string>)
      requires Valid()
      modifies `trades, `keys, `history, `ledger, `tickets, `events, `trace
      ensures Carried(Webhook(event, payout, target, news, note, tick))
    {
      hide Update, WebhookAsk, Run;
      target := None;
      if event in events {
        SeenBefore(State(), event, payout, news, note);
        assert events + {event} == events;
        Record(Webhook(event, payout, target, news, note, tick));
        return;
      }
      var ask: Option<Ask>;
      target, ask := JudgeWebhook(event, payout, news, note);
      var refused := Carry(ask, tick);
      events := events + {event};
      Record(Webhook(event, payout, target, news, note, tick));
    }

    method RaiseDispute(trade: string, note: string, tick: Tick)
      requires Valid()
      modifies `trades, `keys, `history, `ledger, `tickets, `trace
      ensures Carried(Step.RaiseDispute(trade, note, tick))
    {
      hide Run, Update, RaiseAsk;
      var w := CurrentWorld();
      var refused := Carry(RaiseAsk(w.db, trade, note), tick);
      Record(Step.RaiseDispute(trade, note, tick));
    }

    /** An admin's resolution: forget a failed payout when retrying after the sale, make the change, close the ticket;
        a refusal undoes it all. */
    method SettleDispute(ticket: nat, mode: Option<Mode>, note: string, resolver: string, tick: Tick)
      modifies `trades, `keys, `history, `ledger, `tickets
      ensures Stepped(Resolve(ticket, mode, note, resolver, tick))
    {
      ResolveIs(cfg, State(), ticket, mode, note, resolver, tick);
      hide Update, ResolutionAsk, RetryStatus, Closed, Next;
      if ticket >= |tickets| || !IsOpen(tickets[ticket]) || tickets[ticket].trade !in trades || mode.None? {
        return;
      }
      var tradesBefore := trades;
      var id := tickets[ticket].trade;
      var t := trades[id];
      var ask := ResolutionAsk(id, t, tickets[ticket].reason, mode.value, note);
      if mode.value == RetryProcessing && RetryStatus(t) == ConversionCompleted {
        trades := trades[id := t.(payoutId := None, completedAt := None, updatedAt := tick.now)];
      }
      var refused := Carry(Some(ask), tick);
      if refused {
        trades := tradesBefore;
        return;
      }
      if ticket < |tickets| {
        tickets := tickets[ticket := Closed(tickets[ticket], mode.value, note, resolver, tick.now)];
      }
    }

    method ResolveDispute(ticket: nat, mode: Option<Mode>, note: string, resolver: string, tick: Tick)
      requires Valid()
      modifies `trades, `keys, `history, `ledger, `tickets, `trace
      ensures Carried(Resolve(ticket, mode, note, resolver, tick))
    {
      hide Run, Next;
      SettleDispute(ticket, mode, note, resolver, tick);
      Record(Resolve(ticket, mode, note, resolver, tick));
    }

    // ------------------------------------------------------------------ what holds of the engine

    /** Whatever the engine has carried out: its ledger is made of balanced pairs under reserved keys, its histories are
        chains of permitted changes that end at each trade's status, and no trade has two open tickets. */
    lemma BooksAreKept()
      requires Valid()
      ensures Journal(ledger) && LedgerRuns.Sound(Db()) && Bookkeeping.Recorded(Db()) && Tickets.OneOpen(tickets)
    {
      hide Run, Journal, LedgerKeys.UniqueKeys, LedgerKeys.Traced, Bookkeeping.Recorded, Tickets.OneOpen;
      LedgerRuns.RunIsSound(cfg, trace);
      Bookkeeping.RunIsRecorded(cfg, trace);
      Tickets.RunKeepsOneOpen(cfg, trace);
    }

    /** As long as filled orders carry recordable identifiers, the engine has sold no trade's deposit twice. */
    lemma NothingSoldTwice()
      requires Valid() && Uuids(cfg) && Sales.GoodOrders(trace)
      ensures forall i, j :: 0 <= i < j < |sales| ==> sales[i].trade != sales[j].trade
    {
      hide Run, Sales.GoodOrder, Uuids;
      Sales.SoldAtMostOnce(cfg, trace);
    }

    /** What `LedgerBalance` returns, if the engine's transactions began one after the other: the account's debits minus
        its credits, and for the fiat holding account the fees on top whose rows drew the wrong order. */
    lemma BalanceMeans(a: Account, c: Currency)
      requires Valid() && LedgerClock.Clocked(trace)
      ensures Balance(ledger, a, c)
           == Net(ledger, a, c) + if a == Holding(NGN) && c == NGN then LedgerClock.UnreadFees(cfg, trace) else 0
    {
      hide Run, Balance, Net, LedgerClock.UnreadFees, LedgerClock.Clocked;
      LedgerClock.RunReadsIff(cfg, trace);
    }

    /** What a trade the engine paid has left in its ledger, if it was never disputed, bounced or repeated: nothing with
        the platform but its fee, and with the user what the quote promised. */
    lemma PaidTradeHasSettled(id: string)
      requires Valid() && id in trades && trades[id].status == PayoutCompleted && Settlement.CleanHistory(Past(Db(), id))
      ensures Settlement.LeavesNothing(Db(), id, trades[id])
    {
      hide Run, TradeNet, Settlement.CleanHistory, Settlement.LeavesNothing, Settlement.HasTerms;
      Settlement.CleanRunSettles(cfg, trace, id, trades[id]);
    }
  }

  lemma FoundIsTrade(s: Store, payout: string, target: Option<string>)
    requires AnswersPayout(s, payout, target) && target.Some?
    ensures target.value in s.trades && s.trades[target.value].payoutId == Some(payout)
    ensures forall id <- s.trades :: s.trades[id].payoutId == Some(payout) ==> s.trades[id].updatedAt <= s.trades[target.value].updatedAt
  {
  }

  /** Where the news of a payout lead. */
  predicate LedTo(news: PayoutNews, to: Status) {
    match news
    case PaidOut => to == PayoutCompleted
    case Bounced => to == PayoutFailed
    case StillPending => to == PayoutPending
    case Unclear => false
  }

  // What payout requests are about.
  lemma PayoutForms(trade: string, ref: string, reason: string)
    ensures PayoutCompleteAsk(trade, ref).trade == trade && PayoutFailedAsk(trade, ref, reason).trade == trade
    ensures PayoutPendingAsk(trade, ref).trade == trade
    ensures PayoutCompleteAsk(trade, ref).meta.payoutRef == Some(ref) && PayoutFailedAsk(trade, ref, reason).meta.payoutRef == Some(ref)
    ensures PayoutPendingAsk(trade, ref).to == PayoutPending && PayoutCompleteAsk(trade, ref).to == PayoutCompleted
    ensures PayoutFailedAsk(trade, ref, reason).to == PayoutFailed
  {
    hide Filed, Folded;
  }

  lemma SeenBefore(w: World, event: string, payout: string, news: PayoutNews, note: string)
    requires event in w.events
    ensures WebhookAsk(w, event, payout, None, news, note).None?
  {
  }

  lemma ResolveIs(cfg: Config, w: World, ticket: nat, mode: Option<Mode>, note: string, resolver: string, tick: Tick)
    ensures Next(cfg, w, Resolve(ticket, mode, note, resolver, tick)) == w.(db := Resolved(w.db, ticket, mode, note, resolver, tick))
  {
    hide Resolved;
  }

  lemma AcceptIs(cfg: Config, w: World, trade: string, user: string, quote: string, bank: string, cleared: bool, address: string,
                 authorized: bool, tick: Tick)
    ensures Next(cfg, w, Accept(trade, user, quote, bank, cleared, address, authorized, tick))
         == w.(db := Accepted(cfg, w.db, trade, user, quote, bank, cleared, address, authorized, tick.now))
  {
    hide Accepted;
  }

  // A sale step of a trade up for sale.
  lemma SellIs(cfg: Config, w: World, trade: string, answer: SaleAnswer, tick: Tick)
    requires ForSale(w.db, trade)
    ensures var step, v := Sell(trade, answer, tick), Next(cfg, w, Sell(trade, answer, tick));
            && OutcomeOf(cfg, w, step) == (match SellAsk(w, trade, answer)
                                           case None => Duplicate
                                           case Some(ask) => Update(w.db, ask.trade, ask.to, ask.meta, tick))
            && v.db == Settle(w.db, OutcomeOf(cfg, w, step)) && v.events == w.events
            && v.sales == (if answer.Sold? then w.sales + [Sale(trade, Trim(answer.order))] else w.sales)
            && v.attempts == (if answer.Sold? then w.attempts - {trade}
                              else if answer.TryAgain? && Attempts(w, trade) + 1 < MAX_ATTEMPTS then w.attempts[trade := Attempts(w, trade) + 1]
                              else if OutcomeOf(cfg, w, step).Refused?
                                   then if answer.TryAgain? then w.attempts[trade := Attempts(w, trade) + 1] else w.attempts
                              else w.attempts - {trade})
  {
    hide SellAsk, Update, Trim;
  }

  lemma NothingToSell(cfg: Config, w: World, trade: string, answer: SaleAnswer, tick: Tick)
    requires !ForSale(w.db, trade)
    ensures Next(cfg, w, Sell(trade, answer, tick)) == w && !OutcomeOf(cfg, w, Sell(trade, answer, tick)).Refused?
  {
    SellAskWhen(w, trade, answer);
    hide SellAsk;
  }

  lemma LatestOfNone(a: Account, c: Currency)
    ensures Latest([], a, c) == None
  {
  }

  lemma LatestOfMore(rows: seq<Entry>, i: nat, a: Account, c: Currency)
    requires i < |rows|
    ensures var best := Latest(rows[..i], a, c);
            Latest(rows[..i + 1], a, c)
            == if On(rows[i], a, c) && (best.None? || Newer(rows[i], rows[best.value])) then Some(i) else best
  {
    assert rows[..i + 1][..i] == rows[..i];
  }

  // Once a posting is refused, so is every longer list.
  lemma {:induction false} RefusedOnce(rows: seq<Entry>, trade: string, ps: seq<Posting>, n: nat, opKey: string, tick: Tick)
    requires n <= |ps| && PostAll(rows, trade, ps[..n], opKey, tick).Err?
    ensures PostAll(rows, trade, ps, opKey, tick) == PostAll(rows, trade, ps[..n], opKey, tick)
  {
    hide Post;
    if n < |ps| {
      var k := |ps| - 1;
      assert ps[..k][..n] == ps[..n];
      RefusedOnce(rows, trade, ps[..k], n, opKey, tick);
    } else {
      assert ps[..n] == ps;
    }
  }

  lemma RunMore(cfg: Config, steps: seq<Step>, step: Step)
    ensures Run(cfg, steps + [step]) == Next(cfg, Run(cfg, steps), step)
  {
    hide Next;
    assert (steps + [step])[..|steps|] == steps;
  }
}
