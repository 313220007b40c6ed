/** The tables a trade lives in, and the one transaction every status change goes through: check the table of
    permitted changes, reserve the operation key, write the trade, post to the ledger, append to the history,
    open a ticket. */
module Store {
  import opened Wrappers
  import opened Text
  import opened Lifecycle
  import opened Ledger

  datatype Quote = Quote(
    user: string, from: Currency, to: Currency, fromAmount: int, gross: int, fee: int, net: int,
    validUntil: int, acceptedAt: Option<int>, expiredAt: Option<int>)

  datatype Trade = Trade(
    user: string, quote: string, bank: string, status: Status,
    from: Currency, to: Currency, fromAmount: int, toExpected: int, toActual: Option<int>, fee: int,
    address: string, txHash: Option<string>, confirmedAt: Option<int>,
    orderId: Option<string>, conversionId: Option<string>, payoutId: Option<string>,
    authorized: bool, disputeReason: Option<string>,
    expiresAt: int, completedAt: Option<int>, updatedAt: int)

  datatype Mode = RetryProcessing | CloseNoPayout | ForceComplete

  datatype Resolution = Resolution(mode: Mode, note: Option<string>, resolver: string, at: int)

  /** A dispute ticket; it is open until it carries a resolution. */
  datatype Ticket = Ticket(trade: string, byUser: bool, reason: string, resolution: Option<Resolution>)

  datatype Scope = TradeCreation | StatusChange(to: Status)

  datatype OpKey = OpKey(scope: Scope, text: string)

  datatype Store = Store(
    quotes: map<string, Quote>,
    trades: map<string, Trade>,
    keys: map<OpKey, string>,
    history: map<string, seq<Change>>,
    ledger: seq<Entry>,
    tickets: seq<Ticket>)

  const EMPTY := Store(map[], map[], map[], map[], [], [])

  /** What a caller of a status change may pass along. */
  datatype Metadata = Metadata(
    key: Option<string>, txHash: Option<string>, payoutRef: Option<string>, orderId: Option<string>,
    conversionId: Option<string>, reason: Option<string>, toAmountActual: Option<int>, payoutAmount: Option<int>,
    fxSpread: int, expressFee: int, clearReason: bool, skipLedger: bool, byUser: bool)

  const BLANK := Metadata(None, None, None, None, None, None, None, None, 0, 0, false, false, false)

  // ------------------------------------------------------------------ operation keys

  function Part(name: string, v: Option<string>): string {
    match v
    case None => ""
    case Some(x) => ":" + name + "=" + x
  }

  function Parts(m: Metadata): string {
    Part("tx_hash", m.txHash) + Part("payout_ref", m.payoutRef) + Part("exchange_order_id", m.orderId)
    + Part("graph_conversion_id", m.conversionId) + Part("reason", m.reason)
  }

  /** The key a change is filed under when its caller names none. */
  function DefaultKey(trade: string, to: Status, m: Metadata): string {
    NormalizeKey("trade:" + to.KeyText() + ":" + trade + if Parts(m) == "" then ":default" else Parts(m))
  }

  /** The caller's own key, or the default one when the caller's is blank. Never blank, even once it is
      normalised again for the table of reserved keys (which only trims it, `Text.NormalizeAgain`). */
  function OperationKey(trade: string, to: Status, m: Metadata): (key: string)
    ensures KeyForm(key) && TrimRight(key) != ""
  {
    if m.key.Some? && NormalizeKey(m.key.value) != "" then
      NormalizeTwice(m.key.value);
      NormalizeKey(m.key.value)
    else
      DefaultKeyIsStored(trade, to, m);
      DefaultKey(trade, to, m)
  }

  /** A text that normalisation has produced. */
  ghost predicate KeyForm(key: string) {
    key != "" && exists raw: string :: key == NormalizeKey(raw)
  }

  lemma NormalizeTwice(raw: string)
    requires NormalizeKey(raw) != ""
    ensures TrimRight(NormalizeKey(raw)) != ""
  {
    var key := NormalizeKey(raw);
    NormalizedIsKeyText(raw);
    TrimRightStops(key, 0);
  }

  // The key table's text: the operation key normalised once more.
  lemma ReservedText(trade: string, to: Status, m: Metadata)
    ensures NormalizeKey(OperationKey(trade, to, m)) == TrimRight(OperationKey(trade, to, m))
  {
    hide OperationKey, NormalizeKey;
    var raw: string :| OperationKey(trade, to, m) == NormalizeKey(raw);
    NormalizeAgain(raw);
  }

  lemma DefaultKeyIsStored(trade: string, to: Status, m: Metadata)
    ensures KeyForm(DefaultKey(trade, to, m)) && TrimRight(DefaultKey(trade, to, m)) != ""
  {
    hide Status.KeyText, Parts;
    var ending := if Parts(m) == "" then ":default" else Parts(m);
    var tail := to.KeyText() + ":" + trade + ending;
    assert "trade:" + to.KeyText() + ":" + trade + ending == "trade:" + tail;
    TradeHead(tail);
    hide NormalizeKey;
    NormalizeTwice("trade:" + tail);
  }

  lemma TradeHead(tail: string)
    ensures "trade:" <= NormalizeKey("trade:" + tail)
  {
    hide NormalizeKey;
    assert KeyText("trade:");
    NormalizeKeepsHead("trade:", tail);
  }

  // ------------------------------------------------------------------ what a change posts

  /** Metadata first, then the amount recorded on the trade, then the amount expected. */
  function ResolvePayoutAmount(t: Trade, m: Metadata): int {
    var told := if m.toAmountActual.Some? then m.toAmountActual.value
                else if m.payoutAmount.Some? then m.payoutAmount.value else 0;
    if told > 0 then told
    else if t.toActual.Some? && t.toActual.value > 0 then t.toActual.value
    else t.toExpected
  }

  function DisputeAmount(t: Trade, m: Metadata): int {
    var amount := ResolvePayoutAmount(t, m);
    if amount <= 0 then t.toExpected else amount
  }

  /** The balanced postings of a change to a status, in the order they are written. */
  function PostingsFor(t: Trade, to: Status, m: Metadata): (ps: seq<Posting>)
    ensures Balanced(ps)
  {
    match to
    case DepositConfirmed => [
      Posting(Deposit, t.from, t.fromAmount, Holding(t.from), Blockchain(t.from))]
    case ConversionCompleted => [
      Posting(ConversionAsset, t.from, t.fromAmount, Inventory(t.from), Holding(t.from)),
      Posting(ConversionFiat, t.to, t.toExpected + t.fee, Holding(t.to), Inventory(t.to)),
      Posting(PlatformFee, t.to, t.fee, FeeRevenue(t.to), Holding(t.to)),
      Posting(FxSpread, t.to, m.fxSpread, SpreadRevenue(t.to), Holding(t.to)),
      Posting(ExpressFee, t.to, m.expressFee, ExpressRevenue(t.to), Holding(t.to))]
    case PayoutCompleted => [
      Posting(Payout, t.to, ResolvePayoutAmount(t, m), Wallet(t.user, t.to), Holding(t.to))]
    case PayoutFailed => [
      Posting(PayoutFailedReserve, t.to, ResolvePayoutAmount(t, m), FailedSuspense(t.to), Holding(t.to))]
    case Dispute => [
      Posting(DisputeAdjustment, t.to, DisputeAmount(t, m), DisputeSuspense(t.to), Holding(t.to))]
    case _ => []
  }

  /** The status whose change posts rows of this kind. */
  function Poster(k: Kind): Status {
    match k
    case Deposit => DepositConfirmed
    case ConversionAsset => ConversionCompleted
    case ConversionFiat => ConversionCompleted
    case PlatformFee => ConversionCompleted
    case FxSpread => ConversionCompleted
    case ExpressFee => ConversionCompleted
    case Payout => PayoutCompleted
    case PayoutFailedReserve => PayoutFailed
    case DisputeAdjustment => Dispute
  }

  // ------------------------------------------------------------------ tickets

  predicate IsOpen(k: Ticket) {
    k.resolution.None?
  }

  /** The trade's newest open ticket. */
  function OpenTicketOf(tickets: seq<Ticket>, trade: string): (r: Option<nat>)
    ensures r.Some? ==> r.value < |tickets| && tickets[r.value].trade == trade && IsOpen(tickets[r.value])
    ensures r.None? <==> forall i :: 0 <= i < |tickets| ==> !(tickets[i].trade == trade && IsOpen(tickets[i]))
  {
    if tickets == [] then None
    else
      var n := |tickets| - 1;
      if tickets[n].trade == trade && IsOpen(tickets[n]) then Some(n) else OpenTicketOf(tickets[..n], trade)
  }

  /** An open ticket of the trade is kept; otherwise a new one is opened. */
  function WithTicket(tickets: seq<Ticket>, trade: string, byUser: bool, note: string): seq<Ticket> {
    if OpenTicketOf(tickets, trade).Some? then tickets
    else tickets + [Ticket(trade, byUser, if note == "" then "Trade requires manual review" else note, None)]
  }

  // ------------------------------------------------------------------ the update itself

  // Width of the trade's text columns.
  const COLUMN_WIDTH := 128

  /** A text worth storing: trimmed, and absent when blank. */
  function Given(v: Option<string>): Option<string> {
    if v.Some? && Trim(v.value) != "" then Some(Trim(v.value)) else None
  }

  function Coalesce<T>(a: Option<T>, b: Option<T>): Option<T> {
    if a.Some? then a else b
  }

  predicate FitsColumn(v: Option<string>) {
    v.None? || |v.value| <= COLUMN_WIDTH
  }

  predicate FitsRow(m: Metadata) {
    FitsColumn(Given(m.txHash)) && FitsColumn(Given(m.payoutRef)) && FitsColumn(Given(m.orderId)) && FitsColumn(Given(m.conversionId))
  }

  function Note(m: Metadata): string {
    if m.reason.Some? then Trim(m.reason.value) else ""
  }

  /** The trade row after a change: what the metadata gives replaces what was there, what it does not give stays. */
  function Written(t: Trade, to: Status, m: Metadata, now: int): Trade {
    var note := Note(m);
    t.(status := to,
       txHash := Coalesce(Given(m.txHash), t.txHash),
       confirmedAt := if to == DepositConfirmed then Some(now) else t.confirmedAt,
       payoutId := Coalesce(Given(m.payoutRef), t.payoutId),
       completedAt := if to == PayoutCompleted then Some(now) else t.completedAt,
       orderId := Coalesce(Given(m.orderId), t.orderId),
       conversionId := Coalesce(Given(m.conversionId), t.conversionId),
       toActual := Coalesce(m.toAmountActual, t.toActual),
       disputeReason := if m.clearReason then None
                        else if note != "" && to in {Dispute, PayoutFailed, DisputeClosed} then Some(note)
                        else t.disputeReason,
       updatedAt := now)
  }

  // ------------------------------------------------------------------ the notification of a change

  function TextOf(v: Option<string>): string {
    if v.Some? then v.value else ""
  }

  /** The key under which a change to a status is announced to the user, once; none for a status that is not announced. */
  function NoticeKey(trade: string, t: Trade, to: Status, m: Metadata): Option<string> {
    var head := trade + ":" + Upper(to.KeyText());
    match to
    case DepositReceived => Some(head + ":" + TextOf(Given(m.txHash)))
    case DepositConfirmed => Some(head)
    case ConversionInProgress => Some(head)
    case ConversionCompleted => Some(head)
    case PayoutPending => Some(head)
    case PayoutCompleted => Some(head + ":" + TextOf(Coalesce(Given(m.payoutRef), Given(t.payoutId))))
    case PayoutFailed => Some(head)
    case _ => None
  }

  // Width of the notification's unique key column.
  const NOTICE_WIDTH := 128

  /** The notification, written in the same transaction, fits its table. */
  predicate NoticeFits(trade: string, t: Trade, to: Status, m: Metadata) {
    var key := NoticeKey(trade, t, to, m);
    key.None? || |key.value| <= NOTICE_WIDTH
  }

  datatype Refusal = NoSuchTrade | NotPermitted | ColumnOverflow | LedgerRefused(why: Failure) | NoticeTooLong

  /** How an update ends: committed, recognised as a repeat and ignored, or rolled back. */
  datatype Outcome = Applied(after: Store) | Duplicate | Refused(why: Refusal)

  /** The key a change is reserved under: its operation key normalised again (`ReservedText`). */
  function KeyOf(trade: string, to: Status, m: Metadata): OpKey {
    OpKey(StatusChange(to), TrimRight(OperationKey(trade, to, m)))
  }

  function Posted(s: Store, trade: string, to: Status, m: Metadata, tick: Tick): Result<seq<Entry>, Failure>
    requires trade in s.trades
  {
    if m.skipLedger then Ok(s.ledger)
    else PostAll(s.ledger, trade, PostingsFor(s.trades[trade], to, m), OperationKey(trade, to, m), tick)
  }

  predicate InStatus(s: Store, trade: string, status: Status) {
    trade in s.trades && s.trades[trade].status == status
  }

  predicate RowIs(s: Store, trade: string, t: Trade) {
    trade in s.trades && s.trades[trade] == t
  }

  function Past(s: Store, trade: string): seq<Change> {
    if trade in s.history then s.history[trade] else []
  }

  function Commit(s: Store, trade: string, to: Status, m: Metadata, rows: seq<Entry>, now: int): Store
    requires trade in s.trades
  {
    var t := s.trades[trade];
    s.(trades := s.trades[trade := Written(t, to, m, now)],
       keys := s.keys[KeyOf(trade, to, m) := trade],
       history := s.history[trade := Past(s, trade) + [Change(Some(t.status), to)]],
       ledger := rows,
       tickets := if to == Dispute then WithTicket(s.tickets, trade, m.byUser, Note(m)) else s.tickets)
  }

  function Update(s: Store, trade: string, to: Status, m: Metadata, tick: Tick): Outcome {
    if trade !in s.trades then Refused(NoSuchTrade)
    else if !Allowed(s.trades[trade].status, to) then Refused(NotPermitted)
    else if KeyOf(trade, to, m) in s.keys then Duplicate
    else if !FitsRow(m) then Refused(ColumnOverflow)
    else match Posted(s, trade, to, m, tick)
      case Err(f) => Refused(LedgerRefused(f))
      case Ok(rows) =>
        if NoticeFits(trade, s.trades[trade], to, m) then Applied(Commit(s, trade, to, m, rows, tick.now)) else Refused(NoticeTooLong)
  }

  /** The tables after an update has ended. */
  function Settle(s: Store, o: Outcome): Store {
    match o
    case Applied(after) => after
    case Duplicate => s
    case Refused(_) => s
  }

  // What an applied update has checked, and what it has written.
  lemma WhenApplied(s: Store, trade: string, to: Status, m: Metadata, tick: Tick)
    requires Update(s, trade, to, m, tick).Applied?
    ensures trade in s.trades && Allowed(s.trades[trade].status, to) && KeyOf(trade, to, m) !in s.keys && FitsRow(m)
    ensures Posted(s, trade, to, m, tick).Ok? && NoticeFits(trade, s.trades[trade], to, m)
    ensures var after := Update(s, trade, to, m, tick).after;
            && after.quotes == s.quotes
            && after.trades == s.trades[trade := Written(s.trades[trade], to, m, tick.now)]
            && after.keys == s.keys[KeyOf(trade, to, m) := trade]
            && after.history == s.history[trade := Past(s, trade) + [Change(Some(s.trades[trade].status), to)]]
            && after.ledger == Posted(s, trade, to, m, tick).value
            && after.tickets == if to == Dispute then WithTicket(s.tickets, trade, m.byUser, Note(m)) else s.tickets
  {
    hide Allowed, KeyOf, FitsRow, Posted, Written, Past, WithTicket, Note, NoticeFits;
  }

  // A permitted change under a new key, with texts that fit and nothing to post, goes through.
  lemma AppliesUnposted(s: Store, trade: string, to: Status, m: Metadata, tick: Tick)
    requires trade in s.trades && Allowed(s.trades[trade].status, to) && KeyOf(trade, to, m) !in s.keys && FitsRow(m)
    requires (m.skipLedger || PostingsFor(s.trades[trade], to, m) == []) && NoticeFits(trade, s.trades[trade], to, m)
    ensures Update(s, trade, to, m, tick).Applied?
  {
    hide Allowed, KeyOf, FitsRow, PostingsFor, Commit, OperationKey, NoticeFits;
  }

  // How an update ends, case by case.
  lemma UpdateCases(s: Store, trade: string, to: Status, m: Metadata, tick: Tick)
    ensures trade !in s.trades ==> Update(s, trade, to, m, tick) == Refused(NoSuchTrade)
    ensures trade in s.trades && !Allowed(s.trades[trade].status, to) ==> Update(s, trade, to, m, tick) == Refused(NotPermitted)
    ensures trade in s.trades && Allowed(s.trades[trade].status, to) && KeyOf(trade, to, m) in s.keys ==>
              Update(s, trade, to, m, tick) == Duplicate
    ensures trade in s.trades && Allowed(s.trades[trade].status, to) && KeyOf(trade, to, m) !in s.keys && !FitsRow(m) ==>
              Update(s, trade, to, m, tick) == Refused(ColumnOverflow)
    ensures trade in s.trades && Allowed(s.trades[trade].status, to) && KeyOf(trade, to, m) !in s.keys && FitsRow(m) ==>
              Update(s, trade, to, m, tick) == match Posted(s, trade, to, m, tick)
                                               case Err(f) => Refused(LedgerRefused(f))
                                               case Ok(rows) =>
                                                 if NoticeFits(trade, s.trades[trade], to, m)
                                                 then Applied(Commit(s, trade, to, m, rows, tick.now)) else Refused(NoticeTooLong)
  {
    hide Allowed, KeyOf, FitsRow, Posted, Commit, NoticeFits;
  }
}
