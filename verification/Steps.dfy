/** The engine as a machine. A step is one worker's action on one trade, one webhook, one user request or one
    admin call; whatever providers and the clock answered is part of the step. */
module Steps {
  import opened Wrappers
  import opened Text
  import opened Lifecycle
  import opened Ledger
  import opened Store
  import DepositPolicy
  import Decimal
  import Pricing

  /** What the engine is configured with: who owns each bank account, the blocked wallets in upper case, which texts
      are drawn as identifiers, where a deposit to an address of a currency is expected (network and address), how a
      network's name is spelled, and the deposit policy of a currency on a network. `Deployment` says what the
      program puts here. */
  datatype Config = Config(
    banks: map<string, string>, blocked: set<string>, isId: string -> bool,
    place: (Currency, string) -> (string, string), network: string -> string, policy: (Currency, string) -> DepositPolicy.Policy)

  /** An order the exchange has filled for a trade. */
  datatype Sale = Sale(trade: string, order: string)

  /** The database, and beside it the orders filled, the conversion worker's attempts and the webhooks seen. */
  datatype World = World(db: Store, sales: seq<Sale>, attempts: map<string, nat>, events: set<string>)

  const START := World(EMPTY, [], map[], {})

  // ------------------------------------------------------------------ what the outside answers

  datatype Price = LivePrice(crypto: real, fiat: real) | FallbackPrice

  /** What the blockchain said of a deposit address. */
  datatype Sighting = Sighting(
    found: bool, txHash: string, network: string, address: string, amount: int, confirmations: int,
    reversed: bool, replaced: bool)

  datatype SaleAnswer = Sold(order: string, exchange: string) | Hopeless(error: string) | TryAgain(error: string)

  datatype PayoutAnswer = Initiated(ref: string) | Rejected(error: string) | Unavailable

  datatype PayoutNews = PaidOut | Bounced | StillPending | Unclear

  datatype Step =
    | Offer(quote: string, user: string, asset: Currency, amount: int, price: Price, tick: Tick)
    | Lapse(quote: string, tick: Tick)
    | Accept(trade: string, user: string, quote: string, bank: string, cleared: bool, address: string,
             authorized: bool, tick: Tick)
    | Watch(trade: string, seen: Sighting, holder: Option<string>, tick: Tick)
    | Backfill(trade: string, seen: Sighting, holder: Option<string>, tick: Tick)
    | Sell(trade: string, answer: SaleAnswer, tick: Tick)
    | FinishSale(trade: string, order: string, note: string, tick: Tick)
    | FailSale(trade: string, order: string, note: string, tick: Tick)
    | RecoverSale(trade: string, tick: Tick)
    | StartPayout(trade: string, payoutAnswer: PayoutAnswer, tick: Tick)
    | PollPayout(trade: string, news: PayoutNews, status: string, tick: Tick)
    | Webhook(event: string, payout: string, target: Option<string>, news: PayoutNews, note: string, tick: Tick)
    | RaiseDispute(trade: string, note: string, tick: Tick)
    | Resolve(ticket: nat, mode: Option<Mode>, note: string, resolver: string, tick: Tick)

  // ------------------------------------------------------------------ requests for a status change

  datatype Ask = Ask(trade: string, to: Status, meta: Metadata)

  function Folded(s: string): string {
    Lower(Trim(s))
  }

  function Filed(prefix: string, trade: string, tail: string): Option<string> {
    Some(prefix + trade + ":" + tail)
  }

  /** Confirmations the event machine insists on when a trade carries no requirement. */
  function FallbackConfirmations(c: Currency): int {
    match c
    case BTC => 2
    case USDC => 12
    case ETH => 12
    case _ => 1
  }

  // -- deposits

  datatype Fault = DuplicateHash | WrongNetwork | WrongAddress | BlockedWallet | WrongAmount | Unsettled

  predicate HoldsHash(t: Trade, hash: string) {
    Lower(if t.txHash.Some? then t.txHash.value else "") == Lower(Trim(hash))
  }

  /** An answer the lookup by transaction hash may give: no trade when none holds it, else one of those that do,
      touched last. */
  predicate AnswersHash(s: Store, hash: string, holder: Option<string>) {
    match holder
    case None => forall id <- s.trades :: !HoldsHash(s.trades[id], hash)
    case Some(h) =>
      h in s.trades && HoldsHash(s.trades[h], hash)
      && forall id <- s.trades :: HoldsHash(s.trades[id], hash) ==> s.trades[id].updatedAt <= s.trades[h].updatedAt
  }

  predicate LookedUp(s: Store, seen: Sighting, holder: Option<string>) {
    Trim(seen.txHash) == "" || AnswersHash(s, seen.txHash, holder)
  }

  function PolicyFor(cfg: Config, t: Trade): DepositPolicy.Policy {
    cfg.policy(t.from, cfg.place(t.from, t.address).0)
  }

  predicate NetworksClash(observed: string, expected: string) {
    observed != "default" && expected != "default" && observed != expected
  }

  predicate AddressesClash(observed: string, expected: string) {
    Trim(observed) != "" && Trim(expected) != "" && !EqualFold(Trim(observed), Trim(expected))
  }

  predicate Blocked(cfg: Config, observed: string, expected: string) {
    var wallet := if Trim(observed) != "" then Trim(observed) else Trim(expected);
    wallet != "" && Upper(wallet) in cfg.blocked
  }

  /** The first thing wrong with a deposit, in the order the checks are made; only the watcher screens wallets. */
  function FaultOf(cfg: Config, trade: string, t: Trade, seen: Sighting, holder: Option<string>, screens: bool): Option<Fault> {
    var place := cfg.place(t.from, t.address);
    if Trim(seen.txHash) != "" && holder.Some? && holder.value != trade then Some(DuplicateHash)
    else if NetworksClash(cfg.network(seen.network), place.0) then Some(WrongNetwork)
    else if AddressesClash(seen.address, place.1) then Some(WrongAddress)
    else if screens && Blocked(cfg, seen.address, place.1) then Some(BlockedWallet)
    else if DepositPolicy.OutsideTolerance(t.fromAmount, seen.amount, PolicyFor(cfg, t).tolerance) then Some(WrongAmount)
    else if seen.reversed || seen.replaced then Some(Unsettled)
    else None
  }

  function WatcherReason(f: Fault): string {
    match f
    case DuplicateHash => "duplicate_deposit_tx_hash"
    case WrongNetwork => "wrong_deposit_network"
    case WrongAddress => "wrong_deposit_address"
    case BlockedWallet => "high_risk_wallet_blocklist"
    case WrongAmount => "wrong_deposit_amount"
    case Unsettled => "deposit_reorg_or_replacement_risk"
  }

  function BackfillReason(f: Fault): string {
    match f
    case DuplicateHash => "backfill_duplicate_deposit_tx_hash"
    case WrongNetwork => "backfill_wrong_deposit_network"
    case WrongAddress => "backfill_wrong_deposit_address"
    case BlockedWallet => "high_risk_wallet_blocklist"
    case WrongAmount => "backfill_wrong_deposit_amount"
    case Unsettled => "backfill_detected_reorg_or_replacement"
  }

  /** A dispute raised by a deposit check: filed under the transaction, or under the reason when there is none,
      and never posted to the ledger. */
  function DepositDispute(prefix: string, trade: string, hash: string, reason: string): Ask {
    Ask(trade, Dispute, BLANK.(key := Filed(prefix, trade, if Trim(hash) != "" then Folded(hash) else Folded(reason)),
                               txHash := Some(Trim(hash)), reason := Some(reason), skipLedger := true))
  }

  function View(t: Trade, now: int, required: int, confirmations: int): GuardView {
    GuardView(now, 0, t.expiresAt, FallbackConfirmations(t.from), required, confirmations)
  }

  function Fired(trade: string, t: Trade, event: Event, view: GuardView, m: Metadata): Option<Ask> {
    match Fire(t.status, event, view)
    case None => None
    case Some(to) => Some(Ask(trade, to, m))
  }

  function ExpiryNote(trade: string): Metadata {
    BLANK.(key := Some("trade_expired:" + trade), reason := Some("deposit_deadline_exceeded"))
  }

  function DepositNote(prefix: string, trade: string, hash: string): Metadata {
    BLANK.(txHash := Some(hash), key := Filed(prefix, trade, Folded(hash)))
  }

  function BackfillNote(prefix: string, trade: string, hash: string, reason: string): Metadata {
    BLANK.(txHash := Some(Trim(hash)), reason := Some(reason), key := Filed(prefix, trade, Folded(hash)))
  }

  function WatchAsk(cfg: Config, s: Store, trade: string, seen: Sighting, holder: Option<string>, now: int): Option<Ask> {
    if trade !in s.trades then None
    else
      var t := s.trades[trade];
      if t.status !in {PendingDeposit, DepositReceived} then None
      else if t.status == PendingDeposit && now > t.expiresAt then
        Fired(trade, t, TradeCancelled, View(t, now, 0, 0), ExpiryNote(trade))
      else if t.address == "" || !seen.found || !LookedUp(s, seen, holder) then None
      else
        var fault := FaultOf(cfg, trade, t, seen, holder, true);
        var policy := PolicyFor(cfg, t);
        if fault.Some? then Some(DepositDispute("deposit_dispute:", trade, seen.txHash, WatcherReason(fault.value)))
        else if seen.confirmations < policy.detection then None
        else if t.status == PendingDeposit then
          Fired(trade, t, DepositDetected, View(t, now, policy.finality, seen.confirmations), DepositNote("deposit_detected:", trade, seen.txHash))
        else
          Fired(trade, t, DepositFinal, View(t, now, policy.finality, seen.confirmations), DepositNote("deposit_confirmed:", trade, seen.txHash))
  }

  const BACKFILLED := {PendingDeposit, DepositReceived, DepositConfirmed, ConversionInProgress, ConversionCompleted, PayoutPending}

  function BackfillAsk(cfg: Config, s: Store, trade: string, seen: Sighting, holder: Option<string>): Option<Ask> {
    if trade !in s.trades then None
    else
      var t := s.trades[trade];
      if t.status !in BACKFILLED || Trim(t.address) == "" || !seen.found || !LookedUp(s, seen, holder) then None
      else
        var fault := FaultOf(cfg, trade, t, seen, holder, false);
        var policy := PolicyFor(cfg, t);
        if fault.Some? then Some(DepositDispute("backfill_dispute:", trade, seen.txHash, BackfillReason(fault.value)))
        else match t.status
          case PendingDeposit =>
            if seen.confirmations < policy.detection then None
            else Some(Ask(trade, DepositReceived, BackfillNote("backfill_deposit_detected:", trade, seen.txHash, "backfill detected deposit")))
          case DepositReceived =>
            if seen.confirmations < policy.finality then None
            else Some(Ask(trade, DepositConfirmed, BackfillNote("backfill_deposit_confirmed:", trade, seen.txHash, "backfill confirmed deposit")))
          case _ =>
            if seen.confirmations >= policy.finality then None
            else Some(DepositDispute("backfill_dispute:", trade, seen.txHash, "finality_dropped_below_threshold"))
  }

  // -- conversions

  const STARTED := "conversion_started:"
  const MAX_ATTEMPTS := 6
  const SALE_TIMEOUT := 600

  function Attempts(w: World, trade: string): nat {
    if trade in w.attempts then w.attempts[trade] else 0
  }

  /** What the worker passes along with an accepted order. */
  function SaleNote(trade: string, order: string, exchange: string): Metadata {
    BLANK.(orderId := Some(Trim(order)), reason := Some(Folded(exchange) + " conversion order accepted"),
           key := Filed(STARTED, trade, Folded(order)))
  }

  /** What it passes along when it gives up. */
  function EscalationNote(head: string, trade: string, reason: string): Metadata {
    BLANK.(reason := Some(reason), key := Some(head + trade))
  }

  function SellAsk(w: World, trade: string, answer: SaleAnswer): Option<Ask> {
    if trade !in w.db.trades || w.db.trades[trade].status != DepositConfirmed then None
    else match answer
      case Sold(order, exchange) =>
        Some(Ask(trade, ConversionInProgress, SaleNote(trade, order, exchange)))
      case Hopeless(error) =>
        Some(Ask(trade, Dispute, EscalationNote("conversion_escalation:", trade, "conversion requires manual review: " + Trim(error))))
      case TryAgain(error) =>
        var n := Attempts(w, trade) + 1;
        if n < MAX_ATTEMPTS then None
        else Some(Ask(trade, Dispute,
          EscalationNote("conversion_retries_exhausted:", trade,
                         "conversion retry limit reached after " + Decimal.Spell(n) + " attempts: " + Trim(error))))
  }

  /** The end of a sale the worker has just started, as the exchange reported it. */
  function EndSaleAsk(w: World, trade: string, order: string, note: string, to: Status, prefix: string): Option<Ask> {
    if Sale(trade, Trim(order)) !in w.sales then None
    else Some(Ask(trade, to, BLANK.(orderId := Some(Trim(order)), reason := Some(note), key := Filed(prefix, trade, Folded(order)))))
  }

  function RecoverAsk(s: Store, trade: string, now: int): Option<Ask> {
    if trade !in s.trades || s.trades[trade].status != ConversionInProgress || now - s.trades[trade].updatedAt < SALE_TIMEOUT then None
    else
      var order := Given(s.trades[trade].orderId);
      Some(Ask(trade, Dispute,
        BLANK.(reason := Some("conversion reconciliation timed out; manual review required"), orderId := order,
               key := if order.Some? then Filed("conversion_reconcile_timeout:", trade, Lower(order.value))
                      else Some("conversion_reconcile_timeout:" + trade))))
  }

  // -- payouts

  function PayoutPendingAsk(trade: string, ref: string): Ask {
    Ask(trade, PayoutPending,
      BLANK.(payoutRef := Some(ref), reason := Some("graph payout initiated"), key := Filed("payout_pending:", trade, Folded(ref))))
  }

  function PayoutCompleteAsk(trade: string, ref: string): Ask {
    Ask(trade, PayoutCompleted, BLANK.(payoutRef := Some(ref), key := Filed("payout_completed:", trade, Folded(ref))))
  }

  function PayoutFailedAsk(trade: string, ref: string, reason: string): Ask {
    Ask(trade, PayoutFailed,
      BLANK.(payoutRef := Some(ref), reason := Some(reason), key := Filed("payout_failed:", trade, Folded(ref))))
  }

  function StartPayoutAsk(s: Store, trade: string, answer: PayoutAnswer): Option<Ask> {
    if trade !in s.trades then None
    else
      var t := s.trades[trade];
      if t.status != ConversionCompleted || !t.authorized || t.payoutId.Some? then None
      else match answer
        case Initiated(ref) => Some(PayoutPendingAsk(trade, ref))
        case Rejected(error) =>
          Some(Ask(trade, PayoutFailed,
            BLANK.(reason := Some("non-retryable payout initiation error: " + Trim(error)),
                   key := Some("payout_failed_initiation:" + trade))))
        case Unavailable => None
  }

  function PollPayoutAsk(s: Store, trade: string, news: PayoutNews, status: string): Option<Ask> {
    if trade !in s.trades || s.trades[trade].status != PayoutPending || Given(s.trades[trade].payoutId).None? then None
    else
      var ref := Given(s.trades[trade].payoutId).value;
      match news
      case PaidOut => Some(PayoutCompleteAsk(trade, ref))
      case Bounced => Some(PayoutFailedAsk(trade, ref, "graph payout failed with status " + status))
      case _ => None
  }

  /** An answer the lookup by payout reference may give. */
  predicate AnswersPayout(s: Store, payout: string, target: Option<string>) {
    match target
    case None => forall id <- s.trades :: s.trades[id].payoutId != Some(payout)
    case Some(h) =>
      h in s.trades && s.trades[h].payoutId == Some(payout)
      && forall id <- s.trades :: s.trades[id].payoutId == Some(payout) ==> s.trades[id].updatedAt <= s.trades[h].updatedAt
  }

  function WebhookAsk(w: World, event: string, payout: string, target: Option<string>, news: PayoutNews, note: string): Option<Ask> {
    if event in w.events || payout == "" || !AnswersPayout(w.db, payout, target) || target.None? then None
    else match news
      case PaidOut => Some(PayoutCompleteAsk(target.value, payout))
      case Bounced => Some(PayoutFailedAsk(target.value, payout, note))
      case StillPending =>
        if w.db.trades[target.value].status == PayoutPending then None else Some(PayoutPendingAsk(target.value, payout))
      case Unclear => None
  }

  // -- users

  function RaiseAsk(s: Store, trade: string, note: string): Option<Ask> {
    if trade !in s.trades then None
    else Some(Ask(trade, Dispute, BLANK.(reason := Some(note), byUser := true)))
  }

  /** The status change a step asks for, if any. */
  function AskOf(cfg: Config, w: World, step: Step): Option<Ask> {
    match step
    case Watch(trade, seen, holder, tick) => WatchAsk(cfg, w.db, trade, seen, holder, tick.now)
    case Backfill(trade, seen, holder, tick) => BackfillAsk(cfg, w.db, trade, seen, holder)
    case Sell(trade, answer, tick) => SellAsk(w, trade, answer)
    case FinishSale(trade, order, note, tick) => EndSaleAsk(w, trade, order, note, ConversionCompleted, "conversion_completed:")
    case FailSale(trade, order, note, tick) => EndSaleAsk(w, trade, order, note, Dispute, "conversion_failed_dispute:")
    case RecoverSale(trade, tick) => RecoverAsk(w.db, trade, tick.now)
    case StartPayout(trade, answer, tick) => StartPayoutAsk(w.db, trade, answer)
    case PollPayout(trade, news, status, tick) => PollPayoutAsk(w.db, trade, news, status)
    case Webhook(event, payout, target, news, note, tick) => WebhookAsk(w, event, payout, target, news, note)
    case RaiseDispute(trade, note, tick) => RaiseAsk(w.db, trade, note)
    case _ => None
  }

  // ------------------------------------------------------------------ quotes and new trades

  const QUOTE_TTL := 120
  const DEPOSIT_WINDOW := 1800

  function FallbackCryptoPrice(c: Currency): real {
    match c
    case BTC => 68000.0
    case ETH => 3200.0
    case _ => 1.0
  }

  function UnitOf(c: Currency): Option<int> {
    match c
    case BTC => Some(100_000_000)
    case ETH => Some(1_000_000_000_000_000_000)
    case USDC => Some(1_000_000)
    case USDT => Some(1_000_000)
    case _ => None
  }

  function Priced(amount: int, unit: int, asset: Currency, price: Price): Pricing.Amounts
    requires unit > 0
  {
    match price
    case LivePrice(crypto, fiat) => Pricing.Live(amount, unit, crypto, fiat)
    case FallbackPrice => Pricing.Fallback(amount, unit, FallbackCryptoPrice(asset))
  }

  predicate PositivePrice(price: Price) {
    price.LivePrice? ==> price.crypto >= 0.0 && price.fiat >= 0.0
  }

  /** A new quote for a supported asset, a positive amount and prices that are not negative. */
  function Offered(s: Store, quote: string, user: string, asset: Currency, amount: int, price: Price, now: int): Store {
    if quote in s.quotes || amount <= 0 || UnitOf(asset).None? || !PositivePrice(price) then s
    else
      var a := Priced(amount, UnitOf(asset).value, asset, price);
      s.(quotes := s.quotes[quote := Quote(user, asset, NGN, amount, a.gross, a.fee, a.net, now + QUOTE_TTL, None, None)])
  }

  function Lapsed(s: Store, quote: string, now: int): Store {
    if quote in s.quotes && s.quotes[quote].acceptedAt.None? && s.quotes[quote].expiredAt.None? && s.quotes[quote].validUntil <= now
    then s.(quotes := s.quotes[quote := s.quotes[quote].(expiredAt := Some(now))])
    else s
  }

  predicate IsHex(c: char) {
    IsDigit(c) || 'a' <= c <= 'f'
  }

  // The characters of a UUID from position i on: dashes at four places, hexadecimal digits elsewhere.
  predicate UuidFrom(id: string, i: nat)
    decreases |id| - i
  {
    i >= |id| || ((if i in {8, 13, 18, 23} then id[i] == '-' else IsHex(id[i])) && UuidFrom(id, i + 1))
  }

  /** A trade's identifier: a UUID in lower case. */
  predicate UuidText(id: string) {
    |id| == 36 && UuidFrom(id, 0)
  }

  /** Identifiers are drawn as UUIDs. */
  ghost predicate Uuids(cfg: Config) {
    forall id :: cfg.isId(id) ==> UuidText(id)
  }

  function CreationKey(user: string, quote: string, bank: string): OpKey {
    OpKey(TradeCreation, TrimRight(NormalizeKey("trade_create:" + user + ":" + quote + ":" + bank)))
  }

  predicate MayAccept(cfg: Config, s: Store, user: string, quote: string, bank: string, cleared: bool, now: int) {
    && quote in s.quotes
    && s.quotes[quote].acceptedAt.None? && s.quotes[quote].expiredAt.None? && now <= s.quotes[quote].validUntil
    && s.quotes[quote].user == user
    && bank in cfg.banks && cfg.banks[bank] == user
    && cleared
  }

  function NewTrade(q: Quote, quote: string, bank: string, address: string, authorized: bool, now: int): Trade {
    Trade(q.user, quote, bank, PendingDeposit, q.from, q.to, q.fromAmount, q.net, None, q.fee,
          address, None, None, None, None, None, authorized, None, now + DEPOSIT_WINDOW, None, now)
  }

  function Accepted(cfg: Config, s: Store, trade: string, user: string, quote: string, bank: string, cleared: bool,
                    address: string, authorized: bool, now: int): Store {
    if !MayAccept(cfg, s, user, quote, bank, cleared, now) || !cfg.isId(trade) || trade in s.trades
       || CreationKey(user, quote, bank) in s.keys then s
    else
      var q := s.quotes[quote];
      s.(quotes := s.quotes[quote := q.(acceptedAt := Some(now))],
         trades := s.trades[trade := NewTrade(q, quote, bank, address, authorized, now)],
         keys := s.keys[CreationKey(user, quote, bank) := trade],
         history := s.history[trade := [Change(None, PendingDeposit)]])
  }

  // ------------------------------------------------------------------ resolutions

  /** Where a retry sends a trade: back to the payout as soon as anything of a sale or payout is recorded. */
  function RetryStatus(t: Trade): Status {
    if t.orderId.Some? || t.toActual.Some? || t.payoutId.Some? || t.conversionId.Some? then ConversionCompleted
    else DepositConfirmed
  }

  function ForcedRef(trade: string, t: Trade): string {
    if Given(t.payoutId).Some? then Given(t.payoutId).value
    else "ADMIN-FORCED-" + Upper(if |trade| >= 8 then trade[..8] else trade)
  }

  /** The status change a resolution makes. */
  function ResolutionAsk(trade: string, t: Trade, disputed: string, mode: Mode, note: string): Ask {
    match mode
    case RetryProcessing =>
      Ask(trade, RetryStatus(t), BLANK.(reason := Some(FirstNonBlank(Trim(note), disputed)), clearReason := true))
    case CloseNoPayout =>
      Ask(trade, DisputeClosed,
          BLANK.(reason := Some(if Trim(note) == "" then "Closed without payout by admin review" else Trim(note))))
    case ForceComplete =>
      Ask(trade, PayoutCompleted,
          BLANK.(payoutRef := Some(ForcedRef(trade, t)), toAmountActual := Some(t.toExpected),
                 reason := Some(FirstNonBlank(Trim(note), "Payout marked complete by admin")), clearReason := true))
  }

  /** A retry after the sale forgets the payout that went wrong. */
  function Reopened(s: Store, trade: string, mode: Mode, now: int): Store {
    if trade in s.trades && mode == RetryProcessing && RetryStatus(s.trades[trade]) == ConversionCompleted
    then s.(trades := s.trades[trade := s.trades[trade].(payoutId := None, completedAt := None, updatedAt := now)])
    else s
  }

  function Closed(k: Ticket, mode: Mode, note: string, resolver: string, now: int): Ticket {
    k.(resolution := Some(Resolution(mode, if Trim(note) == "" then None else Some(Trim(note)),
                                     if Trim(resolver) == "" then "admin" else Trim(resolver), now)))
  }

  predicate MayResolve(s: Store, ticket: nat, mode: Option<Mode>) {
    && ticket < |s.tickets| && IsOpen(s.tickets[ticket]) && s.tickets[ticket].trade in s.trades
    && mode.Some?
  }

  function WithClosed(s: Store, ticket: nat, mode: Mode, note: string, resolver: string, now: int): Store {
    if ticket < |s.tickets| then s.(tickets := s.tickets[ticket := Closed(s.tickets[ticket], mode, note, resolver, now)]) else s
  }

  /** The status change a resolution asks for, if it may be made: judged on the trade as it was read. */
  function ResolveAsk(s: Store, ticket: nat, mode: Option<Mode>, note: string): Option<Ask> {
    if !MayResolve(s, ticket, mode) then None
    else
      var k := s.tickets[ticket];
      Some(ResolutionAsk(k.trade, s.trades[k.trade], k.reason, mode.value, note))
  }

  /** The tables the change is made on. */
  function ResolveGround(s: Store, ticket: nat, mode: Option<Mode>, now: int): Store {
    if MayResolve(s, ticket, mode) then Reopened(s, s.tickets[ticket].trade, mode.value, now) else s
  }

  /** One admin call: unless the change is refused, the ticket is closed, even when the change was recognised as a
      repeat and ignored. */
  function Resolved(s: Store, ticket: nat, mode: Option<Mode>, note: string, resolver: string, tick: Tick): Store {
    match ResolveAsk(s, ticket, mode, note)
    case None => s
    case Some(ask) =>
      var ground := ResolveGround(s, ticket, mode, tick.now);
      var o := Update(ground, ask.trade, ask.to, ask.meta, tick);
      if o.Refused? then s else WithClosed(Settle(ground, o), ticket, mode.value, note, resolver, tick.now)
  }

  // ------------------------------------------------------------------ the machine

  /** The status change a step asks for, an admin's resolution included. */
  function Wanted(cfg: Config, w: World, step: Step): Option<Ask> {
    if step.Resolve? then ResolveAsk(w.db, step.ticket, step.mode, step.note) else AskOf(cfg, w, step)
  }

  /** The tables it is made on. */
  function Ground(w: World, step: Step): Store {
    if step.Resolve? then ResolveGround(w.db, step.ticket, step.mode, step.tick.now) else w.db
  }

  function OutcomeOf(cfg: Config, w: World, step: Step): Outcome {
    match Wanted(cfg, w, step)
    case None => Duplicate
    case Some(ask) => Update(Ground(w, step), ask.trade, ask.to, ask.meta, step.tick)
  }

  function NextDb(cfg: Config, w: World, step: Step): Store {
    match step
    case Offer(quote, user, asset, amount, price, tick) => Offered(w.db, quote, user, asset, amount, price, tick.now)
    case Lapse(quote, tick) => Lapsed(w.db, quote, tick.now)
    case Accept(trade, user, quote, bank, cleared, address, authorized, tick) =>
      Accepted(cfg, w.db, trade, user, quote, bank, cleared, address, authorized, tick.now)
    case Resolve(ticket, mode, note, resolver, tick) => Resolved(w.db, ticket, mode, note, resolver, tick)
    case _ => Settle(w.db, OutcomeOf(cfg, w, step))
  }

  /** Whether the conversion worker reaches this trade at all. */
  predicate ForSale(s: Store, trade: string) {
    trade in s.trades && s.trades[trade].status == DepositConfirmed
  }

  function NextSales(w: World, step: Step): seq<Sale> {
    if step.Sell? && step.answer.Sold? && ForSale(w.db, step.trade) then w.sales + [Sale(step.trade, Trim(step.answer.order))] else w.sales
  }

  function NextAttempts(cfg: Config, w: World, step: Step): map<string, nat> {
    match step
    case Sell(trade, answer, tick) =>
      if !ForSale(w.db, trade) then w.attempts
      else (match answer
        case Sold(_, _) => w.attempts - {trade}
        case Hopeless(_) => if OutcomeOf(cfg, w, step).Refused? then w.attempts else w.attempts - {trade}
        case TryAgain(_) =>
          var counted := w.attempts[trade := Attempts(w, trade) + 1];
          if counted[trade] < MAX_ATTEMPTS || OutcomeOf(cfg, w, step).Refused? then counted else counted - {trade})
    case RecoverSale(trade, tick) =>
      if AskOf(cfg, w, step).None? || OutcomeOf(cfg, w, step).Refused? then w.attempts else w.attempts - {trade}
    case _ => w.attempts
  }

  function NextEvents(w: World, step: Step): set<string> {
    if step.Webhook? then w.events + {step.event} else w.events
  }

  function Next(cfg: Config, w: World, step: Step): World {
    World(NextDb(cfg, w, step), NextSales(w, step), NextAttempts(cfg, w, step), NextEvents(w, step))
  }

  /** Where a run of steps leads. */
  function Run(cfg: Config, steps: seq<Step>): World {
    if steps == [] then START else Next(cfg, Run(cfg, steps[..|steps| - 1]), steps[|steps| - 1])
  }

  /** Where steps lead from a world. */
  function RunFrom(cfg: Config, w: World, steps: seq<Step>): World {
    if steps == [] then w else Next(cfg, RunFrom(cfg, w, steps[..|steps| - 1]), steps[|steps| - 1])
  }

  /** The first k steps. */
  function Upto(steps: seq<Step>, k: int): seq<Step> {
    if k <= 0 then [] else if k <= |steps| then steps[..k] else steps
  }

  /** The world after the first k steps of a run. */
  function After(cfg: Config, steps: seq<Step>, k: int): World {
    Run(cfg, Upto(steps, k))
  }

  predicate IsAt(steps: seq<Step>, i: int, step: Step) {
    0 <= i < |steps| && steps[i] == step
  }

  lemma RunStep(cfg: Config, steps: seq<Step>, i: int, step: Step)
    requires IsAt(steps, i, step)
    ensures After(cfg, steps, i + 1) == Next(cfg, After(cfg, steps, i), step)
  {
    hide Next;
    assert steps[..i + 1][..i] == steps[..i];
  }

  lemma RunWhole(cfg: Config, steps: seq<Step>)
    ensures After(cfg, steps, |steps|) == Run(cfg, steps)
  {
    hide Run;
    assert steps[..|steps|] == steps;
  }

  lemma RunLast(cfg: Config, steps: seq<Step>)
    requires steps != []
    ensures Run(cfg, steps) == Next(cfg, Run(cfg, steps[..|steps| - 1]), steps[|steps| - 1])
  {
    hide Next;
  }
}
