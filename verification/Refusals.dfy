/** What the width of the ledger's key column refuses: row keys are built from operation keys, and operation keys from
    transaction hashes, order identifiers and the free text of reasons, so long ones make the change impossible. */
module Refusals {
  import opened Wrappers
  import opened Text
  import opened Lifecycle
  import opened Ledger
  import opened Store
  import opened Steps
  import opened Asks
  import opened LedgerKeys
  import opened LedgerRuns
  import opened Quotes
  import opened Sales

  // ------------------------------------------------------------------ how long a key is

  function Least(a: int, b: int): int {
    if a <= b then a else b
  }

  lemma NormalLength(raw: string)
    ensures |NormalizeKey(raw)| == Least(|Trim(raw)|, 255)
  {
    hide Trim, Lower, SpacesToUnderscores;
  }

  // A text that starts visibly, followed by one already trimmed on the right, loses nothing.
  lemma TrimJoined(head: string, tail: string)
    requires head != "" && !IsSpace(head[0]) && !IsSpace(head[|head| - 1])
    ensures Trim(head + tail) == head + TrimRight(tail)
  {
    var s := head + tail;
    assert s[0] == head[0];
    assert TrimLeft(s) == s;
    TrimRightJoined(head, tail);
  }

  lemma TrimRightJoined(head: string, tail: string)
    requires head != "" && !IsSpace(head[|head| - 1])
    ensures TrimRight(head + tail) == head + TrimRight(tail)
  {
    hide IsSpace, TrimRight;
    var s, r := head + tail, head + TrimRight(tail);
    TrimRightIs(tail);
    TrimRightIs(s);
    assert s[|head| - 1] == head[|head| - 1];
    assert |TrimRight(s)| >= |head|;
    assert forall i :: |head| <= i < |s| ==> s[i] == tail[i - |head|];
    assert TrimRight(tail) != "" ==> !IsSpace(s[|r| - 1]);
    assert |TrimRight(s)| > |head| ==> !IsSpace(tail[|TrimRight(s)| - 1 - |head|]);
  }

  lemma FoldedIsTrimmed(x: string)
    ensures TrimRight(Folded(x)) == Folded(x) && |Folded(x)| == |Trim(x)|
  {
    var f := Folded(x);
    TrimIs(x);
    if f != "" {
      var t := Trim(x);
      assert f[|f| - 1] == LowerChar(t[|t| - 1]);
    }
  }

  /** Length of a key filed under a prefix, a trade and a folded text. */
  lemma FiledLength(head: string, x: string)
    requires head != "" && !IsSpace(head[0]) && !IsSpace(head[|head| - 1])
    ensures |NormalizeKey(head + Folded(x))| == Least(|head| + |Trim(x)|, 255)
  {
    hide *;
    FoldedIsTrimmed(x);
    TrimJoined(head, Folded(x));
    NormalLength(head + Folded(x));
  }

  /** Prefixes of operation keys: visible lower-case text. */
  predicate Prefix(p: string) {
    p != "" && KeyText(p) && !IsSpace(p[0])
  }

  lemma FiledHead(prefix: string, trade: string)
    requires Prefix(prefix) && UuidText(trade)
    ensures var head := prefix + trade + ":"; |head| == |prefix| + 37 && !IsSpace(head[0]) && !IsSpace(head[|head| - 1])
  {
    hide UuidText, IsSpace, KeyText;
    UuidIsKeyText(trade);
    var head := prefix + trade + ":";
    assert head[0] == prefix[0] && head[|head| - 1] == ':';
    assert !IsSpace(':') by { hide *; ColonIsVisible(); }
  }

  lemma ColonIsVisible()
    ensures !IsSpace(':') && !IsSpace('=')
  {
  }

  lemma ExplicitKey(trade: string, to: Status, m: Metadata, raw: string)
    requires m.key == Some(raw) && NormalizeKey(raw) != ""
    ensures OperationKey(trade, to, m) == NormalizeKey(raw)
  {
    hide NormalizeKey, DefaultKey;
  }

  /** The row keys of a posting filed under a prefix, a trade and a text are too long exactly when the prefix, the
      text and the kind together exceed 84 characters. */
  lemma FiledTooLongIff(prefix: string, trade: string, x: string, to: Status, m: Metadata, kind: Kind)
    requires Prefix(prefix) && UuidText(trade) && m.key == Filed(prefix, trade, Folded(x))
    ensures TooLong(OperationKey(trade, to, m), kind) <==> |prefix| + |Trim(x)| + |kind.KeyText()| > 84
  {
    hide Prefix, UuidText, NormalizeKey, Folded, Trim, IsSpace, Kind.KeyText, OperationKey;
    FiledHead(prefix, trade);
    var head := prefix + trade + ":";
    FiledLength(head, x);
    ExplicitKey(trade, to, m, head + Folded(x));
    CreditLength();
    hide Direction.KeyText;
  }

  lemma CreditLength()
    ensures |Credit.KeyText()| == 7
  {
  }

  // ------------------------------------------------------------------ when a change is too wide

  lemma OneOverlong(p: Posting, opKey: string)
    ensures Overlong([p], opKey) <==> p.amount > 0 && TooLong(opKey, p.kind)
  {
    hide TooLong;
    var ps := [p];
    if p.amount > 0 && TooLong(opKey, p.kind) {
      assert ps[0].amount > 0 && TooLong(opKey, ps[0].kind);
    }
  }

  /** The posting of a change whose row keys are the longest; a conversion's is the asset's. */
  function MainKind(to: Status): Kind {
    match to
    case ConversionCompleted => ConversionAsset
    case PayoutCompleted => Payout
    case PayoutFailed => PayoutFailedReserve
    case Dispute => DisputeAdjustment
    case _ => Deposit
  }

  function MainAmount(t: Trade, to: Status, m: Metadata): int {
    match to
    case DepositConfirmed => t.fromAmount
    case ConversionCompleted => t.fromAmount
    case PayoutCompleted => ResolvePayoutAmount(t, m)
    case PayoutFailed => ResolvePayoutAmount(t, m)
    case Dispute => DisputeAmount(t, m)
    case _ => 0
  }

  lemma ConversionOverlong(t: Trade, m: Metadata, opKey: string)
    requires t.fromAmount > 0
    ensures Overlong(PostingsFor(t, ConversionCompleted, m), opKey) <==> TooLong(opKey, ConversionAsset)
  {
    KindLengths();
    var ps := PostingsFor(t, ConversionCompleted, m);
    assert ps[0].kind == ConversionAsset && forall p <- ps :: p.kind in {ConversionAsset, ConversionFiat, PlatformFee, FxSpread, ExpressFee};
    hide Kind.KeyText, Direction.KeyText;
    if TooLong(opKey, ConversionAsset) {
      assert TooLong(opKey, ps[0].kind);
    }
  }

  lemma OverlongIff(t: Trade, to: Status, m: Metadata, opKey: string)
    requires t.fromAmount > 0
    ensures Overlong(PostingsFor(t, to, m), opKey) <==> MainAmount(t, to, m) > 0 && TooLong(opKey, MainKind(to))
  {
    hide Overlong, TooLong, ResolvePayoutAmount, DisputeAmount;
    if to == ConversionCompleted {
      ConversionOverlong(t, m, opKey);
    } else if PostingsFor(t, to, m) == [] {
      assert !Overlong([], opKey) by { NothingOverlong(opKey); }
    } else {
      OneOverlong(PostingsFor(t, to, m)[0], opKey);
    }
  }

  lemma NothingOverlong(opKey: string)
    ensures !Overlong([], opKey)
  {
    hide TooLong;
  }

  lemma KindLengths()
    ensures |Deposit.KeyText()| == 8 && |Payout.KeyText()| == 7 && |DisputeAdjustment.KeyText()| == 8 && |ConversionAsset.KeyText()| == 17
    ensures |PayoutFailedReserve.KeyText()| == 14 && |Credit.KeyText()| == 7
    ensures forall k :: k in {ConversionAsset, ConversionFiat, PlatformFee, FxSpread, ExpressFee} ==> |k.KeyText()| <= 17
  {
  }

  lemma StatusLengths()
    ensures |Status.Dispute.KeyText()| == 7 && |DepositConfirmed.KeyText()| == 17 && |ConversionCompleted.KeyText()| == 20
    ensures |PayoutCompleted.KeyText()| == 16 && |DepositReceived.KeyText()| == 16
    ensures forall to: Status :: |to.KeyText()| <= 22
  {
  }

  /** What the notification of a change spells out: the transaction of a deposit, the reference of a payout. */
  function Announced(t: Trade, to: Status, m: Metadata): string {
    match to
    case DepositReceived => TextOf(Given(m.txHash))
    case PayoutCompleted => TextOf(Coalesce(Given(m.payoutRef), Given(t.payoutId)))
    case _ => ""
  }

  lemma NoticeFitsIff(trade: string, t: Trade, to: Status, m: Metadata)
    requires |trade| == 36
    ensures NoticeFits(trade, t, to, m) <==> |Announced(t, to, m)| <= 74
  {
    StatusLengths();
    hide Given, Status.KeyText;
  }

  /** A change that is permitted and whose key is new. */
  predicate Ready(s: Store, id: string, to: Status, m: Metadata) {
    id in s.trades && Allowed(s.trades[id].status, to) && KeyOf(id, to, m) !in s.keys
  }

  /** Where a change posts something for the trade. */
  predicate Owes(s: Store, id: string, to: Status, m: Metadata) {
    id in s.trades && MainAmount(s.trades[id], to, m) > 0
  }

  predicate NoticeLong(s: Store, id: string, to: Status, m: Metadata) {
    id in s.trades && |Announced(s.trades[id], to, m)| > 74
  }

  // ------------------------------------------------------------------ what must hold of a trade

  /** What every reachable state gives the argument. */
  ghost predicate Healthy(s: Store) {
    Sound(s) && NoResale(s) && Quoted(s)
  }

  lemma {:induction false} RunIsHealthy(cfg: Config, steps: seq<Step>)
    requires Uuids(cfg)
    ensures Healthy(Run(cfg, steps).db)
  {
    hide Run, Sound, NoResale, Quoted, Uuids;
    RunIsSound(cfg, steps);
    RunNoResale(cfg, steps);
    RunIsQuoted(cfg, steps);
  }

  /** What of it the argument uses, also where a resolution has begun. */
  ghost predicate Fine(s: Store, id: string) {
    Sound(s) && UuidText(id) && id in s.trades && s.trades[id].fromAmount > 0
  }

  lemma HealthyIsFine(s: Store, id: string)
    requires Healthy(s)
    ensures id in s.trades ==> Fine(s, id)
  {
    hide UuidText, SoldAndPast, ProceedsRight, Sound;
    if id in s.trades {
      assert Backed(s, s.trades[id]) && FairQuote(s.quotes[s.trades[id].quote]);
    }
  }

  /** A permitted change under a new key is refused exactly when a text is too wide for its column, for its notification
      or for the row keys of what it posts. */
  lemma RefusedIff(s: Store, id: string, to: Status, m: Metadata, tick: Tick)
    requires Fine(s, id) && Ready(s, id, to, m)
    ensures Update(s, id, to, m, tick).Refused?
       <==> !FitsRow(m) || NoticeLong(s, id, to, m) || (!m.skipLedger && Owes(s, id, to, m) && TooLong(OperationKey(id, to, m), MainKind(to)))
  {
    hide Sound, UuidText, KeyOf, FitsRow, NoticeFits, Allowed, Update, Overlong, OperationKey, PostingsFor, MainAmount, MainKind, TooLong, Announced;
    UuidIsKeyText(id);
    UpdateRefusedIff(s, id, to, m, tick);
    OverlongIff(s.trades[id], to, m, OperationKey(id, to, m));
    NoticeFitsIff(id, s.trades[id], to, m);
  }

  // ------------------------------------------------------------------ changes filed under a text

  // A reference that is trimmed before it is stored fits its column when its visible part does.
  lemma TrimFits(x: string)
    requires Trim(Trim(x)) == Trim(x)
    ensures FitsColumn(Given(Some(x))) <==> |Trim(x)| <= COLUMN_WIDTH
    ensures FitsColumn(Given(Some(Trim(x)))) <==> |Trim(x)| <= COLUMN_WIDTH
    ensures |TextOf(Given(Some(x)))| == |Trim(x)| && |TextOf(Given(Some(Trim(x))))| == |Trim(x)|
  {
    hide Trim;
  }

  /** Metadata filed under a prefix and a text that is also stored, and posting to the ledger. */
  predicate FiledAs(m: Metadata, prefix: string, id: string, x: string) {
    Prefix(prefix) && m.key == Filed(prefix, id, Folded(x)) && !m.skipLedger && (FitsRow(m) <==> |Trim(x)| <= COLUMN_WIDTH)
  }

  /** Such a change is refused by the length of the text alone. */
  lemma FiledRefusedIff(s: Store, id: string, to: Status, m: Metadata, prefix: string, x: string, tick: Tick)
    requires Healthy(s) && Ready(s, id, to, m) && FiledAs(m, prefix, id, x)
    ensures Update(s, id, to, m, tick).Refused?
       <==> |Trim(x)| > 128 || NoticeLong(s, id, to, m) || (Owes(s, id, to, m) && |prefix| + |Trim(x)| + |MainKind(to).KeyText()| > 84)
  {
    hide Healthy, UuidText, Sound, KeyOf, FitsRow, Allowed, Update, OperationKey, MainKind, MainAmount, TooLong, Trim, Prefix, Folded, Filed, Kind.KeyText,
         NoticeLong, Owes;
    HealthyIsFine(s, id);
    RefusedIff(s, id, to, m, tick);
    FiledTooLongIff(prefix, id, x, to, m, MainKind(to));
  }

  // ------------------------------------------------------------------ deposits

  /** What the backfill scanner passes along with a deposit. */
  function Backfilled(trade: string, hash: string): Metadata {
    BackfillNote("backfill_deposit_confirmed:", trade, hash, "backfill confirmed deposit")
  }

  function BackfillSeen(trade: string, hash: string): Metadata {
    BackfillNote("backfill_deposit_detected:", trade, hash, "backfill detected deposit")
  }

  lemma NoteIsFiled(prefix: string, id: string, hash: string, reason: string)
    requires Prefix(prefix)
    ensures FiledAs(DepositNote(prefix, id, hash), prefix, id, hash) && FiledAs(BackfillNote(prefix, id, hash, reason), prefix, id, hash)
    ensures |TextOf(Given(DepositNote(prefix, id, hash).txHash))| == |Trim(hash)|
    ensures |TextOf(Given(BackfillNote(prefix, id, hash, reason).txHash))| == |Trim(hash)|
  {
    TrimTwice(hash);
    TrimFits(hash);
    hide Trim, Filed, Folded, Prefix;
  }

  lemma DepositPrefixes()
    ensures Prefix("deposit_confirmed:") && |"deposit_confirmed:"| == 18
    ensures Prefix("backfill_deposit_confirmed:") && |"backfill_deposit_confirmed:"| == 27
    ensures Prefix("deposit_detected:") && |"deposit_detected:"| == 17
    ensures Prefix("backfill_deposit_detected:") && |"backfill_deposit_detected:"| == 26
  {
  }

  lemma ReceivedNotice(s: Store, id: string, m: Metadata)
    ensures NoticeLong(s, id, DepositReceived, m) <==> id in s.trades && |TextOf(Given(m.txHash))| > 74
    ensures !NoticeLong(s, id, DepositConfirmed, m) && !Owes(s, id, DepositReceived, m)
  {
    hide Given;
  }

  /** A deposit whose transaction hash is long is never received: in every reachable state (`RunIsHealthy`), under a new
      key, receiving it is refused exactly when the hash has more than 74 characters, whoever sees it, because the
      notification written along does not fit. */
  lemma ReceivingRefusedIff(s: Store, id: string, hash: string, tick: Tick)
    requires Healthy(s)
    ensures var m := DepositNote("deposit_detected:", id, hash);
            Ready(s, id, DepositReceived, m) ==> (Update(s, id, DepositReceived, m, tick).Refused? <==> |Trim(hash)| > 74)
    ensures var m := BackfillSeen(id, hash);
            Ready(s, id, DepositReceived, m) ==> (Update(s, id, DepositReceived, m, tick).Refused? <==> |Trim(hash)| > 74)
  {
    DepositPrefixes();
    hide Healthy, Ready, Update, Trim, Prefix, FiledAs, NoticeLong, Owes, DepositNote, BackfillNote, Given, Kind.KeyText, MainKind;
    NoteIsFiled("deposit_detected:", id, hash, "");
    NoteIsFiled("backfill_deposit_detected:", id, hash, "backfill detected deposit");
    var m, n := DepositNote("deposit_detected:", id, hash), BackfillSeen(id, hash);
    ReceivedNotice(s, id, m);
    ReceivedNotice(s, id, n);
    if Ready(s, id, DepositReceived, m) {
      ReadyExists(s, id, DepositReceived, m);
      FiledRefusedIff(s, id, DepositReceived, m, "deposit_detected:", hash, tick);
    }
    if Ready(s, id, DepositReceived, n) {
      ReadyExists(s, id, DepositReceived, n);
      FiledRefusedIff(s, id, DepositReceived, n, "backfill_deposit_detected:", hash, tick);
    }
  }

  lemma ReadyExists(s: Store, id: string, to: Status, m: Metadata)
    requires Ready(s, id, to, m)
    ensures id in s.trades
  {
    hide KeyOf, Allowed;
  }

  lemma DepositOwed(s: Store, id: string, m: Metadata)
    requires Healthy(s) && id in s.trades
    ensures Owes(s, id, DepositConfirmed, m) && Owes(s, id, ConversionCompleted, m)
    ensures MainKind(DepositConfirmed) == Deposit && MainKind(ConversionCompleted) == ConversionAsset
  {
    hide Healthy, Sound, UuidText;
    HealthyIsFine(s, id);
  }

  /** A received deposit can never be confirmed when its transaction hash is long: under a new key, confirming it is
      refused exactly when the hash has more than 58 characters (seen by the watcher) or 49 (by the backfill scanner).
      A hash of 64 hexadecimal digits is always refused. */
  lemma ConfirmationRefusedIff(s: Store, id: string, hash: string, tick: Tick)
    requires Healthy(s)
    ensures var m := DepositNote("deposit_confirmed:", id, hash);
            Ready(s, id, DepositConfirmed, m) ==> (Update(s, id, DepositConfirmed, m, tick).Refused? <==> |Trim(hash)| > 58)
    ensures var m := Backfilled(id, hash);
            Ready(s, id, DepositConfirmed, m) ==> (Update(s, id, DepositConfirmed, m, tick).Refused? <==> |Trim(hash)| > 49)
  {
    DepositPrefixes();
    KindLengths();
    hide Healthy, Ready, Update, Trim, Prefix, FiledAs, NoticeLong, Owes, DepositNote, BackfillNote, Given, Kind.KeyText, MainKind;
    NoteIsFiled("deposit_confirmed:", id, hash, "");
    NoteIsFiled("backfill_deposit_confirmed:", id, hash, "backfill confirmed deposit");
    var m, n := DepositNote("deposit_confirmed:", id, hash), Backfilled(id, hash);
    ReceivedNotice(s, id, m);
    ReceivedNotice(s, id, n);
    if Ready(s, id, DepositConfirmed, m) {
      ReadyExists(s, id, DepositConfirmed, m);
      DepositOwed(s, id, m);
      FiledRefusedIff(s, id, DepositConfirmed, m, "deposit_confirmed:", hash, tick);
    }
    if Ready(s, id, DepositConfirmed, n) {
      ReadyExists(s, id, DepositConfirmed, n);
      DepositOwed(s, id, n);
      FiledRefusedIff(s, id, DepositConfirmed, n, "backfill_deposit_confirmed:", hash, tick);
    }
  }

  // ------------------------------------------------------------------ sales

  lemma SalePrefixes()
    ensures Prefix("conversion_completed:") && |"conversion_completed:"| == 21
    ensures Prefix("conversion_failed_dispute:") && |"conversion_failed_dispute:"| == 26
    ensures Prefix("conversion_reconcile_timeout:") && |"conversion_reconcile_timeout:"| == 29
  {
  }

  /** What the worker passes along with the end of a sale. */
  function SaleEnd(prefix: string, trade: string, order: string, note: string): Metadata {
    BLANK.(orderId := Some(Trim(order)), reason := Some(note), key := Filed(prefix, trade, Folded(order)))
  }

  function SaleDone(trade: string, order: string, note: string): Metadata {
    SaleEnd("conversion_completed:", trade, order, note)
  }

  lemma SaleIsFiled(prefix: string, id: string, order: string, note: string)
    requires Prefix(prefix)
    ensures FiledAs(SaleEnd(prefix, id, order, note), prefix, id, order)
  {
    TrimTwice(order);
    TrimFits(order);
    hide Trim, Filed, Folded, Prefix;
  }

  lemma QuietNotice(s: Store, id: string, to: Status, m: Metadata)
    requires to != DepositReceived && to != PayoutCompleted
    ensures !NoticeLong(s, id, to, m)
  {
  }

  /** A sale under way can be completed, under a new key, exactly when the order identifier has no more than 46
      characters. */
  lemma CompletionRefusedIff(s: Store, id: string, order: string, note: string, tick: Tick)
    requires Healthy(s)
    ensures var m := SaleDone(id, order, note);
            Ready(s, id, ConversionCompleted, m) ==> (Update(s, id, ConversionCompleted, m, tick).Refused? <==> |Trim(order)| > 46)
  {
    SalePrefixes();
    KindLengths();
    hide Healthy, Ready, Update, Trim, Prefix, FiledAs, NoticeLong, Owes, SaleEnd, Kind.KeyText, MainKind;
    SaleIsFiled("conversion_completed:", id, order, note);
    var m := SaleDone(id, order, note);
    QuietNotice(s, id, ConversionCompleted, m);
    if Ready(s, id, ConversionCompleted, m) {
      ReadyExists(s, id, ConversionCompleted, m);
      DepositOwed(s, id, m);
      FiledRefusedIff(s, id, ConversionCompleted, m, "conversion_completed:", order, tick);
    }
  }

  // A dispute over a sale, filed under its order.
  lemma SaleDisputeRefusedIff(s: Store, id: string, prefix: string, order: string, note: string, tick: Tick)
    requires Healthy(s) && Prefix(prefix)
    ensures var m := SaleEnd(prefix, id, order, note);
            Ready(s, id, Dispute, m) && Owes(s, id, Dispute, m) ==>
              (Update(s, id, Dispute, m, tick).Refused? <==> |Trim(order)| > 128 || |prefix| + |Trim(order)| > 76)
  {
    KindLengths();
    hide Healthy, Ready, Update, Trim, Prefix, FiledAs, NoticeLong, Owes, SaleEnd, Kind.KeyText;
    SaleIsFiled(prefix, id, order, note);
    var m := SaleEnd(prefix, id, order, note);
    QuietNotice(s, id, Dispute, m);
    if Ready(s, id, Dispute, m) {
      FiledRefusedIff(s, id, Dispute, m, prefix, order, tick);
    }
  }

  /** The dispute the worker asks for over a sale the exchange reports as failed, and over one under way for too long. */
  lemma GivingUpAsks(w: World, id: string, order: string, note: string, now: int)
    ensures var ask := EndSaleAsk(w, id, order, note, Dispute, "conversion_failed_dispute:");
            ask == None || ask == Some(Ask(id, Dispute, SaleEnd("conversion_failed_dispute:", id, order, note)))
    ensures var ask := RecoverAsk(w.db, id, now);
            ask == None || Unsold(w.db, id)
            || ask == Some(Ask(id, Dispute, SaleEnd("conversion_reconcile_timeout:", id, OrderOf(w.db, id),
                                                    "conversion reconciliation timed out; manual review required")))
  {
    hide Trim, Lower;
  }

  /** The order recorded on a trade. */
  function OrderOf(s: Store, id: string): string {
    if id in s.trades && s.trades[id].orderId.Some? then s.trades[id].orderId.value else ""
  }

  predicate Unsold(s: Store, id: string) {
    id in s.trades && Given(s.trades[id].orderId).None?
  }

  /** The requests with which the worker gives up a sale whose order identifier is long go nowhere: where something is to
      be set aside, under a new key, the dispute over a failed sale is refused exactly when the identifier has more than
      50 characters, and the one over a stale sale exactly when the recorded one has more than 47. */
  lemma GivingUpRefusedIff(w: World, id: string, order: string, note: string, now: int, tick: Tick)
    requires Healthy(w.db)
    ensures var ask := EndSaleAsk(w, id, order, note, Dispute, "conversion_failed_dispute:");
            RefusedByLength(w.db, ask, id, tick, |Trim(order)| > 50)
    ensures !Unsold(w.db, id) ==> RefusedByLength(w.db, RecoverAsk(w.db, id, now), id, tick, |Trim(OrderOf(w.db, id))| > 47)
  {
    SalePrefixes();
    GivingUpAsks(w, id, order, note, now);
    hide Healthy, Ready, Update, Trim, Prefix, Owes, SaleEnd, EndSaleAsk, RecoverAsk, Unsold, OrderOf;
    SaleDisputeRefusedIff(w.db, id, "conversion_failed_dispute:", order, note, tick);
    SaleDisputeRefusedIff(w.db, id, "conversion_reconcile_timeout:", OrderOf(w.db, id),
                          "conversion reconciliation timed out; manual review required", tick);
  }

  /** A dispute asked for, if it is, that is permitted, new and worth something is refused exactly when a text is long. */
  predicate RefusedByLength(s: Store, ask: Option<Ask>, id: string, tick: Tick, long: bool) {
    ask.Some? ==>
      var m := ask.value.meta;
      ask.value.trade == id && ask.value.to == Dispute
      && (Ready(s, id, Dispute, m) && Owes(s, id, Dispute, m) ==> (Update(s, id, Dispute, m, tick).Refused? <==> long))
  }

  // ------------------------------------------------------------------ payouts

  lemma PayoutPrefixes()
    ensures Prefix("payout_completed:") && |"payout_completed:"| == 17
    ensures Prefix("payout_failed:") && |"payout_failed:"| == 14
  {
  }

  lemma PayoutIsFiled(id: string, ref: string, reason: string)
    requires Prefix("payout_completed:") && Prefix("payout_failed:")
    ensures FiledAs(PayoutCompleteAsk(id, ref).meta, "payout_completed:", id, ref)
    ensures FiledAs(PayoutFailedAsk(id, ref, reason).meta, "payout_failed:", id, ref)
    ensures PayoutCompleteAsk(id, ref).meta.payoutRef == Some(ref)
  {
    hide Filed, Folded, Prefix, FiledAs;
    RefIsFiled(PayoutCompleteAsk(id, ref).meta, "payout_completed:", id, ref);
    RefIsFiled(PayoutFailedAsk(id, ref, reason).meta, "payout_failed:", id, ref);
  }

  lemma RefIsFiled(m: Metadata, prefix: string, id: string, ref: string)
    requires Prefix(prefix) && m.key == Filed(prefix, id, Folded(ref)) && !m.skipLedger && m.payoutRef == Some(ref)
    requires m.txHash.None? && m.orderId.None? && m.conversionId.None?
    ensures FiledAs(m, prefix, id, ref)
  {
    TrimTwice(ref);
    TrimFits(ref);
    hide Trim, Filed, Folded, Prefix;
  }

  lemma PaidNotice(s: Store, id: string, m: Metadata, ref: string)
    requires m.payoutRef == Some(ref) && Trim(ref) != ""
    ensures NoticeLong(s, id, PayoutCompleted, m) <==> id in s.trades && |Trim(ref)| > 74
  {
    hide Trim;
  }

  /** A payout whose reference is long can be neither completed nor marked as failed: under a new key, completing it is
      refused exactly when the reference has more than 60 characters, or 74 where nothing is owed, and marking it as
      failed exactly when it has more than 56, or 128 where nothing is owed. */
  lemma PayoutRefusedIff(s: Store, id: string, ref: string, reason: string, tick: Tick)
    requires Healthy(s)
    ensures var m := PayoutCompleteAsk(id, ref).meta;
            Ready(s, id, PayoutCompleted, m) && Trim(ref) != "" ==>
              (Update(s, id, PayoutCompleted, m, tick).Refused? <==> |Trim(ref)| > if Owes(s, id, PayoutCompleted, m) then 60 else 74)
    ensures var m := PayoutFailedAsk(id, ref, reason).meta;
            Ready(s, id, PayoutFailed, m) ==>
              (Update(s, id, PayoutFailed, m, tick).Refused? <==> |Trim(ref)| > if Owes(s, id, PayoutFailed, m) then 56 else 128)
  {
    PayoutPrefixes();
    KindLengths();
    hide Healthy, Ready, Update, Trim, Prefix, FiledAs, NoticeLong, Owes, Kind.KeyText, PayoutCompleteAsk, PayoutFailedAsk;
    PayoutIsFiled(id, ref, reason);
    var m, n := PayoutCompleteAsk(id, ref).meta, PayoutFailedAsk(id, ref, reason).meta;
    QuietNotice(s, id, PayoutFailed, n);
    if Ready(s, id, PayoutCompleted, m) && Trim(ref) != "" {
      PaidNotice(s, id, m, ref);
      ReadyExists(s, id, PayoutCompleted, m);
      FiledRefusedIff(s, id, PayoutCompleted, m, "payout_completed:", ref, tick);
    }
    if Ready(s, id, PayoutFailed, n) {
      FiledRefusedIff(s, id, PayoutFailed, n, "payout_failed:", ref, tick);
    }
  }

  /** A payout the provider turns down for good cannot be marked as failed: the table has no way from
      CONVERSION_COMPLETED to PAYOUT_FAILED, so nothing is written and the payout is tried again. */
  lemma RejectedPayoutChangesNothing(cfg: Config, w: World, id: string, error: string, tick: Tick)
    ensures Next(cfg, w, StartPayout(id, Rejected(error), tick)) == w
  {
    hide Trim, KeyOf, FitsRow, Posted, Commit;
  }

  // ------------------------------------------------------------------ default keys

  lemma DefaultKeyOf(trade: string, to: Status, m: Metadata, parts: string)
    requires m.key.None? && Parts(m) == parts != ""
    ensures OperationKey(trade, to, m) == NormalizeKey("trade:" + to.KeyText() + ":" + trade + parts)
  {
    hide NormalizeKey, Parts, Status.KeyText;
  }

  /** Length of a default key that ends in a free text. */
  lemma DefaultLength(trade: string, to: Status, m: Metadata, mid: string, text: string)
    requires UuidText(trade) && m.key.None? && mid != "" && mid[|mid| - 1] == '=' && Parts(m) == mid + text
    ensures |OperationKey(trade, to, m)| == Least(|to.KeyText()| + 43 + |mid| + |TrimRight(text)|, 255)
  {
    hide NormalizeKey, UuidText, Parts, Status.KeyText, IsSpace, TrimRight, OperationKey;
    DefaultKeyOf(trade, to, m, mid + text);
    UuidIsKeyText(trade);
    var front := "trade:" + to.KeyText() + ":" + trade;
    var head := front + mid;
    EndsVisibly(front, mid);
    StartsVisibly(to, ":" + trade + mid);
    assert head == "trade:" + (to.KeyText() + (":" + trade + mid));
    assert front + (mid + text) == head + text;
    TrimJoined(head, text);
    NormalLength(head + text);
  }

  /** Metadata filed under the default key, which ends in a free text. */
  predicate FiledByDefault(m: Metadata, mid: string, text: string) {
    m.key.None? && !m.skipLedger && FitsRow(m) && mid != "" && mid[|mid| - 1] == '=' && Parts(m) == mid + text
  }

  /** Such a change that posts something is refused by the status, the text and the kind of its posting. */
  lemma DefaultRefusedIff(s: Store, id: string, to: Status, m: Metadata, mid: string, text: string, tick: Tick)
    requires Fine(s, id) && Ready(s, id, to, m) && FiledByDefault(m, mid, text) && Owes(s, id, to, m)
    ensures Update(s, id, to, m, tick).Refused?
       <==> NoticeLong(s, id, to, m) || |to.KeyText()| + |mid| + |TrimRight(text)| + |MainKind(to).KeyText()| > 78
  {
    KindLengths();
    hide Sound, UuidText, KeyOf, FitsRow, Allowed, Update, OperationKey, MainKind, MainAmount, TrimRight, Kind.KeyText, Status.KeyText, Parts,
         NoticeLong, Ready, Owes, Direction.KeyText;
    RefusedIff(s, id, to, m, tick);
    DefaultLength(id, to, m, mid, text);
  }

  lemma EndsVisibly(front: string, end: string)
    requires end != "" && end[|end| - 1] == '='
    ensures !IsSpace((front + end)[|front + end| - 1])
  {
    assert (front + end)[|front + end| - 1] == '=';
  }

  lemma StartsVisibly(to: Status, rest: string)
    ensures !IsSpace(("trade:" + (to.KeyText() + rest))[0])
  {
    hide Status.KeyText;
    assert ("trade:" + (to.KeyText() + rest))[0] == 't';
  }

  const REASON := ":reason="

  /** What a user's dispute passes along. */
  function Raised(note: string): Metadata {
    BLANK.(reason := Some(note), byUser := true)
  }

  lemma ReasonIsFiled(m: Metadata, reason: string)
    requires m.key.None? && !m.skipLedger && m.txHash.None? && m.payoutRef.None? && m.orderId.None? && m.conversionId.None?
    requires m.reason == Some(reason)
    ensures FiledByDefault(m, REASON, reason) && |REASON| == 8
  {
  }

  /** A user's dispute is refused, where one is permitted, worth something and filed under a new key, exactly when
      the reason without its trailing white space has more than 55 characters. */
  lemma RaiseRefusedIff(s: Store, id: string, note: string, tick: Tick)
    requires Healthy(s)
    ensures Ready(s, id, Dispute, Raised(note)) && Owes(s, id, Dispute, Raised(note)) ==>
              (Update(s, id, Dispute, Raised(note), tick).Refused? <==> |TrimRight(note)| > 55)
  {
    StatusLengths();
    KindLengths();
    hide Healthy, Ready, Update, Owes, TrimRight, FiledByDefault, NoticeLong, Kind.KeyText, Status.KeyText, Fine, REASON;
    ReasonIsFiled(Raised(note), note);
    QuietNotice(s, id, Dispute, Raised(note));
    if Ready(s, id, Dispute, Raised(note)) && Owes(s, id, Dispute, Raised(note)) {
      ReadyExists(s, id, Dispute, Raised(note));
      HealthyIsFine(s, id);
      DefaultRefusedIff(s, id, Dispute, Raised(note), REASON, note, tick);
    }
  }

  // ------------------------------------------------------------------ resolutions

  lemma FirstIsTrimmed(a: string, b: string)
    ensures TrimRight(FirstNonBlank(a, b)) == FirstNonBlank(a, b)
  {
    TrimmedRight(a);
    TrimmedRight(b);
    hide Trim, TrimRight;
  }

  lemma TrimmedRight(x: string)
    ensures TrimRight(Trim(x)) == Trim(x)
  {
    TrimIs(x);
  }

  /** A ticket of a trade, as the admin finds them. */
  predicate Concerns(s: Store, ticket: nat, id: string, t: Trade, reason: string) {
    ticket < |s.tickets| && s.tickets[ticket].trade == id && s.tickets[ticket].reason == reason && id in s.trades && s.trades[id] == t
  }

  /** A resolution whose change is permitted and whose key is new. */
  predicate ResolutionReady(s: Store, ticket: nat, m: Mode, note: string) {
    match ResolveAsk(s, ticket, Some(m), note)
    case None => false
    case Some(ask) => Ready(s, ask.trade, ask.to, ask.meta)
  }

  predicate ResolutionRefused(s: Store, ticket: nat, m: Mode, note: string, tick: Tick) {
    match ResolveAsk(s, ticket, Some(m), note)
    case None => false
    case Some(ask) => Update(ResolveGround(s, ticket, Some(m), tick.now), ask.trade, ask.to, ask.meta, tick).Refused?
  }

  // What a resolution's change is judged on keeps what the argument uses.
  lemma ReadyBefore(s: Store, ticket: nat, m: Mode, note: string, id: string, t: Trade, reason: string, tick: Tick, b: Store, ask: Ask)
    requires Healthy(s) && Concerns(s, ticket, id, t, reason) && ResolutionReady(s, ticket, m, note)
    requires b == Reopened(s, id, m, tick.now) && ask == ResolutionAsk(id, t, reason, m, note)
    ensures ask.trade == id && Fine(b, id) && Ready(b, id, ask.to, ask.meta)
    ensures ResolutionRefused(s, ticket, m, note, tick) <==> Update(b, id, ask.to, ask.meta, tick).Refused?
    ensures t.toExpected > 0 && ask.meta.toAmountActual == Some(t.toExpected) ==> Owes(b, id, PayoutCompleted, ask.meta)
    ensures Owes(b, id, DepositConfirmed, ask.meta) && Owes(b, id, ConversionCompleted, ask.meta)
  {
    HealthyIsFine(s, id);
    ResolutionSparesSales(id, t, reason, m, note);
    ReopenedFacts(s, id, t, m, tick.now);
    hide Healthy, Sound, UuidText, RetryStatus, Update, KeyOf, Allowed, ResolutionAsk, Reopened, ResolvePayoutAmount, Past;
    SameBooks(s, b);
    ForcedOwed(b, id, ask.meta, t.toExpected);
  }

  lemma ReopenedFacts(s: Store, id: string, t: Trade, m: Mode, now: int)
    requires id in s.trades && s.trades[id] == t
    ensures var b := Reopened(s, id, m, now);
            b.ledger == s.ledger && b.keys == s.keys && id in b.trades && b.trades[id].status == t.status && b.trades[id].fromAmount == t.fromAmount
  {
    hide RetryStatus;
  }

  lemma ForcedOwed(s: Store, id: string, m: Metadata, amount: int)
    requires id in s.trades && s.trades[id].fromAmount > 0
    ensures amount > 0 && m.toAmountActual == Some(amount) ==> Owes(s, id, PayoutCompleted, m)
    ensures Owes(s, id, DepositConfirmed, m) && Owes(s, id, ConversionCompleted, m)
  {
  }

  /** The reason a retry gives: the admin's note, or the reason the ticket was opened with. */
  function RetryReason(reason: string, note: string): string {
    FirstNonBlank(Trim(note), reason)
  }

  lemma RetryIsFiled(id: string, t: Trade, reason: string, note: string)
    ensures var ask := ResolutionAsk(id, t, reason, RetryProcessing, note);
            && ask.to == RetryStatus(t) && (ask.to == DepositConfirmed || ask.to == ConversionCompleted)
            && FiledByDefault(ask.meta, REASON, RetryReason(reason, note)) && |REASON| == 8
            && TrimRight(RetryReason(reason, note)) == RetryReason(reason, note)
  {
    FirstIsTrimmed(Trim(note), reason);
    hide FirstNonBlank, Trim, FiledByDefault, REASON, TrimRight, RetryReason;
    RetryMeta(id, t, reason, note);
    var m := BLANK.(reason := Some(RetryReason(reason, note)), clearReason := true);
    ReasonIsFiled(m, RetryReason(reason, note));
    RetryTrimmed(reason, note);
  }

  lemma RetryTrimmed(reason: string, note: string)
    requires TrimRight(FirstNonBlank(Trim(note), reason)) == FirstNonBlank(Trim(note), reason)
    ensures TrimRight(RetryReason(reason, note)) == RetryReason(reason, note)
  {
    hide Trim, TrimRight, FirstNonBlank;
  }

  lemma RetryMeta(id: string, t: Trade, reason: string, note: string)
    ensures ResolutionAsk(id, t, reason, RetryProcessing, note)
         == Ask(id, RetryStatus(t), BLANK.(reason := Some(RetryReason(reason, note)), clearReason := true))
  {
    hide RetryStatus, FirstNonBlank, Trim;
  }

  /** A dispute can be retried under a new key exactly when the reason the retry gives is short enough: no more than
      45 characters to go back before the sale, 33 to go back to the payout. */
  lemma RetryRefusedIff(s: Store, ticket: nat, note: string, id: string, t: Trade, reason: string, tick: Tick)
    requires Healthy(s) && Concerns(s, ticket, id, t, reason) && ResolutionReady(s, ticket, RetryProcessing, note)
    ensures ResolutionRefused(s, ticket, RetryProcessing, note, tick)
       <==> |RetryReason(reason, note)| > if RetryStatus(t) == ConversionCompleted then 33 else 45
  {
    StatusLengths();
    KindLengths();
    var b, ask := Reopened(s, id, RetryProcessing, tick.now), ResolutionAsk(id, t, reason, RetryProcessing, note);
    hide Healthy, Concerns, Ready, ResolutionReady, ResolutionRefused, Update, Owes, TrimRight, FiledByDefault, NoticeLong, Kind.KeyText, Status.KeyText,
         Fine, REASON, RetryReason, RetryStatus, ResolutionAsk, Reopened;
    RetryIsFiled(id, t, reason, note);
    ReadyBefore(s, ticket, RetryProcessing, note, id, t, reason, tick, b, ask);
    QuietNotice(b, id, ask.to, ask.meta);
    DefaultRefusedIff(b, id, ask.to, ask.meta, REASON, RetryReason(reason, note), tick);
  }

  /** The reason a forced completion gives. */
  function ForceReason(note: string): string {
    FirstNonBlank(Trim(note), "Payout marked complete by admin")
  }

  lemma ForceMeta(id: string, t: Trade, reason: string, note: string)
    ensures ResolutionAsk(id, t, reason, ForceComplete, note)
         == Ask(id, PayoutCompleted, BLANK.(payoutRef := Some(ForcedRef(id, t)), toAmountActual := Some(t.toExpected),
                                            reason := Some(ForceReason(note)), clearReason := true))
  {
    hide ForcedRef, FirstNonBlank, Trim;
  }

  function RefMark(ref: string): string {
    ":payout_ref=" + ref + ":reason="
  }

  lemma ForceIsFiled(m: Metadata, ref: string, r: string)
    requires m.key.None? && !m.skipLedger && m.txHash.None? && m.orderId.None? && m.conversionId.None?
    requires m.payoutRef == Some(ref) && m.reason == Some(r) && |ref| <= 74
    ensures FiledByDefault(m, RefMark(ref), r) && |RefMark(ref)| == 20 + |ref|
  {
    assert ":reason=" + r == ":" + "reason" + "=" + r;
    assert ":payout_ref=" + ref + (":reason=" + r) == (":payout_ref=" + ref + ":reason=") + r;
  }

  // A forced completion announces the reference it goes by.
  lemma ForcedNotice(s: Store, id: string, t: Trade, m: Metadata)
    requires id in s.trades && s.trades[id] == t && m.payoutRef == Some(ForcedRef(id, t))
    ensures NoticeLong(s, id, PayoutCompleted, m) <==> |ForcedRef(id, t)| > 74
  {
    if Given(t.payoutId).Some? {
      TrimTwice(t.payoutId.value);
    }
    hide Trim;
  }

  /** A forced completion of a trade that is owed something, from any status it is permitted from and under a new key, is
      refused exactly when the reference and the reason together have more than 35 characters. */
  lemma ForceRefusedIff(s: Store, ticket: nat, note: string, id: string, t: Trade, reason: string, tick: Tick)
    requires Healthy(s) && Concerns(s, ticket, id, t, reason) && ResolutionReady(s, ticket, ForceComplete, note) && t.toExpected > 0
    ensures ResolutionRefused(s, ticket, ForceComplete, note, tick) <==> |ForcedRef(id, t)| + |ForceReason(note)| > 35
  {
    var ask := ResolutionAsk(id, t, reason, ForceComplete, note);
    assert id in s.trades && s.trades[id] == t && Reopened(s, id, ForceComplete, tick.now) == s;
    hide *;
    ForceMeta(id, t, reason, note);
    ForceTrimmed(note);
    ReadyBefore(s, ticket, ForceComplete, note, id, t, reason, tick, s, ask);
    ForcedUpdate(s, id, t, ask.meta, ForceReason(note), tick);
  }

  lemma ForceTrimmed(note: string)
    ensures TrimRight(ForceReason(note)) == ForceReason(note)
  {
    FirstIsTrimmed(Trim(note), "Payout marked complete by admin");
    hide Trim, TrimRight, FirstNonBlank;
  }

  lemma ForcedUpdate(s: Store, id: string, t: Trade, m: Metadata, r: string, tick: Tick)
    requires Fine(s, id) && Ready(s, id, PayoutCompleted, m) && Owes(s, id, PayoutCompleted, m) && id in s.trades && s.trades[id] == t
    requires TrimRight(r) == r && m == BLANK.(payoutRef := Some(ForcedRef(id, t)), toAmountActual := Some(t.toExpected), reason := Some(r), clearReason := true)
    ensures Update(s, id, PayoutCompleted, m, tick).Refused? <==> |ForcedRef(id, t)| + |r| > 35
  {
    StatusLengths();
    KindLengths();
    assert MainKind(PayoutCompleted) == Payout;
    hide Ready, Update, Owes, TrimRight, FiledByDefault, NoticeLong, Kind.KeyText, Status.KeyText, Fine, ForcedRef, FitsRow, OperationKey, TooLong,
         RefMark, Given, MainKind;
    var ref := ForcedRef(id, t);
    ForcedNotice(s, id, t, m);
    if |ref| > 74 {
      RefusedIff(s, id, PayoutCompleted, m, tick);
    } else {
      ForceIsFiled(m, ref, r);
      DefaultRefusedIff(s, id, PayoutCompleted, m, RefMark(ref), r, tick);
    }
  }

  // The reference made up for a payout never started has 21 characters, and the reason made up for it 31.
  lemma MadeUpTexts(id: string, t: Trade, note: string)
    requires |id| == 36 && Given(t.payoutId).None? && Trim(note) == ""
    ensures |ForcedRef(id, t)| == 21 && |ForceReason(note)| == 31
  {
    ForceDefault(note);
    MadeUpRef(id, t);
    hide *;
  }

  lemma MadeUpRef(id: string, t: Trade)
    requires |id| == 36 && Given(t.payoutId).None?
    ensures |ForcedRef(id, t)| == 21
  {
    hide Given;
    assert |"ADMIN-FORCED-"| == 13;
  }

  lemma ForceDefault(note: string)
    requires Trim(note) == ""
    ensures |ForceReason(note)| == 31
  {
    hide Trim, FirstNonBlank;
    TrimTwice(note);
    TrimVisible("Payout marked complete by admin");
    SecondIfBlank(Trim(note), "Payout marked complete by admin");
  }

  lemma SecondIfBlank(a: string, b: string)
    requires Trim(a) == ""
    ensures FirstNonBlank(a, b) == Trim(b)
  {
  }

  /** So an admin who forces the completion of a trade whose payout was never started, and leaves no note, is always
      refused. */
  lemma ForceWithoutNoteRefused(s: Store, ticket: nat, note: string, id: string, t: Trade, reason: string, tick: Tick)
    requires Healthy(s) && Concerns(s, ticket, id, t, reason) && ResolutionReady(s, ticket, ForceComplete, note) && t.toExpected > 0
    requires Given(t.payoutId).None? && Trim(note) == ""
    ensures ResolutionRefused(s, ticket, ForceComplete, note, tick)
  {
    assert id in s.trades;
    hide Healthy, Concerns, ResolutionReady, ResolutionRefused, Given, Trim, ForcedRef, ForceReason, UuidText, Sound;
    HealthyIsFine(s, id);
    UuidIsKeyText(id);
    MadeUpTexts(id, t, note);
    ForceRefusedIff(s, ticket, note, id, t, reason, tick);
  }
}
