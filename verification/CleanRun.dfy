/** An ordinary trade goes through: six steps take a waiting trade to a completed payout that settles. */
module CleanRun {
  import opened Wrappers
  import opened Text
  import opened Lifecycle
  import opened Ledger
  import opened Store
  import opened Steps
  import opened Asks
  import opened LedgerRuns
  import opened Bookkeeping
  import opened Growth
  import opened ExactlyOnce
  import opened Quotes
  import opened Changes
  import opened Sales
  import opened Purposes
  import opened Refusals
  import opened Settlement

  /** What an ordinary trade meets: a deposit, an order filled at once, a payout that succeeds; and the clock and the
      identifiers each of its six steps finds. */
  datatype Course = Course(
    id: string, seen: Sighting, order: string, exchange: string, note: string, ref: string, news: string, clock: int -> Tick)

  // The six steps, in order.
  function CourseStep(c: Course, k: int): Step {
    if k == 0 then Watch(c.id, c.seen, None, c.clock(0))
    else if k == 1 then Watch(c.id, c.seen, Some(c.id), c.clock(1))
    else if k == 2 then Sell(c.id, Sold(c.order, c.exchange), c.clock(2))
    else if k == 3 then FinishSale(c.id, c.order, c.note, c.clock(3))
    else if k == 4 then StartPayout(c.id, Initiated(c.ref), c.clock(4))
    else PollPayout(c.id, PaidOut, c.news, c.clock(5))
  }

  /** The first k of them. */
  function StepsOf(c: Course, k: int): seq<Step> {
    if k <= 0 then [] else StepsOf(c, k - 1) + [CourseStep(c, k - 1)]
  }

  // The six changes, in order.
  function CourseAsk(c: Course, k: int): Ask {
    if k == 0 then Ask(c.id, DepositReceived, DepositNote("deposit_detected:", c.id, c.seen.txHash))
    else if k == 1 then Ask(c.id, DepositConfirmed, DepositNote("deposit_confirmed:", c.id, c.seen.txHash))
    else if k == 2 then Ask(c.id, ConversionInProgress, SaleNote(c.id, c.order, c.exchange))
    else if k == 3 then Ask(c.id, ConversionCompleted, SaleDone(c.id, c.order, c.note))
    else if k == 4 then PayoutPendingAsk(c.id, c.ref)
    else PayoutCompleteAsk(c.id, Trim(c.ref))
  }

  // Where they lead.
  function StatusAt(k: int): Status {
    if k == 0 then PendingDeposit else if k == 1 then DepositReceived else if k == 2 then DepositConfirmed
    else if k == 3 then ConversionInProgress else if k == 4 then ConversionCompleted else if k == 5 then PayoutPending
    else PayoutCompleted
  }

  /** Texts short enough for the ledger's keys. */
  predicate Short(c: Course) {
    && 0 < |Trim(c.seen.txHash)| <= 58 && 0 < |Trim(c.order)| <= 46 && 0 < |Trim(c.ref)| <= 60
  }

  /** The trade after k of its six changes. */
  predicate RowAt(t: Trade, c: Course, k: int) {
    && t.status == StatusAt(k) && t.authorized && t.address != "" && (k == 0 ==> c.clock(0).now <= t.expiresAt)
    && (k < 5 ==> t.payoutId.None?) && (k >= 5 ==> t.payoutId == Some(Trim(c.ref)))
  }

  /** Until the deposit is confirmed it is seen final and faultless. */
  predicate SeenAt(cfg: Config, s: Store, c: Course, k: int) {
    k < 2 ==> SeenFinal(cfg, s, c, Holder(c, k))
  }

  // Who holds the transaction when the deposit is looked at: nobody, then the trade itself.
  function Holder(c: Course, k: int): Option<string> {
    if k == 0 then None else Some(c.id)
  }

  predicate SeenFinal(cfg: Config, s: Store, c: Course, holder: Option<string>) {
    && Clean(cfg, s, c.id, c.seen, holder, true)
    && c.seen.confirmations >= Insisted(cfg, s.trades[c.id]) && c.seen.confirmations >= PolicyFor(cfg, s.trades[c.id]).detection
  }

  /** None of the changes still to come has been filed before. */
  predicate KeysNew(keys: map<OpKey, string>, c: Course, k: int) {
    forall j :: k <= j < 6 ==> KeyAsked(CourseAsk(c, j)) !in keys
  }

  /** The way to the k-th status and no other. */
  predicate PathTo(h: seq<Change>, k: int) {
    |h| == k + 1 && forall i :: 0 <= i <= k ==> h[i].to == StatusAt(i)
  }

  /** A waiting, authorised trade whose deposit is seen in time, final and faultless, with a transaction no trade holds. */
  predicate Expecting(cfg: Config, s: Store, c: Course) {
    c.id in s.trades && RowAt(s.trades[c.id], c, 0) && SeenAt(cfg, s, c, 0)
  }

  /** What every reachable state gives the argument. */
  ghost predicate Orderly(w: World) {
    Kept(w.db) && Healthy(w.db)
  }

  /** How far the trade has come: k of its six changes made, the others' keys still new. */
  ghost predicate Reached(cfg: Config, w: World, c: Course, k: int) {
    && Orderly(w) && c.id in w.db.trades && RowAt(w.db.trades[c.id], c, k) && SeenAt(cfg, w.db, c, k) && KeysNew(w.db.keys, c, k)
    && PathTo(Past(w.db, c.id), k) && (k == 3 ==> Sale(c.id, Trim(c.order)) in w.sales)
  }

  lemma NextOrderly(cfg: Config, w: World, step: Step)
    requires Uuids(cfg) && Orderly(w)
    ensures Orderly(Next(cfg, w, step))
  {
    hide Kept, Sound, NoResale, Quoted, Next;
    NextKeeps(cfg, w, step);
    NextIsSound(cfg, w, step);
    NextNoResale(cfg, w, step);
    NextQuoted(cfg, w, step);
  }

  // ------------------------------------------------------------------ each step asks for its change

  lemma FiredWhen(trade: string, t: Trade, v: GuardView, m: Metadata)
    ensures t.status == PendingDeposit && v.now <= v.expiresAt ==>
              Fired(trade, t, DepositDetected, v, m) == Some(Ask(trade, DepositReceived, m))
    ensures t.status == DepositReceived && v.confirmations >= (if v.required <= 0 then v.fallback else v.required) ==>
              Fired(trade, t, DepositFinal, v, m) == Some(Ask(trade, DepositConfirmed, m))
  {
    WatcherEvents(v);
    hide Fire;
  }

  lemma WatchAsks(cfg: Config, s: Store, c: Course, k: int, holder: Option<string>)
    requires 0 <= k < 2 && c.id in s.trades && RowAt(s.trades[c.id], c, k) && SeenFinal(cfg, s, c, holder)
    ensures WatchAsk(cfg, s, c.id, c.seen, holder, c.clock(k).now) == Some(CourseAsk(c, k))
  {
    hide LookedUp, FaultOf, PolicyFor, Fired, DepositDispute, WatcherReason, DepositNote, ExpiryNote, FallbackConfirmations, Trim;
    var t := s.trades[c.id];
    var v := View(t, c.clock(k).now, PolicyFor(cfg, t).finality, c.seen.confirmations);
    FiredWhen(c.id, t, v, DepositNote("deposit_detected:", c.id, c.seen.txHash));
    FiredWhen(c.id, t, v, DepositNote("deposit_confirmed:", c.id, c.seen.txHash));
  }

  lemma LaterAsks(cfg: Config, w: World, c: Course, k: int)
    requires 2 <= k < 6 && Reached(cfg, w, c, k) && Short(c)
    ensures AskOf(cfg, w, CourseStep(c, k)) == Some(CourseAsk(c, k))
  {
    hide Orderly, SeenAt, KeysNew, PathTo, Filed, Folded, Trim, DepositNote;
    if k == 2 {
      SaleAsk(w, c.id, c.order, c.exchange);
    } else if k == 5 {
      GivenRef(c);
    }
  }

  lemma GivenRef(c: Course)
    requires Short(c)
    ensures Given(Some(Trim(c.ref))) == Some(Trim(c.ref)) && Given(Some(c.ref)) == Some(Trim(c.ref))
  {
    TrimTwice(c.ref);
    hide Trim;
  }

  lemma MakesItsRequest(cfg: Config, w: World, c: Course, k: int)
    requires 0 <= k < 6 && Reached(cfg, w, c, k) && Short(c)
    ensures AskOf(cfg, w, CourseStep(c, k)) == Some(CourseAsk(c, k)) && CourseStep(c, k).tick == c.clock(k)
  {
    StepForms(cfg, w, c, k);
    hide *;
    if k < 2 {
      WaitsAt(cfg, w, c, k);
      WatchAsks(cfg, w.db, c, k, Holder(c, k));
    } else {
      LaterAsks(cfg, w, c, k);
    }
  }

  lemma WaitsAt(cfg: Config, w: World, c: Course, k: int)
    requires 0 <= k < 2 && Reached(cfg, w, c, k)
    ensures c.id in w.db.trades && SeenFinal(cfg, w.db, c, Holder(c, k))
    ensures c.id in w.db.trades ==> RowAt(w.db.trades[c.id], c, k)
  {
    hide Orderly, RowAt, SeenFinal, KeysNew, PathTo, Past, Trim;
  }

  lemma StepForms(cfg: Config, w: World, c: Course, k: int)
    requires 0 <= k < 6
    ensures CourseStep(c, k).tick == c.clock(k)
    ensures k < 2 ==> AskOf(cfg, w, CourseStep(c, k)) == WatchAsk(cfg, w.db, c.id, c.seen, Holder(c, k), c.clock(k).now)
  {
    hide WatchAsk;
  }

  // ------------------------------------------------------------------ and gets it

  /** What the k-th change passes along. */
  predicate AskForm(c: Course, k: int, ask: Ask) {
    && ask == CourseAsk(c, k) && ask.trade == c.id && ask.to == StatusAt(k + 1) && !ask.meta.skipLedger && ask.meta.toAmountActual.None?
    && Given(ask.meta.payoutRef) == (if k < 4 then None else Some(Trim(c.ref)))
    && (k < 2 ==> ask.meta.orderId.None? && ask.meta.conversionId.None?)
  }

  lemma Form(c: Course, k: int)
    requires 0 <= k < 6 && Short(c)
    ensures AskForm(c, k, CourseAsk(c, k)) && (k == 2 || k == 4 ==> FitsRow(CourseAsk(c, k).meta))
  {
    TrimTwice(c.order);
    TrimTwice(c.ref);
    hide Filed, Folded, Trim, STARTED;
  }

  // A change that posts and announces nothing is refused only for a text too wide for its column.
  lemma PlainNotRefused(s: Store, id: string, to: Status, m: Metadata, tick: Tick)
    requires Fine(s, id) && Ready(s, id, to, m) && FitsRow(m) && (to == ConversionInProgress || to == PayoutPending)
    ensures !Update(s, id, to, m, tick).Refused?
  {
    assert !Owes(s, id, to, m) && !NoticeLong(s, id, to, m);
    hide Fine, Ready, FitsRow, Update, OperationKey, Owes, NoticeLong;
    RefusedIff(s, id, to, m, tick);
  }

  lemma ShortMeans(c: Course)
    requires Short(c)
    ensures |Trim(c.seen.txHash)| <= 58 && |Trim(c.order)| <= 46 && |Trim(Trim(c.ref))| <= 60 && Trim(Trim(c.ref)) != ""
  {
    TrimTwice(c.ref);
    hide Trim;
  }

  lemma MetaOf(c: Course, k: int)
    ensures k == 0 ==> StatusAt(k + 1) == DepositReceived
    ensures k == 1 ==> StatusAt(k + 1) == DepositConfirmed
    ensures k == 2 ==> StatusAt(k + 1) == ConversionInProgress
    ensures k == 3 ==> StatusAt(k + 1) == ConversionCompleted
    ensures k == 4 ==> StatusAt(k + 1) == PayoutPending
    ensures k == 5 ==> StatusAt(k + 1) == PayoutCompleted
    ensures k == 0 ==> CourseAsk(c, k).meta == DepositNote("deposit_detected:", c.id, c.seen.txHash)
    ensures k == 1 ==> CourseAsk(c, k).meta == DepositNote("deposit_confirmed:", c.id, c.seen.txHash)
    ensures k == 3 ==> CourseAsk(c, k).meta == SaleDone(c.id, c.order, c.note)
    ensures k == 5 ==> CourseAsk(c, k).meta == PayoutCompleteAsk(c.id, Trim(c.ref)).meta
  {
    hide DepositNote, SaleEnd, PayoutCompleteAsk, Trim;
  }

  lemma NotRefused(s: Store, c: Course, k: int, tick: Tick, ask: Ask)
    requires 0 <= k < 6 && Short(c) && Healthy(s) && Fine(s, c.id) && ask == CourseAsk(c, k) && Ready(s, c.id, StatusAt(k + 1), ask.meta)
    ensures !Update(s, c.id, StatusAt(k + 1), ask.meta, tick).Refused?
  {
    ShortMeans(c);
    hide *;
    Form(c, k);
    MetaOf(c, k);
    if k == 0 {
      ReceivingRefusedIff(s, c.id, c.seen.txHash, tick);
    } else if k == 1 {
      ConfirmationRefusedIff(s, c.id, c.seen.txHash, tick);
    } else if k == 3 {
      CompletionRefusedIff(s, c.id, c.order, c.note, tick);
    } else if k == 5 {
      PayoutRefusedIff(s, c.id, Trim(c.ref), "", tick);
    } else {
      PlainNotRefused(s, c.id, StatusAt(k + 1), ask.meta, tick);
    }
  }

  /** The tables after a change. */
  ghost predicate Advanced(s: Store, after: Store, ask: Ask, now: int) {
    && ask.trade in s.trades && Allowed(s.trades[ask.trade].status, ask.to)
    && after.trades == s.trades[ask.trade := Written(s.trades[ask.trade], ask.to, ask.meta, now)]
    && after.keys == s.keys[KeyAsked(ask) := ask.trade]
    && Past(after, ask.trade) == Past(s, ask.trade) + [Change(Some(s.trades[ask.trade].status), ask.to)]
    && after.tickets == if ask.to == Status.Dispute then WithTicket(s.tickets, ask.trade, ask.meta.byUser, Note(ask.meta)) else s.tickets
  }

  lemma AppliedAdvances(s: Store, ask: Ask, tick: Tick, after: Store)
    requires Update(s, ask.trade, ask.to, ask.meta, tick) == Applied(after)
    ensures Advanced(s, after, ask, tick.now)
  {
    hide Update, Written, KeyOf, Allowed, FitsRow, Posted, NoticeFits, WithTicket, Note;
    WhenApplied(s, ask.trade, ask.to, ask.meta, tick);
  }

  // A step that asks for a permitted change under a new key, and is not refused, makes it.
  lemma AsksAndAdvances(cfg: Config, w: World, step: Step, ask: Ask)
    requires AskOf(cfg, w, step) == Some(ask) && Ready(w.db, ask.trade, ask.to, ask.meta)
    requires !Update(w.db, ask.trade, ask.to, ask.meta, step.tick).Refused?
    ensures Advanced(w.db, Next(cfg, w, step).db, ask, step.tick.now) && Made(cfg, w, step) == Some(ask)
  {
    AskingStep(cfg, w, step, ask);
    WantsIt(cfg, w, step, ask);
    UpdateCases(w.db, ask.trade, ask.to, ask.meta, step.tick);
    hide AskOf, Update, KeyOf, Allowed, FitsRow, NoticeFits, Posted, Commit, Next, OutcomeOf, Advanced, Wanted;
    AppliedAdvances(w.db, ask, step.tick, Next(cfg, w, step).db);
  }

  lemma WantsIt(cfg: Config, w: World, step: Step, ask: Ask)
    requires AskOf(cfg, w, step) == Some(ask)
    ensures Wanted(cfg, w, step) == Some(ask)
  {
    hide WatchAsk, BackfillAsk, SellAsk, EndSaleAsk, RecoverAsk, StartPayoutAsk, PollPayoutAsk, WebhookAsk, RaiseAsk;
  }

  lemma NextAllowed(k: int)
    requires 0 <= k < 6
    ensures Allowed(StatusAt(k), StatusAt(k + 1))
  {
  }

  // The step makes its change.
  lemma Moves(cfg: Config, w: World, c: Course, k: int)
    requires 0 <= k < 6 && Reached(cfg, w, c, k) && Short(c)
    ensures Advanced(w.db, Next(cfg, w, CourseStep(c, k)).db, CourseAsk(c, k), c.clock(k).now)
    ensures Made(cfg, w, CourseStep(c, k)) == Some(CourseAsk(c, k))
  {
    var ask := CourseAsk(c, k);
    NextAllowed(k);
    ReadyAt(cfg, w, c, k);
    Form(c, k);
    hide Reached, Next, CourseStep, CourseAsk, Advanced, Update, Short, Ready, Fine, Healthy, StatusAt, Given, Trim;
    MakesItsRequest(cfg, w, c, k);
    NotRefused(w.db, c, k, c.clock(k), ask);
    AsksAndAdvances(cfg, w, CourseStep(c, k), ask);
  }

  lemma ReadyAt(cfg: Config, w: World, c: Course, k: int)
    requires 0 <= k < 6 && Reached(cfg, w, c, k) && Short(c) && Allowed(StatusAt(k), StatusAt(k + 1))
    ensures Healthy(w.db) && Fine(w.db, c.id) && Ready(w.db, c.id, StatusAt(k + 1), CourseAsk(c, k).meta)
  {
    Form(c, k);
    hide Kept, Healthy, SeenAt, CourseAsk, StatusAt, Trim, PathTo, Fine, KeyOf, Allowed, Short, Given;
    HealthyIsFine(w.db, c.id);
    assert KeyAsked(CourseAsk(c, k)) !in w.db.keys;
  }

  lemma KeysDistinct(c: Course, i: int, j: int)
    requires 0 <= i < j < 6 && Short(c)
    ensures KeyAsked(CourseAsk(c, i)) != KeyAsked(CourseAsk(c, j))
  {
    hide CourseAsk, OperationKey, NormalizeKey, Short, Given;
    Form(c, i);
    Form(c, j);
  }

  // ------------------------------------------------------------------ the deposit seen a second time

  lemma FaultOfDeal(cfg: Config, id: string, t: Trade, u: Trade, seen: Sighting)
    requires SameDeal(t, u) && FaultOf(cfg, id, t, seen, None, true).None?
    ensures FaultOf(cfg, id, u, seen, Some(id), true).None? && PolicyFor(cfg, u) == PolicyFor(cfg, t) && Insisted(cfg, u) == Insisted(cfg, t)
  {
    hide Trim, Blocked, AddressesClash, NetworksClash;
  }

  lemma NowHolder(s: Store, after: Store, c: Course, ask: Ask, now: int)
    requires Advanced(s, after, ask, now) && Trim(c.seen.txHash) != "" && AnswersHash(s, c.seen.txHash, None)
    requires ask.trade == c.id && ask.meta.txHash == Some(c.seen.txHash)
    ensures LookedUp(after, c.seen, Some(c.id))
  {
    TrimTwice(c.seen.txHash);
    hide Trim, Lower, Note, Past, Allowed, KeyOf;
  }

  lemma NotedHash(c: Course)
    ensures CourseAsk(c, 0).meta.txHash == Some(c.seen.txHash) && CourseAsk(c, 0).trade == c.id
  {
    hide Filed, Folded;
  }

  lemma SeenAgain(cfg: Config, s: Store, after: Store, c: Course, now: int)
    requires Advanced(s, after, CourseAsk(c, 0), now) && Trim(c.seen.txHash) != "" && SeenFinal(cfg, s, c, None)
    ensures SeenFinal(cfg, after, c, Some(c.id))
  {
    NotedHash(c);
    var ask := CourseAsk(c, 0);
    hide FaultOf, PolicyFor, Insisted, Written, AnswersHash, SameDeal, Trim, CourseAsk, KeyOf, Past, Allowed, Given;
    WrittenSameDeal(s.trades[c.id], ask.to, ask.meta, now);
    var t, u := s.trades[c.id], after.trades[c.id];
    NowHolder(s, after, c, ask, now);
    FaultOfDeal(cfg, c.id, t, u, c.seen);
  }

  // ------------------------------------------------------------------ one step further, and all the way

  lemma RowMoves(t: Trade, c: Course, k: int, ask: Ask)
    requires 0 <= k < 6 && RowAt(t, c, k) && AskForm(c, k, ask)
    ensures RowAt(Written(t, ask.to, ask.meta, c.clock(k).now), c, k + 1)
  {
    hide Given, Note, CourseAsk, Trim;
  }

  lemma KeysStillNew(keys: map<OpKey, string>, c: Course, k: int)
    requires 0 <= k < 6 && KeysNew(keys, c, k) && Short(c)
    ensures KeysNew(keys[KeyAsked(CourseAsk(c, k)) := c.id], c, k + 1)
  {
    hide KeyAsked, CourseAsk, Short;
    forall j | k + 1 <= j < 6
      ensures KeyAsked(CourseAsk(c, j)) !in keys[KeyAsked(CourseAsk(c, k)) := c.id]
    {
      KeysDistinct(c, k, j);
    }
  }

  lemma SaleNoted(cfg: Config, w: World, c: Course, k: int)
    requires k == 2 && Reached(cfg, w, c, k)
    ensures Sale(c.id, Trim(c.order)) in Next(cfg, w, CourseStep(c, k)).sales
  {
    hide Orderly, SeenAt, KeysNew, PathTo, NextDb, Trim, NextAttempts, NextEvents;
  }

  lemma Further(cfg: Config, w: World, c: Course, k: int)
    requires Uuids(cfg) && 0 <= k < 6 && Reached(cfg, w, c, k) && Short(c)
    ensures Reached(cfg, Next(cfg, w, CourseStep(c, k)), c, k + 1)
  {
    var v, step, ask := Next(cfg, w, CourseStep(c, k)), CourseStep(c, k), CourseAsk(c, k);
    Moves(cfg, w, c, k);
    NextOrderly(cfg, w, step);
    Form(c, k);
    if k == 2 {
      SaleNoted(cfg, w, c, k);
    }
    if k == 0 {
      WaitsAt(cfg, w, c, k);
      SeenAgain(cfg, w.db, v.db, c, c.clock(k).now);
    }
    hide Orderly, SeenFinal, KeysNew, KeyAsked, CourseAsk, Written, Next, Trim, CourseStep, RowAt, Given, Allowed, Past, Uuids, Short, SeenAt;
    AdvancedTrade(w.db, v.db, c, k, ask);
    KeysStillNew(w.db.keys, c, k);
    SeenWhen(cfg, v.db, c, k + 1);
  }

  lemma SeenWhen(cfg: Config, s: Store, c: Course, k: int)
    ensures k >= 2 || SeenFinal(cfg, s, c, Holder(c, k)) ==> SeenAt(cfg, s, c, k)
  {
    hide SeenFinal;
  }

  lemma AdvancedTrade(s: Store, after: Store, c: Course, k: int, ask: Ask)
    requires 0 <= k < 6 && Advanced(s, after, ask, c.clock(k).now) && AskForm(c, k, ask) && c.id in s.trades
    requires RowAt(s.trades[c.id], c, k) && PathTo(Past(s, c.id), k)
    ensures c.id in after.trades && RowAt(after.trades[c.id], c, k + 1) && PathTo(Past(after, c.id), k + 1)
  {
    RowMoves(s.trades[c.id], c, k, ask);
    hide RowAt, CourseAsk, Written, Given, Past, KeyOf, Allowed, Trim;
  }

  // What each of the six changes is filed for.
  function PurposeAt(k: int): Purpose {
    if k == 0 then Detected else if k == 1 then Confirmed else if k == 2 then SaleStarted else if k == 3 then SaleCompleted
    else if k == 4 then PayoutStarted else PayoutDone
  }

  lemma FiledAt(c: Course, k: int)
    ensures AskedFor(CourseAsk(c, k), PurposeAt(k))
  {
    hide AskedFor, Folded, Trim, DepositNote, STARTED;
    WatchForms(c.id, c.seen.txHash);
    if k == 2 {
      FiledIsFor(CourseAsk(c, 2), SaleStarted, Folded(c.order));
    } else if k == 3 {
      FiledIsFor(CourseAsk(c, 3), SaleCompleted, Folded(c.order));
    } else {
      PayoutIsFor(c.id, if k == 4 then c.ref else Trim(c.ref), "");
    }
  }

  // A trade still waiting has filed nothing, and nobody else files under its name.
  lemma WaitingKeysNew(s: Store, c: Course)
    requires KeysNamed(s) && Counted(s) && WaitingUnmoved(s) && Healthy(s) && InStatus(s, c.id, PendingDeposit) && Short(c)
    ensures KeysNew(s.keys, c, 0) && PathTo(Past(s, c.id), 0)
  {
    hide KeysNamed, Counted, Healthy, UuidText, AskedFor, CourseAsk, KeyAsked, Past, PurposeAt, Sound, Given, Trim, Short;
    assert UnmovedAt(s, c.id);
    HealthyIsFine(s, c.id);
    forall j | 0 <= j < 6
      ensures KeyAsked(CourseAsk(c, j)) !in s.keys
    {
      FiledAt(c, j);
      Form(c, j);
      UnmovedHasNoKeys(s, CourseAsk(c, j), PurposeAt(j));
    }
  }

  lemma AtTheStart(cfg: Config, steps: seq<Step>, c: Course)
    requires Uuids(cfg) && Expecting(cfg, Run(cfg, steps).db, c) && Short(c)
    ensures Reached(cfg, Run(cfg, steps), c, 0)
  {
    hide *;
    RunIsRecorded(cfg, steps);
    RunIsHealthy(cfg, steps);
    RunKeysNamed(cfg, steps);
    RunUnmoved(cfg, steps);
    SetsOut(cfg, Run(cfg, steps), c);
  }

  lemma SetsOut(cfg: Config, w: World, c: Course)
    requires Recorded(w.db) && Counted(w.db) && Healthy(w.db) && KeysNamed(w.db) && WaitingUnmoved(w.db) && Expecting(cfg, w.db, c) && Short(c)
    ensures Reached(cfg, w, c, 0)
  {
    hide KeysNamed, WaitingUnmoved, Recorded, Counted, Healthy, SeenFinal, KeysNew, PathTo, Trim, Short, Past;
    WaitingKeysNew(w.db, c);
  }

  lemma StepMore(cfg: Config, steps: seq<Step>, c: Course, k: int)
    requires k > 0
    ensures Run(cfg, steps + StepsOf(c, k)) == Next(cfg, Run(cfg, steps + StepsOf(c, k - 1)), CourseStep(c, k - 1))
  {
    var all, before := steps + StepsOf(c, k), steps + StepsOf(c, k - 1);
    hide Next, Run, CourseStep;
    assert all == before + [CourseStep(c, k - 1)];
    hide *;
    assert all[..|all| - 1] == before;
    RunLast(cfg, all);
  }

  lemma {:induction false} CourseRuns(cfg: Config, steps: seq<Step>, c: Course, k: int)
    requires Uuids(cfg) && Expecting(cfg, Run(cfg, steps).db, c) && Short(c) && 0 <= k <= 6
    ensures Reached(cfg, Run(cfg, steps + StepsOf(c, k)), c, k)
  {
    hide Run, Next, Expecting, Reached, Short, Orderly;
    if k == 0 {
      assert steps + StepsOf(c, 0) == steps;
      AtTheStart(cfg, steps, c);
    } else {
      CourseRuns(cfg, steps, c, k - 1);
      StepMore(cfg, steps, c, k);
      Further(cfg, Run(cfg, steps + StepsOf(c, k - 1)), c, k - 1);
    }
  }

  lemma PathIsClean(s: Store, id: string)
    requires Recorded(s) && id in s.trades && PathTo(Past(s, id), 6)
    ensures CleanHistory(Past(s, id))
  {
    assert RecordedAt(s, id);
    hide Linked;
  }

  lemma CourseEnds(cfg: Config, w: World, c: Course, t: Trade)
    requires Reached(cfg, w, c, 6) && RowIs(w.db, c.id, t)
    ensures t.status == PayoutCompleted && t.payoutId == Some(Trim(c.ref)) && CleanHistory(Past(w.db, c.id))
  {
    hide Healthy, SeenAt, KeysNew, Trim, Counted, CleanHistory, RecordedAt;
    PathIsClean(w.db, c.id);
  }

  /** From any reachable state, a waiting and authorised trade whose deposit is seen final and faultless is completed
      by six steps, two of the watcher, two of the conversion worker and two of the payout worker, at whatever times and
      with whatever identifiers, as long as the texts they bring are short enough for the ledger's keys; and it settles,
      with nothing left in the holding account. */
  lemma OrdinaryTradeCompletes(cfg: Config, steps: seq<Step>, c: Course)
    requires Uuids(cfg) && Expecting(cfg, Run(cfg, steps).db, c) && Short(c)
    ensures exists t ::
              var s := Run(cfg, steps + StepsOf(c, 6)).db;
              && RowIs(s, c.id, t) && t.status == PayoutCompleted && t.payoutId == Some(Trim(c.ref))
              && LeavesNothing(s, c.id, t)
  {
    hide Run, Expecting, Short, Trim, Orderly, RowAt, SeenAt, KeysNew, PathTo, LeavesNothing, HasTerms, CleanHistory;
    CourseRuns(cfg, steps, c, 6);
    var w := Run(cfg, steps + StepsOf(c, 6));
    var t := w.db.trades[c.id];
    CourseEnds(cfg, w, c, t);
    CleanRunSettles(cfg, steps + StepsOf(c, 6), c.id, t);
  }
}
