/** Runs that end badly, from the first quote on: a user paid twice, a dispute nobody can resolve, an escalation that is
    swallowed, a balance read wrong. */
module Witnesses {
  import opened Wrappers
  import opened Text
  import opened Lifecycle
  import opened Ledger
  import opened Store
  import opened Steps
  import opened Asks
  import opened ExactlyOnce
  import opened Tickets
  import opened Changes
  import opened Purposes
  import opened Refusals
  import opened Escalations
  import opened CleanRun
  import opened LedgerClock
  import opened Settlement
  import DepositPolicy

  // ------------------------------------------------------------------ an ordinary beginning

  /** One user with one bank account, no blocked wallets, one confirmation enough everywhere. */
  function Desk(): Config {
    Config(map["bank" := "user"], {}, id => UuidText(id), (c, address) => ("default", ""), name => "default",
           (c, network) => DepositPolicy.Policy("", "", 1, 1, 0))
  }

  const OFFER := Offer("quote", "user", BTC, 100_000_000, FallbackPrice, Tick(1, []))

  function Acceptance(id: string): Step {
    Accept(id, "user", "quote", "bank", true, "address", true, Tick(2, []))
  }

  const SEEN := Sighting(true, "hash", "", "", 100_000_000, 1, false, false)

  /** An ordinary course of the trade, whose conversion's fee row draws a smaller identifier than the proceeds' row. */
  function Journey(id: string): Course {
    Course(id, SEEN, "order", "exchange", "filled", "payout", "paid", k => Tick(3 + k, if k == 3 then [0, 1, 9, 3, 4, 5] else []))
  }

  /** A quote for one bitcoin, a trade made of it, and the first k steps of its course. */
  function Way(id: string, k: int): seq<Step> {
    [OFFER, Acceptance(id)] + StepsOf(Journey(id), k)
  }

  lemma DeskDrawsUuids()
    ensures Uuids(Desk())
  {
    hide UuidText;
  }

  function TheQuote(): Quote {
    var a := Priced(100_000_000, 100_000_000, BTC, FallbackPrice);
    Quote("user", BTC, NGN, 100_000_000, a.gross, a.fee, a.net, 121, None, None)
  }

  /** The trade as it was accepted. */
  function Fresh(): Trade {
    NewTrade(TheQuote(), "quote", "bank", "address", true, 2)
  }

  lemma QuoteWorth()
    ensures TheQuote().fee > 0 && TheQuote().net > 0
  {
  }

  /** The tables once the quote is made. */
  function Quotation(): Store {
    EMPTY.(quotes := map["quote" := TheQuote()])
  }

  lemma Offering()
    ensures Next(Desk(), START, OFFER) == World(Quotation(), [], map[], {})
  {
    hide Priced;
  }

  lemma DeskAccepts(id: string)
    requires UuidText(id)
    ensures MayAccept(Desk(), Quotation(), "user", "quote", "bank", true, 2) && Desk().isId(id)
  {
    hide Priced, UuidText;
  }

  /** The one trade, with nothing but its own terms, no ticket and no webhook seen; before the sale, nothing recorded. */
  ghost predicate Alone(w: World, id: string, k: int) {
    && w.db.trades.Keys == {id} && w.db.tickets == [] && w.events == {}
    && var t := w.db.trades[id];
    && t.toExpected > 0 && t.fee > 0 && t.user == "user" && t.to == NGN
    && (k <= 2 ==> t.orderId.None? && t.toActual.None? && t.conversionId.None?)
  }

  lemma Accepting(id: string, w: World)
    requires UuidText(id) && w == World(Quotation(), [], map[], {})
    ensures Alone(Next(Desk(), w, Acceptance(id)), id, 0) && Next(Desk(), w, Acceptance(id)).db.trades == map[id := Fresh()]
  {
    DeskAccepts(id);
    QuoteWorth();
    hide MayAccept, CreationKey, UuidText, Desk, Priced;
  }

  lemma Opened(id: string)
    requires UuidText(id)
    ensures Alone(Run(Desk(), Way(id, 0)), id, 0) && Run(Desk(), Way(id, 0)).db.trades == map[id := Fresh()]
  {
    var steps := Way(id, 0);
    assert steps == [OFFER] + [Acceptance(id)] && steps[..1] == [OFFER] && [OFFER][..0] == [];
    hide Next, Alone, Desk, Acceptance, Fresh, Quotation, UuidText;
    RunLast(Desk(), steps);
    RunLast(Desk(), [OFFER]);
    Offering();
    Accepting(id, Run(Desk(), [OFFER]));
  }

  lemma Texts()
    ensures Trim("hash") == "hash" && Trim("order") == "order" && Trim("payout") == "payout" && Trim("note") == "note" && Trim("") == ""
  {
    hide Trim;
    TrimVisible("hash");
    TrimVisible("order");
    TrimVisible("payout");
    TrimVisible("note");
    TrimNothing();
  }

  lemma TrimNothing()
    ensures Trim("") == ""
  {
  }

  lemma ShortJourney(id: string)
    ensures Short(Journey(id))
  {
    Texts();
    hide Trim;
  }

  lemma Faultless(id: string, t: Trade)
    requires t.from == BTC && t.fromAmount == 100_000_000
    ensures FaultOf(Desk(), id, t, SEEN, None, true).None? && Insisted(Desk(), t) == 1 && PolicyFor(Desk(), t).detection == 1
  {
    Texts();
    hide Trim;
  }

  lemma Unheld(t: Trade)
    requires t.txHash.None?
    ensures !HoldsHash(t, "hash")
  {
    Texts();
    hide Trim, LowerChar;
    assert |Lower("hash")| == 4 && |Lower("")| == 0;
  }

  lemma FreshTerms(id: string)
    ensures var t := Fresh(); t.from == BTC && t.fromAmount == 100_000_000 && t.txHash.None? && RowAt(t, Journey(id), 0)
  {
    hide Priced;
  }

  lemma Expected(s: Store, id: string)
    requires s.trades == map[id := Fresh()]
    ensures Expecting(Desk(), s, Journey(id))
  {
    FreshTerms(id);
    Faultless(id, Fresh());
    Unheld(Fresh());
    hide FaultOf, Insisted, PolicyFor, HoldsHash, Fresh, RowAt, Desk, Trim;
  }

  lemma AloneMore(w: World, v: World, id: string, k: int, ask: Ask)
    requires Alone(w, id, k) && Advanced(w.db, v.db, ask, Journey(id).clock(k).now) && AskForm(Journey(id), k, ask)
    requires 0 <= k < 6 && v.events == w.events
    ensures Alone(v, id, k + 1)
  {
    hide Note, CourseAsk, KeyOf, Allowed, Past, WithTicket, Trim;
  }

  lemma NoWebhook(id: string, k: int, w: World)
    ensures Next(Desk(), w, CourseStep(Journey(id), k)).events == w.events
  {
    hide NextDb, NextSales, NextAttempts, Desk;
  }

  lemma WayIs(id: string, k: int)
    ensures Way(id, k) == Way(id, 0) + StepsOf(Journey(id), k)
  {
    hide Journey, Acceptance;
  }

  lemma WayReached(id: string, k: int)
    requires UuidText(id) && 0 <= k <= 6
    ensures Reached(Desk(), Run(Desk(), Way(id, k)), Journey(id), k)
  {
    hide *;
    Opened(id);
    DeskDrawsUuids();
    ShortJourney(id);
    Expected(Run(Desk(), Way(id, 0)).db, id);
    WayIs(id, k);
    CourseRuns(Desk(), Way(id, 0), Journey(id), k);
  }

  /** The first k steps of the course, from the beginning. */
  lemma {:induction false} GoesSoFar(id: string, k: int)
    requires UuidText(id) && 0 <= k <= 6
    ensures Reached(Desk(), Run(Desk(), Way(id, k)), Journey(id), k) && Alone(Run(Desk(), Way(id, k)), id, k)
  {
    hide *;
    WayReached(id, k);
    if k == 0 {
      Opened(id);
    } else {
      GoesSoFar(id, k - 1);
      ShortJourney(id);
      WayIs(id, k);
      WayIs(id, k - 1);
      StepMore(Desk(), Way(id, 0), Journey(id), k);
      var w := Run(Desk(), Way(id, k - 1));
      Moves(Desk(), w, Journey(id), k - 1);
      Form(Journey(id), k - 1);
      NoWebhook(id, k - 1, w);
      AloneMore(w, Run(Desk(), Way(id, k)), id, k - 1, CourseAsk(Journey(id), k - 1));
    }
  }

  // ------------------------------------------------------------------ scenes

  /** Where the trade stands: its status; whether nothing of a sale is recorded, or else a payout is under way; its
      tickets, of which only the last may be open; and how often it has been paid. */
  datatype Scene = Scene(status: Status, bare: bool, tickets: int, open: bool, paid: int)

  predicate RowIn(t: Trade, sc: Scene) {
    && t.status == sc.status && t.toExpected > 0
    && if sc.bare then t.orderId.None? && t.toActual.None? && t.conversionId.None? && t.payoutId.None? else t.payoutId == Some("payout")
  }

  ghost predicate TicketsIn(tickets: seq<Ticket>, id: string, n: int, open: bool) {
    |tickets| == n && forall i :: 0 <= i < n ==> tickets[i].trade == id && (IsOpen(tickets[i]) <==> open && i == n - 1)
  }

  ghost predicate Stage(w: World, id: string, sc: Scene) {
    && w.db.trades.Keys == {id} && RowIn(w.db.trades[id], sc) && TicketsIn(w.db.tickets, id, sc.tickets, sc.open)
    && Past(w.db, id) != [] && Times(Past(w.db, id), PayoutCompleted) == sc.paid && (sc.paid == 0 ==> w.events == {})
  }

  /** Metadata that leaves the scene's row as it is. */
  predicate Spares(m: Metadata, bare: bool) {
    if bare then m.orderId.None? && m.toAmountActual.None? && m.payoutRef.None? && m.conversionId.None?
    else m.payoutRef.None? || m.payoutRef == Some("payout")
  }

  /** The scene after a change. */
  function Moved(sc: Scene, to: Status): Scene {
    sc.(status := to, tickets := sc.tickets + if to == Status.Dispute && !sc.open then 1 else 0, open := sc.open || to == Status.Dispute,
        paid := sc.paid + if to == PayoutCompleted then 1 else 0)
  }

  lemma RowMoved(t: Trade, sc: Scene, ask: Ask, now: int)
    requires RowIn(t, sc) && Spares(ask.meta, sc.bare)
    ensures RowIn(Written(t, ask.to, ask.meta, now), Moved(sc, ask.to))
  {
    Texts();
    hide Trim, Note;
  }

  lemma TicketMoved(tickets: seq<Ticket>, id: string, sc: Scene, byUser: bool, note: string)
    requires TicketsIn(tickets, id, sc.tickets, sc.open) && (sc.open ==> sc.tickets > 0)
    ensures TicketsIn(WithTicket(tickets, id, byUser, note), id, Moved(sc, Status.Dispute).tickets, true)
  {
    hide OpenTicketOf;
    if sc.open {
      assert tickets[sc.tickets - 1].trade == id && IsOpen(tickets[sc.tickets - 1]);
    }
  }

  lemma TimesMore(h: seq<Change>, x: Change, to: Status)
    requires h != []
    ensures Times(h + [x], to) == Times(h, to) + if x.to == to then 1 else 0
  {
    assert (h + [x])[..|h|] == h;
  }

  lemma StageMoves(w: World, v: World, id: string, sc: Scene, ask: Ask, now: int)
    requires Stage(w, id, sc) && Advanced(w.db, v.db, ask, now) && ask.trade == id && Spares(ask.meta, sc.bare)
    requires (v.events == w.events || ask.to == PayoutCompleted) && sc.paid >= 0 && (sc.open ==> sc.tickets > 0)
    ensures Stage(v, id, Moved(sc, ask.to))
  {
    hide RowIn, Spares, Written, WithTicket, Past, Times, KeyOf, Allowed, TicketsIn, Note;
    RowMoved(w.db.trades[id], sc, ask, now);
    TicketMoved(w.db.tickets, id, sc, ask.meta.byUser, Note(ask.meta));
    TimesMore(Past(w.db, id), Change(Some(w.db.trades[id].status), ask.to), PayoutCompleted);
  }

  // A step that asks for a change under a new key and is not refused, moves the scene.
  lemma Plays(w: World, step: Step, id: string, sc: Scene, ask: Ask)
    requires Stage(w, id, sc) && AskOf(Desk(), w, step) == Some(ask) && ask.trade == id && Spares(ask.meta, sc.bare)
    requires Allowed(sc.status, ask.to) && KeyAsked(ask) !in w.db.keys && !Update(w.db, id, ask.to, ask.meta, step.tick).Refused?
    requires (step.Webhook? ==> ask.to == PayoutCompleted) && sc.paid >= 0 && (sc.open ==> sc.tickets > 0)
    ensures Stage(Next(Desk(), w, step), id, Moved(sc, ask.to))
  {
    StageIsReady(w, id, sc, ask);
    EventsStay(w, step);
    hide Stage, Desk, AskOf, Allowed, KeyAsked, Update, Next, Spares, Moved, Ready, Advanced;
    AsksAndAdvances(Desk(), w, step, ask);
    StageMoves(w, Next(Desk(), w, step), id, sc, ask, step.tick.now);
  }

  lemma StageIsReady(w: World, id: string, sc: Scene, ask: Ask)
    requires Stage(w, id, sc) && ask.trade == id && Allowed(sc.status, ask.to) && KeyAsked(ask) !in w.db.keys
    ensures Ready(w.db, id, ask.to, ask.meta)
  {
    hide KeyOf, Allowed, Times, Past;
  }

  lemma EventsStay(w: World, step: Step)
    ensures !step.Webhook? ==> Next(Desk(), w, step).events == w.events
  {
    hide NextDb, NextSales, NextAttempts, Desk;
  }

  /** An admin settles a ticket. */
  function Settling(ticket: nat, m: Mode, now: int): Step {
    Resolve(ticket, Some(m), "note", "admin", Tick(now, []))
  }

  // The admin's call on the last ticket, under a new key, moves the scene and closes the ticket.
  lemma Settles(w: World, id: string, sc: Scene, k: nat, m: Mode, now: int, ask: Ask)
    requires Stage(w, id, sc) && sc.open && sc.tickets == k + 1 && sc.paid >= 0 && Spares(ask.meta, sc.bare) && ask.trade == id
    requires ResolveAsk(w.db, k, Some(m), "note") == Some(ask) && Reopened(w.db, id, m, now) == w.db
    requires KeyAsked(ask) !in w.db.keys && !Update(w.db, id, ask.to, ask.meta, Tick(now, [])).Refused? && Allowed(sc.status, ask.to)
    ensures Stage(Next(Desk(), w, Settling(k, m, now)), id, Moved(sc, ask.to).(open := false))
  {
    var tick, v := Tick(now, []), Next(Desk(), w, Settling(k, m, now));
    StageIsReady(w, id, sc, ask);
    EventsStay(w, Settling(k, m, now));
    ResolvedIs(w.db, k, m, "note", "admin", tick, ask);
    ResolveStep(Desk(), w, k, Some(m), "note", "admin", tick);
    hide Stage, Desk, Next, ResolveAsk, Resolved, KeyAsked, Allowed, Update, Spares, Reopened, Advanced, Moved;
    UpdateCases(w.db, id, ask.to, ask.meta, tick);
    var mid := World(Settle(w.db, Update(w.db, id, ask.to, ask.meta, tick)), w.sales, w.attempts, w.events);
    AppliedAdvances(w.db, ask, tick, mid.db);
    StageMoves(w, mid, id, sc, ask, now);
    StageCloses(mid, v, id, Moved(sc, ask.to), k, m, now);
    MovedOpen(sc, ask.to);
  }

  lemma MovedOpen(sc: Scene, to: Status)
    ensures sc.open ==> Moved(sc, to).tickets == sc.tickets && Moved(sc, to).open
  {
  }

  lemma StageCloses(w: World, v: World, id: string, sc: Scene, k: nat, m: Mode, now: int)
    requires Stage(w, id, sc) && v.events == w.events && v.db == WithClosed(w.db, k, m, "note", "admin", now)
    ensures sc.open && sc.tickets == k + 1 ==> Stage(v, id, sc.(open := false))
  {
    hide Closed, Times;
    if k < |w.db.tickets| {
      ClosedFields(w.db.tickets[k], m, "note", "admin", now);
    }
  }

  lemma DeskIsHealthy(steps: seq<Step>, i: int)
    ensures Healthy(After(Desk(), steps, i).db)
  {
    DeskDrawsUuids();
    hide Desk, Uuids, Run, Healthy;
    RunIsHealthy(Desk(), Upto(steps, i));
  }

  // A request filed for a purpose none of the steps so far files for has a new key.
  lemma NewKeyAt(steps: seq<Step>, i: int, id: string, ask: Ask, p: Purpose)
    requires UuidText(id) && ask.trade == id && AskedFor(ask, p) && NoneFiles(Upto(steps, i), p)
    ensures KeyAsked(ask) !in After(Desk(), steps, i).db.keys
  {
    DeskDrawsUuids();
    hide Desk, Uuids, Run, UuidText, AskedFor, NoneFiles, KeyAsked;
    StoredUnder(ask, p);
    UnfiledIsNew(Desk(), Upto(steps, i), KeyAsked(ask), p, id);
  }

  lemma FineIn(w: World, id: string, sc: Scene)
    requires Stage(w, id, sc) && Healthy(w.db)
    ensures Fine(w.db, id)
  {
    hide Healthy, Fine;
    HealthyIsFine(w.db, id);
  }

  // How the scenes of these runs follow one another.
  lemma Scenes()
    ensures Moved(Scene(DepositConfirmed, true, 0, false, 0), Status.Dispute) == Scene(Status.Dispute, true, 1, true, 0)
    ensures Moved(Scene(Status.Dispute, true, 1, true, 0), DepositConfirmed).(open := false) == Scene(DepositConfirmed, true, 1, false, 0)
    ensures Moved(Scene(DepositConfirmed, true, 1, false, 0), Status.Dispute) == Scene(Status.Dispute, true, 2, true, 0)
    ensures Moved(Scene(PayoutPending, false, 0, false, 0), Status.Dispute) == Scene(Status.Dispute, false, 1, true, 0)
    ensures Moved(Scene(Status.Dispute, false, 1, true, 0), PayoutCompleted) == Scene(PayoutCompleted, false, 1, true, 1)
    ensures Moved(Scene(PayoutCompleted, false, 1, true, 1), PayoutCompleted).(open := false) == Scene(PayoutCompleted, false, 1, false, 2)
  {
  }

  // The ways a trade goes in these runs.
  lemma Ways()
    ensures Allowed(DepositConfirmed, Status.Dispute) && Allowed(PayoutPending, Status.Dispute) && Allowed(Status.Dispute, DepositConfirmed)
    ensures Allowed(Status.Dispute, PayoutCompleted) && Allowed(PayoutCompleted, PayoutCompleted)
  {
  }

  // ------------------------------------------------------------------ what the steps ask for

  /** The exchange turns the sale down for good. */
  function Escalate(id: string, now: int): Step {
    Sell(id, Hopeless("rejected"), Tick(now, []))
  }

  lemma EscalateTick(id: string, now: int)
    ensures Escalate(id, now).tick == Tick(now, []) && Escalate(id, now).Sell?
  {
  }

  lemma EscalationIs(w: World, id: string, now: int, sc: Scene)
    requires Stage(w, id, sc) && sc.status == DepositConfirmed
    ensures exists ask :: AskOf(Desk(), w, Escalate(id, now)) == Some(ask) && EscalationAsk(w, id, Hopeless("rejected"), ask)
  {
    hide Times, SellAsk, Escalating;
    EscalationForm(w, id, Hopeless("rejected"));
    SellingAsks(Desk(), w, id, Hopeless("rejected"), Tick(now, []));
  }

  lemma RejectionMeans(w: World, id: string, ask: Ask)
    requires EscalationAsk(w, id, Hopeless("rejected"), ask)
    ensures ask == Ask(id, Status.Dispute, ask.meta) && Escalating(ask.meta, id, SaleHopeless)
  {
    hide SellAsk, Escalating, EscalationAsk;
    EscalationMeans(w, id, Hopeless("rejected"), ask);
  }

  lemma EscalationSpares(id: string, m: Metadata)
    requires Escalating(m, id, SaleHopeless)
    ensures Spares(m, true) && AskedFor(Ask(id, Status.Dispute, m), SaleHopeless)
  {
    hide Head, AskedFor;
    NamedIsFor(Ask(id, Status.Dispute, m), SaleHopeless);
  }

  // An escalation's key says only whose it is.
  lemma EscalationsAlike(w: World, v: World, id: string, ask: Ask, other: Ask)
    requires UuidText(id) && EscalationAsk(w, id, Hopeless("rejected"), ask) && EscalationAsk(v, id, Hopeless("rejected"), other)
    ensures KeyAsked(ask) == KeyAsked(other) && Spares(ask.meta, true) && AskedFor(ask, SaleHopeless)
    ensures ask == Ask(id, Status.Dispute, ask.meta) && Escalating(ask.meta, id, SaleHopeless)
  {
    hide *;
    RejectionMeans(w, id, ask);
    RejectionMeans(v, id, other);
    EscalationFiled(id, ask.meta, SaleHopeless);
    EscalationFiled(id, other.meta, SaleHopeless);
    EscalationSpares(id, ask.meta);
  }

  /** The first escalation of a trade up for sale disputes it. */
  lemma EscalatesFirst(w: World, id: string, now: int, sc: Scene, ask: Ask)
    requires UuidText(id) && Stage(w, id, sc) && sc.status == DepositConfirmed && sc.bare && sc.paid >= 0 && !sc.open && Healthy(w.db)
    requires AskOf(Desk(), w, Escalate(id, now)) == Some(ask) && EscalationAsk(w, id, Hopeless("rejected"), ask) && KeyAsked(ask) !in w.db.keys
    ensures Stage(Next(Desk(), w, Escalate(id, now)), id, Moved(sc, Status.Dispute))
    ensures !Update(w.db, id, Status.Dispute, ask.meta, Tick(now, [])).Refused?
  {
    hide *;
    Ways();
    EscalateTick(id, now);
    FineIn(w, id, sc);
    StageStatus(w, id, sc);
    EscalationsAlike(w, w, id, ask, ask);
    EscalationNotRefused(w.db, id, ask.meta, SaleHopeless, Tick(now, []));
    Plays(w, Escalate(id, now), id, sc, ask);
  }

  /** A user's complaint. */
  function Complain(id: string, now: int): Step {
    Step.RaiseDispute(id, "stuck", Tick(now, []))
  }

  function Complaint(id: string): Ask {
    Ask(id, Status.Dispute, Raised("stuck"))
  }

  lemma ComplaintIs(w: World, id: string, now: int, sc: Scene)
    requires Stage(w, id, sc)
    ensures AskOf(Desk(), w, Complain(id, now)) == Some(Complaint(id)) && AskedFor(Complaint(id), ByDefault(Status.Dispute))
    ensures Spares(Complaint(id).meta, sc.bare) && Owes(w.db, id, Status.Dispute, Raised("stuck")) && |TrimRight("stuck")| <= 55
  {
    hide Times;
  }

  /** The first complaint of a user goes through. */
  lemma ComplainsFirst(w: World, id: string, now: int, sc: Scene)
    requires Stage(w, id, sc) && Allowed(sc.status, Status.Dispute) && !sc.open && sc.paid >= 0 && Healthy(w.db)
    requires KeyAsked(Complaint(id)) !in w.db.keys
    ensures Stage(Next(Desk(), w, Complain(id, now)), id, Moved(sc, Status.Dispute))
  {
    hide *;
    ComplaintFor(id, now);
    ComplaintIs(w, id, now, sc);
    StageIsReady(w, id, sc, Complaint(id));
    RaiseRefusedIff(w.db, id, "stuck", Tick(now, []));
    Plays(w, Complain(id, now), id, sc, Complaint(id));
  }

  /** The admin's retry of the last ticket of a trade with nothing recorded. */
  lemma RetryIs(w: World, id: string, k: nat, now: int, sc: Scene)
    requires Stage(w, id, sc) && sc.bare && sc.open && sc.tickets == k + 1
    ensures RetryOf(w.db, Settling(k, RetryProcessing, now), id, DepositConfirmed)
    ensures exists ask :: RetryAsked(w.db, id, k, ask)
  {
    Texts();
    hide Times, Trim, FirstNonBlank;
    var s := w.db;
    assert RetryAsked(s, id, k, ResolutionAsk(id, s.trades[id], s.tickets[k].reason, RetryProcessing, "note"));
  }

  predicate RetryAsked(s: Store, id: string, k: nat, ask: Ask) {
    && ResolveAsk(s, k, Some(RetryProcessing), "note") == Some(ask) && ask.trade == id && ask.to == DepositConfirmed && Spares(ask.meta, true)
    && About(s, k, id) && RetryStatus(s.trades[id]) == DepositConfirmed
  }

  lemma RetryNotRefused(s: Store, id: string, k: nat, tick: Tick, ask: Ask)
    requires RetryAsked(s, id, k, ask) && Healthy(s) && Ready(s, id, DepositConfirmed, ask.meta)
    ensures !Update(s, id, DepositConfirmed, ask.meta, tick).Refused? && Reopened(s, id, RetryProcessing, tick.now) == s
  {
    Texts();
    assert |RetryReason(s.tickets[k].reason, "note")| == 4;
    hide Healthy, Ready, ResolutionAsk, RetryReason, Update, RetryStatus, Trim;
    RetryRefusedIff(s, k, "note", id, s.trades[id], s.tickets[k].reason, tick);
  }

  /** The first retry goes through: the trade is up for sale again and the ticket is closed. */
  lemma RetriesFirst(w: World, id: string, k: nat, now: int, sc: Scene, ask: Ask)
    requires Stage(w, id, sc) && sc.bare && sc.open && sc.tickets == k + 1 && sc.paid >= 0 && sc.status == Status.Dispute
    requires Healthy(w.db) && RetryAsked(w.db, id, k, ask) && KeyAsked(ask) !in w.db.keys
    ensures Stage(Next(Desk(), w, Settling(k, RetryProcessing, now)), id, Moved(sc, DepositConfirmed).(open := false))
    ensures !OutcomeOf(Desk(), w, Settling(k, RetryProcessing, now)).Refused?
  {
    hide *;
    Ways();
    RetryMeans(w.db, id, k, ask);
    StageIsReady(w, id, sc, ask);
    RetryNotRefused(w.db, id, k, Tick(now, []), ask);
    SettlingOutcome(w, k, RetryProcessing, now, ask);
    Settles(w, id, sc, k, RetryProcessing, now, ask);
  }

  lemma RetryMeans(s: Store, id: string, k: nat, ask: Ask)
    requires RetryAsked(s, id, k, ask)
    ensures ResolveAsk(s, k, Some(RetryProcessing), "note") == Some(ask) && ask.trade == id && ask.to == DepositConfirmed && Spares(ask.meta, true)
  {
    hide ResolveAsk, Spares, RetryStatus;
  }

  lemma SettlingOutcome(w: World, k: nat, m: Mode, now: int, ask: Ask)
    requires ResolveAsk(w.db, k, Some(m), "note") == Some(ask)
    ensures OutcomeOf(Desk(), w, Settling(k, m, now)) == Update(Reopened(w.db, ask.trade, m, now), ask.trade, ask.to, ask.meta, Tick(now, []))
  {
    hide Desk, ResolveAsk, ResolveGround, Reopened, Update;
    ResolvedIs(w.db, k, m, "note", "admin", Tick(now, []), ask);
  }

  // ------------------------------------------------------------------ the run that strands a trade

  /** A sale that fails for good, twice, a user's complaint, and two resolutions with the same note. */
  function Stranding(id: string): seq<Step> {
    Way(id, 2) + [Escalate(id, 20), Settling(0, RetryProcessing, 21), Escalate(id, 22), Complain(id, 23), Settling(1, RetryProcessing, 24)]
  }

  lemma JourneySteps(id: string)
    ensures Way(id, 2) == [OFFER, Acceptance(id), CourseStep(Journey(id), 0), CourseStep(Journey(id), 1)]
    ensures Way(id, 4) == Way(id, 2) + [CourseStep(Journey(id), 2), CourseStep(Journey(id), 3)] == Way(id, 3) + [CourseStep(Journey(id), 3)]
    ensures Way(id, 5) == Way(id, 2) + [CourseStep(Journey(id), 2), CourseStep(Journey(id), 3), CourseStep(Journey(id), 4)]
  {
    var c := Journey(id);
    hide CourseStep, Acceptance, Journey;
    assert StepsOf(c, 0) == [] && StepsOf(c, 1) == [CourseStep(c, 0)];
    assert StepsOf(c, 2) == [CourseStep(c, 0), CourseStep(c, 1)];
    assert StepsOf(c, 3) == StepsOf(c, 2) + [CourseStep(c, 2)];
    assert StepsOf(c, 4) == StepsOf(c, 3) + [CourseStep(c, 3)];
    assert StepsOf(c, 5) == StepsOf(c, 4) + [CourseStep(c, 4)];
  }

  lemma StrandingSteps(id: string)
    ensures |Stranding(id)| == 9 && Upto(Stranding(id), 4) == Way(id, 2) && IsAt(Stranding(id), 4, Escalate(id, 20))
    ensures IsAt(Stranding(id), 5, Settling(0, RetryProcessing, 21)) && IsAt(Stranding(id), 6, Escalate(id, 22))
    ensures IsAt(Stranding(id), 7, Complain(id, 23)) && IsAt(Stranding(id), 8, Settling(1, RetryProcessing, 24))
  {
    JourneySteps(id);
    hide Way, Escalate, Settling, Complain;
  }

  lemma StrandingFiles(id: string)
    ensures NoneFiles(Upto(Stranding(id), 4), SaleHopeless) && NoneFiles(Upto(Stranding(id), 5), ByDefault(DepositConfirmed))
    ensures NoneFiles(Upto(Stranding(id), 7), ByDefault(Status.Dispute))
  {
    JourneySteps(id);
    hide Way;
  }

  lemma Stage4(id: string)
    requires UuidText(id)
    ensures Stage(After(Desk(), Stranding(id), 4), id, Scene(DepositConfirmed, true, 0, false, 0))
  {
    hide *;
    StrandingSteps(id);
    AfterIs(Stranding(id), 4);
    Reaching();
    GoesSoFar(id, 2);
    SceneAt(Run(Desk(), Way(id, 2)), id, 2, Scene(DepositConfirmed, true, 0, false, 0));
  }

  lemma AfterIs(steps: seq<Step>, k: int)
    ensures After(Desk(), steps, k) == Run(Desk(), Upto(steps, k))
  {
    hide Run, Desk, Upto;
  }

  lemma Reaching()
    ensures StatusAt(2) == DepositConfirmed && StatusAt(5) == PayoutPending
  {
  }

  lemma SceneAt(w: World, id: string, k: int, sc: Scene)
    requires Reached(Desk(), w, Journey(id), k) && Alone(w, id, k) && (k == 2 || k == 5)
    requires sc == Scene(StatusAt(k), k == 2, 0, false, 0)
    ensures Stage(w, id, sc)
  {
    Texts();
    hide Desk, Orderly, SeenAt, KeysNew, Trim, Past, PathTo, Times;
    UnpaidYet(Past(w.db, id), k);
  }

  lemma {:induction false} UnpaidYet(h: seq<Change>, k: int)
    requires PathTo(h, k) && 0 <= k < 6
    ensures h != [] && Times(h, PayoutCompleted) == 0
  {
    if k > 0 {
      UnpaidYet(h[..|h| - 1], k - 1);
    }
  }

  /** The trade is in dispute under its first ticket, by an escalation. */
  lemma Stage5(id: string)
    requires UuidText(id)
    ensures Stage(After(Desk(), Stranding(id), 5), id, Scene(Status.Dispute, true, 1, true, 0))
    ensures exists ask :: AskOf(Desk(), After(Desk(), Stranding(id), 4), Escalate(id, 20)) == Some(ask)
              && EscalationAsk(After(Desk(), Stranding(id), 4), id, Hopeless("rejected"), ask)
              && !OutcomeOf(Desk(), After(Desk(), Stranding(id), 4), Escalate(id, 20)).Refused?
  {
    hide *;
    Scenes();
    EscalateTick(id, 20);
    var steps := Stranding(id);
    StrandingSteps(id);
    StrandingFiles(id);
    var w, sc := After(Desk(), steps, 4), Scene(DepositConfirmed, true, 0, false, 0);
    Stage4(id);
    EscalationIs(w, id, 20, sc);
    var ask :| AskOf(Desk(), w, Escalate(id, 20)) == Some(ask) && EscalationAsk(w, id, Hopeless("rejected"), ask);
    EscalationsAlike(w, w, id, ask, ask);
    NewKeyAt(steps, 4, id, ask, SaleHopeless);
    DeskIsHealthy(steps, 4);
    EscalatesFirst(w, id, 20, sc, ask);
    AskingStep(Desk(), w, Escalate(id, 20), ask);
    RunStep(Desk(), steps, 4, Escalate(id, 20));
  }

  /** An admin's retry has sent it back. */
  lemma Stage6(id: string)
    requires UuidText(id)
    ensures Stage(After(Desk(), Stranding(id), 6), id, Scene(DepositConfirmed, true, 1, false, 0))
    ensures RetryOf(After(Desk(), Stranding(id), 5).db, Settling(0, RetryProcessing, 21), id, DepositConfirmed)
    ensures !OutcomeOf(Desk(), After(Desk(), Stranding(id), 5), Settling(0, RetryProcessing, 21)).Refused?
  {
    hide *;
    Scenes();
    var steps, step := Stranding(id), Settling(0, RetryProcessing, 21);
    StrandingSteps(id);
    StrandingFiles(id);
    var w, sc := After(Desk(), steps, 5), Scene(Status.Dispute, true, 1, true, 0);
    Stage5(id);
    RetryIs(w, id, 0, 21, sc);
    var ask :| RetryAsked(w.db, id, 0, ask);
    RetryMeans(w.db, id, 0, ask);
    ResolutionIsFor(w.db, 0, Some(RetryProcessing), "note", ask);
    NewKeyAt(steps, 5, id, ask, ByDefault(DepositConfirmed));
    DeskIsHealthy(steps, 5);
    RetriesFirst(w, id, 0, 21, sc, ask);
    RunStep(Desk(), steps, 5, step);
  }

  /** The second escalation of the trade is swallowed: no table changes, and the trade stays up for sale. */
  lemma SecondEscalationSwallowed(id: string)
    requires UuidText(id)
    ensures IsAt(Stranding(id), 6, Escalate(id, 22)) && After(Desk(), Stranding(id), 7).db == After(Desk(), Stranding(id), 6).db
    ensures ForSale(After(Desk(), Stranding(id), 7).db, id)
  {
    hide *;
    var steps := Stranding(id);
    StrandingSteps(id);
    Stage6(id);
    StageForSale(After(Desk(), steps, 6), id, Scene(DepositConfirmed, true, 1, false, 0));
    Stage5(id);
    var w, v := After(Desk(), steps, 4), After(Desk(), steps, 6);
    var ask :| AskOf(Desk(), w, Escalate(id, 20)) == Some(ask) && EscalationAsk(w, id, Hopeless("rejected"), ask)
               && !OutcomeOf(Desk(), w, Escalate(id, 20)).Refused?;
    EscalationIs(v, id, 22, Scene(DepositConfirmed, true, 1, false, 0));
    var again :| AskOf(Desk(), v, Escalate(id, 22)) == Some(again) && EscalationAsk(v, id, Hopeless("rejected"), again);
    EscalationsAlike(w, v, id, ask, again);
    AskedAgainIsSilent(Desk(), steps, 4, 6, Escalate(id, 20), Escalate(id, 22), ask, again);
  }

  lemma StageForSale(w: World, id: string, sc: Scene)
    requires Stage(w, id, sc) && sc.status == DepositConfirmed
    ensures ForSale(w.db, id)
  {
    hide Times;
  }

  lemma SwallowedEvents(id: string, w: World)
    ensures Next(Desk(), w, Escalate(id, 22)).events == w.events
  {
    hide NextDb, NextSales, NextAttempts, Desk;
  }

  lemma SameTablesStage(w: World, v: World, id: string, sc: Scene)
    requires Stage(w, id, sc) && v.db == w.db && v.events == w.events
    ensures Stage(v, id, sc)
  {
    hide Times;
  }

  /** The user's complaint has put it back into dispute, under its second ticket. */
  lemma Stage8(id: string)
    requires UuidText(id)
    ensures Stage(After(Desk(), Stranding(id), 8), id, Scene(Status.Dispute, true, 2, true, 0))
  {
    hide *;
    Scenes();
    Ways();
    var steps, sc := Stranding(id), Scene(DepositConfirmed, true, 1, false, 0);
    var u, w := After(Desk(), steps, 6), After(Desk(), steps, 7);
    StrandingSteps(id);
    StrandingFiles(id);
    Stage6(id);
    SecondEscalationSwallowed(id);
    RunStep(Desk(), steps, 6, Escalate(id, 22));
    SwallowedEvents(id, u);
    SameTablesStage(u, w, id, sc);
    ComplaintIs(w, id, 23, sc);
    ComplaintFor(id, 23);
    NewKeyAt(steps, 7, id, Complaint(id), ByDefault(Status.Dispute));
    DeskIsHealthy(steps, 7);
    ComplainsFirst(w, id, 23, sc);
    RunStep(Desk(), steps, 7, Complain(id, 23));
  }

  lemma ComplaintFor(id: string, now: int)
    ensures Complaint(id) == Ask(id, Status.Dispute, Raised("stuck")) && Complain(id, now) == Step.RaiseDispute(id, "stuck", Tick(now, []))
  {
  }

  lemma SettlingsAlike()
    ensures SameNote(Settling(0, RetryProcessing, 21), Settling(1, RetryProcessing, 24))
  {
    hide Trim;
  }

  /** A dispute nobody can resolve is reached: after two resolutions of one trade with the same note, the trade is in
      dispute and has no open ticket. */
  lemma DisputeStranded(id: string)
    requires UuidText(id)
    ensures Stranded(Run(Desk(), Stranding(id)).db, id)
  {
    hide *;
    var steps := Stranding(id);
    var first, second := Settling(0, RetryProcessing, 21), Settling(1, RetryProcessing, 24);
    StrandingSteps(id);
    SettlingsAlike();
    Stage6(id);
    Stage8(id);
    RetryIs(After(Desk(), steps, 8), id, 1, 24, Scene(Status.Dispute, true, 2, true, 0));
    StageStatus(After(Desk(), steps, 8), id, Scene(Status.Dispute, true, 2, true, 0));
    SameNoteStrands(Desk(), steps, 5, 8, first, second, id, DepositConfirmed);
    RunWhole(Desk(), steps);
  }

  lemma StageStatus(w: World, id: string, sc: Scene)
    requires Stage(w, id, sc)
    ensures InStatus(w.db, id, sc.status)
  {
    hide Times;
  }

  // ------------------------------------------------------------------ a balance read wrong

  lemma WayTimes(id: string)
    ensures Clocked(Way(id, 4)) && Way(id, 4) == Way(id, 3) + [CourseStep(Journey(id), 3)]
    ensures CourseStep(Journey(id), 3).tick.Id(5) <= CourseStep(Journey(id), 3).tick.Id(2)
  {
    JourneySteps(id);
  }

  // The conversion takes its fee.
  lemma TakesFee(w: World, id: string)
    requires Made(Desk(), w, CourseStep(Journey(id), 3)) == Some(CourseAsk(Journey(id), 3)) && Alone(w, id, 3)
    ensures FeeTaken(Desk(), w, CourseStep(Journey(id), 3)) > 0
  {
    hide Made, Desk, CourseStep, SaleEnd;
  }

  lemma DrawnOutOfOrder(cfg: Config, before: seq<Step>, step: Step)
    requires FeeTaken(cfg, Run(cfg, before), step) > 0 && step.tick.Id(5) <= step.tick.Id(2)
    ensures !AllDrawnInOrder(cfg, before + [step])
  {
    hide Run, FeeTaken;
    assert (before + [step])[..|before|] == before;
  }

  /** A balance read wrong is reached: on the ordinary way to a completed conversion, with the fee's row drawing the
      smaller identifier, the fiat holding account is read back higher than its debits minus its credits. */
  lemma BalanceMisread(id: string)
    requires UuidText(id)
    ensures var rows := Run(Desk(), Way(id, 4)).db.ledger; Balance(rows, Holding(NGN), NGN) > Net(rows, Holding(NGN), NGN)
  {
    WayTimes(id);
    ShortJourney(id);
    hide Run, Desk, Way, UuidText, Clocked, Reached, Alone, Short, FeeTaken, AllDrawnInOrder, UnreadFees, Balance, Net, CourseStep, Journey, Advanced, InOrder,
         CourseAsk, Made;
    var w := Run(Desk(), Way(id, 3));
    GoesSoFar(id, 3);
    Moves(Desk(), w, Journey(id), 3);
    TakesFee(w, id);
    DrawnOutOfOrder(Desk(), Way(id, 3), CourseStep(Journey(id), 3));
    UnreadIff(Desk(), Way(id, 4));
    RunReadsIff(Desk(), Way(id, 4));
  }

  // ------------------------------------------------------------------ a user paid twice

  /** The provider's webhook reports the payout of the trade as made. */
  function Report(id: string, now: int): Step {
    Webhook("event", "payout", Some(id), PaidOut, "", Tick(now, []))
  }

  // The webhook asks for the completion of the trade, whatever its status.
  lemma ReportIs(w: World, id: string, now: int, sc: Scene)
    requires Stage(w, id, sc) && !sc.bare && sc.paid == 0
    ensures AskOf(Desk(), w, Report(id, now)) == Some(PayoutCompleteAsk(id, "payout"))
  {
    hide PayoutCompleteAsk, Times;
    assert AnswersPayout(w.db, "payout", Some(id));
  }

  lemma CompletionForm(id: string)
    ensures var ask := PayoutCompleteAsk(id, "payout"); ask.trade == id && ask.to == PayoutCompleted && Spares(ask.meta, false)
  {
    hide Filed, Folded;
  }

  lemma ReportTexts(id: string, now: int)
    ensures Report(id, now).tick == Tick(now, []) && |Trim("payout")| == 6 && Trim("payout") != "" && Allowed(Status.Dispute, PayoutCompleted)
  {
    Texts();
    hide Trim;
  }

  /** The webhook goes through on the disputed trade, and leaves its ticket open. */
  lemma Reports(w: World, id: string, now: int, sc: Scene)
    requires Stage(w, id, sc) && !sc.bare && sc.paid == 0 && sc.status == Status.Dispute && (sc.open ==> sc.tickets > 0) && Healthy(w.db)
    requires KeyAsked(PayoutCompleteAsk(id, "payout")) !in w.db.keys
    ensures Stage(Next(Desk(), w, Report(id, now)), id, Moved(sc, PayoutCompleted))
  {
    var ask := PayoutCompleteAsk(id, "payout");
    ReportTexts(id, now);
    hide *;
    ReportIs(w, id, now, sc);
    CompletionForm(id);
    StageIsReady(w, id, sc, ask);
    PayoutRefusedIff(w.db, id, "payout", "", Tick(now, []));
    assert !Update(w.db, id, PayoutCompleted, ask.meta, Tick(now, [])).Refused?;
    Plays(w, Report(id, now), id, sc, ask);
  }

  /** The admin forces the completion of the trade of the last ticket. */
  lemma ForceIs(w: World, id: string, k: nat, now: int, sc: Scene)
    requires Stage(w, id, sc) && !sc.bare && sc.open && sc.tickets == k + 1
    ensures exists ask, t :: ForceAsked(w.db, id, k, ask, t)
  {
    Texts();
    hide Times, Trim;
    var s := w.db;
    assert ForceAsked(s, id, k, ResolutionAsk(id, s.trades[id], s.tickets[k].reason, ForceComplete, "note"), s.trades[id]);
  }

  predicate ForceAsked(s: Store, id: string, k: nat, ask: Ask, t: Trade) {
    && ResolveAsk(s, k, Some(ForceComplete), "note") == Some(ask) && ask.trade == id && ask.to == PayoutCompleted && Spares(ask.meta, false)
    && About(s, k, id) && RowIs(s, id, t) && t.toExpected > 0 && |ForcedRef(id, t)| == 6 && |ForceReason("note")| == 4
  }

  lemma ForceMeans(s: Store, id: string, k: nat, ask: Ask, t: Trade)
    requires ForceAsked(s, id, k, ask, t)
    ensures ResolveAsk(s, k, Some(ForceComplete), "note") == Some(ask) && ask.trade == id && ask.to == PayoutCompleted && Spares(ask.meta, false)
  {
    hide ResolveAsk, Spares, ForcedRef, ForceReason;
  }

  lemma ForceNotRefused(s: Store, id: string, k: nat, tick: Tick, ask: Ask, t: Trade)
    requires ForceAsked(s, id, k, ask, t) && Healthy(s) && Ready(s, id, PayoutCompleted, ask.meta)
    ensures !Update(s, id, PayoutCompleted, ask.meta, tick).Refused?
  {
    ForceKeepsGround(s, id, tick.now);
    hide Healthy, Ready, Update, ResolutionAsk, ForcedRef, ForceReason, Spares, Reopened, Trim;
    ForceRefusedIff(s, k, "note", id, t, s.tickets[k].reason, tick);
  }

  lemma ForceKeepsGround(s: Store, id: string, now: int)
    ensures Reopened(s, id, ForceComplete, now) == s
  {
  }

  /** The forced completion goes through on the paid trade. */
  lemma Forces(w: World, id: string, k: nat, now: int, sc: Scene, ask: Ask, t: Trade)
    requires Stage(w, id, sc) && !sc.bare && sc.open && sc.tickets == k + 1 && sc.paid >= 0 && sc.status == PayoutCompleted
    requires Healthy(w.db) && ForceAsked(w.db, id, k, ask, t) && KeyAsked(ask) !in w.db.keys
    ensures Stage(Next(Desk(), w, Settling(k, ForceComplete, now)), id, Moved(sc, PayoutCompleted).(open := false))
  {
    hide *;
    Ways();
    ForceKeepsGround(w.db, id, now);
    ForceMeans(w.db, id, k, ask, t);
    StageIsReady(w, id, sc, ask);
    ForceNotRefused(w.db, id, k, Tick(now, []), ask, t);
    Settles(w, id, sc, k, ForceComplete, now, ask);
  }

  /** An ordinary trade under payout, a user's complaint, the provider's webhook, and an admin who resolves the ticket the
      webhook left open. */
  function Doubling(id: string): seq<Step> {
    Way(id, 5) + [Complain(id, 20), Report(id, 21), Settling(0, ForceComplete, 22)]
  }

  lemma DoublingSteps(id: string)
    ensures |Doubling(id)| == 10 && Upto(Doubling(id), 7) == Way(id, 5) && IsAt(Doubling(id), 7, Complain(id, 20))
    ensures IsAt(Doubling(id), 8, Report(id, 21)) && IsAt(Doubling(id), 9, Settling(0, ForceComplete, 22))
  {
    JourneySteps(id);
    hide Way, Report, Settling, Complain;
  }

  lemma DoublingFiles(id: string)
    ensures NoneFiles(Upto(Doubling(id), 7), ByDefault(Status.Dispute)) && NoneFiles(Upto(Doubling(id), 8), PayoutDone)
    ensures NoneFiles(Upto(Doubling(id), 9), ByDefault(PayoutCompleted))
  {
    JourneySteps(id);
    hide Way;
  }

  lemma UnderPayout(id: string)
    requires UuidText(id)
    ensures Stage(After(Desk(), Doubling(id), 7), id, Scene(PayoutPending, false, 0, false, 0))
  {
    hide *;
    DoublingSteps(id);
    AfterIs(Doubling(id), 7);
    Reaching();
    GoesSoFar(id, 5);
    SceneAt(Run(Desk(), Way(id, 5)), id, 5, Scene(PayoutPending, false, 0, false, 0));
  }

  lemma Complained(id: string)
    requires UuidText(id)
    ensures Stage(After(Desk(), Doubling(id), 8), id, Scene(Status.Dispute, false, 1, true, 0))
  {
    hide *;
    Scenes();
    Ways();
    var steps, sc := Doubling(id), Scene(PayoutPending, false, 0, false, 0);
    DoublingSteps(id);
    DoublingFiles(id);
    var w := After(Desk(), steps, 7);
    UnderPayout(id);
    ComplaintIs(w, id, 20, sc);
    ComplaintFor(id, 20);
    NewKeyAt(steps, 7, id, Complaint(id), ByDefault(Status.Dispute));
    DeskIsHealthy(steps, 7);
    ComplainsFirst(w, id, 20, sc);
    RunStep(Desk(), steps, 7, Complain(id, 20));
  }

  lemma Reported(id: string)
    requires UuidText(id)
    ensures Stage(After(Desk(), Doubling(id), 9), id, Scene(PayoutCompleted, false, 1, true, 1))
  {
    hide *;
    Scenes();
    var steps, ask := Doubling(id), PayoutCompleteAsk(id, "payout");
    DoublingSteps(id);
    DoublingFiles(id);
    CompletionForm(id);
    Complained(id);
    PayoutIsFor(id, "payout", "");
    NewKeyAt(steps, 8, id, ask, PayoutDone);
    DeskIsHealthy(steps, 8);
    Reports(After(Desk(), steps, 8), id, 21, Scene(Status.Dispute, false, 1, true, 0));
    RunStep(Desk(), steps, 8, Report(id, 21));
  }

  lemma Forced(id: string)
    requires UuidText(id)
    ensures Stage(After(Desk(), Doubling(id), 10), id, Scene(PayoutCompleted, false, 1, false, 2))
  {
    hide *;
    Scenes();
    var steps, sc := Doubling(id), Scene(PayoutCompleted, false, 1, true, 1);
    DoublingSteps(id);
    DoublingFiles(id);
    var w := After(Desk(), steps, 9);
    Reported(id);
    ForceIs(w, id, 0, 22, sc);
    var ask, t :| ForceAsked(w.db, id, 0, ask, t);
    ForceMeans(w.db, id, 0, ask, t);
    ResolutionIsFor(w.db, 0, Some(ForceComplete), "note", ask);
    NewKeyAt(steps, 9, id, ask, ByDefault(PayoutCompleted));
    DeskIsHealthy(steps, 9);
    Forces(w, id, 0, 22, sc, ask, t);
    RunStep(Desk(), steps, 9, Settling(0, ForceComplete, 22));
  }

  /** What is owed has reached the user twice. */
  ghost predicate PaidTwice(s: Store, id: string, t: Trade) {
    RowIs(s, id, t) && t.toExpected > 0 && PaidOver(s.ledger, id, t) == 2 * t.toExpected
  }

  /** A user paid twice is reached: the webhook completes the disputed trade and leaves its ticket open, and the admin who
      then forces the completion pays the whole amount a second time. */
  lemma UserPaidTwice(id: string)
    requires UuidText(id)
    ensures InStatus(After(Desk(), Doubling(id), 8).db, id, Status.Dispute) && InStatus(After(Desk(), Doubling(id), 9).db, id, PayoutCompleted)
    ensures HasOpenTicket(After(Desk(), Doubling(id), 9).db, id)
    ensures exists t :: PaidTwice(Run(Desk(), Doubling(id)).db, id, t)
  {
    hide *;
    var steps := Doubling(id);
    DoublingSteps(id);
    Complained(id);
    Reported(id);
    Forced(id);
    StageStatus(After(Desk(), steps, 8), id, Scene(Status.Dispute, false, 1, true, 0));
    StageStatus(After(Desk(), steps, 9), id, Scene(PayoutCompleted, false, 1, true, 1));
    StageOpen(After(Desk(), steps, 9), id, Scene(PayoutCompleted, false, 1, true, 1));
    RunWhole(Desk(), steps);
    PaidUp(steps, id, Scene(PayoutCompleted, false, 1, false, 2));
  }

  lemma StageOpen(w: World, id: string, sc: Scene)
    requires Stage(w, id, sc) && sc.open && sc.tickets > 0
    ensures HasOpenTicket(w.db, id)
  {
    hide Times, OpenTicketOf;
    assert IsOpen(w.db.tickets[sc.tickets - 1]);
  }

  lemma PaidUp(steps: seq<Step>, id: string, sc: Scene)
    requires Stage(Run(Desk(), steps), id, sc) && sc.paid == 2
    ensures exists t :: PaidTwice(Run(Desk(), steps).db, id, t)
  {
    hide Run, Desk, Times, Past, TradeNet;
    var s := Run(Desk(), steps).db;
    UserIsPaid(Desk(), steps, id, s.trades[id]);
    assert PaidTwice(s, id, s.trades[id]);
  }

  // ------------------------------------------------------------------ an identifier

  const SOME_ID := "3f0c8a52-7d1e-4b96-9a25-c04e6d8b1f37"

  lemma {:induction false} CharactersMakeUuid(id: string, i: nat)
    requires i <= |id| && forall j :: i <= j < |id| ==> if j in {8, 13, 18, 23} then id[j] == '-' else IsHex(id[j])
    ensures UuidFrom(id, i)
    decreases |id| - i
  {
    if i < |id| {
      CharactersMakeUuid(id, i + 1);
    }
  }

  /** There are such identifiers. */
  lemma SomeUuid()
    ensures UuidText(SOME_ID)
  {
    CharactersMakeUuid(SOME_ID, 0);
  }
}
