/** Dispute tickets: never two open at once, and an open one for every disputed trade as long as each resolution
    reserves a new key. */
module Tickets {
  import opened Wrappers
  import opened Text
  import opened Lifecycle
  import opened Ledger
  import opened Store
  import opened Steps
  import opened Asks
  import opened Growth
  import opened ExactlyOnce

  /** No trade has two open tickets. */
  ghost predicate OneOpen(tickets: seq<Ticket>) {
    forall i, j :: 0 <= i < j < |tickets| && tickets[i].trade == tickets[j].trade ==> !(IsOpen(tickets[i]) && IsOpen(tickets[j]))
  }

  predicate HasOpenTicket(s: Store, id: string) {
    OpenTicketOf(s.tickets, id).Some?
  }

  /** Every disputed trade has an open ticket. */
  ghost predicate DisputesTicketed(s: Store) {
    forall id <- s.trades :: s.trades[id].status == Dispute ==> HasOpenTicket(s, id)
  }

  // ------------------------------------------------------------------ opening

  lemma OpeningKeepsOne(tickets: seq<Ticket>, trade: string, byUser: bool, note: string)
    requires OneOpen(tickets)
    ensures OneOpen(WithTicket(tickets, trade, byUser, note))
  {
    hide OpenTicketOf;
  }

  lemma OpeningOpens(tickets: seq<Ticket>, trade: string, byUser: bool, note: string, id: string)
    ensures OpenTicketOf(WithTicket(tickets, trade, byUser, note), id).Some? <==> id == trade || OpenTicketOf(tickets, id).Some?
  {
    var after := WithTicket(tickets, trade, byUser, note);
    if after != tickets {
      assert after[..|tickets|] == tickets;
    }
  }

  lemma UpdateKeepsOne(s: Store, trade: string, to: Status, m: Metadata, tick: Tick)
    requires OneOpen(s.tickets)
    ensures OneOpen(Settle(s, Update(s, trade, to, m, tick)).tickets)
  {
    hide Update, OneOpen, WithTicket, KeyOf, Written, Posted, Past, FitsRow, Allowed, Note;
    if Update(s, trade, to, m, tick).Applied? {
      WhenApplied(s, trade, to, m, tick);
      OpeningKeepsOne(s.tickets, trade, m.byUser, Note(m));
    }
  }

  lemma UpdateKeepsTicketed(s: Store, trade: string, to: Status, m: Metadata, tick: Tick)
    requires DisputesTicketed(s)
    ensures DisputesTicketed(Settle(s, Update(s, trade, to, m, tick)))
  {
    hide Update, OpenTicketOf, WithTicket, KeyOf, Posted, Past, FitsRow, Allowed, Note, Given;
    var o := Update(s, trade, to, m, tick);
    if o.Applied? {
      WhenApplied(s, trade, to, m, tick);
      forall id | id in o.after.trades && o.after.trades[id].status == Dispute
        ensures HasOpenTicket(o.after, id)
      {
        OpeningOpens(s.tickets, trade, m.byUser, Note(m), id);
      }
    }
  }

  // ------------------------------------------------------------------ closing

  lemma ClosingKeepsOne(tickets: seq<Ticket>, k: nat, closed: Ticket)
    requires OneOpen(tickets) && k < |tickets| && closed.trade == tickets[k].trade && !IsOpen(closed)
    ensures OneOpen(tickets[k := closed])
  {
  }

  // Closing its only open ticket leaves a trade with none, and no other trade with fewer.
  lemma ClosingCloses(tickets: seq<Ticket>, k: nat, closed: Ticket, id: string)
    requires OneOpen(tickets) && k < |tickets| && IsOpen(tickets[k]) && closed.trade == tickets[k].trade && !IsOpen(closed)
    ensures OpenTicketOf(tickets[k := closed], id).Some? <==> id != tickets[k].trade && OpenTicketOf(tickets, id).Some?
  {
    var after := tickets[k := closed];
    hide OpenTicketOf;
    var o := OpenTicketOf(tickets, id);
    if id != tickets[k].trade && o.Some? {
      assert after[o.value] == tickets[o.value];
    }
    var p := OpenTicketOf(after, id);
    if p.Some? {
      assert p.value != k && after[p.value] == tickets[p.value];
    }
  }

  lemma ClosedFields(k: Ticket, mode: Mode, note: string, resolver: string, now: int)
    ensures Closed(k, mode, note, resolver, now).trade == k.trade && !IsOpen(Closed(k, mode, note, resolver, now))
  {
    hide Trim;
  }

  /** A ticket about a trade. */
  predicate About(s: Store, ticket: nat, id: string) {
    ticket < |s.tickets| && s.tickets[ticket].trade == id && id in s.trades
  }

  /** What a resolution that goes through does: the change, then the ticket. */
  lemma ResolvedIs(s: Store, ticket: nat, m: Mode, note: string, resolver: string, tick: Tick, ask: Ask)
    requires ResolveAsk(s, ticket, Some(m), note) == Some(ask)
    ensures About(s, ticket, ask.trade) && ResolveGround(s, ticket, Some(m), tick.now) == Reopened(s, ask.trade, m, tick.now)
    ensures var o := Update(Reopened(s, ask.trade, m, tick.now), ask.trade, ask.to, ask.meta, tick);
            Resolved(s, ticket, Some(m), note, resolver, tick)
            == if o.Refused? then s else WithClosed(Settle(Reopened(s, ask.trade, m, tick.now), o), ticket, m, note, resolver, tick.now)
    ensures ask.to in {DepositConfirmed, ConversionCompleted, DisputeClosed, PayoutCompleted}
  {
    var k := s.tickets[ticket];
    ResolutionSparesSales(k.trade, s.trades[k.trade], k.reason, m, note);
    hide Update, Reopened, WithClosed, Settle, ResolutionAsk;
  }

  /** The same tables but for one trade, which keeps its status. */
  ghost predicate SameButOne(s: Store, ground: Store, trade: string) {
    && ground == s.(trades := ground.trades)
    && (forall id :: id in ground.trades <==> id in s.trades)
    && (forall id <- s.trades :: ground.trades[id].status == s.trades[id].status && (id != trade ==> ground.trades[id] == s.trades[id]))
  }

  lemma ReopenedFields(s: Store, trade: string, mode: Mode, now: int)
    ensures SameButOne(s, Reopened(s, trade, mode, now), trade)
  {
    hide RetryStatus;
  }

  lemma ResolvedKeepsOne(s: Store, ticket: nat, mode: Option<Mode>, note: string, resolver: string, tick: Tick)
    requires OneOpen(s.tickets)
    ensures OneOpen(Resolved(s, ticket, mode, note, resolver, tick).tickets)
  {
    hide ResolutionAsk, Update, RetryStatus, Closed, OneOpen, WithTicket, Settle;
    var ask, ground := ResolveAsk(s, ticket, mode, note), ResolveGround(s, ticket, mode, tick.now);
    if ask.Some? {
      var a := ask.value;
      UpdateKeepsOne(ground, a.trade, a.to, a.meta, tick);
      UpdateLeavesTickets(ground, a.trade, a.to, a.meta, tick);
      var after := Settle(ground, Update(ground, a.trade, a.to, a.meta, tick));
      if ticket < |after.tickets| {
        ClosedFields(after.tickets[ticket], mode.value, note, resolver, tick.now);
        ClosingKeepsOne(after.tickets, ticket, Closed(after.tickets[ticket], mode.value, note, resolver, tick.now));
      }
    }
  }

  lemma NextKeepsOne(cfg: Config, w: World, step: Step)
    requires OneOpen(w.db.tickets)
    ensures OneOpen(Next(cfg, w, step).db.tickets)
  {
    hide OneOpen, Priced, Resolved, AskOf, Update, MayAccept, CreationKey;
    match step
    case Resolve(ticket, mode, note, resolver, tick) => ResolvedKeepsOne(w.db, ticket, mode, note, resolver, tick);
    case _ =>
      var ask := AskOf(cfg, w, step);
      if ask.Some? {
        UpdateKeepsOne(w.db, ask.value.trade, ask.value.to, ask.value.meta, step.tick);
      }
  }

  /** In any run no trade ever has two open tickets. */
  lemma {:induction false} RunKeepsOneOpen(cfg: Config, steps: seq<Step>)
    ensures OneOpen(Run(cfg, steps).db.tickets)
  {
    if steps != [] {
      var n := |steps| - 1;
      RunKeepsOneOpen(cfg, steps[..n]);
      hide OneOpen, Next;
      NextKeepsOne(cfg, Run(cfg, steps[..n]), steps[n]);
    }
  }

  // ------------------------------------------------------------------ resolving a dispute

  /** A resolution that leaves its trade with no open ticket and out of dispute, or else in the status it had, and every
      other trade's status and tickets as they are. */
  ghost predicate Resolution(s: Store, after: Store, id: string, ended: bool) {
    && id in s.trades && id in after.trades && !HasOpenTicket(after, id)
    && (forall other :: other != id ==> (HasOpenTicket(after, other) <==> HasOpenTicket(s, other)))
    && (if ended then after.trades[id].status != Dispute else after.trades[id].status == s.trades[id].status)
    && (forall other :: other in after.trades <==> other in s.trades)
    && forall other <- s.trades :: other != id ==> after.trades[other].status == s.trades[other].status
  }

  /** A resolution that is not refused leaves the trade without an open ticket; it leaves a disputed trade out of
      dispute if and only if its operation key had not been used before. */
  lemma DisputeResolvedIff(s: Store, ticket: nat, m: Mode, note: string, resolver: string, tick: Tick, ask: Ask)
    requires OneOpen(s.tickets) && ResolveAsk(s, ticket, Some(m), note) == Some(ask)
    requires !Update(Reopened(s, ask.trade, m, tick.now), ask.trade, ask.to, ask.meta, tick).Refused?
    ensures Resolution(s, Resolved(s, ticket, Some(m), note, resolver, tick), ask.trade, KeyAsked(ask) !in s.keys)
  {
    var ground := Reopened(s, ask.trade, m, tick.now);
    ResolvedIs(s, ticket, m, note, resolver, tick, ask);
    assert IsOpen(s.tickets[ticket]);
    hide *;
    ReopenedFields(s, ask.trade, m, tick.now);
    MidMoves(s, ground, ask, tick);
    var mid := Settle(ground, Update(ground, ask.trade, ask.to, ask.meta, tick));
    CloseTicket(s, mid, ticket, m, note, resolver, tick.now, ask.trade);
    Assembled(s, mid, WithClosed(mid, ticket, m, note, resolver, tick.now), ask.trade, KeyAsked(ask) !in s.keys);
  }

  /** The change inside a resolution that goes through: tickets stay, the trade moves if its key is new. */
  ghost predicate Moved(s: Store, mid: Store, id: string, moves: bool) {
    && mid.tickets == s.tickets && id in s.trades && id in mid.trades
    && (if moves then mid.trades[id].status != Dispute else mid.trades[id].status == s.trades[id].status)
    && (forall other :: other in mid.trades <==> other in s.trades)
    && forall other <- s.trades :: other != id ==> mid.trades[other].status == s.trades[other].status
  }

  lemma MidMoves(s: Store, ground: Store, ask: Ask, tick: Tick)
    requires SameButOne(s, ground, ask.trade) && ask.to in {DepositConfirmed, ConversionCompleted, DisputeClosed, PayoutCompleted}
    requires !Update(ground, ask.trade, ask.to, ask.meta, tick).Refused?
    ensures Moved(s, Settle(ground, Update(ground, ask.trade, ask.to, ask.meta, tick)), ask.trade, KeyAsked(ask) !in s.keys)
  {
    hide Update, KeyOf, Settle;
    NonDisputeKeepsTickets(ground, ask.trade, ask.to, ask.meta, tick);
    MovedUnlessReserved(ground, ask.trade, ask.to, ask.meta, tick);
    SettledElsewhere(ground, ask.trade, ask.to, ask.meta, tick);
  }

  lemma Assembled(s: Store, mid: Store, after: Store, id: string, ended: bool)
    requires Moved(s, mid, id, ended) && after.trades == mid.trades
    requires forall other :: HasOpenTicket(after, other) <==> other != id && HasOpenTicket(s, other)
    ensures Resolution(s, after, id, ended)
  {
    hide HasOpenTicket;
  }

  // Closing the ticket once the change is made.
  lemma CloseTicket(s: Store, mid: Store, ticket: nat, m: Mode, note: string, resolver: string, now: int, id: string)
    requires OneOpen(s.tickets) && About(s, ticket, id) && IsOpen(s.tickets[ticket]) && mid.tickets == s.tickets
    ensures var after := WithClosed(mid, ticket, m, note, resolver, now);
            after.trades == mid.trades
            && forall other :: HasOpenTicket(after, other) <==> other != id && HasOpenTicket(s, other)
  {
    hide OneOpen, OpenTicketOf, Closed;
    ClosedFields(mid.tickets[ticket], m, note, resolver, now);
    forall other: string
      ensures HasOpenTicket(WithClosed(mid, ticket, m, note, resolver, now), other) <==> other != id && HasOpenTicket(s, other)
    {
      ClosingCloses(mid.tickets, ticket, Closed(mid.tickets[ticket], m, note, resolver, now), other);
    }
  }

  lemma NonDisputeKeepsTickets(s: Store, trade: string, to: Status, m: Metadata, tick: Tick)
    requires to != Dispute
    ensures Settle(s, Update(s, trade, to, m, tick)).tickets == s.tickets
  {
    hide Update, KeyOf, Written, Posted, Past, FitsRow, Allowed, Note, WithTicket;
    if Update(s, trade, to, m, tick).Applied? {
      WhenApplied(s, trade, to, m, tick);
    }
  }

  // An update that is not refused moves the trade exactly when its key is new.
  lemma MovedUnlessReserved(s: Store, trade: string, to: Status, m: Metadata, tick: Tick)
    requires !Update(s, trade, to, m, tick).Refused?
    ensures trade in s.trades
    ensures InStatus(Settle(s, Update(s, trade, to, m, tick)), trade, if KeyOf(trade, to, m) in s.keys then s.trades[trade].status else to)
  {
    hide KeyOf, Posted, Past, FitsRow, Allowed, Note, WithTicket, Given, NoticeFits;
  }

  /** In a run where every resolution reserves a key not used before. */
  ghost predicate FreshResolutions(cfg: Config, steps: seq<Step>) {
    steps != [] ==>
      var n := |steps| - 1;
      FreshResolutions(cfg, steps[..n]) && FreshResolution(Run(cfg, steps[..n]).db, steps[n])
  }

  predicate FreshResolution(s: Store, step: Step) {
    step.Resolve? ==> NewAsk(s, ResolveAsk(s, step.ticket, step.mode, step.note))
  }

  predicate NewAsk(s: Store, ask: Option<Ask>) {
    ask.Some? ==> KeyAsked(ask.value) !in s.keys
  }

  lemma ResolvedKeepsTicketed(s: Store, ticket: nat, mode: Option<Mode>, note: string, resolver: string, tick: Tick)
    requires OneOpen(s.tickets) && DisputesTicketed(s) && NewAsk(s, ResolveAsk(s, ticket, mode, note))
    ensures DisputesTicketed(Resolved(s, ticket, mode, note, resolver, tick))
  {
    hide ResolutionAsk, Update, Reopened, Closed, OneOpen, HasOpenTicket, DisputesTicketed, WithClosed, KeyAsked;
    var ask := ResolveAsk(s, ticket, mode, note);
    if ask.Some? && !Update(ResolveGround(s, ticket, mode, tick.now), ask.value.trade, ask.value.to, ask.value.meta, tick).Refused? {
      ResolvedIs(s, ticket, mode.value, note, resolver, tick, ask.value);
      DisputeResolvedIff(s, ticket, mode.value, note, resolver, tick, ask.value);
      NothingElseDisputed(s, Resolved(s, ticket, mode, note, resolver, tick), ask.value.trade);
    }
  }

  lemma NothingElseDisputed(s: Store, after: Store, id: string)
    requires DisputesTicketed(s) && Resolution(s, after, id, true)
    ensures DisputesTicketed(after)
  {
    hide HasOpenTicket;
  }

  lemma SettledElsewhere(s: Store, trade: string, to: Status, m: Metadata, tick: Tick)
    ensures var after := Settle(s, Update(s, trade, to, m, tick));
            (forall id :: id in after.trades <==> id in s.trades)
            && forall id <- s.trades :: id != trade ==> after.trades[id] == s.trades[id]
  {
    hide Update, KeyOf, Written, Posted, Past, FitsRow, Allowed, Note, WithTicket;
    if Update(s, trade, to, m, tick).Applied? {
      WhenApplied(s, trade, to, m, tick);
    }
  }

  lemma NextKeepsTicketed(cfg: Config, w: World, step: Step)
    requires OneOpen(w.db.tickets) && DisputesTicketed(w.db) && FreshResolution(w.db, step)
    ensures DisputesTicketed(Next(cfg, w, step).db)
  {
    hide OneOpen, Priced, Resolved, AskOf, Update, MayAccept, CreationKey, MayResolve, ResolveAsk, NewAsk, DisputesTicketed;
    match step
    case Resolve(ticket, mode, note, resolver, tick) => ResolvedKeepsTicketed(w.db, ticket, mode, note, resolver, tick);
    case Offer(quote, user, asset, amount, price, tick) => SameTickets(w.db, Offered(w.db, quote, user, asset, amount, price, tick.now));
    case Lapse(quote, tick) => SameTickets(w.db, Lapsed(w.db, quote, tick.now));
    case Accept(trade, user, quote, bank, cleared, address, authorized, tick) =>
      SameTickets(w.db, Accepted(cfg, w.db, trade, user, quote, bank, cleared, address, authorized, tick.now));
    case _ =>
      var ask := AskOf(cfg, w, step);
      if ask.Some? {
        UpdateKeepsTicketed(w.db, ask.value.trade, ask.value.to, ask.value.meta, step.tick);
      }
  }

  lemma SameTickets(s: Store, after: Store)
    requires DisputesTicketed(s) && after.tickets == s.tickets
    requires forall id <- after.trades :: after.trades[id].status == Dispute ==> id in s.trades && s.trades[id].status == Dispute
    ensures DisputesTicketed(after)
  {
  }

  /** In any run whose resolutions each reserve a new key, a disputed trade always has an open ticket. */
  lemma {:induction false} DisputedMeansTicketed(cfg: Config, steps: seq<Step>)
    requires FreshResolutions(cfg, steps)
    ensures DisputesTicketed(Run(cfg, steps).db)
  {
    if steps != [] {
      var n := |steps| - 1;
      DisputedMeansTicketed(cfg, steps[..n]);
      RunKeepsOneOpen(cfg, steps[..n]);
      hide OneOpen, Next, DisputesTicketed, FreshResolution;
      NextKeepsTicketed(cfg, Run(cfg, steps[..n]), steps[n]);
    }
  }

  // ------------------------------------------------------------------ the same note twice

  lemma SameRetry(trade: string, t: Trade, u: Trade, r1: string, r2: string, note: string, other: string)
    requires Trim(note) == Trim(other) != "" && RetryStatus(t) == RetryStatus(u)
    ensures ResolutionAsk(trade, t, r1, RetryProcessing, note) == ResolutionAsk(trade, u, r2, RetryProcessing, other)
  {
    TrimTwice(note);
    hide Trim, RetryStatus;
  }

  /** A resolution under a key used before strands a disputed trade: the ticket is closed, the dispute stays. */
  lemma RepeatedResolution(s: Store, ticket: nat, m: Mode, note: string, resolver: string, tick: Tick, ask: Ask)
    requires OneOpen(s.tickets) && ResolveAsk(s, ticket, Some(m), note) == Some(ask) && InStatus(s, ask.trade, Dispute)
    requires KeyAsked(ask) in s.keys
    ensures Stranded(Resolved(s, ticket, Some(m), note, resolver, tick), ask.trade)
  {
    ResolvedIs(s, ticket, m, note, resolver, tick, ask);
    ReopenedFields(s, ask.trade, m, tick.now);
    hide Reopened, Update, Resolved, ResolveAsk, KeyAsked, OneOpen, HasOpenTicket, WithClosed;
    ReservedIsDuplicate(Reopened(s, ask.trade, m, tick.now), ask, tick);
    DisputeResolvedIff(s, ticket, m, note, resolver, tick, ask);
  }

  /** In dispute, with no open ticket left to resolve it by. */
  predicate Stranded(s: Store, id: string) {
    InStatus(s, id, Dispute) && !HasOpenTicket(s, id)
  }

  lemma ReservedIsDuplicate(s: Store, ask: Ask, tick: Tick)
    requires InStatus(s, ask.trade, Dispute) && KeyAsked(ask) in s.keys
    requires ask.to in {DepositConfirmed, ConversionCompleted, DisputeClosed, PayoutCompleted}
    ensures Update(s, ask.trade, ask.to, ask.meta, tick) == Duplicate
  {
    hide KeyOf, FitsRow, Posted, Commit, NoticeFits;
  }

  /** An admin's retry of a trade, under a note that is not blank, back to a status. */
  predicate RetryOf(s: Store, step: Step, id: string, to: Status) {
    step.Resolve? && step.mode == Some(RetryProcessing) && Trim(step.note) != "" && MayResolve(s, step.ticket, step.mode)
    && About(s, step.ticket, id) && RetryStatus(s.trades[id]) == to
  }

  predicate SameNote(a: Step, b: Step) {
    a.Resolve? && b.Resolve? && Trim(a.note) == Trim(b.note)
  }

  lemma RetriesAlike(s: Store, u: Store, a: Step, b: Step, id: string, to: Status)
    requires RetryOf(s, a, id, to) && RetryOf(u, b, id, to) && SameNote(a, b)
    ensures a.Resolve? && b.Resolve? && a.mode == Some(RetryProcessing) == b.mode
    ensures ResolveAsk(s, a.ticket, a.mode, a.note) == ResolveAsk(u, b.ticket, b.mode, b.note)
    ensures ResolveAsk(s, a.ticket, a.mode, a.note).Some? && ResolveAsk(s, a.ticket, a.mode, a.note).value.trade == id
  {
    SameRetry(id, s.trades[id], u.trades[id], s.tickets[a.ticket].reason, u.tickets[b.ticket].reason, a.note, b.note);
    hide Trim, RetryStatus, FirstNonBlank;
  }

  /** A retry under a note already used for a retry of the same trade to the same status strands it: the ticket is
      closed, the trade stays in dispute, and no open ticket is left to resolve it by. */
  lemma SameNoteStrands(cfg: Config, steps: seq<Step>, i: int, j: int, a: Step, b: Step, id: string, to: Status)
    requires i < j && IsAt(steps, i, a) && IsAt(steps, j, b) && SameNote(a, b)
    requires RetryOf(After(cfg, steps, i).db, a, id, to) && !OutcomeOf(cfg, After(cfg, steps, i), a).Refused?
    requires RetryOf(After(cfg, steps, j).db, b, id, to) && InStatus(After(cfg, steps, j).db, id, Dispute)
    ensures Stranded(After(cfg, steps, j + 1).db, id)
  {
    hide *;
    RunStep(cfg, steps, i, a);
    RunStep(cfg, steps, j, b);
    GrowsBetween(cfg, steps, i + 1, j);
    RunKeepsOneOpen(cfg, Upto(steps, j));
    OpenAfter(cfg, steps, j);
    StrandedBy(cfg, After(cfg, steps, i), After(cfg, steps, j), a, b, id, to);
  }

  lemma OpenAfter(cfg: Config, steps: seq<Step>, j: int)
    ensures OneOpen(After(cfg, steps, j).db.tickets)
  {
    hide OneOpen, Run;
    RunKeepsOneOpen(cfg, Upto(steps, j));
  }

  // An admin's call as a step.
  lemma ResolveStep(cfg: Config, w: World, ticket: nat, mode: Option<Mode>, note: string, resolver: string, tick: Tick)
    ensures var step := Resolve(ticket, mode, note, resolver, tick);
            && Next(cfg, w, step).db == Resolved(w.db, ticket, mode, note, resolver, tick)
            && Wanted(cfg, w, step) == ResolveAsk(w.db, ticket, mode, note)
            && Ground(w, step) == ResolveGround(w.db, ticket, mode, tick.now)
  {
    hide Resolved, ResolveAsk, ResolveGround;
  }

  lemma ResolvedReserves(s: Store, ticket: nat, m: Mode, note: string, resolver: string, tick: Tick, ask: Ask)
    requires ResolveAsk(s, ticket, Some(m), note) == Some(ask)
    requires !Update(ResolveGround(s, ticket, Some(m), tick.now), ask.trade, ask.to, ask.meta, tick).Refused?
    ensures KeyAsked(ask) in Resolved(s, ticket, Some(m), note, resolver, tick).keys
  {
    ResolvedIs(s, ticket, m, note, resolver, tick, ask);
    hide Update, Resolved, ResolveAsk, ResolveGround, Reopened, KeyAsked, Closed, Settle;
    AcceptedKeyIsReserved(Reopened(s, ask.trade, m, tick.now), ask, tick);
  }

  lemma StrandedBy(cfg: Config, w: World, v: World, a: Step, b: Step, id: string, to: Status)
    requires SameNote(a, b) && RetryOf(w.db, a, id, to) && RetryOf(v.db, b, id, to) && !OutcomeOf(cfg, w, a).Refused?
    requires Later(Next(cfg, w, a).db, v.db) && InStatus(v.db, id, Dispute) && OneOpen(v.db.tickets)
    ensures Stranded(Next(cfg, v, b).db, id)
  {
    RetriesAlike(w.db, v.db, a, b, id, to);
    var ask := ResolveAsk(w.db, a.ticket, a.mode, a.note).value;
    hide RetryOf, SameNote, Update, Later, OneOpen, Resolved, ResolveAsk, ResolveGround, KeyAsked, InStatus, Stranded, Next, Wanted, Ground;
    ResolveStep(cfg, w, a.ticket, a.mode, a.note, a.resolver, a.tick);
    ResolveStep(cfg, v, b.ticket, b.mode, b.note, b.resolver, b.tick);
    ResolvedReserves(w.db, a.ticket, RetryProcessing, a.note, a.resolver, a.tick, ask);
    KeyStays(Next(cfg, w, a).db, v.db, KeyAsked(ask));
    RepeatedResolution(v.db, b.ticket, RetryProcessing, b.note, b.resolver, b.tick, ask);
  }
}
