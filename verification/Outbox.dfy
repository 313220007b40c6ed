/** The notification outbox: rows are enqueued once, leased to a sender under a claim token, and acknowledged
    as delivered or failed; failures back off and end in the dead-letter state. Times are in seconds. */
module Outbox {
  import opened Wrappers
  import opened Text

  const LEASE := 120
  const MAX_ATTEMPTS := 8
  const DEFAULT_LIMIT := 50

  datatype Channel = WhatsApp | Telegram

  datatype Row = Row(
    channel: Channel, dedupe: string, delivered: bool, dead: bool, attempts: nat, nextAt: int,
    token: Option<string>, claimedAt: Option<int>, deliveredAt: Option<int>, deadAt: Option<int>, error: Option<string>)

  /** The table in creation order, the claim tokens handed out so far, and the last clock reading. */
  datatype Box = Box(rows: seq<Row>, issued: set<string>, clock: int)

  datatype Event =
    | Enqueue(channel: Channel, dedupe: string, now: int)
    | Claim(channel: Channel, limit: int, token: string, locked: set<nat>, now: int)
    | Delivered(id: nat, token: string, now: int)
    | Failed(id: nat, token: string, error: string, now: int)

  function Blank(channel: Channel, dedupe: string, now: int): Row {
    Row(channel, dedupe, false, false, 0, now, None, None, None, None, None)
  }

  predicate Known(rows: seq<Row>, dedupe: string) {
    exists i :: 0 <= i < |rows| && rows[i].dedupe == dedupe
  }

  /** A row a sender may take now: unfinished, past its backoff, and not under a live lease. */
  predicate Free(r: Row, channel: Channel, now: int) {
    && !r.delivered && !r.dead && r.channel == channel && r.nextAt <= now
    && (r.claimedAt.None? || r.claimedAt.value <= now - LEASE)
  }

  function Limit(limit: int): nat {
    if limit <= 0 then DEFAULT_LIMIT else limit
  }

  function Leased(r: Row, token: string, now: int): Row {
    r.(token := Some(token), claimedAt := Some(now))
  }

  /** How many of the first n rows a claim takes, oldest first and at most limit of them, leaving alone rows
      another sender is holding locked. */
  function Taken(rows: seq<Row>, n: nat, e: Event): (k: nat)
    requires n <= |rows| && e.Claim?
    ensures k <= Limit(e.limit)
    decreases n, 0
  {
    if n == 0 then 0 else Taken(rows, n - 1, e) + if Takes(rows, n - 1, e) then 1 else 0
  }

  predicate Takes(rows: seq<Row>, i: nat, e: Event)
    requires i < |rows| && e.Claim?
    decreases i, 1
  {
    Free(rows[i], e.channel, e.now) && i !in e.locked && Taken(rows, i, e) < Limit(e.limit)
  }

  function AfterClaim(rows: seq<Row>, e: Event): (after: seq<Row>)
    requires e.Claim?
    ensures |after| == |rows|
  {
    seq(|rows|, i requires 0 <= i < |rows| => if Takes(rows, i, e) then Leased(rows[i], e.token, e.now) else rows[i])
  }

  /** Seconds before a row that has failed this many times may be claimed again. */
  function Backoff(attempts: nat): int {
    if attempts >= MAX_ATTEMPTS then 86_400
    else if attempts >= 5 then 300
    else if attempts >= 3 then 60
    else 15
  }

  /** An acknowledgement applies to a row when its token is blank or is the row's current one. */
  predicate Accepts(rows: seq<Row>, id: nat, token: string) {
    id < |rows| && (Trim(token) == "" || rows[id].token == Some(Trim(token)))
  }

  function AfterDelivered(r: Row, now: int): Row {
    r.(delivered := true, deliveredAt := Some(now), error := None, token := None, claimedAt := None)
  }

  function AfterFailed(r: Row, error: string, now: int): Row {
    var n := r.attempts + 1;
    r.(delivered := false, deliveredAt := None, error := if Trim(error) == "" then None else Some(Trim(error)),
       attempts := n, nextAt := now + Backoff(n), dead := n >= MAX_ATTEMPTS,
       deadAt := if n >= MAX_ATTEMPTS then Some(now) else r.deadAt, token := None, claimedAt := None)
  }

  function Next(b: Box, e: Event): Box {
    match e
    case Enqueue(channel, dedupe, now) =>
      if Trim(dedupe) == "" || Known(b.rows, dedupe) then b.(clock := now)
      else b.(rows := b.rows + [Blank(channel, dedupe, now)], clock := now)
    case Claim(_, _, token, _, now) =>
      Box(AfterClaim(b.rows, e), b.issued + {token}, now)
    case Delivered(id, token, now) =>
      if Accepts(b.rows, id, token) then b.(rows := b.rows[id := AfterDelivered(b.rows[id], now)], clock := now)
      else b.(clock := now)
    case Failed(id, token, error, now) =>
      if Accepts(b.rows, id, token) then b.(rows := b.rows[id := AfterFailed(b.rows[id], error, now)], clock := now)
      else b.(clock := now)
  }

  function Run(b: Box, events: seq<Event>): Box {
    if events == [] then b else Next(Run(b, events[..|events| - 1]), events[|events| - 1])
  }

  /** What the lease protocol relies on: the clock does not run back, a claim draws a token never drawn before,
      and an acknowledgement names a token. */
  predicate Legal(b: Box, e: Event) {
    && b.clock <= e.now
    && match e
       case Enqueue(_, _, _) => true
       case Claim(_, _, token, _, _) => token !in b.issued && Trim(token) == token && token != ""
       case Delivered(_, token, _) => Trim(token) != ""
       case Failed(_, token, _, _) => Trim(token) != ""
  }

  ghost predicate LegalRun(b: Box, events: seq<Event>) {
    events == [] || (LegalRun(b, events[..|events| - 1]) && Legal(Run(b, events[..|events| - 1]), events[|events| - 1]))
  }

  // ------------------------------------------------------------------ what every run keeps

  predicate Finished(r: Row) {
    r.delivered || r.dead
  }

  predicate SoundRow(r: Row, issued: set<string>, clock: int) {
    && !(r.delivered && r.dead)
    && (Finished(r) ==> r.token.None?)
    && (r.token.Some? <==> r.claimedAt.Some?)
    && (r.token.Some? ==> r.token.value in issued && r.claimedAt.value <= clock)
    && r.attempts <= MAX_ATTEMPTS
    && (r.dead <==> r.attempts == MAX_ATTEMPTS)
  }

  ghost predicate Sound(b: Box) {
    forall i :: 0 <= i < |b.rows| ==> SoundRow(b.rows[i], b.issued, b.clock)
  }

  /** What an event does to one row. */
  function RowNext(b: Box, e: Event, i: nat): Row
    requires i < |b.rows|
  {
    var r := b.rows[i];
    match e
    case Enqueue(_, _, _) => r
    case Claim(_, _, token, _, now) => if Takes(b.rows, i, e) then Leased(r, token, now) else r
    case Delivered(id, token, now) => if id == i && Accepts(b.rows, id, token) then AfterDelivered(r, now) else r
    case Failed(id, token, error, now) => if id == i && Accepts(b.rows, id, token) then AfterFailed(r, error, now) else r
  }

  lemma NextByRow(b: Box, e: Event)
    ensures |b.rows| <= |Next(b, e).rows|
    ensures forall i :: 0 <= i < |b.rows| ==> Next(b, e).rows[i] == RowNext(b, e, i)
    ensures forall i :: |b.rows| <= i < |Next(b, e).rows| ==> e.Enqueue? && Next(b, e).rows[i] == Blank(e.channel, e.dedupe, e.now)
    ensures Next(b, e).clock == e.now
    ensures Next(b, e).issued == b.issued + if e.Claim? then {e.token} else {}
  {
    hide Trim, AfterFailed, AfterDelivered, Takes;
  }

  lemma RowStaysSound(b: Box, e: Event, i: nat)
    requires i < |b.rows| && SoundRow(b.rows[i], b.issued, b.clock) && Legal(b, e)
    ensures SoundRow(RowNext(b, e, i), b.issued + if e.Claim? then {e.token} else {}, e.now)
  {
    hide Trim, Taken;
  }

  lemma StepKeepsSound(b: Box, e: Event)
    requires Sound(b) && Legal(b, e)
    ensures Sound(Next(b, e))
  {
    NextByRow(b, e);
    hide Next, RowNext, Legal;
    forall i | 0 <= i < |Next(b, e).rows|
      ensures SoundRow(Next(b, e).rows[i], Next(b, e).issued, Next(b, e).clock)
    {
      if i < |b.rows| {
        RowStaysSound(b, e, i);
      }
    }
  }

  /** Delivered and dead-lettered are disjoint, tokens are only ever live leases, and a row is dead-lettered
      exactly when it has failed eight times, in every state a legal run reaches. */
  lemma {:induction false} RunKeepsSound(b: Box, events: seq<Event>)
    requires Sound(b) && LegalRun(b, events)
    ensures Sound(Run(b, events))
  {
    if events != [] {
      RunKeepsSound(b, events[..|events| - 1]);
      StepKeepsSound(Run(b, events[..|events| - 1]), events[|events| - 1]);
    }
  }

  lemma FinishedStays(b: Box, e: Event, id: nat)
    requires Sound(b) && Legal(b, e) && id < |b.rows| && Finished(b.rows[id])
    ensures id < |Next(b, e).rows| && Next(b, e).rows[id] == b.rows[id]
  {
    NextByRow(b, e);
    assert SoundRow(b.rows[id], b.issued, b.clock);
    hide Next, Trim;
  }

  /** Delivery and dead-lettering are permanent: no continuation of a legal run changes a finished row. */
  lemma {:induction false} FinishedForGood(b: Box, events: seq<Event>, id: nat)
    requires Sound(b) && LegalRun(b, events) && id < |b.rows| && Finished(b.rows[id])
    ensures id < |Run(b, events).rows| && Run(b, events).rows[id] == b.rows[id]
  {
    if events != [] {
      FinishedForGood(b, events[..|events| - 1], id);
      RunKeepsSound(b, events[..|events| - 1]);
      FinishedStays(Run(b, events[..|events| - 1]), events[|events| - 1], id);
    }
  }

  /** Without the rule that acknowledgements name a token, permanence fails, and this is the whole reason: an
      acknowledgement reaches a finished row if and only if its token is blank. */
  lemma FinishedReachedIff(b: Box, id: nat, token: string)
    requires Sound(b) && id < |b.rows| && Finished(b.rows[id])
    ensures Accepts(b.rows, id, token) <==> Trim(token) == ""
  {
    assert SoundRow(b.rows[id], b.issued, b.clock);
  }

  // A blank acknowledgement takes a delivered notification back.
  lemma BlankTokenUndelivers()
    ensures var r := AfterDelivered(Blank(Telegram, "trade:1", 0), 1);
            var b := Box([r], {}, 1);
            Sound(b) && Finished(r) && !Finished(Next(b, Failed(0, "", "", 2)).rows[0])
  {
  }

  /** Lease safety: the only rows a claim changes are unfinished, past their backoff, and without a lease younger
      than two minutes; they carry the new token from then on. */
  lemma ClaimTakesOnlyFreeRows(b: Box, e: Event, id: nat)
    requires e.Claim? && id < |b.rows|
    ensures var r, s := b.rows[id], Next(b, e).rows[id];
            s != r ==> && !Finished(r) && r.nextAt <= e.now && r.channel == e.channel
                       && (r.claimedAt.Some? ==> r.claimedAt.value + 120 <= e.now)
                       && s == r.(token := Some(e.token), claimedAt := Some(e.now))
  {
  }

  /** A claim takes at most its limit of rows, and all the free ones when there are fewer. */
  lemma {:induction false} ClaimTakesUpToLimit(rows: seq<Row>, n: nat, e: Event)
    requires n <= |rows| && e.Claim?
    ensures Taken(rows, n, e) < (if e.limit <= 0 then 50 else e.limit)
            ==> forall i :: 0 <= i < n && Free(rows[i], e.channel, e.now) && i !in e.locked ==> Takes(rows, i, e)
  {
    if n > 0 {
      ClaimTakesUpToLimit(rows, n - 1, e);
    }
  }

  predicate AckBy(e: Event, id: nat, token: string) {
    (e.Delivered? || e.Failed?) && e.id == id && Trim(e.token) == token
  }

  predicate Spent(b: Box, id: nat, token: string) {
    id < |b.rows| && token in b.issued && b.rows[id].token != Some(token)
  }

  lemma SpentStays(b: Box, e: Event, id: nat, token: string)
    requires Legal(b, e) && Spent(b, id, token)
    ensures Spent(Next(b, e), id, token)
  {
    NextByRow(b, e);
    hide Next, Trim, Takes;
  }

  lemma {:induction false} SpentForGood(b: Box, events: seq<Event>, id: nat, token: string)
    requires LegalRun(b, events) && Spent(b, id, token)
    ensures Spent(Run(b, events), id, token)
  {
    if events != [] {
      SpentForGood(b, events[..|events| - 1], id, token);
      SpentStays(Run(b, events[..|events| - 1]), events[|events| - 1], id, token);
    }
  }

  /** An acknowledgement works once: it succeeds only with the row's current token, and after that no event of
      any legal continuation is an acknowledgement that the same token makes succeed on that row. */
  lemma {:induction false} AckWorksOnce(b: Box, ack: Event, events: seq<Event>, again: Event)
    requires Sound(b) && Legal(b, ack) && (ack.Delivered? || ack.Failed?) && Accepts(b.rows, ack.id, ack.token)
    requires LegalRun(Next(b, ack), events) && AckBy(again, ack.id, Trim(ack.token))
    ensures b.rows[ack.id].token == Some(Trim(ack.token))
    ensures !Accepts(Run(Next(b, ack), events).rows, again.id, again.token)
  {
    assert SoundRow(b.rows[ack.id], b.issued, b.clock);
    SpentForGood(Next(b, ack), events, ack.id, Trim(ack.token));
  }

  // ------------------------------------------------------------------ bounded delivery

  /** Failure acknowledgements of a run that were accepted for a row. */
  function Failures(b: Box, events: seq<Event>, id: nat): nat {
    if events == [] then 0
    else
      var e := events[|events| - 1];
      var before := Run(b, events[..|events| - 1]);
      Failures(b, events[..|events| - 1], id) + if e.Failed? && e.id == id && Accepts(before.rows, id, e.token) then 1 else 0
  }

  const EMPTY: Box := Box([], {}, 0)

  function Attempts(b: Box, id: nat): nat {
    if id < |b.rows| then b.rows[id].attempts else 0
  }

  lemma AttemptsStep(b: Box, e: Event, id: nat)
    ensures Attempts(Next(b, e), id) == Attempts(b, id) + if e.Failed? && e.id == id && Accepts(b.rows, id, e.token) then 1 else 0
  {
    NextByRow(b, e);
    hide Next, Trim, Takes;
  }

  lemma {:induction false} AttemptsCountFailures(events: seq<Event>, id: nat)
    ensures Attempts(Run(EMPTY, events), id) == Failures(EMPTY, events, id)
  {
    if events != [] {
      hide Next, Accepts;
      AttemptsCountFailures(events[..|events| - 1], id);
      AttemptsStep(Run(EMPTY, events[..|events| - 1]), events[|events| - 1], id);
    }
  }

  /** Every notification takes at most eight accepted failures in a whole run, and is dead-lettered exactly when
      it has had eight. */
  lemma DeliveryIsBounded(events: seq<Event>, id: nat)
    requires LegalRun(EMPTY, events)
    ensures Failures(EMPTY, events, id) <= 8
    ensures id < |Run(EMPTY, events).rows|
            ==> (Run(EMPTY, events).rows[id].dead <==> Failures(EMPTY, events, id) == 8)
  {
    AttemptsCountFailures(events, id);
    RunKeepsSound(EMPTY, events);
    if id < |Run(EMPTY, events).rows| {
      assert SoundRow(Run(EMPTY, events).rows[id], Run(EMPTY, events).issued, Run(EMPTY, events).clock);
    }
  }

  // Seconds a row waits, in literals: a quarter of a minute after the first two failures, a minute after the third
  // and fourth, five minutes after the fifth, sixth and seventh, and a day after the last.
  ghost predicate Waits(failures: int, seconds: int) {
    && (1 <= failures <= 2 ==> seconds == 15)
    && (3 <= failures <= 4 ==> seconds == 60)
    && (5 <= failures <= 7 ==> seconds == 300)
    && (8 <= failures ==> seconds == 86_400)
  }

  predicate WaitsUntil(b: Box, id: nat, until: int) {
    id < |b.rows| && b.rows[id].token.None? && (b.rows[id].nextAt >= until || Finished(b.rows[id]))
  }

  lemma WaitingStays(b: Box, e: Event, id: nat, until: int)
    requires Sound(b) && Legal(b, e) && WaitsUntil(b, id, until) && e.now < until
    ensures WaitsUntil(Next(b, e), id, until)
  {
    NextByRow(b, e);
    assert SoundRow(b.rows[id], b.issued, b.clock);
    hide Next, Trim, Taken;
  }

  /** What a failure makes of its row: one more attempt, no lease, never delivered, dead-lettered at the eighth, and
      to be tried again 15 seconds, 1 minute, 5 minutes or a day later. */
  lemma FailureLeadsTo(b: Box, ack: Event, r: Row)
    requires Legal(b, ack) && ack.Failed? && Accepts(b.rows, ack.id, ack.token) && b.rows[ack.id] == r
    ensures ack.id < |Next(b, ack).rows|
    ensures var s := Next(b, ack).rows[ack.id];
            && s.channel == r.channel && s.dedupe == r.dedupe
            && s.attempts == r.attempts + 1 && Waits(r.attempts + 1, s.nextAt - ack.now)
            && !s.delivered && s.deliveredAt.None? && s.token.None? && s.claimedAt.None?
            && s.error == (if Trim(ack.error) == "" then None else Some(Trim(ack.error)))
            && (s.dead <==> r.attempts + 1 >= 8) && s.deadAt == (if s.dead then Some(ack.now) else r.deadAt)
  {
    hide Trim;
  }

  /** What a delivery makes of its row: delivered now, its lease and its last error gone, its attempts as they were. */
  lemma DeliveryLeadsTo(b: Box, ack: Event, r: Row)
    requires ack.Delivered? && Accepts(b.rows, ack.id, ack.token) && b.rows[ack.id] == r
    ensures ack.id < |Next(b, ack).rows|
    ensures Next(b, ack).rows[ack.id]
         == Row(r.channel, r.dedupe, true, r.dead, r.attempts, r.nextAt, None, None, Some(ack.now), r.deadAt, None)
  {
    hide Trim;
  }

  /** A notification is enqueued, waiting and untried, exactly when its key is not blank and no row has it. */
  lemma EnqueuedIff(b: Box, channel: Channel, dedupe: string, now: int)
    ensures Next(b, Enqueue(channel, dedupe, now)).rows
         == if Trim(dedupe) != "" && (forall i :: 0 <= i < |b.rows| ==> b.rows[i].dedupe != dedupe)
            then b.rows + [Row(channel, dedupe, false, false, 0, now, None, None, None, None, None)] else b.rows
  {
    hide Trim;
  }

  /** A failed notification cannot be claimed before its backoff is over: in every continuation whose clock stays
      below that time it carries no token. */
  lemma {:induction false} NotBeforeBackoff(b: Box, ack: Event, failures: int, seconds: int, events: seq<Event>)
    requires Sound(b) && Legal(b, ack) && ack.Failed? && Accepts(b.rows, ack.id, ack.token)
    requires LegalRun(Next(b, ack), events)
    requires failures == b.rows[ack.id].attempts + 1 && Waits(failures, seconds)
    requires Run(Next(b, ack), events).clock < ack.now + seconds
    ensures WaitsUntil(Run(Next(b, ack), events), ack.id, ack.now + seconds)
  {
    if events == [] {
      FailureLeadsTo(b, ack, b.rows[ack.id]);
      assert Next(b, ack).rows[ack.id].nextAt == ack.now + seconds;
    } else {
      var before := Run(Next(b, ack), events[..|events| - 1]);
      assert before.clock <= events[|events| - 1].now == Run(Next(b, ack), events).clock;
      NotBeforeBackoff(b, ack, failures, seconds, events[..|events| - 1]);
      StepKeepsSound(b, ack);
      RunKeepsSound(Next(b, ack), events[..|events| - 1]);
      WaitingStays(before, events[|events| - 1], ack.id, ack.now + seconds);
    }
  }

  // ------------------------------------------------------------------ counts

  function Count(rows: seq<Row>, channel: Channel, f: Row -> bool): nat {
    if rows == [] then 0
    else Count(rows[..|rows| - 1], channel, f) + if rows[|rows| - 1].channel == channel && f(rows[|rows| - 1]) then 1 else 0
  }

  /** Nothing is lost or counted twice: pending, delivered and dead-lettered rows make up all rows. */
  lemma {:induction false} CountsAddUp(rows: seq<Row>, channel: Channel)
    requires forall i :: 0 <= i < |rows| ==> !(rows[i].delivered && rows[i].dead)
    ensures Count(rows, channel, (r: Row) => !r.delivered && !r.dead) + Count(rows, channel, (r: Row) => r.delivered)
          + Count(rows, channel, (r: Row) => r.dead) == Count(rows, channel, (r: Row) => true)
  {
    if rows != [] {
      CountsAddUp(rows[..|rows| - 1], channel);
    }
  }

  // ------------------------------------------------------------------ the table as the program updates it

  class Table {
    var rows: seq<Row>
    var issued: set<string>
    var clock: int

    ghost function State(): Box
      reads this
    {
      Box(rows, issued, clock)
    }

    constructor ()
      ensures State() == EMPTY
    {
      rows, issued, clock := [], {}, 0;
    }

    method EnqueueOnce(channel: Channel, dedupe: string, now: int)
      modifies this
      ensures State() == Next(old(State()), Enqueue(channel, dedupe, now))
    {
      clock := now;
      if Trim(dedupe) != "" && !Known(rows, dedupe) {
        rows := rows + [Blank(channel, dedupe, now)];
      }
    }

    /** Leases the oldest free rows to the caller and returns their positions. */
    method ClaimPending(channel: Channel, limit: int, token: string, locked: set<nat>, now: int) returns (claimed: seq<nat>)
      modifies this
      ensures State() == Next(old(State()), Claim(channel, limit, token, locked, now))
      ensures forall i: nat :: i in claimed <==> i < |old(rows)| && Takes(old(rows), i, Claim(channel, limit, token, locked, now))
      ensures |claimed| <= Limit(limit)
    {
      ghost var e := Claim(channel, limit, token, locked, now);
      ghost var before := rows;
      clock := now;
      issued := issued + {token};
      claimed := [];
      var room := if limit <= 0 then DEFAULT_LIMIT else limit;
      var i := 0;
      while i < |rows|
        invariant 0 <= i <= |rows| == |before|
        invariant issued == old(issued) + {token} && clock == now
        invariant |claimed| == Taken(before, i, e)
        invariant forall k: nat :: k in claimed <==> k < i && Takes(before, k, e)
        invariant forall k :: 0 <= k < i ==> rows[k] == if Takes(before, k, e) then Leased(before[k], token, now) else before[k]
        invariant forall k :: i <= k < |rows| ==> rows[k] == before[k]
      {
        if Free(rows[i], channel, now) && i !in locked && |claimed| < room {
          rows := rows[i := rows[i].(token := Some(token), claimedAt := Some(now))];
          claimed := claimed + [i];
        }
        i := i + 1;
      }
      assert rows == AfterClaim(before, e);
    }

    /** False is the conflict answer: the token is stale or not the row's. */
    method AckDelivered(id: nat, token: string, now: int) returns (ok: bool)
      modifies this
      ensures State() == Next(old(State()), Delivered(id, token, now))
      ensures ok <==> Accepts(old(rows), id, token)
    {
      clock := now;
      var trimmed := Trim(token);
      ok := id < |rows| && (trimmed == "" || rows[id].token == Some(trimmed));
      if ok {
        rows := rows[id := rows[id].(delivered := true, deliveredAt := Some(now), error := None, token := None, claimedAt := None)];
      }
    }

    method AckFailed(id: nat, token: string, error: string, now: int) returns (ok: bool)
      modifies this
      ensures State() == Next(old(State()), Failed(id, token, error, now))
      ensures ok <==> Accepts(old(rows), id, token)
    {
      clock := now;
      var trimmed := Trim(token);
      ok := id < |rows| && (trimmed == "" || rows[id].token == Some(trimmed));
      if ok {
        rows := rows[id := AfterFailed(rows[id], error, now)];
      }
    }

    /** Rows waiting and rows dead-lettered on a channel. */
    method Metrics(channel: Channel) returns (pending: nat, dead: nat)
      ensures pending == Count(rows, channel, (r: Row) => !r.delivered && !r.dead)
      ensures dead == Count(rows, channel, (r: Row) => r.dead)
    {
      pending, dead := 0, 0;
      for i := 0 to |rows|
        invariant pending == Count(rows[..i], channel, (r: Row) => !r.delivered && !r.dead)
        invariant dead == Count(rows[..i], channel, (r: Row) => r.dead)
      {
        assert rows[..i + 1][..i] == rows[..i];
        if rows[i].channel == channel {
          if !rows[i].delivered && !rows[i].dead {
            pending := pending + 1;
          }
          if rows[i].dead {
            dead := dead + 1;
          }
        }
      }
      assert rows[..|rows|] == rows;
    }
  }
}
