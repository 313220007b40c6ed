/** The engine together with its outbox: which status changes leave a notification, whatever the senders do meanwhile. */
module Notices {
  import opened Wrappers
  import opened Text
  import opened Lifecycle
  import opened Ledger
  import opened Store
  import opened Steps
  import opened Bookkeeping
  import opened Growth
  import opened ExactlyOnce
  import opened Changes
  import opened Disputed
  import opened Sales
  import opened Purposes
  import Outbox

  /** The engine carries out a step for a user reached on a channel, or a sender works on the outbox. */
  datatype Action = Work(step: Step, channel: Outbox.Channel) | Send(event: Outbox.Event)

  datatype Office = Office(world: World, box: Outbox.Box)

  /** The key of the notification a step's change writes in its transaction, if it makes a change that is announced. */
  function Announces(cfg: Config, w: World, step: Step): Option<string> {
    match Made(cfg, w, step)
    case None => None
    case Some(ask) => NoticeOf(Ground(w, step), ask)
  }

  function NoticeOf(s: Store, ask: Ask): Option<string> {
    if ask.trade in s.trades then NoticeKey(ask.trade, s.trades[ask.trade], ask.to, ask.meta) else None
  }

  /** The outbox after a change: a notification is enqueued once under its key. */
  function Told(box: Outbox.Box, notice: Option<string>, channel: Outbox.Channel, now: int): Outbox.Box {
    match notice
    case None => box
    case Some(key) => Outbox.Next(box, Outbox.Enqueue(channel, key, now))
  }

  function Next(cfg: Config, o: Office, a: Action): Office {
    match a
    case Work(step, channel) => Office(Steps.Next(cfg, o.world, step), Told(o.box, Announces(cfg, o.world, step), channel, step.tick.now))
    case Send(event) => if event.Enqueue? then o else Office(o.world, Outbox.Next(o.box, event))
  }

  function Run(cfg: Config, actions: seq<Action>): Office {
    if actions == [] then Office(START, Outbox.Box([], {}, 0)) else Next(cfg, Run(cfg, actions[..|actions| - 1]), actions[|actions| - 1])
  }

  /** Statuses announced under the trade alone. */
  predicate ToldByTrade(to: Status) {
    to in {DepositConfirmed, ConversionInProgress, ConversionCompleted, PayoutPending, PayoutFailed}
  }

  /** The key of such an announcement. */
  function TradeNotice(id: string, to: Status): string {
    id + ":" + Upper(to.KeyText())
  }

  // ------------------------------------------------------------------ keys

  lemma StatusForms(x: Status, to: Status)
    requires ToldByTrade(to)
    ensures ToldByTrade(x) && |x.KeyText()| == |to.KeyText()| ==> x == to
    ensures |DepositReceived.KeyText()| == 16 == |PayoutCompleted.KeyText()|
    ensures |to.KeyText()| != 16 && (|to.KeyText()| > 16 ==> IsLower(to.KeyText()[16]))
  {
  }

  lemma NoticeForms(trade: string, t: Trade, to: Status, m: Metadata)
    ensures ToldByTrade(to) ==> NoticeKey(trade, t, to, m) == Some(TradeNotice(trade, to))
    ensures NoticeKey(trade, t, to, m).Some? && !ToldByTrade(to) ==>
              (to == DepositReceived || to == PayoutCompleted)
              && exists text :: NoticeKey(trade, t, to, m) == Some(TradeNotice(trade, to) + ":" + text)
  {
    hide Status.KeyText, Upper, Given, TextOf;
    if to == DepositReceived {
      assert NoticeKey(trade, t, to, m) == Some(TradeNotice(trade, to) + ":" + TextOf(Given(m.txHash)));
    } else if to == PayoutCompleted {
      assert NoticeKey(trade, t, to, m) == Some(TradeNotice(trade, to) + ":" + TextOf(Coalesce(Given(m.payoutRef), Given(t.payoutId))));
    }
  }

  /** The keys of the announcements made under the trade alone, in full. */
  lemma NoticeSpelled(trade: string, t: Trade, m: Metadata)
    ensures NoticeKey(trade, t, DepositConfirmed, m) == Some(trade + ":" + "DEPOSIT_CONFIRMED")
    ensures NoticeKey(trade, t, ConversionInProgress, m) == Some(trade + ":" + "CONVERSION_IN_PROGRESS")
    ensures NoticeKey(trade, t, ConversionCompleted, m) == Some(trade + ":" + "CONVERSION_COMPLETED")
    ensures NoticeKey(trade, t, PayoutPending, m) == Some(trade + ":" + "PAYOUT_PENDING")
    ensures NoticeKey(trade, t, PayoutFailed, m) == Some(trade + ":" + "PAYOUT_FAILED")
  {
    DepositSpelled();
    ConversionSpelled();
    PayoutSpelled();
    hide Upper, Given, TextOf;
  }

  lemma DepositSpelled()
    ensures Upper(DepositConfirmed.KeyText()) == "DEPOSIT_CONFIRMED"
  {
  }

  lemma ConversionSpelled()
    ensures Upper(ConversionInProgress.KeyText()) == "CONVERSION_IN_PROGRESS"
    ensures Upper(ConversionCompleted.KeyText()) == "CONVERSION_COMPLETED"
  {
  }

  lemma PayoutSpelled()
    ensures Upper(PayoutPending.KeyText()) == "PAYOUT_PENDING" && Upper(PayoutFailed.KeyText()) == "PAYOUT_FAILED"
  {
  }

  lemma UpperLetter(x: string, i: nat)
    requires i < |x| && IsLower(x[i])
    ensures Upper(x)[i] != ':'
  {
  }

  lemma TextNoticeApart(a: string, x: Status, text: string, id: string, to: Status)
    requires |a| == 36 == |id| && |x.KeyText()| == 16 && ToldByTrade(to)
    ensures TradeNotice(a, x) + ":" + text != TradeNotice(id, to)
  {
    StatusForms(x, to);
    hide Status.KeyText, ToldByTrade, Upper, IsLower;
    var key, other := TradeNotice(a, x) + ":" + text, TradeNotice(id, to);
    assert key[53] == ':';
    if |to.KeyText()| > 16 {
      UpperLetter(to.KeyText(), 16);
      assert other[53] == Upper(to.KeyText())[16];
    }
  }

  // A change announced under this key is of this trade, to this status.
  lemma NoticeTells(s: Store, ask: Ask, id: string, to: Status)
    requires |ask.trade| == 36 == |id| && ToldByTrade(to) && NoticeOf(s, ask) == Some(TradeNotice(id, to))
    ensures ask.trade == id && ask.to == to
  {
    StatusForms(ask.to, to);
    NoticeForms(ask.trade, s.trades[ask.trade], ask.to, ask.meta);
    hide Status.KeyText, ToldByTrade, NoticeKey, Upper, IsLower;
    var other := TradeNotice(id, to);
    forall text: string | |ask.to.KeyText()| == 16
      ensures TradeNotice(ask.trade, ask.to) + ":" + text != other
    {
      TextNoticeApart(ask.trade, ask.to, text, id, to);
    }
    assert other[..36] == id && other[37..] == Upper(to.KeyText());
    if ToldByTrade(ask.to) {
      assert other[..36] == ask.trade && other[37..] == Upper(ask.to.KeyText());
    }
  }

  lemma NoticeIsVisible(id: string, to: Status)
    requires UuidText(id)
    ensures Trim(TradeNotice(id, to)) != ""
  {
    UuidStarts(id);
    hide UuidText, IsSpace, Status.KeyText, Upper;
    var s := TradeNotice(id, to);
    assert s[0] == id[0];
    assert FirstVisible(s, 0) == 0;
    assert TrimLeft(s) == s;
    TrimRightStops(s, 0);
  }

  lemma UuidStarts(id: string)
    requires UuidText(id)
    ensures id != "" && !IsSpace(id[0])
  {
  }

  // ------------------------------------------------------------------ the outbox

  // Enqueueing adds the key and takes none away; what senders do changes no row's key.
  lemma ToldKnows(box: Outbox.Box, notice: Option<string>, channel: Outbox.Channel, now: int, key: string)
    requires notice == Some(key) ==> Trim(key) != ""
    ensures Outbox.Known(Told(box, notice, channel, now).rows, key) <==> Outbox.Known(box.rows, key) || notice == Some(key)
  {
    hide Trim;
    var after := Told(box, notice, channel, now).rows;
    if after != box.rows {
      assert after[|box.rows|].dedupe == notice.value;
      if Outbox.Known(box.rows, key) {
        var i :| 0 <= i < |box.rows| && box.rows[i].dedupe == key;
        assert after[i].dedupe == key;
      }
    }
  }

  lemma SendingKnows(box: Outbox.Box, event: Outbox.Event, key: string)
    requires !event.Enqueue?
    ensures Outbox.Known(Outbox.Next(box, event).rows, key) <==> Outbox.Known(box.rows, key)
  {
    hide Trim, Outbox.Takes, Outbox.Backoff;
    var after := Outbox.Next(box, event).rows;
    assert |after| == |box.rows|;
    assert forall i :: 0 <= i < |after| ==> after[i].dedupe == box.rows[i].dedupe;
  }

  // ------------------------------------------------------------------ one step

  /** The outbox holds the announcement of a trade's change to a status if and only if the trade has been there. */
  ghost predicate ToldRightly(o: Office, id: string, to: Status) {
    Outbox.Known(o.box.rows, TradeNotice(id, to)) <==> Visited(Past(o.world.db, id), to)
  }

  /** What a step adds to a trade's history. */
  lemma VisitsIff(cfg: Config, w: World, step: Step, id: string, to: Status)
    requires NoResale(w.db) && Kept(w.db) && UuidText(id) && ToldByTrade(to)
    ensures Visited(Past(Steps.Next(cfg, w, step).db, id), to)
       <==> Visited(Past(w.db, id), to) || Announces(cfg, w, step) == Some(TradeNotice(id, to))
  {
    hide *;
    var made := Made(cfg, w, step);
    NextKeeps(cfg, w, step);
    KeptIsRecorded(w.db);
    KeptIsRecorded(Steps.Next(cfg, w, step).db);
    if made.Some? {
      WhenMade(cfg, w, step, made.value);
      MadeIsUuid(w.db, Ground(w, step), Steps.Next(cfg, w, step).db, made.value, step.tick);
      MadeVisits(w.db, Ground(w, step), Steps.Next(cfg, w, step).db, made.value, step.tick, id, to);
      AnnouncesMade(cfg, w, step, made.value);
    } else {
      WhenNotMade(cfg, w, step);
      QuietVisits(cfg, w, step, id, to);
      AnnouncesNothing(cfg, w, step);
    }
  }

  lemma KeptIsRecorded(s: Store)
    requires Kept(s)
    ensures Recorded(s)
  {
    hide Recorded, Counted;
  }

  lemma AnnouncesMade(cfg: Config, w: World, step: Step, ask: Ask)
    requires Made(cfg, w, step) == Some(ask)
    ensures Announces(cfg, w, step) == NoticeOf(Ground(w, step), ask)
  {
    hide Made, Ground, NoticeOf;
  }

  lemma AnnouncesNothing(cfg: Config, w: World, step: Step)
    requires !Made(cfg, w, step).Some?
    ensures Announces(cfg, w, step) == None
  {
    hide Made, Ground, NoticeOf;
  }

  lemma MadeVisits(s: Store, ground: Store, after: Store, ask: Ask, tick: Tick, id: string, to: Status)
    requires Makes(s, ground, after, ask, tick) && Recorded(s) && Recorded(after) && UuidText(id) && UuidText(ask.trade) && ToldByTrade(to)
    ensures Visited(Past(after, id), to) <==> Visited(Past(s, id), to) || NoticeOf(ground, ask) == Some(TradeNotice(id, to))
  {
    hide *;
    NoticeIff(s, ground, after, ask, tick, id, to);
    PastAfter(s, ground, after, ask, tick, id);
    VisitedAppend(Past(s, id), Change(Some(StatusOf(s, id)), ask.to), to);
  }

  function StatusOf(s: Store, id: string): Status {
    if id in s.trades then s.trades[id].status else PendingDeposit
  }

  lemma NoticeIff(s: Store, ground: Store, after: Store, ask: Ask, tick: Tick, id: string, to: Status)
    requires Makes(s, ground, after, ask, tick) && UuidText(id) && UuidText(ask.trade) && ToldByTrade(to)
    ensures NoticeOf(ground, ask) == Some(TradeNotice(id, to)) <==> ask.trade == id && ask.to == to
  {
    UuidIsKeyText(id);
    UuidIsKeyText(ask.trade);
    hide UuidText, KeyText, ToldByTrade, NoticeKey, TradeNotice, Posted, KeyAsked, SameDeal, Allowed, Past, Written, Elsewhere;
    NoticeForms(ask.trade, ground.trades[ask.trade], ask.to, ask.meta);
    if NoticeOf(ground, ask) == Some(TradeNotice(id, to)) {
      NoticeTells(ground, ask, id, to);
    }
  }

  lemma PastAfter(s: Store, ground: Store, after: Store, ask: Ask, tick: Tick, id: string)
    requires Makes(s, ground, after, ask, tick) && Recorded(s) && Recorded(after)
    ensures Past(after, id) == if id == ask.trade then Past(s, id) + [Change(Some(StatusOf(s, id)), ask.to)] else Past(s, id)
  {
    hide Posted, KeyAsked, SameDeal, Allowed, Written, Chain, RecordedAt;
    if id !in s.trades {
      assert id !in after.trades && id !in after.history && id !in s.history;
    }
  }

  lemma QuietVisits(cfg: Config, w: World, step: Step, id: string, to: Status)
    requires Quiet(w.db, Steps.Next(cfg, w, step).db) && Recorded(w.db) && Recorded(Steps.Next(cfg, w, step).db) && ToldByTrade(to)
    ensures Visited(Past(Steps.Next(cfg, w, step).db, id), to) <==> Visited(Past(w.db, id), to)
  {
    hide Steps.Next, SameDeal, Chain, RecordedAt;
    var after := Steps.Next(cfg, w, step).db;
    if id in w.db.trades {
      assert Kin(w.db, after, id);
    } else if id in after.trades {
      BornAt(cfg, w, step, id);
    } else {
      assert id !in after.history;
    }
  }

  // ------------------------------------------------------------------ whole runs

  lemma Starts(cfg: Config, id: string, to: Status)
    ensures ToldRightly(Run(cfg, []), id, to)
  {
    hide TradeNotice;
  }

  lemma WorkTells(cfg: Config, o: Office, step: Step, channel: Outbox.Channel, id: string, to: Status)
    requires Kept(o.world.db) && NoResale(o.world.db) && UuidText(id) && ToldByTrade(to) && ToldRightly(o, id, to)
    ensures ToldRightly(Next(cfg, o, Work(step, channel)), id, to)
  {
    hide Steps.Next, Announces, Told, TradeNotice, Visited, Past, Outbox.Known, Trim, Kept, NoResale, UuidText, ToldByTrade;
    VisitsIff(cfg, o.world, step, id, to);
    NoticeIsVisible(id, to);
    ToldKnows(o.box, Announces(cfg, o.world, step), channel, step.tick.now, TradeNotice(id, to));
  }

  lemma SendTells(cfg: Config, o: Office, event: Outbox.Event, id: string, to: Status)
    requires ToldRightly(o, id, to)
    ensures ToldRightly(Next(cfg, o, Send(event)), id, to)
  {
    hide TradeNotice, Visited, Past, Outbox.Known, Outbox.Next, Steps.Next, Announces;
    if !event.Enqueue? {
      SendingKnows(o.box, event, TradeNotice(id, to));
    }
  }

  lemma {:induction false} OfficeIsKept(cfg: Config, actions: seq<Action>)
    requires Uuids(cfg)
    ensures Kept(Run(cfg, actions).world.db) && NoResale(Run(cfg, actions).world.db)
  {
    hide Steps.Next, Recorded, Counted, NoResale, Told, Announces, Outbox.Next, Uuids;
    if actions == [] {
      EmptyIsKept();
    } else {
      var n := |actions| - 1;
      OfficeIsKept(cfg, actions[..n]);
      var w := Run(cfg, actions[..n]).world;
      if actions[n].Work? {
        NextKeeps(cfg, w, actions[n].step);
        NextNoResale(cfg, w, actions[n].step);
      }
    }
  }

  lemma EmptyIsKept()
    ensures Kept(START.db) && NoResale(START.db)
  {
  }

  /** Whatever the senders do between the engine's steps, the outbox holds the announcement of a trade's confirmation, of
      the start and the end of its sale, of its payout's start or its failure, if and only if the trade has been in that
      status. */
  lemma {:induction false} ToldIffVisited(cfg: Config, actions: seq<Action>, id: string, to: Status)
    requires Uuids(cfg) && UuidText(id) && ToldByTrade(to)
    ensures ToldRightly(Run(cfg, actions), id, to)
  {
    hide Next, ToldRightly, Kept, NoResale, Uuids, UuidText, ToldByTrade;
    if actions == [] {
      Starts(cfg, id, to);
    } else {
      var n := |actions| - 1;
      ToldIffVisited(cfg, actions[..n], id, to);
      OfficeIsKept(cfg, actions[..n]);
      var o := Run(cfg, actions[..n]);
      match actions[n]
      case Work(step, channel) => WorkTells(cfg, o, step, channel, id, to);
      case Send(event) => SendTells(cfg, o, event, id, to);
    }
  }

  /** The outbox after a change to such a status: one notification more if the trade has never been there. */
  predicate ToldFirst(o: Office, after: Office, ask: Ask, channel: Outbox.Channel, now: int) {
    after.box.rows == if Visited(Past(o.world.db, ask.trade), ask.to) then o.box.rows
                      else o.box.rows + [Outbox.Blank(channel, TradeNotice(ask.trade, ask.to), now)]
  }

  /** So the user is told of such a change only the first time: it leaves one more notification if the trade has never
      been there, and none if an admin's retry or a reopened payout has sent it there again. */
  lemma ToldTheFirstTime(cfg: Config, actions: seq<Action>, step: Step, channel: Outbox.Channel, ask: Ask)
    requires Uuids(cfg) && Made(cfg, Run(cfg, actions).world, step) == Some(ask) && ToldByTrade(ask.to)
    ensures ToldFirst(Run(cfg, actions), Next(cfg, Run(cfg, actions), Work(step, channel)), ask, channel, step.tick.now)
  {
    hide *;
    var o := Run(cfg, actions);
    OfficeIsKept(cfg, actions);
    WhenMade(cfg, o.world, step, ask);
    MadeIsUuid(o.world.db, Ground(o.world, step), Steps.Next(cfg, o.world, step).db, ask, step.tick);
    NoticeIff(o.world.db, Ground(o.world, step), Steps.Next(cfg, o.world, step).db, ask, step.tick, ask.trade, ask.to);
    AnnouncesMade(cfg, o.world, step, ask);
    ToldIffVisited(cfg, actions, ask.trade, ask.to);
    TellsOnce(cfg, o, step, channel, ask);
  }

  lemma TellsOnce(cfg: Config, o: Office, step: Step, channel: Outbox.Channel, ask: Ask)
    requires Announces(cfg, o.world, step) == Some(TradeNotice(ask.trade, ask.to)) && UuidText(ask.trade) && ToldRightly(o, ask.trade, ask.to)
    ensures ToldFirst(o, Next(cfg, o, Work(step, channel)), ask, channel, step.tick.now)
  {
    hide Steps.Next, Announces, TradeNotice, Visited, Past, Outbox.Known, Trim, UuidText;
    NoticeIsVisible(ask.trade, ask.to);
  }
}
