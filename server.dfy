/**
  The request handler of Server.py over a `Store`: path routing, the
  `/command/<id>` poll with its delivery counter and scripted follow-up
  commands, the `/clients` views, and the POST routes that ingest a snapshot,
  enqueue a command or acknowledge one. The HTTP plumbing is not modelled: a
  request is a path and an already-decoded body, and a response is a status
  code and a JSON value, or the exception that escaped the handler.
*/
module Server {
  import opened Wrappers
  import opened Json
  import Text
  import opened CommandQueue
  import opened Functions

  /** What a handler sends back: a JSON reply, or an exception that escaped it. */
  datatype Response = Reply(code: int, body: Value) | Fault(error: PyError)

  const BadPath: Response := Reply(400, Obj(map["error" := Str("bad_path")]))
  const NotFound: Response := Reply(404, Obj(map["status" := Str("not_found")]))
  const InvalidJson: Response := Reply(400, Obj(map["status" := Str("error"), "error" := Str("invalid_json")]))

  /** A Python exception becomes a fault, a value a 200 reply. */
  function ReplyOf(r: Result<Value>): Response {
    match r
    case Ok(v) => Reply(200, v)
    case Raised(e) => Fault(e)
  }

  // ---------------------------------------------------------------------
  // Routing

  datatype GetRoute =
    | Health
    | TestMessage
    | PollRoute(clientId: string)
    | BadPollPath
    | ClientList
    | ClientOpen(clientId: string)
    | ClientClosedOnline(clientId: string)
    | ClientSummary(clientId: string)
    | GetNotFound

  /** The route prefixes exclude each other and the fixed paths. */
  lemma PrefixesExclusive(path: string)
    ensures "/command/" <= path ==> !("/clients" <= path) && !("/ack/" <= path)
    ensures "/clients" <= path ==> !("/ack/" <= path)
    ensures "/command/" <= path || "/clients" <= path || "/ack/" <= path ==>
      path != "/" && path != "/health" && path != "/status" && path != "/message"
  {
    if "/command/" <= path { assert path[2] == 'o' && path[..9] == "/command/"; }
    if "/clients" <= path { assert path[2] == 'l' && path[..8] == "/clients"; }
    if "/ack/" <= path { assert path[1] == 'a' && path[..5] == "/ack/"; }
  }

  /** A `/clients...` path has at least one segment, the one right after the leading slash. */
  lemma ClientsPathSegments(path: string)
    ensures "/clients" <= path ==> |Text.Segments(path)| >= 1
  {
    if "/clients" <= path {
      assert path[0] == '/' && path[1] == 'c';
      Text.SegmentsOfRooted(path);
    }
  }

  /** do_GET's dispatch on the path, with `[p for p in path.split("/") if p]` as the segments. */
  function RouteGet(path: string): (r: GetRoute)
    ensures r == Health <==> path == "/" || path == "/health" || path == "/status"
    ensures r == TestMessage <==> path == "/message"
    ensures r.PollRoute? <==> "/command/" <= path && |Text.Segments(path)| == 2
    ensures r == BadPollPath <==> "/command/" <= path && |Text.Segments(path)| != 2
    ensures r.PollRoute? ==> r.clientId == Text.Segments(path)[1] && Text.SegmentLike(r.clientId)
    ensures r.ClientOpen? || r.ClientClosedOnline? || r.ClientSummary? ==>
      && "/clients" <= path && |Text.Segments(path)| >= 2
      && r.clientId == Text.Segments(path)[1] && Text.SegmentLike(r.clientId)
    ensures r == ClientList <==> "/clients" <= path && |Text.Segments(path)| == 1
    ensures "/clients" <= path && |Text.Segments(path)| >= 2 ==>
      var parts := Text.Segments(path);
      var open := |parts| == 3 && parts[2] == "open";
      var closed := |parts| == 3 && parts[2] == "closed_online";
      && (r == ClientOpen(parts[1]) <==> open)
      && (r == ClientClosedOnline(parts[1]) <==> closed)
      && (r == ClientSummary(parts[1]) <==> !open && !closed)
    ensures r == GetNotFound <==>
      && path != "/" && path != "/health" && path != "/status" && path != "/message"
      && !("/command/" <= path) && !("/clients" <= path)
  {
    PrefixesExclusive(path);
    ClientsPathSegments(path);
    if path == "/" || path == "/health" || path == "/status" then Health
    else if path == "/message" then TestMessage
    else if "/command/" <= path then
      var parts := Text.Segments(path);
      if |parts| == 2 then PollRoute(parts[1]) else BadPollPath
    else if "/clients" <= path then
      var parts := Text.Segments(path);
      if |parts| == 1 then ClientList
      else if |parts| >= 2 then
        if |parts| == 3 && parts[2] == "open" then ClientOpen(parts[1])
        else if |parts| == 3 && parts[2] == "closed_online" then ClientClosedOnline(parts[1])
        else ClientSummary(parts[1])
      else GetNotFound
    else GetNotFound
  }

  datatype PostRoute =
    | IngestRoute
    | EnqueueRoute(clientId: string)
    | AckRoute(clientId: string)
    | PostBadPath
    | PostNotFound

  /** do_POST's dispatch on the path. */
  function RoutePost(path: string): (r: PostRoute)
    ensures r == IngestRoute <==> path == "/"
    ensures r.EnqueueRoute? <==> "/command/" <= path && |Text.Segments(path)| == 2
    ensures r.AckRoute? <==> "/ack/" <= path && |Text.Segments(path)| == 2
    ensures r.EnqueueRoute? || r.AckRoute? ==> r.clientId == Text.Segments(path)[1] && Text.SegmentLike(r.clientId)
    ensures r == PostBadPath <==> ("/command/" <= path || "/ack/" <= path) && |Text.Segments(path)| != 2
  {
    PrefixesExclusive(path);
    if path == "/" then IngestRoute
    else if "/command/" <= path then
      var parts := Text.Segments(path);
      if |parts| == 2 then EnqueueRoute(parts[1]) else PostBadPath
    else if "/ack/" <= path then
      var parts := Text.Segments(path);
      if |parts| == 2 then AckRoute(parts[1]) else PostBadPath
    else PostNotFound
  }

  lemma PathOfTwo(a: string, b: string)
    ensures Text.PathOf([a, b]) == "/" + a + "/" + b
  {
    assert [a, b][1..] == [b];
    assert [b][1..] == [];
    assert Text.PathOf([b]) == "/" + b + Text.PathOf([]);
    assert Text.PathOf([a, b]) == "/" + a + Text.PathOf([b]);
  }

  lemma PathOfThree(a: string, b: string, c: string)
    ensures Text.PathOf([a, b, c]) == "/" + a + "/" + b + "/" + c
  {
    assert [a, b, c][1..] == [b, c];
    PathOfTwo(b, c);
  }

  /** The poll paths a client builds from its id: one id selects it, anything longer is a bad path. */
  lemma PollPathsRoute(id: string, extra: string)
    requires Text.SegmentLike(id) && Text.SegmentLike(extra)
    ensures RouteGet("/command/" + id) == PollRoute(id)
    ensures RouteGet("/command/" + id + "/" + extra) == BadPollPath
    ensures RoutePost("/command/" + id) == EnqueueRoute(id)
    ensures RoutePost("/command/" + id + "/" + extra) == PostBadPath
  {
    var cmd := "/command/" + id;
    PathOfTwo("command", id);
    assert cmd == "/" + "command" + "/" + id;
    Text.SegmentsOfPath(["command", id]);
    assert cmd[..9] == "/command/";
    var longer := "/command/" + id + "/" + extra;
    PathOfThree("command", id, extra);
    assert longer == "/" + "command" + "/" + id + "/" + extra;
    Text.SegmentsOfPath(["command", id, extra]);
    assert longer[..9] == "/command/";
  }

  /** `/clients` lists the clients. */
  lemma ClientListPath()
    ensures RouteGet("/clients") == ClientList
  {
    Text.SegmentsOfPath(["clients"]);
    assert Text.PathOf(["clients"]) == "/clients" by {
      assert ["clients"][1..] == [];
    }
  }

  /** `/clients/<id>` is the summary of that client. */
  lemma ClientSummaryPath(id: string)
    requires Text.SegmentLike(id)
    ensures RouteGet("/clients/" + id) == ClientSummary(id)
  {
    var one := "/clients/" + id;
    PathOfTwo("clients", id);
    assert one == "/" + "clients" + "/" + id;
    Text.SegmentsOfPath(["clients", id]);
    assert one[..8] == "/clients";
    assert "/clients" <= one;
    PrefixesExclusive(one);
    assert Text.Segments(one) == ["clients", id];
  }

  /** The acknowledgement path of a client. */
  lemma AckPathsRoute(id: string, extra: string)
    requires Text.SegmentLike(id) && Text.SegmentLike(extra)
    ensures RoutePost("/ack/" + id) == AckRoute(id)
    ensures RoutePost("/ack/" + id + "/" + extra) == PostBadPath
  {
    var ack := "/ack/" + id;
    PathOfTwo("ack", id);
    assert ack == "/" + "ack" + "/" + id;
    Text.SegmentsOfPath(["ack", id]);
    assert ack[..5] == "/ack/";
    var longer := "/ack/" + id + "/" + extra;
    PathOfThree("ack", id, extra);
    assert longer == "/" + "ack" + "/" + id + "/" + extra;
    Text.SegmentsOfPath(["ack", id, extra]);
    assert longer[..5] == "/ack/";
  }

  /** `/clients/<id>/open` and `/clients/<id>/closed_online` are its lists; any other tail is its summary. */
  lemma ClientTailPath(id: string, tail: string)
    requires Text.SegmentLike(id) && Text.SegmentLike(tail)
    ensures RouteGet("/clients/" + id + "/" + tail) ==
      if tail == "open" then ClientOpen(id)
      else if tail == "closed_online" then ClientClosedOnline(id)
      else ClientSummary(id)
  {
    var p := "/clients/" + id + "/" + tail;
    PathOfThree("clients", id, tail);
    assert p == "/" + "clients" + "/" + id + "/" + tail;
    Text.SegmentsOfPath(["clients", id, tail]);
    assert p[..8] == "/clients";
    assert "/clients" <= p;
    PrefixesExclusive(p);
    assert Text.Segments(p) == ["clients", id, tail];
  }

  // ---------------------------------------------------------------------
  // The scripted follow-up commands of the poll

  /** A command the poll enqueues by itself: its action code and payload. */
  datatype Scripted = Scripted(state: int, payload: Value)

  /**
    The command enqueued when the updated reply count is `replies`: a BUY at
    20, a SELL at 40, another BUY at 60 and a close at 80; none otherwise.
  */
  function ScriptedCommand(replies: int): (r: Option<Scripted>)
    ensures r.Some? <==> replies == 20 || replies == 40 || replies == 60 || replies == 80
    ensures r.Some? ==> r.value.state == (if replies == 40 then 2 else if replies == 80 then 3 else 1)
    ensures r.Some? ==> r.value.payload.Obj? && "symbol" in r.value.payload.fields && Truthy(r.value.payload)
    ensures r.Some? ==> Lookup(r.value.payload.fields, "symbol", Null) == Str("XAUUSD")
  {
    if replies == 20 then
      Some(Scripted(1, Obj(map["symbol" := Str("XAUUSD"), "volume" := Float(1.0),
                               "comment" := Str("auto BUY on reply #20"),
                               "slPips" := Int(10000), "tpPips" := Int(10000)])))
    else if replies == 40 then
      Some(Scripted(2, Obj(map["symbol" := Str("XAUUSD"), "volume" := Float(1.0),
                               "comment" := Str("auto SELL on reply #40")])))
    else if replies == 60 then
      Some(Scripted(1, Obj(map["symbol" := Str("XAUUSD"), "volume" := Float(1.0),
                               "comment" := Str("auto BUY on reply #60"),
                               "sl" := Int(3341), "tp" := Int(3722)])))
    else if replies == 80 then
      Some(Scripted(3, Obj(map["symbol" := Str("XAUUSD"), "type" := Int(1),
                               "comment" := Str("auto CLOSE SELL on reply #80")])))
    else None
  }

  /**
    What the client receives for each scripted command: the stop-loss and
    take-profit fields of #20 and #60 and the side filter of #80 are not
    forwarded, and the close of #80 carries no ticket and no volume.
  */
  lemma ScriptedReplies(clientId: string, cmdId: string, now: string)
    ensures forall n | n == 20 || n == 60 ::
      var r := Shape(clientId, NewCommand(cmdId, clientId, 1, ScriptedCommand(n).value.payload, now));
      r.Ok? && r.value.fields.Keys == OpenKeys && r.value.fields["volume"] == Float(1.0)
      && r.value.fields["state"] == Int(1)
    ensures var r := Shape(clientId, NewCommand(cmdId, clientId, 2, ScriptedCommand(40).value.payload, now));
      r.Ok? && r.value.fields.Keys == OpenKeys && r.value.fields["comment"] == Str("auto SELL on reply #40")
    ensures var r := Shape(clientId, NewCommand(cmdId, clientId, 3, ScriptedCommand(80).value.payload, now));
      r.Ok? && r.value.fields.Keys == CloseKeys && r.value.fields["symbol"] == Str("XAUUSD")
      && r.value.fields["ticket"] == Null && r.value.fields["volume"] == Null
  {
    forall n | n == 20 || n == 60
      ensures var r := Shape(clientId, NewCommand(cmdId, clientId, 1, ScriptedCommand(n).value.payload, now));
        r.Ok? && r.value.fields.Keys == OpenKeys && r.value.fields["volume"] == Float(1.0)
        && r.value.fields["state"] == Int(1)
    {
      assert Lookup(ScriptedCommand(n).value.payload.fields, "volume", Null) == Float(1.0);
    }
    assert "volume" !in ScriptedCommand(80).value.payload.fields;
    assert "ticket" !in ScriptedCommand(80).value.payload.fields;
  }

  // ---------------------------------------------------------------------
  // The poll: GET /command/<id>

  /** `int(msg.get("state", 0))`, which may raise. */
  function StateField(msg: Value): (r: Result<int>)
    ensures !msg.Obj? ==> r == Raised(AttributeError)
    ensures msg.Obj? && "state" !in msg.fields ==> r == Ok(0)
    ensures msg.Obj? && "state" in msg.fields && msg.fields["state"].Int? ==> r == Ok(msg.fields["state"].i)
  {
    match Get(msg, "state", Int(0))
    case Raised(e) => Raised(e)
    case Ok(s) => ToInt(s)
  }

  /** The action recorded for a poll: the reply's state when it has one that converts, else 0. */
  function ReplyState(msg: Value): (a: int)
    ensures StateField(msg).Ok? && msg.Obj? ==> a == StateField(msg).value
    ensures !(msg.Obj? && "state" in msg.fields && StateField(msg).Ok?) ==> a == 0
  {
    if msg.Obj? && "state" in msg.fields then
      match StateField(msg)
      case Ok(n) => n
      case Raised(_) => 0
    else 0
  }

  /** Every reply get_next_command gives carries its record's action code, 0 when nothing is pending. */
  lemma ReplyStateOfNextReply(clientId: string, q: seq<Command>)
    requires NextReply(clientId, q).Ok?
    ensures var msg := NextReply(clientId, q).value;
      && StateField(msg) == Ok(ReplyState(msg))
      && ReplyState(msg) == (if FirstPending(q).Some? then q[FirstPending(q).value].state else 0)
  {
    NextReplyNamesFirstPending(clientId, q);
  }

  /** The counters, queues and reply after one poll. */
  datatype PollOutcome = PollOutcome(commands: map<string, seq<Command>>, stats: map<string, Stats>, response: Response)

  /**
    The poll as a function of the state before it: fetch the next message
    (an exception here escapes the handler), count the delivery, then run
    the scripted step for the new count.
  */
  function PollSpec(m: map<string, seq<Command>>, st: map<string, Stats>, clientId: string,
                    now: string, freshId: string): (o: PollOutcome)
    ensures o.response.Fault? <==> NextReply(clientId, QueueOf(m, clientId)).Raised?
    ensures o.response.Fault? ==> o.response.error == AttributeError && o.stats == st
    ensures o.response.Reply? ==>
      && o.response.code == 200
      && o.stats == st[clientId := Stats(StatsOf(st, clientId).replies + 1,
                                         ReplyState(NextReply(clientId, QueueOf(m, clientId)).value))]
  {
    var q := QueueOf(m, clientId);
    var m1 := WithQueue(m, clientId, Deliver(q, now));
    match NextReply(clientId, q)
    case Raised(e) => PollOutcome(m1, st, Fault(e))
    case Ok(msg) =>
      var s := Stats(StatsOf(st, clientId).replies + 1, ReplyState(msg));
      var after := Inject(m1, clientId, msg, ScriptedCommand(s.replies), now, freshId);
      PollOutcome(after.0, st[clientId := s], Reply(200, after.1))
  }

  /**
    The scripted step after `msg` was fetched: enqueue `sc`, if any, and
    fetch again when the message was a no-op. The step runs in a try whose
    handler does nothing, so a re-fetch that raised would leave `msg` as the
    reply.
  */
  function Inject(m1: map<string, seq<Command>>, clientId: string, msg: Value, sc: Option<Scripted>,
                  now: string, freshId: string): (r: (map<string, seq<Command>>, Value))
    ensures sc.None? ==> r == (m1, msg)
    ensures sc.Some? ==> clientId in r.0 && |r.0[clientId]| == |QueueOf(m1, clientId)| + 1
    ensures sc.Some? && StateField(msg) != Ok(0) ==> r.1 == msg
    ensures r.0.Keys == m1.Keys + (if sc.Some? then {clientId} else {})
  {
    match sc
    case None => (m1, msg)
    case Some(sc) =>
      var q1 := QueueOf(m1, clientId) + [NewCommand(freshId, clientId, sc.state, sc.payload, now)];
      var m2 := m1[clientId := q1];
      if StateField(msg) == Ok(0) then
        (WithQueue(m2, clientId, Deliver(q1, now)),
         match NextReply(clientId, q1) case Raised(_) => msg case Ok(again) => again)
      else (m2, msg)
  }

  /** A poll faults only when the first fetch does; a delivery is then not counted, and otherwise counted once. */
  lemma PollCountsOneDelivery(m: map<string, seq<Command>>, st: map<string, Stats>, clientId: string,
                              now: string, freshId: string)
    ensures var o := PollSpec(m, st, clientId, now, freshId);
      var q := QueueOf(m, clientId);
      var first := NextReply(clientId, q);
      && (o.response.Fault? <==> first.Raised?)
      && (o.response.Fault? ==> o.stats == st && o.response.error == AttributeError)
      && (o.response.Reply? ==> o.response.code == 200)
      && (o.response.Reply? ==>
            o.stats == st[clientId := Stats(StatsOf(st, clientId).replies + 1, ReplyState(first.value))])
      && (first.Ok? && FirstPending(q).None? ==> ReplyState(first.value) == 0)
      && (first.Ok? && FirstPending(q).Some? ==> ReplyState(first.value) == q[FirstPending(q).value].state)
  {
    var first := NextReply(clientId, QueueOf(m, clientId));
    if first.Ok? {
      ReplyStateOfNextReply(clientId, QueueOf(m, clientId));
    } else {
      NextReplyAttributeError(clientId, QueueOf(m, clientId));
    }
  }

  lemma NextReplyAttributeError(clientId: string, q: seq<Command>)
    requires NextReply(clientId, q).Raised?
    ensures NextReply(clientId, q).error == AttributeError
  {
  }

  /**
    The scripted step appends exactly the one command `sc` names, if any, to
    the end of the client's list; it changes no other list and loses no record.
  */
  lemma InjectAppendsOne(m1: map<string, seq<Command>>, clientId: string, msg: Value, sc: Option<Scripted>,
                         now: string, freshId: string)
    ensures var m := Inject(m1, clientId, msg, sc, now, freshId).0;
      var q := QueueOf(m1, clientId);
      && (forall k :: k != clientId ==> QueueOf(m, k) == QueueOf(m1, k))
      && |QueueOf(m, clientId)| == |q| + (if sc.Some? then 1 else 0)
      && Extends(q, QueueOf(m, clientId))
      && (sc.Some? ==>
            var last := QueueOf(m, clientId)[|q|];
            last.cmdId == freshId && last.state == sc.value.state
            && last.payload == OrEmpty(sc.value.payload) && last.status != Acked)
  {
    if sc.Some? {
      var q := QueueOf(m1, clientId);
      var c := NewCommand(freshId, clientId, sc.value.state, sc.value.payload, now);
      var q1 := q + [c];
      assert Extends(q, q1);
      if StateField(msg) == Ok(0) {
        DeliverExtends(q1, now);
        ExtendsTransitive(q, q1, Deliver(q1, now));
        DeliverPromotes(q1, now);
      }
    }
  }

  /**
    A poll enqueues one command exactly when the new count is 20, 40, 60 or
    80, at the end of the polled client's list with the scripted action
    code; no other client's list changes, and no record is lost.
  */
  lemma PollInjectsAtScriptedCounts(m: map<string, seq<Command>>, st: map<string, Stats>, clientId: string,
                                    now: string, freshId: string)
    ensures var o := PollSpec(m, st, clientId, now, freshId);
      var n := StatsOf(st, clientId).replies + 1;
      var injected := o.response.Reply? && (n == 20 || n == 40 || n == 60 || n == 80);
      && (forall k :: k != clientId ==> QueueOf(o.commands, k) == QueueOf(m, k))
      && |QueueOf(o.commands, clientId)| == |QueueOf(m, clientId)| + (if injected then 1 else 0)
      && Extends(QueueOf(m, clientId), QueueOf(o.commands, clientId))
      && (injected ==>
            var last := QueueOf(o.commands, clientId)[|QueueOf(m, clientId)|];
            last.cmdId == freshId && last.state == ScriptedCommand(n).value.state
            && last.payload == ScriptedCommand(n).value.payload && last.status != Acked)
  {
    var q := QueueOf(m, clientId);
    var m1 := WithQueue(m, clientId, Deliver(q, now));
    DeliverExtends(q, now);
    assert QueueOf(m1, clientId) == Deliver(q, now);
    assert forall k :: k != clientId ==> QueueOf(m1, k) == QueueOf(m, k);
    var first := NextReply(clientId, q);
    if first.Ok? {
      var n := StatsOf(st, clientId).replies + 1;
      InjectAppendsOne(m1, clientId, first.value, ScriptedCommand(n), now, freshId);
      ExtendsTransitive(q, Deliver(q, now), QueueOf(Inject(m1, clientId, first.value, ScriptedCommand(n), now, freshId).0, clientId));
    }
  }

  /** get_next_command's reply depends on a record's action code, id and payload only. */
  lemma ShapeIgnoresDelivery(clientId: string, c: Command, now: string)
    ensures Shape(clientId, c.(status := Sent, updatedAt := now)) == Shape(clientId, c)
  {
  }

  /** When a record is pending before the step, the re-fetch returns the message fetched before it. */
  lemma InjectKeepsPendingReply(m1: map<string, seq<Command>>, clientId: string, sc: Option<Scripted>,
                                now: string, freshId: string)
    requires FirstPending(QueueOf(m1, clientId)).Some?
    requires NextReply(clientId, QueueOf(m1, clientId)).Ok?
    ensures var msg := NextReply(clientId, QueueOf(m1, clientId)).value;
      Inject(m1, clientId, msg, sc, now, freshId).1 == msg
  {
    var q := QueueOf(m1, clientId);
    var k := FirstPending(q).value;
    if sc.Some? {
      var q1 := q + [NewCommand(freshId, clientId, sc.value.state, sc.value.payload, now)];
      assert forall j :: 0 <= j <= k ==> q1[j] == q[j];
      FirstPendingAt(q1, k);
    }
  }

  /**
    A pending record is always what the poll returns, injection or not: the
    command enqueued at a scripted count goes behind it, and the re-fetch
    returns the same record.
  */
  lemma PollRepliesWithFirstPending(m: map<string, seq<Command>>, st: map<string, Stats>, clientId: string,
                                    now: string, freshId: string)
    requires FirstPending(QueueOf(m, clientId)).Some?
    ensures var q := QueueOf(m, clientId);
      PollSpec(m, st, clientId, now, freshId).response == ReplyOf(Shape(clientId, q[FirstPending(q).value]))
  {
    var q := QueueOf(m, clientId);
    var k := FirstPending(q).value;
    var m1 := WithQueue(m, clientId, Deliver(q, now));
    var q' := Deliver(q, now);
    DeliverPromotes(q, now);
    RedeliveryIsIdempotent(clientId, q, now, now);
    assert QueueOf(m1, clientId) == q';
    if NextReply(clientId, q).Ok? {
      var msg := NextReply(clientId, q).value;
      var n := StatsOf(st, clientId).replies + 1;
      InjectKeepsPendingReply(m1, clientId, ScriptedCommand(n), now, freshId);
    }
  }

  /** With nothing pending, the scripted step delivers the command it enqueues and marks it sent. */
  lemma InjectWhenIdle(m1: map<string, seq<Command>>, clientId: string, sc: Scripted, now: string, freshId: string)
    requires FirstPending(QueueOf(m1, clientId)).None?
    requires sc.payload.Obj?
    ensures var c := NewCommand(freshId, clientId, sc.state, sc.payload, now);
      var after := Inject(m1, clientId, NoPending(clientId), Some(sc), now, freshId);
      && Shape(clientId, c).Ok?
      && after.1 == Shape(clientId, c).value
      && after.0 == m1[clientId := QueueOf(m1, clientId) + [c.(status := Sent)]]
  {
    var q := QueueOf(m1, clientId);
    var c := NewCommand(freshId, clientId, sc.state, sc.payload, now);
    var q1 := q + [c];
    FirstPendingAt(q1, |q|);
    DeliverPromotes(q1, now);
    assert Deliver(q1, now) == q + [c.(status := Sent)];
    assert StateField(NoPending(clientId)) == Ok(0);
  }

  /**
    With nothing pending, a poll at a scripted count delivers the command it
    has just enqueued, which is then marked sent; at any other count it
    returns the no-op message and changes no list.
  */
  lemma PollDeliversInjectedWhenIdle(m: map<string, seq<Command>>, st: map<string, Stats>, clientId: string,
                                     now: string, freshId: string)
    requires FirstPending(QueueOf(m, clientId)).None?
    ensures var o := PollSpec(m, st, clientId, now, freshId);
      var sc := ScriptedCommand(StatsOf(st, clientId).replies + 1);
      && (sc.None? ==> o.response == Reply(200, NoPending(clientId)) && o.commands == m)
      && (sc.Some? ==>
            var c := NewCommand(freshId, clientId, sc.value.state, sc.value.payload, now);
            && Shape(clientId, c).Ok?
            && o.response == Reply(200, Shape(clientId, c).value)
            && o.commands == m[clientId := QueueOf(m, clientId) + [c.(status := Sent)]])
  {
    var q := QueueOf(m, clientId);
    DeliverPromotes(q, now);
    assert WithQueue(m, clientId, q) == m;
    var sc := ScriptedCommand(StatsOf(st, clientId).replies + 1);
    if sc.Some? {
      InjectWhenIdle(m, clientId, sc.value, now, freshId);
    }
  }

  /** The poll method: the same steps as PollSpec, on the store. */
  method Poll(store: Store, clientId: string, now: string, freshId: string) returns (resp: Response)
    requires store.Valid() && freshId !in IssuedIds(store.commands)
    modifies store`commands, store`stats
    ensures store.Valid()
    ensures var o := PollSpec(old(store.commands), old(store.stats), clientId, now, freshId);
      store.commands == o.commands && store.stats == o.stats && resp == o.response
    ensures Evolved(old(store.commands), store.commands)
  {
    var msg := store.GetNextCommand(clientId, now);
    if msg.Raised? {
      return Fault(msg.error);
    }
    var stats := store.RecordCommandDelivery(clientId, ReplyState(msg.value));
    var reply := msg.value;
    var scripted := ScriptedCommand(stats.replies);
    if scripted.Some? {
      ghost var m1 := store.commands;
      var cmd := store.EnqueueCommand(clientId, scripted.value.state, scripted.value.payload, freshId, now);
      EvolvedTransitive(old(store.commands), m1, store.commands);
      if StateField(reply) == Ok(0) {
        ghost var m2 := store.commands;
        assert QueueOf(m2, clientId) == QueueOf(m1, clientId) + [cmd];
        var again := store.GetNextCommand(clientId, now);
        EvolvedTransitive(old(store.commands), m2, store.commands);
        if again.Ok? {
          reply := again.value;
        }
      }
    }
    resp := Reply(200, reply);
  }

  // ---------------------------------------------------------------------
  // GET handler

  function ClientIds(ids: seq<string>): (r: seq<Value>)
    ensures |r| == |ids| && forall i :: 0 <= i < |ids| ==> r[i] == Str(ids[i])
  {
    seq(|ids|, i requires 0 <= i < |ids| => Str(ids[i]))
  }

  /** The reply of every GET route other than the poll; it reads the snapshots and changes nothing. */
  function View(store: Store, route: GetRoute, now: string, testMessage: Value): (r: Response)
    reads store`openLists, store`closedOnline
    requires !route.PollRoute?
    ensures route == BadPollPath ==> r == BadPath
    ensures route == GetNotFound ==> r == NotFound
    ensures route.ClientOpen? ==> r == Reply(200, Obj(map["id" := Str(route.clientId), "open" := store.GetClientOpen(route.clientId)]))
    ensures route.ClientSummary? ==>
      (r.Reply? <==> Len(store.GetClientOpen(route.clientId)).Ok? && Len(store.GetClientClosedOnline(route.clientId)).Ok?)
    ensures route == Health ==> r == Reply(200, Obj(map["status" := Str("ok"), "ts" := Str(now)]))
    ensures route == TestMessage ==> r == Reply(200, Obj(map["message" := testMessage]))
    ensures route == ClientList ==> r == Reply(200, Obj(map["clients" := Arr(ClientIds(store.ListClients()))]))
    ensures route.ClientClosedOnline? ==>
      r == Reply(200, Obj(map["id" := Str(route.clientId),
                              "closed_online" := store.GetClientClosedOnline(route.clientId)]))
    ensures route.ClientSummary? && r.Reply? ==>
      r == Reply(200, Obj(map["id" := Str(route.clientId),
                              "open_count" := Int(Len(store.GetClientOpen(route.clientId)).value),
                              "closed_online_count" := Int(Len(store.GetClientClosedOnline(route.clientId)).value)]))
    ensures r.Fault? ==> route.ClientSummary? && r.error == TypeError
  {
    match route
    case Health => Reply(200, Obj(map["status" := Str("ok"), "ts" := Str(now)]))
    case TestMessage => Reply(200, Obj(map["message" := testMessage]))
    case BadPollPath => BadPath
    case ClientList => Reply(200, Obj(map["clients" := Arr(ClientIds(store.ListClients()))]))
    case ClientOpen(id) => Reply(200, Obj(map["id" := Str(id), "open" := store.GetClientOpen(id)]))
    case ClientClosedOnline(id) =>
      Reply(200, Obj(map["id" := Str(id), "closed_online" := store.GetClientClosedOnline(id)]))
    case ClientSummary(id) =>
      (match Len(store.GetClientOpen(id))
       case Raised(e) => Fault(e)
       case Ok(open) =>
         (match Len(store.GetClientClosedOnline(id))
          case Raised(e) => Fault(e)
          case Ok(closed) =>
            Reply(200, Obj(map["id" := Str(id), "open_count" := Int(open), "closed_online_count" := Int(closed)]))))
    case GetNotFound => NotFound
  }

  /** The JSON list of a strictly ascending list of ids: strings, ascending, each once. */
  lemma ClientIdsOfSorted(names: seq<string>)
    requires Text.StrictlySorted(names)
    ensures var ids := ClientIds(names);
      && (forall id :: Str(id) in ids <==> id in names)
      && (forall i :: 0 <= i < |ids| ==> ids[i].Str?)
      && (forall i, j :: 0 <= i < j < |ids| ==> Text.Less(ids[i].s, ids[j].s))
      && (forall i, j :: 0 <= i < j < |ids| ==> ids[i] != ids[j])
  {
    var ids := ClientIds(names);
    forall id ensures Str(id) in ids <==> id in names {
      if Str(id) in ids {
        var i :| 0 <= i < |ids| && ids[i] == Str(id);
        assert names[i] == id;
      }
      if id in names {
        var i :| 0 <= i < |names| && names[i] == id;
        assert ids[i] == Str(id);
      }
    }
    forall i, j | 0 <= i < j < |ids| ensures Text.Less(ids[i].s, ids[j].s) && ids[i] != ids[j] {
      Text.LessIrreflexive(names[i]);
      assert Text.Less(names[i], names[j]);
    }
  }

  /** The client listing holds every id with a snapshot, once each, in ascending order. */
  lemma ClientListIsSorted(store: Store, now: string, testMessage: Value)
    ensures var r := View(store, ClientList, now, testMessage);
      && r.Reply? && r.code == 200 && r.body.Obj? && "clients" in r.body.fields
      && var ids := r.body.fields["clients"];
      && ids.Arr?
      && (forall id :: Str(id) in ids.items <==> id in store.openLists || id in store.closedOnline)
      && (forall i :: 0 <= i < |ids.items| ==> ids.items[i].Str?)
      && (forall i, j :: 0 <= i < j < |ids.items| ==> Text.Less(ids.items[i].s, ids.items[j].s))
      && (forall i, j :: 0 <= i < j < |ids.items| ==> ids.items[i] != ids.items[j])
  {
    var names := store.ListClients();
    ClientIdsOfSorted(names);
    assert View(store, ClientList, now, testMessage) == Reply(200, Obj(map["clients" := Arr(ClientIds(names))]));
  }

  /** do_GET: the poll for `/command/<id>`, and a read-only view for every other path. */
  method DoGet(store: Store, path: string, now: string, freshId: string, testMessage: Value) returns (resp: Response)
    requires store.Valid() && freshId !in IssuedIds(store.commands)
    modifies store`commands, store`stats
    ensures store.Valid()
    ensures Evolved(old(store.commands), store.commands)
    ensures RouteGet(path).PollRoute? ==>
      var o := PollSpec(old(store.commands), old(store.stats), RouteGet(path).clientId, now, freshId);
      store.commands == o.commands && store.stats == o.stats && resp == o.response
    ensures !RouteGet(path).PollRoute? ==>
      && store.commands == old(store.commands) && store.stats == old(store.stats)
      && resp == View(store, RouteGet(path), now, testMessage)
  {
    var route := RouteGet(path);
    if route.PollRoute? {
      resp := Poll(store, route.clientId, now, freshId);
    } else {
      resp := View(store, route, now, testMessage);
    }
  }

  // ---------------------------------------------------------------------
  // POST handler

  /** The state and payload POST /command/<id> passes to enqueue_command. */
  function EnqueueArgs(data: Value): (r: Result<(int, Value)>)
    ensures !data.Obj? ==> r == Raised(AttributeError)
    ensures data.Obj? && "state" !in data.fields ==> r.Ok? && r.value.0 == 0
    ensures data.Obj? ==> (r.Ok? <==> ToInt(Lookup(data.fields, "state", Int(0))).Ok?)
    ensures r.Ok? ==> r.value.0 == ToInt(Lookup(data.fields, "state", Int(0))).value
    ensures r.Ok? ==> var p := Lookup(data.fields, "payload", Null);
      (Truthy(p) ==> r.value.1 == p) && (!Truthy(p) ==> r.value.1 == EmptyObj)
  {
    match Get(data, "state", Int(0))
    case Raised(e) => Raised(e)
    case Ok(s) =>
      match ToInt(s)
      case Raised(e) => Raised(e)
      case Ok(state) => Ok((state, OrEmpty(Lookup(data.fields, "payload", Null))))
  }

  /** The arguments POST /ack/<id> passes to ack_command. */
  datatype AckRequest = AckRequest(cmdId: Value, success: bool, details: Value)

  function AckArgs(data: Value): (r: Result<AckRequest>)
    ensures r.Ok? <==> data.Obj?
    ensures r.Raised? ==> r.error == AttributeError
    ensures r.Ok? && "cmdId" !in data.fields ==> r.value.cmdId == Null
    ensures r.Ok? && "cmdId" in data.fields ==> r.value.cmdId == data.fields["cmdId"]
    ensures r.Ok? ==> (r.value.success <==> "success" in data.fields && Truthy(data.fields["success"]))
    ensures r.Ok? ==> var d := Lookup(data.fields, "details", Null);
      (Truthy(d) ==> r.value.details == d) && (!Truthy(d) ==> r.value.details == EmptyObj)
  {
    if !data.Obj? then Raised(AttributeError)
    else
      var f := data.fields;
      Ok(AckRequest(Lookup(f, "cmdId", Null), Truthy(Lookup(f, "success", Bool(false))),
                    OrEmpty(Lookup(f, "details", Null))))
  }

  /** The ingest reply `{status: "ok", received: summary, id, mode}`. */
  function IngestBody(i: Ingested): (r: Value)
    ensures r.Obj? && r.fields.Keys == {"status", "received", "id", "mode"}
    ensures r.fields["status"] == Str("ok") && r.fields["id"] == Str(i.clientId) && r.fields["mode"] == i.mode
    ensures r.fields["received"] == Obj(map["open" := Int(i.summary.open),
                                            "closed_offline" := Int(i.summary.closedOffline),
                                            "closed_online" := Int(i.summary.closedOnline)])
  {
    Obj(map["status" := Str("ok"), "received" := SummaryJson(i.summary), "id" := Str(i.clientId), "mode" := i.mode])
  }

  /**
    do_POST on a decoded body: `None` stands for a body that is not JSON.
    The snapshot, enqueue and acknowledge routes change only what their
    Functions.py operation changes.
  */
  method DoPost(store: Store, path: string, body: Option<Value>, now: string, freshId: string,
                show: Value -> string) returns (resp: Response)
    requires store.Valid() && freshId !in IssuedIds(store.commands)
    modifies store`openLists, store`closedOnline, store`commands
    ensures store.Valid()
    ensures Evolved(old(store.commands), store.commands)
    ensures body.None? ==> resp == InvalidJson
    ensures body.None? || !RoutePost(path).IngestRoute? ==>
      store.openLists == old(store.openLists) && store.closedOnline == old(store.closedOnline)
    ensures body.None? || !(RoutePost(path).EnqueueRoute? || RoutePost(path).AckRoute?) ==>
      store.commands == old(store.commands)
    ensures body.Some? && RoutePost(path) == PostBadPath ==> resp == BadPath
    ensures body.Some? && RoutePost(path) == PostNotFound ==> resp == NotFound
    ensures body.Some? && RoutePost(path) == IngestRoute ==>
      match IngestSpec(body.value, show)
      case NotADict =>
        resp == Fault(AttributeError)
        && store.openLists == old(store.openLists) && store.closedOnline == old(store.closedOnline)
      case Plan(id, open, closed, reply) =>
        && store.openLists == old(store.openLists)[id := StoredList(open)]
        && store.closedOnline == old(store.closedOnline)[id := StoredList(closed)]
        && resp == (match reply case Ok(i) => Reply(200, IngestBody(i)) case Raised(e) => Fault(e))
    ensures body.Some? && RoutePost(path).EnqueueRoute? ==>
      var id := RoutePost(path).clientId;
      match EnqueueArgs(body.value)
      case Raised(e) => resp == Fault(e) && store.commands == old(store.commands)
      case Ok(args) =>
        var c := NewCommand(freshId, id, args.0, args.1, now);
        && store.commands == old(store.commands)[id := QueueOf(old(store.commands), id) + [c]]
        && resp == Reply(200, Obj(map["status" := Str("queued"), "command" := CommandJson(c)]))
    ensures body.Some? && RoutePost(path).AckRoute? ==>
      var id := RoutePost(path).clientId;
      match AckArgs(body.value)
      case Raised(e) => resp == Fault(e) && store.commands == old(store.commands)
      case Ok(a) =>
        var q := QueueOf(old(store.commands), id);
        && store.commands == WithQueue(old(store.commands), id, Acknowledge(q, a.cmdId, a.success, a.details, now))
        && resp == ReplyOf(AckReply(q, a.cmdId, a.success, a.details))
  {
    if body.None? {
      return InvalidJson;
    }
    var data := body.value;
    var route := RoutePost(path);
    match route
    case IngestRoute =>
      var r := store.IngestPayload(data, show);
      resp := match r case Ok(i) => Reply(200, IngestBody(i)) case Raised(e) => Fault(e);
    case EnqueueRoute(id) =>
      var args := EnqueueArgs(data);
      if args.Raised? {
        return Fault(args.error);
      }
      var cmd := store.EnqueueCommand(id, args.value.0, args.value.1, freshId, now);
      resp := Reply(200, Obj(map["status" := Str("queued"), "command" := CommandJson(cmd)]));
    case AckRoute(id) =>
      var args := AckArgs(data);
      if args.Raised? {
        return Fault(args.error);
      }
      var r := store.AckCommand(id, args.value.cmdId, args.value.success, args.value.details, now);
      resp := ReplyOf(r);
    case PostBadPath =>
      resp := BadPath;
    case PostNotFound =>
      resp := NotFound;
  }
}
