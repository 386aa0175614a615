/**
  The in-memory state of Functions.py: per-client snapshots of open and
  closed-online positions, per-client command lists, and per-client delivery
  counters. Each operation holds the module lock for its whole body in the
  source, so each is modelled as one atomic method of `Store`.
*/
module Functions {
  import opened Wrappers
  import opened Json
  import Text
  import opened CommandQueue

  /** `{replies, last_action}` of one client. */
  datatype Stats = Stats(replies: int, lastAction: int)

  /** The counters of a client, `{0, 0}` before its first delivery. */
  function StatsOf(m: map<string, Stats>, id: string): Stats {
    if id in m then m[id] else Stats(0, 0)
  }

  /** record_client_snapshot stores a None list as []. */
  function StoredList(v: Value): Value {
    if v.Null? then EmptyArr else v
  }

  // ---------------------------------------------------------------------
  // ingest_payload

  /** The echo summary: the lengths of the three lists of a payload. */
  datatype Summary = Summary(open: nat, closedOffline: nat, closedOnline: nat)

  function SummaryJson(s: Summary): Value {
    Obj(map["open" := Int(s.open), "closed_offline" := Int(s.closedOffline), "closed_online" := Int(s.closedOnline)])
  }

  /** What ingest_payload returns: the summary and the identity `{id, mode}`. */
  datatype Ingested = Ingested(summary: Summary, clientId: string, mode: Value)

  /** The client key of a payload: `str(id)`, or "unknown" when the id is missing or null. */
  function ClientKey(data: map<string, Value>, show: Value -> string): (key: string)
    ensures Lookup(data, "id", Null).Null? ==> key == "unknown"
    ensures Lookup(data, "id", Null).Str? ==> key == data["id"].s
    ensures Lookup(data, "id", Null).Int? ==> key == Text.ShowInt(data["id"].i)
  {
    var id := Lookup(data, "id", Null);
    if id.Null? then "unknown" else PyStr(id, show)
  }

  /** `len` of the three lists, in source order; the first that has no length raises. */
  function Summarize(open: Value, closedOffline: Value, closedOnline: Value): (r: Result<Summary>)
    ensures r.Ok? <==> Len(open).Ok? && Len(closedOffline).Ok? && Len(closedOnline).Ok?
    ensures r.Raised? ==> r.error == TypeError
    ensures r.Ok? ==> r.value == Summary(Len(open).value, Len(closedOffline).value, Len(closedOnline).value)
  {
    match Len(open)
    case Raised(e) => Raised(e)
    case Ok(a) =>
      match Len(closedOffline)
      case Raised(e) => Raised(e)
      case Ok(b) =>
        match Len(closedOnline)
        case Raised(e) => Raised(e)
        case Ok(c) => Ok(Summary(a, b, c))
  }

  /**
    What ingest_payload does with a payload: nothing, when it is not a dict
    (its `get` raises); otherwise it stores the "open" and "closed_online"
    lists under the client key and then summarises, which raises when one of
    the lists has no length. The snapshot is stored before the summary is
    built, so it is stored even then.
  */
  datatype IngestPlan =
    | NotADict
    | Plan(clientId: string, open: Value, closedOnline: Value, reply: Result<Ingested>)

  function IngestSpec(data: Value, show: Value -> string): (p: IngestPlan)
    ensures p.NotADict? <==> !data.Obj?
    ensures p.Plan? ==> p.clientId == ClientKey(data.fields, show)
    ensures p.Plan? && "open" !in data.fields ==> p.open == EmptyArr
    ensures p.Plan? && "closed_online" !in data.fields ==> p.closedOnline == EmptyArr
    ensures p.Plan? ==> p.open == Lookup(data.fields, "open", EmptyArr)
    ensures p.Plan? ==> p.closedOnline == Lookup(data.fields, "closed_online", EmptyArr)
    ensures p.Plan? ==> (p.reply.Ok? <==> Len(p.open).Ok? && Len(p.closedOnline).Ok?
                                           && Len(Lookup(data.fields, "closed_offline", EmptyArr)).Ok?)
    ensures p.Plan? && p.reply.Raised? ==> p.reply.error == TypeError
    ensures p.Plan? && p.reply.Ok? ==> p.reply.value.clientId == p.clientId
    ensures p.Plan? && p.reply.Ok? ==> p.reply.value.mode == Lookup(data.fields, "mode", Null)
    ensures p.Plan? && p.reply.Ok? ==> p.reply.value.summary.open == Len(p.open).value
    ensures p.Plan? && p.reply.Ok? ==> p.reply.value.summary.closedOnline == Len(p.closedOnline).value
    ensures p.Plan? && p.reply.Ok? ==>
      p.reply.value.summary.closedOffline == Len(Lookup(data.fields, "closed_offline", EmptyArr)).value
  {
    if !data.Obj? then NotADict
    else
      var f := data.fields;
      var clientId := ClientKey(f, show);
      var open := Lookup(f, "open", EmptyArr);
      var closedOffline := Lookup(f, "closed_offline", EmptyArr);
      var closedOnline := Lookup(f, "closed_online", EmptyArr);
      var reply :=
        match Summarize(open, closedOffline, closedOnline)
        case Raised(e) => Raised(e)
        case Ok(s) => Ok(Ingested(s, clientId, Lookup(f, "mode", Null)));
      Plan(clientId, open, closedOnline, reply)
  }

  /** A payload whose "open" is null: the snapshot is stored as [], then `len(None)` raises. */
  lemma NullOpenListStoredThenRaises(id: string, show: Value -> string)
    ensures var p := IngestSpec(Obj(map["id" := Str(id), "open" := Null]), show);
      p.Plan? && StoredList(p.open) == EmptyArr && p.reply == Raised(TypeError)
  {
  }

  // ---------------------------------------------------------------------
  // _type_name

  /** The label `_type_name` gives: "BUY" / "SELL", or `str(v)` itself (whose text is not modelled). */
  datatype TypeLabel = Named(name: string) | Rendered(v: Value)

  function TypeName(v: Value): (r: TypeLabel)
    ensures r == Named("BUY") <==> ToInt(v) == Ok(0)
    ensures r == Named("SELL") <==> ToInt(v) == Ok(1)
    ensures r.Rendered? <==> !(ToInt(v) == Ok(0) || ToInt(v) == Ok(1))
    ensures r.Rendered? ==> r.v == v
  {
    match ToInt(v)
    case Ok(n) => if n == 0 then Named("BUY") else if n == 1 then Named("SELL") else Rendered(v)
    case Raised(_) => Rendered(v)
  }

  /** Every spelling `int()` reads as 0 or 1 gets the label: the strings "0" and "1", and the numbers. */
  lemma TypeNameOfSpelledCodes()
    ensures TypeName(Str(Text.ShowInt(0))) == Named("BUY") && TypeName(Str(Text.ShowInt(1))) == Named("SELL")
    ensures TypeName(Int(0)) == Named("BUY") && TypeName(Bool(true)) == Named("SELL")
  {
    ToIntOfShownInt(0);
    ToIntOfShownInt(1);
  }

  // ---------------------------------------------------------------------
  // The store

  class Store {
    /** `_CLIENT_OPEN` */
    var openLists: map<string, Value>
    /** `_CLIENT_CLOSED_ONLINE` */
    var closedOnline: map<string, Value>
    /** `_CLIENT_COMMANDS` */
    var commands: map<string, seq<Command>>
    /** `_CLIENT_STATS` */
    var stats: map<string, Stats>

    /** One command record per id. */
    ghost predicate Valid()
      reads this`commands
    {
      UniqueIds(commands)
    }

    constructor ()
      ensures Valid()
      ensures openLists == map[] && closedOnline == map[] && commands == map[] && stats == map[]
    {
      openLists, closedOnline, commands, stats := map[], map[], map[], map[];
    }

    /** Replaces both lists of one client; every other client keeps its lists. */
    method RecordClientSnapshot(clientId: string, openList: Value, closedList: Value)
      modifies this`openLists, this`closedOnline
      ensures GetClientOpen(clientId) == StoredList(openList)
      ensures GetClientClosedOnline(clientId) == StoredList(closedList)
      ensures forall id :: id != clientId ==> GetClientOpen(id) == old(GetClientOpen(id))
      ensures forall id :: id != clientId ==> GetClientClosedOnline(id) == old(GetClientClosedOnline(id))
      ensures openLists == old(openLists)[clientId := StoredList(openList)]
      ensures closedOnline == old(closedOnline)[clientId := StoredList(closedList)]
    {
      openLists := openLists[clientId := StoredList(openList)];
      closedOnline := closedOnline[clientId := StoredList(closedList)];
    }

    method IngestPayload(data: Value, show: Value -> string) returns (r: Result<Ingested>)
      modifies this`openLists, this`closedOnline
      ensures match IngestSpec(data, show)
        case NotADict =>
          r == Raised(AttributeError) && openLists == old(openLists) && closedOnline == old(closedOnline)
        case Plan(id, open, closed, reply) =>
          && openLists == old(openLists)[id := StoredList(open)]
          && closedOnline == old(closedOnline)[id := StoredList(closed)]
          && r == reply
    {
      if !data.Obj? {
        return Raised(AttributeError);
      }
      var clientId := ClientKey(data.fields, show);
      var mode := Lookup(data.fields, "mode", Null);
      var openList := Lookup(data.fields, "open", EmptyArr);
      var closedOffline := Lookup(data.fields, "closed_offline", EmptyArr);
      var closedOnlineList := Lookup(data.fields, "closed_online", EmptyArr);
      RecordClientSnapshot(clientId, openList, closedOnlineList);
      var summary := Summarize(openList, closedOffline, closedOnlineList);
      if summary.Raised? {
        return Raised(summary.error);
      }
      r := Ok(Ingested(summary.value, clientId, mode));
    }

    /** The stored open list of a client; [] for a client never recorded. */
    function GetClientOpen(clientId: string): (r: Value)
      reads this`openLists
      ensures clientId in openLists ==> r == openLists[clientId]
      ensures clientId !in openLists ==> r == EmptyArr
    {
      if clientId in openLists then openLists[clientId] else EmptyArr
    }

    /** The stored closed-online list of a client; [] for a client never recorded. */
    function GetClientClosedOnline(clientId: string): (r: Value)
      reads this`closedOnline
      ensures clientId in closedOnline ==> r == closedOnline[clientId]
      ensures clientId !in closedOnline ==> r == EmptyArr
    {
      if clientId in closedOnline then closedOnline[clientId] else EmptyArr
    }

    /** The ids of every client with a snapshot, strictly ascending, each once. */
    function ListClients(): (r: seq<string>)
      reads this`openLists, this`closedOnline
      ensures Text.StrictlySorted(r)
      ensures forall id :: id in r <==> id in openLists || id in closedOnline
      ensures |r| == |openLists.Keys + closedOnline.Keys|
    {
      Text.SortedSet(openLists.Keys + closedOnline.Keys)
    }

    /** Appends one queued record to the client's list, creating the list if absent. */
    method EnqueueCommand(clientId: string, state: int, payload: Value, cmdId: string, now: string)
      returns (cmd: Command)
      requires Valid() && cmdId !in IssuedIds(commands)
      modifies this`commands
      ensures Valid()
      ensures cmd == NewCommand(cmdId, clientId, state, payload, now)
      ensures cmd.cmdId == cmdId && cmd.state == state && cmd.payload == OrEmpty(payload)
      ensures cmd.status == Queued && cmd.result.None?
      ensures commands == old(commands)[clientId := QueueOf(old(commands), clientId) + [cmd]]
      ensures IssuedIds(commands) == IssuedIds(old(commands)) + {cmdId}
      ensures Evolved(old(commands), commands)
    {
      cmd := NewCommand(cmdId, clientId, state, payload, now);
      AppendFreshId(commands, clientId, cmd);
      commands := commands[clientId := QueueOf(commands, clientId) + [cmd]];
    }

    /**
      Scans the client's list in insertion order for the first record not
      acknowledged, marks it sent if it was queued, and shapes the reply.
    */
    method GetNextCommand(clientId: string, now: string) returns (r: Result<Value>)
      requires Valid()
      modifies this`commands
      ensures Valid()
      ensures commands == WithQueue(old(commands), clientId, Deliver(QueueOf(old(commands), clientId), now))
      ensures r == NextReply(clientId, QueueOf(old(commands), clientId))
      ensures IssuedIds(commands) == IssuedIds(old(commands))
      ensures Evolved(old(commands), commands)
    {
      var queue := QueueOf(commands, clientId);
      DeliverExtends(queue, now);
      RewriteKeepsIds(commands, clientId, Deliver(queue, now));
      var i := 0;
      while i < |queue|
        invariant 0 <= i <= |queue|
        invariant forall j :: 0 <= j < i ==> queue[j].status == Acked
        invariant commands == old(commands)
      {
        var cmd := queue[i];
        if cmd.status != Acked {
          FirstPendingAt(queue, i);
          if cmd.status == Queued {
            commands := commands[clientId := queue[i := cmd.(status := Sent, updatedAt := now)]];
          } else {
            assert commands == commands[clientId := queue];
          }
          r := Shape(clientId, cmd);
          return;
        }
        i := i + 1;
      }
      r := Ok(NoPending(clientId));
    }

    /**
      Marks the first record whose id matches as acknowledged, whatever its
      status, and stores `{success, **details}` as its result.
    */
    method AckCommand(clientId: string, cmdId: Value, success: bool, details: Value, now: string)
      returns (r: Result<Value>)
      requires Valid()
      modifies this`commands
      ensures Valid()
      ensures commands == WithQueue(old(commands), clientId,
                                     Acknowledge(QueueOf(old(commands), clientId), cmdId, success, details, now))
      ensures r == AckReply(QueueOf(old(commands), clientId), cmdId, success, details)
      ensures IssuedIds(commands) == IssuedIds(old(commands))
      ensures Evolved(old(commands), commands)
    {
      var queue := QueueOf(commands, clientId);
      AcknowledgeExtends(queue, cmdId, success, details, now);
      RewriteKeepsIds(commands, clientId, Acknowledge(queue, cmdId, success, details, now));
      var i := 0;
      while i < |queue|
        invariant 0 <= i <= |queue|
        invariant forall j :: 0 <= j < i ==> Str(queue[j].cmdId) != cmdId
        invariant commands == old(commands)
      {
        var cmd := queue[i];
        if Str(cmd.cmdId) == cmdId {
          FindCmdAt(queue, cmdId, i);
          // status and time are written before the result is built
          var result := AckResult(success, details);
          if result.Raised? {
            commands := commands[clientId := queue[i := cmd.(status := Acked, updatedAt := now)]];
            return Raised(result.error);
          }
          commands := commands[clientId := queue[i := cmd.(status := Acked, updatedAt := now,
                                                           result := Some(result.value))]];
          return Ok(Obj(map["ok" := Bool(true), "cmdId" := cmdId]));
        }
        i := i + 1;
      }
      r := Ok(NotFoundBody(cmdId));
    }

    /** The client's whole list, every status included; [] for an unknown client. */
    function GetCommandQueue(clientId: string): (r: seq<Command>)
      reads this`commands
      ensures clientId in commands ==> r == commands[clientId]
      ensures clientId !in commands ==> r == []
    {
      QueueOf(commands, clientId)
    }

    /** Counts one delivery and records its action; a new client starts at `{0, 0}`. */
    method RecordCommandDelivery(clientId: string, state: int) returns (s: Stats)
      modifies this`stats
      ensures s.replies == StatsOf(old(stats), clientId).replies + 1
      ensures s.lastAction == state
      ensures stats == old(stats)[clientId := s]
    {
      var current := StatsOf(stats, clientId);
      s := Stats(current.replies + 1, state);
      stats := stats[clientId := s];
    }

    /** The counters of a client, `{0, 0}` for one never polled. */
    function GetClientStats(clientId: string): (r: Stats)
      reads this`stats
      ensures clientId !in stats ==> r == Stats(0, 0)
      ensures clientId in stats ==> r == stats[clientId]
    {
      StatsOf(stats, clientId)
    }
  }
}
