/**
  One client's round trip through the handlers: it reports its open
  positions, a controller enqueues a BUY for it, it polls and receives that
  command, and it acknowledges it.
*/
module Scenario {
  import opened Wrappers
  import opened Json
  import Text
  import opened CommandQueue
  import opened Functions
  import opened Server

  /** The BUY the controller enqueues, as get_next_command shapes it. */
  lemma BuyReply(cmdId: string, now: string)
    ensures Shape("A1", NewCommand(cmdId, "A1", 1, Obj(map["symbol" := Str("XAUUSD"), "volume" := Float(1.0)]), now))
      == Ok(Obj(map["id" := Str("A1"), "state" := Int(1), "cmdId" := Str(cmdId),
                    "symbol" := Str("XAUUSD"), "volume" := Float(1.0), "comment" := Str("")]))
  {
  }

  /** The first poll of a client whose only record is queued returns that record and marks it sent. */
  lemma FirstPollOfOne(m: map<string, seq<Command>>, st: map<string, Stats>, id: string, c: Command,
                       now: string, spareId: string)
    requires QueueOf(m, id) == [c] && c.status == Queued && StatsOf(st, id).replies == 0
    ensures var o := PollSpec(m, st, id, now, spareId);
      o.response == ReplyOf(Shape(id, c)) && QueueOf(o.commands, id) == [c.(status := Sent, updatedAt := now)]
  {
    FirstPendingAt([c], 0);
    PollRepliesWithFirstPending(m, st, id, now, spareId);
    DeliverPromotes([c], now);
    assert Deliver([c], now) == [c.(status := Sent, updatedAt := now)];
  }

  /** A successful acknowledgement without details of a client's only record. */
  lemma AckOfOne(c: Command, now: string)
    ensures Acknowledge([c], Str(c.cmdId), true, EmptyObj, now)
      == [c.(status := Acked, updatedAt := now, result := Some(Obj(map["success" := Bool(true)])))]
    ensures AckReply([c], Str(c.cmdId), true, EmptyObj) == Ok(Obj(map["ok" := Bool(true), "cmdId" := Str(c.cmdId)]))
  {
    FindCmdAt([c], Str(c.cmdId), 0);
    assert map["success" := Bool(true)] + map[] == map["success" := Bool(true)];
  }

  /** A new store after "A1" reports two open positions. */
  method Report(p1: Value, p2: Value, show: Value -> string) returns (store: Store)
    ensures fresh(store) && store.Valid()
    ensures store.GetClientOpen("A1") == Arr([p1, p2])
    ensures store.commands == map[] && store.stats == map[]
  {
    store := new Store();
    var report := Obj(map["id" := Str("A1"), "open" := Arr([p1, p2])]);
    var _ := store.IngestPayload(report, show);
  }

  /** ... and a controller then enqueues a BUY of 1.0 XAUUSD for it. */
  method ReportAndEnqueue(p1: Value, p2: Value, cmdId: string, now: string, show: Value -> string)
    returns (store: Store, cmd: Command)
    ensures fresh(store) && store.Valid()
    ensures store.GetClientOpen("A1") == Arr([p1, p2])
    ensures cmd == NewCommand(cmdId, "A1", 1, Obj(map["symbol" := Str("XAUUSD"), "volume" := Float(1.0)]), now)
    ensures store.commands == map["A1" := [cmd]] && store.stats == map[]
  {
    store := Report(p1, p2, show);
    assert IssuedIds(store.commands) == {};
    var payload := Obj(map["symbol" := Str("XAUUSD"), "volume" := Float(1.0)]);
    var args := EnqueueArgs(Obj(map["state" := Int(1), "payload" := payload]));
    assert args == Ok((1, payload));
    cmd := store.EnqueueCommand("A1", args.value.0, args.value.1, cmdId, now);
    assert QueueOf(map[], "A1") + [cmd] == [cmd];
  }

  /** The client's first poll after the enqueue: it receives the BUY, which is then sent. */
  method PollTheBuy(store: Store, cmd: Command, cmdId: string, spareId: string, now: string)
    returns (poll: Response)
    requires store.Valid() && spareId != cmdId
    requires cmd == NewCommand(cmdId, "A1", 1, Obj(map["symbol" := Str("XAUUSD"), "volume" := Float(1.0)]), now)
    requires store.commands == map["A1" := [cmd]] && store.stats == map[]
    modifies store`commands, store`stats
    ensures store.Valid()
    ensures poll == Reply(200, Obj(map["id" := Str("A1"), "state" := Int(1), "cmdId" := Str(cmdId),
                                       "symbol" := Str("XAUUSD"), "volume" := Float(1.0), "comment" := Str("")]))
    ensures QueueOf(store.commands, "A1") == [cmd.(status := Sent, updatedAt := now)]
  {
    assert IssuedIds(store.commands) == {cmdId} by {
      IssuedIdsOfAppend(map[], "A1", cmd);
      assert QueueOf(map[], "A1") + [cmd] == [cmd];
    }
    FirstPollOfOne(store.commands, store.stats, "A1", cmd, now, spareId);
    BuyReply(cmdId, now);
    poll := Poll(store, "A1", now, spareId);
  }

  /**
    The round trip: the poll returns the BUY with its parameters, the
    acknowledgement succeeds, and the history keeps the one record,
    acknowledged, with `success` true as its result.
  */
  method RoundTrip(p1: Value, p2: Value, cmdId: string, spareId: string, now: string, show: Value -> string)
    returns (open: Value, poll: Response, ack: Response, history: seq<Command>)
    requires cmdId != spareId
    ensures open == Arr([p1, p2])
    ensures poll == Reply(200, Obj(map["id" := Str("A1"), "state" := Int(1), "cmdId" := Str(cmdId),
                                       "symbol" := Str("XAUUSD"), "volume" := Float(1.0), "comment" := Str("")]))
    ensures ack == Reply(200, Obj(map["ok" := Bool(true), "cmdId" := Str(cmdId)]))
    ensures |history| == 1 && history[0].cmdId == cmdId && history[0].status == Acked
    ensures history[0].result == Some(Obj(map["success" := Bool(true)]))
  {
    var store, cmd := ReportAndEnqueue(p1, p2, cmdId, now, show);
    open := store.GetClientOpen("A1");
    poll := PollTheBuy(store, cmd, cmdId, spareId, now);
    var sent := cmd.(status := Sent, updatedAt := now);

    var request := AckArgs(Obj(map["cmdId" := Str(cmdId), "success" := Bool(true)]));
    assert request == Ok(AckRequest(Str(cmdId), true, EmptyObj));
    AckOfOne(sent, now);
    var result := store.AckCommand("A1", request.value.cmdId, request.value.success, request.value.details, now);
    ack := ReplyOf(result);
    history := store.GetCommandQueue("A1");
  }
}
