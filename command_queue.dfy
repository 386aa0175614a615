/**
  The per-client command queue of Functions.py as values: a client's queue is
  the list of command records in insertion order, and each operation of the
  store is specified here as a function from the old list to the new one.
  Records are never removed: "ack" marks a record done, and the queue is a
  history as much as a queue.
*/
module CommandQueue {
  import opened Wrappers
  import opened Json

  /** "queued" until first delivered, "sent" after, "ack" once acknowledged. */
  datatype Status = Queued | Sent | Acked

  /** The order statuses move in. */
  function Rank(s: Status): nat {
    match s
    case Queued => 0
    case Sent => 1
    case Acked => 2
  }

  function StatusName(s: Status): string {
    match s
    case Queued => "queued"
    case Sent => "sent"
    case Acked => "ack"
  }

  /** One command record; `result` is absent until an acknowledgement stores one. */
  datatype Command = Command(
    cmdId: string,
    clientId: string,
    state: int,
    payload: Value,
    status: Status,
    createdAt: string,
    updatedAt: string,
    result: Option<Value>)

  /** The record enqueue_command builds; `now` is the clock reading. */
  function NewCommand(cmdId: string, clientId: string, state: int, payload: Value, now: string): (c: Command)
    ensures c.cmdId == cmdId && c.clientId == clientId && c.state == state
    ensures c.status == Queued && c.result.None? && c.createdAt == now && c.updatedAt == now
    ensures Truthy(payload) ==> c.payload == payload
    ensures !Truthy(payload) ==> c.payload == EmptyObj
  {
    Command(cmdId, clientId, state, OrEmpty(payload), Queued, now, now, None)
  }

  /** The dict a command record is: seven keys, and `result` once an acknowledgement stored one. */
  function CommandJson(c: Command): (r: Value)
    ensures r.Obj?
    ensures r.fields.Keys == {"cmdId", "id", "state", "payload", "status", "createdAt", "updatedAt"}
                             + (if c.result.Some? then {"result"} else {})
    ensures r.fields["cmdId"] == Str(c.cmdId) && r.fields["status"] == Str(StatusName(c.status))
    ensures c.result.Some? ==> r.fields["result"] == c.result.value
  {
    var base := map[
      "cmdId" := Str(c.cmdId), "id" := Str(c.clientId), "state" := Int(c.state),
      "payload" := c.payload, "status" := Str(StatusName(c.status)),
      "createdAt" := Str(c.createdAt), "updatedAt" := Str(c.updatedAt)];
    Obj(if c.result.Some? then base["result" := c.result.value] else base)
  }

  // ---------------------------------------------------------------------
  // Delivery: get_next_command

  /** The position of the first record, in insertion order, that is not acknowledged. */
  function FirstPending(q: seq<Command>): (r: Option<nat>)
    ensures r.Some? ==> r.value < |q| && q[r.value].status != Acked
    ensures r.Some? ==> forall j :: 0 <= j < r.value ==> q[j].status == Acked
    ensures r.None? ==> forall j :: 0 <= j < |q| ==> q[j].status == Acked
    decreases |q|
  {
    if |q| == 0 then None
    else if q[0].status != Acked then Some(0)
    else
      match FirstPending(q[1..])
      case None => None
      case Some(k) => Some(k + 1)
  }

  /** A record that is not acknowledged and has only acknowledged records before it is the first pending one. */
  lemma FirstPendingAt(q: seq<Command>, i: nat)
    requires i < |q| && q[i].status != Acked
    requires forall j :: 0 <= j < i ==> q[j].status == Acked
    ensures FirstPending(q) == Some(i)
  {
  }

  const BaseKeys: set<string> := {"id", "state", "cmdId"}
  const OpenKeys: set<string> := BaseKeys + {"symbol", "volume", "comment"}
  const CloseKeys: set<string> := BaseKeys + {"ticket", "symbol", "volume"}

  /** The reply when nothing is pending: a no-op with no command id. */
  function NoPending(clientId: string): Value {
    Obj(map["id" := Str(clientId), "state" := Int(0)])
  }

  /**
    The message get_next_command builds for record `c`. States 1 and 2 (open
    BUY / SELL) forward symbol, volume and comment; state 3 (close) forwards
    ticket, symbol and volume; any other state carries only the base keys. A
    payload that is not a dict has no `get`, so those states raise.
  */
  function Shape(clientId: string, c: Command): (r: Result<Value>)
    ensures r.Raised? <==> (c.state == 1 || c.state == 2 || c.state == 3) && !OrEmpty(c.payload).Obj?
    ensures r.Raised? ==> r.error == AttributeError
    ensures r.Ok? ==> r.value.Obj? && BaseKeys <= r.value.fields.Keys
    ensures r.Ok? ==> r.value.fields["id"] == Str(clientId) && r.value.fields["state"] == Int(c.state)
    ensures r.Ok? ==> r.value.fields["cmdId"] == Str(c.cmdId)
    ensures r.Ok? && (c.state == 1 || c.state == 2) ==>
      && OrEmpty(c.payload).Obj?
      && r.value.fields.Keys == OpenKeys
      && r.value.fields["symbol"] == Lookup(OrEmpty(c.payload).fields, "symbol", Null)
      && r.value.fields["volume"] == Lookup(OrEmpty(c.payload).fields, "volume", Null)
      && r.value.fields["comment"] == Lookup(OrEmpty(c.payload).fields, "comment", Str(""))
    ensures r.Ok? && c.state == 3 ==>
      && OrEmpty(c.payload).Obj?
      && r.value.fields.Keys == CloseKeys
      && r.value.fields["ticket"] == Lookup(OrEmpty(c.payload).fields, "ticket", Null)
      && r.value.fields["symbol"] == Lookup(OrEmpty(c.payload).fields, "symbol", Null)
      && r.value.fields["volume"] == Lookup(OrEmpty(c.payload).fields, "volume", Null)
    ensures !(c.state == 1 || c.state == 2 || c.state == 3) ==> r.Ok? && r.value.fields.Keys == BaseKeys
  {
    var base := map["id" := Str(clientId), "state" := Int(c.state), "cmdId" := Str(c.cmdId)];
    var payload := OrEmpty(c.payload);
    if c.state == 1 || c.state == 2 then
      if !payload.Obj? then Raised(AttributeError)
      else
        var p := payload.fields;
        Ok(Obj(base["symbol" := Lookup(p, "symbol", Null)]
                   ["volume" := Lookup(p, "volume", Null)]
                   ["comment" := Lookup(p, "comment", Str(""))]))
    else if c.state == 3 then
      if !payload.Obj? then Raised(AttributeError)
      else
        var p := payload.fields;
        Ok(Obj(base["ticket" := Lookup(p, "ticket", Null)]
                   ["symbol" := Lookup(p, "symbol", Null)]
                   ["volume" := Lookup(p, "volume", Null)]))
    else
      Ok(Obj(base))
  }

  /** What get_next_command returns for a client whose list is `q`: it raises only on a pending record. */
  function NextReply(clientId: string, q: seq<Command>): (r: Result<Value>)
    ensures r.Raised? ==> FirstPending(q).Some? && r.error == AttributeError
    ensures r.Ok? ==> r.value.Obj? && "id" in r.value.fields && r.value.fields["id"] == Str(clientId)
  {
    match FirstPending(q)
    case None => Ok(NoPending(clientId))
    case Some(k) => Shape(clientId, q[k])
  }

  /** The list after get_next_command: the first pending record, if queued, becomes sent. */
  function Deliver(q: seq<Command>, now: string): (r: seq<Command>)
    ensures |r| == |q|
    ensures FirstPending(q).None? ==> r == q
  {
    match FirstPending(q)
    case None => q
    case Some(k) =>
      if q[k].status == Queued then q[k := q[k].(status := Sent, updatedAt := now)] else q
  }

  /** The reply names the first pending record, and carries no command id when nothing is pending. */
  lemma NextReplyNamesFirstPending(clientId: string, q: seq<Command>)
    ensures FirstPending(q).None? <==> NextReply(clientId, q) == Ok(NoPending(clientId))
    ensures NextReply(clientId, q).Ok? ==> var m := NextReply(clientId, q).value;
      && m.Obj? && m.fields["id"] == Str(clientId)
      && ("cmdId" in m.fields <==> FirstPending(q).Some?)
      && (FirstPending(q).Some? ==>
            m.fields["cmdId"] == Str(q[FirstPending(q).value].cmdId)
            && m.fields["state"] == Int(q[FirstPending(q).value].state))
      && (FirstPending(q).None? ==> m.fields["state"] == Int(0))
  {
    if FirstPending(q).Some? {
      assert "cmdId" in BaseKeys;
      assert "cmdId" !in NoPending(clientId).fields;
    }
  }

  /** Delivery only promotes the first pending record, queued to sent; nothing is added, removed or reordered. */
  lemma DeliverPromotes(q: seq<Command>, now: string)
    ensures |Deliver(q, now)| == |q|
    ensures FirstPending(q).None? ==> Deliver(q, now) == q
    ensures FirstPending(q).Some? ==> var k := FirstPending(q).value;
      && Deliver(q, now)[k].status == Sent
      && (forall i :: 0 <= i < |q| && i != k ==> Deliver(q, now)[i] == q[i])
      && Deliver(q, now)[k] == (if q[k].status == Queued then q[k].(status := Sent, updatedAt := now) else q[k])
  {
  }

  /** Polling again before an acknowledgement returns the same command and changes nothing further. */
  lemma RedeliveryIsIdempotent(clientId: string, q: seq<Command>, t1: string, t2: string)
    ensures FirstPending(Deliver(q, t1)) == FirstPending(q)
    ensures Deliver(Deliver(q, t1), t2) == Deliver(q, t1)
    ensures NextReply(clientId, Deliver(q, t1)) == NextReply(clientId, q)
  {
    var q1 := Deliver(q, t1);
    match FirstPending(q)
    case None =>
    case Some(k) =>
      DeliverPromotes(q, t1);
      FirstPendingAt(q1, k);
  }

  /** In-order delivery: while record i is not acknowledged, no later record is delivered. */
  lemma DeliveryInOrder(q: seq<Command>, i: nat)
    requires i < |q| && q[i].status != Acked
    ensures FirstPending(q).Some? && FirstPending(q).value <= i
  {
  }

  // ---------------------------------------------------------------------
  // Acknowledgement: ack_command

  /** The position of the first record whose id equals `cmdId` (a str equals only a str). */
  function FindCmd(q: seq<Command>, cmdId: Value): (r: Option<nat>)
    ensures r.Some? ==> r.value < |q| && Str(q[r.value].cmdId) == cmdId
    ensures r.Some? ==> forall j :: 0 <= j < r.value ==> Str(q[j].cmdId) != cmdId
    ensures r.None? ==> forall j :: 0 <= j < |q| ==> Str(q[j].cmdId) != cmdId
    decreases |q|
  {
    if |q| == 0 then None
    else if Str(q[0].cmdId) == cmdId then Some(0)
    else
      match FindCmd(q[1..], cmdId)
      case None => None
      case Some(k) => Some(k + 1)
  }

  /**
    `{"success": success, **(details or {})}`: the keys of `details` win over
    "success"; unpacking anything but a dict raises TypeError.
  */
  function AckResult(success: bool, details: Value): (r: Result<Value>)
    ensures r.Ok? <==> OrEmpty(details).Obj?
    ensures r.Raised? ==> r.error == TypeError
    ensures r.Ok? ==> var d := OrEmpty(details).fields;
      && r.value.Obj?
      && r.value.fields.Keys == d.Keys + {"success"}
      && (forall key :: key in d ==> r.value.fields[key] == d[key])
      && ("success" !in d ==> r.value.fields["success"] == Bool(success))
  {
    var d := OrEmpty(details);
    if d.Obj? then Ok(Obj(map["success" := Bool(success)] + d.fields)) else Raised(TypeError)
  }

  /**
    The list after ack_command: the matching record becomes acknowledged
    whatever its status was, and gets the result. The status is set before the
    result is built, so when building it raises the record is acknowledged and
    keeps its previous result.
  */
  function Acknowledge(q: seq<Command>, cmdId: Value, success: bool, details: Value, now: string): (r: seq<Command>)
    ensures |r| == |q|
    ensures FindCmd(q, cmdId).None? ==> r == q
  {
    match FindCmd(q, cmdId)
    case None => q
    case Some(k) =>
      var res := AckResult(success, details);
      q[k := q[k].(status := Acked, updatedAt := now,
                   result := if res.Ok? then Some(res.value) else q[k].result)]
  }

  function NotFoundBody(cmdId: Value): Value {
    Obj(map["ok" := Bool(false), "error" := Str("cmd_not_found"), "cmdId" := cmdId])
  }

  /** What ack_command returns. */
  function AckReply(q: seq<Command>, cmdId: Value, success: bool, details: Value): (r: Result<Value>)
    ensures r.Raised? ==> FindCmd(q, cmdId).Some? && r.error == TypeError
    ensures r.Ok? ==> r.value.Obj? && "cmdId" in r.value.fields && "ok" in r.value.fields
    ensures r.Ok? ==> r.value.fields["cmdId"] == cmdId
    ensures r.Ok? ==> (r.value.fields["ok"] == Bool(true) <==> FindCmd(q, cmdId).Some?)
  {
    match FindCmd(q, cmdId)
    case None => Ok(NotFoundBody(cmdId))
    case Some(_) =>
      match AckResult(success, details)
      case Raised(e) => Raised(e)
      case Ok(_) => Ok(Obj(map["ok" := Bool(true), "cmdId" := cmdId]))
  }

  /** An acknowledgement of a known id marks that record acked and stores the result; nothing else changes. */
  lemma AckMarksRecord(q: seq<Command>, cmdId: Value, success: bool, details: Value, now: string)
    requires FindCmd(q, cmdId).Some?
    ensures var k := FindCmd(q, cmdId).value; var q' := Acknowledge(q, cmdId, success, details, now);
      && |q'| == |q|
      && q'[k].status == Acked && q'[k].updatedAt == now
      && q'[k].cmdId == q[k].cmdId && q'[k].clientId == q[k].clientId && q'[k].state == q[k].state
      && q'[k].payload == q[k].payload && q'[k].createdAt == q[k].createdAt
      && (AckResult(success, details).Ok? ==> q'[k].result == Some(AckResult(success, details).value))
      && (AckResult(success, details).Raised? ==> q'[k].result == q[k].result)
      && (forall i :: 0 <= i < |q| && i != k ==> q'[i] == q[i])
    ensures AckReply(q, cmdId, success, details) ==
      (if AckResult(success, details).Ok? then Ok(Obj(map["ok" := Bool(true), "cmdId" := cmdId]))
       else Raised(TypeError))
  {
  }

  /** An unknown id is reported, not raised, and leaves the list as it was. */
  lemma AckUnknownId(q: seq<Command>, cmdId: Value, success: bool, details: Value, now: string)
    requires forall i :: 0 <= i < |q| ==> Str(q[i].cmdId) != cmdId
    ensures Acknowledge(q, cmdId, success, details, now) == q
    ensures AckReply(q, cmdId, success, details) == Ok(NotFoundBody(cmdId))
  {
    assert FindCmd(q, cmdId).None?;
  }

  /** The first record with a matching id, when only non-matching records precede it. */
  lemma FindCmdAt(q: seq<Command>, cmdId: Value, k: nat)
    requires k < |q| && Str(q[k].cmdId) == cmdId
    requires forall j :: 0 <= j < k ==> Str(q[j].cmdId) != cmdId
    ensures FindCmd(q, cmdId) == Some(k)
  {
  }

  /** Acknowledging again finds the same record, and the later result overwrites the earlier one. */
  lemma AckAgainOverwrites(q: seq<Command>, cmdId: Value, s1: bool, d1: Value, t1: string,
                           s2: bool, d2: Value, t2: string)
    requires FindCmd(q, cmdId).Some?
    requires AckResult(s2, d2).Ok?
    ensures var q1 := Acknowledge(q, cmdId, s1, d1, t1);
      && FindCmd(q1, cmdId) == FindCmd(q, cmdId)
      && Acknowledge(q1, cmdId, s2, d2, t2)[FindCmd(q, cmdId).value].status == Acked
      && Acknowledge(q1, cmdId, s2, d2, t2)[FindCmd(q, cmdId).value].result == Some(AckResult(s2, d2).value)
  {
    var k := FindCmd(q, cmdId).value;
    var q1 := Acknowledge(q, cmdId, s1, d1, t1);
    AckMarksRecord(q, cmdId, s1, d1, t1);
    assert forall j :: 0 <= j < k ==> q1[j] == q[j];
    FindCmdAt(q1, cmdId, k);
  }

  /** Ids within one list are distinct. */
  ghost predicate DistinctIn(q: seq<Command>) {
    forall i, j :: 0 <= i < |q| && 0 <= j < |q| && q[i].cmdId == q[j].cmdId ==> i == j
  }

  /** Acknowledging the delivered command moves delivery on to a later record (or to the no-op). */
  lemma AckAdvancesDelivery(q: seq<Command>, success: bool, details: Value, now: string)
    requires DistinctIn(q)
    requires FirstPending(q).Some?
    ensures var k := FirstPending(q).value;
      var next := FirstPending(Acknowledge(q, Str(q[k].cmdId), success, details, now));
      next.None? || next.value > k
  {
    var k := FirstPending(q).value;
    var id := Str(q[k].cmdId);
    assert forall j :: 0 <= j < k ==> q[j].cmdId != q[k].cmdId;
    FindCmdAt(q, id, k);
    var q' := Acknowledge(q, id, success, details, now);
    AckMarksRecord(q, id, success, details, now);
    assert forall j :: 0 <= j <= k ==> q'[j].status == Acked;
  }

  // ---------------------------------------------------------------------
  // Enqueue

  /** A record appended behind a pending one waits; appended to a drained list, it is next. */
  lemma AppendKeepsOrder(q: seq<Command>, c: Command)
    requires c.status == Queued
    ensures FirstPending(q).Some? ==> FirstPending(q + [c]) == FirstPending(q)
    ensures FirstPending(q).None? ==> FirstPending(q + [c]) == Some(|q|)
  {
    var q' := q + [c];
    match FirstPending(q)
    case Some(k) =>
      assert q'[k] == q[k];
      FirstPendingAt(q', k);
    case None =>
      assert q'[|q|] == c;
      FirstPendingAt(q', |q|);
  }

  // ---------------------------------------------------------------------
  // Status never regresses, records are never removed

  /** `b` is a later version of record `a`: same command, status no earlier. */
  predicate Successor(a: Command, b: Command) {
    && b.cmdId == a.cmdId && b.clientId == a.clientId && b.state == a.state
    && b.payload == a.payload && b.createdAt == a.createdAt
    && Rank(a.status) <= Rank(b.status)
  }

  /** `q1` keeps every record of `q0`, in place, each at the same or a later status. */
  predicate Extends(q0: seq<Command>, q1: seq<Command>) {
    |q0| <= |q1| && forall i :: 0 <= i < |q0| ==> Successor(q0[i], q1[i])
  }

  lemma ExtendsTransitive(q0: seq<Command>, q1: seq<Command>, q2: seq<Command>)
    requires Extends(q0, q1) && Extends(q1, q2)
    ensures Extends(q0, q2)
  {
    forall i | 0 <= i < |q0| ensures Successor(q0[i], q2[i]) {
      assert Successor(q0[i], q1[i]) && Successor(q1[i], q2[i]);
    }
  }

  /** Delivery keeps the records and advances statuses only. */
  lemma DeliverExtends(q: seq<Command>, now: string)
    ensures Extends(q, Deliver(q, now)) && |Deliver(q, now)| == |q|
  {
    DeliverPromotes(q, now);
  }

  /** Acknowledgement keeps the records and advances statuses only. */
  lemma AcknowledgeExtends(q: seq<Command>, cmdId: Value, success: bool, details: Value, now: string)
    ensures Extends(q, Acknowledge(q, cmdId, success, details, now))
    ensures |Acknowledge(q, cmdId, success, details, now)| == |q|
  {
    if FindCmd(q, cmdId).Some? { AckMarksRecord(q, cmdId, success, details, now); }
  }

  // ---------------------------------------------------------------------
  // The map from client id to list

  /** `_CLIENT_COMMANDS.get(id, [])`: an unknown client has an empty list. */
  function QueueOf(m: map<string, seq<Command>>, id: string): seq<Command> {
    if id in m then m[id] else []
  }

  /** Writing a client's list back; an unknown client with nothing to store gets no entry. */
  function WithQueue(m: map<string, seq<Command>>, id: string, q: seq<Command>): map<string, seq<Command>> {
    if id !in m && q == [] then m else m[id := q]
  }

  /** Every key keeps its list, extended. */
  ghost predicate Evolved(m0: map<string, seq<Command>>, m1: map<string, seq<Command>>) {
    forall k :: k in m0 ==> k in m1 && Extends(m0[k], m1[k])
  }

  lemma EvolvedTransitive(m0: map<string, seq<Command>>, m1: map<string, seq<Command>>, m2: map<string, seq<Command>>)
    requires Evolved(m0, m1) && Evolved(m1, m2)
    ensures Evolved(m0, m2)
  {
    forall k | k in m0 ensures k in m2 && Extends(m0[k], m2[k]) {
      ExtendsTransitive(m0[k], m1[k], m2[k]);
    }
  }

  /** Each command id names one record in the whole store. */
  ghost predicate UniqueIds(m: map<string, seq<Command>>) {
    forall k1, k2, i, j ::
      k1 in m && k2 in m && 0 <= i < |m[k1]| && 0 <= j < |m[k2]| && m[k1][i].cmdId == m[k2][j].cmdId
      ==> k1 == k2 && i == j
  }

  /** The command ids issued so far. */
  ghost function IssuedIds(m: map<string, seq<Command>>): set<string> {
    set k, i | k in m && 0 <= i < |m[k]| :: m[k][i].cmdId
  }

  lemma UniqueIdsInQueue(m: map<string, seq<Command>>, id: string)
    requires UniqueIds(m)
    ensures DistinctIn(QueueOf(m, id))
  {
  }

  /** Rewriting one client's list with an extension of the same length keeps ids unique and issued ids the same. */
  lemma RewriteKeepsIds(m: map<string, seq<Command>>, id: string, q: seq<Command>)
    requires UniqueIds(m)
    requires Extends(QueueOf(m, id), q) && |q| == |QueueOf(m, id)|
    ensures UniqueIds(WithQueue(m, id, q))
    ensures IssuedIds(WithQueue(m, id, q)) == IssuedIds(m)
    ensures Evolved(m, WithQueue(m, id, q))
  {
    var m': map<string, seq<Command>> := WithQueue(m, id, q);
    assert forall k :: k in m' ==> k in m && |m'[k]| == |m[k]|;
    assert forall k, i :: k in m' && 0 <= i < |m'[k]| ==> m'[k][i].cmdId == m[k][i].cmdId by {
      forall k, i | k in m' && 0 <= i < |m'[k]| ensures m'[k][i].cmdId == m[k][i].cmdId {
        if k == id { assert Successor(QueueOf(m, id)[i], q[i]); }
      }
    }
    forall x | x in IssuedIds(m') ensures x in IssuedIds(m) {
      var k, i :| k in m' && 0 <= i < |m'[k]| && m'[k][i].cmdId == x;
      assert m[k][i].cmdId == x;
    }
    forall x | x in IssuedIds(m) ensures x in IssuedIds(m') {
      var k, i :| k in m && 0 <= i < |m[k]| && m[k][i].cmdId == x;
      assert k in m' && m'[k][i].cmdId == x;
    }
  }

  /** Appending to one client's list keeps every other record where it was. */
  lemma AppendKeepsRecords(m: map<string, seq<Command>>, id: string, c: Command)
    ensures var m' := m[id := QueueOf(m, id) + [c]];
      && (forall k, i :: k in m && 0 <= i < |m[k]| ==> k in m' && i < |m'[k]| && m'[k][i] == m[k][i])
      && |m'[id]| == |QueueOf(m, id)| + 1 && m'[id][|QueueOf(m, id)|] == c
      && (forall k :: k in m' && k != id ==> k in m && m'[k] == m[k])
  {
  }

  lemma IssuedIdsOfAppend(m: map<string, seq<Command>>, id: string, c: Command)
    ensures IssuedIds(m[id := QueueOf(m, id) + [c]]) == IssuedIds(m) + {c.cmdId}
  {
    var q := QueueOf(m, id);
    var m': map<string, seq<Command>> := m[id := q + [c]];
    AppendKeepsRecords(m, id, c);
    forall x | x in IssuedIds(m') ensures x in IssuedIds(m) + {c.cmdId} {
      var k, i :| k in m' && 0 <= i < |m'[k]| && m'[k][i].cmdId == x;
      if k == id && i == |q| {
        assert x == c.cmdId;
      } else {
        assert k in m && i < |m[k]| && m[k][i].cmdId == x;
      }
    }
    forall x | x in IssuedIds(m) + {c.cmdId} ensures x in IssuedIds(m') {
      if x == c.cmdId {
        assert m'[id][|q|].cmdId == x;
      } else {
        var k, i :| k in m && 0 <= i < |m[k]| && m[k][i].cmdId == x;
        assert m'[k][i].cmdId == x;
      }
    }
  }

  lemma UniqueIdsOfAppend(m: map<string, seq<Command>>, id: string, c: Command)
    requires UniqueIds(m)
    requires c.cmdId !in IssuedIds(m)
    ensures UniqueIds(m[id := QueueOf(m, id) + [c]])
  {
    var q := QueueOf(m, id);
    var m': map<string, seq<Command>> := m[id := q + [c]];
    AppendKeepsRecords(m, id, c);
    // the id of every record that was there before differs from the new one
    assert forall k, i :: k in m && 0 <= i < |m[k]| ==> m[k][i].cmdId in IssuedIds(m);
    forall k1, k2, i, j | k1 in m' && k2 in m' && 0 <= i < |m'[k1]| && 0 <= j < |m'[k2]|
        && m'[k1][i].cmdId == m'[k2][j].cmdId
      ensures k1 == k2 && i == j
    {
      var old1 := !(k1 == id && i == |q|);
      var old2 := !(k2 == id && j == |q|);
      if old1 && old2 {
        assert m'[k1][i] == m[k1][i] && m'[k2][j] == m[k2][j];
      }
    }
  }

  /** Appending a record with a fresh id keeps ids unique and issues exactly that id. */
  lemma AppendFreshId(m: map<string, seq<Command>>, id: string, c: Command)
    requires UniqueIds(m)
    requires c.cmdId !in IssuedIds(m)
    ensures UniqueIds(m[id := QueueOf(m, id) + [c]])
    ensures IssuedIds(m[id := QueueOf(m, id) + [c]]) == IssuedIds(m) + {c.cmdId}
    ensures Evolved(m, m[id := QueueOf(m, id) + [c]])
  {
    UniqueIdsOfAppend(m, id, c);
    IssuedIdsOfAppend(m, id, c);
    var m' := m[id := QueueOf(m, id) + [c]];
    forall k | k in m ensures k in m' && Extends(m[k], m'[k]) {
      if k == id { assert Extends(QueueOf(m, id), QueueOf(m, id) + [c]); }
    }
  }

  /** An unknown client behaves as one with an empty list: a no-op reply, no entry created, acks not found. */
  lemma UnknownClientIsEmpty(m: map<string, seq<Command>>, id: string, now: string,
                             cmdId: Value, success: bool, details: Value)
    requires id !in m
    ensures NextReply(id, QueueOf(m, id)) == Ok(NoPending(id))
    ensures WithQueue(m, id, Deliver(QueueOf(m, id), now)) == m
    ensures WithQueue(m, id, Acknowledge(QueueOf(m, id), cmdId, success, details, now)) == m
    ensures AckReply(QueueOf(m, id), cmdId, success, details) == Ok(NotFoundBody(cmdId))
  {
  }
}
