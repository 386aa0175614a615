# MQL5X server core in Dafny

The MQL5X server sits between MetaTrader Expert Advisors (EAs) and a human
or scripted controller. An EA posts JSON snapshots of its open and
closed-online positions, and the server keeps the latest snapshot per client
id. A controller enqueues trade commands for a client. The EA polls
`/command/<id>` for the next command and acknowledges it on `/ack/<id>`.

This project models that core:

- the per-client state of `Functions.py`: the snapshot maps, the per-client
  command lists and the delivery counters, with the operations on them;
- the request handling of `Server.py` that drives that state: path routing,
  the poll with its delivery counter and scripted follow-up commands, the
  `/clients` views, and the POST routes.

Modules, one file each:

- `Wrappers` (`wrappers.dfy`): `Option`.
- `Text` (`text.dfy`): what the source needs of Python strings.
  - `str.split` and the segment filter `[p for p in path.split("/") if p]`.
  - `int(str)` parsing and `str(int)` printing.
  - Python's string order and `sorted(set)`.
- `Json` (`json.dfy`): decoded JSON values.
  - Truthiness, `x or {}` and `dict.get`.
  - `len` and `int()`, with the exceptions they raise.
- `CommandQueue` (`command_queue.dfy`): one client's command list as a value.
  - Record layout.
  - First-pending selection and reply shaping by action code.
  - Delivery marking and acknowledgement, each as a function from the old list to the new one.
  - The invariants over the whole map of lists: ids are unique, no record is lost, statuses never go back.
- `Functions` (`functions.dfy`): class `Store`, whose fields are the four
  module-level dicts and whose methods are the locked operations.
  - `get_next_command` and `ack_command` keep their scanning loops and are
    proved against the `CommandQueue` functions.
  - It also holds the pure parts: the `ingest_payload` plan and `_type_name`.
- `Server` (`server.dfy`): the handlers.
  - `RouteGet`/`RoutePost`.
  - `PollSpec` and the `Poll` method proved against it.
  - `View`, `DoGet`, `DoPost` and the argument defaults.
- `Scenario` (`scenario.dfy`): one client's round trip. It reports, gets a
  BUY enqueued, polls, and acknowledges, all on a fresh store.

How the model represents the source:

- Python exceptions are values: `Result.Raised(AttributeError | TypeError | ValueError)`.
- An exception that escapes a handler is a `Response.Fault`.
- Several operations raise after they have already changed state. The model keeps those effects:
  - `get_next_command` marks a record sent before `payload.get` raises on a non-dict payload;
  - `ack_command` marks the record acknowledged before `**details` raises on a non-dict;
  - `ingest_payload` stores the snapshot before `len` raises.
- `uuid4` becomes an id chosen by the caller, required to be fresh (`!in IssuedIds(commands)`).
- `now_iso` becomes a `now` string parameter.

The source's own comments and the code differ in places. The comments
announce stop-loss/take-profit values for the scripted BUYs (Server.py:83,
Server.py:94) and a SELL side filter for the scripted close (Server.py:102).
They list what an open reply and a close reply are expected to carry
(Functions.py:146, Functions.py:159), and the poll handler reads `tp`/`sl` back from the reply
(Server.py:126-127). The model follows the code:

- The reply to a poll carries `symbol`, `volume` and `comment` for action
  codes 1 and 2, and `ticket`, `symbol` and `volume` for code 3 (Functions.py:145-164).
  The stop-loss/take-profit fields (`sl`, `tp`, `slPips`, `tpPips`) and the
  side filter `type` are never forwarded.
  - So the SL/TP of the scripted commands #20 and #60 never reach the EA
    (`Server.ScriptedReplies`).
  - The close at #80 is delivered with `"ticket": null` and `"volume": null`,
    because its payload has neither key (Functions.py:161-163).
  - The SL/TP values the poll handler writes to its log (Server.py:126-127)
    are always `None`.
- After a scripted injection, the poll re-fetches only when the reply
  already fetched had state 0 (Server.py:105-106). The re-fetch returns the
  first pending record, so it returns the injected command only when
  nothing else was pending. A pending state-0 command is returned again
  (`Server.PollRepliesWithFirstPending`, `Server.PollDeliversInjectedWhenIdle`).

## Model

| member | source | states |
|---|---|---|
| Text.Split | Server.py:62 | the pieces of `str.split(sep)`: at least one, none containing the separator, and joining them with it gives the input back |
| Text.NonEmpty | Server.py:62 | the filter `if p` keeps only pieces that are non-empty and in the list, and every non-empty piece of the list; its order and repetitions are fixed by `NonEmptyAppend` and `NonEmptyOne` |
| Text.NonEmptyAppend | Server.py:62 | the filter of a concatenation is the concatenation of the filters, so order and repeated pieces are kept |
| Text.NonEmptyOne | Server.py:62 | a single piece is kept exactly when it is non-empty |
| Text.Segments | Server.py:62 | path segments are non-empty and contain no `/`; `SegmentsConcat` and `SegmentsOfPiece` fix which they are |
| Text.SplitConcat | Server.py:62 | `(a + sep + b).split(sep)` is `a.split(sep) + b.split(sep)` |
| Text.SegmentsConcat | Server.py:62 | the segments of `a + "/" + b` are those of `a` followed by those of `b`, for any `a` and `b` |
| Text.SegmentsOfPiece | Server.py:62 | a slash-free piece is one segment, or none when it is empty |
| Text.SegmentsOfRooted | Server.py:136 | a path starting with `/` and another character has a first segment starting with that character |
| Text.SegmentsOfPath | Server.py:62-64 | splitting `"/" + p1 + "/" + ... + pn` gives back exactly `[p1, ..., pn]` when every segment is non-empty and slash-free |
| Text.SplitPathOf | Server.py:62 | splitting a path built from segments yields an empty leading piece followed by those segments |
| Text.NonEmptyKeeps | Server.py:62 | filtering a list that has no empty strings keeps it unchanged |
| Text.SplitNoSeparator | Server.py:62 | a string without the separator splits into itself alone |
| Text.SplitAfterPiece | Server.py:62 | splitting `a + sep + t`, where `a` has no separator, is `[a]` followed by the split of `t` |
| Text.ShowNat | Functions.py:71 | `str(n)` of a natural number is a non-empty run of decimal digits whose value is `n`, with no leading zero unless it is `"0"` |
| Text.CanonicalIsShowNat | Functions.py:71 | any digit string without a leading zero equals `str` of its value, so `ShowNat` is the only such text |
| Text.ShowInt | Functions.py:71 | `str(n)` starts with `-` exactly for a negative `n`, followed by the digits of `-n` |
| Text.ParseInt | Server.py:70 | `int(s)` of the empty string raises; of a plain digit string it is the number the digits spell |
| Text.ParseShowInt | Functions.py:31 | `int(str(n)) == n` for every integer, negative ones included |
| Text.Less | Functions.py:107 | Python's string order puts a proper prefix first |
| Text.LessIrreflexive | Functions.py:107 | Python's string order is irreflexive |
| Text.LessTransitive | Functions.py:107 | Python's string order is transitive |
| Text.LessTotal | Functions.py:107 | any two distinct strings are ordered one way or the other |
| Text.LeastExists | Functions.py:107 | every non-empty finite set of strings has a least element |
| Text.LeastUnique | Functions.py:107 | that least element is unique |
| Text.SortedSet | Functions.py:107 | `sorted(set)` is strictly ascending, has the set's elements and no others, and its length is the set's size |
| Json.Truthy | Functions.py:118 | `None` is false, and a str, list or dict is true exactly when its `len` is not 0 |
| Json.OrEmpty | Functions.py:118 | `v or {}` is `v` when it is true and `{}` otherwise, so it is a dict exactly when `v` is a dict or false |
| Json.Get | Server.py:188 | `d.get(k, default)` succeeds exactly on a dict, giving the stored value or the default; anything else raises AttributeError |
| Json.PyStr | Functions.py:71 | `str(v)`: `"None"` for None, the string itself for a str, and for an int a text `int()` reads back as that int |
| Json.Len | Functions.py:86-88 | `len` succeeds exactly on str, list and dict, giving a list's length; anything else raises TypeError |
| Json.Trunc | Server.py:70 | `int(x)` of a float truncates toward zero |
| Json.ToInt | Server.py:70 | `int(v)`: the integer itself for an int, 1 or 0 for a bool, truncation toward zero for a float, the parsed number for a string `int()` accepts and ValueError for any other string; None, lists and dicts raise TypeError |
| Json.ToIntOfShownInt | Functions.py:31 | `int(str(n))` gives `n` back on the JSON side |
| CommandQueue.NewCommand | Functions.py:114-122 | the new record is queued with no result, carries the given ids and state, `payload or {}`, and one time for creation and update |
| CommandQueue.CommandJson | Functions.py:114-122 | the stored record is a dict with the seven keys of enqueue_command, plus `result` once an acknowledgement stored one |
| CommandQueue.FirstPending | Functions.py:133-135 | the first record in insertion order whose status is not `ack`, or none when all are acknowledged |
| CommandQueue.FirstPendingAt | Functions.py:134-135 | a non-acked record with only acked records before it is the one selected |
| CommandQueue.Shape | Functions.py:141-166 | reply keys `id`, `state`, `cmdId`; codes 1 and 2 add exactly `symbol`, `volume`, `comment` (default `""`); code 3 adds exactly `ticket`, `symbol`, `volume`; other codes add nothing; codes 1-3 raise AttributeError exactly when `payload or {}` is not a dict |
| CommandQueue.NextReply | Functions.py:133-168 | the message of get_next_command: it names the client, and it raises, only AttributeError, only when a record is pending |
| CommandQueue.Deliver | Functions.py:134-139 | delivery keeps the list's length and leaves a list with nothing pending unchanged; `DeliverPromotes` and `DeliverExtends` state what it does to each record |
| CommandQueue.NextReplyNamesFirstPending | Functions.py:134-168 | the reply is the no-op `{id, state: 0}` exactly when nothing is pending; otherwise it names the first pending record's id and action code |
| CommandQueue.DeliverPromotes | Functions.py:135-139 | delivery turns the first pending record from queued to sent with the new time; a sent one stays sent; nothing is added, removed or reordered |
| CommandQueue.RedeliveryIsIdempotent | Functions.py:134-139 | a second poll before an acknowledgement selects the same record, returns the same reply and changes nothing further |
| CommandQueue.DeliveryInOrder | Functions.py:134-135 | while record i is unacknowledged, no later record is delivered |
| CommandQueue.UnknownClientIsEmpty | Functions.py:133 | an unknown client behaves as an empty list: no-op reply, nothing stored by a poll or an ack, and an ack is reported as not found |
| CommandQueue.FindCmd | Functions.py:175-176 | the first record whose `cmdId` equals the given id (a str equals only a str), or none |
| CommandQueue.FindCmdAt | Functions.py:175-176 | a matching record with no match before it is the one found |
| CommandQueue.AckResult | Functions.py:179 | `{"success": bool(success), **(details or {})}`: its keys are those of details plus `success`, with details winning; unpacking a non-dict raises TypeError |
| CommandQueue.Acknowledge | Functions.py:174-179 | acknowledgement keeps the list's length and leaves the list unchanged when no id matches; `AckMarksRecord` and `AcknowledgeExtends` state what it does to each record |
| CommandQueue.AckReply | Functions.py:180-181 | the reply echoes the given id; `ok` is true exactly when a record matched, and it raises, only TypeError, only after a match |
| CommandQueue.AckMarksRecord | Functions.py:175-180 | acknowledging a known id sets that record's status to `ack` whatever its status was and stamps the time; it keeps the record's id, client, state, payload and creation time, and every other record; it stores the new result, or keeps the old one when `**details` raises; the reply is `{ok: True, cmdId}` or the TypeError |
| CommandQueue.AckUnknownId | Functions.py:181 | an id not in the list leaves it unchanged and returns `{ok: False, error: "cmd_not_found", cmdId}` |
| CommandQueue.AckAgainOverwrites | Functions.py:176-179 | acknowledging the same id again finds the same record, which stays acked with the later result |
| CommandQueue.AckAdvancesDelivery | Functions.py:135 | acknowledging the delivered command makes the next poll select a later record or none |
| CommandQueue.AppendKeepsOrder | Functions.py:124 | a command appended behind a pending one waits; appended to a fully acknowledged list, it is the next delivered |
| CommandQueue.ExtendsTransitive | Functions.py:138 | "same records, statuses only advanced" composes over successive operations |
| CommandQueue.DeliverExtends | Functions.py:137-139 | delivery keeps every record and only advances a status, queued to sent |
| CommandQueue.AcknowledgeExtends | Functions.py:177 | acknowledgement keeps every record and only advances a status, to ack |
| CommandQueue.EvolvedTransitive | Functions.py:124 | across the whole map, keeping every client's records with advanced statuses composes |
| CommandQueue.UniqueIdsInQueue | Functions.py:115 | unique ids across the store imply unique ids within one client's list |
| CommandQueue.RewriteKeepsIds | Functions.py:138 | rewriting one list with the same records, statuses only advanced, keeps ids unique and the issued set unchanged |
| CommandQueue.AppendKeepsRecords | Functions.py:124 | appending to one list keeps every existing record of every client in place |
| CommandQueue.IssuedIdsOfAppend | Functions.py:124 | appending a record adds exactly its id to the issued ids |
| CommandQueue.UniqueIdsOfAppend | Functions.py:115-124 | appending a record with a fresh id keeps ids unique |
| CommandQueue.AppendFreshId | Functions.py:115-124 | appending a fresh-id record keeps ids unique and adds exactly its id to the issued ids |
| Functions.ClientKey | Functions.py:71 | the client key is `"unknown"` for a missing or null id, the string itself for a str, and `str(n)` for an int |
| Functions.Summarize | Functions.py:85-89 | the summary holds the three lengths, in source order; it raises TypeError exactly when one of the lists has no length |
| Functions.IngestSpec | Functions.py:66-91 | a non-dict payload changes nothing; otherwise it stores `open` and `closed_online` (default `[]`) under the client key, and the reply is the summary of all three lengths and the identity `{id, mode}`, or the TypeError raised after storing |
| Functions.NullOpenListStoredThenRaises | Functions.py:62-86 | a payload whose `open` is null is stored as `[]`, and then `len(None)` raises |
| Functions.TypeName | Functions.py:29-33 | `_type_name` is "BUY" exactly when `int(v)` is 0 and "SELL" exactly when it is 1; otherwise it is `str(v)` |
| Functions.TypeNameOfSpelledCodes | Functions.py:29-33 | the strings "0"/"1", the int 0 and True get "BUY"/"SELL" |
| Functions.Store.constructor | Functions.py:19-22 | all four maps start empty with unique ids |
| Functions.Store.RecordClientSnapshot | Functions.py:59-63 | both lists of the client are replaced, a None list stored as `[]`; every other client's lists are unchanged |
| Functions.Store.IngestPayload | Functions.py:66-91 | the store and the reply are those `IngestSpec` gives |
| Functions.Store.GetClientOpen | Functions.py:94-96 | the stored open list for a known id, `[]` for one never recorded |
| Functions.Store.GetClientClosedOnline | Functions.py:99-101 | the stored closed-online list for a known id, `[]` for one never recorded |
| Functions.Store.ListClients | Functions.py:104-107 | strictly ascending, no duplicates, and an id appears exactly when it is a key of either snapshot map |
| Functions.Store.EnqueueCommand | Functions.py:112-125 | exactly one record is appended to the end of the client's list, creating the list if absent; it is queued, with `state`, `payload or {}` and the fresh id; nothing else changes and ids stay unique |
| Functions.Store.GetNextCommand | Functions.py:128-168 | the new map is the old one with the client's list delivered by `Deliver`, and the reply is `NextReply`; ids stay unique and no status goes back |
| Functions.Store.AckCommand | Functions.py:171-181 | the new map is the old one with the client's list acknowledged by `Acknowledge`, and the reply is `AckReply` |
| Functions.Store.GetCommandQueue | Functions.py:184-186 | the client's whole list, every status included; `[]` for an unknown client |
| Functions.Store.RecordCommandDelivery | Functions.py:189-194 | `replies` goes up by exactly 1 from `{0, 0}` for a new client, `last_action` becomes the state; no other client's counters change |
| Functions.Store.GetClientStats | Functions.py:197-199 | the stored counters, `{0, 0}` for a client never polled |
| Server.ClientsPathSegments | Server.py:135-140 | a path starting with `/clients` has at least one segment |
| Server.RouteGet | Server.py:49-157 | `/`, `/health` and `/status` are the health check and `/message` the message; `/command/...` with exactly two segments is a poll of the second segment, any other count a bad path; `/clients` with one segment lists, and with more it names the client of the second segment, whose open list or closed-online list a third segment `open` or `closed_online` selects, and whose summary every other tail selects; every other path is not found |
| Server.RoutePost | Server.py:171-233 | `/` ingests; `/command/<id>` and `/ack/<id>` with exactly two segments enqueue and acknowledge; other counts are bad paths |
| Server.PollPathsRoute | Server.py:61-64 | `/command/<id>` polls (GET) or enqueues (POST) for that id; a longer path is a bad path |
| Server.ClientListPath | Server.py:137-138 | `/clients` lists the clients |
| Server.ClientSummaryPath | Server.py:140-153 | `/clients/<id>` is that client's summary |
| Server.ClientTailPath | Server.py:142-153 | `/clients/<id>/open` and `/clients/<id>/closed_online` are its lists, any other tail its summary |
| Server.AckPathsRoute | Server.py:196-199 | `/ack/<id>` acknowledges for that id; a longer path is a bad path |
| Server.ScriptedCommand | Server.py:79-104 | a command is scripted exactly at counts 20, 40, 60 and 80, with action codes 1, 2, 1 and 3 and symbol XAUUSD |
| Server.ScriptedReplies | Server.py:82-104 | as delivered, the BUYs carry volume 1.0 and the open keys only (no SL/TP); the close carries symbol XAUUSD with `ticket` and `volume` null |
| Server.StateField | Server.py:105 | `int(msg.get("state", 0))`: 0 when the key is absent, the value for an int, and AttributeError on a non-dict |
| Server.ReplyState | Server.py:67-72 | the action recorded for a poll is the reply's state when present and convertible, else 0 |
| Server.ReplyStateOfNextReply | Server.py:67-73 | every reply from the first fetch has a convertible state: the pending record's action code, or 0 |
| Server.PollSpec | Server.py:65-106 | the poll faults with AttributeError, counting nothing, exactly when the first fetch raises; otherwise it answers 200 and counts one more reply with the fetched action code |
| Server.Inject | Server.py:79-106 | without a scripted command nothing changes; with one, the client's list grows by one record; the fetched message is kept unless it was a no-op |
| Server.PollCountsOneDelivery | Server.py:65-73 | a poll faults exactly when the first fetch raises, and then counts nothing; otherwise it counts exactly one delivery, recording the reply's action code |
| Server.NextReplyAttributeError | Functions.py:143-164 | the only exception a fetch can raise is AttributeError |
| Server.InjectAppendsOne | Server.py:79-106 | the scripted step appends exactly the scripted command, if any, at the end of that client's list, not acked; no other list changes and no record is lost |
| Server.PollInjectsAtScriptedCounts | Server.py:79-104 | a poll adds one command exactly when it succeeds at count 20, 40, 60 or 80, with the scripted code, payload and fresh id; no other client's list changes |
| Server.ShapeIgnoresDelivery | Functions.py:137-166 | marking a record sent does not change the reply built from it |
| Server.InjectKeepsPendingReply | Server.py:105-106 | with a record pending, the re-fetch returns the same message |
| Server.PollRepliesWithFirstPending | Server.py:65-106 | whenever a record is pending, the poll returns that record's reply, injection or not |
| Server.InjectWhenIdle | Server.py:105-106 | with nothing pending, the re-fetch returns the injected command, which is then sent |
| Server.PollDeliversInjectedWhenIdle | Server.py:65-106 | with nothing pending, a poll at a scripted count returns the injected command and marks it sent; at other counts it returns the no-op and stores nothing |
| Server.Poll | Server.py:61-129 | the store and the response after the poll are those `PollSpec` gives; ids stay unique and no record is lost |
| Server.View | Server.py:51-157 | the health check and the message reply; bad poll paths give 400 `bad_path`; unknown paths 404; `/clients` lists the clients; `/clients/<id>/open` and `/clients/<id>/closed_online` return the stored lists; the summary holds the id and both lengths or faults with TypeError |
| Server.ClientIdsOfSorted | Functions.py:104-107 | the JSON list of a strictly ascending id list holds exactly those ids as strings, ascending, each once |
| Server.ClientListIsSorted | Server.py:137-138 | the `/clients` reply lists exactly the ids with a snapshot, each once, in ascending order |
| Server.DoGet | Server.py:49-157 | a poll path runs `PollSpec`; every other path changes nothing and returns its `View` |
| Server.EnqueueArgs | Server.py:187-189 | `state` is `int(data.get("state", 0))` (0 when absent), its errors propagate; the payload is `data.get("payload") or {}` |
| Server.AckArgs | Server.py:201-203 | `cmdId` from the body (None when absent), `success` true exactly when present and truthy, `details` is `data.get("details") or {}` |
| Server.IngestBody | Server.py:179 | the ingest reply has exactly the keys `status` ("ok"), `received` (the three counts), `id` and `mode` |
| Server.DoPost | Server.py:159-233 | an undecodable body gives 400 `invalid_json`; ingest, enqueue and ack do what their store operation does with the defaulted arguments and return its result; bad paths give 400 and unknown ones 404, changing nothing |
| Scenario.BuyReply | Functions.py:141-151 | the enqueued BUY is delivered as `{id, state: 1, cmdId, symbol, volume, comment: ""}` |
| Scenario.FirstPollOfOne | Functions.py:134-139 | the first poll of a client whose only record is queued returns it and marks it sent |
| Scenario.AckOfOne | Functions.py:175-180 | a successful acknowledgement without details stores `{success: True}` and replies `{ok: True, cmdId}` |
| Scenario.Report | Functions.py:59-91 | a new store after one report holds the reported open list and no commands or counters |
| Scenario.ReportAndEnqueue | Functions.py:59-125 | after a report and an enqueue, the client's open list is the reported one and its command list holds the one queued record |
| Scenario.PollTheBuy | Server.py:61-129 | the first poll after the enqueue returns the BUY's message and leaves the record sent |
| Scenario.RoundTrip | Functions.py:112-181 | report, enqueue a BUY, poll, acknowledge: the poll returns the BUY with its parameters, the ack succeeds, and the history shows it acknowledged with `success` true |

## Left out

- HTTP transport: `BaseHTTPRequestHandler`, `_send_json`, the header and
  body reading of `do_POST`, JSON encoding and decoding, `parse_args` and
  `main`. A request is a path and a decoded body (`None` for a body that is
  not JSON); a response is a status code and a JSON value.
- The stdout lines of the poll and ack handlers (Server.py:109-128,
  Server.py:205-226), `log_message`, and `append_log`'s file write
  (Functions.py:51-56). Their `try` blocks only guard logging.
- `threading.Lock` and concurrency: each locked function is one atomic
  method of `Store`.
- `deepcopy`: values are immutable in Dafny, so copying and aliasing (a
  caller mutating a stored list) are not modelled.
- JSON key order in replies: dicts are maps.
- Floats are `real`: NaN, infinities and `int()` of them are not modelled.
- `int()` on strings handles ASCII whitespace and digits only (Unicode
  whitespace and digits are not modelled). `str()` of a float, a list or a
  dict is an opaque `show` parameter. It is used only for a non-string
  client id in `ingest_payload`.
- Server.Poll: one clock reading `now`, where the source reads the clock
  separately for each timestamp. The same holds for every other member that
  takes `now`: `createdAt` and `updatedAt` always carry the same reading.
- Functions.Store.EnqueueCommand: uuid4 freshness is a precondition
  (`cmdId !in IssuedIds(commands)`), not generated.
- `Globals.test_message` is a parameter of `View`; `Globals` is not part of
  this model.
- `_fmt` and `pretty_print_open_block` (Functions.py:36-48) do nothing the
  server's replies depend on.
- The TopStepX scripts are not part of this model. Each is a one-shot call
  to a remote broker API (the account lookup of `Find_All_Accounts.py`
  included), and none touches the server's state.
- Position reconciliation against a venue, a cached account registry and
  background workers per account are implemented neither in `Functions.py`
  nor in `Server.py`, so there is no code for this model to follow.
