/** The in-memory state of the chat server (server.js): a message list that
    keeps the newest 100 messages and serves the newest 50, the staff-status
    record, the staff login check and the statistics derived from them. */
module Server {
  import opened Wrappers
  import opened Seqs
  import Credentials

  /** server.js:57 and 164: at most this many messages are kept. */
  const MaxStored: nat := 100
  /** server.js:42 and 215: at most this many messages are served. */
  const ReadWindow: nat := 50

  /** A message as the POST handler builds it (server.js:46-52); `id` is
      `Date.now()` and `timestamp` the ISO text of the same instant. */
  datatype Message = Message(id: int, text: string, sender: string, senderType: string, timestamp: string)

  /** A scalar JSON value, as the staff-status record holds. */
  datatype Value = Null | Bool(b: bool) | Num(n: int) | Str(s: string)

  /** JavaScript truthiness of a scalar value. */
  predicate Truthy(v: Value) {
    match v
    case Null => false
    case Bool(b) => b
    case Num(n) => n != 0
    case Str(s) => s != ""
  }

  /** A JSON object with scalar fields; an absent key reads as `undefined`. */
  type StatusRecord = map<string, Value>

  /** server.js:27-31. */
  const InitialStaffStatus: StatusRecord :=
    map["isOnline" := Bool(false), "staffName" := Null, "lastSeen" := Null]

  /** `staffStatus.isOnline ? 1 : 0` (server.js:109, 125, 200). */
  function OnlineStaff(status: StatusRecord): (n: nat)
    ensures n <= 1
    ensures n == 1 <==> "isOnline" in status && Truthy(status["isOnline"])
  {
    if "isOnline" in status && Truthy(status["isOnline"]) then 1 else 0
  }

  /** `{...old, ...body, lastSeen: now}` (server.js:72-76). */
  function MergeStatus(prev: StatusRecord, body: StatusRecord, now: string): (r: StatusRecord)
    ensures r.Keys == prev.Keys + body.Keys + {"lastSeen"}
    ensures r["lastSeen"] == Str(now)
    ensures forall k :: k in body && k != "lastSeen" ==> r[k] == body[k]
    ensures forall k :: k in prev && k !in body && k != "lastSeen" ==> r[k] == prev[k]
  {
    prev + body + map["lastSeen" := Str(now)]
  }

  /** The online indicator after an HTTP status update follows the body when
      it carries `isOnline` and is otherwise the previous one. */
  lemma MergeOnline(prev: StatusRecord, body: StatusRecord, now: string)
    ensures OnlineStaff(MergeStatus(prev, body, now))
         == if "isOnline" in body then OnlineStaff(body) else OnlineStaff(prev)
  {
  }

  datatype LoginReply = LoginReply(success: bool, username: Option<string>, message: string)

  /** POST /api/staff-login (server.js:84-99). */
  function StaffLogin(username: Option<string>, password: Option<string>): (reply: LoginReply)
    ensures reply.success <==>
      username.Some? && username.value in Credentials.StaffCredentials
      && password == Some(Credentials.StaffCredentials[username.value])
    ensures reply.success ==> reply.username == username && reply.message == "Login successful"
    ensures !reply.success ==> reply.username == None && reply.message == "Invalid credentials"
  {
    if Credentials.Check(Credentials.StaffCredentials, username, password)
    then LoginReply(true, username, "Login successful")
    else LoginReply(false, None, "Invalid credentials")
  }

  /** The pair returned by the statistics endpoints (server.js:123-128, 198-203). */
  datatype Stats = Stats(activeUsers: nat, onlineStaff: nat, totalMessages: nat, avgResponseTime: int)

  /** One row of the roster the admin-data handler reports (server.js:112-116). */
  datatype StaffRow = StaffRow(username: string, role: string, status: string, performance: int, lastActive: string)

  /** The admin-data snapshot (server.js:107-118); conversations are opaque records. */
  datatype AdminData = AdminData(stats: Stats, staffMembers: seq<StaffRow>, conversations: seq<StatusRecord>)

  class ChatServer {
    var messages: seq<Message>
    var staffStatus: StatusRecord
    /** Every message ever appended, oldest first. */
    ghost var history: seq<Message>

    /** The kept list is always the newest 100 of the whole history. */
    ghost predicate Valid()
      reads this
    {
      messages == Last(history, MaxStored)
    }

    constructor ()
      ensures Valid()
      ensures messages == [] && history == [] && staffStatus == InitialStaffStatus
    {
      messages := [];
      history := [];
      staffStatus := InitialStaffStatus;
      new;
      assert messages == Last(history, MaxStored);
    }

    /** push, then `slice(-100)` when the list grew past 100 (server.js:54-59, 163-166). */
    method Append(m: Message)
      requires Valid()
      modifies this
      ensures Valid()
      ensures history == old(history) + [m]
      ensures messages == Last(old(messages) + [m], MaxStored)
      ensures |messages| <= MaxStored && messages[|messages| - 1] == m
      ensures staffStatus == old(staffStatus)
    {
      LastAppend(history, m, MaxStored);
      messages := messages + [m];
      if |messages| > MaxStored {
        messages := messages[|messages| - MaxStored..];
      }
      history := history + [m];
    }

    /** POST /api/messages (server.js:45-65): the message is built from the
        body and the clock, stored, broadcast (returned) and echoed. */
    method PostMessage(text: string, sender: string, senderType: string, nowMs: int, nowIso: string)
      returns (broadcast: Message)
      requires Valid()
      modifies this
      ensures Valid()
      ensures broadcast == Message(nowMs, text, sender, senderType, nowIso)
      ensures history == old(history) + [broadcast]
      ensures messages == Last(old(messages) + [broadcast], MaxStored)
      ensures staffStatus == old(staffStatus)
    {
      broadcast := Message(nowMs, text, sender, senderType, nowIso);
      Append(broadcast);
    }

    /** The `chatMessage` socket event (server.js:162-168): the payload is
        stored as received and broadcast unchanged. */
    method ChatMessage(message: Message) returns (broadcast: Message)
      requires Valid()
      modifies this
      ensures Valid()
      ensures broadcast == message
      ensures history == old(history) + [message]
      ensures messages == Last(old(messages) + [message], MaxStored)
      ensures staffStatus == old(staffStatus)
    {
      Append(message);
      broadcast := message;
    }

    /** GET /api/messages and GET /api/admin/messages (server.js:42, 215). */
    method GetMessages() returns (r: seq<Message>)
      requires Valid()
      ensures |r| == if |messages| < ReadWindow then |messages| else ReadWindow
      ensures messages == messages[..|messages| - |r|] + r
      ensures r == Last(history, ReadWindow)
    {
      LastOfLast(history, MaxStored, ReadWindow);
      r := Last(messages, ReadWindow);
    }

    /** POST /api/staff-status (server.js:71-82): merged field by field. */
    method PostStaffStatus(body: StatusRecord, nowIso: string) returns (broadcast: StatusRecord)
      modifies this
      ensures staffStatus == MergeStatus(old(staffStatus), body, nowIso)
      ensures broadcast == staffStatus
      ensures messages == old(messages) && history == old(history)
    {
      staffStatus := staffStatus + body + map["lastSeen" := Str(nowIso)];
      broadcast := staffStatus;
    }

    /** The `updateStaffStatus` socket event (server.js:171-174): the record
        is replaced by the payload, so nothing of the old record survives. */
    method ReplaceStaffStatus(status: StatusRecord) returns (broadcast: StatusRecord)
      modifies this
      ensures staffStatus == status && broadcast == status
      ensures forall k :: k in old(staffStatus) && k !in status ==> k !in staffStatus
      ensures messages == old(messages) && history == old(history)
    {
      staffStatus := status;
      broadcast := status;
    }

    /** The `getRealTimeStats` event (server.js:122-130); `connectedSockets`
        is the number of open sockets and `avgResponseTime` the random draw. */
    method GetRealTimeStats(connectedSockets: nat, avgResponseTime: int) returns (s: Stats)
      requires Valid()
      requires 30 <= avgResponseTime < 90
      ensures s.activeUsers == connectedSockets && s.avgResponseTime == avgResponseTime
      ensures s.onlineStaff <= 1
      ensures s.onlineStaff == 1 <==> "isOnline" in staffStatus && Truthy(staffStatus["isOnline"])
      ensures s.totalMessages == |messages| <= MaxStored
    {
      s := Stats(connectedSockets, OnlineStaff(staffStatus), |messages|, avgResponseTime);
    }

    /** GET /api/admin/stats (server.js:197-204); both random draws are parameters. */
    method GetAdminStats(activeUsers: nat, avgResponseTime: int) returns (s: Stats)
      requires Valid()
      requires 5 <= activeUsers < 25 && 30 <= avgResponseTime < 90
      ensures s.activeUsers == activeUsers && s.avgResponseTime == avgResponseTime
      ensures s.onlineStaff == 1 <==> "isOnline" in staffStatus && Truthy(staffStatus["isOnline"])
      ensures s.onlineStaff <= 1 && s.totalMessages == |messages| <= MaxStored
    {
      s := Stats(activeUsers, OnlineStaff(staffStatus), |messages|, avgResponseTime);
    }

    /** The `getAdminData` event as written (server.js:106-120): building the
        reply calls `generateConversations()`, which server.js never defines,
        so the handler throws and no `adminData` is ever emitted. The error
        escapes the event listener and server.js installs no handler for
        uncaught exceptions, so the process most likely exits: every stored
        message and the status record are lost, and a restarted server holds
        the initial state of server.js:26-31. */
    method GetAdminDataAsWritten(connectedSockets: nat, avgResponseTime: int)
      returns (r: Result<AdminData, string>)
      requires Valid()
      requires 30 <= avgResponseTime < 90
      modifies this
      ensures Valid()
      ensures r == Failure("ReferenceError: generateConversations is not defined")
      ensures messages == [] && history == [] && staffStatus == InitialStaffStatus
    {
      r := Failure("ReferenceError: generateConversations is not defined");
      messages := [];
      history := [];
      staffStatus := InitialStaffStatus;
      assert messages == Last(history, MaxStored);
    }

    /** The `getAdminData` reply with the conversation list supplied by the
        caller: the administrator row agrees with the online counter. */
    method GetAdminData(connectedSockets: nat, avgResponseTime: int, conversations: seq<StatusRecord>)
      returns (d: AdminData)
      requires Valid()
      requires 30 <= avgResponseTime < 90
      ensures d.stats.activeUsers == connectedSockets && d.stats.totalMessages == |messages|
      ensures d.stats.avgResponseTime == avgResponseTime
      ensures d.stats.onlineStaff == 1 <==> "isOnline" in staffStatus && Truthy(staffStatus["isOnline"])
      ensures |d.staffMembers| == 3 && d.staffMembers[0].username == "admin"
      ensures d.stats.onlineStaff == 1 <==> d.staffMembers[0].status == "online"
      ensures d.staffMembers[1].status == "offline" && d.staffMembers[2].status == "offline"
      ensures d.conversations == conversations
    {
      var online := "isOnline" in staffStatus && Truthy(staffStatus["isOnline"]);
      var rows := [
        StaffRow("admin", "Administrator", if online then "online" else "offline", 98, "2 min ago"),
        StaffRow("support", "Support Agent", "offline", 92, "1 hour ago"),
        StaffRow("moderator", "Moderator", "offline", 85, "2 hours ago")
      ];
      d := AdminData(Stats(connectedSockets, OnlineStaff(staffStatus), |messages|, avgResponseTime),
                     rows, conversations);
    }
  }
}
