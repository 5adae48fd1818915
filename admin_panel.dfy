/** The state of the basic admin console (admin.js): statistics, a staff
    roster with online flags, and the chat messages received. */
module AdminPanel {
  import opened Wrappers
  import opened Seqs
  import Credentials

  /** A point in time; `new Date(...)` is passed in by the caller. */
  type Time = int

  datatype Stats = Stats(activeUsers: int, onlineStaff: int, totalMessages: int, avgResponseTime: int)

  datatype StaffMember = StaffMember(username: string, role: string, online: bool, lastSeen: Time)

  datatype ChatMessage = ChatMessage(text: string, sender: string, senderType: string, timestamp: Time)

  /** A `staffStatusUpdate` payload; `staffName` is `null` until someone logs in. */
  datatype StatusUpdate = StatusUpdate(staffName: Option<string>, isOnline: bool, lastSeen: Time)

  /** The chat-log panel shows this many messages. */
  const ChatLogWindow: nat := 20

  /** admin.js:177-181. */
  function DefaultRoster(now: Time): seq<StaffMember> {
    [StaffMember("admin", "Administrator", false, now),
     StaffMember("support", "Support Agent", false, now),
     StaffMember("moderator", "Moderator", false, now)]
  }

  predicate IsOnline(s: StaffMember) {
    s.online
  }

  /** `staffMembers.filter(s => s.online).length`. */
  function CountOnline(roster: seq<StaffMember>): nat {
    CountIf(roster, IsOnline)
  }

  /** `roster.filter(s => s.username !== name)`. */
  function RemoveByName(roster: seq<StaffMember>, name: string): (r: seq<StaffMember>)
    ensures |r| <= |roster|
    ensures forall k :: 0 <= k < |r| ==> r[k] in roster && r[k].username != name
  {
    if roster == [] then []
    else if roster[0].username == name then RemoveByName(roster[1..], name)
    else [roster[0]] + RemoveByName(roster[1..], name)
  }

  /** Removal drops exactly the entries with that username: none is left,
      every other entry stays, nothing new appears, and filtering works piece
      by piece, so the survivors keep their original order. */
  lemma {:induction false} RemoveByNameEffect(roster: seq<StaffMember>, name: string)
    ensures var r := RemoveByName(roster, name);
      && (forall i :: 0 <= i < |r| ==> r[i].username != name && r[i] in roster)
      && (forall s :: s in roster && s.username != name ==> s in r)
      && |r| == |roster| - CountIf(roster, (s: StaffMember) => s.username == name)
  {
    if roster != [] {
      var rest := roster[1..];
      RemoveByNameEffect(rest, name);
      assert roster == [roster[0]] + rest;
      CountIfPrepend(roster[0], rest, (s: StaffMember) => s.username == name);
    }
  }

  lemma {:induction false} CountIfPrepend(x: StaffMember, s: seq<StaffMember>, p: StaffMember -> bool)
    ensures CountIf([x] + s, p) == CountIf(s, p) + (if p(x) then 1 else 0)
  {
    if s != [] {
      var k := |s| - 1;
      CountIfPrepend(x, s[..k], p);
      assert ([x] + s)[..k + 1] == [x] + s[..k];
    } else {
      assert ([x] + s)[..0] == [];
    }
  }

  lemma {:induction false} RemoveByNameConcat(a: seq<StaffMember>, b: seq<StaffMember>, name: string)
    ensures RemoveByName(a + b, name) == RemoveByName(a, name) + RemoveByName(b, name)
  {
    if a != [] {
      assert (a + b)[1..] == a[1..] + b;
      RemoveByNameConcat(a[1..], b, name);
    } else {
      assert a + b == b;
    }
  }

  /** Removing an absent username changes nothing; removing twice is removing once. */
  lemma {:induction false} RemoveByNameAbsent(roster: seq<StaffMember>, name: string)
    requires forall i :: 0 <= i < |roster| ==> roster[i].username != name
    ensures RemoveByName(roster, name) == roster
  {
    if roster != [] {
      RemoveByNameAbsent(roster[1..], name);
    }
  }

  lemma RemoveByNameIdempotent(roster: seq<StaffMember>, name: string)
    ensures RemoveByName(RemoveByName(roster, name), name) == RemoveByName(roster, name)
  {
    RemoveByNameEffect(roster, name);
    RemoveByNameAbsent(RemoveByName(roster, name), name);
  }

  /** `roster.find(s => s.username === name)`, as the position of the first match. */
  function IndexOfName(roster: seq<StaffMember>, name: Option<string>): (i: int)
    ensures -1 <= i < |roster|
    ensures i == -1 <==> forall j :: 0 <= j < |roster| ==> Some(roster[j].username) != name
    ensures 0 <= i ==> Some(roster[i].username) == name
    ensures 0 <= i ==> forall j :: 0 <= j < i ==> Some(roster[j].username) != name
  {
    if roster == [] then -1
    else if Some(roster[0].username) == name then 0
    else
      var j := IndexOfName(roster[1..], name);
      if j == -1 then -1 else j + 1
  }

  /** The chat-log selection (admin.js:250): the newest 20, newest first. */
  function RecentChatLog(messages: seq<ChatMessage>): (r: seq<ChatMessage>)
    ensures |r| == if |messages| < ChatLogWindow then |messages| else ChatLogWindow
  {
    Reverse(Last(messages, ChatLogWindow))
  }

  lemma RecentChatLogOrder(messages: seq<ChatMessage>)
    ensures var r := RecentChatLog(messages);
      && |r| == (if |messages| < ChatLogWindow then |messages| else ChatLogWindow)
      && forall i :: 0 <= i < |r| ==> r[i] == messages[|messages| - 1 - i]
  {
    var w := Last(messages, ChatLogWindow);
    forall i | 0 <= i < |w| ensures RecentChatLog(messages)[i] == messages[|messages| - 1 - i] {
      ReverseIndex(w, i);
      assert w[|w| - 1 - i] == messages[|messages| - |w| + |w| - 1 - i];
    }
  }

  class Panel {
    var currentUser: Option<string>
    var stats: Stats
    var staffMembers: seq<StaffMember>
    var chatMessages: seq<ChatMessage>

    /** admin.js:3-21 with the roster of `loadStaffData`; the login prompt is `Login`. */
    constructor (now: Time)
      ensures currentUser == None && stats == Stats(0, 0, 0, 0)
      ensures staffMembers == DefaultRoster(now) && chatMessages == []
    {
      currentUser := None;
      stats := Stats(0, 0, 0, 0);
      staffMembers := DefaultRoster(now);
      chatMessages := [];
    }

    /** The admin prompt (admin.js:44-62). A failed attempt reloads the page
        at once (admin.js:60): every field goes back to its fresh-page value,
        the roster being the default one loaded at time `now`. */
    method Login(username: Option<string>, password: Option<string>, now: Time) returns (ok: bool)
      modifies this
      ensures ok <==> username == Some("admin") && password == Some("pxhb2024")
      ensures ok ==> currentUser == username
      ensures ok ==> stats == old(stats) && staffMembers == old(staffMembers) && chatMessages == old(chatMessages)
      ensures !ok ==> currentUser == None && stats == Stats(0, 0, 0, 0)
      ensures !ok ==> staffMembers == DefaultRoster(now) && chatMessages == []
    {
      ok := Credentials.Check(Credentials.AdminCredentials, username, password);
      if ok {
        currentUser := username;
      } else {
        currentUser := None;
        stats := Stats(0, 0, 0, 0);
        staffMembers := DefaultRoster(now);
        chatMessages := [];
      }
    }

    /** admin.js:208-230: appended offline; the online counter is not touched. */
    method AddStaffMember(username: string, role: string, now: Time)
      modifies this
      ensures staffMembers == old(staffMembers) + [StaffMember(username, role, false, now)]
      ensures CountOnline(staffMembers) == CountOnline(old(staffMembers))
      ensures stats == old(stats) && chatMessages == old(chatMessages) && currentUser == old(currentUser)
    {
      CountIfAppend(staffMembers, StaffMember(username, role, false, now), IsOnline);
      staffMembers := staffMembers + [StaffMember(username, role, false, now)];
    }

    /** admin.js:237-243; `confirmed` is the answer to the `confirm` dialog. */
    method RemoveStaff(username: string, confirmed: bool)
      modifies this
      ensures staffMembers == if confirmed then RemoveByName(old(staffMembers), username) else old(staffMembers)
      ensures stats == old(stats) && chatMessages == old(chatMessages) && currentUser == old(currentUser)
    {
      if confirmed {
        staffMembers := RemoveByName(staffMembers, username);
      }
    }

    /** admin.js:268-278. */
    method HandleNewMessage(message: ChatMessage)
      modifies this
      ensures chatMessages == old(chatMessages) + [message]
      ensures stats == old(stats).(totalMessages := old(stats.totalMessages) + 1)
      ensures staffMembers == old(staffMembers) && currentUser == old(currentUser)
    {
      chatMessages := chatMessages + [message];
      stats := stats.(totalMessages := stats.totalMessages + 1);
    }

    /** admin.js:280-295: only the first entry named `staffName` changes;
        the online counter is recomputed from the roster. */
    method UpdateStaffStatus(status: StatusUpdate)
      modifies this
      ensures var i := IndexOfName(old(staffMembers), status.staffName);
        staffMembers == if i == -1 then old(staffMembers)
                        else old(staffMembers)[i := old(staffMembers)[i].(online := status.isOnline,
                                                                          lastSeen := status.lastSeen)]
      ensures |staffMembers| == |old(staffMembers)|
      ensures stats == old(stats).(onlineStaff := CountOnline(staffMembers))
      ensures chatMessages == old(chatMessages) && currentUser == old(currentUser)
    {
      var i := IndexOfName(staffMembers, status.staffName);
      if i != -1 {
        staffMembers := staffMembers[i := staffMembers[i].(online := status.isOnline, lastSeen := status.lastSeen)];
      }
      stats := stats.(onlineStaff := CountOnline(staffMembers));
    }

    /** The `userConnected` event (admin.js:87-90). */
    method UserConnected()
      modifies this
      ensures stats == old(stats).(activeUsers := old(stats.activeUsers) + 1)
      ensures staffMembers == old(staffMembers) && chatMessages == old(chatMessages)
      ensures currentUser == old(currentUser)
    {
      stats := stats.(activeUsers := stats.activeUsers + 1);
    }

    /** The `userDisconnected` event (admin.js:92-95): clamped at zero. */
    method UserDisconnected()
      modifies this
      ensures stats == old(stats).(activeUsers := if old(stats.activeUsers) - 1 < 0 then 0 else old(stats.activeUsers) - 1)
      ensures stats.activeUsers >= 0
      ensures staffMembers == old(staffMembers) && chatMessages == old(chatMessages)
      ensures currentUser == old(currentUser)
    {
      stats := stats.(activeUsers := if stats.activeUsers - 1 < 0 then 0 else stats.activeUsers - 1);
    }

    /** The five-second refresh (admin.js:151-165); both random draws are parameters. */
    method RefreshStats(activeUsers: int, avgResponseTime: int)
      requires 5 <= activeUsers < 25 && 30 <= avgResponseTime < 90
      modifies this
      ensures stats == Stats(activeUsers, CountOnline(staffMembers), |chatMessages|, avgResponseTime)
      ensures staffMembers == old(staffMembers) && chatMessages == old(chatMessages)
      ensures currentUser == old(currentUser)
    {
      stats := Stats(activeUsers, CountOnline(staffMembers), |chatMessages|, avgResponseTime);
    }

    /** What the chat-log panel lists (admin.js:245-266). */
    method LoadChatLogs() returns (shown: seq<ChatMessage>)
      ensures |shown| == if |chatMessages| < ChatLogWindow then |chatMessages| else ChatLogWindow
      ensures forall i :: 0 <= i < |shown| ==> shown[i] == chatMessages[|chatMessages| - 1 - i]
    {
      RecentChatLogOrder(chatMessages);
      shown := RecentChatLog(chatMessages);
    }
  }

  /** After a status update the counter equals the number of online entries,
      and it moved by at most the one entry the update touched. */
  lemma StatusUpdateOnlineCount(roster: seq<StaffMember>, status: StatusUpdate)
    ensures var i := IndexOfName(roster, status.staffName);
      var r := if i == -1 then roster else roster[i := roster[i].(online := status.isOnline, lastSeen := status.lastSeen)];
      CountOnline(r) == CountOnline(roster)
                        - (if i >= 0 && roster[i].online then 1 else 0)
                        + (if i >= 0 && status.isOnline then 1 else 0)
  {
    var i := IndexOfName(roster, status.staffName);
    if i != -1 {
      CountIfUpdate(roster, i, roster[i].(online := status.isOnline, lastSeen := status.lastSeen), IsOnline);
    }
  }
}
