/** The state of the enterprise admin console (admin-v2.js): statistics,
    staff roster, conversation list and system log, and the word-list
    sentiment classifier it applies to incoming messages. */
module AdminV2 {
  import opened Wrappers
  import opened Seqs
  import opened Text
  import Decimal
  import Credentials

  /** A point in time; `new Date()` is passed in by the caller. */
  type Time = int

  // ---------------------------------------------------------------------
  // Sentiment (admin-v2.js:187-198)

  datatype Sentiment = Positive | Negative | Neutral

  const PositiveWords: seq<string> :=
    ["good", "great", "excellent", "helpful", "thanks", "thank", "awesome", "perfect"]
  const NegativeWords: seq<string> :=
    ["bad", "terrible", "awful", "hate", "worst", "stupid", "useless"]

  /** `words.filter(word => text.includes(word)).length`. */
  function Matches(words: seq<string>, text: string): nat {
    CountIf(words, w => Contains(text, w))
  }

  function AnalyzeSentiment(message: string): (r: Sentiment)
    ensures r == Positive <==> Matches(PositiveWords, ToLower(message)) > Matches(NegativeWords, ToLower(message))
    ensures r == Negative <==> Matches(NegativeWords, ToLower(message)) > Matches(PositiveWords, ToLower(message))
    ensures r == Neutral <==> Matches(PositiveWords, ToLower(message)) == Matches(NegativeWords, ToLower(message))
  {
    var lower := ToLower(message);
    var positive := Matches(PositiveWords, lower);
    var negative := Matches(NegativeWords, lower);
    if positive > negative then Positive
    else if negative > positive then Negative
    else Neutral
  }

  predicate Distinct(words: seq<string>) {
    forall i, j :: 0 <= i < j < |words| ==> words[i] != words[j]
  }

  /** For a list without repeats, the count is the number of distinct listed
      words that occur in the text: repeated occurrences add nothing. */
  /** The distinct listed words that occur in the text. */
  function WordsFound(words: seq<string>, text: string): set<string> {
    set w | w in words && Contains(text, w)
  }

  lemma MatchesCountsWords(words: seq<string>, text: string)
    requires Distinct(words)
    ensures Matches(words, text) == |WordsFound(words, text)|
  {
    var p := w => Contains(text, w);
    CountIfDistinct(words, p);
    assert Satisfying(words, p) == WordsFound(words, text);
  }

  lemma WordListsDistinct()
    ensures Distinct(PositiveWords) && Distinct(NegativeWords)
  {
  }

  /** "thank" is a prefix of "thanks", so a message saying "thanks" scores
      two positive words. */
  lemma ThanksScoresTwice(message: string)
    requires Contains(ToLower(message), "thanks")
    ensures {"thanks", "thank"} <= WordsFound(PositiveWords, ToLower(message))
  {
    var s := ToLower(message);
    ContainsAt(s, "thanks");
    var i :| OccursAt(s, "thanks", i);
    assert s[i..i + 5] == "thanks"[..5];
    assert OccursAt(s, "thank", i);
    ContainsAt(s, "thank");
    assert "thanks" in PositiveWords && "thank" in PositiveWords;
  }

  /** The classifier ignores case: messages with the same lower-case form
      get the same verdict, in particular a message and its lower-case form. */
  lemma SentimentIgnoresCase(a: string, b: string)
    requires ToLower(a) == ToLower(b)
    ensures AnalyzeSentiment(a) == AnalyzeSentiment(b)
    ensures AnalyzeSentiment(ToLower(a)) == AnalyzeSentiment(a)
  {
    ToLowerIdempotent(a);
  }

  // ---------------------------------------------------------------------
  // Roster, conversations and log records

  datatype Presence = Online | Offline

  datatype StaffRecord = StaffRecord(username: string, role: string, status: Presence,
                                     performance: int, lastActive: string)

  /** A `staffStatusUpdate` payload as this console reads it. */
  datatype StatusUpdate = StatusUpdate(username: string, isOnline: bool,
                                       role: Option<string>, lastActive: Option<string>)

  /** A `newMessage` payload; `content` and `text` are either present or `undefined`. */
  datatype IncomingMessage = IncomingMessage(sender: string, senderType: string,
                                             content: Option<string>, text: Option<string>)

  datatype Conversation = Conversation(id: string, customer: string, staff: string, status: string,
                                       duration: string, sentiment: Sentiment, lastMessage: string,
                                       timestamp: Time)

  datatype LogEntry = LogEntry(timestamp: Time, level: string, source: string, message: string)

  datatype Stats = Stats(activeUsers: int, onlineStaff: int, totalMessages: int, avgResponseTime: int,
                         newUsers: int, returningUsers: int, countries: int, unreadCount: int)

  /** An `adminData` / `realTimeStats` payload; `None` is an absent field. */
  datatype RealData = RealData(activeUsers: Option<int>, onlineStaff: Option<int>,
                               totalMessages: Option<int>, avgResponseTime: Option<int>,
                               staffMembers: Option<seq<StaffRecord>>,
                               conversations: Option<seq<Conversation>>)

  /** One element of an imported staff file. */
  datatype ImportedStaff = ImportedStaff(username: string, role: string)

  /** `value || fallback` for a string that may be absent or empty. */
  function OrDefault(value: Option<string>, fallback: string): (r: string)
    ensures value.Some? && value.value != "" ==> r == value.value
    ensures (value.None? || value.value == "") ==> r == fallback
  {
    if value.Some? && value.value != "" then value.value else fallback
  }

  function PresenceOf(isOnline: bool): Presence {
    if isOnline then Online else Offline
  }

  predicate IsOnline(s: StaffRecord) {
    s.status == Online
  }

  /** `staffMembers.filter(s => s.status === 'online').length`. */
  function CountOnline(roster: seq<StaffRecord>): nat {
    CountIf(roster, IsOnline)
  }

  /** `roster.findIndex(s => s.username === name)`. */
  function IndexOfUser(roster: seq<StaffRecord>, name: string): (i: int)
    ensures -1 <= i < |roster|
    ensures i == -1 <==> forall j :: 0 <= j < |roster| ==> roster[j].username != name
    ensures 0 <= i ==> roster[i].username == name && forall j :: 0 <= j < i ==> roster[j].username != name
  {
    if roster == [] then -1
    else if roster[0].username == name then 0
    else
      var j := IndexOfUser(roster[1..], name);
      if j == -1 then -1 else j + 1
  }

  // ---------------------------------------------------------------------
  // Staff status update (admin-v2.js:167-185)

  /** The roster after a status update: the first entry of that username gets
      the new status and last-active text; an unknown username is appended
      with the given random `performance`. */
  function ApplyStatus(roster: seq<StaffRecord>, st: StatusUpdate, performance: int): (r: seq<StaffRecord>)
    ensures |r| == if IndexOfUser(roster, st.username) >= 0 then |roster| else |roster| + 1
    ensures exists k :: 0 <= k < |r| && r[k].username == st.username && r[k].status == PresenceOf(st.isOnline)
  {
    var i := IndexOfUser(roster, st.username);
    if i >= 0 then
      assert roster[i := roster[i].(status := PresenceOf(st.isOnline),
                                    lastActive := OrDefault(st.lastActive, "Just now"))][i].username == st.username;
      roster[i := roster[i].(status := PresenceOf(st.isOnline),
                             lastActive := OrDefault(st.lastActive, "Just now"))]
    else
      var r := roster + [StaffRecord(st.username, OrDefault(st.role, "Staff"), PresenceOf(st.isOnline),
                                     performance, OrDefault(st.lastActive, "Just now"))];
      assert r[|roster|].username == st.username;
      r
  }

  /** A known username changes that entry's status and last-active text and
      nothing else; an unknown one adds exactly one entry at the end. */
  lemma ApplyStatusEffect(roster: seq<StaffRecord>, st: StatusUpdate, performance: int)
    ensures var r := ApplyStatus(roster, st, performance);
      var i := IndexOfUser(roster, st.username);
      && (i >= 0 ==>
            && |r| == |roster|
            && (forall j :: 0 <= j < |r| && j != i ==> r[j] == roster[j])
            && r[i] == roster[i].(status := PresenceOf(st.isOnline),
                                  lastActive := OrDefault(st.lastActive, "Just now")))
      && (i == -1 ==>
            && r[..|roster|] == roster
            && |r| == |roster| + 1
            && r[|roster|] == StaffRecord(st.username, OrDefault(st.role, "Staff"), PresenceOf(st.isOnline),
                                          performance, OrDefault(st.lastActive, "Just now")))
  {
  }

  /** The online count after an update moves by at most the one touched entry. */
  lemma ApplyStatusOnlineCount(roster: seq<StaffRecord>, st: StatusUpdate, performance: int)
    ensures var i := IndexOfUser(roster, st.username);
      CountOnline(ApplyStatus(roster, st, performance))
        == CountOnline(roster) - (if i >= 0 && IsOnline(roster[i]) then 1 else 0) + (if st.isOnline then 1 else 0)
  {
    var i := IndexOfUser(roster, st.username);
    if i >= 0 {
      CountIfUpdate(roster, i, roster[i].(status := PresenceOf(st.isOnline),
                                          lastActive := OrDefault(st.lastActive, "Just now")), IsOnline);
    } else {
      CountIfAppend(roster, StaffRecord(st.username, OrDefault(st.role, "Staff"), PresenceOf(st.isOnline),
                                        performance, OrDefault(st.lastActive, "Just now")), IsOnline);
    }
  }

  // ---------------------------------------------------------------------
  // Conversations (admin-v2.js:145-165)

  /** `` `CV${String(n).padStart(3, '0')}` ``. */
  function ConvId(n: nat): (id: string)
    ensures |id| >= 5 && id[..2] == "CV"
  {
    "CV" + Decimal.PadStart(Decimal.Show(n), 3, '0')
  }

  /** Reads back the number of a `CV` identifier. */
  function ParseConvId(id: string): Option<nat> {
    if |id| >= 2 && id[..2] == "CV" && Decimal.AllDigits(id[2..]) then Some(Decimal.Parse(id[2..])) else None
  }

  /** Every identifier is `CV` and at least three digits, and reads back as its number. */
  lemma {:induction false} ConvIdRoundTrip(n: nat)
    ensures |ConvId(n)| >= 5 && ConvId(n)[..2] == "CV"
    ensures n < 1000 ==> |ConvId(n)| == 5
    ensures ParseConvId(ConvId(n)) == Some(n)
  {
    var digits := Decimal.Show(n);
    var padded := Decimal.PadStart(digits, 3, '0');
    Decimal.ParseLeadingZeros(|padded| - |digits|, digits);
    Decimal.ParseShow(n);
    assert ConvId(n)[2..] == padded;
    assert ConvId(n)[..2] == "CV";
    if n < 1000 {
      ShowBelowThousand(n);
    }
  }

  lemma ShowBelowThousand(n: nat)
    requires n < 1000
    ensures |Decimal.Show(n)| <= 3
  {
    if n >= 10 {
      ShowBelowThousand(n / 10);
    }
  }

  /** Distinct numbers give distinct identifiers. */
  lemma ConvIdInjective(m: nat, n: nat)
    requires ConvId(m) == ConvId(n)
    ensures m == n
  {
    ConvIdRoundTrip(m);
    ConvIdRoundTrip(n);
  }

  predicate KnownCustomer(convs: seq<Conversation>, sender: string) {
    exists i :: 0 <= i < |convs| && convs[i].customer == sender
  }

  predicate DistinctCustomers(convs: seq<Conversation>) {
    forall i, j :: 0 <= i < j < |convs| ==> convs[i].customer != convs[j].customer
  }

  /** The text the console records for a message: `content` when present,
      else the `text` field every server-built message carries. */
  function MessageBody(m: IncomingMessage): string {
    if m.content.Some? then m.content.value else m.text.GetOr("")
  }

  function NewConversation(convs: seq<Conversation>, m: IncomingMessage, now: Time): Conversation {
    var body := MessageBody(m);
    Conversation(ConvId(|convs| + 1), m.sender,
                 if m.senderType == "staff" then m.sender else "Unassigned",
                 if m.senderType == "staff" then "active" else "waiting",
                 "0 min", AnalyzeSentiment(body), body, now)
  }

  /** Find-or-insert by sender. */
  function RecordSender(convs: seq<Conversation>, m: IncomingMessage, now: Time): (r: seq<Conversation>)
    ensures KnownCustomer(r, m.sender)
    ensures |convs| <= |r| <= |convs| + 1 && r[..|convs|] == convs
  {
    if KnownCustomer(convs, m.sender) then convs
    else
      var r := convs + [NewConversation(convs, m, now)];
      assert r[|convs|].customer == m.sender;
      r
  }

  /** A new conversation belongs to the sender and is numbered one past the old length. */
  lemma NewConversationFields(convs: seq<Conversation>, m: IncomingMessage, now: Time)
    ensures NewConversation(convs, m, now).customer == m.sender
    ensures ParseConvId(NewConversation(convs, m, now).id) == Some(|convs| + 1)
  {
    ConvIdRoundTrip(|convs| + 1);
  }

  /** Find-or-insert never gives one customer two conversations. */
  lemma RecordSenderDistinct(convs: seq<Conversation>, m: IncomingMessage, now: Time)
    requires DistinctCustomers(convs)
    ensures DistinctCustomers(RecordSender(convs, m, now))
  {
    if !KnownCustomer(convs, m.sender) {
      var c := NewConversation(convs, m, now);
      var r := convs + [c];
      assert RecordSender(convs, m, now) == r;
      NewConversationFields(convs, m, now);
      forall i, j | 0 <= i < j < |r| ensures r[i].customer != r[j].customer {
        assert r[i] == convs[i];
        if j < |convs| {
          assert r[j] == convs[j];
        }
      }
    }
  }

  /** Afterwards the sender has a conversation; a known sender changes
      nothing, a new one adds exactly one entry, numbered one past the old
      length; the list never gets two conversations for one customer. */
  lemma RecordSenderEffect(convs: seq<Conversation>, m: IncomingMessage, now: Time)
    ensures var r := RecordSender(convs, m, now);
      && KnownCustomer(r, m.sender)
      && (KnownCustomer(convs, m.sender) ==> r == convs)
      && (!KnownCustomer(convs, m.sender) ==>
            && |r| == |convs| + 1 && r[..|convs|] == convs
            && r[|convs|].customer == m.sender
            && ParseConvId(r[|convs|].id) == Some(|convs| + 1))
      && (DistinctCustomers(convs) ==> DistinctCustomers(r))
  {
    if !KnownCustomer(convs, m.sender) {
      var c := NewConversation(convs, m, now);
      assert RecordSender(convs, m, now) == convs + [c];
      assert (convs + [c])[|convs|] == c;
      NewConversationFields(convs, m, now);
    }
    if DistinctCustomers(convs) {
      RecordSenderDistinct(convs, m, now);
    }
  }

  /** The handler as written: it reads `message.content`, and a message
      without that field makes `analyzeSentiment` throw before the new
      conversation is pushed. */
  function RecordSenderAsWritten(convs: seq<Conversation>, m: IncomingMessage, now: Time)
    : (r: Result<seq<Conversation>, string>)
    ensures r.Failure? <==> !KnownCustomer(convs, m.sender) && m.content.None?
  {
    if KnownCustomer(convs, m.sender) then Success(convs)
    else if m.content.None? then Failure("TypeError: Cannot read properties of undefined (reading 'toLowerCase')")
    else Success(convs + [NewConversation(convs, m, now)])
  }

  /** Every message the server broadcasts has `text` and no `content`: as
      written, a first message from a new sender is never recorded, while
      the corrected handler records it. Where `content` is present both agree. */
  lemma ServerMessageFromNewSender(convs: seq<Conversation>, sender: string, senderType: string,
                                   text: string, now: Time)
    requires !KnownCustomer(convs, sender)
    ensures var m := IncomingMessage(sender, senderType, None, Some(text));
      && RecordSenderAsWritten(convs, m, now).Failure?
      && KnownCustomer(RecordSender(convs, m, now), sender)
      && RecordSender(convs, m, now)[|convs|].lastMessage == text
  {
    RecordSenderEffect(convs, IncomingMessage(sender, senderType, None, Some(text)), now);
  }

  lemma AsWrittenAgreesWithContent(convs: seq<Conversation>, m: IncomingMessage, now: Time)
    requires m.content.Some?
    ensures RecordSenderAsWritten(convs, m, now) == Success(RecordSender(convs, m, now))
  {
  }

  // ---------------------------------------------------------------------
  // System log (admin-v2.js:200-214)

  const MaxLogs: nat := 100

  /** `unshift` and keep the first 100. */
  function PushLog(logs: seq<LogEntry>, e: LogEntry): (r: seq<LogEntry>)
    ensures 1 <= |r| <= MaxLogs && r[0] == e
    ensures |r| == if |logs| < MaxLogs then |logs| + 1 else MaxLogs
    ensures r[1..] == logs[..|r| - 1]
  {
    Take([e] + logs, MaxLogs)
  }

  /** `` `User connected: ${userData.id || 'Unknown'}` `` and its disconnect twin. */
  function UserLogText(prefix: string, userId: Option<string>): string {
    prefix + OrDefault(userId, "Unknown")
  }

  // ---------------------------------------------------------------------
  // Staff import (admin-v2.js:840-848)

  function FromImport(x: ImportedStaff): StaffRecord {
    StaffRecord(x.username, x.role, Offline, 100, "Never")
  }

  function ImportOne(roster: seq<StaffRecord>, x: ImportedStaff): seq<StaffRecord> {
    if IndexOfUser(roster, x.username) == -1 then roster + [FromImport(x)] else roster
  }

  /** The roster after importing `data` in order. */
  function Imported(roster: seq<StaffRecord>, data: seq<ImportedStaff>): (r: seq<StaffRecord>)
    ensures |roster| <= |r| <= |roster| + |data|
  {
    if data == [] then roster else ImportOne(Imported(roster, data[..|data| - 1]), data[|data| - 1])
  }

  /** Each entry from position `from` on carries a username no earlier entry has. */
  predicate FreshFrom(r: seq<StaffRecord>, from: nat) {
    forall i, j :: 0 <= j < i < |r| && from <= i ==> r[j].username != r[i].username
  }

  predicate HasUser(r: seq<StaffRecord>, name: string) {
    exists i :: 0 <= i < |r| && r[i].username == name
  }

  /** Import keeps the old roster as a prefix, adds only offline entries
      whose usernames come from the file, and never adds a username already
      present (in the roster or earlier in the same file). */
  lemma {:induction false} ImportedShape(roster: seq<StaffRecord>, data: seq<ImportedStaff>)
    ensures var r := Imported(roster, data);
      && r[..|roster|] == roster
      && FreshFrom(r, |roster|)
      && (forall i :: |roster| <= i < |r| ==> exists k :: 0 <= k < |data| && r[i].username == data[k].username)
      && (forall i :: |roster| <= i < |r| ==> r[i].status == Offline && r[i].performance == 100
                                              && r[i].lastActive == "Never")
  {
    if data != [] {
      var p := Imported(roster, data[..|data| - 1]);
      var x := data[|data| - 1];
      var init := data[..|data| - 1];
      ImportedShape(roster, init);
      var r := Imported(roster, data);
      if IndexOfUser(p, x.username) == -1 {
        assert r == p + [FromImport(x)];
        assert r[..|p|] == p;
        assert r[..|roster|] == p[..|roster|];
      }
      forall i | |roster| <= i < |r| ensures exists k :: 0 <= k < |data| && r[i].username == data[k].username {
        if i < |p| {
          var k :| 0 <= k < |init| && p[i].username == init[k].username;
          assert r[i] == p[i] && data[k] == init[k];
        } else {
          assert r[i].username == data[|data| - 1].username;
        }
      }
    }
  }

  /** Every imported username is present after the import. */
  lemma {:induction false} ImportedCovers(roster: seq<StaffRecord>, data: seq<ImportedStaff>)
    ensures forall k :: 0 <= k < |data| ==> HasUser(Imported(roster, data), data[k].username)
  {
    if data != [] {
      var init := data[..|data| - 1];
      var x := data[|data| - 1];
      var p := Imported(roster, init);
      ImportedCovers(roster, init);
      var r := ImportOne(p, x);
      assert r == Imported(roster, data);
      forall k | 0 <= k < |data| ensures HasUser(r, data[k].username) {
        if k < |data| - 1 {
          assert data[k] == init[k];
          var i :| 0 <= i < |p| && p[i].username == init[k].username;
          assert r[i] == p[i];
        } else if IndexOfUser(p, x.username) == -1 {
          assert r[|p|].username == x.username;
        } else {
          var i := IndexOfUser(p, x.username);
          assert r[i].username == x.username;
        }
      }
    }
  }

  /** Importing offline entries does not change the online count. */
  lemma {:induction false} ImportedOnlineCount(roster: seq<StaffRecord>, data: seq<ImportedStaff>)
    ensures CountOnline(Imported(roster, data)) == CountOnline(roster)
  {
    if data != [] {
      var p := Imported(roster, data[..|data| - 1]);
      ImportedOnlineCount(roster, data[..|data| - 1]);
      CountIfAppend(p, FromImport(data[|data| - 1]), IsOnline);
    }
  }

  // ---------------------------------------------------------------------
  // The console object

  /** The delay before a failed login reloads the page (admin-v2.js:65). */
  const ReloadDelayMs: nat := 2000

  class EnterpriseAdminPanel {
    var currentUser: Option<string>
    var stats: Stats
    var staffMembers: seq<StaffRecord>
    var conversations: seq<Conversation>
    var systemLogs: seq<LogEntry>

    /** admin-v2.js:3-30 (the demo data loaded afterwards is not modelled). */
    constructor ()
      ensures currentUser == None && stats == Stats(0, 0, 0, 0, 0, 0, 0, 0)
      ensures staffMembers == [] && conversations == [] && systemLogs == []
    {
      currentUser := None;
      stats := Stats(0, 0, 0, 0, 0, 0, 0, 0);
      staffMembers := [];
      conversations := [];
      systemLogs := [];
    }

    /** The login prompt (admin-v2.js:51-67). A failed attempt leaves the
        state as it is but schedules a page reload after 2000 ms
        (admin-v2.js:65); `ReloadPage` is that reload. */
    method Login(username: Option<string>, password: Option<string>)
      returns (ok: bool, reloadAfterMs: Option<nat>)
      modifies this
      ensures ok <==> username == Some("admin") && password == Some("pxhb2024")
      ensures ok ==> currentUser == username && reloadAfterMs == None
      ensures !ok ==> currentUser == old(currentUser) && reloadAfterMs == Some(ReloadDelayMs)
      ensures stats == old(stats) && staffMembers == old(staffMembers)
      ensures conversations == old(conversations) && systemLogs == old(systemLogs)
    {
      ok := Credentials.Check(Credentials.AdminCredentials, username, password);
      if ok {
        currentUser := username;
        reloadAfterMs := None;
      } else {
        reloadAfterMs := Some(ReloadDelayMs);
      }
    }

    /** `location.reload()`: the page starts over and every field goes back
        to its value in the constructor (admin-v2.js:3-30). */
    method ReloadPage()
      modifies this
      ensures currentUser == None && stats == Stats(0, 0, 0, 0, 0, 0, 0, 0)
      ensures staffMembers == [] && conversations == [] && systemLogs == []
    {
      currentUser := None;
      stats := Stats(0, 0, 0, 0, 0, 0, 0, 0);
      staffMembers := [];
      conversations := [];
      systemLogs := [];
    }

    method AddSystemLog(level: string, source: string, message: string, now: Time)
      modifies this
      ensures systemLogs == PushLog(old(systemLogs), LogEntry(now, level, source, message))
      ensures stats == old(stats) && staffMembers == old(staffMembers)
      ensures conversations == old(conversations) && currentUser == old(currentUser)
    {
      systemLogs := [LogEntry(now, level, source, message)] + systemLogs;
      if |systemLogs| > MaxLogs {
        systemLogs := systemLogs[..MaxLogs];
      }
    }

    /** admin-v2.js:1016-1023; `confirmed` is the answer to the `confirm` dialog. */
    method ClearLogs(confirmed: bool, now: Time)
      modifies this
      ensures systemLogs == if confirmed then [LogEntry(now, "info", "admin", "Cleared system logs")]
                            else old(systemLogs)
      ensures stats == old(stats) && staffMembers == old(staffMembers)
      ensures conversations == old(conversations) && currentUser == old(currentUser)
    {
      if confirmed {
        systemLogs := [];
        AddSystemLog("info", "admin", "Cleared system logs", now);
      }
    }

    /** The `userConnected` event (admin-v2.js:95-99). */
    method UserConnected(userId: Option<string>, now: Time)
      modifies this
      ensures stats == old(stats).(activeUsers := old(stats.activeUsers) + 1)
      ensures systemLogs == PushLog(old(systemLogs), LogEntry(now, "info", "user", UserLogText("User connected: ", userId)))
      ensures staffMembers == old(staffMembers) && conversations == old(conversations)
      ensures currentUser == old(currentUser)
    {
      stats := stats.(activeUsers := stats.activeUsers + 1);
      AddSystemLog("info", "user", UserLogText("User connected: ", userId), now);
    }

    /** The `userDisconnected` event (admin-v2.js:101-105): the counter never goes below zero. */
    method UserDisconnected(userId: Option<string>, now: Time)
      modifies this
      ensures stats == old(stats).(activeUsers := if old(stats.activeUsers) - 1 < 0 then 0 else old(stats.activeUsers) - 1)
      ensures stats.activeUsers >= 0
      ensures old(stats.activeUsers) > 0 ==> stats.activeUsers == old(stats.activeUsers) - 1
      ensures systemLogs == PushLog(old(systemLogs), LogEntry(now, "info", "user", UserLogText("User disconnected: ", userId)))
      ensures staffMembers == old(staffMembers) && conversations == old(conversations)
      ensures currentUser == old(currentUser)
    {
      stats := stats.(activeUsers := if stats.activeUsers - 1 < 0 then 0 else stats.activeUsers - 1);
      AddSystemLog("info", "user", UserLogText("User disconnected: ", userId), now);
    }

    /** admin-v2.js:132-143: a field overwrites a statistic only when present;
        roster and conversations are replaced when present. */
    method UpdateRealData(data: RealData)
      modifies this
      ensures stats == old(stats).(activeUsers := data.activeUsers.GetOr(old(stats.activeUsers)),
                                   onlineStaff := data.onlineStaff.GetOr(old(stats.onlineStaff)),
                                   totalMessages := data.totalMessages.GetOr(old(stats.totalMessages)),
                                   avgResponseTime := data.avgResponseTime.GetOr(old(stats.avgResponseTime)))
      ensures staffMembers == data.staffMembers.GetOr(old(staffMembers))
      ensures conversations == data.conversations.GetOr(old(conversations))
      ensures systemLogs == old(systemLogs) && currentUser == old(currentUser)
    {
      if data.activeUsers.Some? { stats := stats.(activeUsers := data.activeUsers.value); }
      if data.onlineStaff.Some? { stats := stats.(onlineStaff := data.onlineStaff.value); }
      if data.totalMessages.Some? { stats := stats.(totalMessages := data.totalMessages.value); }
      if data.avgResponseTime.Some? { stats := stats.(avgResponseTime := data.avgResponseTime.value); }
      if data.staffMembers.Some? { staffMembers := data.staffMembers.value; }
      if data.conversations.Some? { conversations := data.conversations.value; }
    }

    /** admin-v2.js:145-165, with the message text read as in `MessageBody`. */
    method HandleNewMessage(message: IncomingMessage, now: Time)
      modifies this
      ensures stats == old(stats).(totalMessages := old(stats.totalMessages) + 1)
      ensures conversations == RecordSender(old(conversations), message, now)
      ensures staffMembers == old(staffMembers) && systemLogs == old(systemLogs)
      ensures currentUser == old(currentUser)
    {
      stats := stats.(totalMessages := stats.totalMessages + 1);
      if !KnownCustomer(conversations, message.sender) {
        conversations := conversations + [NewConversation(conversations, message, now)];
      }
    }

    /** admin-v2.js:167-185; `performance` is the random draw of line 177. */
    method UpdateStaffStatus(status: StatusUpdate, performance: int)
      requires 80 <= performance < 100
      modifies this
      ensures staffMembers == ApplyStatus(old(staffMembers), status, performance)
      ensures stats == old(stats).(onlineStaff := CountOnline(staffMembers))
      ensures conversations == old(conversations) && systemLogs == old(systemLogs)
      ensures currentUser == old(currentUser)
    {
      var i := IndexOfUser(staffMembers, status.username);
      if i != -1 {
        staffMembers := staffMembers[i := staffMembers[i].(status := PresenceOf(status.isOnline),
                                                           lastActive := OrDefault(status.lastActive, "Just now"))];
      } else {
        staffMembers := staffMembers + [StaffRecord(status.username, OrDefault(status.role, "Staff"),
                                                    PresenceOf(status.isOnline), performance,
                                                    OrDefault(status.lastActive, "Just now"))];
      }
      stats := stats.(onlineStaff := CountOnline(staffMembers));
    }

    /** The add-staff form (admin-v2.js:800-825). */
    method AddStaff(username: string, role: string, now: Time)
      modifies this
      ensures staffMembers == old(staffMembers) + [StaffRecord(username, role, Offline, 100, "Never")]
      ensures stats == old(stats).(onlineStaff := CountOnline(old(staffMembers)))
      ensures systemLogs == PushLog(old(systemLogs), LogEntry(now, "info", "admin", "Added staff: " + username))
      ensures conversations == old(conversations) && currentUser == old(currentUser)
    {
      CountIfAppend(staffMembers, StaffRecord(username, role, Offline, 100, "Never"), IsOnline);
      staffMembers := staffMembers + [StaffRecord(username, role, Offline, 100, "Never")];
      stats := stats.(onlineStaff := CountOnline(staffMembers));
      AddSystemLog("info", "admin", "Added staff: " + username, now);
    }

    /** The loop of admin-v2.js:840-848 over a parsed staff file, and the log
        line that follows (which reports the file's length, not the number added). */
    method ImportStaff(data: seq<ImportedStaff>, now: Time)
      modifies this
      ensures staffMembers == Imported(old(staffMembers), data)
      ensures systemLogs == PushLog(old(systemLogs), LogEntry(now, "info", "admin",
                                    "Imported " + Decimal.Show(|data|) + " staff members"))
      ensures stats == old(stats) && conversations == old(conversations)
      ensures currentUser == old(currentUser)
    {
      var i := 0;
      while i < |data|
        invariant 0 <= i <= |data|
        invariant staffMembers == Imported(old(staffMembers), data[..i])
        invariant stats == old(stats) && conversations == old(conversations)
        invariant systemLogs == old(systemLogs) && currentUser == old(currentUser)
      {
        assert data[..i + 1][..i] == data[..i];
        if IndexOfUser(staffMembers, data[i].username) == -1 {
          staffMembers := staffMembers + [FromImport(data[i])];
        }
        i := i + 1;
      }
      assert data[..i] == data;
      AddSystemLog("info", "admin", "Imported " + Decimal.Show(|data|) + " staff members", now);
    }
  }
}
