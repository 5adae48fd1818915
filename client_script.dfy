/** The visitor page's send throttle (script.js): two module-level flags,
    `isSendingMessage` and `lastMessageTime`, gate every emitted message. */
module ClientScript {
  import opened Wrappers
  import opened Text

  /** Milliseconds that must strictly pass between two accepted sends. */
  const MinGapMs: int := 1000

  /** The payload of the `sendMessage` event (script.js:75-79, 99-103). */
  datatype Outgoing = Outgoing(text: string, user: string, kind: string)

  /** `!isSendingMessage && (currentTime - lastMessageTime) > 1000`. */
  predicate Gate(isSending: bool, lastTime: int, now: int) {
    !isSending && now - lastTime > MinGapMs
  }

  /** Every accepted send is more than a second after the previous one. */
  predicate Spaced(times: seq<int>) {
    forall i :: 0 <= i < |times| - 1 ==> times[i] + MinGapMs < times[i + 1]
  }

  /** Consecutive spacing adds up: sends `j - i` apart are more than `j - i` seconds apart. */
  lemma {:induction false} SpacedPairwise(times: seq<int>, i: nat, j: nat)
    requires Spaced(times) && i < j < |times|
    ensures times[i] + MinGapMs * (j - i) < times[j]
    decreases j - i
  {
    if i + 1 < j {
      SpacedPairwise(times, i + 1, j);
    }
  }

  /** A send more than a second after the last one keeps the spacing. */
  lemma SpacedAppend(times: seq<int>, t: int)
    requires Spaced(times)
    requires times != [] ==> times[|times| - 1] + MinGapMs < t
    ensures Spaced(times + [t])
  {
    var r := times + [t];
    forall i | 0 <= i < |r| - 1 ensures r[i] + MinGapMs < r[i + 1] {
      assert r[i] == times[i];
      if i + 1 < |times| {
        assert r[i + 1] == times[i + 1];
      }
    }
  }

  /** `getNotificationIcon` (script.js:243-250). */
  function NotificationIcon(kind: string): (icon: string)
    ensures icon == "check-circle" <==> kind == "success"
    ensures icon == "exclamation-circle" <==> kind == "error"
    ensures icon == "exclamation-triangle" <==> kind == "warning"
    ensures icon == "info-circle" <==> kind !in {"success", "error", "warning"}
  {
    match kind
    case "success" => "check-circle"
    case "error" => "exclamation-circle"
    case "warning" => "exclamation-triangle"
    case _ => "info-circle"
  }

  class ChatPage {
    var isSendingMessage: bool
    var lastMessageTime: int
    /** The value of the chat input box. */
    var input: string
    /** The times of all accepted sends, oldest first. */
    ghost var sendTimes: seq<int>

    ghost predicate Valid()
      reads this
    {
      Spaced(sendTimes) && (sendTimes != [] ==> lastMessageTime == sendTimes[|sendTimes| - 1])
    }

    /** script.js:4-5. */
    constructor ()
      ensures Valid()
      ensures !isSendingMessage && lastMessageTime == 0 && input == "" && sendTimes == []
    {
      isSendingMessage := false;
      lastMessageTime := 0;
      input := "";
      sendTimes := [];
    }

    /** The visitor types into the input box. */
    method SetInput(text: string)
      modifies this
      ensures input == text
      ensures isSendingMessage == old(isSendingMessage) && lastMessageTime == old(lastMessageTime)
      ensures sendTimes == old(sendTimes)
    {
      input := text;
    }

    /** script.js:61-89: emits the trimmed input exactly when it is non-empty
        and the gate is open; a rejected send changes nothing. */
    method SendMessage(now: int) returns (emitted: Option<Outgoing>)
      requires Valid()
      modifies this
      ensures Valid()
      ensures emitted.Some? <==> Trim(old(input)) != "" && Gate(old(isSendingMessage), old(lastMessageTime), now)
      ensures emitted.Some? ==>
        && emitted.value == Outgoing(Trim(old(input)), "User", "user")
        && isSendingMessage && lastMessageTime == now && input == ""
        && sendTimes == old(sendTimes) + [now]
      ensures emitted.None? ==>
        && isSendingMessage == old(isSendingMessage) && lastMessageTime == old(lastMessageTime)
        && input == old(input) && sendTimes == old(sendTimes)
    {
      var message := Trim(input);
      if message != "" && !isSendingMessage && now - lastMessageTime > MinGapMs {
        isSendingMessage := true;
        lastMessageTime := now;
        input := "";
        SpacedAppend(sendTimes, now);
        sendTimes := sendTimes + [now];
        emitted := Some(Outgoing(message, "User", "user"));
      } else {
        emitted := None;
      }
    }

    /** script.js:91-113: the same gate without the non-empty check. */
    method SendQuickMessage(message: string, now: int) returns (emitted: Option<Outgoing>)
      requires Valid()
      modifies this
      ensures Valid()
      ensures emitted.Some? <==> Gate(old(isSendingMessage), old(lastMessageTime), now)
      ensures emitted.Some? ==>
        && emitted.value == Outgoing(message, "User", "user")
        && isSendingMessage && lastMessageTime == now
        && sendTimes == old(sendTimes) + [now]
      ensures emitted.None? ==>
        && isSendingMessage == old(isSendingMessage) && lastMessageTime == old(lastMessageTime)
        && sendTimes == old(sendTimes)
      ensures input == old(input)
    {
      if !isSendingMessage && now - lastMessageTime > MinGapMs {
        isSendingMessage := true;
        lastMessageTime := now;
        SpacedAppend(sendTimes, now);
        sendTimes := sendTimes + [now];
        emitted := Some(Outgoing(message, "User", "user"));
      } else {
        emitted := None;
      }
    }

    /** The 500 ms timer set by an accepted send fires (script.js:85-87, 109-111). */
    method SendingTimerFired()
      requires Valid()
      modifies this
      ensures Valid()
      ensures !isSendingMessage
      ensures lastMessageTime == old(lastMessageTime) && input == old(input) && sendTimes == old(sendTimes)
    {
      isSendingMessage := false;
    }
  }
}
