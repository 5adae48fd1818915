/** The visitor-side chat client (self-hosted-chat.js): the message history,
    the last staff status seen, and the reconnect counter with its back-off. */
module SelfHostedChat {
  import opened Wrappers

  /** self-hosted-chat.js:10. */
  const MaxReconnectAttempts: nat := 5
  /** The delay unit of self-hosted-chat.js:77, in milliseconds. */
  const BackoffStepMs: nat := 2000

  /** A point in time; `new Date()` is passed in by the caller. */
  type Time = string

  datatype ChatMessage = ChatMessage(text: string, sender: string, senderType: string, timestamp: Time)

  datatype StaffStatus = StaffStatus(isOnline: bool, staffName: Option<string>)

  /** The delays scheduled by `k` consecutive attempts after a connect:
      `2000 * reconnectAttempts` after each increment. */
  function Backoff(k: nat): seq<nat> {
    if k == 0 then [] else Backoff(k - 1) + [BackoffStepMs * k]
  }

  /** The back-off is linear, not exponential: attempt `i + 1` waits
      `2000 * (i + 1)` ms, so each delay is 2000 ms longer than the one before. */
  lemma {:induction false} BackoffLinear(k: nat)
    ensures |Backoff(k)| == k
    ensures forall i :: 0 <= i < k ==> Backoff(k)[i] == BackoffStepMs * (i + 1)
  {
    if k > 0 {
      BackoffLinear(k - 1);
      assert forall i :: 0 <= i < k - 1 ==> Backoff(k)[i] == Backoff(k - 1)[i];
    }
  }

  function Sum(s: seq<nat>): nat {
    if s == [] then 0 else Sum(s[..|s| - 1]) + s[|s| - 1]
  }

  /** One more attempt adds its delay, `2000 * k`, to the total. */
  lemma BackoffSumStep(k: nat)
    requires k > 0
    ensures Sum(Backoff(k)) == Sum(Backoff(k - 1)) + BackoffStepMs * k
  {
    var prev := Backoff(k - 1);
    var b := Backoff(k);
    BackoffLinear(k - 1);
    assert b == prev + [BackoffStepMs * k];
    assert b[..|b| - 1] == prev;
  }

  /** The first `k` scheduled delays add up to `1000 * k * (k + 1)` ms.
      The program schedules at most `MaxReconnectAttempts` of them between
      two connects (see `Client.DelaysTotal`). */
  lemma {:induction false} BackoffTotal(k: nat)
    ensures Sum(Backoff(k)) == 1000 * k * (k + 1)
  {
    if k > 0 {
      BackoffTotal(k - 1);
      BackoffSumStep(k);
      TriangleStep(k, Sum(Backoff(k - 1)), Sum(Backoff(k)));
    }
  }

  lemma TriangleStep(k: int, prev: int, total: int)
    requires prev == 1000 * (k - 1) * k
    requires total == prev + 2000 * k
    ensures total == 1000 * k * (k + 1)
  {
    assert (k - 1) * k == k * k - k;
    assert k * (k + 1) == k * k + k;
  }

  /** `avatarIcon` in `displayMessage` (self-hosted-chat.js:148-155). */
  function AvatarIcon(senderType: string): (icon: string)
    ensures icon == "user-shield" <==> senderType == "staff"
    ensures icon == "info-circle" <==> senderType == "system"
    ensures icon == "robot" <==> senderType == "bot"
    ensures icon == "user" <==> senderType !in {"staff", "system", "bot"}
  {
    if senderType == "staff" then "user-shield"
    else if senderType == "system" then "info-circle"
    else if senderType == "bot" then "robot"
    else "user"
  }

  class Client {
    var messages: seq<ChatMessage>
    var staffStatus: StaffStatus
    var reconnectAttempts: nat
    /** `this.socket && this.socket.connected`. */
    var connected: bool
    /** The delays scheduled since the last successful connect. */
    ghost var delays: seq<nat>

    ghost predicate Valid()
      reads this
    {
      reconnectAttempts <= MaxReconnectAttempts && delays == Backoff(reconnectAttempts)
    }

    /** Between two connects the client has scheduled `reconnectAttempts <= 5`
        delays adding up to `1000 * reconnectAttempts * (reconnectAttempts + 1)`
        ms; later disconnects schedule nothing, so the total never exceeds 30000 ms. */
    lemma DelaysTotal()
      requires Valid()
      ensures reconnectAttempts <= MaxReconnectAttempts
      ensures Sum(delays) == 1000 * reconnectAttempts * (reconnectAttempts + 1)
      ensures Sum(delays) <= 30000
    {
      BackoffTotal(reconnectAttempts);
      var k := reconnectAttempts;
      assert k * (k + 1) <= 30 by {
        assert k <= 5;
        assert k + 1 <= 6;
        assert k * (k + 1) <= 5 * (k + 1);
      }
    }

    /** self-hosted-chat.js:5-13: the socket is opened but not yet connected. */
    constructor ()
      ensures Valid()
      ensures messages == [] && staffStatus == StaffStatus(false, None)
      ensures reconnectAttempts == 0 && !connected
    {
      messages := [];
      staffStatus := StaffStatus(false, None);
      reconnectAttempts := 0;
      connected := false;
      delays := [];
    }

    /** The `connect` event (self-hosted-chat.js:32-36). */
    method OnConnect()
      requires Valid()
      modifies this
      ensures Valid()
      ensures connected && reconnectAttempts == 0
      ensures messages == old(messages) && staffStatus == old(staffStatus)
    {
      connected := true;
      reconnectAttempts := 0;
      delays := [];
    }

    /** self-hosted-chat.js:70-81: below the limit the counter goes up by one
        and a reconnect is scheduled after `2000 * reconnectAttempts` ms; at
        the limit nothing changes and nothing is scheduled. */
    method AttemptReconnect() returns (delay: Option<nat>)
      requires Valid()
      modifies this
      ensures Valid()
      ensures old(reconnectAttempts) < MaxReconnectAttempts ==>
        reconnectAttempts == old(reconnectAttempts) + 1 && delay == Some(BackoffStepMs * reconnectAttempts)
        && delays == old(delays) + [delay.value]
      ensures old(reconnectAttempts) >= MaxReconnectAttempts ==>
        reconnectAttempts == old(reconnectAttempts) && delay == None && delays == old(delays)
      ensures connected == old(connected) && messages == old(messages) && staffStatus == old(staffStatus)
    {
      if reconnectAttempts < MaxReconnectAttempts {
        reconnectAttempts := reconnectAttempts + 1;
        delay := Some(BackoffStepMs * reconnectAttempts);
        delays := delays + [delay.value];
      } else {
        delay := None;
      }
    }

    /** The `disconnect` event (self-hosted-chat.js:38-42). */
    method OnDisconnect() returns (delay: Option<nat>)
      requires Valid()
      modifies this
      ensures Valid()
      ensures !connected
      ensures old(reconnectAttempts) < MaxReconnectAttempts ==>
        reconnectAttempts == old(reconnectAttempts) + 1 && delay == Some(BackoffStepMs * reconnectAttempts)
      ensures old(reconnectAttempts) >= MaxReconnectAttempts ==>
        reconnectAttempts == old(reconnectAttempts) && delay == None
      ensures messages == old(messages) && staffStatus == old(staffStatus)
    {
      connected := false;
      delay := AttemptReconnect();
    }

    /** The timer scheduled by `AttemptReconnect` fires (self-hosted-chat.js:75-77):
        `connect()` stores a fresh socket that has not connected yet
        (self-hosted-chat.js:15-21), so the client is offline until `OnConnect`. */
    method ReconnectTimerFired()
      requires Valid()
      modifies this
      ensures Valid()
      ensures !connected
      ensures reconnectAttempts == old(reconnectAttempts)
      ensures messages == old(messages) && staffStatus == old(staffStatus)
    {
      connected := false;
    }

    /** The `messages` event (self-hosted-chat.js:50-54): the history is replaced. */
    method OnHistory(history: seq<ChatMessage>)
      requires Valid()
      modifies this
      ensures Valid()
      ensures messages == history
      ensures connected == old(connected) && reconnectAttempts == old(reconnectAttempts)
      ensures staffStatus == old(staffStatus)
    {
      messages := history;
    }

    /** The `newMessage` event (self-hosted-chat.js:56-60): appended at the end. */
    method OnNewMessage(message: ChatMessage)
      requires Valid()
      modifies this
      ensures Valid()
      ensures messages == old(messages) + [message]
      ensures connected == old(connected) && reconnectAttempts == old(reconnectAttempts)
      ensures staffStatus == old(staffStatus)
    {
      messages := messages + [message];
    }

    /** The `staffStatusUpdate` event (self-hosted-chat.js:63-67). */
    method OnStaffStatusUpdate(status: StaffStatus)
      requires Valid()
      modifies this
      ensures Valid()
      ensures staffStatus == status
      ensures connected == old(connected) && reconnectAttempts == old(reconnectAttempts)
      ensures messages == old(messages)
    {
      staffStatus := status;
    }

    /** self-hosted-chat.js:83-98: nothing is emitted unless connected. */
    method SendMessage(text: string, sender: string, senderType: string, now: Time)
      returns (emitted: Option<ChatMessage>)
      ensures emitted.Some? <==> connected
      ensures connected ==> emitted.value == ChatMessage(text, sender, senderType, now)
    {
      if !connected {
        return None;
      }
      emitted := Some(ChatMessage(text, sender, senderType, now));
    }

    /** self-hosted-chat.js:100-113: the same guard for a staff-status update. */
    method UpdateStaffStatus(isOnline: bool, staffName: Option<string>) returns (emitted: Option<StaffStatus>)
      ensures emitted.Some? <==> connected
      ensures connected ==> emitted.value == StaffStatus(isOnline, staffName)
    {
      if !connected {
        return None;
      }
      emitted := Some(StaffStatus(isOnline, staffName));
    }
  }
}
