/** The Slack agent's buttons: which pod an event names, and the new deletion time it sends. */
module Extender {
  import opened Base
  import RunnerPod

  const EXTENSION: Duration := 2 * HOUR
  const LIMIT: Duration := 6 * HOUR

  /** The deadline one click on "extend" asks for: one extension more than the old deadline, or than now
      without one, and the limit instead if that is less. The clock is read once for a pod without a
      deadline and again for the limit. */
  function Extended(deadline: Option<Time>, now: Time, later: Time): (t: Time)
    ensures t <= later + 6 * HOUR
    ensures deadline.Some? ==> t <= deadline.value + 2 * HOUR && (t < deadline.value + 2 * HOUR ==> t == later + 6 * HOUR)
    ensures deadline.None? && now <= later ==> t == now + 2 * HOUR
  {
    Min((if deadline.Some? then deadline.value else now) + EXTENSION, later + LIMIT)
  }

  /** A click moves a deadline that is set earlier exactly when it lay beyond the limit. */
  lemma ExtendKeepsSetDeadline(d: Time, now: Time, later: Time)
    ensures Extended(Some(d), now, later) >= d <==> d <= later + LIMIT
  {
  }

  /** Without a deadline of its own a finished pod lives until F + D, and then a click may shorten
      that life: it keeps it exactly when F + D is at most one extension away. */
  lemma ExtendKeepsUnsetDeadline(finishedAt: Time, extendDuration: Duration, now: Time)
    ensures Extended(None, now, now) >= finishedAt + extendDuration <==>
              finishedAt + extendDuration <= now + EXTENSION
  {
  }

  function Clicks(d: Time, times: seq<Time>): Time {
    if times == [] then d
    else
      var n := |times| - 1;
      Extended(Some(Clicks(d, times[..n])), times[n], times[n])
  }

  ghost predicate Monotone(times: seq<Time>) {
    forall i, j :: 0 <= i <= j < |times| ==> times[i] <= times[j]
  }

  /** Any sequence of clicks, from any deadline: the first click moves it back exactly when it lay beyond
      the limit, no later click ever does, each adds at most one extension, and none passes the limit. */
  lemma {:induction false} ClicksOnlyExtend(d: Time, times: seq<Time>)
    requires Monotone(times)
    ensures Clicks(d, times) <= d + |times| * EXTENSION
    ensures times != [] ==> Clicks(d, times) <= times[|times| - 1] + LIMIT
    ensures times != [] ==> (d <= Clicks(d, times[..1]) <==> d <= times[0] + LIMIT)
    ensures forall n :: 1 <= n <= |times| ==> Clicks(d, times[..n]) <= Clicks(d, times)
  {
    if times != [] {
      var n := |times| - 1;
      ClicksOnlyExtend(d, times[..n]);
      assert times[..1][..0] == [] && times[..1][0] == times[0];
      assert Clicks(d, times[..1]) == Extended(Some(Clicks(d, times[..1][..0])), times[0], times[0]);
      forall k | 1 <= k <= |times|
        ensures Clicks(d, times[..k]) <= Clicks(d, times)
      {
        if k <= n {
          assert times[..n][..k] == times[..k];
        } else {
          assert times[..k] == times;
        }
      }
    }
  }

  datatype Action = Action(blockId: string, actionId: string, value: string)

  datatype Event = Event(blockActions: bool, actions: seq<Action>)

  const EXTEND_BLOCK := "slack-agent-extend"
  const EXTEND_BUTTON := "slack-agent-extend-button"
  const DELETE_BLOCK := "slack-agent-delete"
  const DELETE_BUTTON := "slack-agent-delete-button"

  /** The event is one click on the button that a notification shows for extending a pod. */
  predicate IsExtendButton(e: Event) {
    e.blockActions && |e.actions| == 1
    && e.actions[0].blockId == "slack-agent-extend" && e.actions[0].actionId == "slack-agent-extend-button"
  }

  predicate IsDeleteButton(e: Event) {
    e.blockActions && |e.actions| == 1
    && e.actions[0].blockId == "slack-agent-delete" && e.actions[0].actionId == "slack-agent-delete-button"
  }

  // Which button was clicked, as the agent finds out.
  method IsButton(e: Event, block: string, button: string) returns (hit: bool)
    ensures hit <==> e.blockActions && |e.actions| == 1 && e.actions[0] == Action(block, button, e.actions[0].value)
  {
    if !e.blockActions {
      return false;
    }
    if |e.actions| != 1 {
      return false;
    }
    if e.actions[0].blockId != block {
      return false;
    }
    if e.actions[0].actionId != button {
      return false;
    }
    return true;
  }

  function PodOf(value: string): Option<(string, string)> {
    var split := Split(value, '/');
    if |split| != 2 then None else Some((split[0], split[1]))
  }

  /** The button of a notification carries namespace/name; the agent gets the same pod back, and
      accepts nothing else. */
  lemma PodOfInvertsNamespacedName(value: string)
    ensures PodOf(value).Some? ==> var (ns, n) := PodOf(value).value;
              NamespacedName(ns, n) == value && '/' !in ns && '/' !in n
    ensures forall ns: string, n: string :: '/' !in ns && '/' !in n && value == NamespacedName(ns, n) ==>
              PodOf(value) == Some((ns, n))
  {
    JoinOfSplit(value, '/');
    var split := Split(value, '/');
    if |split| == 2 {
      assert split[0] in split && split[1] in split;
      assert Join(split[1..], '/') == split[1];
      assert value == split[0] + ['/'] + split[1];
    }
    forall ns: string, n: string | '/' !in ns && '/' !in n && value == NamespacedName(ns, n)
      ensures PodOf(value) == Some((ns, n))
    {
      SplitOfPair(ns, n, '/');
    }
  }

  // What the agent does in answer to an event: it gives up, or it sends the pod a deadline (in its
  // development mode it only acts as if) and announces that this succeeded or failed.
  datatype Reaction = Nothing | Failed | Answered(namespace: string, name: string, deadline: Time, put: bool, success: bool)

  /** A failed PUT is announced as a failure; only a message that Slack does not take is an error. */
  method PutDeletionTime(namespace: string, name: string, tm: Time, devMode: bool, putOk: bool, posted: bool)
    returns (r: Reaction, err: bool)
    ensures r == Answered(namespace, name, tm, !devMode, putOk)
    ensures err <==> !posted
  {
    var success := true;
    var put := false;
    if !devMode {
      put := true;
      if !putOk {
        success := false;
      }
    } else {
      success := putOk;
    }
    r := Answered(namespace, name, tm, put, success);
    err := !posted;
  }

  /** One interactive event. found and status are what the API server and the pod answer, putOk is the
      answer to the PUT, or the toss of a coin in the development mode, and posted tells whether Slack
      took the message. An error ends the loop over the events. */
  method Handle(e: Event, devMode: bool, found: bool, status: Option<RunnerPod.Status>, putOk: bool, posted: bool,
                now: Time, later: Time)
    returns (r: Reaction, err: bool)
    ensures r.Nothing? <==> !IsExtendButton(e) && !IsDeleteButton(e)
    ensures r.Answered? ==>
              && found && PodOf(e.actions[0].value) == Some((r.namespace, r.name))
              && NamespacedName(r.namespace, r.name) == e.actions[0].value
              && r.put == !devMode && r.success == putOk
    ensures r.Answered? && IsDeleteButton(e) ==> r.deadline == ZERO_TIME
    ensures r.Answered? && IsExtendButton(e) ==>
              status.Some? && r.deadline == Extended(status.value.deletionTime, now, later)
    ensures IsExtendButton(e) ==>
              (r.Failed? <==> PodOf(e.actions[0].value).None? || !found || status.None?)
    ensures IsDeleteButton(e) ==> (r.Failed? <==> PodOf(e.actions[0].value).None? || !found)
    ensures err <==> r.Failed? || (r.Answered? && !posted)
  {
    assert EXTEND_BLOCK != DELETE_BLOCK by {
      assert EXTEND_BLOCK[12] != DELETE_BLOCK[12];
    }
    var extending := IsButton(e, EXTEND_BLOCK, EXTEND_BUTTON);
    var deleting := IsButton(e, DELETE_BLOCK, DELETE_BUTTON);
    if extending {
      PodOfInvertsNamespacedName(e.actions[0].value);
      var pod := PodOf(e.actions[0].value);
      if pod.None? || !found || status.None? {
        return Failed, true;
      }
      var tm := if status.value.deletionTime.Some? then status.value.deletionTime.value else now;
      tm := tm + EXTENSION;
      var limit := later + LIMIT;
      if tm > limit {
        tm := limit;
      }
      r, err := PutDeletionTime(pod.value.0, pod.value.1, tm, devMode, putOk, posted);
    } else if deleting {
      PodOfInvertsNamespacedName(e.actions[0].value);
      var pod := PodOf(e.actions[0].value);
      if pod.None? || !found {
        return Failed, true;
      }
      r, err := PutDeletionTime(pod.value.0, pod.value.1, ZERO_TIME, devMode, putOk, posted);
    } else {
      return Nothing, false;
    }
  }
}
