/**
 * Device liveness: what the last message said, how old it is, and the sweep that turns
 * silent devices offline without anyone asking being able to tell.
 */
module Heartbeat {
  import opened LedgerTypes

  datatype DeviceState = DeviceState(online: bool, lastSeen: Time, receivedAt: Time)

  /** GetDeviceStatus: online or not, and when the device was last seen. */
  datatype Answer = Answer(online: bool, lastSeen: Option<Time>)

  function StatusAt(states: map<Id, DeviceState>, device: Id, t: Time, limit: Time): Answer {
    if device !in states then Answer(false, None)
    else Answer(states[device].online && t - states[device].receivedAt <= limit, Some(states[device].lastSeen))
  }

  predicate Silent(state: DeviceState, now: Time, limit: Time) {
    state.online && now - state.receivedAt > limit
  }

  function SilentIds(states: map<Id, DeviceState>, now: Time, limit: Time): set<Id> {
    set d | d in states && Silent(states[d], now, limit)
  }

  /** The sweep: exactly the silent devices are marked offline. */
  function Demoted(states: map<Id, DeviceState>, now: Time, limit: Time): map<Id, DeviceState> {
    map d | d in states :: if Silent(states[d], now, limit) then states[d].(online := false) else states[d]
  }

  /** A sweep at `now` changes no answer given at `now` or later. */
  lemma SweepInvisible(states: map<Id, DeviceState>, now: Time, limit: Time, device: Id, t: Time)
    requires now <= t
    ensures StatusAt(Demoted(states, now, limit), device, t, limit) == StatusAt(states, device, t, limit)
  {
  }

  // ----- runs -----------------------------------------------------------------------------

  datatype Beat = Heard(device: Id, online: bool, lastSeen: Time, at: Time) | Sweep(now: Time)

  function Monitor(beats: seq<Beat>, limit: Time): map<Id, DeviceState> {
    if beats == [] then map[]
    else
      var before := Monitor(beats[..|beats| - 1], limit);
      match beats[|beats| - 1]
      case Heard(d, online, lastSeen, at) => before[d := DeviceState(online, lastSeen, at)]
      case Sweep(now) => Demoted(before, now, limit)
  }

  function WithoutSweeps(beats: seq<Beat>): seq<Beat> {
    if beats == [] then []
    else WithoutSweeps(beats[..|beats| - 1]) + if beats[|beats| - 1].Heard? then [beats[|beats| - 1]] else []
  }

  /** Answers are the same as if no sweep had ever run. */
  lemma {:induction false} SweepsInvisible(beats: seq<Beat>, limit: Time, device: Id, t: Time)
    requires forall i | 0 <= i < |beats| && beats[i].Sweep? :: beats[i].now <= t
    ensures StatusAt(Monitor(beats, limit), device, t, limit)
            == StatusAt(Monitor(WithoutSweeps(beats), limit), device, t, limit)
  {
    if beats != [] {
      var early := beats[..|beats| - 1];
      var last := beats[|beats| - 1];
      SweepsInvisible(early, limit, device, t);
      var plain := WithoutSweeps(early);
      if last.Sweep? {
        SweepInvisible(Monitor(early, limit), last.now, limit, device, t);
        assert WithoutSweeps(beats) == plain;
      } else {
        assert WithoutSweeps(beats) == plain + [last] && (plain + [last])[..|plain|] == plain;
      }
    }
  }

  // ----- reports to the status sink --------------------------------------------------------

  /** The position of the latest message of the device, -1 if there was none. */
  function LastHeard(beats: seq<Beat>, device: Id): (i: int)
    ensures -1 <= i < |beats|
    ensures i >= 0 ==> beats[i].Heard? && beats[i].device == device
  {
    if beats == [] then -1
    else if beats[|beats| - 1].Heard? && beats[|beats| - 1].device == device then |beats| - 1
    else LastHeard(beats[..|beats| - 1], device)
  }

  /** How often the device has been reported as silent since its latest message. */
  function Reports(beats: seq<Beat>, limit: Time, device: Id): nat {
    if beats == [] then 0
    else
      var early := beats[..|beats| - 1];
      match beats[|beats| - 1]
      case Heard(d, _, _, _) => if d == device then 0 else Reports(early, limit, device)
      case Sweep(now) =>
        Reports(early, limit, device) + if device in SilentIds(Monitor(early, limit), now, limit) then 1 else 0
  }

  /** After its latest message, at position `i`, some sweep came too late for the device. */
  predicate SweptLate(beats: seq<Beat>, limit: Time, i: int)
    requires 0 <= i < |beats| && beats[i].Heard?
  {
    exists j | i < j < |beats| :: beats[j].Sweep? && beats[j].now - beats[i].at > limit
  }

  predicate FellSilent(beats: seq<Beat>, limit: Time, device: Id) {
    var i := LastHeard(beats, device);
    i >= 0 && beats[i].online && SweptLate(beats, limit, i)
  }

  lemma LateMore(beats: seq<Beat>, limit: Time, i: int)
    requires beats != [] && 0 <= i < |beats| - 1 && beats[i].Heard?
    ensures var last := beats[|beats| - 1];
            SweptLate(beats, limit, i)
            <==> SweptLate(beats[..|beats| - 1], limit, i) || (last.Sweep? && last.now - beats[i].at > limit)
  {
    var early := beats[..|beats| - 1];
    if SweptLate(early, limit, i) {
      var j :| i < j < |early| && early[j].Sweep? && early[j].now - early[i].at > limit;
      assert beats[j].Sweep? && beats[j].now - beats[i].at > limit;
    }
    if SweptLate(beats, limit, i) {
      var j :| i < j < |beats| && beats[j].Sweep? && beats[j].now - beats[i].at > limit;
      if j < |early| {
        assert early[j].Sweep?;
      }
    }
  }

  /**
   * A device is reported once, no matter how many sweeps find it silent, and exactly if one
   * does; a new message starts over.
   */
  lemma {:induction false} OneReportPerSilence(beats: seq<Beat>, limit: Time, device: Id)
    ensures Reports(beats, limit, device) == if FellSilent(beats, limit, device) then 1 else 0
    ensures device in Monitor(beats, limit) <==> LastHeard(beats, device) >= 0
    ensures var i := LastHeard(beats, device);
            i >= 0 ==> Monitor(beats, limit)[device]
                       == DeviceState(beats[i].online && !SweptLate(beats, limit, i), beats[i].lastSeen, beats[i].at)
  {
    if beats != [] {
      var early := beats[..|beats| - 1];
      OneReportPerSilence(early, limit, device);
      var i := LastHeard(beats, device);
      if 0 <= i < |beats| - 1 {
        assert i == LastHeard(early, device);
        LateMore(beats, limit, i);
      }
    }
  }
}
