/** The gateway as it works: its maps and queue updated message by message. */
module Gateway {
  import opened LedgerTypes
  import opened Services
  import opened Steps
  import opened LedgerStore
  import opened Redelivery
  import opened StartRules
  import opened Reporting
  import opened Heartbeat
  import opened ServiceCalls

  /** What the environment decides about one handling: database up, tag update stored. */
  datatype Fate = Fate(up: bool, stored: bool)

  /** The queued messages, delivered in the order of their arrival. */
  function Queued(pending: seq<Message>, fates: seq<Fate>, now: Time): (items: seq<Item>)
    requires |fates| == |pending|
  {
    seq(|pending|, i requires 0 <= i < |pending| => Deliver(pending[i], now, fates[i].up, fates[i].stored))
  }

  /** What signalAbort is called with. */
  datatype AbortSignal = AbortSignal(op: Id, ok: bool)

  /** A decoded status message; `word` is its status, None if it is neither ONLINE nor OFFLINE. */
  datatype StatusMessage = StatusMessage(
    topicDevice: Id, deviceId: Id, heartbeat: bool, word: Option<bool>, lastSeen: Time)

  class MqttGateway {
    const service: OperationService
    const heartbeatTimeout: Time
    var handlerRegistered: bool
    var pending: seq<Message>
    var seenMessages: map<EventKey, Time>
    var deviceStates: map<Id, DeviceState>

    constructor (service: OperationService, heartbeatTimeout: Time)
      ensures this.service == service && this.heartbeatTimeout == heartbeatTimeout
      ensures !handlerRegistered && pending == [] && seenMessages == map[] && deviceStates == map[]
    {
      this.service := service;
      this.heartbeatTimeout := heartbeatTimeout;
      handlerRegistered, pending, seenMessages, deviceStates := false, [], map[], map[];
    }

    ghost function State(): Gate
      reads this, service.ledger
    {
      Gate(service.ledger.Tables(), seenMessages)
    }

    // ----- events ---------------------------------------------------------------------------

    method MarkMessageSeen(key: EventKey, now: Time)
      modifies this`seenMessages
      ensures seenMessages == Marked(old(seenMessages), key, now)
      ensures var marked := old(seenMessages)[key := now];
              forall k :: k in seenMessages <==> k in marked && (|marked| <= 4096 || marked[k] >= now - 3600 * 1000)
      ensures forall k | k in seenMessages :: seenMessages[k] == if k == key then now else old(seenMessages)[k]
    {
      seenMessages := seenMessages[key := now];
      if |seenMessages| > CACHE_LIMIT {
        ghost var marked := seenMessages;
        var cutoff := now - HOUR;
        var todo := seenMessages.Keys;
        while todo != {}
          invariant todo <= seenMessages.Keys
          invariant seenMessages == map k | k in marked && (k in todo || marked[k] >= cutoff) :: marked[k]
          decreases |todo|
        {
          var k :| k in todo;
          if seenMessages[k] < cutoff {
            seenMessages := seenMessages - {k};
          }
          todo := todo - {k};
        }
      }
    }

    /** The registered handler gets the message as an event. */
    method CallHandler(m: Message, stored: bool) returns (error: Option<Error>)
      requires WellFormed(m)
      modifies service.ledger
      ensures OnDeviceEvent(old(service.ledger.Tables()), EventFor(m), stored) == AsTx(error, service.ledger.Tables())
      ensures error.Some? ==> service.ledger.Tables() == old(service.ledger.Tables())
      ensures error.None? && m.op in old(service.ledger.ops) && Unfinished(old(service.ledger.ops)[m.op]) ==>
                ArrivedAs(old(service.ledger.Tables()), service.ledger.Tables(), m, stored)
    {
      ghost var before := service.ledger.Tables();
      error := service.OnDeviceEvent(EventFor(m), stored);
      if error.None? && m.op in before.ops && Unfinished(before.ops[m.op]) {
        Handles(before, service.ledger.Tables(), m, stored);
      }
    }

    /**
     * handleIncoming, for an event topic. A handled abort answer is passed on to signalAbort
     * (and from there on AbortProtocol follows it); without a handler nothing is handled.
     */
    method HandleIncoming(m: Message, now: Time, fate: Fate) returns (verdict: Verdict, signal: Option<AbortSignal>)
      modifies this`seenMessages, service.ledger
      ensures handlerRegistered ==> (verdict, State()) == Incoming(old(State()), m, now, fate.up, fate.stored)
      ensures !handlerRegistered ==> verdict in {Discarded, Duplicate} && State() == old(State())
      ensures verdict.Handled? <==> EventKey(m.deviceId, m.msgId) in seenMessages
                                    && EventKey(m.deviceId, m.msgId) !in old(seenMessages)
      ensures !(Addressed(m) && (SaysFailed(m) || TellsMatch(m) || m.stage.Some? || m.status.Some?)) ==>
                verdict.Discarded?
      ensures Addressed(m) && EventKey(m.deviceId, m.msgId) in old(seenMessages) ==> verdict in {Discarded, Duplicate}
      ensures !fate.up ==> !verdict.Handled?
      ensures !verdict.Handled? ==> State() == old(State())
      ensures verdict.Handled? && m.op in old(service.ledger.ops) && Unfinished(old(service.ledger.ops)[m.op]) ==>
                ArrivedAs(old(service.ledger.Tables()), service.ledger.Tables(), m, fate.stored)
      ensures signal == if verdict.Handled? && SaysAborted(m) then Some(AbortSignal(m.op, true))
                        else if verdict.Handled? && Says(m, EvAbortFailed) then Some(AbortSignal(m.op, false)) else None
    {
      signal := None;
      WellFormedIff(m);
      if !WellFormed(m) {
        return Discarded, None;
      }
      var ev := EventFor(m);
      if KeyOf(ev) in seenMessages {
        return Duplicate, None;
      }
      if !handlerRegistered {
        return Discarded, None;
      }
      if !fate.up {
        return Retryable, None;
      }
      var error := CallHandler(m, fate.stored);
      if error.Some? {
        return Retryable, None;
      }
      MessageKinds(m);
      MarkMessageSeen(KeyOf(ev), now);
      JustMarked(old(seenMessages), KeyOf(ev), now);
      if ev.etype == EvAbortAck || ev.etype == EvAbortFailed {
        signal := Some(AbortSignal(ev.op, ev.etype == EvAbortAck));
      }
      return Handled, signal;
    }

    /** processMessage: anything but a retryable failure is acknowledged. */
    method ProcessMessage(m: Message, now: Time, fate: Fate) returns (acknowledged: bool)
      requires handlerRegistered
      modifies this`seenMessages, service.ledger
      ensures State() == Incoming(old(State()), m, now, fate.up, fate.stored).1
      ensures acknowledged == !Incoming(old(State()), m, now, fate.up, fate.stored).0.Retryable?
    {
      var verdict, signal := HandleIncoming(m, now, fate);
      return verdict != Retryable;
    }

    /** onMessage: before a handler is registered an event is kept, unacknowledged. */
    method OnMessage(m: Message, now: Time, fate: Fate) returns (acknowledged: bool)
      modifies this, service.ledger
      ensures handlerRegistered == old(handlerRegistered) && deviceStates == old(deviceStates)
      ensures !handlerRegistered ==> pending == old(pending) + [m] && State() == old(State()) && !acknowledged
      ensures handlerRegistered ==>
                && pending == old(pending)
                && State() == Incoming(old(State()), m, now, fate.up, fate.stored).1
                && acknowledged == !Incoming(old(State()), m, now, fate.up, fate.stored).0.Retryable?
    {
      if !handlerRegistered {
        pending := pending + [m];
        return false;
      }
      acknowledged := ProcessMessage(m, now, fate);
    }

    /** RegisterEventHandler: the queue is worked off in order and leaves nothing behind. */
    method RegisterEventHandler(fates: seq<Fate>, now: Time)
      requires |fates| == |pending|
      modifies this, service.ledger
      ensures handlerRegistered && pending == [] && deviceStates == old(deviceStates)
      ensures State() == Play(old(State()), Queued(old(pending), fates, now))
    {
      handlerRegistered := true;
      var queue := pending;
      pending := [];
      ghost var items := Queued(queue, fates, now);
      assert items[..0] == [];
      for i := 0 to |queue|
        invariant handlerRegistered && pending == [] && deviceStates == old(deviceStates)
        invariant State() == Play(old(State()), items[..i])
      {
        var acknowledged := ProcessMessage(queue[i], now, fates[i]);
        assert items[..i + 1][..i] == items[..i];
        assert items[..i + 1][i] == Deliver(queue[i], now, fates[i].up, fates[i].stored);
      }
      assert items[..|queue|] == items;
    }

    // ----- liveness ----------------------------------------------------------------------------

    /**
     * handleStatus. From then on the device is answered by this message and its age, others as
     * before; what is known is kept even if the sink fails, and the message comes again.
     */
    method HandleStatus(m: StatusMessage, at: Time, sinkUp: bool) returns (verdict: Verdict)
      modifies this`deviceStates
      ensures m.deviceId == BLANK || m.deviceId != m.topicDevice || (!m.heartbeat && m.word.None?) ==>
                verdict == Discarded && deviceStates == old(deviceStates)
      ensures m.deviceId != BLANK && m.deviceId == m.topicDevice && (m.heartbeat || m.word.Some?) ==>
                && verdict == (if sinkUp then Handled else Retryable)
                && forall t :: StatusAt(deviceStates, m.deviceId, t, heartbeatTimeout)
                            == Answer((m.heartbeat || m.word == Some(true)) && t - at <= heartbeatTimeout,
                                      Some(m.lastSeen))
      ensures forall d, t | d != m.deviceId ::
                StatusAt(deviceStates, d, t, heartbeatTimeout) == StatusAt(old(deviceStates), d, t, heartbeatTimeout)
    {
      if m.deviceId == BLANK || m.deviceId != m.topicDevice {
        return Discarded;
      }
      var online := m.word;
      if m.heartbeat {
        online := Some(true);
      }
      if online.None? {
        return Discarded;
      }
      deviceStates := deviceStates[m.deviceId := DeviceState(online.value, m.lastSeen, at)];
      return if sinkUp then Handled else Retryable;
    }

    method GetDeviceStatus(device: Id, t: Time) returns (answer: Answer)
      ensures answer == StatusAt(deviceStates, device, t, heartbeatTimeout)
      ensures device !in deviceStates ==> answer == Answer(false, None)
    {
      if device !in deviceStates {
        return Answer(false, None);
      }
      var state := deviceStates[device];
      var online := state.online && t - state.receivedAt <= heartbeatTimeout;
      return Answer(online, Some(state.lastSeen));
    }

    /** expireStaleDevices: the devices to report, each once. */
    method ExpireStaleDevices(now: Time) returns (stale: seq<Id>)
      modifies this`deviceStates
      ensures deviceStates == Demoted(old(deviceStates), now, heartbeatTimeout)
      ensures forall d :: d in stale <==> d in SilentIds(old(deviceStates), now, heartbeatTimeout)
      ensures forall i, j | 0 <= i < j < |stale| :: stale[i] != stale[j]
    {
      ghost var before := deviceStates;
      var todo := deviceStates.Keys;
      stale := [];
      while todo != {}
        invariant todo <= before.Keys && deviceStates.Keys == before.Keys
        invariant forall d | d in before ::
          deviceStates[d] == if d !in todo && Silent(before[d], now, heartbeatTimeout)
                             then before[d].(online := false) else before[d]
        invariant forall d :: d in stale <==> d in before && d !in todo && Silent(before[d], now, heartbeatTimeout)
        invariant forall i, j | 0 <= i < j < |stale| :: stale[i] != stale[j]
        decreases |todo|
      {
        var d :| d in todo;
        todo := todo - {d};
        var state := deviceStates[d];
        if state.online && now - state.receivedAt > heartbeatTimeout {
          deviceStates := deviceStates[d := state.(online := false)];
          stale := stale + [d];
        }
      }
    }
  }
}
