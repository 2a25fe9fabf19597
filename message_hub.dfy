/*
 * The "google-cloud-iot message-hub" node: outbound messages go to the
 * device's MQTT connection (if it is in the connection pool and
 * connected) or to an HTTP call, and are then forwarded with a
 * send_status flag; inbound broker messages are forwarded as
 * {topic, payload}; closing the node disconnects MQTT. The connection
 * helpers (mqttConnect, transmitMQTT, transmitHTTP, mqttDisconnect) are
 * uninterpreted effects recorded in a log, in the order the node issues
 * them; whether a transmit call returns or throws is a parameter. Every
 * handler is one atomic step.
 */
module MessageHub {
  import opened JsValues

  const MQTT: string := "MQTT"
  const HTTP: string := "HTTP"

  /** The status shown under the node: none yet, "connected" or "disconnected". */
  datatype Status = Unset | Connected | Disconnected

  /** A connection-pool value: a stored null, or an MQTT client with its connected flag. */
  datatype PoolEntry = NullEntry | Client(connected: bool)

  /** The message properties the node reads or writes; sendStatus None means the property is absent. */
  datatype Message = Message(payload: Payload, topic: Option<string>, sendStatus: Option<bool>)

  /** A 'message' event of the device's MQTT client, with the client's connected flag at that moment. */
  datatype BrokerMessage = BrokerMessage(clientConnected: bool, topic: string, message: seq<byte>)

  /** What the node does to the outside world, in order. */
  datatype Effect =
    | ShowStatus(status: Status)                                     // node.status(...)
    | TransmitMqtt(payload: Payload, deviceId: string, topic: Option<string>)
    | TransmitHttp(payload: Payload, deviceId: string)
    | MqttConnect(deviceId: string)
    | MqttDisconnect(deviceId: string)
    | Send(msg: Message)                                             // node.send(...)

  /**
   * How a transmit call ends: it returns (its promise resolves), or it
   * throws (its promise rejects), which ends the input handler there.
   */
  datatype CallOutcome = Returned | Threw

  /** `null != connectionPool.get(id) && ….connected`: a missing key reads as undefined. */
  predicate IsLive(pool: map<string, PoolEntry>, deviceId: string)
  {
    deviceId in pool && pool[deviceId].Client? && pool[deviceId].connected
  }

  /** Whether an input calls a transmit helper: MQTT to a live client, or HTTP. */
  predicate Transmits(transport: string, deviceId: string, pool: map<string, PoolEntry>)
  {
    (transport == MQTT && IsLive(pool, deviceId)) || transport == HTTP
  }

  function StatusOf(connected: bool): Status
  {
    if connected then Connected else Disconnected
  }

  /** The status on display after a log of effects: the last one shown, if any. */
  function DisplayedStatus(log: seq<Effect>): Status
  {
    if log == [] then Unset
    else if log[|log| - 1].ShowStatus? then log[|log| - 1].status
    else DisplayedStatus(log[..|log| - 1])
  }

  /** Whether a log shows any status. */
  predicate ShowsStatus(log: seq<Effect>)
  {
    exists k :: 0 <= k < |log| && log[k].ShowStatus?
  }

  /** The messages a log forwards downstream, in order. */
  function Forwarded(log: seq<Effect>): seq<Message>
  {
    if log == [] then []
    else Forwarded(log[..|log| - 1]) + (if log[|log| - 1].Send? then [log[|log| - 1].msg] else [])
  }

  /** The transmit calls (MQTT or HTTP) of a log, in order. */
  function Transmissions(log: seq<Effect>): seq<Effect>
  {
    if log == [] then []
    else
      var e := log[|log| - 1];
      Transmissions(log[..|log| - 1]) + (if e.TransmitMqtt? || e.TransmitHttp? then [e] else [])
  }

  /**
   * The effects of one input message (OnInput), given the transport,
   * device, pool and how a transmit call ends. A status is shown first,
   * and only under MQTT; nothing is forwarded before the last effect; the
   * message is forwarded on every path, the MQTT branch without a live
   * client included, unless a transmit call throws.
   */
  function InputEffects(transport: string, deviceId: string, pool: map<string, PoolEntry>,
                        msg: Message, outcome: CallOutcome): (r: seq<Effect>)
    ensures r != []
    ensures r[0].ShowStatus? <==> transport == MQTT
    ensures forall k :: 0 < k < |r| ==> !r[k].ShowStatus?
    ensures forall k :: 0 <= k < |r| - 1 ==> !r[k].Send?
    ensures r[|r| - 1].Send? <==> !(Transmits(transport, deviceId, pool) && outcome.Threw?)
  {
    var m := msg.(sendStatus := Some(false));
    if transport == MQTT then
      if IsLive(pool, deviceId) then
        [ShowStatus(Connected), TransmitMqtt(m.payload, deviceId, m.topic)]
        + (if outcome.Returned? then [Send(m.(sendStatus := Some(true)))] else [])
      else
        [ShowStatus(Disconnected), Send(m)]
    else if transport == HTTP then
      [TransmitHttp(m.payload, deviceId)] + (if outcome.Returned? then [Send(m)] else [])
    else
      [Send(m)]
  }

  /** The effects of closing the node (OnClose): a disconnect if and only if the transport is MQTT, and nothing else. */
  function CloseEffects(transport: string, deviceId: string): (r: seq<Effect>)
    ensures MqttDisconnect(deviceId) in r <==> transport == MQTT
    ensures forall e :: e in r ==> e == MqttDisconnect(deviceId)
  {
    if transport == MQTT then [MqttDisconnect(deviceId)] else []
  }

  /** The effects of the MQTT connection promise resolving with a client: "connected" is shown only for a connected client. */
  function ResolvedEffects(clientConnected: bool): (r: seq<Effect>)
    ensures ShowStatus(Connected) in r <==> clientConnected
    ensures forall e :: e in r ==> e == ShowStatus(Connected)
  {
    if clientConnected then [ShowStatus(Connected)] else []
  }

  /**
   * The effects of one inbound broker message: it forwards exactly
   * {topic, payload}, unchanged and without send_status, and leaves the
   * client's connection state on display.
   */
  function InboundEffects(event: BrokerMessage): (r: seq<Effect>)
    ensures Forwarded(r) == [Message(Bytes(event.message), Some(event.topic), None)]
    ensures ShowsStatus(r) && DisplayedStatus(r) == StatusOf(event.clientConnected)
  {
    var r := [ShowStatus(StatusOf(event.clientConnected)),
              Send(Message(Bytes(event.message), Some(event.topic), None))];
    NoSendsForwardNothing(r[..1]);
    assert r[..1] == [r[0]];
    r
  }

  /** The effects of a series of inbound broker messages, handled one after another. */
  function InboundTrace(events: seq<BrokerMessage>): seq<Effect>
  {
    if events == [] then []
    else InboundTrace(events[..|events| - 1]) + InboundEffects(events[|events| - 1])
  }

  /**
   * Appending effects changes the displayed status only if they show a
   * status, and then to the last one they show.
   */
  lemma {:induction false} DisplayedStatusAppend(log: seq<Effect>, more: seq<Effect>)
    ensures DisplayedStatus(log + more)
            == if ShowsStatus(more) then DisplayedStatus(more) else DisplayedStatus(log)
    decreases |more|
  {
    if more == [] {
      assert log + more == log;
    } else {
      var init := more[..|more| - 1];
      assert (log + more)[..|log + more| - 1] == log + init;
      if !more[|more| - 1].ShowStatus? {
        DisplayedStatusAppend(log, init);
        assert ShowsStatus(more) <==> ShowsStatus(init) by {
          if ShowsStatus(init) {
            var k :| 0 <= k < |init| && init[k].ShowStatus?;
            assert more[k] == init[k];
          }
        }
      } else {
        assert ShowsStatus(more) by {
          assert more[|more| - 1].ShowStatus?;
        }
      }
    }
  }

  /** Forwarding distributes over concatenation of logs. */
  lemma {:induction false} ForwardedAppend(log: seq<Effect>, more: seq<Effect>)
    ensures Forwarded(log + more) == Forwarded(log) + Forwarded(more)
    decreases |more|
  {
    if more == [] {
      assert log + more == log;
    } else {
      var init := more[..|more| - 1];
      assert (log + more)[..|log + more| - 1] == log + init;
      ForwardedAppend(log, init);
    }
  }

  /**
   * An input forwards exactly one message unless a transmit call throws,
   * and then none: the input itself with send_status set, true only over
   * MQTT to a live pool entry. Topic and payload are unchanged.
   */
  lemma InputForwarding(transport: string, deviceId: string, pool: map<string, PoolEntry>,
                        msg: Message, outcome: CallOutcome)
    ensures Forwarded(InputEffects(transport, deviceId, pool, msg, outcome))
            == if Transmits(transport, deviceId, pool) && outcome.Threw? then []
               else [msg.(sendStatus := Some(transport == MQTT && IsLive(pool, deviceId)))]
  {
    var effects := InputEffects(transport, deviceId, pool, msg, outcome);
    var n := |effects|;
    if effects[n - 1].Send? {
      NoSendsForwardNothing(effects[..n - 1]);
    } else {
      NoSendsForwardNothing(effects);
    }
  }

  /** A log without Send effects forwards nothing. */
  lemma {:induction false} NoSendsForwardNothing(log: seq<Effect>)
    requires forall k :: 0 <= k < |log| ==> !log[k].Send?
    ensures Forwarded(log) == []
    decreases |log|
  {
    if log != [] {
      NoSendsForwardNothing(log[..|log| - 1]);
    }
  }

  /**
   * Transmit calls of one input: exactly one transmitMQTT(payload,
   * deviceId, topic) over MQTT to a live pool entry, exactly one
   * transmitHTTP(payload, deviceId) over HTTP, and none otherwise.
   */
  lemma InputTransmissions(transport: string, deviceId: string, pool: map<string, PoolEntry>,
                           msg: Message, outcome: CallOutcome)
    ensures Transmissions(InputEffects(transport, deviceId, pool, msg, outcome))
            == if transport == MQTT && IsLive(pool, deviceId) then [TransmitMqtt(msg.payload, deviceId, msg.topic)]
               else if transport == HTTP then [TransmitHttp(msg.payload, deviceId)]
               else []
  {
    var effects := InputEffects(transport, deviceId, pool, msg, outcome);
    var n := |effects|;
    if Transmits(transport, deviceId, pool) {
      var t := if transport == MQTT then 1 else 0;
      assert effects[t] == (if transport == MQTT then TransmitMqtt(msg.payload, deviceId, msg.topic)
                            else TransmitHttp(msg.payload, deviceId));
      NoTransmissions(effects[..t]);
      assert effects[..t + 1][..t] == effects[..t];
      TransmissionsAppend(effects[..t + 1], effects[t + 1..]);
      assert effects == effects[..t + 1] + effects[t + 1..];
      NoTransmissions(effects[t + 1..]);
    } else {
      NoTransmissions(effects);
    }
  }

  /** A log without transmit calls has no transmissions. */
  lemma {:induction false} NoTransmissions(log: seq<Effect>)
    requires forall k :: 0 <= k < |log| ==> !log[k].TransmitMqtt? && !log[k].TransmitHttp?
    ensures Transmissions(log) == []
    decreases |log|
  {
    if log != [] {
      NoTransmissions(log[..|log| - 1]);
    }
  }

  /** Transmissions distribute over concatenation of logs. */
  lemma {:induction false} TransmissionsAppend(log: seq<Effect>, more: seq<Effect>)
    ensures Transmissions(log + more) == Transmissions(log) + Transmissions(more)
    decreases |more|
  {
    if more == [] {
      assert log + more == log;
    } else {
      var init := more[..|more| - 1];
      assert (log + more)[..|log + more| - 1] == log + init;
      TransmissionsAppend(log, init);
    }
  }

  /**
   * Status after one input: over MQTT, "connected" if the pool entry is
   * live and "disconnected" otherwise; with any other transport the status
   * on display does not change.
   */
  lemma InputStatus(log: seq<Effect>, transport: string, deviceId: string,
                    pool: map<string, PoolEntry>, msg: Message, outcome: CallOutcome)
    ensures DisplayedStatus(log + InputEffects(transport, deviceId, pool, msg, outcome))
            == if transport == MQTT then StatusOf(IsLive(pool, deviceId)) else DisplayedStatus(log)
  {
    var effects := InputEffects(transport, deviceId, pool, msg, outcome);
    DisplayedStatusAppend(log, effects);
    if transport == MQTT {
      var rest := effects[1..];
      assert effects == [effects[0]] + rest;
      assert !ShowsStatus(rest);
      DisplayedStatusAppend([effects[0]], rest);
      assert ShowsStatus(effects) by {
        assert effects[0].ShowStatus?;
      }
    } else {
      assert !ShowsStatus(effects);
    }
  }

  /**
   * Inbound broker messages are forwarded one for one and in order, each
   * as {topic, payload} with both unchanged and no send_status; afterwards
   * the status reflects the client's connected flag at the last message.
   */
  lemma {:induction false} InboundRelayInOrder(log: seq<Effect>, events: seq<BrokerMessage>)
    ensures |Forwarded(InboundTrace(events))| == |events|
    ensures forall k :: 0 <= k < |events| ==>
              Forwarded(InboundTrace(events))[k]
              == Message(Bytes(events[k].message), Some(events[k].topic), None)
    ensures events != [] ==>
              DisplayedStatus(log + InboundTrace(events)) == StatusOf(events[|events| - 1].clientConnected)
    decreases |events|
  {
    if events != [] {
      var init := events[..|events| - 1];
      var last := InboundEffects(events[|events| - 1]);
      InboundRelayInOrder(log, init);
      ForwardedAppend(InboundTrace(init), last);
      assert log + InboundTrace(events) == (log + InboundTrace(init)) + last;
      DisplayedStatusAppend(log + InboundTrace(init), last);
    }
  }

  /** A node instance: its configuration, the connection pool it reads, what it shows, and its effect log. */
  class MessageHubNode {
    const transport: string
    const deviceId: string
    var pool: map<string, PoolEntry>
    var status: Status
    var log: seq<Effect>

    /** The status on display is the last one the node has shown. */
    ghost predicate Valid()
      reads this
    {
      status == DisplayedStatus(log)
    }

    /**
     * Creating the node: under MQTT it shows "disconnected" and then
     * starts connecting the device.
     */
    constructor (transport: string, deviceId: string, pool: map<string, PoolEntry>)
      ensures Valid()
      ensures this.transport == transport && this.deviceId == deviceId && this.pool == pool
      ensures log == (if transport == MQTT then [ShowStatus(Disconnected), MqttConnect(deviceId)] else [])
      ensures status == (if transport == MQTT then Disconnected else Unset)
    {
      this.transport := transport;
      this.deviceId := deviceId;
      this.pool := pool;
      status := Unset;
      log := [];
      new;
      if transport == MQTT {
        ShowNodeStatus(Disconnected);
        Emit(MqttConnect(deviceId));
      }
    }

    /** The connection pool as iot-utils.js maintains it, changed between handler steps. */
    method UpdatePool(p: map<string, PoolEntry>)
      requires Valid()
      modifies this`pool
      ensures Valid()
      ensures pool == p && log == old(log) && status == old(status)
    {
      pool := p;
    }

    /** node.status(s). */
    method ShowNodeStatus(s: Status)
      requires Valid()
      modifies this`status, this`log
      ensures Valid()
      ensures status == s && log == old(log) + [ShowStatus(s)]
    {
      status := s;
      log := log + [ShowStatus(s)];
    }

    /** Any effect other than a status change. */
    method Emit(e: Effect)
      requires Valid() && !e.ShowStatus?
      modifies this`log
      ensures Valid()
      ensures log == old(log) + [e]
    {
      assert (log + [e])[..|log|] == log;
      log := log + [e];
    }

    /**
     * OnInput: route one message and forward it; the pool is only read.
     * A transmit call that throws ends the handler before the forward.
     */
    method OnInput(msg: Message, outcome: CallOutcome)
      requires Valid()
      modifies this`status, this`log
      ensures Valid()
      ensures pool == old(pool)
      ensures log == old(log) + InputEffects(transport, deviceId, pool, msg, outcome)
      ensures status == if transport == MQTT then StatusOf(IsLive(pool, deviceId)) else old(status)
    {
      var m := msg.(sendStatus := Some(false));
      if transport == MQTT {
        var client := if deviceId in pool then pool[deviceId] else NullEntry;
        if client.Client? && client.connected {
          ShowNodeStatus(Connected);
          Emit(TransmitMqtt(m.payload, deviceId, m.topic));
          if outcome.Threw? {
            return;
          }
          m := m.(sendStatus := Some(true));
        } else {
          ShowNodeStatus(Disconnected);
        }
      } else if transport == HTTP {
        Emit(TransmitHttp(m.payload, deviceId));
        if outcome.Threw? {
          return;
        }
      }
      Emit(Send(m));
    }

    /** OnClose: disconnect the MQTT client; nothing for other transports. */
    method OnClose()
      requires Valid()
      modifies this`log
      ensures Valid()
      ensures log == old(log) + CloseEffects(transport, deviceId)
      ensures status == old(status)
    {
      if transport == MQTT {
        Emit(MqttDisconnect(deviceId));
      }
    }

    /** The connection promise resolves with the device's client. */
    method OnConnectionResolved(clientConnected: bool)
      requires Valid() && transport == MQTT
      modifies this`status, this`log
      ensures Valid()
      ensures log == old(log) + ResolvedEffects(clientConnected)
      ensures status == if clientConnected then Connected else old(status)
    {
      if clientConnected {
        ShowNodeStatus(Connected);
      }
    }

    /** The client's 'message' handler: show the client's state and forward {topic, payload}. */
    method OnBrokerMessage(event: BrokerMessage)
      requires Valid() && transport == MQTT
      modifies this`status, this`log
      ensures Valid()
      ensures log == old(log) + InboundEffects(event)
      ensures status == StatusOf(event.clientConnected)
    {
      if event.clientConnected {
        ShowNodeStatus(Connected);
      } else {
        ShowNodeStatus(Disconnected);
      }
      var obj := Message(Bytes(event.message), Some(event.topic), None);
      Emit(Send(obj));
    }
  }
}
