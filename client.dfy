/** The MQTT synchronisation client of the lighting controller: it owns one
    transport session at a time, drives a single re-armable reconnect timer,
    subscribes to the enabled sync topics when it connects, and publishes
    the device's color, clock and commands through a guard on the
    connection state.

    The transport is observed through `log`, the will, connect, subscribe
    and publish requests the client makes on its session in the order made
    (the completion callback is a flag of the session itself); the timer through `timer`, the delay of
    the one pending timer, if any. Events the transport and the timer
    deliver are the environment methods at the end of the class. */
module MqttClient {
  import opened Optional
  import opened Settings
  import opened Decimal
  import opened Routing
  import Topics

  /** The transport's connection states. */
  datatype TcpState = Ready | Connecting | Connected | Successful | Failed

  /** One transport session: the broker it was created for, its connection
      state, and whether the client's completion callback is installed. */
  datatype Session = Session(server: string, port: int, state: TcpState, completeDelegate: bool)

  /** The raw output channel values. */
  datatype ChannelOutput = ChannelOutput(r: int, g: int, b: int, cw: int, ww: int)

  /** A hue/saturation/value color with a color temperature, compared only
      for equality. */
  datatype Hsvct = Hsvct(h: int, s: int, v: int, ct: int)

  datatype ColorBody = Raw(raw: ChannelOutput) | Hsv(color: Hsvct)

  /** A JSON-RPC notification: the method, and the parameters when any were
      given, in their original order. */
  datatype RpcMessage = RpcMessage(methodName: string, params: Option<seq<(string, string)>>)

  /** What is published: plain text, the color document
      `{raw|hsv: ..., t: .., cmd: ..}`, or a JSON-RPC document. */
  datatype Payload =
    | Text(text: string)
    | ColorJson(body: ColorBody, t: int, cmd: string)
    | RpcJson(rpc: RpcMessage)

  /** A call the client makes on its transport session. */
  datatype Action =
    | SetWill(topic: string, message: string, qos: int, retain: bool)
    | ConnectReq(clientId: string, username: string, password: string)
    | Subscribe(topic: string)
    | Publish(topic: string, payload: Payload, retain: bool)

  const WillTopic: string := "last/will"
  const WillMessage: string := "The connection from this device is lost:("
  const ReconnectDelay: int := 2000

  predicate IsConnected(s: Option<Session>)
  {
    s.Some? && s.value.state == Connected
  }

  /** connect() goes ahead only with a session that is neither connecting
      nor connected. */
  predicate MayConnect(s: Option<Session>)
  {
    s.Some? && s.value.state != Connecting && s.value.state != Connected
  }

  /** One Subscribe per topic, in order. */
  function SubscribeAll(topics: seq<string>): (acts: seq<Action>)
    ensures |acts| == |topics|
    ensures forall i :: 0 <= i < |topics| ==> acts[i] == Subscribe(topics[i])
  {
    if topics == [] then [] else [Subscribe(topics[0])] + SubscribeAll(topics[1..])
  }

  /** Everything connect() asks of the transport when it goes ahead. */
  function ConnectActions(cfg: AppSettings, clientId: string): (acts: seq<Action>)
    ensures |acts| == 2 + |SubscribedTopics(cfg)|
    ensures acts[0] == SetWill(WillTopic, WillMessage, 1, true)
    ensures acts[1] == ConnectReq(clientId, "", "")
    ensures forall i :: 2 <= i < |acts| ==> acts[i].Subscribe?
  {
    [SetWill(WillTopic, WillMessage, 1, true), ConnectReq(clientId, "", "")] + SubscribeAll(SubscribedTopics(cfg))
  }

  /** The Subscribe calls of a connection attempt, spelled out. */
  lemma SubscriptionsInOrder(cfg: AppSettings)
    ensures SubscribeAll(SubscribedTopics(cfg)) ==
      (if cfg.clockSlaveEnabled then [Subscribe(cfg.clockSlaveTopic)] else []) +
      (if cfg.cmdSlaveEnabled then [Subscribe(cfg.cmdSlaveTopic)] else []) +
      (if cfg.colorSlaveEnabled then [Subscribe(cfg.colorSlaveTopic)] else [])
  {
    SubscribedTopicsInOrder(cfg);
    var ts := SubscribedTopics(cfg);
    var expected :=
      (if cfg.clockSlaveEnabled then [Subscribe(cfg.clockSlaveTopic)] else []) +
      (if cfg.cmdSlaveEnabled then [Subscribe(cfg.cmdSlaveTopic)] else []) +
      (if cfg.colorSlaveEnabled then [Subscribe(cfg.colorSlaveTopic)] else []);
    assert |expected| == |ts|;
    forall i | 0 <= i < |ts| ensures SubscribeAll(ts)[i] == expected[i] {
    }
  }

  /** A connection attempt subscribes to a topic exactly when some enabled
      sync slot carries it; a disabled slot adds no Subscribe. */
  lemma ConnectActionsShape(cfg: AppSettings, clientId: string)
    ensures forall t :: Subscribe(t) in ConnectActions(cfg, clientId) <==>
      exists i :: 0 <= i < 3 && Accepts(SyncSlots(cfg)[i], t)
  {
    var acts := ConnectActions(cfg, clientId);
    assert acts[2..] == SubscribeAll(SubscribedTopics(cfg));
    forall t
      ensures Subscribe(t) in acts <==> exists i :: 0 <= i < 3 && Accepts(SyncSlots(cfg)[i], t)
    {
      EnabledTopicsMembers(SyncSlots(cfg), t);
      if Subscribe(t) in acts {
        var k :| 0 <= k < |acts| && acts[k] == Subscribe(t);
        assert k >= 2 && SubscribedTopics(cfg)[k - 2] == t;
      }
      if t in SubscribedTopics(cfg) {
        var k :| 0 <= k < |SubscribedTopics(cfg)| && SubscribedTopics(cfg)[k] == t;
        assert acts[k + 2] == Subscribe(t);
      }
    }
  }

  /** The JSON-RPC envelope of an outbound command: parameters are attached
      only when there are some. */
  function RpcEnvelope(methodName: string, params: seq<(string, string)>): (m: RpcMessage)
    ensures m.methodName == methodName
    ensures m.params.Some? <==> |params| > 0
    ensures m.params.Some? ==> m.params.value == params
  {
    RpcMessage(methodName, if |params| > 0 then Some(params) else None)
  }

  class AppMqttClient {
    var id: string
    var session: Option<Session>
    var timer: Option<int>
    var lastRaw: ChannelOutput
    var lastHsv: Hsvct
    var log: seq<Action>

    /** The default client id is "rgbww_" followed by the station's MAC. */
    constructor (mac: string)
      ensures id == "rgbww_" + mac
      ensures session == None && timer == None && log == []
      ensures lastRaw == ChannelOutput(0, 0, 0, 0, 0) && lastHsv == Hsvct(0, 0, 0, 0)
    {
      id := "rgbww_" + mac;
      session := None;
      timer := None;
      lastRaw := ChannelOutput(0, 0, 0, 0, 0);
      lastHsv := Hsvct(0, 0, 0, 0);
      log := [];
    }

    /** A configured device name, when not empty, replaces the client id. */
    method Init(cfg: AppSettings)
      modifies this`id
      ensures |cfg.deviceName| > 0 ==> id == cfg.deviceName
      ensures |cfg.deviceName| == 0 ==> id == old(id)
    {
      if |cfg.deviceName| > 0 {
        id := cfg.deviceName;
      }
    }

    /** Arms the one reconnect timer, replacing any pending one. */
    method ConnectDelayed(delay: int)
      modifies this`timer
      ensures timer == Some(delay)
    {
      timer := Some(delay);
    }

    /** The transport's completion callback: whether the broker closed the
        connection or could not be reached, retry after the fixed delay. */
    method OnComplete(success: bool)
      modifies this`timer
      ensures timer == Some(ReconnectDelay)
    {
      ConnectDelayed(ReconnectDelay);
    }

    /** Drops any current session, creates a fresh one for the configured
        broker and schedules a connection attempt. */
    method Start(cfg: AppSettings)
      modifies this`session, this`timer
      ensures session == Some(Session(cfg.server, cfg.port, Ready, false))
      ensures timer == Some(ReconnectDelay)
    {
      session := Some(Session(cfg.server, cfg.port, Ready, false));
      ConnectDelayed(ReconnectDelay);
    }

    /** Drops the session; a pending timer stays armed. */
    method Stop()
      modifies this`session
      ensures session == None
    {
      session := None;
    }

    method IsRunning() returns (running: bool)
      ensures running <==> session.Some?
    {
      running := session != None;
    }

    /** A connection attempt: nothing without a session or while one is in
        progress or established; otherwise the will, the connect request,
        the completion callback and the sync subscriptions. */
    method Connect(cfg: AppSettings)
      modifies this`session, this`log
      ensures !MayConnect(old(session)) ==> session == old(session) && log == old(log)
      ensures MayConnect(old(session)) ==>
        session == Some(old(session).value.(state := Connecting, completeDelegate := true))
      ensures MayConnect(old(session)) ==> log == old(log) + ConnectActions(cfg, id)
    {
      if session == None || session.value.state == Connected || session.value.state == Connecting {
        return;
      }
      ghost var before := log;
      log := log + [SetWill(WillTopic, WillMessage, 1, true)];
      log := log + [ConnectReq(id, "", "")];
      session := Some(session.value.(state := Connecting));
      session := Some(session.value.(completeDelegate := true));
      ghost var subs: seq<Action> := [];
      if cfg.clockSlaveEnabled {
        log := log + [Subscribe(cfg.clockSlaveTopic)];
        subs := subs + [Subscribe(cfg.clockSlaveTopic)];
      }
      if cfg.cmdSlaveEnabled {
        log := log + [Subscribe(cfg.cmdSlaveTopic)];
        subs := subs + [Subscribe(cfg.cmdSlaveTopic)];
      }
      if cfg.colorSlaveEnabled {
        log := log + [Subscribe(cfg.colorSlaveTopic)];
        subs := subs + [Subscribe(cfg.colorSlaveTopic)];
      }
      assert log == before + [SetWill(WillTopic, WillMessage, 1, true), ConnectReq(id, "", "")] + subs;
      SubscriptionsInOrder(cfg);
    }

    /** Publishes only through a session that exists and is connected;
        otherwise the call has no effect. */
    method Publish(topic: string, data: Payload, retain: bool)
      modifies this`log
      ensures IsConnected(session) ==> log == old(log) + [Action.Publish(topic, data, retain)]
      ensures !IsConnected(session) ==> log == old(log)
    {
      if session == None {
        return;
      }
      if session.value.state == Connected {
        log := log + [Action.Publish(topic, data, retain)];
      }
    }

    /** Publishes the raw channel values (retained, on the color topic) when
        they differ from the last ones; remembers them in every case. */
    method PublishCurrentRaw(cfg: AppSettings, raw: ChannelOutput)
      modifies this`log, this`lastRaw
      ensures lastRaw == raw
      ensures raw != old(lastRaw) && IsConnected(session) ==>
        log == old(log) + [Action.Publish(Topics.Topic(cfg.topicBase, id, "color"), ColorJson(Raw(raw), 0, "solid"), true)]
      ensures raw == old(lastRaw) || !IsConnected(session) ==> log == old(log)
    {
      if raw != lastRaw {
        Publish(Topics.Topic(cfg.topicBase, id, "color"), ColorJson(Raw(raw), 0, "solid"), true);
      }
      lastRaw := raw;
    }

    /** The same gate for an HSV color and its color temperature. */
    method PublishCurrentHsv(cfg: AppSettings, color: Hsvct)
      modifies this`log, this`lastHsv
      ensures lastHsv == color
      ensures color != old(lastHsv) && IsConnected(session) ==>
        log == old(log) + [Action.Publish(Topics.Topic(cfg.topicBase, id, "color"), ColorJson(Hsv(color), 0, "solid"), true)]
      ensures color == old(lastHsv) || !IsConnected(session) ==> log == old(log)
    {
      if color != lastHsv {
        Publish(Topics.Topic(cfg.topicBase, id, "color"), ColorJson(Hsv(color), 0, "solid"), true);
      }
      lastHsv := color;
    }

    /** Publishes the tick count in decimal, not retained, on the clock
        topic; every call, without deduplication. */
    method PublishClock(cfg: AppSettings, steps: uint32)
      modifies this`log
      ensures IsConnected(session) ==>
        log == old(log) + [Action.Publish(Topics.Topic(cfg.topicBase, id, "clock"), Text(ToDecimal(steps)), false)]
      ensures !IsConnected(session) ==> log == old(log)
    {
      var msg := ToDecimal(steps);
      var topic := Topics.Topic(cfg.topicBase, id, "clock");
      Publish(topic, Text(msg), false);
    }

    /** Publishes a JSON-RPC command, not retained, on the command topic;
        the parameters go along only when there are some. */
    method PublishCommand(cfg: AppSettings, methodName: string, params: seq<(string, string)>)
      modifies this`log
      ensures IsConnected(session) ==>
        log == old(log) + [Action.Publish(Topics.Topic(cfg.topicBase, id, "command"), RpcJson(RpcEnvelope(methodName, params)), false)]
      ensures !IsConnected(session) ==> log == old(log)
    {
      var msg := RpcMessage(methodName, None);
      var topic := Topics.Topic(cfg.topicBase, id, "command");
      if |params| > 0 {
        msg := msg.(params := Some(params));
      }
      Publish(topic, RpcJson(msg), false);
    }

    // Environment: events delivered by the transport and the timer.

    /** The transport moves its session to another connection state. */
    method TransportStateChanged(st: TcpState)
      modifies this`session
      ensures old(session).None? ==> session == None
      ensures old(session).Some? ==> session == Some(old(session).value.(state := st))
    {
      if session != None {
        session := Some(session.value.(state := st));
      }
    }

    /** The transport finishes its connection, cleanly or not, and calls the
        completion callback when one is installed. */
    method TransportCompleted(success: bool)
      modifies this`session, this`timer
      ensures old(session).None? ==> session == None && timer == old(timer)
      ensures old(session).Some? ==>
        session == Some(old(session).value.(state := if success then Successful else Failed))
      ensures old(session).Some? && old(session).value.completeDelegate ==> timer == Some(ReconnectDelay)
      ensures old(session).Some? && !old(session).value.completeDelegate ==> timer == old(timer)
    {
      if session != None {
        session := Some(session.value.(state := if success then Successful else Failed));
        if session.value.completeDelegate {
          OnComplete(success);
        }
      }
    }

    /** The pending timer, if any, fires once and runs connect(). */
    method TimerExpires(cfg: AppSettings)
      modifies this`timer, this`session, this`log
      ensures timer == None
      ensures old(timer).None? || !MayConnect(old(session)) ==> session == old(session) && log == old(log)
      ensures old(timer).Some? && MayConnect(old(session)) ==> log == old(log) + ConnectActions(cfg, id)
      ensures old(timer).Some? && MayConnect(old(session)) ==>
        session == Some(old(session).value.(state := Connecting, completeDelegate := true))
    {
      if timer != None {
        timer := None;
        Connect(cfg);
      }
    }
  }
}
