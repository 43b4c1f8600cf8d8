/** Inbound message routing and the subscriptions that feed it. Both are
    driven by the same three (enabled, topic) pairs of the settings, taken
    in the fixed order clock, command, color. */
module Routing {
  import opened Optional
  import opened Settings
  import opened Decimal
  import Topics

  datatype SyncKind = ClockSync | CommandSync | ColorSync

  /** One configured sync subscription. */
  datatype Slot = Slot(kind: SyncKind, enabled: bool, topic: string)

  /** The handler an inbound message is handed to, with its arguments. */
  datatype HandlerCall =
    | MasterClock(clock: uint32)                // rgbwwctrl.onMasterClock
    | JsonRpc(message: string)                  // jsonproc.onJsonRpc
    | ApplyColor(message: string, relay: bool)  // jsonproc.onColor

  function KindOf(h: HandlerCall): SyncKind
  {
    match h
    case MasterClock(_) => ClockSync
    case JsonRpc(_) => CommandSync
    case ApplyColor(_, _) => ColorSync
  }

  /** The sync subscriptions in the order they are checked and subscribed. */
  function SyncSlots(cfg: AppSettings): (slots: seq<Slot>)
    ensures |slots| == 3
    ensures slots[0].kind == ClockSync && slots[1].kind == CommandSync && slots[2].kind == ColorSync
  {
    [ Slot(ClockSync, cfg.clockSlaveEnabled, cfg.clockSlaveTopic),
      Slot(CommandSync, cfg.cmdSlaveEnabled, cfg.cmdSlaveTopic),
      Slot(ColorSync, cfg.colorSlaveEnabled, cfg.colorSlaveTopic) ]
  }

  predicate Accepts(slot: Slot, topic: string)
  {
    slot.enabled && slot.topic == topic
  }

  /** Routing of one inbound (topic, message) pair: at most one handler is
      called, namely the one of the first slot that accepts the topic; no
      handler at all when no slot accepts it. The clock handler receives the
      parsed count, the other two the message as it came, and the color
      handler is always told not to relay. */
  function OnMessageReceived(cfg: AppSettings, topic: string, message: string): (r: Option<HandlerCall>)
    ensures r.None? <==> forall i :: 0 <= i < 3 ==> !Accepts(SyncSlots(cfg)[i], topic)
    ensures r.Some? ==>
      exists i :: 0 <= i < 3 && Accepts(SyncSlots(cfg)[i], topic) && SyncSlots(cfg)[i].kind == KindOf(r.value) &&
        forall j :: 0 <= j < i ==> !Accepts(SyncSlots(cfg)[j], topic)
    ensures r.Some? && r.value.MasterClock? ==> r.value.clock == ParseClock(message)
    ensures r.Some? && r.value.JsonRpc? ==> r.value.message == message
    ensures r.Some? && r.value.ApplyColor? ==> r.value.message == message && !r.value.relay
  {
    if cfg.clockSlaveEnabled && topic == cfg.clockSlaveTopic then
      assert Accepts(SyncSlots(cfg)[0], topic);
      Some(MasterClock(ParseClock(message)))
    else if cfg.cmdSlaveEnabled && topic == cfg.cmdSlaveTopic then
      assert Accepts(SyncSlots(cfg)[1], topic);
      Some(JsonRpc(message))
    else if cfg.colorSlaveEnabled && topic == cfg.colorSlaveTopic then
      assert Accepts(SyncSlots(cfg)[2], topic);
      Some(ApplyColor(message, false))
    else
      None
  }

  /** The topics of the enabled slots, in slot order. */
  function EnabledTopics(slots: seq<Slot>): (ts: seq<string>)
    ensures |ts| <= |slots|
  {
    if slots == [] then []
    else (if slots[0].enabled then [slots[0].topic] else []) + EnabledTopics(slots[1..])
  }

  /** The topics the client subscribes to when it connects. */
  function SubscribedTopics(cfg: AppSettings): seq<string>
  {
    EnabledTopics(SyncSlots(cfg))
  }

  lemma {:induction false} EnabledTopicsMembers(slots: seq<Slot>, t: string)
    ensures t in EnabledTopics(slots) <==> exists i :: 0 <= i < |slots| && Accepts(slots[i], t)
  {
    if slots != [] {
      EnabledTopicsMembers(slots[1..], t);
      if exists i :: 0 <= i < |slots| && Accepts(slots[i], t) {
        var i :| 0 <= i < |slots| && Accepts(slots[i], t);
        if i > 0 {
          assert Accepts(slots[1..][i - 1], t);
        }
      }
      if exists i :: 0 <= i < |slots[1..]| && Accepts(slots[1..][i], t) {
        var i :| 0 <= i < |slots[1..]| && Accepts(slots[1..][i], t);
        assert Accepts(slots[i + 1], t);
      }
    }
  }

  /** Subscriptions are issued in the order clock, command, color, one per
      enabled slot and none for a disabled one. */
  lemma SubscribedTopicsInOrder(cfg: AppSettings)
    ensures SubscribedTopics(cfg) ==
      (if cfg.clockSlaveEnabled then [cfg.clockSlaveTopic] else []) +
      (if cfg.cmdSlaveEnabled then [cfg.cmdSlaveTopic] else []) +
      (if cfg.colorSlaveEnabled then [cfg.colorSlaveTopic] else [])
  {
    var slots := SyncSlots(cfg);
    assert EnabledTopics(slots[1..][1..][1..]) == [];
    assert EnabledTopics(slots[1..][1..]) == if cfg.colorSlaveEnabled then [cfg.colorSlaveTopic] else [];
    assert EnabledTopics(slots[1..]) ==
      (if cfg.cmdSlaveEnabled then [cfg.cmdSlaveTopic] else []) + EnabledTopics(slots[1..][1..]);
  }

  /** A topic is subscribed exactly when messages on it reach a handler:
      what the client asks the broker for and what it routes agree. */
  lemma SubscribedIffRouted(cfg: AppSettings, topic: string, message: string)
    ensures topic in SubscribedTopics(cfg) <==> OnMessageReceived(cfg, topic, message).Some?
  {
    EnabledTopicsMembers(SyncSlots(cfg), topic);
  }

  /** End to end clock sync: a peer whose clock slave topic is this device's
      clock topic hands the published count to its clock handler, for every
      count a 32-bit long can hold. */
  lemma PeerReceivesClock(peer: AppSettings, base: string, id: string, steps: uint32)
    requires peer.clockSlaveEnabled && peer.clockSlaveTopic == Topics.Topic(base, id, "clock")
    requires steps <= LongMax
    ensures OnMessageReceived(peer, Topics.Topic(base, id, "clock"), ToDecimal(steps)) == Some(MasterClock(steps))
  {
    ClockRoundTrip(steps);
  }
}
