/** Whole-client runs: connect and publish a clock tick, send the same raw
    values twice, offer a value while disconnected, stop before the timer
    fires; each returns what the transport saw. */
module Scenarios {
  import opened Optional
  import opened Settings
  import opened MqttClient
  import opened Decimal
  import Topics

  /** The literal values the scenarios meet, computed once. */
  lemma ScenarioLiterals()
    ensures "rgbww_" + "AA" == "rgbww_AA"
    ensures Topics.Topic("home/", "rgbww_AA", "clock") == "home/rgbww_AA/clock"
    ensures Topics.Topic("home/", "rgbww_AA", "color") == "home/rgbww_AA/color"
    ensures ToDecimal(42) == "42"
  {
  }

  /** The connection attempts of the scenarios' two settings. */
  lemma ScenarioConnectActions(cfg: AppSettings)
    requires !cfg.cmdSlaveEnabled && !cfg.colorSlaveEnabled
    ensures cfg.clockSlaveEnabled ==> ConnectActions(cfg, "rgbww_AA") == [
      SetWill(WillTopic, WillMessage, 1, true), ConnectReq("rgbww_AA", "", ""), Subscribe(cfg.clockSlaveTopic)]
    ensures !cfg.clockSlaveEnabled ==> ConnectActions(cfg, "rgbww_AA") == [
      SetWill(WillTopic, WillMessage, 1, true), ConnectReq("rgbww_AA", "", "")]
  {
    SubscriptionsInOrder(cfg);
  }

  /** Base "home/", device "rgbww_AA", clock sync on "sync/clock": the
      connection subscribes to "sync/clock", and tick 42 goes out as "42"
      on "home/rgbww_AA/clock", not retained. */
  method ClockScenario() returns (log: seq<Action>)
    ensures log == [
      SetWill(WillTopic, WillMessage, 1, true),
      ConnectReq("rgbww_AA", "", ""),
      Subscribe("sync/clock"),
      Action.Publish("home/rgbww_AA/clock", Text("42"), false)]
  {
    var cfg := DefaultSettings().(clockSlaveEnabled := true, clockSlaveTopic := "sync/clock");
    var client := new AppMqttClient("AA");
    client.Init(cfg);
    client.Start(cfg);
    client.TimerExpires(cfg);
    client.TransportStateChanged(Connected);
    ScenarioLiterals();
    ScenarioConnectActions(cfg);
    assert client.log == ConnectActions(cfg, "rgbww_AA");
    client.PublishClock(cfg, 42);
    log := client.log;
  }

  /** The same raw values published twice while connected reach the
      transport once. */
  method RawDedupScenario() returns (log: seq<Action>)
    ensures log == [
      SetWill(WillTopic, WillMessage, 1, true),
      ConnectReq("rgbww_AA", "", ""),
      Action.Publish("home/rgbww_AA/color", ColorJson(Raw(ChannelOutput(10, 20, 30, 0, 0)), 0, "solid"), true)]
  {
    var cfg := DefaultSettings();
    var client := new AppMqttClient("AA");
    client.Start(cfg);
    client.TimerExpires(cfg);
    client.TransportStateChanged(Connected);
    ScenarioLiterals();
    ScenarioConnectActions(cfg);
    assert client.log == ConnectActions(cfg, "rgbww_AA");
    client.PublishCurrentRaw(cfg, ChannelOutput(10, 20, 30, 0, 0));
    client.PublishCurrentRaw(cfg, ChannelOutput(10, 20, 30, 0, 0));
    log := client.log;
  }

  /** Raw values offered while disconnected are remembered but not sent, so
      offering them again once connected sends nothing either. */
  method RawWhileDisconnectedScenario() returns (log: seq<Action>)
    ensures log == [SetWill(WillTopic, WillMessage, 1, true), ConnectReq("rgbww_AA", "", "")]
  {
    var cfg := DefaultSettings();
    var client := new AppMqttClient("AA");
    client.Start(cfg);
    client.TimerExpires(cfg);
    ScenarioLiterals();
    ScenarioConnectActions(cfg);
    assert client.log == ConnectActions(cfg, "rgbww_AA");
    client.PublishCurrentRaw(cfg, ChannelOutput(10, 20, 30, 0, 0));
    client.TransportStateChanged(Connected);
    client.PublishCurrentRaw(cfg, ChannelOutput(10, 20, 30, 0, 0));
    log := client.log;
  }

  /** A stop before the reconnect timer fires leaves the timer armed, but
      its connect() finds no session and reaches no transport. */
  method StopBeforeTimerScenario() returns (log: seq<Action>, running: bool)
    ensures log == [] && !running
  {
    var cfg := DefaultSettings();
    var client := new AppMqttClient("AA");
    client.Start(cfg);
    client.Stop();
    assert client.timer == Some(ReconnectDelay);
    client.TimerExpires(cfg);
    log := client.log;
    running := client.IsRunning();
  }
}
