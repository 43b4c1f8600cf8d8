/** The read-only view of the application settings that the MQTT client
    consults. The client never writes these fields; every operation reads
    them at the moment it runs, so they are passed in as a parameter. */
module Settings {

  datatype AppSettings = AppSettings(
    server: string,              // network.mqtt.server
    port: int,                   // network.mqtt.port
    topicBase: string,           // network.mqtt.topic_base
    deviceName: string,          // general.device_name
    clockSlaveEnabled: bool,     // sync.clock_slave_enabled
    clockSlaveTopic: string,     // sync.clock_slave_topic
    cmdSlaveEnabled: bool,       // sync.cmd_slave_enabled
    cmdSlaveTopic: string,       // sync.cmd_slave_topic
    colorSlaveEnabled: bool,     // sync.color_slave_enabled
    colorSlaveTopic: string      // sync.color_slave_topic
  )

  /** Factory defaults of the settings structure: broker "minion" on port
      1883, topic base "home/", no device name. The three slave
      subscriptions have no default in the structure; they start disabled. */
  function DefaultSettings(): AppSettings
  {
    AppSettings("minion", 1883, "home/", "", false, "", false, "", false, "")
  }
}
