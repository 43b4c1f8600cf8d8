# MQTT synchronisation client of the RGBWW lighting controller

This project models `AppMqttClient` from `app/mqtt.cpp` and proves properties of the model. The client keeps one MQTT transport session with the broker and retries the connection after a fixed 2000 ms. When it connects, it subscribes to the enabled sync topics. Inbound messages go to the clock, command or color handler by exact topic match. The device's color goes out through a last-value cache. Clock ticks and JSON-RPC commands always go out.

Modules:

- `Settings` (settings.dfy): the read-only settings the client reads. Defaults come from the settings structure: broker `minion:1883`, topic base `home/`.
- `Topics` (topics.dfy): `<topic base><device id>/<suffix>`.
- `Decimal` (decimal.dfy): a clock count rendered in decimal by the publisher, and the same count read back by a subscriber through `String::toInt`.
- `Routing` (routing.dfy): the choice of handler for an inbound message, and the list of topics subscribed on connect.
- `MqttClient` (client.dfy): the class `AppMqttClient`.
  - Fields: `id`, `session`, `timer`, `lastRaw`, `lastHsv`.
  - `log`: the will, connect, subscribe and publish requests the client made on its transport, in order. Installing the completion callback is a flag of the session; creating and deleting the session and reading its connection state are changes and reads of `session`, not log entries.
  - Environment methods: `TransportStateChanged`, `TransportCompleted` and `TimerExpires` stand for the callbacks that the transport and the timer deliver.
- `Scenarios` (scenarios.dfy): whole-client runs from start to publish. Each returns what the transport saw.

Settings are a parameter of every operation that reads them, because the client reads the global configuration at the moment of each call. The `*_slave_*` sync fields are taken from their uses in `app/mqtt.cpp`. The settings structure in `include/config.h` does not have them.

In these places the code behaves differently from what one might expect; the model follows the code:

- `stop()` does not cancel a pending reconnect timer (app/mqtt.cpp:97-100). That is harmless: when the timer fires, `connect()` finds no session and does nothing (`StopBeforeTimerScenario`). `start()` does not cancel the timer either; it re-arms it, which replaces the pending timer.
- Subscriptions are issued inside `connect()`, right after the connect request. They do not wait for a successful-connect callback (app/mqtt.cpp:56-79).
- The connection state is the transport's five-state `TcpClientState`. `connect()` refuses only Connecting and Connected, so it goes ahead from Ready, Successful and Failed.
- The last-value cache is updated on every call, including a call whose publish was skipped because the client was disconnected (`RawWhileDisconnectedScenario`).
- The color topic is `topic_base + id + "/color"`. No slash is added after the base; the default base `home/` already ends with one.

A clock count makes the round trip from `publishClock` to a peer's clock handler only up to 2^31 - 1 (`Routing.PeerReceivesClock`, `Decimal.ClockRoundTrip`). `toInt` reads the payload into a 32-bit signed `long`, so under the strtol reading every larger count arrives as 2^31 - 1 (`Decimal.ClockSaturates`). The `uint32_t` count that `publishClock` sends can reach 2^32 - 1.

## Model

| member | source | states |
|---|---|---|
| `MqttClient.AppMqttClient.constructor` | app/mqtt.cpp:24-26 | the client id starts as "rgbww_" followed by the MAC; no session, no timer, empty transport log |
| `MqttClient.AppMqttClient.Init` | app/mqtt.cpp:82-86 | the id becomes the configured device name exactly when that name is non-empty; otherwise it is kept |
| `MqttClient.AppMqttClient.ConnectDelayed` | app/mqtt.cpp:43-46 | the single timer is armed with the given delay, replacing any pending one |
| `MqttClient.AppMqttClient.OnComplete` | app/mqtt.cpp:33-41 | whatever the success flag, the timer is re-armed at 2000 ms |
| `MqttClient.AppMqttClient.Start` | app/mqtt.cpp:88-95 | any old session is replaced by a fresh Ready session for the configured server and port, and the timer is armed at 2000 ms |
| `MqttClient.AppMqttClient.Stop` | app/mqtt.cpp:97-100 | the session is gone; the timer is not touched |
| `MqttClient.AppMqttClient.IsRunning` | app/mqtt.cpp:102-104 | true exactly when a session exists, whatever its connection state |
| `MqttClient.AppMqttClient.Connect` | app/mqtt.cpp:48-80 | with no session, or one Connecting or Connected, nothing changes and nothing reaches the transport; otherwise exactly the connect actions are appended, the session is Connecting and the completion callback is installed |
| `MqttClient.ConnectActions` | app/mqtt.cpp:53-79 | a connection attempt is the will (last/will, QoS 1, retained), then the connect request with the client id and empty credentials, then only Subscribe calls, one per subscribed topic |
| `MqttClient.ConnectActionsShape` | app/mqtt.cpp:70-79 | a connection attempt subscribes to a topic iff some enabled sync slot has it; a disabled slot adds no Subscribe |
| `MqttClient.SubscriptionsInOrder` | app/mqtt.cpp:70-79 | the Subscribe calls are those of the enabled topics in the order clock, command, color, and none for a disabled one |
| `MqttClient.AppMqttClient.Publish` | app/mqtt.cpp:124-139 | Publish(topic, data, retain) reaches the transport iff a session exists and is Connected; otherwise the log is unchanged |
| `MqttClient.AppMqttClient.PublishCurrentRaw` | app/mqtt.cpp:141-162 | the cache always holds the new value; a retained raw color document with t 0 and cmd "solid" goes to the color topic iff the value changed and the session is Connected; otherwise the log is unchanged |
| `MqttClient.AppMqttClient.PublishCurrentHsv` | app/mqtt.cpp:164-188 | the same gate for the HSV color and its cache |
| `MqttClient.AppMqttClient.PublishClock` | app/mqtt.cpp:196-202 | when Connected, the decimal rendering of the count goes, not retained, to the clock topic on every call; otherwise nothing |
| `MqttClient.AppMqttClient.PublishCommand` | app/mqtt.cpp:204-216 | when Connected, the JSON-RPC envelope goes, not retained, to the command topic on every call; otherwise nothing |
| `MqttClient.RpcEnvelope` | app/mqtt.cpp:207-212 | the envelope carries the method, and it carries the parameters exactly when there are some |
| `MqttClient.AppMqttClient.TimerExpires` | app/mqtt.cpp:43-50 | a pending timer fires once and runs connect(); after stop() it reaches no transport |
| `MqttClient.AppMqttClient.TransportCompleted` | app/mqtt.cpp:33-41 | a finished connection re-arms the reconnect timer only when connect() installed the completion callback |
| `MqttClient.AppMqttClient.TransportStateChanged` | app/mqtt.cpp:132-133 | only the connection state of the existing session changes; with no session nothing happens |
| `Topics.Topic` | app/mqtt.cpp:190-194 | the topic is the base, then the device id, then a slash, then the suffix |
| `Topics.SuffixInjective` | app/mqtt.cpp:190-194 | for a fixed base and id, different suffixes give different topics |
| `Topics.PublishTopicsDistinct` | app/mqtt.cpp:190-194 | the color, clock and command topics are pairwise distinct |
| `Routing.OnMessageReceived` | app/mqtt.cpp:106-122 | at most one handler runs: the first of clock, command, color that is enabled and whose topic equals the inbound topic; none when nothing matches; the clock handler gets the parsed count, the others the message as received, and the color handler never relays |
| `Routing.SubscribedTopicsInOrder` | app/mqtt.cpp:70-79 | the subscribed topics are the enabled ones in the order clock, command, color |
| `Routing.EnabledTopicsMembers` | app/mqtt.cpp:70-79 | a topic is in the subscription list iff some enabled slot carries it |
| `Routing.SubscribedIffRouted` | app/mqtt.cpp:70-122 | a topic is subscribed on connect iff messages on it reach a handler |
| `Routing.PeerReceivesClock` | app/mqtt.cpp:111-113 | under the strtol reading of toInt, a peer that listens on this device's clock topic hands every published count up to 2^31 - 1 unchanged to its clock handler |
| `Decimal.ToDecimal` | app/mqtt.cpp:197-198 | the clock payload is non-empty and all digits, with no leading zero |
| `Decimal.DigitsValueOfDecimal` | app/mqtt.cpp:197-198 | the digits of the clock payload denote the count |
| `Decimal.ToLong` | app/mqtt.cpp:112 | under the strtol reading of toInt, the value read from a payload lies in the 32-bit long range |
| `Decimal.ToUint32` | app/mqtt.cpp:112 | assigning the long to a uint32_t keeps the value modulo 2^32 |
| `Decimal.ParseClock` | app/mqtt.cpp:112 | the clock count is the long read from the payload when that is non-negative, and that long plus 2^32 when it is negative |
| `Decimal.NegativeWraps` | app/mqtt.cpp:112 | the payload "-1" reads as the count 2^32 - 1 |
| `Decimal.TrailingTextIgnored` | app/mqtt.cpp:112 | text after the digits is ignored: " 5x" reads as 5 |
| `Decimal.LeadingTextReadsZero` | app/mqtt.cpp:112 | text before the digits makes the payload read as 0: "abc5" reads as 0 |
| `Decimal.ClockRoundTrip` | app/mqtt.cpp:112 | under the strtol reading of toInt, a count up to 2^31 - 1, rendered and read back, is unchanged |
| `Decimal.ClockSaturates` | app/mqtt.cpp:112 | under the strtol reading of toInt, a count from 2^31 on is read back as 2^31 - 1 |
| `Decimal.NoDigitsReadsZero` | app/mqtt.cpp:112 | a payload in which no digit follows the leading white space and optional sign reads as 0 rather than being rejected |
| `Scenarios.ClockScenario` | app/mqtt.cpp:196-202 | base home/, id rgbww_AA, clock sync on sync/clock: the connection subscribes to sync/clock, and tick 42 is published as "42" on home/rgbww_AA/clock, not retained |
| `Scenarios.RawDedupScenario` | app/mqtt.cpp:141-162 | the same raw values published twice while connected reach the transport once |
| `Scenarios.RawWhileDisconnectedScenario` | app/mqtt.cpp:141-162 | a value offered while disconnected is cached, so the same value offered after connecting is not sent |
| `Scenarios.StopBeforeTimerScenario` | app/mqtt.cpp:97-104 | after start and then stop, the timer still fires, but it reaches no transport and the client is not running |

## Left out

- JSON serialisation: payloads are an abstract datatype, not the bytes ArduinoJson prints. The `JsonRpcMessage` envelope is reduced to the method and the optional parameters, and parameter values are kept as their text.
- MqttClient.AppMqttClient.PublishCurrentHsv: the payload carries the color value itself, not its floating-point radian projection (`asRadian`).
- Equality of the raw channel values and of the HSV colors is field-by-field equality. Their class definitions are not part of this model.
- The initial cached raw and HSV values are taken as all zero, because the headers with their default constructors are not part of this model.
- `String::toInt` is not part of this model. `Decimal.ToLong` models it as the C library's strtol on a 32-bit `long`: skip white space, accept an optional sign and the digits after it, saturate on overflow. Appending an unsigned count to a String is modelled as plain decimal rendering.
- The MAC lookup in the constructor is a parameter.
- Serial and debug output are not modelled. The result of `setWill` is not modelled either: a failure is only logged, and the call always happens.
- The SSL options in `connect()` are not modelled.
- The destructor is not modelled.
- Real time: the timer is the delay it was armed with, and the environment fires it.
- The transport is not modelled beyond the calls the client makes on it and its connection state. The model assumes the connect request moves the session to Connecting and that a finished connection reports Successful or Failed.
- The downstream handlers `onMasterClock`, `onJsonRpc` and `onColor` are only recorded as the handler call that routing selects.
- Loading and saving the settings file are not part of this model.
