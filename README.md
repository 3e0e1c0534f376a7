# MqttSmartLight: a Dafny model

This project is a model of the logic in the ARTIK Cloud "smart light" sample client,
`MqttSmartLight.java`, with proofs about that model. The client reads a device id and a device
token from its command line. It then opens an MQTT session with the cloud broker and subscribes
when the connection succeeds. It answers inbound `setOn` / `setOff` actions by publishing
`{"state":true}` or `{"state":false}` at QoS 2. It ends its session when a disconnect completes
or the connection is lost.

The model has three parts, one module each, plus a small `Wrappers` module with `Option`:

- `CommandLine` models `succeedParseCommand`. The static fields `deviceId` and `deviceToken` are
  the class `Credentials`, with Java `null` written as `None`. The method
  `Credentials.SucceedParseCommand` keeps the source's `while` loop. It is proved equal to the
  function `ParseCommand`, which runs `ScanFrom`, a recursive form of the same loop. In the
  source, a flag in the last position that the loop reaches as a flag (not as the value of the
  flag before it) makes the loop read `args[4]`. That throws
  `ArrayIndexOutOfBoundsException`, which the program does not catch. The model gives this case
  its own outcome, `OutOfBounds`, and keeps the fields as the loop left them before the throw.
- `Actions` models `handleAction` and `updateState`, starting from the action list after JSON
  decoding. The publish call is returned as a `Publication(qos, payload)` value.
  `DecodeState` is an independent reader of state messages. The lemmas prove that it inverts
  `UpdateState` in both directions.
- `Session` models the anonymous callback object. `Step` is one callback as a transition on
  `endSession`, together with the effects it issues (`Subscribe`, `Send(publication)`, `Exit`).
  `Run` applies a sequence of callbacks and stops at `Exit`, because `System.exit` ends the
  process. The class `SmartLightSession` holds `endSession` and a log of issued effects. Each
  of its methods is proved to follow `Step`.

Facts about the code that the model keeps:

- The code keeps no device-state field. `handleAction` only publishes.
- There is no multi-state session controller. The only state is the `endSession` flag.
- There is no `error`-topic routing.
- `onSuccess(CONNECT)` makes one `subscribe()` call. It does not make two calls, one for each
  topic.
- The argument parser is part of the model.

## Model

| member | source | states |
|---|---|---|
| `CommandLine.ParseCommand` | src/main/java/cloud/artik/example/MqttSmartLight.java:205-225 | with a count other than four, the result is `false` and neither field changes; the result is `true` exactly when four arguments were scanned without overrun and both fields are set |
| `CommandLine.DeviceThenToken` | src/main/java/cloud/artik/example/MqttSmartLight.java:210-224 | `-d X -t Y` returns true with `deviceId = X` and `deviceToken = Y`, for every X and Y and every earlier field value |
| `CommandLine.TokenThenDevice` | src/main/java/cloud/artik/example/MqttSmartLight.java:210-224 | `-t Y -d X` returns true with the same two fields |
| `CommandLine.FlagTakenAsValue` | src/main/java/cloud/artik/example/MqttSmartLight.java:212-217 | starting from null fields, `-d -t a b` sets `deviceId` to `"-t"`, leaves the token null and returns false |
| `CommandLine.RepeatedFlagKeepsLast` | src/main/java/cloud/artik/example/MqttSmartLight.java:212-214 | `-d x -d y` leaves `deviceId = y`; the token is unchanged and decides acceptance |
| `CommandLine.RepeatedTokenKeepsLast` | src/main/java/cloud/artik/example/MqttSmartLight.java:215-217 | `-t x -t y` leaves `deviceToken = y`; the device id is unchanged and decides acceptance |
| `CommandLine.FourArgumentClosedForm` | src/main/java/cloud/artik/example/MqttSmartLight.java:209-220 | for every four-argument line, the fields the loop leaves are those of `FourArgumentFields`: the flags the loop reaches as flags assign the argument after them in order, so the last such flag for a field decides its value |
| `CommandLine.ScanFrom` | src/main/java/cloud/artik/example/MqttSmartLight.java:209-220 | the scanning loop as a recursive function; it has no contract of its own, and `ParseCommand`, `FinalFlagOverruns`, `FourArgumentClosedForm`, `DeviceIdFromFlag` and `DeviceTokenFromFlag` state what it does |
| `CommandLine.FinalFlagOverruns` | src/main/java/cloud/artik/example/MqttSmartLight.java:210-217 | the read past the end happens exactly when the fourth argument is a flag and the loop reaches it as a flag (the third is no flag, or the third is the value of a flag in the second place) |
| `CommandLine.DeviceIdFromFlag` | src/main/java/cloud/artik/example/MqttSmartLight.java:212-214 | after the loop, `deviceId` is its old value or the argument right after some `-d` |
| `CommandLine.DeviceTokenFromFlag` | src/main/java/cloud/artik/example/MqttSmartLight.java:215-217 | after the loop, `deviceToken` is its old value or the argument right after some `-t` |
| `CommandLine.Credentials.constructor` | src/main/java/cloud/artik/example/MqttSmartLight.java:34-35 | both static fields start null |
| `CommandLine.Credentials.SucceedParseCommand` | src/main/java/cloud/artik/example/MqttSmartLight.java:205-225 | the outcome and the new fields are those of `ParseCommand` on the old fields |
| `Actions.UpdateState` | src/main/java/cloud/artik/example/MqttSmartLight.java:181-186 | publishes at QoS 2 the payload `{"state":true}` for true and `{"state":false}` for false |
| `Actions.BooleanText` | src/main/java/cloud/artik/example/MqttSmartLight.java:182 | Java's conversion of a boolean to `true` or `false` inside the payload concatenation; it has no contract of its own, and the contract of `UpdateState` states the payloads it yields |
| `Actions.DecodeUpdateState` | src/main/java/cloud/artik/example/MqttSmartLight.java:182 | the published payload reads back as the state that was published |
| `Actions.DecodeStateOnlyUpdateState` | src/main/java/cloud/artik/example/MqttSmartLight.java:182 | any payload that reads as a state is exactly the one `updateState` builds for it |
| `Actions.HandleAction` | src/main/java/cloud/artik/example/MqttSmartLight.java:163-178 | an empty list publishes nothing; something is published exactly when the first name is `setOn` or `setOff`, and then it is `updateState` of that name's state |
| `Actions.FirstActionDecides` | src/main/java/cloud/artik/example/MqttSmartLight.java:163-164 | elements after the first never change the outcome |
| `Actions.FirstWins` | src/main/java/cloud/artik/example/MqttSmartLight.java:164-173 | `setOff` followed by `setOn` publishes `{"state":false}` at QoS 2 |
| `Actions.UnknownActionIgnored` | src/main/java/cloud/artik/example/MqttSmartLight.java:174-176 | a first name other than `setOn` and `setOff` publishes nothing |
| `Session.Step` | src/main/java/cloud/artik/example/MqttSmartLight.java:57-111 | `endSession` becomes true exactly on a successful disconnect or a lost connection and is never cleared; at most one effect is issued; a subscribe exactly on a successful connect; an exit exactly on a failed connect; a publish is issued exactly for an inbound message on which `handleAction` publishes, and it is that publication |
| `Session.ActionEffects` | src/main/java/cloud/artik/example/MqttSmartLight.java:105 | `messageArrived`'s call of `handleAction`, as the effects it issues; it has no contract of its own, and the publish clause of `Step` states what it issues |
| `Session.EndSessionStaysSet` | src/main/java/cloud/artik/example/MqttSmartLight.java:80-99 | once `endSession` is true, no sequence of callbacks makes it false again |
| `Session.ExitOnConnectFailure` | src/main/java/cloud/artik/example/MqttSmartLight.java:57-64 | the process exits exactly when some connect fails, and the exit is the last effect ever issued |
| `Session.ConnectFailureTerminates` | src/main/java/cloud/artik/example/MqttSmartLight.java:60-61 | a failed connect as the first callback terminates the process before any subscribe or publish, whatever follows |
| `Session.ConnectionLostEndsSession` | src/main/java/cloud/artik/example/MqttSmartLight.java:97-100 | a lost connection anywhere before an exit leaves the session ended, whatever callbacks follow |
| `Session.ConnectThenSetOn` | src/main/java/cloud/artik/example/MqttSmartLight.java:72-106 | connect success, then a `setOn` message, issue one subscribe and then one publish of `{"state":true}` at QoS 2, with the session still running |
| `Session.SetOnTwice` | src/main/java/cloud/artik/example/MqttSmartLight.java:103-106 | the same `setOn` message twice publishes `{"state":true}` twice |
| `Session.SmartLightSession.constructor` | src/main/java/cloud/artik/example/MqttSmartLight.java:51 | `endSession` starts false and nothing has been issued |
| `Session.SmartLightSession.OnFailure` | src/main/java/cloud/artik/example/MqttSmartLight.java:57-66 | the new flag and the appended effects are those of `Step` |
| `Session.SmartLightSession.OnSuccess` | src/main/java/cloud/artik/example/MqttSmartLight.java:69-94 | the new flag and the appended effects are those of `Step` |
| `Session.SmartLightSession.ConnectionLost` | src/main/java/cloud/artik/example/MqttSmartLight.java:97-100 | the new flag and the appended effects are those of `Step` |
| `Session.SmartLightSession.MessageArrived` | src/main/java/cloud/artik/example/MqttSmartLight.java:103-106 | the new flag and the appended effects are those of `Step` |
| `Session.SmartLightSession.DeliveryComplete` | src/main/java/cloud/artik/example/MqttSmartLight.java:109-111 | nothing changes |

## Left out

- JSON decoding of inbound payloads (Gson and JsonParser) is a foreign call. `MessageArrived`
  carries the decoded action list. A payload without `actions` would give a null list and
  crash in the source; that path is not modelled.
- Actions.HandleAction: action names are plain strings. A descriptor without a `name` decodes
  to Java `null`, and the `switch` would throw `NullPointerException`; that case is not modelled.
- The transport library (`MqttSession`, Paho types) is not part of this model. `subscribe` and
  `publish` are recorded effects only, and the caught `ArtikCloudMqttException` paths are left
  out.
- `OperationMode` is defined in that library. The model has the four modes the callbacks name,
  so the `default` branch of `onSuccess` cannot be reached in the model.
- Concurrency and timing are left out: the busy-wait loop on `endSession`, the shutdown hook
  with its disconnect and two-second sleep, and writes to `endSession` from other threads.
- `System.out` and `System.err` logging and `printUsage` are left out. `System.exit` is the
  abstract `Exit` effect.
- CommandLine.DeviceIdFromFlag: it says only that the device id follows some `-d`, not which one.
  That it is the last `-d` the loop reaches as a flag is stated, for the four-argument lines the
  parser scans, by `CommandLine.FourArgumentClosedForm`.
- CommandLine.DeviceTokenFromFlag: it says only that the token follows some `-t`, not which one.
  That it is the last `-t` the loop reaches as a flag is stated, for the four-argument lines the
  parser scans, by `CommandLine.FourArgumentClosedForm`.
- `main` is not modelled as a member. It runs the parser once, starting from null fields, and
  starts a session only on `true`.
