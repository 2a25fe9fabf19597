# Cloud storage writer and IoT message hub, modelled in Dafny

This project models the per-message logic of two flow nodes.

- **gcs-write** (`GcsWrite`, `GcsUrl`): one input message is handled in order.
  1. Report an error if there is no target: no `msg.filename` and an empty configured filename.
  2. Report an error if there is no data (`msg.payload`).
  3. Pick the URL. A truthy `msg.filename`, trimmed, wins over the configured filename.
  4. Split `gs://BUCKET/PATH` with the regular expression `gs:\/\/([^\/]*)\/(.*)$`.
  5. Pick the content type: the message's, then the configured one, then none.
  6. Write the payload non-resumably.
  7. Forward the message only when the write stream finishes; a stream error is reported with the message attached.

  The node's configuration is trimmed when the node is created. The storage client is built from the account's credentials, else from the key file, else with no options.
- **iot message-hub** (`MessageHub`): a class holding the connection pool, the status on display and a log of effects.
  - An input over MQTT is published only when the pool entry for the device is present and connected.
  - An input over HTTP is sent with one HTTP call.
  - The input is then forwarded with `send_status`, on every path, unless a transmit call throws.
  - Inbound broker messages are forwarded as `{topic, payload}`.
  - Closing the node disconnects the client under MQTT.

JavaScript semantics are written out in `JsValues`:
- Truthiness: `undefined` and `""` are falsy, and a Buffer is always truthy.
- `String.prototype.trim` over ECMAScript WhiteSpace and LineTerminator.
- Line terminators (LF, CR, U+2028, U+2029), which `.` in a regular expression does not match.

The regular expression is not anchored at the start. `ParseGsUrl` therefore tries every start position and keeps the leftmost one that matches. At a given start, `[^/]*` must stop at the first `/` after `gs://` (it can hold line terminators). `(.*)$` must reach the end of the string without crossing a line terminator.

The model follows the code as written:
- The MQTT branch for an absent or disconnected client still forwards the message, with `send_status` false. The comment at `iot-message-hub.js:66` says nothing is sent, but `node.send(msg)` at line 75 runs on that path too.
- A transmit call that throws, or an awaited HTTP call that rejects, ends the input handler before `node.send(msg)`. Whether the call returns or throws is a parameter of `OnInput`.
- The hub never checks that the payload is non-empty.
- Closing the node does not itself remove the connection from the pool. `mqttDisconnect` lives in `iot-utils.js`, which is not part of this model.

## Model

| member | source | states |
|---|---|---|
| JsValues.TrimStart | gcs-write.js:53-54 | the result is a suffix of the input, everything cut off is trimmable, and the result does not start with a trimmable character |
| JsValues.TrimEnd | gcs-write.js:53-54 | the result is a prefix of the input, everything cut off is trimmable, and the result does not end with a trimmable character |
| JsValues.TrimIsMaximalInfix | gcs-write.js:82 | trim returns an infix s[i..j] with only trimmable characters outside it, and the result neither starts nor ends with a trimmable character |
| JsValues.TrimAllTrimmable | gcs-write.js:82 | a string made only of whitespace and line terminators trims to "" |
| JsValues.TrimIdempotent | gcs-write.js:53-54 | trimming an already trimmed configuration value changes nothing |
| JsValues.Trim | gcs-write.js:53-54 | String.prototype.trim: the result is no longer than the input and neither starts nor ends with whitespace or a line terminator |
| GcsUrl.SlashFrom | gcs-write.js:91 | the greedy `[^/]*` run ends at the first '/' at or after its start, or at the end of the string, and holds no '/' |
| GcsUrl.SlashFromFinds | gcs-write.js:91 | any '/' reached through a slash-free stretch is exactly where the greedy run stops |
| GcsUrl.MatchAtIff | gcs-write.js:91 | the pattern matches at position i with groups (b, f) if and only if the text from i is "gs://" + b + "/" + f, b has no '/' and f has no line terminator |
| GcsUrl.SearchFromFirst | gcs-write.js:91 | the search returns the match at the first start position that matches, and no earlier position matches |
| GcsUrl.SearchFromComplete | gcs-write.js:91 | if any later start position matches, the search finds a match |
| GcsUrl.SearchFrom | gcs-write.js:91 | trying start positions from i on, a match has a slash-free bucket and a terminator-free name, and "gs://" + bucket + "/" + name is a suffix of the URL no longer than the text from i |
| GcsUrl.ParseGsUrl | gcs-write.js:91-98 | the bucket never holds '/', the object name never holds a line terminator, and "gs://" + bucket + "/" + name ends the URL |
| GcsUrl.ParseGsUrlSound | gcs-write.js:91-98 | on success the bucket has no '/', the file has no line terminator, "gs://" + bucket + "/" + file is a suffix of the URL, and that suffix starts at the leftmost matching position |
| GcsUrl.ParseGsUrlFailsIff | gcs-write.js:91-95 | parsing fails (Badly formed URL) if and only if no position starts "gs://" + slash-free run + "/" + terminator-free tail to the end |
| GcsUrl.ParseGsUrlRoundTrip | gcs-write.js:91-98 | for any slash-free bucket and any file without line terminators, possibly empty, parsing "gs://" + bucket + "/" + file gives back (bucket, file) |
| GcsWrite.SelectStorage | gcs-write.js:135-147 | credentials are used if and only if an account is configured; the key file if and only if there is no account and a key file is given; otherwise no options |
| GcsWrite.SelectContentType | gcs-write.js:107-113 | a truthy msg.contentType wins, else the configured value if non-empty, else none; a content type is set if and only if one of the two is non-empty, and never "" |
| GcsWrite.SelectUrl | gcs-write.js:80-86 | a truthy msg.filename is used trimmed, the configured filename only when msg.filename is falsy; a whitespace-only msg.filename is not replaced and gives a badly formed URL |
| GcsWrite.WriteEffects | gcs-write.js:115-123 | after a successful parse there is exactly one write, and the message is forwarded exactly once if the stream finishes and never otherwise |
| GcsWrite.GcsWriteNode.constructor | gcs-write.js:46-54 | the configured filename and content type are stored trimmed and the storage client follows the credential precedence |
| GcsWrite.GcsWriteNode.Input | gcs-write.js:68-125 | a missing target gives exactly one error, checked before a missing payload, which also gives exactly one error; a badly formed URL gives exactly one error; otherwise one non-resumable write to the parsed bucket and file with the selected content type, then forward on finish or an error carrying the message on a stream error; at most one write, at most one forward, always of the input message |
| MessageHub.DisplayedStatusAppend | iot-message-hub.js:60-65 | the status on display after more effects is the last status they show, or the earlier status if they show none |
| MessageHub.ForwardedAppend | iot-message-hub.js:75 | the messages forwarded by two stretches of effects are those of the first followed by those of the second |
| MessageHub.InputEffects | iot-message-hub.js:50-76 | a status is shown first and only under MQTT, no other effect shows one, nothing is forwarded before the last effect, and the last effect forwards the message unless a transmit call throws |
| MessageHub.InputForwarding | iot-message-hub.js:50-76 | an input forwards exactly one message unless a transmit call throws, and then none: the input with topic and payload unchanged and send_status true exactly under MQTT with a present, connected pool entry, including the disconnected MQTT branch |
| MessageHub.InputTransmissions | iot-message-hub.js:55-74 | one transmitMQTT(payload, deviceId, topic) under MQTT with a live pool entry, one transmitHTTP(payload, deviceId) under HTTP, and no transmit call otherwise |
| MessageHub.InputStatus | iot-message-hub.js:55-69 | under MQTT the status becomes connected if the pool entry is live and disconnected if it is absent, null or not connected; under any other transport the status does not change |
| MessageHub.CloseEffects | iot-message-hub.js:80-85 | closing disconnects the device if and only if the transport is MQTT, and does nothing else |
| MessageHub.ResolvedEffects | iot-message-hub.js:104-107 | the resolved connection shows connected if and only if the client is connected, and does nothing else |
| MessageHub.InboundEffects | iot-message-hub.js:109-121 | one broker message forwards exactly {topic, payload}, both unchanged and without send_status, and leaves the client's connection state on display |
| MessageHub.InboundRelayInOrder | iot-message-hub.js:109-121 | a series of broker messages is forwarded one for one, in order, as {topic, payload} with both unchanged and no send_status, and the status ends as the client's connected flag at the last message |
| MessageHub.MessageHubNode.constructor | iot-message-hub.js:92-97 | under MQTT the node shows disconnected and then calls mqttConnect for the device; otherwise it shows and calls nothing |
| MessageHub.MessageHubNode.ShowNodeStatus | iot-message-hub.js:60 | the given status is shown, logged, and is the status on display |
| MessageHub.MessageHubNode.UpdatePool | iot-message-hub.js:57 | the pool the next input reads is replaced; nothing is logged and the status does not change |
| MessageHub.MessageHubNode.OnInput | iot-message-hub.js:50-76 | appends exactly the input's effects to the log (stopping after a transmit call that throws), sets the status as the input rule says, keeps the status equal to the last one shown, and leaves the pool unchanged |
| MessageHub.MessageHubNode.OnClose | iot-message-hub.js:80-85 | appends the close effects and leaves the status unchanged |
| MessageHub.MessageHubNode.OnConnectionResolved | iot-message-hub.js:104-107 | shows connected if the resolved client is connected and changes nothing otherwise |
| MessageHub.MessageHubNode.OnBrokerMessage | iot-message-hub.js:109-121 | shows the client's connection state, then forwards {topic, payload} |

## Left out

- GcsWrite.GcsWriteNode.Input: `storage.bucket`, `bucket.file` and `createWriteStream` are assumed to return normally, for an empty bucket or object name too (as parsed from "gs:///f"). A throw from one of them would end the handler with no effect after it, which the model does not capture.
- The cloud storage SDK (`Storage`, `bucket`, `file`, `createWriteStream`) is not modelled. A write is one `Write` effect whose end, `finish` or `error`, is a parameter of `Input`. A stream that emits both events, or emits one of them twice, is not modelled.
- `GetCredentials` and `RED.nodes.getCredentials` are foreign calls. The function parameter `credentialsOf` stands for them. The parsed credentials are taken to be a JSON object, which is always truthy.
- `RED.util.ensureString` and `RED.util.ensureBuffer` are not modelled. Filenames and content types are taken to be strings already. The payload is passed to the transmit calls as it is.
- Message payloads are missing, a string or a Buffer. Numbers, booleans and `null` as payloads are not modelled, and neither are non-string filenames or content types.
- Message properties other than payload, filename, contentType, topic and send_status are not modelled. The forwarded message is the input value with `send_status` updated, so any other property would pass through unchanged.
- `iot-utils.js` is not part of this model. `mqttConnect`, `transmitMQTT`, `transmitHTTP` and `mqttDisconnect` are uninterpreted effects. The connection pool they maintain is given when the node is created and replaced as a whole by `UpdatePool`. Neither the pool nor the `connected` flag of a broker message is tied to the client that `mqttConnect` returns.
- MessageHub.CloseEffects: does not state that the connection leaves the pool, because that happens inside `mqttDisconnect`, which is not part of this model.
- The connection promise, the swallowed connection exception (`iot-message-hub.js:95-102`), `async`/`await` scheduling and listener registration are not modelled. Each handler is one atomic step, and the awaited HTTP call is a single effect that precedes the forward.
- The status fill, shape and text objects are reduced to the three values Unset, Connected and Disconnected.
- JavaScript strings are sequences of UTF-16 code units, and Dafny strings are sequences of Unicode scalar values. Strings with lone surrogates cannot be represented; on every other string, trim and the regular expression give the same results.
- Node type registration, the `node.on` wiring and the empty `Close` of the storage node are not modelled.
