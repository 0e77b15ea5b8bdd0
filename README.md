# Access validation webhook — Dafny model

The service bridges the Orion Context Broker and the FIWARE IoT Agent for an
ESP32 door controller. Orion calls `POST /notify` whenever an access point's
`lastCardRead` attribute changes. The service reloads the list of authorised
cards from `autorizados.json`, maps the access point entity to its device and
sends the device one `controlDoor` command, `GRANTED` or `DENIED`, through the
IoT Agent.

This project models that request path as pure functions:

- `Json` — decoded JSON values and the Python operations the handler applies
  to them (`in`, `[key]`, `len`, `[0]`, short-circuit `and`). Each operation
  yields `None` where Python would raise.
- `Text` — decimal rendering of an integer, splitting and joining at a
  separator, with their inverses. Used to read a command URL back.
- `Gateway` — the IoT Agent settings and `send_iota_command`: the URL,
  headers, query parameters and JSON body of the command request. The HTTP
  call is a parameter `post: Request -> bool`.
- `Authorization` — `carregar_autorizados`: the outcome of reading the file
  becomes the card-to-owner map, or the empty map on any failure.
- `Notification` — `handle_orion_notification`: a function from the decoded
  notification, the authorisation map and `post` to a `Response(status, body,
  command, accepted)`. `command` is an `Option`, so a notification dispatches
  at most one command by construction. `accepted` records the IoT Agent's
  answer to that command, which the source only logs.

The handler's `except Exception` branch is reached when one of the modelled
Python operations raises. `Handle`'s contract pins this down: status 500
happens only if the notification does not have the expected shape, or the
card id is a list or an object and so cannot be a dictionary key.

The command values are the upper-case strings `GRANTED` and `DENIED`. This
follows validation_service.py:143 and :146.

## Model

| member | source | states |
|---|---|---|
| `Notification.Handle` | validation_service.py:111-156 | Status is 200 "notificacao recebida", or 400 "Mapeamento entity/device não encontrado" with no command, or 500 "erro interno" with no command. A command is sent exactly when the first update has `id`, `type` and `lastCardRead.value`, the entity is `urn:ngsi-ld:AccessPoint:001`, and the card id can be looked up. That command is (`esp32-access-001`, `controlDoor`, `GRANTED` iff the card is a key of the map, else `DENIED`). The request posted for it is `BuildRequest` of that command, and its answer is recorded exactly when a command is sent. A 400 needs a well-formed update and happens exactly for an unknown entity. A 500 needs an unexpected shape. A notification object with no `data`, or with a `data` of length 0, gives 200 and no command. So does a first update that is an object lacking `id`, `type` or `lastCardRead`, or whose `lastCardRead` is an object without `value`. A first update that is null, a bool or a number gets 500 instead, and so does a `lastCardRead` that is null, a bool or a number in a first update that has `id` and `type` (see the two `Malformed` lemmas). |
| `Notification.Decide` | validation_service.py:114-154 | When the notification is an object whose `data` is a non-empty list, the outcome is the first update's outcome. Otherwise nothing is dispatched and nothing is rejected. A missing `data` or a `data` of length 0 is acknowledged. |
| `Notification.DecideEntity` | validation_service.py:117-146 | For one update: a command goes out exactly for a well-formed update from the known entity whose card id is hashable. That command is `GRANTED` iff the card is a string key of the map. The update is rejected exactly when it is well-formed and its entity is unknown. An error needs a malformed update or an unhashable card. An object update lacking `id`, `type` or `lastCardRead`, or with an object `lastCardRead` lacking `value`, is skipped. |
| `Notification.DeviceFor` | validation_service.py:133-137 | The entity table resolves exactly `urn:ngsi-ld:AccessPoint:001`, always to `esp32-access-001`. |
| `Notification.IsAuthorized` | validation_service.py:140 | The lookup raises exactly for an unhashable card id. It answers true exactly for a string card id that is a key of the map. |
| `Notification.Notify` | validation_service.py:115-120 | The notification the broker sends for a reading is read back by the handler as that same entity id, type and card. |
| `Notification.DispatchResultIgnored` | validation_service.py:143-156 | Status, body and command do not depend on whether the IoT Agent accepted the command. |
| `Notification.OnlyFirstUpdateInspected` | validation_service.py:115-116 | Updates after the first in `data` do not affect the response or the command. |
| `Notification.UnknownEntityIgnoresAuthorization` | validation_service.py:133-140 | An unknown entity gets 400 with no command, whatever the authorisation map holds. |
| `Notification.FailClosed` | validation_service.py:50-63 | If the authorisation file could not be read, any dispatched command is `DENIED`. Every well-formed read from the known entity with a string card dispatches `DENIED` and gets 200. |
| `Notification.DispatchedRequest` | validation_service.py:68-84 | Every command the handler dispatches goes to `iot-agent:4041` at `/iot/devices/esp32-access-001/commands/controlDoor`. Its query is `k=YOUR_API_KEY`, `i=esp32-access-001`. Its body is `{"controlDoor": "GRANTED"}` or `{"controlDoor": "DENIED"}`. |
| `Notification.DoorRequest` | validation_service.py:143-146 | The same for each of the two door commands, with the body naming the decision. |
| `Notification.KnownCardGranted` | validation_service.py:140-143 | Card `ABC123`, owned by Alice, read at the known access point: `GRANTED` is sent and 200 returned. |
| `Notification.UnknownCardDenied` | validation_service.py:144-146 | Card `ZZZ999`, absent from the map: `DENIED` is sent and 200 returned. |
| `Notification.UnknownAccessPointRejected` | validation_service.py:133-137 | Entity `urn:ngsi-ld:AccessPoint:999` gets 400 and nothing is sent. |
| `Notification.MalformedNotificationsAreInternalErrors` | validation_service.py:115-117 | A notification that is null, a bool or a number, a `data` of that kind, and a first update of that kind each end in 500 with no command, whatever other fields the notification has and whatever updates follow the first. |
| `Notification.MalformedReadingsAreInternalErrors` | validation_service.py:117-140 | A `lastCardRead` that is null, a bool or a number, in a first update that has `id` and `type`, ends in 500 with no command, whatever other fields and later updates there are. So does a list or object card id from the known entity. |
| `Authorization.Load` | validation_service.py:50-63 | A decoded file gives its entries. A missing file, invalid JSON or any other read error gives the empty map. |
| `Gateway.BuildRequest` | validation_service.py:65-84 | When the device id and command name contain no `/`, the URL reads back as host `iot-agent`, port 4041, the device id and the command name. Headers, parameters and body are those of the three helpers below. |
| `Gateway.CommandHeaders` | validation_service.py:71-75 | Headers are exactly `Content-Type: application/json`, `fiware-service: openiot` and `fiware-servicepath: /`. |
| `Gateway.CommandParams` | validation_service.py:78 | Query parameters are exactly `k` = API key and `i` = device id. |
| `Gateway.CommandPayload` | validation_service.py:84 | The body is the one-entry object mapping the command name to its value. |
| `Gateway.Send` | validation_service.py:92-102 | The result is the abstract HTTP call `post` applied to `BuildRequest(c)`: true when the agent accepted the command, false on any failure. |
| `Gateway.ParseCommandUrlRoundTrip` | validation_service.py:68 | The command URL determines host, port, device id and command name. This holds whenever the host has no `:` or `/` and the device id and command name have no `/`. |
| `Gateway.ParseCommandUrlExact` | validation_service.py:68 | Every URL the parser accepts is exactly the command URL of what it reads. Ports with leading zeros are refused, so the URL is pinned character for character. |
| `Text.Decimal` | validation_service.py:68 | The port appears in the URL as a non-empty digit string without leading zeros. |
| `Text.ValueOfDecimal` | validation_service.py:68 | Reading the port's digits back gives the port. |
| `Text.DecimalOfValue` | validation_service.py:68 | A digit string without leading zeros is the decimal rendering of the number it denotes. |
| `Json.Contains` | validation_service.py:115-117 | Python `in` with a string on the left succeeds exactly on objects, lists and strings. On an object it is key membership. |
| `Json.Subscript` | validation_service.py:116-120 | `x[key]` succeeds exactly on an object holding the key, and gives that key's value. |
| `Json.Len` | validation_service.py:115 | `len(x)` succeeds exactly on strings, lists and objects, and gives their size. |
| `Json.First` | validation_service.py:116 | `x[0]` of a non-empty list is its first element. It succeeds only on a non-empty list or string. |
| `Json.AndThen` | validation_service.py:117 | Short-circuit `and`: an error in the left operand propagates, a false left operand gives false without looking at the right one, and a true left operand gives the right operand. |

## Left out

- Flask plumbing: routing, `request.get_json`, `jsonify` and `app.run` on port 5050. The handler receives the decoded JSON value and returns a (status, body) pair. A request body that is not JSON never reaches the handler.
- The HTTP call itself: `requests.post`, the 10-second timeout, `raise_for_status` and the two exception branches. `post` is an arbitrary function standing for the IoT Agent's answer. The handler records that answer in `Response.accepted` and does not otherwise use it.
- Query-string percent-encoding and JSON serialisation of the body are done by the HTTP client. The request keeps `params` as a map and the body as a JSON value.
- File access in `carregar_autorizados`: opening the file and running `json.load`. The loader receives the outcome of that attempt.
- Authorization.Load: the file is assumed to hold a JSON object of strings. A file whose top-level value is a list, or whose owner labels are not strings, is outside the model.
- JSON numbers are integers. Floating point never matters, since numbers are only compared with strings.
- Logging (`print`) has no effect on behaviour. `ORION_HOST` and `ORION_PORT` are never used by the logic.
