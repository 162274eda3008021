# WhatsApp gateway: connection state machine and HTTP projection

This project models the core of a NestJS WhatsApp gateway built on the Baileys socket library. It covers two parts.

- **`WhatsappService`** (module `Service`, file `whatsapp_service.dfy`) is a class with four fields:
  - `connectionStatus`, one of `open`, `close` or `unknown`;
  - `latestQRCode`, an optional string;
  - `socketPresent`, which stands for the `sock` field;
  - `effects`, a log of what the service asked of the socket library, with three kinds of entry: `ModuleInit` (a run of `onModuleInit`), `Send(jid, {text})` and `Logout`.

  The `connection.update` handler rewrites the status and the QR code from each event. On a `'close'` event whose disconnect status code is not `DisconnectReason.loggedOut`, the handler calls `OnModuleInit` again, and that call is recorded in the log. `sendMessage` and `onModuleDestroy` check whether a socket exists before doing anything.
- **`WhatsappController`** (module `Controller`, file `whatsapp_controller.dfy`) has three members:
  - `GetStatus` maps the service's two fields to the body of `GET whatsapp/status`;
  - `NormalizeJid` appends `@s.whatsapp.net` to a recipient that has no `@`;
  - `SendMessage` passes the send on to the service and returns `{success: true, message: 'Message sent'}` only when the service's send resolves.

Pure specification functions describe the handler:
- `QrAfter` gives the new QR code;
- `StatusAfter` gives the new status;
- `DisconnectCode` gives the status code, following the optional chain `lastDisconnect?.error?.output?.statusCode`;
- `ShouldReconnect` decides whether to reconnect;
- `Apply` gives the two fields after one event.

Two more functions describe a stream of events:
- `Replay` gives the two fields after each event of the stream is handled in turn;
- `Reconnects` counts the reconnect requests in the stream.

The `OnConnectionUpdate` method is proved against `Apply` and `ShouldReconnect`. The lemmas state what the handler promises over whole streams of events.

The service's external calls appear in the model as follows:
- The socket's `sendMessage` and `logout` are network calls. How their promises settle is a parameter: `delivery` or `logout`, of type `Outcome`.
- `DisconnectReason.loggedOut` is the constant `LoggedOut`, whose value is Baileys' 401. No proof depends on that value.
- The `qr` test uses JavaScript truthiness. A present but empty `qr` therefore clears the QR code, just like an absent one.

Three facts about the code shape the model:
- The code does not keep a QR code from coexisting with status `open`. An update with both `qr` and `connection: 'open'` sets both fields; the lemma `QrAndOpenCoexist` shows this case.
- `onModuleDestroy` never clears `sock`. So a later `SendMessage` still reaches the socket.
- There is no `connecting` status. `'connecting'`, like every other value of `connection` besides `'open'` and `'close'`, maps to `unknown`.

The code has one behaviour worth noticing. An update that carries only a QR code sets the status to `unknown`, so `getStatus` answers `{status: 'unknown'}` and does not expose that code. It exposes a QR code only when the same update also carries `connection: 'close'`. The lemmas `QrOnlyUpdateReportsUnknown` and `CloseUpdateExposesItsQr` state this.

## Model

| member | source | states |
|---|---|---|
| `Service.WhatsappService.constructor` | src/whatsapp/whatsapp.service.ts:19-25 | A new service has status `unknown`, no QR code, no socket and an empty effect log. Its two connection fields are `Initial()`, the starting point of every stream of updates |
| `Service.WhatsappService.GetConnectionStatus` | src/whatsapp/whatsapp.service.ts:27-29 | Returns exactly the current status and changes nothing |
| `Service.WhatsappService.GetLatestQRCode` | src/whatsapp/whatsapp.service.ts:31-33 | Returns exactly the current QR code, possibly `null`, and changes nothing |
| `Service.WhatsappService.OnModuleInit` | src/whatsapp/whatsapp.service.ts:35-48 | After initialisation a socket exists, one `ModuleInit` is logged, and the status and QR code are untouched |
| `Service.WhatsappService.OnConnectionUpdate` | src/whatsapp/whatsapp.service.ts:50-72 | Both fields become those of `Apply(u)`, whatever they were before. Exactly one `ModuleInit` is logged when the update is a `'close'` not caused by logout, and none otherwise |
| `Service.QrAfter` | src/whatsapp/whatsapp.service.ts:52-57 | The QR code is present exactly when the update's `qr` is present and non-empty, and then it equals that `qr`. Otherwise it is `null` |
| `Service.StatusAfter` | src/whatsapp/whatsapp.service.ts:58-71 | The status is `open` exactly for `'open'` and `close` exactly for `'close'`. Every other value, including an absent one, gives `unknown` |
| `Service.DisconnectCode` | src/whatsapp/whatsapp.service.ts:61 | A status code is found only when `lastDisconnect`, its `error` and the error's `output` are all present, and then it is `output.statusCode` |
| `Service.ShouldReconnect` | src/whatsapp/whatsapp.service.ts:58-65 | A reconnect is requested exactly when `connection` is `'close'` and the event's `lastDisconnect.error.output.statusCode` is not the logged-out code. Absent links in that chain count as "not logged out" |
| `Service.Apply` | src/whatsapp/whatsapp.service.ts:52-71 | After an update, the status is `open` exactly for `'open'` and `close` exactly for `'close'`. The QR code is the update's `qr` exactly when that is present and non-empty, and `null` otherwise. Nothing of the previous state remains |
| `Service.ReconnectOnStatusCode` | src/whatsapp/whatsapp.service.ts:60-64 | On a `'close'` whose Boom error carries status code `c`, a reconnect is requested exactly when `c` is not `loggedOut` |
| `Service.ReconnectDecision` | src/whatsapp/whatsapp.service.ts:58-65 | A reconnect happens only on `'close'`. On `'close'` it happens exactly when the status code is not `loggedOut`, so an absent `lastDisconnect` reconnects and the logged-out code never does |
| `Service.PlainErrorReconnects` | src/whatsapp/whatsapp.service.ts:60-61 | A `'close'` whose error is missing, or is not a Boom error (no `output`), requests a reconnect |
| `Service.QrIndependentOfConnection` | src/whatsapp/whatsapp.service.ts:52-57 | The QR code after an update depends only on its `qr`, not on `connection` or `lastDisconnect` |
| `Service.QrAndOpenCoexist` | src/whatsapp/whatsapp.service.ts:52-67 | An update with a QR code and `connection: 'open'` leaves both the status `open` and the QR code set |
| `Service.ReplayLastWins` | src/whatsapp/whatsapp.service.ts:50-72 | After any non-empty stream of updates, both fields are those the last update alone determines |
| `Service.ReconnectsOnlyFromCloses` | src/whatsapp/whatsapp.service.ts:58-66 | A stream requests at most one reconnect per update, and none when it contains no `'close'` |
| `Service.LoggedOutNeverReconnects` | src/whatsapp/whatsapp.service.ts:60-65 | A stream in which every `'close'` carries the logged-out code requests no reconnect |
| `Service.TransientClosesReconnectEach` | src/whatsapp/whatsapp.service.ts:60-65 | A stream of `'close'` updates not caused by logout requests exactly one reconnect per update |
| `Service.WhatsappService.SendMessage` | src/whatsapp/whatsapp.service.ts:80-85 | Without a socket it fails with "WhatsApp socket not initialized" and sends nothing. With one it sends exactly one `{text: message}` to `jid`, unchanged, and passes on how the socket's send settled |
| `Service.WhatsappService.OnModuleDestroy` | src/whatsapp/whatsapp.service.ts:87-91 | Logs out exactly once when a socket exists, and does nothing otherwise |
| `Controller.GetStatus` | src/whatsapp/whatsapp.controller.ts:9-17 | `{status:'ready'}` exactly when the status is `open`. `{qrCode}` exactly when it is `close`, with the service's QR code, possibly `null`. `{status:'unknown'}` exactly when it is `unknown` |
| `Controller.NormalizeJid` | src/whatsapp/whatsapp.controller.ts:21-24 | The result starts with the input and always contains `@`. A JID that has `@` is unchanged. Otherwise the result ends in `@s.whatsapp.net` and its only `@` is the appended one |
| `Controller.NormalizeIdempotent` | src/whatsapp/whatsapp.controller.ts:22-24 | Normalising twice equals normalising once |
| `Controller.SendMessage` | src/whatsapp/whatsapp.controller.ts:19-27 | The service receives the normalised JID and the message unchanged. `{success:true, message:'Message sent'}` is returned only when the service's send resolves, and a service rejection (no socket, or the socket's failure) propagates instead |
| `Controller.StatusAfterStream` | src/whatsapp/whatsapp.controller.ts:9-17 | After any non-empty stream of updates, the status response is the one the last update alone gives |
| `Controller.CloseUpdateExposesItsQr` | src/whatsapp/whatsapp.controller.ts:12-13 | After a `'close'` update the response is `{qrCode}` with that update's QR code, or `null` when it carries none |
| `Controller.QrOnlyUpdateReportsUnknown` | src/whatsapp/whatsapp.controller.ts:14-15 | After an update carrying only a QR code the response is `{status:'unknown'}`, without the code |

## Left out

- Socket construction is not modelled: `fetchLatestBaileysVersion`, `useMultiFileAuthState`, `makeWASocket` and the `creds.update` → `saveCreds` persistence are foreign library calls and file I/O. `OnModuleInit` only records that a socket now exists.
- Service.WhatsappService.OnModuleInit: a re-run of `onModuleInit` is asynchronous and subscribes a new socket's handlers while the old socket's handlers remain subscribed. The model records each run as one `ModuleInit` effect and models neither the concurrency nor the accumulating handlers.
- The `groupCache` lookup hook is a wrapper over an external cache library that nothing populates.
- The `messages.upsert` handler only writes a log line.
- Console logging is not modelled.
- `src/whatsapp/whatsapp-message.service.ts` is a Redis client wrapper, which is network I/O.
- The face-recognition endpoints are model loading, HTTP fetches and floating-point distance computation.
- Bootstrap and module wiring (`main.ts`, `app.module.ts`) are not modelled.
- `src/common/whatsapp/whatsapp.interface.ts` holds type declarations that no code uses.
- The `processMessage` call in `src/whatsapp/whatsapp.service.spec.ts` names a method the service does not have.
- Controller.SendMessage: a request body whose `jid` is not a string is not modelled; here `jid` is typed `string`. In JavaScript an undefined or numeric `jid` makes `jid.includes` throw. An array `jid` passes the `includes` test and is turned into a string by `+`, so the send goes ahead.
