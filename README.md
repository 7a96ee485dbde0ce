# Watch Room Server gateway — a verified model

The watch room server's entry point (`src/index.ts`) is a gateway in front of
the room coordinator (`WatchRoomServer`). It resolves its configuration from
the environment and refuses to start without a shared secret (`AUTH_KEY`). It
guards the `/stats` route and the Socket.IO connection upgrade with that
secret. It also runs the shutdown sequence on SIGINT, SIGTERM and uncaught
exceptions. This project models those three pieces in Dafny and proves what
they promise.

- `wrappers.dfy` — `Option`, used for unset variables and absent credentials.
- `js_text.dfy` (module `JsText`) — `parseInt(s, 10)` and `s.split(',')`, the
  two JavaScript built-ins the configuration relies on.
- `config.dfy` (module `Config`) — environment resolution. The result is
  `Halted(1)` or `Listening(settings)`.
- `auth.dfy` (module `Auth`) — the `/stats` handler and the `allowRequest`
  decision. Both are pure functions of the extracted credentials and the key.
- `lifecycle.dfy` (module `Lifecycle`) — a step function over the process
  state: effect trace, registered close callbacks, armed timers, exit code.
  The `Process` class's handlers are proved against that step function.
- `gateway.dfy` (module `Gateway`) — facts that need both the startup check
  and the credential checks.

The model follows the code as written:
- `shutdown` has no idempotency guard. Every SIGINT, SIGTERM or uncaught
  exception runs it again: `destroy()` is called again, `close()` is
  requested again, and another timer is armed (`TriggersRepeatShutdown`).
- `ALLOWED_ORIGINS` set to the empty string resolves to `[""]`, not `["*"]`.
  Optional chaining only stops at an unset value, and an array is truthy.
- A `PORT` in which `parseInt` finds no digits after the leading white
  space and sign (such as `abc` or `-`) resolves to NaN, not to 3001. The
  fallback applies only to an unset or empty value.
- Every attempt logs the raw key. The model claims no masking property.

## Model

| member | source | states |
|---|---|---|
| JsText.ParseInt | src/index.ts:17 | `parseInt(s, 10)`: skip ECMAScript white space, read one optional sign and the longest ASCII digit run, NaN exactly when that run is empty; its values are stated by ParseIntUnsigned, ParseIntSign, ParseIntDecimal and ParseIntSkipsWhiteSpace |
| JsText.ParseIntNaN | src/index.ts:17 | `parseInt(s, 10)` is NaN exactly when no digit follows the leading white space and sign; a positive result means there was no minus sign |
| JsText.ParseIntUnsigned | src/index.ts:17 | a run of digits followed by text that does not start with a digit reads as the value of those digits |
| JsText.ParseIntSign | src/index.ts:17 | after a sign character, `-` negates the value of the digits and `+` keeps it |
| JsText.ParseIntDecimal | src/index.ts:17 | reading back the decimal rendering of any natural number gives that number, whatever non-digit text follows |
| JsText.ParseIntNegative | src/index.ts:17 | a leading minus sign negates the value read |
| JsText.ParseIntPlusSign | src/index.ts:17 | a leading plus sign is skipped |
| JsText.ParseIntLeadingZeros | src/index.ts:17 | leading zeros do not change the value read, so `"08080"` reads as 8080 |
| JsText.ParseIntSkipsWhiteSpace | src/index.ts:17 | leading white space does not change the value read |
| JsText.Split | src/index.ts:19 | `split(',')` gives at least one piece, no piece holds a comma, and joining the pieces with commas gives the input back |
| JsText.SplitJoin | src/index.ts:19 | splitting a comma-joined list of comma-free pieces gives the list back, so split and join are inverse both ways |
| Config.OrElse | src/index.ts:17-20 | JavaScript's `or` default gives the fallback for an unset or empty value and the value otherwise |
| Config.SplitOrElse | src/index.ts:19 | optional-chained `split(',')` with a fallback gives the fallback only when unset, otherwise the split pieces |
| Config.Resolve | src/index.ts:17-26 | startup halts with exit code 1, before listening, exactly when `AUTH_KEY` is unset or empty; otherwise the resolved key is the variable's non-empty value |
| Config.DefaultPortIs3001 | src/index.ts:17 | an unset or empty `PORT` resolves to 3001 |
| Config.PortIsParsed | src/index.ts:17 | a `PORT` that starts with any number of zeros and then the decimal digits of n resolves to n, whatever non-digit text follows |
| Config.PortWithoutDigitsIsNaN | src/index.ts:17 | a non-empty `PORT` with no digits to read resolves to NaN, not to the default |
| Config.OriginsResolution | src/index.ts:19 | an unset `ALLOWED_ORIGINS` resolves to `["*"]`, an empty one to `[""]`; otherwise to comma-free pieces that join back to the value |
| Config.EnvironmentName | src/index.ts:20 | an unset or empty `NODE_ENV` resolves to "development", any other value is kept |
| Auth.Bearer | src/index.ts:51 | the accepted header is `"Bearer "` followed by exactly the key |
| Auth.StatsRoute | src/index.ts:49-57 | status 200 exactly when the header is `Bearer <key>`; otherwise 401 `{error: "Unauthorized"}` with no `getStats()` call; on 200 the body is the `getStats()` value unmodified, fetched once |
| Auth.UpgradeDecision | src/index.ts:98-110 | the gate accepts exactly when the header is `Bearer <key>` or the `auth` query equals the key |
| Auth.AllowRequest | src/index.ts:84-117 | the callback reports success exactly when the header or the query matches; success comes with no error, failure with `'Unauthorized'` |
| Auth.HeaderFirst | src/index.ts:99-103 | a matching header is accepted via the header whatever the query holds |
| Auth.QueryFallback | src/index.ts:106-116 | without a matching header the attempt is accepted exactly when the query equals the key, and never via the header |
| Auth.NoCredentialsRejected | src/index.ts:90-116 | a request with neither header nor query is refused by both checks |
| Auth.RejectionsAreOpaque | src/index.ts:116 | all rejected upgrade attempts get the same callback, and all refused `/stats` requests the same reply (line 52), whatever was sent |
| Auth.StatsIgnoresQuery | src/index.ts:49-53 | the `/stats` reply does not depend on the query |
| Auth.StatsStricterThanGate | src/index.ts:49-117 | whatever `/stats` accepts the gate accepts, but a correct `auth` query alone passes the gate and gets 401 from `/stats` |
| Gateway.EmptyCredentialsRejected | src/index.ts:23-26 | after a successful startup the key is non-empty, so an absent or empty query, an absent header and a bare `Bearer ` header are all refused |
| Gateway.ConfiguredKeyAccepted | src/index.ts:99-103 | `Bearer ` + the configured `AUTH_KEY` is accepted via the header by the gate and gets 200 with the statistics from `/stats` |
| Lifecycle.AfterShutdown | src/index.ts:140-155 | one `shutdown` appends `destroy()`, then the close request, then the 10000 ms timer, registers one more close callback and timer, and leaves the exit code alone |
| Lifecycle.Step | src/index.ts:140-168 | the reaction to one stimulus: after an exit nothing changes; from a running process a signal or uncaught exception runs `shutdown`, an unhandled rejection changes nothing, the close callback exits with 0 and the timer with 1, each only once registered, and nothing else exits; effects already made are never undone |
| Lifecycle.Run | src/index.ts:140-168 | the fold of `Step` over a sequence of stimuli: effects already made are never undone, and an exit code, once set, stays |
| Lifecycle.InitialWellFormed | src/index.ts:157-168 | the fresh process is in the reachable-state shape |
| Lifecycle.StepWellFormed | src/index.ts:140-168 | every stimulus keeps the shape: complete shutdown blocks, one close callback and one timer per block, and at most one final exit with code 0 or 1 |
| Lifecycle.RunWellFormed | src/index.ts:140-168 | any sequence of stimuli keeps that shape |
| Lifecycle.ExitIsFinal | src/index.ts:145-154 | after the process has exited, no stimulus changes anything |
| Lifecycle.RejectionsChangeNothing | src/index.ts:166-168 | any number of unhandled rejections leaves the process state as it was |
| Lifecycle.RunWithoutCallbacks | src/index.ts:157-164 | signals and uncaught exceptions with no callback firing add one full shutdown block per trigger and never exit |
| Lifecycle.TriggersRepeatShutdown | src/index.ts:157-164 | from a fresh process, n triggers give n `destroy()` calls, n close requests and n armed timers |
| Lifecycle.ShutdownOrder | src/index.ts:143-154 | in every reachable state each `destroy()` is immediately followed by its close request and its 10000 ms timer, and an exit is only ever the last effect |
| Lifecycle.Process.constructor | src/index.ts:157-168 | the process starts with no effects, no callbacks, no timers and no exit code |
| Lifecycle.Process.Shutdown | src/index.ts:140-155 | appends `destroy()`, close requested, timer armed, in that order, as `AfterShutdown` says |
| Lifecycle.Process.OnSigint | src/index.ts:157 | SIGINT runs a full `shutdown` |
| Lifecycle.Process.OnSigterm | src/index.ts:158 | SIGTERM runs a full `shutdown` |
| Lifecycle.Process.OnUncaughtException | src/index.ts:161-164 | an uncaught exception runs a full `shutdown` |
| Lifecycle.Process.OnUnhandledRejection | src/index.ts:166-168 | an unhandled rejection changes no modelled state |
| Lifecycle.Process.OnServerClosed | src/index.ts:145-148 | the close callback records and sets exit code 0 |
| Lifecycle.Process.OnForcedTimeout | src/index.ts:151-154 | the timer callback records and sets exit code 1 |

## Left out

- Middleware setup is not modelled: Express, helmet, cors, compression and `express.json`, plus the Socket.IO transport and ping options (src/index.ts:29-37, 74-82). These only configure libraries that are not part of this model.
- CORS origin matching is done inside the `cors` and Socket.IO libraries. The model only resolves the origin list.
- `dotenv.config()` (src/index.ts:11) is not modelled. The environment is an input, taken after `.env` loading.
- Credential extraction is not modelled: the `Authorization` header and `new URL(...).searchParams.get('auth')` (src/index.ts:90-92). Both credentials are given as `Option<string>` inputs. Node's handling of duplicate headers is not modelled.
- `/health` (src/index.ts:40-46) only reports the wall clock and a floating-point uptime. `/` (src/index.ts:60-71) is static metadata. Neither is modelled.
- All console output is left out: the attempt logs, the startup banner, and the shutdown messages. The model therefore also drops the signal label `shutdown` receives, which is only logged.
- `WatchRoomServer` is not part of this model. `getStats()` is the value passed to `StatsRoute`, and `destroy()` is a recorded effect.
- `listen` (src/index.ts:124) is not modelled, including Node's treatment of a NaN port. The model only decides whether startup reaches it.
- Timing is not modelled. The race between the close callback and the 10 s timer is two possible next stimuli, and the delay is only recorded as 10000. When several timers are armed, the model does not order them; any armed timer may fire, and each exits with 1.
- Node's runtime semantics are reduced to two rules. A second `httpServer.close` registers one more close callback; the error that callback would receive is ignored, as the code ignores it. After `process.exit`, no further stimulus has any effect.
- Process: the `Process` handlers take `requires Running()`, because a process that has exited runs no handlers. The pure `Step` treats those stimuli as no-ops instead.
- ParseInt: results are exact integers. The model does not capture double-precision rounding beyond 2^53, `-0` becomes 0, and a digit run whose value exceeds about 1.8e308 gives an integer rather than Infinity.
- ParseInt, Split: JavaScript strings are UTF-16 code units, while the model's characters are Unicode scalar values. White space is matched by code point.

