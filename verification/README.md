# Logs session manager — a Dafny model

This project models the logs product's adapter onto the browser SDK's shared
session manager (`packages/logs/src/domain/logsSessionManager.ts`). Several
products share one session record, and each product owns one entry in it. The
logs product's entry, under the key `logs`, holds a one-character tracking
code: `"0"` for NOT_TRACKED and `"1"` for TRACKED. The adapter does four things:

- it decides whether a raw code read from the record is valid;
- it keeps a valid code, or replaces a missing or garbled one with a fresh
  sampling decision;
- it derives the `isTracked` flag from the chosen code;
- it builds the `getId` / `isTracked` facade. There is a cookie-less mode and
  a cookie mode.

Everything is in one module, `LogsSessionManagement`, in
`logs_session_manager.dfy`. The source is pure, with no loops and no mutated
fields, so the model is pure too: datatypes, functions and lemmas.

- The tracking type is a two-variant datatype. Its `Code()` gives the wire
  string.
- A raw code is an `Option<string>`. `None` stands for `undefined`.
- The outcome of `performDraw(sampleRate)` is a boolean parameter `draw`.
- The shared manager's getters (`getId`, `getTrackingType`) are a datatype of
  two function values, passed in as a parameter. Such a value is a snapshot of
  the shared manager at one moment. How its answers change over time, for
  example after the session expires because the cookie is cleared
  (`logsSessionManager.spec.ts:96-100`), is not captured.
- `Rereads` models the shared manager calling the logs callback on every tick
  when no one else writes the record. Each tick reads back the code the
  previous tick stored, and each tick has its own draw. `RereadsKeepFirstState`
  proves that the first tick's state never changes after that.

The cookie-less `isTracked` follows the code, not the test title at
`logsSessionManager.spec.ts:84` ("computed at each call"). The
decision is drawn once, when the facade is built (line 20). The closure at
line 23 then returns that same value on every call. `CookielessFacadeIsConstant`
states this.

## Model

| member | source | states |
|---|---|---|
| `LogsSessionManagement.LoggerTrackingType.Code` | packages/logs/src/domain/logsSessionManager.ts:10-13 | Each tracking type's wire code is one character in '0'..'1'. The character is '1' exactly for TRACKED, so NOT_TRACKED is "0" and TRACKED is "1". |
| `LogsSessionManagement.HasValidLoggerSession` | packages/logs/src/domain/logsSessionManager.ts:50-52 | A raw code is valid exactly when it is the wire code of some tracking type. |
| `LogsSessionManagement.InvalidCodes` | packages/logs/src/domain/logsSessionManager.ts:50-52 | An absent entry is invalid. So is every string other than "0" and "1", the empty string included. |
| `LogsSessionManagement.AsTrackingType` | packages/logs/src/domain/logsSessionManager.ts:50 | The type guard's narrowing: a valid raw code is the code of the tracking type it is read as. |
| `LogsSessionManagement.CodeRoundTrip` | packages/logs/src/domain/logsSessionManager.ts:10-13 | Every tracking type's code is valid and reads back as that type. The two types have different codes. |
| `LogsSessionManagement.ComputeTrackingType` | packages/logs/src/domain/logsSessionManager.ts:35-40 | A fresh decision is TRACKED exactly when the draw succeeds. |
| `LogsSessionManagement.ComputeSessionState` | packages/logs/src/domain/logsSessionManager.ts:42-48 | The result's code is always valid, and `isTracked` holds exactly when the type is TRACKED. A valid input code is returned unchanged. Otherwise the type is TRACKED exactly when the draw succeeds. |
| `LogsSessionManagement.DrawIgnoredForValidCode` | packages/logs/src/domain/logsSessionManager.ts:43 | With a valid raw code, two different draws give the same state, and its type is the one the code names. |
| `LogsSessionManagement.ResampleWhenInvalid` | packages/logs/src/domain/logsSessionManager.ts:35-47 | With an absent or invalid code, the state is the fresh decision, and its flag equals the draw. |
| `LogsSessionManagement.SessionStateFixedPoint` | packages/logs/src/domain/logsSessionManager.ts:42-52 | Feeding a computed state's code back in gives the same state, whatever the second draw. |
| `LogsSessionManagement.Rereads` | packages/logs/src/domain/logsSessionManager.ts:26-28 | After any number of ticks, the state's flag matches its tracking type. The substance, that the state never changes, is in `RereadsKeepFirstState`. |
| `LogsSessionManagement.RereadsKeepFirstState` | packages/logs/src/domain/logsSessionManager.ts:26-28 | However many ticks read back the stored code, the state stays the one computed on the first tick. |
| `LogsSessionManagement.RereadsIgnoreLaterDraws` | packages/logs/src/domain/logsSessionManager.ts:26-28 | Two tick sequences that start with the same draw end in the same state, whatever the later draws. |
| `LogsSessionManagement.StartLogsSessionManagement` | packages/logs/src/domain/logsSessionManager.ts:15-33 | Cookie-less: `getId` is always undefined and `isTracked` always returns the construction-time draw. Cookie mode: `getId` is the shared manager's `getId`, and `isTracked(t)` holds exactly when the shared manager's code at `t` is "1". |
| `LogsSessionManagement.CookielessFacadeIsConstant` | packages/logs/src/domain/logsSessionManager.ts:19-25 | Cookie-less: there is no id at any time, and `isTracked` gives the same answer at any two times. |
| `LogsSessionManagement.CookieIsTrackedDecodes` | packages/logs/src/domain/logsSessionManager.ts:29-32 | Cookie mode: `isTracked(t)` holds exactly when the code at `t` is valid and reads as TRACKED. An absent or garbled code reads as not tracked. |
| `LogsSessionManagement.CookieIsTrackedAgreesWithState` | packages/logs/src/domain/logsSessionManager.ts:26-32 | Cookie mode: if the shared manager stored a state from `ComputeSessionState`, the facade's `isTracked` equals that state's flag. |
| `LogsSessionManagement.KeepsExistingCodeScenario` | packages/logs/src/domain/logsSessionManager.spec.ts:53-68 | A stored "1" stays TRACKED under a failing draw, and a stored "0" stays NOT_TRACKED under a succeeding draw. The test with "1" runs with a succeeding draw, so that half is stronger than the test; `DrawIgnoredForValidCode` covers both draws. |
| `LogsSessionManagement.ResamplesWhenAbsentScenario` | packages/logs/src/domain/logsSessionManager.spec.ts:35-51 | With no entry, a succeeding draw stores "1" and makes the state tracked; a failing draw stores "0" and makes it not tracked. |

## Left out

- `performDraw` and `Math.random`: floating-point randomness. Only the draw's boolean outcome is modelled, so the sample-rate edge cases (0 and 100) are not.
- `startSessionManagement` of the core package: reading and writing the cookie, the `id=...&logs=...` record encoding and id generation. Its getters are parameters, and `Rereads` models only its repeated invocation of the callback.
- Read throttling (`COOKIE_ACCESS_DELAY`), the session history behind `getId(startTime)` and `getTrackingType(startTime)`, renewal on user activity, expiry durations and `stopSessionManagement`. These are timer, I/O and DOM code outside this file. The history test at `logsSessionManager.spec.ts:91-104` is therefore not modelled.
- The `Configuration` object: only its `sampleRate` matters here, and it reaches the model through `draw` (`cookieOptions` goes only to the shared manager, which is left out).
- `test/e2e/scenario/agents.scenario.ts`: end-to-end browser scenarios with no logic of the adapter's own.
