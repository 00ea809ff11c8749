# Extension-host window API, modelled in Dafny

This project models `ExtHostWindow`, the extension-host half of VS Code's window API
(`src/vs/workbench/api/common/extHostWindow.ts`). The class does three things:

- **Focus state.** It keeps a cached `WindowState` (`{focused}`, initially `{focused: true}`)
  in step with focus notifications pushed by the main process. It fires `onDidChangeWindowState`
  once for every notification that actually changes the state.
- **Request checks.** It checks the scheme of a URI before forwarding an `openUri` or
  `resolveExternalUri` request to the main process.
  - `openUri` refuses unparseable strings, blank schemes and the `command` scheme.
  - `resolveExternalUri` admits only `http` and `https`.
- **One-shot release.** With every resolved URI it hands out a `dispose` function, wrapped in
  `once`, that tells the main process to release the resolve handle at most once.

Files:

- `wrappers.dfy` (module `Wrappers`): `Option` and `Result`.
- `uris.dfy` (module `Uris`): the URI record, the scheme names `command`, `http` and `https`, and
  the "empty or whitespace" test on strings.
- `window.dfy` (module `Window`) holds three groups of members:
  - The pure request checks `ValidateOpen` and `ValidateResolve`.
  - The focus specification: `OnFocus` for one notification and `Replay` for a sequence of them.
  - The release specification: `ReleaseCalls` and `DisposeTimes`.
  - Three classes:
    - `MainThreadWindow` is the main-process proxy. Its ghost `calls` log records every request
      that reached it.
    - `ReleaseDisposer` is the `once`-wrapped `dispose` closure. It keeps a hidden `called` flag.
    - `ExtHostWindow` is the class itself.

Where the source changes state, the model changes state too. The focus handler updates the
`state` and `fired` fields in place. The disposer flips `called`. Each forwarded request appends
to the proxy's log. Each class method's contract is tied to the pure specification functions.
The lemmas state the properties of those functions:

- Events alternate and are never redundant.
- A repeated notification is a no-op.
- Any number of `dispose` calls release the handle once, or not at all if there were none.
- The resolve check is stricter than the open check.

`ExtHostWindow.Valid()` says that the cached state and the events fired equal
`Replay(initial, notified)`. Here `notified` is the ghost history of received focus values.
This is the invariant that the cached value is the last value received from the main process.

The code rejects with plain message strings, not structured error objects. The model keeps the
four kinds of rejection the code distinguishes:

- an unparseable string;
- a blank scheme ("cannot be empty");
- a disallowed scheme, which carries that scheme;
- a failure reported by the main process, passed on unchanged.

The exact message texts are not modelled.

## Model

| member | source | states |
|---|---|---|
| `Window.ExtHostWindow.constructor` | src/vs/workbench/api/common/extHostWindow.ts:16-31 | before any notification the state is `{focused: true}` and no event has fired; the only request sent is the visibility query |
| `Window.ExtHostWindow.OnDidChangeWindowFocus` | src/vs/workbench/api/common/extHostWindow.ts:33-40 | a value equal to the cached one changes nothing. A different value replaces only `focused` and appends exactly one event carrying the new state. Afterwards the fired events alternate, and the last one is the cached state |
| `Window.OnFocus` | src/vs/workbench/api/common/extHostWindow.ts:33-40 | after a notification the cached value is the value received. An event fires if and only if the state changed, and it carries the new state. Nothing but `focused` is replaced |
| `Window.Replay` | src/vs/workbench/api/common/extHostWindow.ts:33-40 | after a sequence of notifications, the cached value is the last value received. Events are only appended, at most one per notification |
| `Window.ReplayAlternates` | src/vs/workbench/api/common/extHostWindow.ts:25-40 | starting from any state with no events, the fired events alternate, and the first one flips the start value. The cached state is the last event fired, or the start state if none fired |
| `Window.NoRedundantEvents` | src/vs/workbench/api/common/extHostWindow.ts:34-39 | each event is strictly newer than the one before it, and the first differs from the start state |
| `Window.RepeatedNotificationIsNoOp` | src/vs/workbench/api/common/extHostWindow.ts:34-36 | a second notification with the same value is a no-op, so two in a row fire at most one event |
| `Window.ValidateOpen` | src/vs/workbench/api/common/extHostWindow.ts:43-54 | an unparseable string is rejected with that string, and a blank scheme is rejected as empty. A `command` scheme is rejected as an invalid scheme, and it is the only one. Exactly the URIs with a non-blank, non-`command` scheme are admitted, and they are admitted unchanged |
| `Window.ExtHostWindow.OpenUri` | src/vs/workbench/api/common/extHostWindow.ts:42-56 | a rejected input leaves the proxy log unchanged. An admitted one appends exactly one open request with the same URI and options, and returns the main process's answer or failure |
| `Window.ValidateResolve` | src/vs/workbench/api/common/extHostWindow.ts:59-63 | a URI is admitted if and only if its scheme is exactly `http` or `https`, and it is admitted unchanged. A blank scheme is rejected as empty; any other scheme is rejected as invalid |
| `Window.ExtHostWindow.ResolveExternalUri` | src/vs/workbench/api/common/extHostWindow.ts:58-72 | a rejected URI leaves the proxy log unchanged. An admitted one appends exactly one resolve request. On success it returns the result URI and a fresh disposer for the returned handle that has not been called yet. A main-process failure is passed on |
| `Window.ResolveGateStricterThanOpen` | src/vs/workbench/api/common/extHostWindow.ts:50-63 | every URI that `resolveExternalUri` admits also passes the checks of `openUri` |
| `Window.CommandCheckIsCaseSensitive` | src/vs/workbench/api/common/extHostWindow.ts:52-53 | the `command` check is an exact comparison: `Command` and `COMMAND` pass it |
| `Window.ReleaseCalls` | src/vs/workbench/api/common/extHostWindow.ts:68-70 | one call of the disposer sends at most one request, a release of its own handle, and sends one if and only if it was not called before |
| `Window.DisposeReleasesAtMostOnce` | src/vs/workbench/api/common/extHostWindow.ts:68-70 | `n` calls of a fresh disposer release the handle exactly once if `n >= 1` and never if `n = 0`. Once it has been called, later calls release nothing |
| `Window.DisposeTimesStep` | src/vs/workbench/api/common/extHostWindow.ts:68-70 | one more call of the disposer sends exactly what a single call sends once the earlier calls have set the flag |
| `Window.DisposeRepeatedly` | src/vs/workbench/api/common/extHostWindow.ts:68-70 | `n` real calls of `Dispose` append exactly `DisposeTimes(called, handle, n)` to the proxy log. Together with `DisposeReleasesAtMostOnce`, a fresh disposer releases its handle once for any `n >= 1` |
| `Window.ReleaseDisposer.constructor` | src/vs/workbench/api/common/extHostWindow.ts:68-70 | a new disposer holds the proxy and the handle, and has not been called |
| `Window.ReleaseDisposer.Dispose` | src/vs/workbench/api/common/extHostWindow.ts:68-70 | the first call appends one release of the handle to the proxy log. Any later call appends nothing |
| `Window.MainThreadWindow.constructor` | src/vs/workbench/api/common/extHostWindow.ts:20-29 | the proxy starts with an empty request log |
| `Window.MainThreadWindow.GetWindowVisibility` | src/vs/workbench/api/common/extHostWindow.ts:30 | the visibility query is recorded in the log |
| `Window.MainThreadWindow.OpenUri` | src/vs/workbench/api/common/extHostWindow.ts:55 | the open request is recorded with its URI and options, and the main process's answer is returned as given |
| `Window.MainThreadWindow.ResolveExternalUri` | src/vs/workbench/api/common/extHostWindow.ts:65 | the resolve request is recorded with its URI and options, and the main process's answer is returned as given |
| `Window.MainThreadWindow.ReleaseResolvedExternalUri` | src/vs/workbench/api/common/extHostWindow.ts:69 | the release of the handle is recorded in the log |

## Left out

- Promises, `async`/`await` and the RPC transport are not modelled. Each call completes at once.
  What the main process answers is passed in as a parameter, and a rejection is a `Failure` value.
- The constructor's `$getWindowVisibility().then(...)` is modelled only as a request recorded in
  the log. Its answer arrives later as an ordinary `OnDidChangeWindowFocus` call.
- `URI.parse` is a parameter `parse: string -> Option<Uri>`. A thrown exception is `None`. Its
  grammar (`vs/base/common/uri`) is not part of this model.
- `URI.from(result)` is modelled as keeping the result's components unchanged. It is taken never
  to throw. If it did throw, after the resolve request has been sent, the promise would reject and
  no disposer would be returned, so the handle would never be released. That path is not modelled.
- The `Emitter` and its subscribers are modelled as the sequence `fired` of fired states.
  Delivery order to listeners and removing listeners are not modelled.
- The source of `isFalsyOrWhitespace` (`vs/base/common/strings`) is not part of this model. It is
  restated in `Uris.IsFalsyOrWhitespace`:
  - A string passes when every character is one that ECMAScript's `String.prototype.trim` removes.
  - The helper also returns true for `undefined` and non-string values. A URI's scheme is always
    a string, so that case is not modelled.
  - Strings are sequences of Unicode scalar values, not UTF-16 code units.
- The exact rejection message texts are not modelled.
- `IOpenUriOptions` is an opaque record that is passed through. What the main process does with
  opened or resolved URIs is not modelled.
- The release request is recorded as one entry in the log. Its fire-and-forget delivery is not
  modelled.
