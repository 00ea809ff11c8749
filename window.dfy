/**
 * The extension-host side of the window API: a cached copy of the window's focus
 * state kept in step with notifications from the main process, a change event
 * that fires once per real change, and two URI requests that are checked locally
 * before they are forwarded to the main process.
 *
 * The main process is represented by `MainThreadWindow`, whose ghost `calls` log
 * records every request that reached it. What it answers is passed in by the caller
 * of each operation, as is the URI parser.
 */
module Window {
  import opened Wrappers
  import opened Uris

  // ---------------------------------------------------------------------------
  // Values exchanged with the main process
  // ---------------------------------------------------------------------------

  /** The window state exposed to extensions. */
  datatype WindowState = WindowState(focused: bool)

  /** The state assumed before the main process has said anything. */
  const InitialState: WindowState := WindowState(true)

  /** Options handed to the main process unchanged; never inspected on this side. */
  datatype OpenUriOptions = OpenUriOptions(entries: map<string, string>)

  /** A failure reported by the main process; passed on untouched. */
  datatype RemoteError = RemoteError(message: string)

  /** What the main process answers to a resolve request: the result and its release handle. */
  datatype ResolveReply = ResolveReply(result: Uri, handle: int)

  /** Why a request was rejected. */
  datatype WindowError =
    | InvalidUri(input: string)        // the string could not be parsed
    | EmptyScheme                      // the scheme is empty or whitespace only
    | InvalidScheme(scheme: string)    // the scheme is not allowed for this request
    | Remote(error: RemoteError)       // the main process failed the request

  /** One request received by the main process. */
  datatype ProxyCall =
    | VisibilityCall
    | OpenCall(uri: Uri, options: OpenUriOptions)
    | ResolveCall(uri: Uri, options: OpenUriOptions)
    | ReleaseCall(handle: int)

  /** `openUri` accepts either a string to be parsed or an already parsed URI. */
  datatype UriInput = Text(text: string) | Parsed(uri: Uri)

  // ---------------------------------------------------------------------------
  // Request gatekeeping
  // ---------------------------------------------------------------------------

  /** The URI an `openUri` input denotes, or None when the string does not parse. */
  function InputUri(input: UriInput, parse: string -> Option<Uri>): Option<Uri>
  {
    match input
    case Text(s) => parse(s)
    case Parsed(u) => Some(u)
  }

  /**
   * The local checks of `openUri`: the input must parse, and the scheme must be
   * neither blank nor the command scheme. On success the URI to forward.
   */
  function ValidateOpen(input: UriInput, parse: string -> Option<Uri>): (r: Result<Uri, WindowError>)
    // a string that does not parse is rejected with that string
    ensures InputUri(input, parse).None? ==> input.Text? && r == Failure(InvalidUri(input.text))
    // what is admitted is exactly the denoted URI, with a usable, non-command scheme
    ensures r.Success? ==>
              && InputUri(input, parse) == Some(r.value)
              && !IsFalsyOrWhitespace(r.value.scheme)
              && r.value.scheme != Command
    // and every such URI is admitted
    ensures InputUri(input, parse).Some?
            && !IsFalsyOrWhitespace(InputUri(input, parse).value.scheme)
            && InputUri(input, parse).value.scheme != Command
            ==> r.Success?
    // a blank scheme and the command scheme are rejected with their own errors
    ensures InputUri(input, parse).Some? && IsFalsyOrWhitespace(InputUri(input, parse).value.scheme)
            ==> r == Failure(EmptyScheme)
    ensures InputUri(input, parse).Some? && InputUri(input, parse).value.scheme == Command
            ==> r == Failure(InvalidScheme(Command))
    ensures r.Failure? && r.error.InvalidScheme? ==> r.error.scheme == Command
    ensures r.Failure? ==> !r.error.Remote?
  {
    NonBlankScheme(Command, 0);
    match InputUri(input, parse)
    case None => Failure(InvalidUri(input.text))
    case Some(u) =>
      if IsFalsyOrWhitespace(u.scheme) then Failure(EmptyScheme)
      else if u.scheme == Command then Failure(InvalidScheme(u.scheme))
      else Success(u)
  }

  /** The local checks of `resolveExternalUri`: the scheme must be non-blank and one of http, https. */
  function ValidateResolve(uri: Uri): (r: Result<Uri, WindowError>)
    ensures r.Success? <==> uri.scheme == Http || uri.scheme == Https
    ensures r.Success? ==> r.value == uri
    ensures IsFalsyOrWhitespace(uri.scheme) ==> r == Failure(EmptyScheme)
    ensures !IsFalsyOrWhitespace(uri.scheme) && r.Failure? ==> r == Failure(InvalidScheme(uri.scheme))
  {
    NonBlankScheme(Http, 0);
    NonBlankScheme(Https, 0);
    if IsFalsyOrWhitespace(uri.scheme) then Failure(EmptyScheme)
    else if uri.scheme !in {Http, Https} then Failure(InvalidScheme(uri.scheme))
    else Success(uri)
  }

  /** Whatever `resolveExternalUri` admits would also pass the checks of `openUri`. */
  lemma ResolveGateStricterThanOpen(uri: Uri, parse: string -> Option<Uri>)
    requires ValidateResolve(uri).Success?
    ensures ValidateOpen(Parsed(uri), parse) == Success(uri)
  {
  }

  /** The command check is an exact comparison: other spellings of the scheme are let through. */
  lemma CommandCheckIsCaseSensitive(uri: Uri, parse: string -> Option<Uri>)
    requires uri.scheme == "Command" || uri.scheme == "COMMAND"
    ensures ValidateOpen(Parsed(uri), parse) == Success(uri)
  {
    NonBlankScheme(uri.scheme, 0);
  }

  // ---------------------------------------------------------------------------
  // Focus state and its change event
  // ---------------------------------------------------------------------------

  /** What an observer sees: the cached state and the events fired so far, oldest first. */
  datatype FocusView = FocusView(state: WindowState, fired: seq<WindowState>)

  /** The effect of one focus notification from the main process. */
  function OnFocus(v: FocusView, focused: bool): (r: FocusView)
    // the cached value is the last one received
    ensures r.state.focused == focused
    // an event fires exactly when the state changes, and it carries the new state
    ensures r.fired != v.fired <==> r.state != v.state
    ensures r.fired == v.fired || r.fired == v.fired + [r.state]
    // nothing but `focused` is replaced
    ensures r.state == v.state.(focused := focused)
  {
    if focused == v.state.focused then v
    else
      var s := v.state.(focused := focused);
      FocusView(s, v.fired + [s])
  }

  /** The effect of a sequence of focus notifications, delivered in order. */
  function Replay(v: FocusView, notifications: seq<bool>): (r: FocusView)
    decreases |notifications|
    ensures notifications == [] ==> r == v
    ensures notifications != [] ==> r.state.focused == notifications[|notifications| - 1]
    // events are only ever appended, at most one per notification
    ensures v.fired <= r.fired
    ensures |r.fired| <= |v.fired| + |notifications|
  {
    if notifications == [] then v
    else
      var n := |notifications|;
      OnFocus(Replay(v, notifications[..n - 1]), notifications[n - 1])
  }

  /** The events alternate, the first one flipping `initial`. */
  ghost predicate Alternating(initial: bool, fired: seq<WindowState>)
  {
    forall k | 0 <= k < |fired| :: fired[k].focused == if k % 2 == 0 then !initial else initial
  }

  /**
   * Starting without events from state `s`, the events fired by any sequence of
   * notifications alternate, and the cached state is the last event fired (or `s`
   * when none fired).
   */
  lemma {:induction false} ReplayAlternates(s: WindowState, notifications: seq<bool>)
    ensures Alternating(s.focused, Replay(FocusView(s, []), notifications).fired)
    ensures var r := Replay(FocusView(s, []), notifications);
            if r.fired == [] then r.state == s else r.state == r.fired[|r.fired| - 1]
    decreases |notifications|
  {
    if notifications != [] {
      var n := |notifications|;
      var prefix := notifications[..n - 1];
      var p := Replay(FocusView(s, []), prefix);
      ReplayAlternates(s, prefix);
      var r := OnFocus(p, notifications[n - 1]);
      assert r == Replay(FocusView(s, []), notifications);
      if r.fired != p.fired {
        var k := |p.fired|;
        assert r.fired == p.fired + [r.state];
        if k == 0 {
          assert r.state.focused == !s.focused;
        } else {
          assert p.state == p.fired[k - 1];
          assert (k - 1) % 2 == 0 <==> k % 2 != 0;
          assert r.state.focused == !p.state.focused;
        }
        assert r.fired[k].focused == if k % 2 == 0 then !s.focused else s.focused;
        assert forall j | 0 <= j < k :: r.fired[j] == p.fired[j];
      }
    }
  }

  /**
   * No event is redundant: the first one differs from the starting state and each
   * later one differs from the one before it.
   */
  lemma NoRedundantEvents(s: WindowState, notifications: seq<bool>)
    ensures var fired := Replay(FocusView(s, []), notifications).fired;
            && (fired != [] ==> fired[0] != s)
            && (forall k | 0 < k < |fired| :: fired[k] != fired[k - 1])
  {
    ReplayAlternates(s, notifications);
    var fired := Replay(FocusView(s, []), notifications).fired;
    forall k | 0 < k < |fired| ensures fired[k] != fired[k - 1] {
      assert (k - 1) % 2 == 0 <==> k % 2 != 0;
    }
  }

  /** Two notifications in a row with the same value act like one: the second is a no-op. */
  lemma RepeatedNotificationIsNoOp(v: FocusView, focused: bool)
    ensures OnFocus(OnFocus(v, focused), focused) == OnFocus(v, focused)
    ensures |OnFocus(OnFocus(v, focused), focused).fired| <= |v.fired| + 1
  {
  }

  // ---------------------------------------------------------------------------
  // The one-shot release of a resolved URI
  // ---------------------------------------------------------------------------

  /** The requests sent by one call of the release disposer, given whether it ran before. */
  function ReleaseCalls(called: bool, handle: int): (r: seq<ProxyCall>)
    ensures |r| <= 1
    ensures r != [] <==> !called
    ensures forall c | c in r :: c == ReleaseCall(handle)
  {
    if called then [] else [ReleaseCall(handle)]
  }

  /** The requests sent by `n` successive calls of the release disposer. */
  function DisposeTimes(called: bool, handle: int, n: nat): seq<ProxyCall>
    decreases n
  {
    if n == 0 then [] else ReleaseCalls(called, handle) + DisposeTimes(true, handle, n - 1)
  }

  /** However often the disposer is called, the handle is released once, and only if it is called. */
  lemma {:induction false} DisposeReleasesAtMostOnce(handle: int, n: nat)
    ensures DisposeTimes(false, handle, n) == if n == 0 then [] else [ReleaseCall(handle)]
    ensures DisposeTimes(true, handle, n) == []
  {
    if n > 0 {
      DisposeReleasesAtMostOnce(handle, n - 1);
    }
  }

  /** One more call of the disposer adds what a single call sends in the state left by the earlier ones. */
  lemma {:induction false} DisposeTimesStep(called: bool, handle: int, n: nat)
    ensures DisposeTimes(called, handle, n + 1)
            == DisposeTimes(called, handle, n) + ReleaseCalls(called || n > 0, handle)
    decreases n
  {
    if n > 0 {
      DisposeTimesStep(true, handle, n - 1);
    }
  }

  // ---------------------------------------------------------------------------
  // The main process, as far as this side can observe it
  // ---------------------------------------------------------------------------

  /** The main-process window service; `calls` records every request it received. */
  class MainThreadWindow {
    ghost var calls: seq<ProxyCall>

    constructor ()
      ensures calls == []
    {
      calls := [];
    }

    method GetWindowVisibility()
      modifies this
      ensures calls == old(calls) + [VisibilityCall]
    {
      calls := calls + [VisibilityCall];
    }

    /** Forwards an open request; `reply` is what the main process answers. */
    method OpenUri(uri: Uri, options: OpenUriOptions, reply: Result<bool, RemoteError>)
      returns (r: Result<bool, RemoteError>)
      modifies this
      ensures calls == old(calls) + [OpenCall(uri, options)]
      ensures r == reply
    {
      calls := calls + [OpenCall(uri, options)];
      r := reply;
    }

    /** Forwards a resolve request; `reply` is what the main process answers. */
    method ResolveExternalUri(uri: Uri, options: OpenUriOptions, reply: Result<ResolveReply, RemoteError>)
      returns (r: Result<ResolveReply, RemoteError>)
      modifies this
      ensures calls == old(calls) + [ResolveCall(uri, options)]
      ensures r == reply
    {
      calls := calls + [ResolveCall(uri, options)];
      r := reply;
    }

    /** Fire-and-forget release of a resolve handle. */
    method ReleaseResolvedExternalUri(handle: int)
      modifies this
      ensures calls == old(calls) + [ReleaseCall(handle)]
    {
      calls := calls + [ReleaseCall(handle)];
    }
  }

  // ---------------------------------------------------------------------------
  // The disposer handed out with a resolved URI
  // ---------------------------------------------------------------------------

  /** The `dispose` closure of a resolved URI, wrapped so that its body runs only once. */
  class ReleaseDisposer {
    const proxy: MainThreadWindow
    const handle: int
    var called: bool

    constructor (proxy: MainThreadWindow, handle: int)
      ensures this.proxy == proxy && this.handle == handle && !called
    {
      this.proxy := proxy;
      this.handle := handle;
      called := false;
    }

    /** Releases the handle on the first call; later calls send nothing. */
    method Dispose()
      modifies this, proxy
      ensures called
      ensures proxy.calls == old(proxy.calls) + ReleaseCalls(old(called), handle)
    {
      if called {
        return;
      }
      called := true;
      proxy.ReleaseResolvedExternalUri(handle);
    }
  }

  /** A consumer calling the disposer `n` times in a row: the requests sent are `DisposeTimes`. */
  method DisposeRepeatedly(d: ReleaseDisposer, n: nat)
    modifies d, d.proxy
    ensures d.proxy.calls == old(d.proxy.calls) + DisposeTimes(old(d.called), d.handle, n)
    ensures d.called == (old(d.called) || n > 0)
  {
    var i := 0;
    while i < n
      invariant 0 <= i <= n
      invariant d.called == (old(d.called) || i > 0)
      invariant d.proxy.calls == old(d.proxy.calls) + DisposeTimes(old(d.called), d.handle, i)
    {
      DisposeTimesStep(old(d.called), d.handle, i);
      d.Dispose();
      i := i + 1;
    }
  }

  /** A successfully resolved URI together with the disposer that releases it. */
  datatype ResolvedUri = ResolvedUri(resolved: Uri, disposer: ReleaseDisposer)

  // ---------------------------------------------------------------------------
  // The extension-host window
  // ---------------------------------------------------------------------------

  class ExtHostWindow {
    const proxy: MainThreadWindow
    /** The cached window state. */
    var state: WindowState
    /** The states fired on the change event so far, oldest first. */
    var fired: seq<WindowState>
    /** Every focus value received from the main process, oldest first. */
    ghost var notified: seq<bool>

    /** The cached state and the events are those produced by the notifications received. */
    ghost predicate Valid()
      reads this
    {
      FocusView(state, fired) == Replay(FocusView(InitialState, []), notified)
    }

    /** Starts focused and asks the main process for the actual visibility. */
    constructor (proxy: MainThreadWindow)
      modifies proxy
      ensures Valid()
      ensures this.proxy == proxy
      ensures state == InitialState && state.focused && fired == [] && notified == []
      ensures proxy.calls == old(proxy.calls) + [VisibilityCall]
    {
      this.proxy := proxy;
      state := InitialState;
      fired := [];
      notified := [];
      new;
      proxy.GetWindowVisibility();
    }

    /** Applies a focus notification from the main process. */
    method OnDidChangeWindowFocus(focused: bool)
      requires Valid()
      modifies this
      ensures Valid()
      ensures notified == old(notified) + [focused]
      ensures FocusView(state, fired) == OnFocus(FocusView(old(state), old(fired)), focused)
      ensures focused == old(state.focused) ==> state == old(state) && fired == old(fired)
      ensures focused != old(state.focused) ==>
                state == old(state).(focused := focused) && fired == old(fired) + [state]
      // every event fired so far flips the focus, and the last one is the cached state
      ensures Alternating(InitialState.focused, fired)
      ensures fired != [] ==> state == fired[|fired| - 1]
    {
      notified := notified + [focused];
      ReplayAlternates(InitialState, notified);
      if focused == state.focused {
        return;
      }
      state := state.(focused := focused);
      fired := fired + [state];
    }

    /** The checks of `openUri`, then the request to the main process, whose answer is passed on. */
    method OpenUri(input: UriInput, options: OpenUriOptions, parse: string -> Option<Uri>,
                   reply: Result<bool, RemoteError>)
      returns (r: Result<bool, WindowError>)
      modifies proxy
      ensures ValidateOpen(input, parse).Failure? ==>
                r == Failure(ValidateOpen(input, parse).error) && proxy.calls == old(proxy.calls)
      ensures ValidateOpen(input, parse).Success? ==>
                && proxy.calls == old(proxy.calls) + [OpenCall(ValidateOpen(input, parse).value, options)]
                && r == (if reply.Success? then Success(reply.value) else Failure(Remote(reply.error)))
    {
      var uri: Uri;
      match input {
        case Text(s) =>
          var parsed := parse(s);
          if parsed.None? {
            return Failure(InvalidUri(s));
          }
          uri := parsed.value;
        case Parsed(u) =>
          uri := u;
      }
      if IsFalsyOrWhitespace(uri.scheme) {
        return Failure(EmptyScheme);
      } else if uri.scheme == Command {
        return Failure(InvalidScheme(uri.scheme));
      }
      var answer := proxy.OpenUri(uri, options, reply);
      r := if answer.Success? then Success(answer.value) else Failure(Remote(answer.error));
    }

    /**
     * The checks of `resolveExternalUri`, then the request to the main process; on
     * success, the resolved URI and a fresh, not yet called release disposer.
     */
    method ResolveExternalUri(uri: Uri, options: OpenUriOptions, reply: Result<ResolveReply, RemoteError>)
      returns (r: Result<ResolvedUri, WindowError>)
      modifies proxy
      ensures ValidateResolve(uri).Failure? ==>
                r == Failure(ValidateResolve(uri).error) && proxy.calls == old(proxy.calls)
      ensures ValidateResolve(uri).Success? ==>
                proxy.calls == old(proxy.calls) + [ResolveCall(uri, options)]
      ensures ValidateResolve(uri).Success? && reply.Failure? ==> r == Failure(Remote(reply.error))
      ensures ValidateResolve(uri).Success? && reply.Success? ==>
                && r.Success?
                && r.value.resolved == reply.value.result
                && fresh(r.value.disposer)
                && r.value.disposer.proxy == proxy
                && r.value.disposer.handle == reply.value.handle
                && !r.value.disposer.called
    {
      if IsFalsyOrWhitespace(uri.scheme) {
        return Failure(EmptyScheme);
      } else if uri.scheme !in {Http, Https} {
        return Failure(InvalidScheme(uri.scheme));
      }
      var answer := proxy.ResolveExternalUri(uri, options, reply);
      if answer.Failure? {
        return Failure(Remote(answer.error));
      }
      var disposer := new ReleaseDisposer(proxy, answer.value.handle);
      r := Success(ResolvedUri(answer.value.result, disposer));
    }
  }

  /**
   * A client of the contracts above: a focus loss fires one event, a repeated
   * notification fires none, a blocked command URI never reaches the main process,
   * and disposing a resolved URI twice releases its handle once.
   */
  method ExampleSession(parse: string -> Option<Uri>)
  {
    var main := new MainThreadWindow();
    var w := new ExtHostWindow(main);
    assert w.state.focused;

    w.OnDidChangeWindowFocus(false);
    assert w.state == WindowState(false) && w.fired == [WindowState(false)];
    w.OnDidChangeWindowFocus(false);
    assert w.fired == [WindowState(false)];

    var commandUri := Uri(Command, "", "run", "", "");
    NonBlankScheme(Command, 0);
    var outcome := w.OpenUri(Parsed(commandUri), OpenUriOptions(map[]), parse, Success(true));
    assert outcome == Failure(InvalidScheme(Command));
    assert main.calls == [VisibilityCall];

    var web := Uri(Https, "example.com", "/", "", "");
    var resolved := w.ResolveExternalUri(web, OpenUriOptions(map[]), Success(ResolveReply(web, 7)));
    assert resolved.Success?;
    var d := resolved.value.disposer;
    d.Dispose();
    d.Dispose();
    assert main.calls == [VisibilityCall, ResolveCall(web, OpenUriOptions(map[])),
                          ReleaseCall(7)];
  }
}
