/**
 * The renderer side of the bridge (`PyWV` in `chart.py`): a command
 * interpreter that consumes a FIFO of commands, keeps the list of windows it
 * has created, and answers on the return queue and the emit queue.
 *
 * The native toolkit is abstracted: `webview.create_window` becomes a record
 * of the arguments it receives, `evaluate_js` and `json.loads` are oracles in
 * `Env`, and every native call is appended to a call log.
 *
 * `webview.start(func=self.loop)` is the toolkit's run-loop. It blocks until
 * the user closes the windows, and meanwhile runs `self.loop` on a thread of
 * its own. Here that thread is the same loop run on the commands it takes
 * before the windows close. When they close is a parameter of `Env`
 * (`uiCloses`): never, or after the thread has taken a given number of
 * commands. Only when the run-loop returns does the loop die and emit
 * `'exit'`. A `'stop'`, an exception or a `KeyError` in the thread ends the
 * thread alone.
 */
module Renderer {
  import opened Wrappers
  import opened Text
  import JsError

  /** The marker that asks for the script's value on the return queue. */
  const ReturnMarker: string := "_~_~RETURN~_~_"

  /** Number of characters `arg[14:]` drops from a marked script. */
  const MarkerLength: nat := 14

  datatype Screen = Screen(width: int, height: int)

  /** The arguments packed into a `'create_window'` command. */
  datatype WindowArgs = WindowArgs(
    width: int, height: int, x: Option<int>, y: Option<int>,
    screen: Option<int>, onTop: bool, maximize: bool, title: string)

  /** A native window, recorded as the arguments `webview.create_window` was given. */
  datatype Window = Window(
    title: string, width: int, height: int, x: Option<int>, y: Option<int>,
    screen: Option<Screen>, onTop: bool)

  /** A queued command: `('create_window', args)`, `('start', debug)`,
      `('stop', None)` or `(index, 'show' | 'hide' | script)`. */
  datatype Command =
    | CreateWindow(args: WindowArgs)
    | Start(debug: bool)
    | Stop
    | ToWindow(index: int, arg: string)

  /** A value produced by evaluating a script. */
  datatype JsValue = JsValue(text: string)

  /** What `window.evaluate_js` does: return a value, raise `KeyError`, or
      raise `JavascriptException` with the given text. */
  datatype EvalResult = Returned(value: JsValue) | KeyErrorRaised | ScriptFailed(text: string)

  /** Calls made into the native toolkit, logged in order, and the return of
      its run-loop (`UiClosed`: the user closed the windows). */
  datatype NativeCall =
    | RunLoop(debug: bool)
    | UiClosed
    | ShowWindow(window: nat)
    | HideWindow(window: nat)
    | Evaluate(window: nat, script: string)

  /** The foreign world: the screens, script evaluation per window,
      `json.loads`, and when the user closes the windows of a running UI:
      never (`None`), or once the loop's thread has taken `k` more commands
      (`Some(k)`; sooner if the thread ends first). */
  datatype Env = Env(
    screens: seq<Screen>,
    evaluate: (nat, string) -> EvalResult,
    json: string -> JsError.JsonDecoding,
    uiCloses: Option<nat>)

  /** Exceptions that escape the loop. `FieldAccessError` is what reading
      `msg['name']` raises when `json.loads` gave a value without the four
      fields: `KeyError` for an object lacking one, `TypeError` for a value
      that is not an object. The model does not tell the two apart. */
  datatype LoopError = IndexError | JavascriptException(message: string) | FieldAccessError

  /** Why the loop stopped. `Idle` stands for a live loop whose queue is
      exhausted: the source keeps polling it forever. `UiRunning(thread)`:
      the loop is blocked in `webview.start` with the windows still open, and
      `thread` is why the loop's own thread stopped. `RunLoopReturned(thread)`:
      the windows were closed and `webview.start` returned; `thread` is where
      the loop's thread stood then. */
  datatype Halt =
    | NotAlive
    | Idle
    | Stopped
    | NoWindows
    | KeyErrorExit
    | Raised(error: LoopError)
    | UiRunning(thread: Halt)
    | RunLoopReturned(thread: Halt)

  /** Everything the loop reads and writes. */
  datatype RState = RState(
    queue: seq<Command>, alive: bool, windows: seq<Window>,
    returnQueue: seq<JsValue>, emitQueue: seq<string>, calls: seq<NativeCall>)

  /** Python's `xs[i]` on a list of length `n`: negative indices count from the end. */
  function PyIndex(n: nat, i: int): (r: Option<nat>)
    ensures r.Some? <==> -(n as int) <= i < n
    ensures r.Some? ==> r.value < n && (r.value == i || r.value == n + i)
  {
    if 0 <= i < n then Some(i) else if -(n as int) <= i < 0 then Some(n + i) else None
  }

  /** `PyWV.create_window`: resolve the screen, let `maximize` take its size,
      and build the window. Indexing a missing screen raises `IndexError`. */
  function NewWindow(screens: seq<Screen>, a: WindowArgs): (r: Result<Window, LoopError>)
    ensures r.Success? ==> r.value.title == a.title && r.value.x == a.x && r.value.y == a.y && r.value.onTop == a.onTop
    ensures r.Success? && !a.maximize ==> r.value.width == a.width && r.value.height == a.height
    ensures r.Failure? <==>
      (a.screen.Some? && PyIndex(|screens|, a.screen.value).None?) ||
      (a.screen.None? && a.maximize && |screens| == 0)
  {
    var screen :=
      if a.screen.None? then Success(None)
      else match PyIndex(|screens|, a.screen.value)
        case None => Failure(IndexError)
        case Some(k) => Success(Some(screens[k]));
    match screen
    case Failure(e) => Failure(e)
    case Success(scr) =>
      if !a.maximize then
        Success(Window(a.title, a.width, a.height, a.x, a.y, scr, a.onTop))
      else if scr.Some? then
        Success(Window(a.title, scr.value.width, scr.value.height, a.x, a.y, scr, a.onTop))
      else if |screens| == 0 then
        Failure(IndexError)
      else
        Success(Window(a.title, screens[0].width, screens[0].height, a.x, a.y, scr, a.onTop))
  }

  /** The windows a command builds: one for a `'create_window'` whose screen resolves. */
  function BuiltBy(screens: seq<Screen>, cmd: Command): seq<Window> {
    if cmd.CreateWindow? && NewWindow(screens, cmd.args).Success? then [NewWindow(screens, cmd.args).value] else []
  }

  /** The windows the commands of `q` build, in queue order. */
  function Built(screens: seq<Screen>, q: seq<Command>): seq<Window> {
    if q == [] then [] else BuiltBy(screens, q[0]) + Built(screens, q[1..])
  }

  /** The outcome of one command other than `'start'`. */
  datatype StepOutcome = Continue(next: RState) | Halted(last: RState, halt: Halt)
  {
    function State(): RState {
      if Continue? then next else last
    }
  }

  /** A script carrying the marker anywhere, as `'_~_~RETURN~_~_' in arg` tests. */
  predicate IsMarked(arg: string) {
    Contains(arg, ReturnMarker)
  }

  /** The script actually evaluated: a marked script loses its first 14 characters. */
  function ScriptOf(arg: string): (r: string)
    ensures IsMarked(arg) ==> |arg| >= MarkerLength && r == arg[MarkerLength..]
    ensures !IsMarked(arg) ==> r == arg
  {
    if IsMarked(arg) then arg[MarkerLength..] else arg
  }

  /** `cmd` sends a script to an existing window. */
  predicate IsEvaluation(s: RState, cmd: Command) {
    cmd.ToWindow? && cmd.arg != "show" && cmd.arg != "hide" && PyIndex(|s.windows|, cmd.index).Some?
  }

  /** The body of `PyWV.loop` for a command already taken off the queue
      (`s.queue` is what follows it). The queues it leaves alone, the windows
      it builds and the single native call or return value it may add are
      stated here; `StepBehaviour` states what each command does. */
  function Step(s: RState, cmd: Command, env: Env): (r: StepOutcome)
    requires !cmd.Start?
    ensures r.State().queue == s.queue && r.State().emitQueue == s.emitQueue
    ensures r.State().windows == s.windows + BuiltBy(env.screens, cmd)
    ensures r.State().calls == s.calls ||
      (|r.State().calls| == |s.calls| + 1 && r.State().calls[..|s.calls|] == s.calls &&
       !r.State().calls[|s.calls|].RunLoop? && !r.State().calls[|s.calls|].UiClosed?)
    ensures r.State().returnQueue == s.returnQueue ||
      (|r.State().returnQueue| == |s.returnQueue| + 1 && r.State().returnQueue[..|s.returnQueue|] == s.returnQueue)
  {
    match cmd
    case CreateWindow(a) =>
      (match NewWindow(env.screens, a)
       case Success(w) => Continue(s.(windows := s.windows + [w]))
       case Failure(e) => Halted(s, Raised(e)))
    case Stop => Halted(s.(alive := false), Stopped)
    case ToWindow(i, arg) =>
      match PyIndex(|s.windows|, i)
      case None => Halted(s, Raised(IndexError))
      case Some(w) =>
        if arg == "show" then Continue(s.(calls := s.calls + [ShowWindow(w)]))
        else if arg == "hide" then Continue(s.(calls := s.calls + [HideWindow(w)]))
        else
          var script := ScriptOf(arg);
          var s2 := s.(calls := s.calls + [Evaluate(w, script)]);
          match env.evaluate(w, script)
          case Returned(v) => Continue(if IsMarked(arg) then s2.(returnQueue := s2.returnQueue + [v]) else s2)
          case KeyErrorRaised => Halted(s2, KeyErrorExit)
          case ScriptFailed(text) =>
            match JsError.ParseJsError(text, env.json(text))
            case Some(info) => Halted(s2, Raised(JavascriptException(JsError.ScriptErrorMessage(arg, info))))
            case None => Halted(s2, Raised(FieldAccessError))
  }

  /** What one command does: `'create_window'` appends its window or raises
      the screen's `IndexError`; `'stop'` clears `is_alive`; a bad index
      raises `IndexError`; `'show'` and `'hide'` call the window; a script is
      evaluated once, only a marked script's value is queued, `KeyError`
      ends the loop quietly, and a script error is raised again with the
      parsed message. Only `'stop'` changes `is_alive`. */
  lemma StepBehaviour(s: RState, cmd: Command, env: Env)
    requires !cmd.Start?
    ensures var r := Step(s, cmd, env);
      (r.Continue? ==> r.next.alive == s.alive) &&
      (cmd.CreateWindow? ==>
        var w := NewWindow(env.screens, cmd.args);
        (w.Success? ==> r == Continue(s.(windows := s.windows + [w.value]))) &&
        (w.Failure? ==> r == Halted(s, Raised(w.error)))) &&
      (cmd.Stop? ==> r == Halted(s.(alive := false), Stopped)) &&
      (cmd.ToWindow? && PyIndex(|s.windows|, cmd.index).None? ==> r == Halted(s, Raised(IndexError))) &&
      (cmd.ToWindow? && PyIndex(|s.windows|, cmd.index).Some? && cmd.arg == "show" ==>
        r == Continue(s.(calls := s.calls + [ShowWindow(PyIndex(|s.windows|, cmd.index).value)]))) &&
      (cmd.ToWindow? && PyIndex(|s.windows|, cmd.index).Some? && cmd.arg == "hide" ==>
        r == Continue(s.(calls := s.calls + [HideWindow(PyIndex(|s.windows|, cmd.index).value)])))
    ensures IsEvaluation(s, cmd) ==>
      var r := Step(s, cmd, env);
      var w := PyIndex(|s.windows|, cmd.index).value;
      var e := env.evaluate(w, ScriptOf(cmd.arg));
      r.State().calls == s.calls + [Evaluate(w, ScriptOf(cmd.arg))] &&
      r.State().returnQueue == (if IsMarked(cmd.arg) && e.Returned? then s.returnQueue + [e.value] else s.returnQueue) &&
      (e.Returned? ==> r.Continue?) &&
      (e.KeyErrorRaised? ==> r.Halted? && r.halt == KeyErrorExit && r.last.alive == s.alive) &&
      (e.ScriptFailed? ==>
         r.Halted? && r.halt.Raised? &&
         (match JsError.ParseJsError(e.text, env.json(e.text))
          case Some(info) => r.halt.error == JavascriptException(JsError.ScriptErrorMessage(cmd.arg, info))
          case None => r.halt.error == FieldAccessError))
    ensures !IsEvaluation(s, cmd) ==> Step(s, cmd, env).State().returnQueue == s.returnQueue
  {
  }

  /** How many of `q`'s commands the loop's thread takes before the windows
      close at `uiCloses`. */
  function ThreadShare(q: seq<Command>, uiCloses: Option<nat>): (n: nat)
    ensures n <= |q|
    ensures uiCloses.None? ==> n == |q|
    ensures uiCloses.Some? ==> n == |q| || n == uiCloses.value
  {
    if uiCloses.Some? && uiCloses.value < |q| then uiCloses.value else |q|
  }

  /** `PyWV.loop` run on `s.queue`: the state it leaves and why it stopped. */
  function Run(s: RState, env: Env): (RState, Halt)
    decreases |s.queue|, 1
  {
    if !s.alive then (s, NotAlive)
    else if s.queue == [] then (s, Idle)
    else
      var cmd := s.queue[0];
      var s1 := s.(queue := s.queue[1..]);
      if cmd.Start? then
        if s1.windows == [] then (s1.(alive := false), NoWindows)
        else RunUi(s1, cmd.debug, env)
      else
        match Step(s1, cmd, env)
        case Continue(next) => Run(next, env)
        case Halted(last, h) => (last, h)
  }

  /** `webview.start(debug, func=self.loop)` and what follows it, from the
      state just after a `'start'` was taken with windows present: the loop's
      thread runs on its share of the queue; if the windows close, the loop
      dies, emits `'exit'`, and the commands the thread did not take stay queued. */
  function RunUi(s: RState, debug: bool, env: Env): (RState, Halt)
    decreases |s.queue|, 2
  {
    var n := ThreadShare(s.queue, env.uiCloses);
    var thread := Run(s.(queue := s.queue[..n], calls := s.calls + [RunLoop(debug)]), env);
    var t := thread.0;
    if env.uiCloses.None? then (t, UiRunning(thread.1))
    else
      (t.(queue := t.queue + s.queue[n..], alive := false,
          emitQueue := t.emitQueue + ["exit"], calls := t.calls + [UiClosed]),
       RunLoopReturned(thread.1))
  }

  /** `'start'` with no window fails fast without emitting. Otherwise the
      run-loop starts and the loop's thread takes its share of the rest of the
      queue. While the windows stay open the loop stays blocked: nothing is
      emitted beyond what the thread emits, and how the thread stopped is
      reported. Once they close, the loop is dead, exactly one `'exit'` follows
      the thread's output, and the commands the thread did not take stay queued. */
  lemma StartBehaviour(s: RState, env: Env)
    requires s.alive && s.queue != [] && s.queue[0].Start?
    ensures s.windows == [] ==>
      Run(s, env) == (s.(queue := s.queue[1..], alive := false), NoWindows)
    ensures s.windows != [] ==>
      var rest := s.queue[1..];
      var n := ThreadShare(rest, env.uiCloses);
      var thread := Run(s.(queue := rest[..n], calls := s.calls + [RunLoop(s.queue[0].debug)]), env);
      var r := Run(s, env);
      r.0.windows == thread.0.windows && r.0.returnQueue == thread.0.returnQueue &&
      (env.uiCloses.None? ==>
         r.1 == UiRunning(thread.1) && r.0.emitQueue == thread.0.emitQueue && r.0.alive == thread.0.alive) &&
      (env.uiCloses.Some? ==>
         r.1 == RunLoopReturned(thread.1) && !r.0.alive && r.0.emitQueue == thread.0.emitQueue + ["exit"] &&
         r.0.queue == thread.0.queue + rest[n..] && r.0.calls == thread.0.calls + [UiClosed])
  {
  }

  /** The state a fresh `PyWV` starts its loop in. */
  function Initial(commands: seq<Command>): RState {
    RState(commands, true, [], [], [], [])
  }

  /** How many `'create_window'` commands `q` holds. */
  function CountCreates(q: seq<Command>): nat {
    if q == [] then 0 else (if q[0].CreateWindow? then 1 else 0) + CountCreates(q[1..])
  }

  lemma {:induction false} CountCreatesAppend(q: seq<Command>, c: Command)
    ensures CountCreates(q + [c]) == CountCreates(q) + (if c.CreateWindow? then 1 else 0)
  {
    if q != [] {
      assert (q + [c])[1..] == q[1..] + [c];
      CountCreatesAppend(q[1..], c);
    }
  }

  function CountRunLoops(calls: seq<NativeCall>): nat {
    if calls == [] then 0 else CountRunLoops(calls[..|calls| - 1]) + (if calls[|calls| - 1].RunLoop? then 1 else 0)
  }

  function CountUiClosed(calls: seq<NativeCall>): nat {
    if calls == [] then 0 else CountUiClosed(calls[..|calls| - 1]) + (if calls[|calls| - 1].UiClosed? then 1 else 0)
  }

  /** `b` extends `a`. */
  predicate Extends<T(==)>(a: seq<T>, b: seq<T>) {
    |a| <= |b| && b[..|a|] == a
  }

  lemma ExtendsTransitive<T>(a: seq<T>, b: seq<T>, c: seq<T>)
    requires Extends(a, b) && Extends(b, c)
    ensures Extends(a, c)
  {
    assert c[..|a|] == c[..|b|][..|a|];
  }

  /** What the loop leaves extends what it was given: outputs only grow, and
      the queue left is a suffix of the queue given. */
  predicate Appended(s: RState, r: RState) {
    Extends(s.windows, r.windows) && Extends(s.returnQueue, r.returnQueue) &&
    Extends(s.emitQueue, r.emitQueue) && Extends(s.calls, r.calls) &&
    |r.queue| <= |s.queue| && r.queue == s.queue[|s.queue| - |r.queue|..]
  }

  lemma AppendedTransitive(a: RState, b: RState, c: RState)
    requires Appended(a, b) && Appended(b, c)
    ensures Appended(a, c)
  {
    ExtendsTransitive(a.windows, b.windows, c.windows);
    ExtendsTransitive(a.returnQueue, b.returnQueue, c.returnQueue);
    ExtendsTransitive(a.emitQueue, b.emitQueue, c.emitQueue);
    ExtendsTransitive(a.calls, b.calls, c.calls);
    assert b.queue[|b.queue| - |c.queue|..] == a.queue[|a.queue| - |c.queue|..];
  }

  /** Taking the first command keeps the queue a suffix and changes no output. */
  lemma AppendedByTaking(s: RState)
    requires s.queue != []
    ensures Appended(s, s.(queue := s.queue[1..]))
  {
  }

  /** The loop only appends to its outputs and only takes commands off the
      front of its queue: what it leaves is a suffix of what it was given. */
  lemma {:induction false} RunOnlyAppends(s: RState, env: Env)
    ensures Appended(s, Run(s, env).0)
    decreases |s.queue|, 1
  {
    if s.alive && s.queue != [] {
      var cmd := s.queue[0];
      var s1 := s.(queue := s.queue[1..]);
      AppendedByTaking(s);
      if cmd.Start? {
        if s1.windows != [] {
          RunUiOnlyAppends(s1, cmd.debug, env);
          AppendedTransitive(s, s1, RunUi(s1, cmd.debug, env).0);
        }
      } else {
        StepOnlyAppends(s, env);
      }
    }
  }

  /** `RunOnlyAppends` when the first command is not `'start'`. */
  lemma {:induction false} StepOnlyAppends(s: RState, env: Env)
    requires s.alive && s.queue != [] && !s.queue[0].Start?
    ensures Appended(s, Run(s, env).0)
    decreases |s.queue|, 0
  {
    var s1 := s.(queue := s.queue[1..]);
    AppendedByTaking(s);
    match Step(s1, s.queue[0], env)
    case Continue(next) =>
      assert Appended(s1, next);
      RunOnlyAppends(next, env);
      AppendedTransitive(s1, next, Run(next, env).0);
      AppendedTransitive(s, s1, Run(next, env).0);
    case Halted(last, h) =>
      assert Appended(s1, last);
      AppendedTransitive(s, s1, last);
  }

  lemma {:induction false} RunUiOnlyAppends(s: RState, debug: bool, env: Env)
    ensures Appended(s, RunUi(s, debug, env).0)
    decreases |s.queue|, 2
  {
    var n := ThreadShare(s.queue, env.uiCloses);
    var s3 := s.(queue := s.queue[..n], calls := s.calls + [RunLoop(debug)]);
    RunOnlyAppends(s3, env);
    var t := Run(s3, env).0;
    ThreadOnlyAppends(s, debug, n, t, env.uiCloses.None?);
  }
  /** What the run-loop adds around its thread's run `t` keeps `Appended`. */
  lemma ThreadOnlyAppends(s: RState, debug: bool, n: nat, t: RState, running: bool)
    requires n <= |s.queue| && (running ==> n == |s.queue|)
    requires Appended(s.(queue := s.queue[..n], calls := s.calls + [RunLoop(debug)]), t)
    ensures running ==> Appended(s, t)
    ensures !running ==> Appended(s, t.(queue := t.queue + s.queue[n..], alive := false,
                     emitQueue := t.emitQueue + ["exit"], calls := t.calls + [UiClosed]))
  {
    var s3 := s.(queue := s.queue[..n], calls := s.calls + [RunLoop(debug)]);
    if running {
      assert s.queue[..n] == s.queue;
      assert Appended(s, s3);
      AppendedTransitive(s, s3, t);
    } else {
      var r := t.(queue := t.queue + s.queue[n..], alive := false,
                  emitQueue := t.emitQueue + ["exit"], calls := t.calls + [UiClosed]);
      ExtendsTransitive(s.windows, s3.windows, t.windows);
      ExtendsTransitive(s.returnQueue, s3.returnQueue, t.returnQueue);
      ExtendsTransitive(s.calls, s3.calls, t.calls);
      ExtendsTransitive(s.emitQueue, t.emitQueue, r.emitQueue);
      ExtendsTransitive(s.calls, t.calls, r.calls);
      assert t.queue == s.queue[n - |t.queue|..n];
      assert r.queue == s.queue[n - |t.queue|..];
    }
  }
  lemma CountRunLoopsAppend(calls: seq<NativeCall>, c: NativeCall)
    ensures CountRunLoops(calls + [c]) == CountRunLoops(calls) + (if c.RunLoop? then 1 else 0)
    ensures CountUiClosed(calls + [c]) == CountUiClosed(calls) + (if c.UiClosed? then 1 else 0)
  {
    assert (calls + [c])[..|calls|] == calls;
  }
  predicate ExitsMatchReturns(s: RState, r: RState, env: Env)
    requires Extends(s.emitQueue, r.emitQueue) && Extends(s.calls, r.calls)
  {
    var entered := CountRunLoops(r.calls) - CountRunLoops(s.calls);
    var returned := CountUiClosed(r.calls) - CountUiClosed(s.calls);
    |r.emitQueue| - |s.emitQueue| == returned &&
    returned == (if env.uiCloses.Some? then entered else 0) &&
    forall j :: |s.emitQueue| <= j < |r.emitQueue| ==> r.emitQueue[j] == "exit"
  }

  /** The loop itself puts nothing but the sentinel `'exit'` on the emit queue,
      exactly one per time the UI run-loop returned. (The windows' JS callback
      also puts event messages there; it is not part of this model.) Each
      run-loop entered returns at most once: all of them when the user closes
      the windows, none otherwise. */
  lemma {:induction false} ExitOncePerRunLoop(s: RState, env: Env)
    ensures var r := Run(s, env).0;
      Extends(s.emitQueue, r.emitQueue) && Extends(s.calls, r.calls) &&
      ExitsMatchReturns(s, r, env)
    decreases |s.queue|, 1
  {
    RunOnlyAppends(s, env);
    if s.alive && s.queue != [] {
      var cmd := s.queue[0];
      var s1 := s.(queue := s.queue[1..]);
      if cmd.Start? {
        if s1.windows != [] {
          RunUiExitsOnce(s1, cmd.debug, env);
          assert Run(s, env).0 == RunUi(s1, cmd.debug, env).0;
        }
      } else {
        StepExitsOnce(s, env);
      }
    }
  }
  lemma {:induction false} StepExitsOnce(s: RState, env: Env)
    requires s.alive && s.queue != [] && !s.queue[0].Start?
    ensures var r := Run(s, env).0;
      Extends(s.emitQueue, r.emitQueue) && Extends(s.calls, r.calls) &&
      ExitsMatchReturns(s, r, env)
    decreases |s.queue|, 0
  {
    RunOnlyAppends(s, env);
    var st := Step(s.(queue := s.queue[1..]), s.queue[0], env);
    var mid := st.State();
    if st.Continue? {
      ExitOncePerRunLoop(mid, env);
    }
    if mid.calls != s.calls {
      assert mid.calls == s.calls + [mid.calls[|s.calls|]];
      CountRunLoopsAppend(s.calls, mid.calls[|s.calls|]);
    }
  }

  lemma {:induction false} RunUiExitsOnce(s: RState, debug: bool, env: Env)
    ensures var r := RunUi(s, debug, env).0;
      Extends(s.emitQueue, r.emitQueue) && Extends(s.calls, r.calls) &&
      ExitsMatchReturns(s, r, env)
    decreases |s.queue|, 2
  {
    var n := ThreadShare(s.queue, env.uiCloses);
    var s3 := s.(queue := s.queue[..n], calls := s.calls + [RunLoop(debug)]);
    ExitOncePerRunLoop(s3, env);
    ThreadExitsOnce(s, debug, n, Run(s3, env).0, env);
  }
  /** The run-loop around its thread's run `t` enters once and, when the
      windows close, returns once and emits one `'exit'`. */
  lemma ThreadExitsOnce(s: RState, debug: bool, n: nat, t: RState, env: Env)
    requires n <= |s.queue|
    requires var s3 := s.(queue := s.queue[..n], calls := s.calls + [RunLoop(debug)]);
      Extends(s3.emitQueue, t.emitQueue) && Extends(s3.calls, t.calls) && ExitsMatchReturns(s3, t, env)
    ensures env.uiCloses.None? ==>
      Extends(s.emitQueue, t.emitQueue) && Extends(s.calls, t.calls) && ExitsMatchReturns(s, t, env)
    ensures var r := t.(queue := t.queue + s.queue[n..], alive := false,
                        emitQueue := t.emitQueue + ["exit"], calls := t.calls + [UiClosed]);
      env.uiCloses.Some? ==>
      Extends(s.emitQueue, r.emitQueue) && Extends(s.calls, r.calls) && ExitsMatchReturns(s, r, env)
  {
    CountRunLoopsAppend(s.calls, RunLoop(debug));
    CountRunLoopsAppend(t.calls, UiClosed);
    ExtendsTransitive(s.calls, s.calls + [RunLoop(debug)], t.calls);
    ExtendsTransitive(s.calls, t.calls, t.calls + [UiClosed]);
    ExtendsTransitive(s.emitQueue, t.emitQueue, t.emitQueue + ["exit"]);
  }

  /** A queued `'stop'` at position `k` is never passed: the loop takes at
      most the first `k + 1` commands, and when it has taken the stop it is no
      longer alive. */
  lemma {:induction false} NothingAfterStop(s: RState, env: Env, k: nat)
    requires k < |s.queue| && s.queue[k] == Stop
    ensures var r := Run(s, env).0;
      |r.queue| >= |s.queue| - k - 1 && (|r.queue| == |s.queue| - k - 1 ==> !r.alive)
    decreases |s.queue|, 1
  {
    if s.alive && k > 0 {
      var cmd := s.queue[0];
      var s1 := s.(queue := s.queue[1..]);
      if cmd.Start? {
        if s1.windows != [] {
          RunUiStops(s1, cmd.debug, env, k - 1);
        }
      } else {
        match Step(s1, cmd, env)
        case Continue(next) => NothingAfterStop(next, env, k - 1);
        case Halted(last, h) =>
      }
    }
  }

  lemma {:induction false} RunUiStops(s: RState, debug: bool, env: Env, k: nat)
    requires k < |s.queue| && s.queue[k] == Stop
    ensures var r := RunUi(s, debug, env).0;
      |r.queue| >= |s.queue| - k - 1 && (|r.queue| == |s.queue| - k - 1 ==> !r.alive)
    decreases |s.queue|, 2
  {
    var n := ThreadShare(s.queue, env.uiCloses);
    if k < n {
      assert s.queue[..n][k] == Stop;
      NothingAfterStop(s.(queue := s.queue[..n], calls := s.calls + [RunLoop(debug)]), env, k);
    }
  }

  /** Only `'create_window'` builds a window. */
  lemma {:induction false} BuiltWithoutCreates(screens: seq<Screen>, q: seq<Command>)
    requires forall j | 0 <= j < |q| :: !q[j].CreateWindow?
    ensures Built(screens, q) == []
  {
    if q != [] {
      BuiltWithoutCreates(screens, q[1..]);
    }
  }

  /** A queue without `'create_window'` leaves the renderer with no window,
      whatever the run-loop does, so no window's `loaded` event can fire. */
  lemma NoCreateNoWindow(q: seq<Command>, env: Env)
    requires forall j | 0 <= j < |q| :: !q[j].CreateWindow?
    ensures Run(Initial(q), env).0.windows == []
  {
    var r := Run(Initial(q), env).0;
    RunBuildsWindows(Initial(q), env);
    BuiltWithoutCreates(env.screens, q[..|q| - |r.queue|]);
  }

  lemma BuiltCons(screens: seq<Screen>, cmd: Command, q: seq<Command>)
    ensures Built(screens, [cmd] + q) == BuiltBy(screens, cmd) + Built(screens, q)
  {
    assert ([cmd] + q)[1..] == q;
  }

  /** Every `'create_window'` among the first `taken - 1` commands of `q` finds its screen. */
  predicate ScreensFound(screens: seq<Screen>, q: seq<Command>, taken: int) {
    forall j :: 0 <= j < |q| && j < taken - 1 && q[j].CreateWindow? ==> NewWindow(screens, q[j].args).Success?
  }

  /** The windows the loop holds are the old ones plus those built by the
      commands it took, in order. */
  lemma {:induction false} RunBuildsWindows(s: RState, env: Env)
    ensures var r := Run(s, env).0;
      |r.queue| <= |s.queue| &&
      r.windows == s.windows + Built(env.screens, s.queue[..|s.queue| - |r.queue|])
    decreases |s.queue|, 1
  {
    if !s.alive || s.queue == [] {
      assert Run(s, env).0 == s && s.queue[..0] == [];
    } else if !s.queue[0].Start? {
      if Step(s.(queue := s.queue[1..]), s.queue[0], env).Continue? {
        ContinueBuildsWindows(s, env);
      } else {
        HaltBuildsWindows(s, env);
      }
    } else {
      StartBuildsWindows(s, env);
    }
  }
  lemma {:induction false} StartBuildsWindows(s: RState, env: Env)
    requires s.alive && s.queue != [] && s.queue[0].Start?
    ensures var r := Run(s, env).0;
      |r.queue| <= |s.queue| &&
      r.windows == s.windows + Built(env.screens, s.queue[..|s.queue| - |r.queue|])
    decreases |s.queue|, 0
  {
    var cmd := s.queue[0];
    var s1 := s.(queue := s.queue[1..]);
    if s.windows == [] {
      assert Run(s, env).0 == s1.(alive := false);
      BuildsAfterOne(s, s1, s1.(alive := false), env.screens);
    } else {
      RunUiBuildsWindows(s1, cmd.debug, env);
      assert Run(s, env).0 == RunUi(s1, cmd.debug, env).0;
      BuildsAfterOne(s, s1, RunUi(s1, cmd.debug, env).0, env.screens);
    }
  }

  /** `RunBuildsWindows` when the first command is not `'start'`. */
  lemma {:induction false} ContinueBuildsWindows(s: RState, env: Env)
    requires s.alive && s.queue != [] && !s.queue[0].Start?
    requires Step(s.(queue := s.queue[1..]), s.queue[0], env).Continue?
    ensures var r := Run(s, env).0;
      |r.queue| <= |s.queue| &&
      r.windows == s.windows + Built(env.screens, s.queue[..|s.queue| - |r.queue|])
    decreases |s.queue|, 0
  {
    var next := Step(s.(queue := s.queue[1..]), s.queue[0], env).next;
    assert Run(s, env) == Run(next, env);
    RunBuildsWindows(next, env);
    BuildsAfterOne(s, next, Run(next, env).0, env.screens);
  }
  /** Building the first command's window and then those of the commands a
      run takes after it is building the windows of all the commands taken. */
  lemma BuildsAfterOne(s: RState, next: RState, r: RState, screens: seq<Screen>)
    requires s.queue != [] && next.queue == s.queue[1..]
    requires next.windows == s.windows + BuiltBy(screens, s.queue[0])
    requires |r.queue| <= |next.queue|
    requires r.windows == next.windows + Built(screens, next.queue[..|next.queue| - |r.queue|])
    ensures |r.queue| <= |s.queue|
    ensures r.windows == s.windows + Built(screens, s.queue[..|s.queue| - |r.queue|])
  {
    var taken := |s.queue| - |r.queue|;
    var rest := next.queue[..taken - 1];
    assert s.queue[..taken] == [s.queue[0]] + rest;
    BuiltCons(screens, s.queue[0], rest);
  }
  lemma {:induction false} HaltBuildsWindows(s: RState, env: Env)
    requires s.alive && s.queue != [] && !s.queue[0].Start?
    requires Step(s.(queue := s.queue[1..]), s.queue[0], env).Halted?
    ensures var r := Run(s, env).0;
      |r.queue| <= |s.queue| &&
      r.windows == s.windows + Built(env.screens, s.queue[..|s.queue| - |r.queue|])
  {
    var cmd := s.queue[0];
    var r := Run(s, env).0;
    assert r == Step(s.(queue := s.queue[1..]), cmd, env).last;
    assert s.queue[..|s.queue| - |r.queue|] == [cmd] + [];
    BuiltCons(env.screens, cmd, []);
  }
  lemma {:induction false} RunUiBuildsWindows(s: RState, debug: bool, env: Env)
    ensures var r := RunUi(s, debug, env).0;
      |r.queue| <= |s.queue| &&
      r.windows == s.windows + Built(env.screens, s.queue[..|s.queue| - |r.queue|])
    decreases |s.queue|, 2
  {
    var n := ThreadShare(s.queue, env.uiCloses);
    var s3 := s.(queue := s.queue[..n], calls := s.calls + [RunLoop(debug)]);
    RunBuildsWindows(s3, env);
    var t := Run(s3, env).0;
    var r := RunUi(s, debug, env).0;
    var taken := n - |t.queue|;
    assert r.windows == t.windows && |s.queue| - |r.queue| == taken;
    assert s3.queue[..taken] == s.queue[..taken];
  }

  /** Every `'create_window'` the loop took, except possibly the last
      command it took, found its screen: a failing one halts the loop. */
  lemma {:induction false} RunFindsScreens(s: RState, env: Env)
    ensures var r := Run(s, env).0;
      ScreensFound(env.screens, s.queue, |s.queue| - |r.queue|)
    decreases |s.queue|, 1
  {
    if s.alive && s.queue != [] {
      var cmd := s.queue[0];
      var s1 := s.(queue := s.queue[1..]);
      if !cmd.Start? {
        StepFindsScreens(s, env);
      } else if s1.windows != [] {
        RunUiFindsScreens(s1, cmd.debug, env);
        var r := Run(s, env).0;
        assert r == RunUi(s1, cmd.debug, env).0;
        forall j | 0 <= j < |s.queue| && j < |s.queue| - |r.queue| - 1 && s.queue[j].CreateWindow?
          ensures NewWindow(env.screens, s.queue[j].args).Success?
        {
          assert j > 0 && s.queue[j] == s1.queue[j - 1];
        }
      }
    }
  }

  /** `RunFindsScreens` when the first command is not `'start'`. */
  lemma {:induction false} StepFindsScreens(s: RState, env: Env)
    requires s.alive && s.queue != [] && !s.queue[0].Start?
    ensures var r := Run(s, env).0;
      ScreensFound(env.screens, s.queue, |s.queue| - |r.queue|)
    decreases |s.queue|, 0
  {
    var cmd := s.queue[0];
    match Step(s.(queue := s.queue[1..]), cmd, env)
    case Continue(next) =>
      RunFindsScreens(next, env);
      var r := Run(next, env).0;
      forall j | 0 <= j < |s.queue| && j < |s.queue| - |r.queue| - 1 && s.queue[j].CreateWindow?
        ensures NewWindow(env.screens, s.queue[j].args).Success?
      {
        if j > 0 {
          assert s.queue[j] == next.queue[j - 1];
        }
      }
    case Halted(last, h) =>
  }

  /** `RunFindsScreens` for the run-loop: the commands taken are those its
      thread took. */
  lemma {:induction false} RunUiFindsScreens(s: RState, debug: bool, env: Env)
    ensures var r := RunUi(s, debug, env).0;
      ScreensFound(env.screens, s.queue, |s.queue| - |r.queue|)
    decreases |s.queue|, 2
  {
    var n := ThreadShare(s.queue, env.uiCloses);
    var s3 := s.(queue := s.queue[..n], calls := s.calls + [RunLoop(debug)]);
    RunFindsScreens(s3, env);
    var t := Run(s3, env).0;
    var r := RunUi(s, debug, env).0;
    assert |s.queue| - |r.queue| == n - |t.queue|;
    forall j | 0 <= j < |s.queue| && j < n - |t.queue| - 1 && s.queue[j].CreateWindow?
      ensures NewWindow(env.screens, s.queue[j].args).Success?
    {
      assert s.queue[j] == s3.queue[j];
    }
  }

  /** The `'create_window'` at position `k` of `q` builds the window at index
      `CountCreates(q[..k])` of `Built(q)`, when every earlier one found its screen. */
  lemma {:induction false} BuiltAt(screens: seq<Screen>, q: seq<Command>, k: nat)
    requires k < |q| && q[k].CreateWindow? && NewWindow(screens, q[k].args).Success?
    requires forall j :: 0 <= j < k && q[j].CreateWindow? ==> NewWindow(screens, q[j].args).Success?
    ensures CountCreates(q[..k]) < |Built(screens, q)|
    ensures Built(screens, q)[CountCreates(q[..k])] == NewWindow(screens, q[k].args).value
    decreases k
  {
    if k > 0 {
      assert q[..k][1..] == q[1..][..k - 1];
      forall j | 0 <= j < k - 1 && q[1..][j].CreateWindow?
        ensures NewWindow(screens, q[1..][j].args).Success?
      {
        assert q[1..][j] == q[j + 1];
      }
      BuiltAt(screens, q[1..], k - 1);
    }
  }

  /** Every `'create_window'` the loop took and whose screen resolved built
      its window at index `CountCreates` of the creates before it, past the
      old windows, whether the loop then idles, stops, raises or runs the UI. */
  lemma RunCreatesEveryWindow(s: RState, env: Env)
    ensures var r := Run(s, env).0;
      forall k | 0 <= k < |s.queue| - |r.queue| && s.queue[k].CreateWindow? &&
                 NewWindow(env.screens, s.queue[k].args).Success? ::
          |s.windows| + CountCreates(s.queue[..k]) < |r.windows| &&
          r.windows[|s.windows| + CountCreates(s.queue[..k])] == NewWindow(env.screens, s.queue[k].args).value
  {
    var r := Run(s, env).0;
    forall k | 0 <= k < |s.queue| - |r.queue| && s.queue[k].CreateWindow? &&
               NewWindow(env.screens, s.queue[k].args).Success?
      ensures |s.windows| + CountCreates(s.queue[..k]) < |r.windows| &&
        r.windows[|s.windows| + CountCreates(s.queue[..k])] == NewWindow(env.screens, s.queue[k].args).value
    {
      RunCreatesWindowAt(s, env, k);
    }
  }
  lemma RunCreatesWindowAt(s: RState, env: Env, k: nat)
    requires k < |s.queue| - |Run(s, env).0.queue| && s.queue[k].CreateWindow?
    requires NewWindow(env.screens, s.queue[k].args).Success?
    ensures var r := Run(s, env).0;
      |s.windows| + CountCreates(s.queue[..k]) < |r.windows| &&
      r.windows[|s.windows| + CountCreates(s.queue[..k])] == NewWindow(env.screens, s.queue[k].args).value
  {
    var r := Run(s, env).0;
    RunBuildsWindows(s, env);
    RunFindsScreens(s, env);
    var q := s.queue[..|s.queue| - |r.queue|];
    assert q[..k] == s.queue[..k];
    BuiltAt(env.screens, q, k);
  }

  /** The renderer process (`PyWV`): the loop's state, updated in place. */
  class PyWV {
    var queue: seq<Command>
    var isAlive: bool
    var windows: seq<Window>
    var returnQueue: seq<JsValue>
    var emitQueue: seq<string>
    var calls: seq<NativeCall>
    const env: Env

    function State(): RState
      reads this
    {
      RState(queue, isAlive, windows, returnQueue, emitQueue, calls)
    }

    /** `PyWV.__init__` up to the call of `loop()`. */
    constructor (commands: seq<Command>, env: Env)
      ensures State() == Initial(commands) && this.env == env
    {
      queue, isAlive, windows := commands, true, [];
      returnQueue, emitQueue, calls := [], [], [];
      this.env := env;
    }

    /** `PyWV.create_window`: appends the new window, or reports the `IndexError`
        a missing screen raises and leaves the list alone. */
    method CreateWindow(a: WindowArgs) returns (error: Option<LoopError>)
      modifies this`windows
      ensures NewWindow(env.screens, a).Success? ==>
        error.None? && windows == old(windows) + [NewWindow(env.screens, a).value]
      ensures NewWindow(env.screens, a).Failure? ==>
        error == Some(NewWindow(env.screens, a).error) && windows == old(windows)
    {
      var w := NewWindow(env.screens, a);
      if w.Failure? {
        return Some(w.error);
      }
      windows := windows + [w.value];
      error := None;
    }

    /** `PyWV.loop`. In its `'start'` case the thread that `webview.start`
        runs `self.loop` on is the recursive call, given the thread's share
        of the queue. */
    method Loop() returns (halt: Halt)
      modifies this
      ensures (State(), halt) == Run(old(State()), env)
      decreases |queue|
    {
      while isAlive
        invariant Run(State(), env) == Run(old(State()), env)
        invariant |queue| <= |old(queue)|
        decreases |queue|
      {
        if queue == [] {
          return Idle;
        }
        var cmd := queue[0];
        queue := queue[1..];
        match cmd {
          case CreateWindow(a) =>
            var error := CreateWindow(a);
            if error.Some? {
              return Raised(error.value);
            }
          case Start(debug) =>
            if windows == [] {
              isAlive := false;
              return NoWindows;
            }
            calls := calls + [RunLoop(debug)];
            var n := ThreadShare(queue, env.uiCloses);
            var untaken := queue[n..];
            queue := queue[..n];
            var thread := Loop();
            if env.uiCloses.None? {
              return UiRunning(thread);
            }
            queue := queue + untaken;
            isAlive := false;
            emitQueue := emitQueue + ["exit"];
            calls := calls + [UiClosed];
            return RunLoopReturned(thread);
          case Stop =>
            isAlive := false;
            return Stopped;
          case ToWindow(i, arg) =>
            var w := PyIndex(|windows|, i);
            if w.None? {
              return Raised(IndexError);
            }
            if arg == "show" {
              calls := calls + [ShowWindow(w.value)];
            } else if arg == "hide" {
              calls := calls + [HideWindow(w.value)];
            } else {
              var script := ScriptOf(arg);
              calls := calls + [Evaluate(w.value, script)];
              match env.evaluate(w.value, script) {
                case Returned(v) =>
                  if IsMarked(arg) {
                    returnQueue := returnQueue + [v];
                  }
                case KeyErrorRaised =>
                  return KeyErrorExit;
                case ScriptFailed(text) =>
                  var info := JsError.ParseJsError(text, env.json(text));
                  if info.None? {
                    return Raised(FieldAccessError);
                  }
                  return Raised(JavascriptException(JsError.ScriptErrorMessage(arg, info.value)));
              }
            }
        }
      }
      return NotAlive;
    }
  }
}
