/**
 * The controller side of the bridge (`WebviewHandler` in `chart.py`): it
 * owns the three queues and the renderer process, hands out window handles,
 * and tears everything down in `exit()`.
 *
 * The queues are sequences that only this side appends to here; the renderer
 * that consumes the command queue runs in another process and is modelled by
 * the `Renderer` module. Process liveness and start-up readiness are oracles.
 */
module Supervisor {
  import opened Wrappers
  import opened Renderer

  datatype ProcessState = Unstarted | Started

  /** How the renderer process reacts to being asked to go away. */
  datatype ProcessFate = NotRunning | ExitsOnStop | ExitsOnTerminate | NeedsKill

  /** `wv_process.is_alive()` at the three checks of `exit()`: on entry, after
      the first join, and after the terminate-and-join. A dead process stays dead. */
  predicate AliveAt(fate: ProcessFate, check: nat) {
    match fate
    case NotRunning => false
    case ExitsOnStop => check == 0
    case ExitsOnTerminate => check <= 1
    case NeedsKill => true
  }

  datatype TeardownStep = SendStop | Join(timeout: real) | Terminate | Kill

  /** The escalation `exit()` performs when nothing raises. */
  function Ladder(fate: ProcessFate): seq<TeardownStep> {
    if !AliveAt(fate, 0) then []
    else
      [SendStop, Join(2.0)] +
      (if AliveAt(fate, 1) then [Terminate, Join(1.0)] else []) +
      (if AliveAt(fate, 2) then [Kill] else [])
  }

  /** The steps performed when the step numbered `faultAt` (if any) raises;
      the exception is logged and the rest of the ladder is skipped. */
  function Teardown(fate: ProcessFate, faultAt: Option<nat>): seq<TeardownStep> {
    var ladder := Ladder(fate);
    if faultAt.Some? && faultAt.value < |ladder| then ladder[..faultAt.value] else ladder
  }

  /** How long a step may block: the timeout of a join, nothing otherwise. */
  function Wait(step: TeardownStep): real {
    if step.Join? then step.timeout else 0.0
  }

  function JoinTime(steps: seq<TeardownStep>): real {
    if steps == [] then 0.0 else JoinTime(steps[..|steps| - 1]) + Wait(steps[|steps| - 1])
  }

  /** The longest ladder, in the order `exit()` climbs it. */
  const FullLadder: seq<TeardownStep> := [SendStop, Join(2.0), Terminate, Join(1.0), Kill]

  /** Whatever happens, the steps are a prefix of the full ladder: the process
      is killed only after a stop and a terminate both failed, and the joins
      wait at most 3 seconds in all. */
  lemma TeardownClimbsLadder(fate: ProcessFate, faultAt: Option<nat>)
    ensures var steps := Teardown(fate, faultAt);
      |steps| <= |FullLadder| && steps == FullLadder[..|steps|] &&
      (Kill in steps ==> fate == NeedsKill) &&
      (Terminate in steps ==> AliveAt(fate, 1)) &&
      JoinTime(steps) <= 3.0
  {
    var steps := Teardown(fate, faultAt);
    var ladder := Ladder(fate);
    assert ladder == FullLadder[..|ladder|];
    assert steps == FullLadder[..|steps|];
    JoinTimePrefix(|steps|);
  }

  /** The joins among the first `n` steps of the ladder wait 0, 0, 2, 2, 3, 3 seconds. */
  lemma {:induction false} JoinTimePrefix(n: nat)
    requires n <= |FullLadder|
    ensures JoinTime(FullLadder[..n]) == [0.0, 0.0, 2.0, 2.0, 3.0, 3.0][n]
  {
    if n > 0 {
      assert FullLadder[..n][..n - 1] == FullLadder[..n - 1];
      JoinTimePrefix(n - 1);
    }
  }

  datatype StartError = ProcessAlreadyStarted | StartTimeout

  /** `WebviewHandler`. */
  class WebviewHandler {
    var commandQueue: seq<Command>
    var returnQueue: seq<JsValue>
    var emitQueue: seq<string>
    var loaded: bool
    var process: ProcessState
    var maxWindowNum: int
    var debug: bool

    /** The last handle handed out is one less than the number of
        `'create_window'` commands queued since the last reset, so handle `h`
        names the `h`-th window the renderer will create. */
    ghost predicate Valid()
      reads this
    {
      maxWindowNum == CountCreates(commandQueue) - 1
    }

    /** The state right after `_reset()`. */
    ghost predicate IsReset()
      reads this
    {
      commandQueue == [] && returnQueue == [] && emitQueue == [] &&
      !loaded && process == Unstarted && maxWindowNum == -1
    }

    constructor ()
      ensures Valid() && IsReset() && !debug
    {
      commandQueue, returnQueue, emitQueue := [], [], [];
      loaded, process, maxWindowNum := false, Unstarted, -1;
      debug := false;
    }

    /** `_reset`: fresh queues, event and process object, and the counter back to -1. */
    method Reset()
      modifies this
      ensures Valid() && IsReset() && debug == old(debug)
    {
      commandQueue, returnQueue, emitQueue := [], [], [];
      loaded, process, maxWindowNum := false, Unstarted, -1;
    }

    /** `create_window`: queues one command and returns the next handle. */
    method CreateWindow(args: WindowArgs) returns (handle: int)
      requires Valid()
      modifies this`commandQueue, this`maxWindowNum
      ensures Valid()
      ensures commandQueue == old(commandQueue) + [Renderer.CreateWindow(args)]
      ensures handle == old(maxWindowNum) + 1 == maxWindowNum
      ensures handle == CountCreates(old(commandQueue))
    {
      commandQueue := commandQueue + [Renderer.CreateWindow(args)];
      CountCreatesAppend(old(commandQueue), Renderer.CreateWindow(args));
      maxWindowNum := maxWindowNum + 1;
      handle := maxWindowNum;
    }

    /** `show`, `hide` and `evaluate_js` (the definition that takes effect):
        queue one window-addressed command. */
    method Send(windowNum: int, arg: string)
      requires Valid()
      modifies this`commandQueue
      ensures Valid()
      ensures commandQueue == old(commandQueue) + [ToWindow(windowNum, arg)]
    {
      commandQueue := commandQueue + [ToWindow(windowNum, arg)];
      CountCreatesAppend(old(commandQueue), ToWindow(windowNum, arg));
    }

    method Show(windowNum: int)
      requires Valid()
      modifies this`commandQueue
      ensures Valid()
      ensures commandQueue == old(commandQueue) + [ToWindow(windowNum, "show")]
    {
      Send(windowNum, "show");
    }

    method Hide(windowNum: int)
      requires Valid()
      modifies this`commandQueue
      ensures Valid()
      ensures commandQueue == old(commandQueue) + [ToWindow(windowNum, "hide")]
    {
      Send(windowNum, "hide");
    }

    method EvaluateJs(windowNum: int, script: string)
      requires Valid()
      modifies this`commandQueue
      ensures Valid()
      ensures commandQueue == old(commandQueue) + [ToWindow(windowNum, script)]
    {
      Send(windowNum, script);
    }

    /** `exit`: escalate as far as the process needs (an exception there is
        logged, never raised), then drain the three queues and reset. A
        process that was never started is not alive, whatever `fate` says. */
    method Exit(fate: ProcessFate, faultAt: Option<nat>) returns (steps: seq<TeardownStep>, logged: bool)
      modifies this
      ensures Valid() && IsReset() && debug == old(debug)
      ensures var live := if old(process) == Started then fate else NotRunning;
        steps == Teardown(live, faultAt) &&
        (logged <==> faultAt.Some? && faultAt.value < |Ladder(live)|)
    {
      var live := if process == Started then fate else NotRunning;
      var ladder := Ladder(live);
      logged := faultAt.Some? && faultAt.value < |ladder|;
      steps := if logged then ladder[..faultAt.value] else ladder;
      if SendStop in steps {
        commandQueue := commandQueue + [Renderer.Stop];
      }
      ghost var commands, emits, answers := commandQueue, emitQueue, returnQueue;
      while commandQueue != []
        invariant commandQueue == commands[|commands| - |commandQueue|..]
        invariant emitQueue == emits && returnQueue == answers && debug == old(debug)
        decreases |commandQueue|
      {
        commandQueue := commandQueue[1..];
      }
      while emitQueue != []
        invariant commandQueue == [] && emitQueue == emits[|emits| - |emitQueue|..]
        invariant returnQueue == answers && debug == old(debug)
        decreases |emitQueue|
      {
        emitQueue := emitQueue[1..];
      }
      while returnQueue != []
        invariant commandQueue == [] && emitQueue == []
        invariant returnQueue == answers[|answers| - |returnQueue|..] && debug == old(debug)
        decreases |returnQueue|
      {
        returnQueue := returnQueue[1..];
      }
      Reset();
    }

    /** `start`: clear the readiness event, start the process (a process object
        starts only once), queue `'start'`, and wait for readiness; on a
        timeout, tear down and fail. `ready` says whether a queued window's
        `loaded` event fires within the timeout. Only a window sets that event,
        so with no `'create_window'` queued since the last reset
        (`maxWindowNum < 0`) the renderer ends its loop at `'start'`, and the
        wait always times out. */
    method Start(ready: bool, fate: ProcessFate, faultAt: Option<nat>) returns (r: Result<(), StartError>)
      requires Valid()
      modifies this
      ensures Valid() && debug == old(debug)
      ensures old(process) == Started ==>
        r == Failure(ProcessAlreadyStarted) && !loaded &&
        commandQueue == old(commandQueue) && maxWindowNum == old(maxWindowNum)
      ensures old(process) == Unstarted && old(maxWindowNum) < 0 ==> r == Failure(StartTimeout) && IsReset()
      ensures old(process) == Unstarted && !ready ==> r == Failure(StartTimeout) && IsReset()
      ensures old(process) == Unstarted && ready && old(maxWindowNum) >= 0 ==>
        r == Success(()) && loaded && process == Started &&
        commandQueue == old(commandQueue) + [Renderer.Start(debug)] && maxWindowNum == old(maxWindowNum)
    {
      loaded := false;
      if process == Started {
        return Failure(ProcessAlreadyStarted);
      }
      process := Started;
      commandQueue := commandQueue + [Renderer.Start(debug)];
      CountCreatesAppend(old(commandQueue), Renderer.Start(debug));
      if !ready || maxWindowNum < 0 {
        var steps, logged := Exit(fate, faultAt);
        return Failure(StartTimeout);
      }
      loaded := true;
      r := Success(());
    }
  }

  /** Handles count up from 0 and start again from 0 after `exit()`: the
      counter is reset, so a handle is unique only between two resets. */
  method HandlesRestartAfterExit(wv: WebviewHandler, a: WindowArgs, fate: ProcessFate)
    returns (first: int, second: int, afterExit: int)
    requires wv.Valid() && wv.IsReset()
    modifies wv
    ensures first == 0 && second == 1 && afterExit == 0
  {
    first := wv.CreateWindow(a);
    second := wv.CreateWindow(a);
    var steps, logged := wv.Exit(fate, None);
    afterExit := wv.CreateWindow(a);
  }

  /** The handle `create_window` returned for the command at position `k`
      indexes the very window the renderer built for it, once the renderer
      has taken that command and the screen resolved; this holds whether the
      renderer then idles, stops, raises or runs the UI. */
  lemma HandleNamesRendererWindow(q: seq<Command>, k: nat, env: Env)
    requires k < |q| - |Run(Initial(q), env).0.queue| && q[k].CreateWindow?
    requires NewWindow(env.screens, q[k].args).Success?
    ensures var windows := Run(Initial(q), env).0.windows;
      CountCreates(q[..k]) < |windows| &&
      windows[CountCreates(q[..k])] == NewWindow(env.screens, q[k].args).value
  {
    RunCreatesWindowAt(Initial(q), env, k);
  }
}
