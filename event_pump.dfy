/**
 * The controller's event pump (the dispatch loop of `Chart.show_async`):
 * it takes messages off the emit queue in FIFO order; the sentinel `'exit'`
 * tears the bridge down and ends the pump, every other message is decoded by
 * `parse_event_message` and its handler called once. Decoding and handlers
 * are foreign: the model records each message handed to them, and a
 * parameter says which handlers call `Chart.exit()`, which tears the bridge
 * down and clears `is_alive` so that the pump stops at its next check.
 */
module EventPump {
  import opened Wrappers
  import opened Supervisor

  /** How the pump stops: the chart was no longer alive, the queue ran dry
      while alive (the source then sleeps and polls forever), `'exit'` came,
      or a handler called `Chart.exit()`. */
  datatype PumpHalt = Closed | Waiting | ExitReceived | HandlerExited

  datatype Dispatch = Dispatch(handled: seq<string>, rest: seq<string>, halt: PumpHalt)

  /** The messages the pump dispatches from `msgs`, what it leaves on the
      queue, and why it stops. `exits(m)` says that the handler of `m` calls
      `Chart.exit()`. */
  function Pump(msgs: seq<string>, alive: bool, exits: string -> bool): Dispatch
    decreases |msgs|
  {
    if !alive then Dispatch([], msgs, Closed)
    else if msgs == [] then Dispatch([], [], Waiting)
    else if msgs[0] == "exit" then Dispatch([], msgs[1..], ExitReceived)
    else if exits(msgs[0]) then Dispatch([msgs[0]], msgs[1..], HandlerExited)
    else
      var d := Pump(msgs[1..], alive, exits);
      d.(handled := [msgs[0]] + d.handled)
  }

  /** FIFO and nothing lost: a live pump dispatches a prefix of the queue, in
      order, each message once, and never `'exit'`. It stops at the first
      message that is `'exit'` (not dispatched) or whose handler exits the
      chart (dispatched, last), leaving what follows; with neither in the
      queue it dispatches everything and waits. */
  lemma {:induction false} PumpIsFifo(msgs: seq<string>, exits: string -> bool)
    ensures var d := Pump(msgs, true, exits);
      var n := |d.handled|;
      d.halt != Closed && n <= |msgs| && d.handled == msgs[..n] &&
      (forall j :: 0 <= j < n ==> msgs[j] != "exit") &&
      (forall j :: 0 <= j < n - 1 ==> !exits(msgs[j])) &&
      (d.halt == Waiting ==> n == |msgs| && d.rest == [] && (n == 0 || !exits(msgs[n - 1]))) &&
      (d.halt == ExitReceived ==>
         n < |msgs| && msgs[n] == "exit" && d.rest == msgs[n + 1..] && (n == 0 || !exits(msgs[n - 1]))) &&
      (d.halt == HandlerExited ==> n > 0 && exits(msgs[n - 1]) && d.rest == msgs[n..])
    decreases |msgs|
  {
    if msgs != [] && msgs[0] != "exit" && !exits(msgs[0]) {
      PumpIsFifo(msgs[1..], exits);
      var d := Pump(msgs[1..], true, exits);
      var n := |d.handled|;
      assert Pump(msgs, true, exits).handled == [msgs[0]] + d.handled;
      assert msgs[..n + 1] == [msgs[0]] + msgs[1..][..n];
      forall j | 0 <= j < n + 1
        ensures msgs[j] != "exit"
      {
        if j > 0 {
          assert msgs[j] == msgs[1..][j - 1];
        }
      }
      forall j | 0 <= j < n
        ensures !exits(msgs[j])
      {
        if j > 0 {
          assert msgs[j] == msgs[1..][j - 1];
        }
      }
      if n > 0 {
        assert msgs[n] == msgs[1..][n - 1];
      }
      if n < |msgs| - 1 {
        assert msgs[n + 1] == msgs[1..][n];
      }
      assert msgs[n + 1..] == msgs[1..][n..];
      assert n + 1 <= |msgs| - 1 ==> msgs[n + 2..] == msgs[1..][n + 1..];
    }
  }

  /** A live pump dispatches a prefix free of `'exit'` and of exiting
      handlers, and goes on from what follows it. */
  lemma {:induction false} PumpSkipsDispatched(consumed: seq<string>, rest: seq<string>, exits: string -> bool)
    requires forall j :: 0 <= j < |consumed| ==> consumed[j] != "exit" && !exits(consumed[j])
    ensures Pump(consumed + rest, true, exits) ==
      Pump(rest, true, exits).(handled := consumed + Pump(rest, true, exits).handled)
    decreases |consumed|
  {
    var d := Pump(rest, true, exits);
    if consumed == [] {
      assert consumed + rest == rest && consumed + d.handled == d.handled;
    } else {
      assert (consumed + rest)[0] == consumed[0];
      assert (consumed + rest)[1..] == consumed[1..] + rest;
      assert forall j :: 0 <= j < |consumed| - 1 ==> consumed[1..][j] == consumed[j + 1];
      PumpSkipsDispatched(consumed[1..], rest, exits);
      assert consumed + d.handled == [consumed[0]] + (consumed[1..] + d.handled);
    }
  }

  /** What a live pump makes of a queue that splits into a dispatched prefix
      free of endings, the message that ended it if any, and the rest. */
  lemma PumpAfterDispatch(msgs: seq<string>, consumed: seq<string>, ending: Option<string>,
                          rest: seq<string>, exits: string -> bool)
    requires msgs == consumed + (if ending.Some? then [ending.value] else []) + rest
    requires forall j :: 0 <= j < |consumed| ==> consumed[j] != "exit" && !exits(consumed[j])
    requires ending.Some? ==> ending.value == "exit" || exits(ending.value)
    requires ending.None? ==> rest == []
    ensures var d := Pump(msgs, true, exits);
      d.handled == consumed + (if ending.Some? && ending.value != "exit" then [ending.value] else []) &&
      d.halt == (if ending.None? then Waiting else if ending.value == "exit" then ExitReceived else HandlerExited) &&
      d.rest == rest
  {
    if ending.None? {
      assert msgs == consumed + [];
      PumpSkipsDispatched(consumed, [], exits);
    } else {
      var tail := [ending.value] + rest;
      assert msgs == consumed + tail && tail[1..] == rest;
      PumpSkipsDispatched(consumed, tail, exits);
    }
  }

  /** A chart window with its share of the bridge. */
  class Chart {
    var isAlive: bool
    /** Messages handed to `parse_event_message` and then to their handlers, in call order. */
    var handled: seq<string>
    const wv: WebviewHandler

    constructor (wv: WebviewHandler)
      ensures this.wv == wv && isAlive && handled == []
    {
      this.wv := wv;
      isAlive := true;
      handled := [];
    }

    /** `Chart.exit`: tear the bridge down, then mark the chart dead. */
    method Exit(fate: ProcessFate, faultAt: Option<nat>)
      modifies this, wv
      ensures wv.Valid() && wv.IsReset() && wv.debug == old(wv.debug)
      ensures !isAlive && handled == old(handled)
    {
      var steps, logged := wv.Exit(fate, faultAt);
      isAlive := false;
    }

    /** The dispatch loop of `show_async` up to the message that ends the
        chart: it takes and dispatches messages while the chart is alive and
        one is queued. `ending` is the message that ended it, if any. */
    method DispatchUntilEnd(exits: string -> bool) returns (ending: Option<string>, ghost consumed: seq<string>)
      modifies this`handled, wv`emitQueue
      ensures old(wv.emitQueue) == consumed + (if ending.Some? then [ending.value] else []) + wv.emitQueue
      ensures handled == old(handled) + consumed +
        (if ending.Some? && ending.value != "exit" then [ending.value] else [])
      ensures forall j :: 0 <= j < |consumed| ==> consumed[j] != "exit" && !exits(consumed[j])
      ensures ending.Some? ==> ending.value == "exit" || exits(ending.value)
      ensures isAlive && ending.None? ==> wv.emitQueue == []
      ensures !isAlive ==> consumed == [] && ending.None?
    {
      consumed := [];
      ending := None;
      while isAlive && ending.None? && wv.emitQueue != []
        invariant old(wv.emitQueue) == consumed + (if ending.Some? then [ending.value] else []) + wv.emitQueue
        invariant handled == old(handled) + consumed +
          (if ending.Some? && ending.value != "exit" then [ending.value] else [])
        invariant forall j :: 0 <= j < |consumed| ==> consumed[j] != "exit" && !exits(consumed[j])
        invariant ending.Some? ==> ending.value == "exit" || exits(ending.value)
        invariant !isAlive ==> consumed == [] && ending.None?
        decreases |wv.emitQueue|
      {
        var response := wv.emitQueue[0];
        wv.emitQueue := wv.emitQueue[1..];
        if response != "exit" {
          handled := handled + [response];
        }
        if response == "exit" || exits(response) {
          ending := Some(response);
        } else {
          consumed := consumed + [response];
        }
      }
    }

    /** The dispatch loop of `show_async`: dispatch until a message ends the
        chart, then tear down. `exits` says which handlers call
        `Chart.exit()`; `fate` and `faultAt` say how the teardown goes. */
    method ShowAsync(exits: string -> bool, fate: ProcessFate, faultAt: Option<nat>) returns (halt: PumpHalt)
      requires wv.Valid()
      modifies this, wv
      ensures wv.Valid() && wv.debug == old(wv.debug)
      ensures var d := Pump(old(wv.emitQueue), old(isAlive), exits);
        halt == d.halt && handled == old(handled) + d.handled &&
        (halt == ExitReceived || halt == HandlerExited ==> !isAlive && wv.IsReset()) &&
        (halt == Closed || halt == Waiting ==>
           isAlive == old(isAlive) && wv.emitQueue == d.rest &&
           wv.commandQueue == old(wv.commandQueue) && wv.returnQueue == old(wv.returnQueue) &&
           wv.maxWindowNum == old(wv.maxWindowNum) && wv.loaded == old(wv.loaded) &&
           wv.process == old(wv.process))
    {
      var ending;
      ghost var consumed;
      ending, consumed := DispatchUntilEnd(exits);
      if !isAlive {
        return Closed;
      }
      PumpAfterDispatch(old(wv.emitQueue), consumed, ending, wv.emitQueue, exits);
      if ending.None? {
        return Waiting;
      }
      Exit(fate, faultAt);
      halt := if ending.value == "exit" then ExitReceived else HandlerExited;
    }
  }
}
