/** The launcher's reaction to the engine's `error` and `start` events.

    After validation the launcher builds the engine with the options
    record, registers two handlers and calls `start()` once.  An
    "address in use" error with autoassign on bumps the port in the shared
    options record by one and calls `start()` again; any other error is
    only reported.  Every `start` event prints the started message.

    `Supervision` is the state as a value (the options record and a trace
    of what the launcher did), the functions below give each handler's
    effect on it, and the class `Orchestrator` holds the same state in
    place and is proved to follow those functions.
 */
module Lifecycle {
  import opened Startup

  /** The error code the launcher recognises as "port already bound". */
  const AddrInUse: string := "EADDRINUSE"

  /** A signal emitted by the engine. */
  datatype Event = Failed(errno: string) | Started

  /** An observable step of the launcher. */
  datatype Action =
    | StartCalled(port: int)     // grizzly.start() with options.port == port
    | PortSwitched(port: int)    // the "switching port" warning
    | ErrorReported(errno: string)
    | StartedMessage             // printStartedMessage()

  datatype Supervision = Supervision(options: Options, trace: seq<Action>)

  /** The ports of the `start()` calls in a trace, in order. */
  function StartPorts(trace: seq<Action>): seq<int> {
    if trace == [] then []
    else
      var last := trace[|trace| - 1];
      StartPorts(trace[..|trace| - 1]) + (if last.StartCalled? then [last.port] else [])
  }

  /** The number of started messages in a trace. */
  function MessageCount(trace: seq<Action>): nat {
    if trace == [] then 0
    else MessageCount(trace[..|trace| - 1]) + (if trace[|trace| - 1].StartedMessage? then 1 else 0)
  }

  /** The ports named by the "switching port" warnings in a trace, in order. */
  function Warnings(trace: seq<Action>): seq<int> {
    if trace == [] then []
    else
      var last := trace[|trace| - 1];
      Warnings(trace[..|trace| - 1]) + (if last.PortSwitched? then [last.port] else [])
  }

  /** The error codes reported in a trace, in order. */
  function Reports(trace: seq<Action>): seq<string> {
    if trace == [] then []
    else
      var last := trace[|trace| - 1];
      Reports(trace[..|trace| - 1]) + (if last.ErrorReported? then [last.errno] else [])
  }

  lemma Snoc(trace: seq<Action>, a: Action)
    ensures StartPorts(trace + [a]) == StartPorts(trace) + (if a.StartCalled? then [a.port] else [])
    ensures MessageCount(trace + [a]) == MessageCount(trace) + (if a.StartedMessage? then 1 else 0)
    ensures Warnings(trace + [a]) == Warnings(trace) + (if a.PortSwitched? then [a.port] else [])
    ensures Reports(trace + [a]) == Reports(trace) + (if a.ErrorReported? then [a.errno] else [])
  {
    assert (trace + [a])[..|trace|] == trace;
  }

  /** `n` consecutive integers starting at `lo`. */
  function Range(lo: int, n: nat): (r: seq<int>)
    ensures |r| == n
    ensures forall i :: 0 <= i < n ==> r[i] == lo + i
  {
    if n == 0 then [] else Range(lo, n - 1) + [lo + n - 1]
  }

  /** `k` copies of one event. */
  function Repeat(e: Event, k: nat): (r: seq<Event>)
    ensures |r| == k
    ensures multiset(r) == multiset{}[e := k]
  {
    if k == 0 then [] else Repeat(e, k - 1) + [e]
  }

  /** The error handler retries exactly on "address in use" with autoassign on. */
  predicate Retries(s: Supervision, errno: string) {
    errno == AddrInUse && s.options.autoassignPort
  }

  /** Building the engine and issuing the first `start()`. */
  function Launch(options: Options): (s: Supervision)
    ensures s.options == options
    ensures StartPorts(s.trace) == [options.port]
    ensures MessageCount(s.trace) == 0
  {
    Snoc([], StartCalled(options.port));
    Supervision(options, [StartCalled(options.port)])
  }

  /** The `error` handler. */
  function HandleError(s: Supervision, errno: string): (r: Supervision)
    ensures s.trace < r.trace
    ensures Retries(s, errno) ==> r.options == s.options.(port := s.options.port + 1)
    ensures Retries(s, errno) ==> StartPorts(r.trace) == StartPorts(s.trace) + [s.options.port + 1]
    ensures !Retries(s, errno) ==> r.options == s.options && StartPorts(r.trace) == StartPorts(s.trace)
    ensures MessageCount(r.trace) == MessageCount(s.trace)
  {
    if errno == AddrInUse && s.options.autoassignPort then
      var next := s.options.port + 1;
      var warned := s.trace + [PortSwitched(next)];
      Snoc(s.trace, PortSwitched(next));
      Snoc(warned, StartCalled(next));
      Supervision(s.options.(port := next), warned + [StartCalled(next)])
    else
      Snoc(s.trace, ErrorReported(errno));
      Supervision(s.options, s.trace + [ErrorReported(errno)])
  }

  /** What the `error` handler prints: a retry warns once, naming the port
      after the increment, and reports nothing; any other error is reported
      once with its code and warns nothing. */
  lemma HandleErrorOutput(s: Supervision, errno: string)
    ensures Retries(s, errno) ==>
      && Warnings(HandleError(s, errno).trace) == Warnings(s.trace) + [s.options.port + 1]
      && Reports(HandleError(s, errno).trace) == Reports(s.trace)
    ensures !Retries(s, errno) ==>
      && Reports(HandleError(s, errno).trace) == Reports(s.trace) + [errno]
      && Warnings(HandleError(s, errno).trace) == Warnings(s.trace)
  {
    var next := s.options.port + 1;
    if Retries(s, errno) {
      Snoc(s.trace, PortSwitched(next));
      Snoc(s.trace + [PortSwitched(next)], StartCalled(next));
    } else {
      Snoc(s.trace, ErrorReported(errno));
    }
  }

  /** The `start` handler: one more started message, nothing else. */
  function HandleStart(s: Supervision): (r: Supervision)
    ensures s.trace < r.trace
    ensures r.options == s.options
    ensures StartPorts(r.trace) == StartPorts(s.trace)
    ensures MessageCount(r.trace) == MessageCount(s.trace) + 1
  {
    Snoc(s.trace, StartedMessage);
    Supervision(s.options, s.trace + [StartedMessage])
  }

  /** Start-up and the `start` handler print no warning and report no error. */
  lemma LaunchAndStartOutput(options: Options, s: Supervision)
    ensures Warnings(Launch(options).trace) == [] && Reports(Launch(options).trace) == []
    ensures Warnings(HandleStart(s).trace) == Warnings(s.trace)
    ensures Reports(HandleStart(s).trace) == Reports(s.trace)
  {
    Snoc([], StartCalled(options.port));
    Snoc(s.trace, StartedMessage);
  }

  function Handle(s: Supervision, e: Event): Supervision {
    match e
    case Failed(errno) => HandleError(s, errno)
    case Started => HandleStart(s)
  }

  /** Dispatching a sequence of engine events in order. */
  function Run(s: Supervision, events: seq<Event>): (r: Supervision)
    ensures s.trace <= r.trace
    ensures r.options == s.options.(port := r.options.port)
    ensures r.options.port >= s.options.port
    decreases |events|
  {
    if events == [] then s else Run(Handle(s, events[0]), events[1..])
  }

  /** The ports of all `start()` calls so far are `p0, p0+1, ...` and the
      options record holds the port of the latest call. */
  predicate PortsFrom(s: Supervision, p0: int) {
    var ports := StartPorts(s.trace);
    && |ports| >= 1
    && ports == Range(p0, |ports|)
    && s.options.port == p0 + |ports| - 1
  }

  /** Whatever the engine signals, each `start()` after the first uses the
      previous port plus one, and the options record follows the last call. */
  lemma {:induction false} RunKeepsPortsConsecutive(s: Supervision, p0: int, events: seq<Event>)
    requires PortsFrom(s, p0)
    ensures PortsFrom(Run(s, events), p0)
    decreases |events|
  {
    if events != [] {
      var t := Handle(s, events[0]);
      var n := |StartPorts(s.trace)|;
      if events[0].Failed? && Retries(s, events[0].errno) {
        assert Range(p0, n + 1) == Range(p0, n) + [p0 + n];
      }
      assert PortsFrom(t, p0);
      RunKeepsPortsConsecutive(t, p0, events[1..]);
    }
  }

  /** One event adds one `start()` exactly when it is a retried failure,
      and one started message exactly when it is a `start` event. */
  lemma HandleCounts(s: Supervision, e: Event)
    ensures Handle(s, e).options.autoassignPort == s.options.autoassignPort
    ensures |StartPorts(Handle(s, e).trace)| ==
      |StartPorts(s.trace)| + (if s.options.autoassignPort && e == Failed(AddrInUse) then 1 else 0)
    ensures MessageCount(Handle(s, e).trace) == MessageCount(s.trace) + (if e == Started then 1 else 0)
  {
  }

  /** Exactly one `start()` per retried failure, and one started message per
      `start` event, repeated events included. */
  lemma {:induction false} RunCounts(s: Supervision, events: seq<Event>)
    ensures |StartPorts(Run(s, events).trace)| ==
      |StartPorts(s.trace)| + (if s.options.autoassignPort then multiset(events)[Failed(AddrInUse)] else 0)
    ensures MessageCount(Run(s, events).trace) == MessageCount(s.trace) + multiset(events)[Started]
    decreases |events|
  {
    if events != [] {
      var e, rest := events[0], events[1..];
      var t := Handle(s, e);
      assert events == [e] + rest;
      assert multiset(events) == multiset{e} + multiset(rest);
      HandleCounts(s, e);
      RunCounts(t, rest);
      assert Run(s, events) == Run(t, rest);
    }
  }

  /** From launch, the `start()` calls are on consecutive ports from the
      configured one; there are `1 + k` of them where `k` counts the "address
      in use" failures if autoassign is on and is 0 otherwise. */
  lemma StartCallsFromLaunch(options: Options, events: seq<Event>)
    ensures var r := Run(Launch(options), events);
      var k := if options.autoassignPort then multiset(events)[Failed(AddrInUse)] else 0;
      && StartPorts(r.trace) == Range(options.port, k + 1)
      && r.options == options.(port := options.port + k)
      && MessageCount(r.trace) == multiset(events)[Started]
  {
    var s := Launch(options);
    assert [options.port] == Range(options.port, 1);
    RunKeepsPortsConsecutive(s, options.port, events);
    RunCounts(s, events);
  }

  /** With autoassign off no event ever triggers a second `start()` and the
      port never moves. */
  lemma NoAutoassignNeverRestarts(options: Options, events: seq<Event>)
    requires !options.autoassignPort
    ensures StartPorts(Run(Launch(options), events).trace) == [options.port]
    ensures Run(Launch(options), events).options == options
  {
    StartCallsFromLaunch(options, events);
  }

  /** `k` "address in use" failures with autoassign on, then one `start`
      event: `k + 1` calls to `start()` on ports P..P+k, final port P+k, and
      one started message. No cap on `k`. */
  lemma RetryChain(options: Options, k: nat)
    requires options.autoassignPort
    ensures var r := Run(Launch(options), Repeat(Failed(AddrInUse), k) + [Started]);
      && StartPorts(r.trace) == Range(options.port, k + 1)
      && r.options == options.(port := options.port + k)
      && MessageCount(r.trace) == 1
  {
    var events := Repeat(Failed(AddrInUse), k) + [Started];
    var m := multiset(events);
    assert m == multiset{}[Failed(AddrInUse) := k] + multiset{Started};
    assert m[Failed(AddrInUse)] == k && m[Started] == 1;
    StartCallsFromLaunch(options, events);
  }

  /** The launcher as it runs: the options record it shares with the engine
      and, as ghost state, what it has done so far. */
  class Orchestrator {
    var options: Options
    ghost var trace: seq<Action>

    ghost function State(): Supervision
      reads this
    {
      Supervision(options, trace)
    }

    /** Builds the engine, registers the handlers and calls `start()`. */
    constructor (opts: Options)
      ensures State() == Launch(opts)
    {
      options := opts;
      trace := [StartCalled(opts.port)];
    }

    /** The `error` handler. */
    method OnError(errno: string)
      modifies this
      ensures State() == HandleError(old(State()), errno)
      ensures options.port == old(options.port) + (if errno == AddrInUse && old(options.autoassignPort) then 1 else 0)
    {
      ghost var expected := HandleError(State(), errno);
      if errno == AddrInUse && options.autoassignPort {
        options := options.(port := options.port + 1);
        trace := trace + [PortSwitched(options.port)] + [StartCalled(options.port)];
      } else {
        trace := trace + [ErrorReported(errno)];
      }
      assert State() == expected;
    }

    /** The `start` handler. */
    method OnStart()
      modifies this
      ensures State() == HandleStart(old(State()))
    {
      trace := trace + [StartedMessage];
    }
  }
}
