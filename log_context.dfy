/** The contextual console (src/lib/utility/api/context.ts): a one-time patch of the global
    `console.log` that prefixes every line with the request id bound to the calling context. */
module LogContext {
  import opened Common

  /** An argument handed to the logger: a string, or some other value known only by identity. */
  datatype Arg = Str(text: string) | Value(ref: nat)

  /** What the global `console.log` currently is: the process's own logger, which prints
      to output `sink`, or the contextual wrapper. */
  datatype Logger = Native(sink: nat) | Contextual

  /** One line printed by a native logger. */
  datatype Line = Line(sink: nat, args: seq<Arg>)

  /** The process-wide state: the global `console.log` and the module variable holding the
      saved original logger (`None` until the first installation). */
  datatype ConsoleState = ConsoleState(consoleLog: Logger, saved: Option<Logger>)

  const RequestIdTag := "requestId="

  /** Every reachable state: before installation `console.log` is native and nothing is saved;
      after it, `console.log` is the wrapper and the saved logger is native. */
  predicate Coherent(s: ConsoleState) {
    match s.saved
    case None => s.consoleLog.Native?
    case Some(l) => l.Native? && s.consoleLog == Contextual
  }

  /** The wrapper is in place. */
  predicate Installed(s: ConsoleState) {
    s.saved.Some?
  }

  /** The state at process start, when `console.log` prints to `sink`. */
  function Startup(sink: nat): (s: ConsoleState)
    ensures Coherent(s) && !Installed(s)
  {
    ConsoleState(Native(sink), None)
  }

  /** The output the original logger prints to, before and after installation. */
  function OriginalSink(s: ConsoleState): nat
    requires Coherent(s)
  {
    if s.saved.Some? then s.saved.value.sink else s.consoleLog.sink
  }

  /** `setContextualConsole`: the first call saves the current logger and installs the
      wrapper; once something is saved, a call changes nothing. */
  function Install(s: ConsoleState): (t: ConsoleState)
    requires Coherent(s)
    ensures Coherent(t) && Installed(t)
    ensures OriginalSink(t) == OriginalSink(s)
    ensures Installed(s) ==> t == s
    ensures !Installed(s) ==> t.saved == Some(s.consoleLog) && t.consoleLog == Contextual
  {
    if s.saved.Some? then s else ConsoleState(Contextual, Some(s.consoleLog))
  }

  /** A bound request id counts only when it is present and not the empty string. */
  predicate Truthy(requestId: Option<string>) {
    requestId.Some? && requestId.value != ""
  }

  /** The arguments after the wrapper's prefix step: the tag with the id in front, when
      one is bound, and otherwise the arguments as they came. */
  function Prefixed(args: seq<Arg>, requestId: Option<string>): (r: seq<Arg>)
    ensures |r| == |args| + (if Truthy(requestId) then 1 else 0)
    ensures r[|r| - |args|..] == args
    ensures Truthy(requestId) ==> r[0] == Str(RequestIdTag + requestId.value)
  {
    if Truthy(requestId) then [Str(RequestIdTag + requestId.value)] + args else args
  }

  /** The lines printed by one call of the global `console.log` with `args`, while
      `requestId` is bound to the calling context. The wrapper's `if (__log)` guard always
      holds in a coherent state, since the wrapper is only ever installed after saving. */
  function Emitted(s: ConsoleState, args: seq<Arg>, requestId: Option<string>): (lines: seq<Line>)
    requires Coherent(s)
    ensures |lines| == 1 && lines[0].sink == OriginalSink(s)
    ensures lines[0].args == if Installed(s) then Prefixed(args, requestId) else args
  {
    match s.consoleLog
    case Native(k) => [Line(k, args)]
    case Contextual => [Line(s.saved.value.sink, Prefixed(args, requestId))]
  }

  /** `setContextualConsole` called `n` times in a row. */
  function InstallTimes(s: ConsoleState, n: nat): (t: ConsoleState)
    requires Coherent(s)
    ensures Coherent(t)
  {
    if n == 0 then s else Install(InstallTimes(s, n - 1))
  }

  /** Installing any positive number of times is the same as installing once. */
  lemma {:induction false} InstallIdempotent(s: ConsoleState, n: nat)
    requires Coherent(s) && n >= 1
    ensures InstallTimes(s, n) == Install(s)
  {
    if n > 1 {
      InstallIdempotent(s, n - 1);
    }
  }

  /** However often the wrapper is installed, a log call prints one line, to the process's
      original output, carrying at most one request-id tag. */
  lemma {:induction false} NoDoublePrefix(sink: nat, n: nat, args: seq<Arg>, requestId: Option<string>)
    requires n >= 1
    ensures Emitted(InstallTimes(Startup(sink), n), args, requestId) == [Line(sink, Prefixed(args, requestId))]
  {
    InstallIdempotent(Startup(sink), n);
  }

  /** The global console: the patched-or-not `console.log`, the saved original, and what the
      native outputs have printed so far. */
  class Console {
    var consoleLog: Logger
    var saved: Option<Logger>
    var output: seq<Line>

    function State(): ConsoleState
      reads this
    {
      ConsoleState(consoleLog, saved)
    }

    ghost predicate Valid()
      reads this
    {
      Coherent(State())
    }

    constructor (sink: nat)
      ensures Valid() && State() == Startup(sink) && output == []
    {
      consoleLog := Native(sink);
      saved := None;
      output := [];
    }

    /** `setContextualConsole`. */
    method SetContextualConsole()
      requires Valid()
      modifies this
      ensures Valid() && State() == Install(old(State()))
      ensures output == old(output)
    {
      if saved.Some? {
        return;
      }
      saved := Some(consoleLog);
      consoleLog := Contextual;
    }

    /** A call of the global `console.log(...args)` while `requestId` is bound. */
    method Log(args: seq<Arg>, requestId: Option<string>)
      requires Valid()
      modifies this
      ensures State() == old(State())
      ensures output == old(output) + Emitted(old(State()), args, requestId)
    {
      match consoleLog
      case Native(k) =>
        output := output + [Line(k, args)];
      case Contextual =>
        var a := args;
        if requestId.Some? && requestId.value != "" {
          a := [Str(RequestIdTag + requestId.value)] + a;
        }
        if saved.Some? {
          output := output + [Line(saved.value.sink, a)];
        }
    }
  }
}
