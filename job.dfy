// The engine's job (hyper/engine/job.go): a named command with arguments
// that runs its handler at most once, refuses to run on a shut-down engine,
// closes its streams when asked to, and can be cancelled once.
//
// The job's environment is not part of this model except for its
// "overrideShutdown" flag; the handler is an oracle from the job's name and
// arguments to its error; the clock is the `now` parameter of Run. The
// engine's task WaitGroup and the "+job"/"-job" log lines are left out.

module Engine {
  import opened Common

  /** What a handler does with a job: its error, if any. */
  type Handler = (string, seq<string>) -> Option<string>

  /** The part of the engine a job consults: whether it has been shut down. */
  class Eng {
    var shutdown: bool

    constructor ()
      ensures !shutdown
    {
      shutdown := false;
    }

    /** Shutdown: from now on jobs without the override are refused. */
    method Shutdown()
      modifies this
      ensures shutdown
    {
      shutdown := true;
    }
  }

  /** CallString: the job's name with its arguments, comma-separated, in parentheses. */
  function CallString(name: string, args: seq<string>): (s: string)
    ensures |args| == 0 ==> s == name + "()"
    ensures |args| == 1 ==> s == name + "(" + args[0] + ")"
  {
    name + "(" + JoinWith(args, ", ") + ")"
  }

  /** The total length of the arguments. */
  function ArgsLength(args: seq<string>): nat
  {
    if args == [] then 0 else |args[0]| + ArgsLength(args[1..])
  }

  /** Joining puts exactly one ", " between neighbouring arguments. */
  lemma {:induction false} JoinWithLength(args: seq<string>)
    ensures |JoinWith(args, ", ")| == ArgsLength(args) + (if |args| == 0 then 0 else 2 * (|args| - 1))
  {
    if |args| > 1 {
      JoinWithLength(args[1..]);
    }
  }

  /** Where the i-th argument starts in the joined arguments: after the arguments before it and their separators. */
  function ArgOffset(args: seq<string>, i: nat): nat
    requires i <= |args|
  {
    ArgsLength(args[..i]) + 2 * i
  }

  /** A slice of the middle part of a concatenation is that slice of the middle part. */
  lemma SliceOfMiddle(a: string, j: string, b: string, lo: nat, hi: nat)
    requires lo <= hi <= |j|
    ensures (a + j + b)[|a| + lo..|a| + hi] == j[lo..hi]
  {
    assert forall t :: lo <= t < hi ==> (a + j + b)[|a| + t] == j[t];
  }

  /** In the joined arguments, each argument stands at its offset, followed by ", " unless it is the last. */
  lemma {:induction false} JoinWithPieces(args: seq<string>, i: nat)
    requires i < |args|
    ensures var j, o := JoinWith(args, ", "), ArgOffset(args, i);
      && o + |args[i]| <= |j| && j[o..o + |args[i]|] == args[i]
      && (i < |args| - 1 ==> o + |args[i]| + 2 <= |j| && j[o + |args[i]|..o + |args[i]| + 2] == ", ")
    decreases i
  {
    var j := JoinWith(args, ", ");
    assert args[..0] == [];
    if |args| == 1 {
      assert j == args[0];
    } else {
      var rest := JoinWith(args[1..], ", ");
      var head := args[0] + ", ";
      assert j == head + rest + [];
      if i == 0 {
        assert j == [] + args[0] + (", " + rest);
        SliceOfMiddle([], args[0], ", " + rest, 0, |args[0]|);
        assert j == args[0] + ", " + rest;
        SliceOfMiddle(args[0], ", ", rest, 0, 2);
      } else {
        JoinWithPieces(args[1..], i - 1);
        assert args[..i][1..] == args[1..][..i - 1];
        var o := ArgOffset(args[1..], i - 1);
        assert ArgOffset(args, i) == |head| + o;
        SliceOfMiddle(head, rest, [], o, o + |args[i]|);
        if i < |args| - 1 {
          SliceOfMiddle(head, rest, [], o + |args[i]|, o + |args[i]| + 2);
        }
      }
    }
  }

  /** The i-th argument of the call string stands at its offset past the name and "(", followed by ", " unless it is the last. */
  lemma CallStringPiece(name: string, args: seq<string>, i: nat)
    requires i < |args|
    ensures var s, o := CallString(name, args), |name| + 1 + ArgOffset(args, i);
      && o + |args[i]| <= |s| && s[o..o + |args[i]|] == args[i]
      && (i < |args| - 1 ==> o + |args[i]| + 2 <= |s| && s[o + |args[i]|..o + |args[i]| + 2] == ", ")
  {
    var j := JoinWith(args, ", ");
    var o := ArgOffset(args, i);
    JoinWithPieces(args, i);
    assert CallString(name, args) == (name + "(") + j + ")";
    SliceOfMiddle(name + "(", j, ")", o, o + |args[i]|);
    if i < |args| - 1 {
      SliceOfMiddle(name + "(", j, ")", o + |args[i]|, o + |args[i]| + 2);
    }
  }

  /**
   * The call string is the name and "(", then each argument at its offset
   * followed by ", " unless it is the last, then ")": with the length
   * below, nothing else is in it.
   */
  lemma CallStringShape(name: string, args: seq<string>)
    ensures IsPrefix(name + "(", CallString(name, args))
    ensures CallString(name, args)[|CallString(name, args)| - 1] == ')'
    ensures |CallString(name, args)| == |name| + 2 + ArgsLength(args) + (if |args| == 0 then 0 else 2 * (|args| - 1))
    ensures forall i :: 0 <= i < |args| ==>
      var s, o := CallString(name, args), |name| + 1 + ArgOffset(args, i);
      && o + |args[i]| <= |s| && s[o..o + |args[i]|] == args[i]
      && (i < |args| - 1 ==> o + |args[i]| + 2 <= |s| && s[o + |args[i]|..o + |args[i]| + 2] == ", ")
  {
    JoinWithLength(args);
    var s := CallString(name, args);
    assert s[..|name| + 1] == name + "(";
    forall i | 0 <= i < |args| {
      CallStringPiece(name, args, i);
    }
  }

  /** The error Run answers with, given the engine's and the job's state. */
  function RunError(shutdown: bool, overrideShutdown: bool, ended: bool, name: string, args: seq<string>,
                    handler: Option<Handler>): (err: Option<string>)
    ensures shutdown && !overrideShutdown ==> err == Some("engine is shutdown")
    ensures !(shutdown && !overrideShutdown) && ended ==> err == Some(name + ": job has already completed")
    ensures !(shutdown && !overrideShutdown) && !ended && handler.None? ==> err == Some(name + ": command not found")
    ensures !(shutdown && !overrideShutdown) && !ended && handler.Some? ==> err == handler.value(name, args)
  {
    if shutdown && !overrideShutdown then Some("engine is shutdown")
    else if ended then Some(name + ": job has already completed")
    else if handler.None? then Some(name + ": command not found")
    else handler.value(name, args)
  }

  /** Whether Run reaches the handler, and so completes the job. */
  predicate RunsHandler(shutdown: bool, overrideShutdown: bool, ended: bool, handler: Option<Handler>)
  {
    !(shutdown && !overrideShutdown) && !ended && handler.Some?
  }

  /**
   * A job runs its handler at most once: after a run that reached the
   * handler, every further run is refused, whatever the handler answered.
   */
  lemma SecondRunRefused(shutdown: bool, shutdown': bool, overrideShutdown: bool, name: string, args: seq<string>,
                         handler: Option<Handler>)
    requires RunsHandler(shutdown, overrideShutdown, false, handler)
    ensures !RunsHandler(shutdown', overrideShutdown, true, handler)
    ensures RunError(shutdown', overrideShutdown, true, name, args, handler).Some?
    ensures !shutdown' ==> RunError(shutdown', overrideShutdown, true, name, args, handler) == Some(name + ": job has already completed")
  {
  }

  class Job {
    const eng: Eng
    const name: string
    const args: seq<string>
    /** The job's "overrideShutdown" environment flag. */
    const overrideShutdown: bool
    const handler: Option<Handler>
    /** The time the handler returned; None while the job has not completed. */
    var end: Option<nat>
    var closeIO: bool
    var stdoutClosed: bool
    var stderrClosed: bool
    var stdinClosed: bool
    /** Whether the cancelled channel has been closed. */
    var cancelled: bool

    constructor (eng: Eng, name: string, args: seq<string>, overrideShutdown: bool, handler: Option<Handler>)
      ensures this.eng == eng && this.name == name && this.args == args
      ensures this.overrideShutdown == overrideShutdown && this.handler == handler
      ensures end.None? && !closeIO && !cancelled
      ensures !stdoutClosed && !stderrClosed && !stdinClosed
    {
      this.eng := eng;
      this.name := name;
      this.args := args;
      this.overrideShutdown := overrideShutdown;
      this.handler := handler;
      end := None;
      closeIO := false;
      stdoutClosed, stderrClosed, stdinClosed := false, false, false;
      cancelled := false;
    }

    function Call(): string
      reads this
    {
      CallString(name, args)
    }

    /**
     * Run: refused on a shut-down engine (unless overridden), refused once
     * the job has completed, refused without a handler; otherwise the
     * handler's error, with the job marked completed at `now`. With closeIO
     * set the three streams are closed on every path.
     */
    method Run(now: nat) returns (err: Option<string>)
      modifies this
      ensures err == RunError(eng.shutdown, overrideShutdown, old(end).Some?, name, args, handler)
      ensures end == if RunsHandler(eng.shutdown, overrideShutdown, old(end).Some?, handler) then Some(now) else old(end)
      ensures stdoutClosed == (old(stdoutClosed) || closeIO)
      ensures stderrClosed == (old(stderrClosed) || closeIO)
      ensures stdinClosed == (old(stdinClosed) || closeIO)
      ensures closeIO == old(closeIO) && cancelled == old(cancelled)
    {
      if eng.shutdown && !overrideShutdown {
        err := Some("engine is shutdown");
      } else if end.Some? {
        err := Some(name + ": job has already completed");
      } else if handler.None? {
        err := Some(name + ": command not found");
      } else {
        err := handler.value(name, args);
        end := Some(now);
      }
      CloseStreams();
    }

    /** Run's deferred clean-up: with closeIO set, stdout, stderr and stdin are closed. */
    method CloseStreams()
      modifies this
      ensures stdoutClosed == (old(stdoutClosed) || closeIO)
      ensures stderrClosed == (old(stderrClosed) || closeIO)
      ensures stdinClosed == (old(stdinClosed) || closeIO)
      ensures end == old(end) && closeIO == old(closeIO) && cancelled == old(cancelled)
    {
      if closeIO {
        stdoutClosed := true;
        stderrClosed := true;
        stdinClosed := true;
      }
    }

    method SetCloseIO(val: bool)
      modifies this
      ensures closeIO == val
      ensures end == old(end) && cancelled == old(cancelled)
      ensures stdoutClosed == old(stdoutClosed) && stderrClosed == old(stderrClosed) && stdinClosed == old(stdinClosed)
    {
      closeIO := val;
    }

    /** Cancel: the channel is closed the first time and left closed after that. */
    method Cancel()
      modifies this
      ensures cancelled
      ensures end == old(end) && closeIO == old(closeIO)
      ensures stdoutClosed == old(stdoutClosed) && stderrClosed == old(stderrClosed) && stdinClosed == old(stdinClosed)
    {
      if !cancelled {
        cancelled := true;
      }
    }

    /** WaitCancelled never blocks once the job has been cancelled. */
    predicate WaitCancelledReady()
      reads this
    {
      cancelled
    }
  }
}
