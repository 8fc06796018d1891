// The QMP session executor of the lazy QEMU driver (qmpHandler). Its source
// is not part of this model; the behaviour below is the one that
// runv-lazy/hypervisor/qemu/qmp_test.go pins down:
//   - sessions run one at a time, first queued first run;
//   - each step is sent, then its reply awaited;
//   - an error reply resends the same step;
//   - the third consecutive error ends the session as failed;
//   - asynchronous monitor events are forwarded to the hub as they come.
// The socket is abstracted as the sequence of commands written (`wire`)
// and the sequence of replies read.

module QmpExecutor {
  import opened Common
  import opened Hypervisor
  import opened QmpWrapper

  /** Consecutive errors on one step after which the session fails. */
  const MaxStepErrors: nat := 3

  /** A monitor message once decoded: a command result, an error, or an asynchronous event. */
  datatype Reply = ReplyResult | ReplyError(desc: string) | ReplyEvent(name: string)

  /** A raw monitor message: its top-level member names, with the error text and the event name. */
  datatype RawMessage = RawMessage(members: set<string>, desc: string, event: string)

  /**
   * QmpResponse decoding: `error`, then `event`, then `return`; anything
   * else is not a reply. qmp_test.go only decodes messages carrying one of
   * `error` and `event`; that `error` wins when a message carries both is
   * this model's choice, since the decoder's own source is not part of it.
   */
  function Decode(m: RawMessage): (r: Option<Reply>)
    ensures r.None? <==> ("error" !in m.members && "event" !in m.members && "return" !in m.members)
    ensures r == Some(ReplyResult) <==> ("return" in m.members && "error" !in m.members && "event" !in m.members)
    ensures "error" in m.members ==> r == Some(ReplyError(m.desc))
    ensures ("event" in m.members && "error" !in m.members) ==> r == Some(ReplyEvent(m.event))
  {
    if "error" in m.members then Some(ReplyError(m.desc))
    else if "event" in m.members then Some(ReplyEvent(m.event))
    else if "return" in m.members then Some(ReplyResult)
    else None
  }

  /** The hub event an asynchronous monitor event becomes: SHUTDOWN is the VM's exit. */
  function AsyncEvent(name: string): (e: VmEvent)
    ensures e == VmExit <==> name == "SHUTDOWN"
  {
    if name == "SHUTDOWN" then VmExit else QmpEvent(name)
  }

  /**
   * The executor: every session ever queued, how many are finished, the
   * step of the session in flight and its consecutive errors, what was
   * written to the monitor, and what was posted to the hub.
   */
  datatype ExecState = ExecState(
    sessions: seq<QmpSession>,
    done: nat,
    step: nat,
    failures: nat,
    wire: seq<QmpCommand>,
    hub: seq<VmEvent>)

  predicate InFlight(st: ExecState) { st.done < |st.sessions| }

  /** Every session has a command, and the last command written is the step in flight. */
  predicate Valid(st: ExecState)
  {
    && st.done <= |st.sessions|
    && (forall i :: 0 <= i < |st.sessions| ==> |st.sessions[i].commands| >= 1)
    && st.failures < MaxStepErrors
    && (InFlight(st) ==>
          st.step < |st.sessions[st.done].commands|
          && |st.wire| >= 1
          && st.wire[|st.wire| - 1] == st.sessions[st.done].commands[st.step])
    && (!InFlight(st) ==> st.step == 0 && st.failures == 0)
  }

  function Initial(): (st: ExecState)
    ensures Valid(st) && !InFlight(st)
  {
    ExecState([], 0, 0, 0, [], [])
  }

  /** Queueing a session: if nothing is in flight its first command is written at once. */
  function Submit(st: ExecState, s: QmpSession): (r: ExecState)
    requires Valid(st) && |s.commands| >= 1
    ensures Valid(r) && InFlight(r)
    ensures r.sessions == st.sessions + [s] && r.done == st.done && r.hub == st.hub
    ensures InFlight(st) ==> r.wire == st.wire && r.step == st.step && r.failures == st.failures
    ensures !InFlight(st) ==> r.wire == st.wire + [s.commands[0]]
  {
    if InFlight(st) then st.(sessions := st.sessions + [s])
    else st.(sessions := st.sessions + [s], wire := st.wire + [s.commands[0]])
  }

  /** The session in flight ends: its response is posted and the next queued session starts. */
  function Finish(st: ExecState, succeeded: bool): (r: ExecState)
    requires Valid(st) && InFlight(st)
    ensures Valid(r)
    ensures r.sessions == st.sessions && r.done == st.done + 1
    ensures r.hub == st.hub + Respond(st.sessions[st.done].callback, succeeded)
    ensures r.wire == st.wire + NextStart(st)
  {
    var d := st.done + 1;
    st.(done := d, step := 0, failures := 0,
        hub := st.hub + Respond(st.sessions[st.done].callback, succeeded),
        wire := st.wire + NextStart(st))
  }

  /** The first command of the session queued behind the one in flight, if any. */
  function NextStart(st: ExecState): seq<QmpCommand>
    requires Valid(st) && InFlight(st)
  {
    if st.done + 1 < |st.sessions| then [st.sessions[st.done + 1].commands[0]] else []
  }

  /** One reply read from the monitor. A reply with no session in flight changes nothing. */
  function Step(st: ExecState, r: Reply): (s: ExecState)
    requires Valid(st)
    ensures Valid(s)
    ensures s.sessions == st.sessions
  {
    match r
    case ReplyEvent(name) => st.(hub := st.hub + [AsyncEvent(name)])
    case ReplyResult =>
      if !InFlight(st) then st
      else
        var cmds := st.sessions[st.done].commands;
        if st.step + 1 < |cmds| then
          st.(step := st.step + 1, failures := 0, wire := st.wire + [cmds[st.step + 1]])
        else Finish(st, true)
    case ReplyError(_) =>
      if !InFlight(st) then st
      else if st.failures + 1 < MaxStepErrors then
        st.(failures := st.failures + 1, wire := st.wire + [st.sessions[st.done].commands[st.step]])
      else Finish(st, false)
  }

  /** Replies read in order. */
  function Run(st: ExecState, rs: seq<Reply>): (s: ExecState)
    requires Valid(st)
    ensures Valid(s) && s.sessions == st.sessions
    decreases |rs|
  {
    if rs == [] then st else Run(Step(st, rs[0]), rs[1..])
  }

  function Results(n: nat): (rs: seq<Reply>)
    ensures |rs| == n && forall i :: 0 <= i < n ==> rs[i] == ReplyResult
  {
    if n == 0 then [] else [ReplyResult] + Results(n - 1)
  }

  lemma RunCons(st: ExecState, r: Reply, rs: seq<Reply>)
    requires Valid(st)
    ensures Run(st, [r] + rs) == Run(Step(st, r), rs)
  {
    assert ([r] + rs)[0] == r;
    assert ([r] + rs)[1..] == rs;
  }

  lemma {:induction false} RunAppend(st: ExecState, a: seq<Reply>, b: seq<Reply>)
    requires Valid(st)
    ensures Run(st, a + b) == Run(Run(st, a), b)
    decreases |a|
  {
    if a == [] {
      assert a + b == b;
    } else {
      assert a + b == [a[0]] + (a[1..] + b);
      assert a == [a[0]] + a[1..];
      RunCons(st, a[0], a[1..] + b);
      RunCons(st, a[0], a[1..]);
      RunAppend(Step(st, a[0]), a[1..], b);
    }
  }

  // -----------------------------------------------------------------------
  // Properties pinned by the tests
  // -----------------------------------------------------------------------

  /** An error below the limit resends the very command that failed and posts nothing. */
  lemma ErrorResendsStep(st: ExecState, desc: string)
    requires Valid(st) && InFlight(st) && st.failures + 1 < MaxStepErrors
    ensures var s := Step(st, ReplyError(desc));
            && s.wire == st.wire + [st.wire[|st.wire| - 1]]
            && s.done == st.done && s.step == st.step && s.failures == st.failures + 1
            && s.hub == st.hub
  {
  }

  /** A result after an error carries on with the next step and forgets the error. */
  lemma ResultClearsErrors(st: ExecState)
    requires Valid(st) && InFlight(st) && st.step + 1 < |st.sessions[st.done].commands|
    ensures var s := Step(st, ReplyResult);
            s.failures == 0 && s.step == st.step + 1 && s.done == st.done && s.hub == st.hub
  {
  }

  /**
   * Three errors in a row on a fresh step fail the session: the step is sent
   * three times in all, DeviceFailed with the session's callback is posted,
   * no later step of that session is ever sent, and the next session starts.
   */
  lemma ThreeErrorsFail(st: ExecState, e1: string, e2: string, e3: string)
    requires Valid(st) && InFlight(st) && st.failures == 0
    ensures var s := Run(st, [ReplyError(e1), ReplyError(e2), ReplyError(e3)]);
            var c := st.wire[|st.wire| - 1];
            && s.hub == st.hub + [DeviceFailed(st.sessions[st.done].callback)]
            && s.done == st.done + 1
            && s.wire == st.wire + [c, c] + NextStart(st)
  {
    var c := st.wire[|st.wire| - 1];
    var s1 := Step(st, ReplyError(e1));
    ErrorResendsStep(st, e1);
    assert s1.wire == st.wire + [c];
    var s2 := Step(s1, ReplyError(e2));
    ErrorResendsStep(s1, e2);
    assert s2.wire == st.wire + [c, c];
    ErrorAtLimitFails(s2, e3);
    assert NextStart(s2) == NextStart(st);
    RunThree(st, ReplyError(e1), ReplyError(e2), ReplyError(e3));
  }

  /** Three replies are three steps. */
  lemma RunThree(st: ExecState, a: Reply, b: Reply, c: Reply)
    requires Valid(st)
    ensures Run(st, [a, b, c]) == Step(Step(Step(st, a), b), c)
  {
    var s1 := Step(st, a);
    var s2 := Step(s1, b);
    assert [a, b, c][1..] == [b, c];
    assert [b, c][1..] == [c];
    assert [c][1..] == [];
    calc {
      Run(st, [a, b, c]);
      Run(s1, [b, c]);
      Run(s2, [c]);
      Run(Step(s2, c), []);
    }
  }

  /** The error that reaches the limit fails the session in flight. */
  lemma ErrorAtLimitFails(st: ExecState, desc: string)
    requires Valid(st) && InFlight(st) && st.failures + 1 == MaxStepErrors
    ensures Step(st, ReplyError(desc)) == Finish(st, false)
  {
  }

  /** A result on a step that is not the session's last moves to the next step and posts nothing. */
  lemma ResultAdvances(st: ExecState)
    requires Valid(st) && InFlight(st) && st.step + 1 < |st.sessions[st.done].commands|
    ensures var s := Step(st, ReplyResult);
            && s.hub == st.hub && s.done == st.done && s.step == st.step + 1 && s.failures == 0
            && s.wire == st.wire + [st.sessions[st.done].commands[st.step + 1]]
            && NextStart(s) == NextStart(st)
  {
  }

  /** A result on the session's last step finishes it with its success response. */
  lemma ResultFinishes(st: ExecState)
    requires Valid(st) && InFlight(st) && st.step + 1 == |st.sessions[st.done].commands|
    ensures Step(st, ReplyResult) == Finish(st, true)
  {
  }

  /**
   * A session whose remaining steps all succeed: the last reply posts the
   * success response exactly once and the next queued session starts.
   */
  lemma {:induction false} ResultsComplete(st: ExecState)
    requires Valid(st) && InFlight(st)
    ensures var cmds := st.sessions[st.done].commands;
            var s := Run(st, Results(|cmds| - st.step));
            && s.hub == st.hub + Respond(st.sessions[st.done].callback, true)
            && s.done == st.done + 1 && s.step == 0 && s.failures == 0
            && s.wire == st.wire + cmds[st.step + 1..] + NextStart(st)
    decreases |st.sessions[st.done].commands| - st.step, 1
  {
    var cmds := st.sessions[st.done].commands;
    var k := |cmds| - st.step;
    ResultsHead(k);
    RunCons(st, ReplyResult, Results(k - 1));
    if st.step + 1 < |cmds| {
      ResultsCompleteAdvance(st);
    } else {
      ResultsCompleteLast(st);
    }
  }

  lemma ResultsHead(k: nat)
    requires k > 0
    ensures Results(k) == [ReplyResult] + Results(k - 1)
  {
  }

  /** The inductive step of ResultsComplete: a result on a step that is not the last. */
  lemma {:induction false} ResultsCompleteAdvance(st: ExecState)
    requires Valid(st) && InFlight(st) && st.step + 1 < |st.sessions[st.done].commands|
    ensures var cmds := st.sessions[st.done].commands;
            var s := Run(Step(st, ReplyResult), Results(|cmds| - st.step - 1));
            && s.hub == st.hub + Respond(st.sessions[st.done].callback, true)
            && s.done == st.done + 1 && s.step == 0 && s.failures == 0
            && s.wire == st.wire + cmds[st.step + 1..] + NextStart(st)
    decreases |st.sessions[st.done].commands| - st.step, 0
  {
    var cmds := st.sessions[st.done].commands;
    var s1 := Step(st, ReplyResult);
    ResultAdvances(st);
    ResultsComplete(s1);
    assert cmds[st.step + 1..] == [cmds[st.step + 1]] + cmds[st.step + 2..];
    assert (st.wire + [cmds[st.step + 1]]) + cmds[st.step + 2..] == st.wire + ([cmds[st.step + 1]] + cmds[st.step + 2..]);
  }

  /** The base case of ResultsComplete: a result on the last step. */
  lemma ResultsCompleteLast(st: ExecState)
    requires Valid(st) && InFlight(st) && st.step + 1 == |st.sessions[st.done].commands|
    ensures var cmds := st.sessions[st.done].commands;
            var s := Run(Step(st, ReplyResult), Results(0));
            && s.hub == st.hub + Respond(st.sessions[st.done].callback, true)
            && s.done == st.done + 1 && s.step == 0 && s.failures == 0
            && s.wire == st.wire + cmds[st.step + 1..] + NextStart(st)
  {
    var cmds := st.sessions[st.done].commands;
    ResultFinishes(st);
    assert cmds[st.step + 1..] == [];
  }

  /** No reply before the last step's result posts anything or finishes the session. */
  lemma {:induction false} ResultsQuiet(st: ExecState, n: nat)
    requires Valid(st) && InFlight(st) && n < |st.sessions[st.done].commands| - st.step
    ensures Run(st, Results(n)).hub == st.hub && Run(st, Results(n)).done == st.done
    decreases n
  {
    if n > 0 {
      assert Results(n) == [ReplyResult] + Results(n - 1);
      RunCons(st, ReplyResult, Results(n - 1));
      ResultAdvances(st);
      ResultsQuiet(Step(st, ReplyResult), n - 1);
    }
  }

  /**
   * One error and then results still complete the session with its
   * success event, the failed step having been written twice.
   */
  lemma ErrorThenResults(st: ExecState, desc: string)
    requires Valid(st) && InFlight(st) && st.failures + 1 < MaxStepErrors
    ensures var cmds := st.sessions[st.done].commands;
            var s := Run(st, [ReplyError(desc)] + Results(|cmds| - st.step));
            && s.hub == st.hub + Respond(st.sessions[st.done].callback, true)
            && s.done == st.done + 1
            && s.wire == st.wire + [st.wire[|st.wire| - 1]] + cmds[st.step + 1..] + NextStart(st)
  {
    var cmds := st.sessions[st.done].commands;
    var s1 := Step(st, ReplyError(desc));
    RunCons(st, ReplyError(desc), Results(|cmds| - st.step));
    ErrorResendsStep(st, desc);
    ResultsComplete(s1);
    assert NextStart(s1) == NextStart(st);
  }

  /**
   * Two sessions queued on an idle executor complete in queue order: the
   * monitor sees every command of the first before any of the second, and
   * the hub gets the first one's event before the second one's.
   */
  lemma FifoSessions(a: QmpSession, b: QmpSession)
    requires |a.commands| >= 1 && |b.commands| >= 1
    ensures var st := Submit(Submit(Initial(), a), b);
            var s := Run(st, Results(|a.commands| + |b.commands|));
            && s.hub == Respond(a.callback, true) + Respond(b.callback, true)
            && s.wire == a.commands + b.commands
            && s.done == 2
  {
    var st := Submit(Submit(Initial(), a), b);
    assert st == ExecState([a, b], 0, 0, 0, [a.commands[0]], []);
    ResultsAppend(|a.commands|, |b.commands|);
    RunAppend(st, Results(|a.commands|), Results(|b.commands|));
    var mid := FirstOfTwo(a, b, st);
    SecondOfTwo(a, b, mid);
  }

  /** The second session of FifoSessions runs to completion after the first. */
  lemma SecondOfTwo(a: QmpSession, b: QmpSession, mid: ExecState)
    requires |a.commands| >= 1 && |b.commands| >= 1
    requires Valid(mid) && mid.sessions == [a, b] && mid.done == 1 && mid.step == 0
    requires mid.hub == Respond(a.callback, true) && mid.wire == a.commands + [b.commands[0]]
    ensures var s := Run(mid, Results(|b.commands|));
            && s.hub == Respond(a.callback, true) + Respond(b.callback, true)
            && s.wire == a.commands + b.commands
            && s.done == 2
  {
    ResultsComplete(mid);
    assert NextStart(mid) == [];
    assert b.commands == [b.commands[0]] + b.commands[1..];
  }

  lemma {:induction false} ResultsAppend(m: nat, n: nat)
    ensures Results(m + n) == Results(m) + Results(n)
  {
    if m > 0 {
      ResultsAppend(m - 1, n);
    }
  }

  /** The state between the two sessions of FifoSessions: the first is done and the second has started. */
  lemma FirstOfTwo(a: QmpSession, b: QmpSession, st: ExecState) returns (mid: ExecState)
    requires |a.commands| >= 1 && |b.commands| >= 1
    requires st == ExecState([a, b], 0, 0, 0, [a.commands[0]], [])
    ensures Valid(st) && mid == Run(st, Results(|a.commands|))
    ensures mid.sessions == [a, b] && mid.done == 1 && mid.step == 0
    ensures mid.hub == Respond(a.callback, true) && mid.wire == a.commands + [b.commands[0]]
  {
    mid := Run(st, Results(|a.commands|));
    ResultsComplete(st);
    assert NextStart(st) == [b.commands[0]];
    assert a.commands == [a.commands[0]] + a.commands[1..];
  }
}
