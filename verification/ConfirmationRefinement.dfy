/** The confirmation loop and the interleaving model describe the same goroutine: the
    loop, left alone, is a run of the model; and in every run of the model, whatever
    other goroutines do in between, the steps of one goroutine are those of the loop. */
module ConfirmationRefinement {
  import opened Sequences
  import opened Pipeline
  import opened PipelineConservation
  import opened Publishing

  function VerdictOf(o: Outcome): Verdict
  {
    match o
    case Ack => Acked
    case Timeout => TimedOut
    case Cancel => Cancelled
    case _ => Nacked
  }

  /** The steps of goroutine i for one attempt. */
  function AttemptSteps(i: nat, o: Outcome): seq<Action>
  {
    [Acquire(i), Publish(i, o.PublishFailed?), GiveBack(i)]
    + if o.PublishFailed? then [] else [Confirm(i, VerdictOf(o))]
  }

  function Steps(i: nat, outcomes: seq<Outcome>): seq<Action>
  {
    if outcomes == [] then [] else AttemptSteps(i, outcomes[0]) + Steps(i, outcomes[1..])
  }

  /** Where goroutine i is after the attempts. */
  function TaskAfter(e: Entry, outcomes: seq<Outcome>): Task
  {
    if outcomes != [] && Final(outcomes[|outcomes| - 1]) then Releasing else Wanting(e)
  }

  function SendersAfter(e: Entry, outcomes: seq<Outcome>): seq<Sender>
  {
    if outcomes == [] || !Final(outcomes[|outcomes| - 1]) then []
    else [if outcomes[|outcomes| - 1].Ack? then Ready(e, true) else Counting(e)]
  }

  function AckedBy(e: Entry, outcomes: seq<Outcome>): seq<Entry>
  {
    if outcomes != [] && outcomes[|outcomes| - 1].Ack? then [e] else []
  }

  /** The state after the attempts: the goroutine's own slot, its one receipt
      goroutine, and the cache rotated by the attempts; nothing else moves. */
  function Attempted(s: State, i: nat, outcomes: seq<Outcome>): State
    requires i < |s.tasks| && s.tasks[i].Wanting?
  {
    s.(tasks := s.tasks[i := TaskAfter(s.tasks[i].entry, outcomes)],
       senders := s.senders + SendersAfter(s.tasks[i].entry, outcomes),
       pool := s.pool.(cache := Rotate(s.pool.cache, |outcomes|)),
       log := s.log.(acked := s.log.acked + AckedBy(s.tasks[i].entry, outcomes)))
  }

  lemma AcquirePart(c: Config, s: State, i: nat)
    requires i < |s.tasks| && s.tasks[i].Wanting? && s.pool.cache != []
    ensures Enabled(c, s, Acquire(i))
    ensures Do(c, s, Acquire(i)) == s.(
              tasks := s.tasks[i := Holding(s.tasks[i].entry, s.pool.cache[0])], pool := s.pool.(cache := s.pool.cache[1..]))
  {
  }

  lemma SendPart(c: Config, s: State, i: nat, erred: bool)
    requires i < |s.tasks| && s.tasks[i].Holding?
    ensures Enabled(c, s, Publish(i, erred))
    ensures Do(c, s, Publish(i, erred)) == s.(tasks := s.tasks[i := Giving(s.tasks[i].entry, s.tasks[i].channel, erred)])
  {
  }

  lemma GivePart(c: Config, s: State, i: nat)
    requires i < |s.tasks| && s.tasks[i].Giving? && |s.pool.cache| < c.cacheSize
    ensures Enabled(c, s, GiveBack(i))
    ensures Do(c, s, GiveBack(i)) == s.(
              tasks := s.tasks[i := if s.tasks[i].erred then Wanting(s.tasks[i].entry) else Waiting(s.tasks[i].entry)],
              pool := s.pool.(cache := s.pool.cache + [s.tasks[i].channel]))
  {
  }

  /** The borrow, publish, return part of an attempt. */
  lemma PublishPart(c: Config, s: State, i: nat, erred: bool)
    requires i < |s.tasks| && s.tasks[i].Wanting? && s.pool.cache != [] && |s.pool.cache| <= c.cacheSize
    ensures var steps := [Acquire(i), Publish(i, erred), GiveBack(i)];
      && Executable(c, s, steps)
      && Run(c, s, steps) == s.(
           tasks := s.tasks[i := if erred then s.tasks[i] else Waiting(s.tasks[i].entry)],
           pool := s.pool.(cache := s.pool.cache[1..] + [s.pool.cache[0]]))
  {
    hide Executable, Run, Enabled, Do;
    AcquirePart(c, s, i);
    var s1 := Do(c, s, Acquire(i));
    SendPart(c, s1, i, erred);
    var s2 := Do(c, s1, Publish(i, erred));
    GivePart(c, s2, i);
    RunOne(c, s, Acquire(i));
    RunOne(c, s1, Publish(i, erred));
    RunOne(c, s2, GiveBack(i));
    RunConcat(c, s1, [Publish(i, erred)], [GiveBack(i)]);
    RunConcat(c, s, [Acquire(i)], [Publish(i, erred)] + [GiveBack(i)]);
    assert [Acquire(i)] + ([Publish(i, erred)] + [GiveBack(i)]) == [Acquire(i), Publish(i, erred), GiveBack(i)];
  }

  /** The wait for the confirmation. */
  lemma ConfirmPart(c: Config, s: State, i: nat, o: Outcome)
    requires i < |s.tasks| && s.tasks[i].Waiting? && !o.PublishFailed?
    ensures Enabled(c, s, Confirm(i, VerdictOf(o)))
    ensures Do(c, s, Confirm(i, VerdictOf(o))) == s.(
              tasks := s.tasks[i := TaskAfter(s.tasks[i].entry, [o])],
              senders := s.senders + SendersAfter(s.tasks[i].entry, [o]),
              log := s.log.(acked := s.log.acked + AckedBy(s.tasks[i].entry, [o])))
  {
  }

  lemma OneAttempt(c: Config, s: State, i: nat, o: Outcome)
    requires i < |s.tasks| && s.tasks[i].Wanting? && s.pool.cache != [] && |s.pool.cache| <= c.cacheSize
    ensures Executable(c, s, AttemptSteps(i, o)) && Run(c, s, AttemptSteps(i, o)) == Attempted(s, i, [o])
  {
    PublishPart(c, s, i, o.PublishFailed?);
    hide Executable, Run, Enabled, Do;
    var steps := [Acquire(i), Publish(i, o.PublishFailed?), GiveBack(i)];
    var s' := Run(c, s, steps);
    assert Rotate(s.pool.cache, 1) == s.pool.cache[1..] + [s.pool.cache[0]] by { RotateNext(s.pool.cache, 0); }
    if o.PublishFailed? {
      assert AttemptSteps(i, o) == steps;
    } else {
      ConfirmPart(c, s', i, o);
      RunOne(c, s', Confirm(i, VerdictOf(o)));
      RunConcat(c, s, steps, [Confirm(i, VerdictOf(o))]);
    }
  }

  /** Attempts compose. */
  lemma AttemptedNext(s: State, i: nat, outcomes: seq<Outcome>)
    requires i < |s.tasks| && s.tasks[i].Wanting? && s.pool.cache != []
    requires |outcomes| > 1 && !Final(outcomes[0])
    ensures Attempted(Attempted(s, i, [outcomes[0]]), i, outcomes[1..]) == Attempted(s, i, outcomes)
  {
    RotateNext(s.pool.cache, 0);
  }

  /** The loop's attempts, on outcomes none of which but the last is final, are an
      executable run with exactly the effect PublishWithConfirmation promises. */
  lemma {:induction false} LoopIsARun(c: Config, s: State, i: nat, outcomes: seq<Outcome>)
    requires i < |s.tasks| && s.tasks[i].Wanting? && s.pool.cache != [] && |s.pool.cache| <= c.cacheSize
    requires Attempts(outcomes) == |outcomes|
    ensures Executable(c, s, Steps(i, outcomes)) && Run(c, s, Steps(i, outcomes)) == Attempted(s, i, outcomes)
    decreases |outcomes|
  {
    if outcomes == [] {
      assert Attempted(s, i, []) == s;
    } else if |outcomes| == 1 {
      OneAttempt(c, s, i, outcomes[0]);
      assert outcomes == [outcomes[0]];
      assert Steps(i, outcomes) == AttemptSteps(i, outcomes[0]);
    } else {
      LoopOn(c, s, i, outcomes);
    }
  }

  lemma {:induction false} LoopOn(c: Config, s: State, i: nat, outcomes: seq<Outcome>)
    requires i < |s.tasks| && s.tasks[i].Wanting? && s.pool.cache != [] && |s.pool.cache| <= c.cacheSize
    requires Attempts(outcomes) == |outcomes| > 1
    ensures Executable(c, s, Steps(i, outcomes)) && Run(c, s, Steps(i, outcomes)) == Attempted(s, i, outcomes)
    decreases |outcomes|, 0
  {
    OneAttempt(c, s, i, outcomes[0]);
    AttemptedNext(s, i, outcomes);
    hide Executable, Run, Enabled, Do;
    var s' := Attempted(s, i, [outcomes[0]]);
    LoopIsARun(c, s', i, outcomes[1..]);
    RunConcat(c, s, AttemptSteps(i, outcomes[0]), Steps(i, outcomes[1..]));
  }

  // ---------- The other direction: every run, projected on one goroutine ----------

  predicate Own(a: Action, i: nat) { OfTask(a) && a.task == i }

  /** The steps of goroutine i in a run. */
  function OwnSteps(run: seq<Action>, i: nat): seq<Action>
  {
    if run == [] then [] else (if Own(run[0], i) then [run[0]] else []) + OwnSteps(run[1..], i)
  }

  /** The receipt goroutines that goroutine i starts in a run. */
  function Emitted(c: Config, s: State, run: seq<Action>, i: nat): seq<Sender>
    requires Executable(c, s, run)
    decreases |run|
  {
    if run == [] then []
    else
      var s' := Do(c, s, run[0]);
      (if Own(run[0], i) && |s.senders| <= |s'.senders| then s'.senders[|s.senders|..] else []) + Emitted(c, s', run[1..], i)
  }

  predicate Finished(outcomes: seq<Outcome>) { outcomes != [] && Final(outcomes[|outcomes| - 1]) }

  /** A finished goroutine gives its permit back; any other is at some point of its
      next attempt. */
  ghost predicate Within(i: nat, e: Entry, outcomes: seq<Outcome>, rest: seq<Action>, t: Task)
  {
    if Finished(outcomes) then (rest == [] && t.Releasing?) || (rest == [Release(i)] && t.Ended?)
    else
      match t
      case Wanting(x) => x == e && rest == []
      case Holding(x, _) => x == e && rest == [Acquire(i)]
      case Giving(x, _, erred) => x == e && rest == [Acquire(i), Publish(i, erred)]
      case Waiting(x) => x == e && rest == [Acquire(i), Publish(i, false), GiveBack(i)]
      case _ => false
  }

  /** Goroutine i has made these attempts, started these receipts, and has done `rest`
      since. */
  ghost predicate Done(i: nat, e: Entry, outcomes: seq<Outcome>, rest: seq<Action>, t: Task, steps: seq<Action>, emitted: seq<Sender>)
  {
    && Attempts(outcomes) == |outcomes| && Within(i, e, outcomes, rest, t)
    && steps == Steps(i, outcomes) + rest && emitted == SendersAfter(e, outcomes)
  }

  lemma {:induction false} StepsNext(i: nat, outcomes: seq<Outcome>, o: Outcome)
    ensures Steps(i, outcomes + [o]) == Steps(i, outcomes) + AttemptSteps(i, o)
  {
    if outcomes == [] {
      assert outcomes + [o] == [o];
    } else {
      StepsNext(i, outcomes[1..], o);
      assert (outcomes + [o])[1..] == outcomes[1..] + [o];
    }
  }

  lemma {:induction false} AttemptsNext(outcomes: seq<Outcome>, o: Outcome)
    requires Attempts(outcomes) == |outcomes| && !Finished(outcomes)
    ensures Attempts(outcomes + [o]) == |outcomes| + 1
  {
    assert forall j :: 0 <= j < |outcomes| ==> !Final(outcomes[j]);
    hide Attempts;
    MoreAttempts(outcomes + [o], |outcomes|);
  }

  function OutcomeOf(v: Verdict): Outcome
  {
    match v case Acked => Ack case Nacked => Nack case TimedOut => Timeout case Cancelled => Cancel
  }

  /** The end of an attempt. */
  lemma AttemptEnds(i: nat, e: Entry, outcomes: seq<Outcome>, o: Outcome, steps: seq<Action>)
    requires Attempts(outcomes) == |outcomes| && !Finished(outcomes)
    requires steps == Steps(i, outcomes) + AttemptSteps(i, o)
    ensures Done(i, e, outcomes + [o], [], TaskAfter(e, [o]), steps, SendersAfter(e, [o]))
  {
    StepsNext(i, outcomes, o);
    AttemptsNext(outcomes, o);
  }

  /** One step of the goroutine. */
  lemma OwnStep(c: Config, s: State, a: Action, e: Entry, outcomes: seq<Outcome>, rest: seq<Action>,
                steps: seq<Action>, emitted: seq<Sender>)
    returns (outcomes': seq<Outcome>, rest': seq<Action>)
    requires TaskEnabled(c, s, a) && Done(a.task, e, outcomes, rest, s.tasks[a.task], steps, emitted)
    ensures |s.senders| <= |TaskStep(c, s, a).senders|
    ensures Done(a.task, e, outcomes', rest', NextTask(c, s, a), steps + [a],
                 emitted + TaskStep(c, s, a).senders[|s.senders|..])
  {
    hide Steps, Attempts;
    var i := a.task;
    outcomes', rest' := outcomes, rest + [a];
    if a.GiveBack? && s.tasks[i].erred {
      outcomes', rest' := outcomes + [PublishFailed], [];
      AttemptEnds(i, e, outcomes, PublishFailed, steps + [a]);
    } else if a.Confirm? {
      var o := OutcomeOf(a.verdict);
      outcomes', rest' := outcomes + [o], [];
      AttemptEnds(i, e, outcomes, o, steps + [a]);
    }
  }

  lemma DispatcherGrows(c: Config, s: State, a: Action)
    requires DispatcherEnabled(c, s, a)
    ensures s.tasks <= DispatcherStep(c, s, a).tasks
  {
    hide Sum;
  }

  /** Nobody else moves the goroutine. */
  lemma OthersLeaveIt(c: Config, s: State, a: Action, i: nat)
    requires Enabled(c, s, a) && i < |s.tasks| && !Own(a, i)
    ensures i < |Do(c, s, a).tasks| && Do(c, s, a).tasks[i] == s.tasks[i]
  {
    hide Enabled, Do, DispatcherEnabled, DispatcherStep, TaskEnabled, TaskStep, NextTask;
    if OfDispatcher(a) {
      DispatcherDoes(c, s, a);
      DispatcherGrows(c, s, a);
    } else if OfTask(a) {
      TaskDoes(c, s, a);
    } else {
      Frame(c, s, a);
    }
  }

  lemma TaskDoes(c: Config, s: State, a: Action)
    requires Enabled(c, s, a) && OfTask(a)
    ensures TaskEnabled(c, s, a) && Do(c, s, a) == TaskStep(c, s, a) && a.task < |s.tasks|
    ensures TaskStep(c, s, a).tasks == s.tasks[a.task := NextTask(c, s, a)]
  {
    hide Sum, NextTask;
  }

  lemma {:induction false} FollowsFrom(c: Config, s: State, i: nat, run: seq<Action>, e: Entry, outcomes: seq<Outcome>,
                                       rest: seq<Action>, steps: seq<Action>, emitted: seq<Sender>)
    returns (outcomes': seq<Outcome>, rest': seq<Action>)
    requires Executable(c, s, run) && i < |s.tasks| && Done(i, e, outcomes, rest, s.tasks[i], steps, emitted)
    ensures i < |Run(c, s, run).tasks|
    ensures Done(i, e, outcomes', rest', Run(c, s, run).tasks[i], steps + OwnSteps(run, i), emitted + Emitted(c, s, run, i))
    decreases |run|
  {
    hide Enabled, Do, Done, TaskEnabled, TaskStep, NextTask, OfTask;
    if run == [] {
      outcomes', rest' := outcomes, rest;
      assert steps + [] == steps && emitted + [] == emitted;
    } else {
      var a := run[0];
      var s' := Do(c, s, a);
      if Own(a, i) {
        TaskDoes(c, s, a);
        var o, r := OwnStep(c, s, a, e, outcomes, rest, steps, emitted);
        var more := s'.senders[|s.senders|..];
        outcomes', rest' := FollowsFrom(c, s', i, run[1..], e, o, r, steps + [a], emitted + more);
        assert steps + [a] + OwnSteps(run[1..], i) == steps + OwnSteps(run, i);
        assert emitted + more + Emitted(c, s', run[1..], i) == emitted + Emitted(c, s, run, i);
      } else {
        OthersLeaveIt(c, s, a, i);
        outcomes', rest' := FollowsFrom(c, s', i, run[1..], e, outcomes, rest, steps, emitted);
        assert OwnSteps(run, i) == OwnSteps(run[1..], i);
        assert Emitted(c, s, run, i) == Emitted(c, s', run[1..], i);
      }
    }
  }

  /** In every run, however many other goroutines, producers and consumers take steps
      in between, the steps of a publish goroutine are those of the confirmation loop
      on some outcomes, none of which but the last is final, followed by the beginning
      of another attempt; and it starts exactly one receipt, successful exactly on an
      ack, if the last outcome is final, and none otherwise. */
  lemma EveryRunFollowsTheLoop(c: Config, s: State, i: nat, run: seq<Action>)
    returns (outcomes: seq<Outcome>, rest: seq<Action>)
    requires Executable(c, s, run) && i < |s.tasks| && s.tasks[i].Wanting?
    ensures i < |Run(c, s, run).tasks| && Attempts(outcomes) == |outcomes|
    ensures Within(i, s.tasks[i].entry, outcomes, rest, Run(c, s, run).tasks[i])
    ensures OwnSteps(run, i) == Steps(i, outcomes) + rest
    ensures Emitted(c, s, run, i) == SendersAfter(s.tasks[i].entry, outcomes)
  {
    hide Executable, Run;
    outcomes, rest := FollowsFrom(c, s, i, run, s.tasks[i].entry, [], [], [], []);
    assert [] + OwnSteps(run, i) == OwnSteps(run, i) && [] + Emitted(c, s, run, i) == Emitted(c, s, run, i);
  }
}
