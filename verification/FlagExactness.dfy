/** When a flag can be lost (connectionpool.go): exactly if it is set while some
    goroutine is already in a recovery pass on the same connection. */
module FlagExactness {
  import opened Sequences
  import opened Runs
  import opened FlagSafety

  function Next(s: State, a: Action): Option<State> { if Enabled(s, a) then Some(Do(s, a)) else None }

  // ---------- What can go wrong after a flag ----------

  /** The flag is cleared by a pass begun before it was set, or the connection is
      handed out before a pass begun afterwards is complete. */
  datatype Harm = StaleClear | DirtyHandOut

  predicate Does(h: Harm, s: State, a: Action, id: nat)
    requires Enabled(s, a)
  {
    match h
    case StaleClear => Stale(s, a) && s.callers[a.caller].id == id
    case DirtyHandOut =>
      a.PauseDone? && s.callers[a.caller].owned && s.callers[a.caller].id == id && Dirty(s.log, id)
  }

  /** The run is executable, does the harm with its last step, and does not flag the
      connection again. */
  predicate LeadsTo(h: Harm, s: State, run: seq<Action>, id: nat)
    decreases |run|
  {
    && run != [] && Enabled(s, run[0])
    && !(run[0].Flag? && s.callers[run[0].caller].id == id)
    && if |run| == 1 then Does(h, s, run[0], id) else LeadsTo(h, Do(s, run[0]), run[1..], id)
  }

  predicate NoFlags(run: seq<Action>) { forall i :: 0 <= i < |run| ==> !run[i].Flag? }

  /** A way without flags to a state from which a run leads to the harm. */
  lemma {:induction false} LeadsOn(h: Harm, s: State, xs: seq<Action>, m: State, ys: seq<Action>, id: nat)
    requires Reaches(Next, s, xs, m) && NoFlags(xs) && LeadsTo(h, m, ys, id)
    ensures LeadsTo(h, s, xs + ys, id)
    decreases |xs|
  {
    hide Enabled, Do, Does;
    if xs == [] {
      assert xs + ys == ys;
    } else {
      assert (xs + ys)[1..] == xs[1..] + ys;
      LeadsOn(h, Do(s, xs[0]), xs[1..], m, ys, id);
    }
  }

  /** A dirty hand-out is in the log. */
  lemma {:induction false} HandOutIsLogged(s: State, run: seq<Action>, id: nat)
    requires LeadsTo(DirtyHandOut, s, run, id)
    ensures Executable(s, run) && !SafeLog(Run(s, run).log)
    decreases |run|
  {
    if |run| == 1 {
      LogNext(s.log, HandedOut(id), id);
      assert run[1..] == [] && Run(Do(s, run[0]), []) == Do(s, run[0]);
    } else {
      hide Enabled, Do, Does, SafeLog;
      HandOutIsLogged(Do(s, run[0]), run[1..], id);
    }
  }

  // ---------- Nobody recovering: the flag is honoured ----------

  /** The connection is flagged while it is dirty; every pass in progress on it began
      after its last flag; nobody is about to hand it out dirty. */
  ghost predicate Honoured(s: State, id: nat)
  {
    && (Dirty(s.log, id) ==> IsFlagged(s, id))
    && (forall j :: 0 <= j < |s.callers| && Recovering(s.callers[j]) && s.callers[j].id == id ==>
          LastFlag(s.log, id) <= s.callers[j].since)
    && (forall j :: 0 <= j < |s.callers| && s.callers[j].Pausing? && s.callers[j].owned && s.callers[j].id == id ==>
          !Dirty(s.log, id))
  }

  lemma StepHonours(s: State, a: Action, id: nat)
    requires Honoured(s, id) && Enabled(s, a) && !(a.Flag? && s.callers[a.caller].id == id)
    ensures Honoured(Do(s, a), id)
  {
    hide LastFlag, LastPass, SafeLog;
    var s' := Do(s, a);
    if s'.log != s.log {
      LogNext(s.log, s'.log[|s.log|], id);
    }
  }

  lemma {:induction false} HonouredIsHarmless(h: Harm, s: State, run: seq<Action>, id: nat)
    requires Honoured(s, id)
    ensures !LeadsTo(h, s, run, id)
    decreases |run|
  {
    if LeadsTo(h, s, run, id) {
      StepHonours(s, run[0], id);
      HonouredIsHarmless(h, Do(s, run[0]), run[1..], id);
    }
  }

  lemma QuietFlagIsHonoured(s: State, i: nat)
    requires Owned(s) && Enabled(s, Flag(i)) && !RecoveredBySomeone(s, s.callers[i].id)
    ensures Honoured(Do(s, Flag(i)), s.callers[i].id)
  {
    hide Sum, LastFlag, LastPass, SafeLog;
    var id := s.callers[i].id;
    forall j | 0 <= j < |s.callers| && j != i && s.callers[j].Pausing? && s.callers[j].owned
      ensures s.callers[j].id != id
    {
      OneOwner(s, i, j);
    }
  }

  // ---------- Somebody recovering: the flag can be lost ----------

  /** Passes in progress began in the past, and so did completed ones. */
  ghost predicate Timely(s: State)
  {
    && (forall j :: 0 <= j < |s.callers| && Recovering(s.callers[j]) ==> s.callers[j].since <= |s.log|)
    && (forall id: nat :: LastPass(s.log, id) <= |s.log|)
  }

  lemma StepKeepsTimely(s: State, a: Action)
    requires Timely(s) && Enabled(s, a)
    ensures Timely(Do(s, a))
  {
    hide LastFlag, LastPass, SafeLog;
    var s' := Do(s, a);
    forall id: nat ensures LastPass(s'.log, id) <= |s'.log| {
      if s'.log != s.log {
        LogNext(s.log, s'.log[|s.log|], id);
      }
      assert LastPass(s.log, id) <= |s.log|;
    }
  }

  lemma {:induction false} RunKeepsTimely(s: State, run: seq<Action>)
    requires Timely(s) && Executable(s, run)
    ensures Timely(Run(s, run))
    decreases |run|
  {
    hide Timely;
    if run != [] {
      StepKeepsTimely(s, run[0]);
      RunKeepsTimely(Do(s, run[0]), run[1..]);
    }
  }

  /** Only goroutine i has moved, and it has not touched connection id. */
  ghost predicate Apart(s: State, t: State, i: nat, id: nat)
    requires i < |s.callers| && id < |s.open| && id < |s.errors|
  {
    && |t.open| == |s.open| && |t.errors| == |s.errors| && |t.callers| == |s.callers|
    && (forall j :: 0 <= j < |s.callers| && j != i ==> t.callers[j] == s.callers[j])
    && t.open[id] == s.open[id] && t.errors[id] == s.errors[id] && IsFlagged(t, id) == IsFlagged(s, id)
    && Dirty(t.log, id) == Dirty(s.log, id)
  }

  /** Where a goroutine stands on the way to putting its connection back. */
  function Distance(k: Caller): nat
  {
    match k
    case Taken(_, _) => 8
    case Polled(_, _, _) => 7
    case Connecting(_, _, _) => 6
    case Flushing(_, _, _) => 5
    case Unflagging(_, _, _) => 4
    case Pausing(_, _) => 3
    case Held(_) => 2
    case Putting(_) => 1
    case Idle => 0
  }

  /** The goroutine's next step on that way; its dials succeed. */
  function OwnStep(s: State, i: nat): Action
    requires i < |s.callers|
  {
    match s.callers[i]
    case Taken(_, _) => PollErrors(i)
    case Polled(_, _, _) => CheckHealth(i)
    case Connecting(_, _, _) => Connect(i, true)
    case Flushing(_, _, _) => Flush(i)
    case Unflagging(_, _, _) => Unflag(i)
    case Pausing(_, _) => PauseDone(i)
    case Held(_) => ReturnUnflagged(i)
    case Putting(_) => Put(i)
    case Idle => Get(i)
  }

  lemma OwnStepKeepsApart(s: State, i: nat, id: nat)
    requires i < |s.callers| && !s.callers[i].Idle? && Known(s, s.callers[i]) && s.callers[i].id != id
    requires id < |s.open| && id < |s.errors|
    ensures Enabled(s, OwnStep(s, i)) && Apart(s, Do(s, OwnStep(s, i)), i, id)
  {
    hide LastFlag, LastPass, SafeLog;
    var s' := Do(s, OwnStep(s, i));
    if s'.log != s.log {
      LogNext(s.log, s'.log[|s.log|], id);
    }
  }

  /** Whatever it has to do for it, a goroutine can put its own connection back
      without touching another one. */
  lemma {:induction false} PutsBack(s: State, i: nat, id: nat) returns (run: seq<Action>, t: State)
    requires i < |s.callers| && Owns(s.callers[i]) && Known(s, s.callers[i]) && s.callers[i].id != id
    requires id < |s.open| && id < |s.errors| && (s.callers[i].Flushing? ==> s.open[s.callers[i].id])
    ensures Reaches(Next, s, run, t) && NoFlags(run) && Apart(s, t, i, id)
    ensures t.callers[i].Idle? && t.queue == s.queue + [s.callers[i].id]
    decreases Distance(s.callers[i]), s.errors[s.callers[i].id]
  {
    OwnStepKeepsApart(s, i, id);
    var a := OwnStep(s, i);
    var m := Do(s, a);
    if s.callers[i].Putting? {
      run, t := [a], m;
      One(Next, s, a, m);
    } else {
      run, t := PutsBack(m, i, id);
      run := [a] + run;
    }
  }

  /** The connection looks healthy, although it is dirty. */
  ghost predicate Deceptive(s: State, id: nat)
  {
    && id < |s.open| && id < |s.errors|
    && s.open[id] && s.errors[id] == 0 && !IsFlagged(s, id) && Dirty(s.log, id)
  }

  /** An idle goroutine takes a connection that looks healthy and hands it out. */
  lemma HandsOutHead(s: State, i: nat, id: nat) returns (run: seq<Action>)
    requires i < |s.callers| && s.callers[i].Idle? && s.queue != [] && s.queue[0] == id && Deceptive(s, id)
    ensures LeadsTo(DirtyHandOut, s, run, id)
  {
    hide LastFlag, LastPass, SafeLog;
    run := [Get(i), PollErrors(i), CheckHealth(i), PauseDone(i)];
    var s1 := Do(s, Get(i));
    var s2 := Do(s1, PollErrors(i));
    var s3 := Do(s2, CheckHealth(i));
    assert run[1..] == [PollErrors(i), CheckHealth(i), PauseDone(i)];
    assert run[1..][1..] == [CheckHealth(i), PauseDone(i)] && run[1..][1..][1..] == [PauseDone(i)];
    assert s3.callers[i] == Pausing(id, true) && Enabled(s3, PauseDone(i));
    assert LeadsTo(DirtyHandOut, s3, [PauseDone(i)], id);
    assert LeadsTo(DirtyHandOut, s2, [CheckHealth(i), PauseDone(i)], id);
  }

  /** It serves and returns the connections in front first. */
  lemma {:induction false} HandsOut(s: State, i: nat, id: nat, p: nat) returns (run: seq<Action>)
    requires i < |s.callers| && s.callers[i].Idle? && p < |s.queue| && s.queue[p] == id && Deceptive(s, id)
    requires forall q :: 0 <= q < p ==> s.queue[q] != id && s.queue[q] < |s.open| && s.queue[q] < |s.errors|
    ensures LeadsTo(DirtyHandOut, s, run, id)
    decreases p
  {
    if p == 0 {
      run := HandsOutHead(s, i, id);
    } else {
      hide LastFlag, LastPass, SafeLog, Reaches, LeadsTo;
      var m := Do(s, Get(i));
      var xs, t := PutsBack(m, i, id);
      One(Next, s, Get(i), m);
      Chain(Next, s, [Get(i)], m, xs, t);
      run := HandsOut(t, i, id, p - 1);
      LeadsOn(DirtyHandOut, s, [Get(i)] + xs, t, run, id);
      run := [Get(i)] + xs + run;
    }
  }

  /** A goroutine's pass up to the clearing of the flag: nothing is logged, no flag
      and no other goroutine changes, and the notifications are read. It redials, or
      finds the connection open. */
  lemma {:induction false} GoesToUnflag(s: State, j: nat) returns (run: seq<Action>, t: State)
    requires j < |s.callers| && Known(s, s.callers[j]) && Recovering(s.callers[j])
    requires s.callers[j].Connecting? || s.open[s.callers[j].id]
    requires s.callers[j].Unflagging? ==> s.errors[s.callers[j].id] == 0
    ensures Reaches(Next, s, run, t) && NoFlags(run)
    ensures var k := s.callers[j];
      t == s.(callers := s.callers[j := Unflagging(k.id, k.owned, k.since)],
              open := s.open[k.id := true], errors := s.errors[k.id := 0])
    decreases Distance(s.callers[j]), s.errors[s.callers[j].id]
  {
    if s.callers[j].Unflagging? {
      run, t := [], s;
      assert s.callers[j := s.callers[j]] == s.callers;
    } else {
      var a := OwnStep(s, j);
      var m := Do(s, a);
      run, t := GoesToUnflag(m, j);
      run := [a] + run;
    }
  }

  /** The goroutine that returned the connection flagged puts it back and reconnects a
      channel on it: it redials if need be, and reads the notifications, but has yet
      to clear the flag. */
  lemma Reopens(s: State, i: nat) returns (run: seq<Action>, t: State)
    requires i < |s.callers| && s.callers[i].Putting? && Known(s, s.callers[i]) && IsFlagged(s, s.callers[i].id)
    ensures Reaches(Next, s, run, t) && NoFlags(run)
    ensures var id := s.callers[i].id;
      && |t.open| == |s.open| && |t.errors| == |s.errors| && |t.callers| == |s.callers|
      && t == s.(queue := s.queue + [id], callers := s.callers[i := t.callers[i]], open := t.open, errors := t.errors)
      && t.open[id] && t.errors[id] == 0
  {
    hide Reaches, LastFlag, LastPass, SafeLog;
    var id := s.callers[i].id;
    var s1 := Do(s, Put(i));
    var s2 := Do(s1, BeginReconnect(i, id));
    var s3 := Do(s2, PollErrors(i));
    var s4 := Do(s3, CheckHealth(i));
    run, t := GoesToUnflag(s4, i);
    First(Next, s3, CheckHealth(i), s4, run, t);
    First(Next, s2, PollErrors(i), s3, [CheckHealth(i)] + run, t);
    First(Next, s1, BeginReconnect(i, id), s2, [PollErrors(i)] + ([CheckHealth(i)] + run), t);
    First(Next, s, Put(i), s1, [BeginReconnect(i, id)] + ([PollErrors(i)] + ([CheckHealth(i)] + run)), t);
    run := [Put(i)] + ([BeginReconnect(i, id)] + ([PollErrors(i)] + ([CheckHealth(i)] + run)));
  }

  /** A pass in progress when the flag is set clears it, once the connection is open;
      the connection then looks healthy although it is dirty. */
  lemma ClearsFlag(s: State, i: nat, j: nat) returns (run: seq<Action>, t: State)
    requires Owned(s) && Timely(s) && Enabled(s, Flag(i))
    requires j < |s.callers| && Recovering(s.callers[j]) && s.callers[j].id == s.callers[i].id
    ensures var id := s.callers[i].id;
      && NoFlags(run) && Reaches(Next, Do(s, Flag(i)), run, t)
      && LeadsTo(StaleClear, Do(s, Flag(i)), run, id)
      && Deceptive(t, id) && t.queue == s.queue + [id]
      && j < |t.callers| && t.callers[j] == Pausing(id, false)
      && |t.open| == |s.open| && |t.errors| == |s.errors|
  {
    hide LastFlag, LastPass, SafeLog, Sum, Reaches, Copies;
    var id, since := s.callers[i].id, s.callers[j].since;
    if s.callers[j].owned {
      OneOwner(s, i, j);
    }
    var s1 := Do(s, Flag(i));
    LogNext(s.log, Flagged(id), id);
    assert LastPass(s.log, id) <= |s.log|;
    var xs, s2 := Reopens(s1, i);
    var ys, s3 := GoesToUnflag(s2, j);
    Chain(Next, s1, xs, s2, ys, s3);
    run, t := ClearsNow(s1, xs + ys, s3, j);
  }

  lemma ClearsNow(s: State, before: seq<Action>, m: State, j: nat) returns (run: seq<Action>, t: State)
    requires Reaches(Next, s, before, m) && NoFlags(before)
    requires j < |m.callers| && Known(m, m.callers[j]) && m.callers[j].Unflagging? && !m.callers[j].owned
    requires Dirty(m.log, m.callers[j].id) && m.callers[j].since < LastFlag(m.log, m.callers[j].id)
    ensures var id := m.callers[j].id;
      && NoFlags(run) && Reaches(Next, s, run, t) && LeadsTo(StaleClear, s, run, id)
      && t == m.(callers := m.callers[j := Pausing(id, false)], flags := m.flags[id := false],
                 log := m.log + [Recovered(id, m.callers[j].since)])
      && Dirty(t.log, id)
  {
    hide LastFlag, LastPass, SafeLog, Reaches;
    var id, since := m.callers[j].id, m.callers[j].since;
    t := Do(m, Unflag(j));
    LogNext(m.log, Recovered(id, since), id);
    LeadsOn(StaleClear, s, before, m, [Unflag(j)], id);
    One(Next, m, Unflag(j), t);
    Chain(Next, s, before, m, [Unflag(j)], t);
    run := before + [Unflag(j)];
  }

  /** Where the connection is in the queue, if it is there. */
  lemma FirstAt(queue: seq<nat>, id: nat) returns (p: nat)
    requires id in queue
    ensures p < |queue| && queue[p] == id && id !in queue[..p]
  {
    p := 0;
    while queue[p] != id
      invariant p < |queue| && id !in queue[..p]
      decreases |queue| - p
    {
      p := p + 1;
    }
  }

  /** The goroutine that cleared the flag takes the connection from the queue and hands
      it out. */
  lemma LosesFlag(s: State, i: nat, j: nat) returns (run: seq<Action>)
    requires Owned(s) && Timely(s) && Enabled(s, Flag(i))
    requires j < |s.callers| && Recovering(s.callers[j]) && s.callers[j].id == s.callers[i].id
    ensures LeadsTo(DirtyHandOut, Do(s, Flag(i)), run, s.callers[i].id)
  {
    hide LastFlag, LastPass, SafeLog, Sum, Reaches, LeadsTo;
    var id := s.callers[i].id;
    var s1 := Do(s, Flag(i));
    var xs, s2 := ClearsFlag(s, i, j);
    var s3 := Do(s2, PauseDone(j));
    One(Next, s2, PauseDone(j), s3);
    Chain(Next, s1, xs, s2, [PauseDone(j)], s3);
    var p := FirstAt(s3.queue, id);
    forall q | 0 <= q < p ensures s3.queue[q] != id && s3.queue[q] < |s3.open| {
      assert s3.queue[q] in s3.queue[..p];
      QueueIsKnown(s, q);
    }
    run := HandsOut(s3, j, id, p);
    LeadsOn(DirtyHandOut, s1, xs + [PauseDone(j)], s3, run, id);
    run := xs + [PauseDone(j)] + run;
  }

  // ---------- The exact condition ----------

  /** After any run, a flag that is being set can be lost, and its connection handed
      out unrecovered before it is flagged again, if and only if at this moment some
      goroutine is in a recovery pass on the connection. */
  lemma FlagIsLostExactly(h: Harm, s0: State, before: seq<Action>, i: nat)
    requires Initial(s0) && Executable(s0, before) && Enabled(Run(s0, before), Flag(i))
    ensures var s := Run(s0, before); var id := s.callers[i].id;
      (exists run :: LeadsTo(h, Do(s, Flag(i)), run, id)) <==> RecoveredBySomeone(s, id)
  {
    InitialInv(s0);
    RunKeepsOwned(s0, before);
    RunKeepsTimely(s0, before);
    FlagIsLostExactlyAt(h, Run(s0, before), i);
  }

  lemma FlagIsLostExactlyAt(h: Harm, s: State, i: nat)
    requires Owned(s) && Timely(s) && Enabled(s, Flag(i))
    ensures (exists run :: LeadsTo(h, Do(s, Flag(i)), run, s.callers[i].id)) <==> RecoveredBySomeone(s, s.callers[i].id)
  {
    var id := s.callers[i].id;
    hide LeadsTo, Owned, Timely, Do, Honoured, Reaches;
    if RecoveredBySomeone(s, id) {
      var j :| 0 <= j < |s.callers| && Recovering(s.callers[j]) && s.callers[j].id == id;
      var run;
      if h.StaleClear? {
        var clears, _ := ClearsFlag(s, i, j);
        run := clears;
      } else {
        run := LosesFlag(s, i, j);
      }
      assert LeadsTo(h, Do(s, Flag(i)), run, id);
    } else {
      QuietFlagIsHonoured(s, i);
      forall run ensures !LeadsTo(h, Do(s, Flag(i)), run, id) {
        HonouredIsHarmless(h, Do(s, Flag(i)), run, id);
      }
    }
  }

  // ---------- It does happen ----------

  lemma {:induction false} ReachesIsRun(s: State, run: seq<Action>, t: State)
    ensures Reaches(Next, s, run, t) <==> Executable(s, run) && Run(s, run) == t
    decreases |run|
  {
    hide Enabled, Do;
    if run != [] && Enabled(s, run[0]) {
      ReachesIsRun(Do(s, run[0]), run[1..], t);
    }
  }

  /** A run in which a flag is set at such a moment has a continuation that hands the
      connection out unrecovered. */
  lemma LostFlagIsARun(s: State, before: seq<Action>, i: nat, j: nat) returns (run: seq<Action>)
    requires Initial(s) && Executable(s, before) && Enabled(Run(s, before), Flag(i)) && j < |Run(s, before).callers|
    requires Recovering(Run(s, before).callers[j]) && Run(s, before).callers[j].id == Run(s, before).callers[i].id
    ensures Executable(s, run) && !SafeLog(Run(s, run).log)
  {
    InitialInv(s);
    RunKeepsOwned(s, before);
    RunKeepsTimely(s, before);
    hide Reaches, LeadsTo, SafeLog, Executable, Run, Enabled, Do, Owned, Timely, Initial, Inv;
    var m := Run(s, before);
    var m' := Do(m, Flag(i));
    var after := LosesFlag(m, i, j);
    HandOutIsLogged(m', after, m.callers[i].id);
    ReachesIsRun(s, before, m);
    ReachesIsRun(m', after, Run(m', after));
    First(Next, m, Flag(i), m', after, Run(m', after));
    Chain(Next, s, before, m, [Flag(i)] + after, Run(m', after));
    run := before + ([Flag(i)] + after);
    ReachesIsRun(s, run, Run(m', after));
  }

  /** Two goroutines and one connection. */
  function At(queue: seq<nat>, open: bool, errors: nat, k0: Caller, k1: Caller, log: seq<Event>): State
  {
    State(queue, map[], [open], [errors], [k0, k1], log)
  }

  lemma Then(s: State, a: Action, m: State, run: seq<Action>, t: State)
    requires Enabled(s, a) && Do(s, a) == m && Reaches(Next, m, run, t)
    ensures Reaches(Next, s, [a] + run, t)
  {
    First(Next, s, a, m, run, t);
  }

  const NOTICE: seq<Action> := [Drop(0)] + ([BeginReconnect(1, 0)] + ([PollErrors(1)] + []))
  const REDIAL: seq<Action> := [CheckHealth(1)] + ([Connect(1, true)] + [])

  /** The connection drops; the second goroutine, reconnecting a channel, notices. */
  lemma Notices(s: State, t: State)
    requires s == At([0], true, 0, Idle, Idle, []) && t == At([0], false, 0, Idle, Polled(0, false, false), [])
    ensures Reaches(Next, s, NOTICE, t)
  {
    assert Reaches(Next, t, [], t);
    hide Reaches;
    var s1 := At([0], false, 1, Idle, Idle, []);
    var s2 := At([0], false, 1, Idle, Taken(0, false), []);
    Then(s2, PollErrors(1), t, [], t);
    Then(s1, BeginReconnect(1, 0), s2, [PollErrors(1)] + [], t);
    Then(s, Drop(0), s1, [BeginReconnect(1, 0)] + ([PollErrors(1)] + []), t);
  }

  lemma Redials(s: State, t: State)
    requires s == At([0], false, 0, Idle, Polled(0, false, false), []) && t == At([0], true, 0, Idle, Flushing(0, false, 0), [])
    ensures Reaches(Next, s, REDIAL, t)
  {
    assert Reaches(Next, t, [], t);
    hide Reaches;
    var s1 := At([0], false, 0, Idle, Connecting(0, false, 0), []);
    Then(s1, Connect(1, true), t, [], t);
    Then(s, CheckHealth(1), s1, [Connect(1, true)] + [], t);
  }

  const GET: seq<Action> := [Get(0)] + ([PollErrors(0)] + ([CheckHealth(0)] + ([PauseDone(0)] + [])))

  /** The first goroutine goes through GetConnection. */
  lemma Gets(k: Caller, s: State, t: State)
    requires s == At([0], true, 0, Idle, k, []) && t == At([], true, 0, Held(0), k, [HandedOut(0)])
    ensures Reaches(Next, s, GET, t)
  {
    assert Reaches(Next, t, [], t);
    hide Reaches;
    var s1 := At([], true, 0, Taken(0, true), k, []);
    var s2 := At([], true, 0, Polled(0, true, true), k, []);
    var s3 := At([], true, 0, Pausing(0, true), k, []);
    Then(s3, PauseDone(0), t, [], t);
    Then(s2, CheckHealth(0), s3, [PauseDone(0)] + [], t);
    Then(s1, PollErrors(0), s2, [CheckHealth(0)] + ([PauseDone(0)] + []), t);
    Then(s, Get(0), s1, [PollErrors(0)] + ([CheckHealth(0)] + ([PauseDone(0)] + [])), t);
  }

  /** With channel reconnects some run does hand out a connection that was returned
      flagged and not recovered since. */
  lemma ReconnectsCanHandOutFlagged() returns (s: State, run: seq<Action>)
    ensures Initial(s) && Executable(s, run) && !SafeLog(Run(s, run).log)
  {
    s := At([0], true, 0, Idle, Idle, []);
    assert Initial(s) by { assert Upto(1) == [0]; }
    hide Reaches, SafeLog, Executable, Run, Initial;
    var s1 := At([0], false, 0, Idle, Polled(0, false, false), []);
    var s2 := At([0], true, 0, Idle, Flushing(0, false, 0), []);
    var s3 := At([], true, 0, Held(0), Flushing(0, false, 0), [HandedOut(0)]);
    Notices(s, s1);
    Redials(s1, s2);
    Gets(Flushing(0, false, 0), s2, s3);
    Chain(Next, s1, REDIAL, s2, GET, s3);
    Chain(Next, s, NOTICE, s1, REDIAL + GET, s3);
    ReachesIsRun(s, NOTICE + (REDIAL + GET), s3);
    run := LostFlagIsARun(s, NOTICE + (REDIAL + GET), 0, 1);
  }
}
