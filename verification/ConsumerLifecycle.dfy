/** Starting and stopping a consumer (consumer.go): the started flag under conLock,
    the stop buffer of capacity one, and the consume loops, under any interleaving
    of callers. The code does not check started before it starts a loop; callers
    that respect it are the disciplined runs. */
module ConsumerLifecycle {
  import opened Sequences
  import opened Runs

  /** A caller of StartConsuming or StopConsuming. From Flushing on, and from
      CheckingStarted on, it holds conLock. */
  datatype Caller =
    | Free
    | WantingStart
    | Flushing
    | Spawning
    | MarkingStarted
    | WantingStop
    | CheckingStarted
    | Sending
    | Unlocking

  /** A consume loop. A loop that has received a stop wants the lock to clear
      started. `stop` is the start the received signal was sent for. */
  datatype Loop = Running | Exiting(stop: nat) | Clearing(stop: nat) | Cleared(stop: nat) | Dead

  datatype Holder = NoOne | ByCaller(caller: nat) | ByLoop(loop: nat)

  datatype State = State(
    lock: Holder,          // conLock
    started: bool,
    buffer: seq<nat>,      // consumeStop, capacity 1: the start each signal was sent for
    callers: seq<Caller>,
    loops: seq<Loop>,      // in the order they were started
    stops: nat)            // history: stop calls that found it started, since the last start

  datatype Action =
    | CallStart(caller: nat)
    | LockStart(caller: nat)
    | FlushStop(caller: nat)
    | Spawn(caller: nat)
    | MarkStarted(caller: nat)
    | CallStop(caller: nat)
    | LockStop(caller: nat)
    | CheckStarted(caller: nat)
    | Send(caller: nat)
    | Unlock(caller: nat)
    | ReceiveStop(loop: nat)
    | LockLoop(loop: nat)
    | ClearStarted(loop: nat)
    | UnlockLoop(loop: nat)

  predicate OfLoop(a: Action) { a.ReceiveStop? || a.LockLoop? || a.ClearStarted? || a.UnlockLoop? }

  predicate LoopEnabled(s: State, a: Action)
  {
    match a
    case ReceiveStop(k) => k < |s.loops| && s.loops[k].Running? && s.buffer != []
    case LockLoop(k) => k < |s.loops| && s.loops[k].Exiting? && s.lock.NoOne?
    case ClearStarted(k) => k < |s.loops| && s.loops[k].Clearing?
    case UnlockLoop(k) => k < |s.loops| && s.loops[k].Cleared?
    case _ => false
  }

  predicate CallerEnabled(s: State, a: Action)
    requires !OfLoop(a)
  {
    a.caller < |s.callers| &&
    var k := s.callers[a.caller];
    match a
    case CallStart(_) => k.Free?
    case LockStart(_) => k.WantingStart? && s.lock.NoOne?
    case FlushStop(_) => k.Flushing?
    case Spawn(_) => k.Spawning?
    case MarkStarted(_) => k.MarkingStarted?
    case CallStop(_) => k.Free?
    case LockStop(_) => k.WantingStop? && s.lock.NoOne?
    case CheckStarted(_) => k.CheckingStarted?
    case Send(_) => k.Sending? && s.buffer == []
    case Unlock(_) => k.Unlocking?
  }

  predicate Enabled(s: State, a: Action) { if OfLoop(a) then LoopEnabled(s, a) else CallerEnabled(s, a) }

  function LoopStep(s: State, a: Action): State
    requires LoopEnabled(s, a)
  {
    match a
    case ReceiveStop(k) => s.(loops := s.loops[k := Exiting(s.buffer[0])], buffer := s.buffer[1..])
    case LockLoop(k) => s.(loops := s.loops[k := Clearing(s.loops[k].stop)], lock := ByLoop(k))
    case ClearStarted(k) => s.(loops := s.loops[k := Cleared(s.loops[k].stop)], started := false)
    case UnlockLoop(k) => s.(loops := s.loops[k := Dead], lock := NoOne)
  }

  function Moved(s: State, i: nat, k: Caller): State
    requires i < |s.callers|
  {
    s.(callers := s.callers[i := k])
  }

  function CallerStep(s: State, a: Action): State
    requires !OfLoop(a) && CallerEnabled(s, a)
  {
    match a
    case CallStart(i) => Moved(s, i, WantingStart)
    case LockStart(i) => Moved(s, i, Flushing).(lock := ByCaller(i))
    case FlushStop(i) => if s.buffer != [] then s.(buffer := s.buffer[1..]) else Moved(s, i, Spawning)
    case Spawn(i) => Moved(s, i, MarkingStarted).(loops := s.loops + [Running], stops := 0)
    case MarkStarted(i) => Moved(s, i, Unlocking).(started := true)
    case CallStop(i) => Moved(s, i, WantingStop)
    case LockStop(i) => Moved(s, i, CheckingStarted).(lock := ByCaller(i))
    case CheckStarted(i) =>
      if s.started then Moved(s, i, Sending).(stops := s.stops + 1) else Moved(s, i, Unlocking)
    case Send(i) => Moved(s, i, Unlocking).(buffer := s.buffer + [|s.loops|])
    case Unlock(i) => Moved(s, i, Free).(lock := NoOne)
  }

  function Do(s: State, a: Action): State
    requires Enabled(s, a)
  {
    if OfLoop(a) then LoopStep(s, a) else CallerStep(s, a)
  }

  ghost predicate Initial(s: State)
  {
    && s.lock.NoOne? && !s.started && s.buffer == [] && s.loops == [] && s.stops == 0
    && (forall i :: 0 <= i < |s.callers| ==> s.callers[i].Free?)
  }

  predicate Executable(s: State, run: seq<Action>)
    decreases |run|
  {
    run == [] || (Enabled(s, run[0]) && Executable(Do(s, run[0]), run[1..]))
  }

  function Run(s: State, run: seq<Action>): State
    requires Executable(s, run)
    decreases |run|
  {
    if run == [] then s else Run(Do(s, run[0]), run[1..])
  }

  /** StartConsuming takes the lock only while started is false. */
  predicate Disciplined(s: State, run: seq<Action>)
    requires Executable(s, run)
    decreases |run|
  {
    run == [] || ((run[0].LockStart? ==> !s.started) && Disciplined(Do(s, run[0]), run[1..]))
  }

  // ---------- The invariant ----------

  predicate Inside(k: Caller) { !k.Free? && !k.WantingStart? && !k.WantingStop? }

  predicate InsideLoop(l: Loop) { l.Clearing? || l.Cleared? }

  /** The lock is held exactly by whoever is inside. */
  ghost predicate Locked(s: State)
  {
    && (forall i :: 0 <= i < |s.callers| && Inside(s.callers[i]) ==> s.lock == ByCaller(i))
    && (forall k :: 0 <= k < |s.loops| && InsideLoop(s.loops[k]) ==> s.lock == ByLoop(k))
    && (s.lock.ByCaller? ==> s.lock.caller < |s.callers| && Inside(s.callers[s.lock.caller]))
    && (s.lock.ByLoop? ==> s.lock.loop < |s.loops| && InsideLoop(s.loops[s.lock.loop]))
  }

  /** The program point of the caller that holds the lock. */
  function Point(s: State): Caller
  {
    if s.lock.ByCaller? && s.lock.caller < |s.callers| then s.callers[s.lock.caller] else Free
  }

  function LastLoop(s: State): Loop { if s.loops == [] then Dead else s.loops[|s.loops| - 1] }

  /** Only the last loop can be alive, and started tells whether it is, except
      between the spawn and the mark and between the clear and the unlock. */
  ghost predicate Alive(s: State)
  {
    && (forall k :: 0 <= k < |s.loops| - 1 ==> s.loops[k].Dead?)
    && (s.started ==> !LastLoop(s).Dead? && !LastLoop(s).Cleared?)
    && (!s.started ==> LastLoop(s).Dead? || LastLoop(s).Cleared? || Point(s).MarkingStarted?)
    && (Point(s).Flushing? || Point(s).Spawning? ==> !s.started && LastLoop(s).Dead?)
    && (Point(s).MarkingStarted? ==> !s.started && !LastLoop(s).Dead?)
    && (Point(s).Sending? ==> s.started)
  }

  /** Signals in the buffer, and the one a loop received, belong to the last start. */
  ghost predicate Tagged(s: State)
  {
    && |s.buffer| <= 1
    && (forall j :: 0 <= j < |s.buffer| ==> s.buffer[j] == |s.loops|)
    && (Point(s).Spawning? ==> s.buffer == [])
    && (forall k :: 0 <= k < |s.loops| && !s.loops[k].Running? && !s.loops[k].Dead? ==> s.loops[k].stop == k + 1)
  }

  /** Every stop call since the start is sending, in the buffer, or received. */
  ghost predicate Accounted(s: State)
  {
    s.loops != [] && !Point(s).Flushing? && !Point(s).Spawning? ==>
      s.stops == |s.buffer| + (if Point(s).Sending? then 1 else 0) + (if LastLoop(s).Running? then 0 else 1)
  }

  ghost predicate Inv(s: State) { Locked(s) && Alive(s) && Tagged(s) && Accounted(s) }

  lemma LoopKeepsLocked(s: State, a: Action)
    requires Locked(s) && LoopEnabled(s, a)
    ensures Locked(LoopStep(s, a))
  {
  }

  lemma CallerKeepsLocked(s: State, a: Action)
    requires Locked(s) && !OfLoop(a) && CallerEnabled(s, a)
    ensures Locked(CallerStep(s, a))
  {
  }

  /** Who holds the lock after a step. */
  lemma PointAfter(s: State, a: Action)
    requires Locked(s) && Enabled(s, a)
    ensures OfLoop(a) ==> Point(Do(s, a)) == Point(s) || (Point(s).Free? && Point(Do(s, a)).Free?)
    ensures !OfLoop(a) && !Inside(s.callers[a.caller]) && s.lock == Do(s, a).lock ==> Point(Do(s, a)) == Point(s)
    ensures !OfLoop(a) && Inside(s.callers[a.caller]) && !a.Unlock? ==> Point(Do(s, a)) == Do(s, a).callers[a.caller]
    ensures !OfLoop(a) && Inside(s.callers[a.caller]) ==> Point(s) == s.callers[a.caller]
    ensures a.Unlock? ==> Point(Do(s, a)).Free?
    ensures a.LockStart? || a.LockStop? ==> Point(s).Free? && Point(Do(s, a)) == Do(s, a).callers[a.caller]
  {
  }

  lemma LoopKeeps(s: State, a: Action)
    requires Inv(s) && OfLoop(a) && LoopEnabled(s, a)
    ensures Alive(LoopStep(s, a)) && Tagged(LoopStep(s, a)) && Accounted(LoopStep(s, a))
  {
    PointAfter(s, a);
    var s' := LoopStep(s, a);
    var k := a.loop;
    assert k == |s.loops| - 1;
    assert LastLoop(s') == s'.loops[k];
  }

  lemma CallerKeeps(s: State, a: Action)
    requires Inv(s) && !OfLoop(a) && CallerEnabled(s, a) && (a.LockStart? ==> !s.started)
    ensures Alive(CallerStep(s, a)) && Tagged(CallerStep(s, a)) && Accounted(CallerStep(s, a))
  {
    PointAfter(s, a);
    if !a.Spawn? {
      assert LastLoop(CallerStep(s, a)) == LastLoop(s);
    }
  }

  lemma {:induction false} RunKeepsInv(s: State, run: seq<Action>)
    requires Inv(s) && Executable(s, run) && Disciplined(s, run)
    ensures Inv(Run(s, run))
    decreases |run|
  {
    if run != [] {
      hide Locked, Alive, Tagged, Accounted, LoopStep, CallerStep, LoopEnabled, CallerEnabled;
      if OfLoop(run[0]) {
        LoopKeepsLocked(s, run[0]);
        LoopKeeps(s, run[0]);
      } else {
        CallerKeepsLocked(s, run[0]);
        CallerKeeps(s, run[0]);
      }
      RunKeepsInv(Do(s, run[0]), run[1..]);
    }
  }

  // ---------- The theorems ----------

  function AliveLoop(l: Loop): nat { if l.Dead? then 0 else 1 }

  /** Whenever the lock is free, started holds exactly if one loop is alive, and
      there is never a second one. */
  lemma StartedMeansOneLoop(s: State, run: seq<Action>)
    requires Initial(s) && Executable(s, run) && Disciplined(s, run)
    ensures var s' := Run(s, run); s'.lock.NoOne? ==> Sum(s'.loops, AliveLoop) == if s'.started then 1 else 0
    ensures Sum(Run(s, run).loops, AliveLoop) <= 1
  {
    RunKeepsInv(s, run);
    var s' := Run(s, run);
    if s'.loops != [] {
      var older := s'.loops[..|s'.loops| - 1];
      forall l: Loop | l in older ensures AliveLoop(l) == 0 {
        var k :| 0 <= k < |older| && older[k] == l;
        assert s'.loops[k] == l;
      }
      SumZero(older, AliveLoop);
    }
  }

  /** Caller i is inside StartConsuming although loop k is alive, and once it has
      spawned its own loop, that one is alive too. */
  ghost predicate Doubling(s: State, i: nat, k: nat)
  {
    && Locked(s) && s.lock == ByCaller(i) && k < |s.loops| && !s.loops[k].Dead?
    && (s.callers[i].Flushing? || s.callers[i].Spawning? ||
        ((s.callers[i].MarkingStarted? || s.callers[i].Unlocking?) && k < |s.loops| - 1 && !LastLoop(s).Dead?))
  }

  /** No loop dies while a caller has the lock. */
  lemma StepKeepsDoubling(s: State, a: Action, i: nat, k: nat)
    requires Doubling(s, i, k) && Enabled(s, a) && a != Unlock(i)
    ensures Doubling(Do(s, a), i, k)
  {
    if OfLoop(a) {
      LoopKeepsLocked(s, a);
    } else {
      CallerKeepsLocked(s, a);
      assert a.caller != i ==> !Inside(s.callers[a.caller]);
    }
  }

  lemma {:induction false} RunKeepsDoubling(s: State, run: seq<Action>, i: nat, k: nat)
    requires Doubling(s, i, k) && Executable(s, run)
    requires forall j :: 0 <= j < |run| ==> run[j] != Unlock(i)
    ensures Doubling(Run(s, run), i, k)
    decreases |run|
  {
    hide Doubling, Enabled, Do;
    if run != [] {
      StepKeepsDoubling(s, run[0], i, k);
      RunKeepsDoubling(Do(s, run[0]), run[1..], i, k);
    }
  }

  lemma InitialInv(s: State)
    requires Initial(s)
    ensures Inv(s)
  {
  }

  lemma BeginsDoubling(s: State, i: nat)
    requires Inv(s) && s.started && Enabled(s, LockStart(i))
    ensures s.loops != [] && Doubling(Do(s, LockStart(i)), i, |s.loops| - 1)
  {
    CallerKeepsLocked(s, LockStart(i));
  }

  lemma EndsDoubled(s: State, i: nat, k: nat)
    requires Doubling(s, i, k) && Enabled(s, Unlock(i))
    ensures Do(s, Unlock(i)).lock.NoOne? && Sum(Do(s, Unlock(i)).loops, AliveLoop) >= 2
  {
    hide Sum, Locked;
    SumUpdate(s.loops, k, Dead, AliveLoop);
    SumPart(s.loops[k := Dead], |s.loops| - 1, AliveLoop);
  }

  /** The discipline is exactly what is needed: whenever StartConsuming takes the
      lock while started holds, then however the run goes on to the end of the
      call, it gives the lock back with two loops alive. */
  lemma UndisciplinedStartDoubles(s: State, run: seq<Action>, i: nat, rest: seq<Action>)
    requires Initial(s) && Executable(s, run) && Disciplined(s, run)
    requires Run(s, run).started && Enabled(Run(s, run), LockStart(i))
    requires Executable(Do(Run(s, run), LockStart(i)), rest)
    requires forall j :: 0 <= j < |rest| ==> rest[j] != Unlock(i)
    requires Enabled(Run(Do(Run(s, run), LockStart(i)), rest), Unlock(i))
    ensures var s' := Do(Run(Do(Run(s, run), LockStart(i)), rest), Unlock(i));
      s'.lock.NoOne? && Sum(s'.loops, AliveLoop) >= 2
  {
    hide Initial, Inv, Doubling, Executable, Enabled, Do, Disciplined, Sum;
    InitialInv(s);
    RunKeepsInv(s, run);
    var before := Run(s, run);
    hide Run;
    BeginsDoubling(before, i);
    var k := |before.loops| - 1;
    RunKeepsDoubling(Do(before, LockStart(i)), rest, i, k);
    EndsDoubled(Run(Do(before, LockStart(i)), rest), i, k);
  }

  /** A loop leaves only on a stop that was sent for its own start. */
  lemma LoopExitsOnItsOwnStop(s: State, run: seq<Action>, k: nat)
    requires Initial(s) && Executable(s, run) && Disciplined(s, run)
    requires k < |Run(s, run).loops| && !Run(s, run).loops[k].Running? && !Run(s, run).loops[k].Dead?
    ensures Run(s, run).loops[k].stop == k + 1
  {
    RunKeepsInv(s, run);
  }

  /** A StopConsuming that waits on the full buffer, holding the lock. */
  predicate Waiting(s: State, i: nat) { i < |s.callers| && s.callers[i].Sending? && s.buffer != [] }

  /** With at most two stop calls per start, a waiting call is released by the
      loop's next stop check. */
  lemma TwoStopsNeverWedge(s: State, run: seq<Action>, i: nat)
    requires Initial(s) && Executable(s, run) && Disciplined(s, run) && Waiting(Run(s, run), i) && Run(s, run).stops <= 2
    ensures var s' := Run(s, run); var k := |s'.loops| - 1;
      k >= 0 && Enabled(s', ReceiveStop(k)) && Enabled(Do(s', ReceiveStop(k)), Send(i))
  {
    RunKeepsInv(s, run);
  }

  /** What a wedged consumer looks like: a stop call waits on the full buffer with
      the lock, and the loop that could drain the buffer waits for the lock. */
  ghost predicate Wedged(s: State, i: nat)
  {
    Inv(s) && Waiting(s, i) && LastLoop(s).Exiting?
  }

  /** Exactly the third stop call of a start can be wedged. */
  lemma WedgedExactlyOnThirdStop(s: State, run: seq<Action>, i: nat)
    requires Initial(s) && Executable(s, run) && Disciplined(s, run) && Waiting(Run(s, run), i)
    ensures Wedged(Run(s, run), i) <==> Run(s, run).stops >= 3
  {
    RunKeepsInv(s, run);
  }

  lemma WedgedStep(s: State, a: Action, i: nat)
    requires Wedged(s, i) && Enabled(s, a)
    ensures Wedged(Do(s, a), i) && Do(s, a).lock == s.lock
  {
    if OfLoop(a) {
      LoopKeepsLocked(s, a);
      LoopKeeps(s, a);
    } else {
      CallerKeepsLocked(s, a);
      CallerKeeps(s, a);
    }
    hide Alive, Tagged, Accounted;
  }

  /** Once wedged, no run ever releases the call or the lock. */
  lemma {:induction false} WedgedForever(s: State, run: seq<Action>, i: nat)
    requires Wedged(s, i) && Executable(s, run)
    ensures Wedged(Run(s, run), i) && Run(s, run).lock == s.lock == ByCaller(i)
    decreases |run|
  {
    if run != [] {
      WedgedStep(s, run[0], i);
      WedgedForever(Do(s, run[0]), run[1..], i);
    }
  }

  // ---------- The third stop does wedge it, and a second start does double the loop ----------

  /** What an action does; if polite, only a disciplined one is enabled. */
  function Next(polite: bool): (State, Action) -> Option<State>
  {
    (s: State, a: Action) =>
      if Enabled(s, a) && (polite && a.LockStart? ==> !s.started) then Some(Do(s, a)) else None
  }

  lemma {:induction false} ReachesIsRun(polite: bool, s: State, run: seq<Action>, t: State)
    requires Reaches(Next(polite), s, run, t)
    ensures Executable(s, run) && Run(s, run) == t && (polite ==> Disciplined(s, run))
    decreases |run|
  {
    hide Enabled, Do;
    if run != [] {
      ReachesIsRun(polite, Do(s, run[0]), run[1..], t);
    }
  }

  lemma Then(polite: bool, s: State, a: Action, m: State, run: seq<Action>, t: State)
    requires Enabled(s, a) && Do(s, a) == m && (polite && a.LockStart? ==> !s.started) && Reaches(Next(polite), m, run, t)
    ensures Reaches(Next(polite), s, [a] + run, t)
  {
    First(Next(polite), s, a, m, run, t);
  }

  /** One caller, with the lock free. */
  function Resting(started: bool, buffer: seq<nat>, loops: seq<Loop>, stops: nat): State
  {
    State(NoOne, started, buffer, [Free], loops, stops)
  }

  const LOCK: seq<Action> := [CallStart(0)] + ([LockStart(0)] + ([FlushStop(0)] + []))
  const SPAWN: seq<Action> := [Spawn(0)] + ([MarkStarted(0)] + ([Unlock(0)] + []))
  const START: seq<Action> := LOCK + SPAWN

  lemma Locks(p: bool, s: State, t: State)
    requires s == Resting(s.started, [], s.loops, s.stops) && t == s.(callers := [Spawning], lock := ByCaller(0))
    requires p ==> !s.started
    ensures Reaches(Next(p), s, LOCK, t)
  {
    assert Reaches(Next(p), t, [], t);
    hide Reaches;
    var s1 := s.(callers := [WantingStart]);
    var s2 := s.(callers := [Flushing], lock := ByCaller(0));
    Then(p, s2, FlushStop(0), t, [], t);
    Then(p, s1, LockStart(0), s2, [FlushStop(0)] + [], t);
    Then(p, s, CallStart(0), s1, [LockStart(0)] + ([FlushStop(0)] + []), t);
  }

  lemma Spawns(p: bool, s: State, t: State)
    requires s == State(ByCaller(0), s.started, [], [Spawning], s.loops, s.stops)
    requires t == Resting(true, [], s.loops + [Running], 0)
    ensures Reaches(Next(p), s, SPAWN, t)
  {
    assert Reaches(Next(p), t, [], t);
    hide Reaches;
    var s1 := State(ByCaller(0), s.started, [], [MarkingStarted], s.loops + [Running], 0);
    var s2 := s1.(callers := [Unlocking], started := true);
    Then(p, s2, Unlock(0), t, [], t);
    Then(p, s1, MarkStarted(0), s2, [Unlock(0)] + [], t);
    Then(p, s, Spawn(0), s1, [MarkStarted(0)] + ([Unlock(0)] + []), t);
  }

  /** One StartConsuming of a lone caller, whatever loops there are already. */
  lemma Starts(p: bool, s: State, t: State)
    requires s == Resting(s.started, [], s.loops, s.stops) && t == Resting(true, [], s.loops + [Running], 0)
    requires p ==> !s.started
    ensures Reaches(Next(p), s, START, t)
  {
    hide Reaches;
    var m := s.(callers := [Spawning], lock := ByCaller(0));
    Locks(p, s, m);
    Spawns(p, m, t);
    Chain(Next(p), s, LOCK, m, SPAWN, t);
  }

  /** The discipline can be broken: two StartConsuming calls leave two loops alive. */
  lemma SecondStartDoublesTheLoop(s: State) returns (run: seq<Action>)
    requires s == Resting(false, [], [], 0)
    ensures Initial(s) && Executable(s, run)
    ensures Run(s, run).lock.NoOne? && Sum(Run(s, run).loops, AliveLoop) == 2
  {
    run := START + START;
    TwoRunning();
    hide Executable, Run, Sum, Reaches, Enabled, Do;
    var s1, s2 := Resting(true, [], [Running], 0), Resting(true, [], [Running] + [Running], 0);
    Starts(false, s, s1);
    Starts(false, s1, s2);
    Chain(Next(false), s, START, s1, START, s2);
    ReachesIsRun(false, s, run, s2);
  }

  lemma TwoRunning()
    ensures Sum([Running] + [Running], AliveLoop) == 2
  {
    SumAppend([Running], Running, AliveLoop);
    assert [Running][..0] == [];
  }

  /** A stop call of caller i up to the point where it wants to send. */
  function Ask(i: nat): seq<Action> { [CallStop(i)] + ([LockStop(i)] + ([CheckStarted(i)] + [])) }

  function SendAndUnlock(i: nat): seq<Action> { [Send(i)] + ([Unlock(i)] + []) }

  function Stop(i: nat): seq<Action> { Ask(i) + SendAndUnlock(i) }

  lemma Asks(s: State, i: nat)
    requires i < |s.callers| && s.callers[i].Free? && s.lock.NoOne? && s.started
    ensures Reaches(Next(true), s, Ask(i), s.(callers := s.callers[i := Sending], lock := ByCaller(i), stops := s.stops + 1))
  {
    var t := s.(callers := s.callers[i := Sending], lock := ByCaller(i), stops := s.stops + 1);
    assert Reaches(Next(true), t, [], t);
    hide Reaches;
    var s1 := Moved(s, i, WantingStop);
    var s2 := Moved(s, i, CheckingStarted).(lock := ByCaller(i));
    assert s1.callers[i := CheckingStarted] == s2.callers && s2.callers[i := Sending] == t.callers;
    Then(true, s2, CheckStarted(i), t, [], t);
    Then(true, s1, LockStop(i), s2, [CheckStarted(i)] + [], t);
    Then(true, s, CallStop(i), s1, [LockStop(i)] + ([CheckStarted(i)] + []), t);
  }

  lemma Sends(s: State, i: nat)
    requires i < |s.callers| && s.callers[i].Sending? && s.buffer == []
    ensures Reaches(Next(true), s, SendAndUnlock(i), s.(callers := s.callers[i := Free], lock := NoOne, buffer := [|s.loops|]))
  {
    var t := s.(callers := s.callers[i := Free], lock := NoOne, buffer := [|s.loops|]);
    assert Reaches(Next(true), t, [], t);
    hide Reaches;
    var s1 := Moved(s, i, Unlocking).(buffer := [|s.loops|]);
    assert s1.callers[i := Free] == t.callers;
    Then(true, s1, Unlock(i), t, [], t);
    Then(true, s, Send(i), s1, [Unlock(i)] + [], t);
  }

  /** A stop call on a started consumer with room in the stop buffer. */
  lemma StopIsSent(s: State, i: nat)
    requires i < |s.callers| && s.callers[i].Free? && s.lock.NoOne? && s.started && s.buffer == []
    ensures Reaches(Next(true), s, Stop(i), s.(buffer := [|s.loops|], stops := s.stops + 1))
  {
    hide Reaches;
    var m := s.(callers := s.callers[i := Sending], lock := ByCaller(i), stops := s.stops + 1);
    var t := s.(buffer := [|s.loops|], stops := s.stops + 1);
    Asks(s, i);
    Sends(m, i);
    assert m.callers[i := Free] == s.callers;
    Chain(Next(true), s, Ask(i), m, SendAndUnlock(i), t);
  }

  lemma Receives(s: State, t: State)
    requires s == Resting(true, [1], [Running], 1) && t == Resting(true, [], [Exiting(1)], 1)
    ensures Reaches(Next(true), s, [ReceiveStop(0)], t)
  {
    assert Do(s, ReceiveStop(0)) == t;
    One(Next(true), s, ReceiveStop(0), t);
  }

  /** Three stop calls after one start wedge the consumer for good: the loop has
      received the first, the second fills the buffer, the third waits with the lock. */
  lemma ThreeStopsWedge(s: State) returns (run: seq<Action>)
    requires s == Resting(false, [], [], 0)
    ensures Initial(s) && Executable(s, run) && Disciplined(s, run)
    ensures Wedged(Run(s, run), 0) && Run(s, run).stops == 3
  {
    hide Enabled, Do, Executable, Run, Disciplined, Reaches, Wedged;
    var s1, s2 := Resting(true, [], [Running], 0), Resting(true, [1], [Running], 1);
    var s3, s4 := Resting(true, [], [Exiting(1)], 1), Resting(true, [1], [Exiting(1)], 2);
    var s5 := State(ByCaller(0), true, [1], [Sending], [Exiting(1)], 3);
    Starts(true, s, s1);
    StopIsSent(s1, 0);
    Receives(s2, s3);
    StopIsSent(s3, 0);
    Asks(s4, 0);
    assert s4.callers[0 := Sending] == s5.callers;
    Chain(Next(true), s3, Stop(0), s4, Ask(0), s5);
    Chain(Next(true), s2, [ReceiveStop(0)], s3, Stop(0) + Ask(0), s5);
    Chain(Next(true), s1, Stop(0), s2, [ReceiveStop(0)] + (Stop(0) + Ask(0)), s5);
    Chain(Next(true), s, START, s1, Stop(0) + ([ReceiveStop(0)] + (Stop(0) + Ask(0))), s5);
    run := START + (Stop(0) + ([ReceiveStop(0)] + (Stop(0) + Ask(0))));
    ReachesIsRun(true, s, run, s5);
    ThirdIsWedged(s5);
  }

  lemma ThirdIsWedged(s: State)
    requires s == State(ByCaller(0), true, [1], [Sending], [Exiting(1)], 3)
    ensures Wedged(s, 0)
  {
  }

  // ---------- What one stop achieves ----------

  /** The way out of loop k. */
  function WayOut(k: nat): seq<Action> { [ReceiveStop(k)] + ([LockLoop(k)] + ([ClearStarted(k)] + ([UnlockLoop(k)] + []))) }

  lemma LoopLeaves(s: State, k: nat)
    requires k < |s.loops| && s.loops[k].Running? && s.lock.NoOne? && s.buffer != []
    ensures Reaches(Next(true), s, WayOut(k), s.(started := false, buffer := s.buffer[1..], loops := s.loops[k := Dead]))
  {
    var t := s.(started := false, buffer := s.buffer[1..], loops := s.loops[k := Dead]);
    assert Reaches(Next(true), t, [], t);
    hide Reaches;
    var n := s.buffer[0];
    var s1 := s.(buffer := s.buffer[1..], loops := s.loops[k := Exiting(n)]);
    var s2 := s1.(lock := ByLoop(k), loops := s.loops[k := Clearing(n)]);
    var s3 := s2.(started := false, loops := s.loops[k := Cleared(n)]);
    assert s1.loops[k := Clearing(n)] == s2.loops && s2.loops[k := Cleared(n)] == s3.loops && s3.loops[k := Dead] == t.loops;
    Then(true, s3, UnlockLoop(k), t, [], t);
    Then(true, s2, ClearStarted(k), s3, [UnlockLoop(k)] + [], t);
    Then(true, s1, LockLoop(k), s2, [ClearStarted(k)] + ([UnlockLoop(k)] + []), t);
    Then(true, s, ReceiveStop(k), s1, [LockLoop(k)] + ([ClearStarted(k)] + ([UnlockLoop(k)] + [])), t);
  }

  /** After any disciplined run that leaves the consumer started, its lock free and its
      loop running, one stop call and the way out of the loop leave it stopped: the loop
      dead, started false, the stop buffer empty, and nothing else changed. */
  lemma StopStopsTheLoop(s0: State, run: seq<Action>, i: nat) returns (more: seq<Action>)
    requires Initial(s0) && Executable(s0, run) && Disciplined(s0, run)
    requires var s := Run(s0, run);
      s.started && s.lock.NoOne? && s.buffer == [] && i < |s.callers| && s.callers[i].Free? && LastLoop(s).Running?
    ensures var s := Run(s0, run);
      && s.loops != []
      && Reaches(Next(true), s, more,
                 s.(started := false, loops := s.loops[|s.loops| - 1 := Dead], stops := s.stops + 1))
  {
    var s := Run(s0, run);
    hide Executable, Run, Disciplined, Reaches;
    var m := s.(buffer := [|s.loops|], stops := s.stops + 1);
    var t := s.(started := false, loops := s.loops[|s.loops| - 1 := Dead], stops := s.stops + 1);
    StopIsSent(s, i);
    LoopLeaves(m, |s.loops| - 1);
    assert m.buffer[1..] == s.buffer;
    Chain(Next(true), s, Stop(i), m, WayOut(|s.loops| - 1), t);
    more := Stop(i) + WayOut(|s.loops| - 1);
  }

  /** A stop call on a consumer that is not started changes nothing. */
  lemma StopOfAStoppedConsumerDoesNothing(s: State, i: nat) returns (run: seq<Action>)
    requires i < |s.callers| && s.callers[i].Free? && s.lock.NoOne? && !s.started
    ensures Reaches(Next(true), s, run, s) && forall j :: 0 <= j < |run| ==> !run[j].Send?
  {
    assert Reaches(Next(true), s, [], s);
    hide Reaches;
    var s1 := Moved(s, i, WantingStop);
    var s2 := Moved(s, i, CheckingStarted).(lock := ByCaller(i));
    var s3 := Moved(s, i, Unlocking).(lock := ByCaller(i));
    assert s1.callers[i := CheckingStarted] == s2.callers && s2.callers[i := Unlocking] == s3.callers;
    assert s3.callers[i := Free] == s.callers;
    Then(true, s3, Unlock(i), s, [], s);
    Then(true, s2, CheckStarted(i), s3, [Unlock(i)] + [], s);
    Then(true, s1, LockStop(i), s2, [CheckStarted(i)] + ([Unlock(i)] + []), s);
    Then(true, s, CallStop(i), s1, [LockStop(i)] + ([CheckStarted(i)] + ([Unlock(i)] + [])), s);
    run := [CallStop(i)] + ([LockStop(i)] + ([CheckStarted(i)] + ([Unlock(i)] + [])));
  }
}
