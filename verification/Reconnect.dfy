/** Double-checked reconnection (connectionhost.go): any number of goroutines share
    one ConnectionHost, check its connection, lock, check again, dial and install;
    others pause on flow control under the same lock; connections drop at any time
    and never reopen. */
module Reconnect {
  import opened Sequences
  import opened Runs

  /** A goroutine's program point. Those from Rechecking on hold connLock. */
  datatype Caller =
    | Outside
    | WantingLock                     // the first check found no open connection
    | WantingPause                    // about to lock in PauseOnFlowControl
    | Rechecking
    | Dialing
    | SettingConnection(dialed: nat)
    | SettingErrors(dialed: nat)
    | SettingBlockers(dialed: nat)
    | Unlocking
    | Pausing

  predicate Critical(k: Caller) { !k.Outside? && !k.WantingLock? && !k.WantingPause? }

  datatype Host = Host(
    connection: Option<nat>,  // ch.Connection: which dialed connection it is
    errors: Option<nat>,      // whose close notifications ch.Errors receives
    blockers: Option<nat>,    // whose flow-control notifications ch.Blockers receives
    lock: Option<nat>,        // which goroutine holds connLock
    callers: seq<Caller>,
    dials: nat,               // connections dialed so far
    dropped: set<nat>,        // connections that have closed
    installed: seq<nat>)      // history: every value assigned to ch.Connection

  datatype Action =
    | FirstCheck(caller: nat)
    | Lock(caller: nat)
    | Recheck(caller: nat)
    | Dial(caller: nat, ok: bool)
    | SetConnection(caller: nat)
    | SetErrors(caller: nat)
    | SetBlockers(caller: nat)
    | Unlock(caller: nat)
    | BeginPause(caller: nat)
    | LockPause(caller: nat)
    | PauseStep(caller: nat, active: bool)   // a blocker that is active keeps it pausing
    | Drop(connection: nat)

  /** ch.Connection != nil && !ch.Connection.IsClosed(). */
  predicate Open(h: Host) { h.connection.Some? && h.connection.value !in h.dropped }

  predicate Enabled(h: Host, a: Action)
  {
    if a.Drop? then a.connection < h.dials && a.connection !in h.dropped
    else
      a.caller < |h.callers| &&
      var k := h.callers[a.caller];
      match a
      case FirstCheck(_) => k.Outside?
      case Lock(_) => k.WantingLock? && h.lock.None?
      case Recheck(_) => k.Rechecking?
      case Dial(_, _) => k.Dialing?
      case SetConnection(_) => k.SettingConnection?
      case SetErrors(_) => k.SettingErrors?
      case SetBlockers(_) => k.SettingBlockers?
      case Unlock(_) => k.Unlocking?
      case BeginPause(_) => k.Outside? && h.connection.Some?
      case LockPause(_) => k.WantingPause? && h.lock.None?
      case PauseStep(_, _) => k.Pausing?
  }

  function Moved(h: Host, i: nat, k: Caller): Host
    requires i < |h.callers|
  {
    h.(callers := h.callers[i := k])
  }

  function Do(h: Host, a: Action): Host
    requires Enabled(h, a)
  {
    match a
    case FirstCheck(i) => if Open(h) then h else Moved(h, i, WantingLock)
    case Lock(i) => Moved(h, i, Rechecking).(lock := Some(i))
    case Recheck(i) => Moved(h, i, if Open(h) then Unlocking else Dialing)
    case Dial(i, ok) =>
      if ok then Moved(h, i, SettingConnection(h.dials)).(dials := h.dials + 1) else Moved(h, i, Unlocking)
    case SetConnection(i) =>
      var n := h.callers[i].dialed;
      Moved(h, i, SettingErrors(n)).(connection := Some(n), installed := h.installed + [n])
    case SetErrors(i) => Moved(h, i, SettingBlockers(h.callers[i].dialed)).(errors := Some(h.callers[i].dialed))
    case SetBlockers(i) => Moved(h, i, Unlocking).(blockers := Some(h.callers[i].dialed))
    case Unlock(i) => Moved(h, i, Outside).(lock := None)
    case BeginPause(i) => Moved(h, i, WantingPause)
    case LockPause(i) => Moved(h, i, Pausing).(lock := Some(i))
    case PauseStep(i, active) => if Open(h) && active then h else Moved(h, i, Outside).(lock := None)
    case Drop(n) => h.(dropped := h.dropped + {n})
  }

  ghost predicate Initial(h: Host)
  {
    && h.connection.None? && h.errors.None? && h.blockers.None? && h.lock.None?
    && h.dials == 0 && h.dropped == {} && h.installed == []
    && (forall i :: 0 <= i < |h.callers| ==> h.callers[i].Outside?)
  }

  predicate Executable(h: Host, run: seq<Action>)
    decreases |run|
  {
    run == [] || (Enabled(h, run[0]) && Executable(Do(h, run[0]), run[1..]))
  }

  function Run(h: Host, run: seq<Action>): Host
    requires Executable(h, run)
    decreases |run|
  {
    if run == [] then h else Run(Do(h, run[0]), run[1..])
  }

  // ---------- The invariant ----------

  /** The lock is held exactly by the goroutine inside. */
  ghost predicate Locked(h: Host)
  {
    && (forall i :: 0 <= i < |h.callers| && Critical(h.callers[i]) ==> h.lock == Some(i))
    && (h.lock.Some? ==> h.lock.value < |h.callers| && Critical(h.callers[h.lock.value]))
  }

  /** Distinct connections are installed, each after the previous one has closed. */
  ghost predicate Replaced(h: Host)
  {
    && h.connection == (if h.installed == [] then None else Some(h.installed[|h.installed| - 1]))
    && (forall k :: 0 <= k < |h.installed| ==> h.installed[k] < h.dials)
    && (forall j, k :: 0 <= j < k < |h.installed| ==> h.installed[j] < h.installed[k])
    && (forall k :: 0 <= k < |h.installed| - 1 ==> h.installed[k] in h.dropped)
    && (forall n :: n in h.dropped ==> n < h.dials)
  }

  /** What the goroutine inside knows. */
  ghost predicate Inside(h: Host, k: Caller)
  {
    match k
    case Dialing => !Open(h)
    case SettingConnection(n) =>
      !Open(h) && n + 1 == h.dials && (forall j :: 0 <= j < |h.installed| ==> h.installed[j] < n)
    case SettingErrors(n) => h.connection == Some(n)
    case SettingBlockers(n) => h.connection == Some(n) && h.errors == Some(n)
    case _ => true
  }

  /** Outside an installation the notification channels belong to the connection. */
  ghost predicate Matched(h: Host)
  {
    (h.lock.Some? && h.lock.value < |h.callers|
     && (h.callers[h.lock.value].SettingErrors? || h.callers[h.lock.value].SettingBlockers?))
    || (h.errors == h.connection && h.blockers == h.connection)
  }

  ghost predicate Inv(h: Host)
  {
    Locked(h) && Replaced(h) && Matched(h) && forall i :: 0 <= i < |h.callers| ==> Inside(h, h.callers[i])
  }

  lemma StepKeepsLocked(h: Host, a: Action)
    requires Locked(h) && Enabled(h, a)
    ensures Locked(Do(h, a))
  {
  }

  lemma StepKeepsReplaced(h: Host, a: Action)
    requires Inv(h) && Enabled(h, a)
    ensures Replaced(Do(h, a))
  {
    if !a.Drop? {
      assert Inside(h, h.callers[a.caller]);
    }
  }

  lemma StepKeepsInside(h: Host, a: Action)
    requires Inv(h) && Enabled(h, a)
    ensures forall i :: 0 <= i < |Do(h, a).callers| ==> Inside(Do(h, a), Do(h, a).callers[i])
  {
    if !a.Drop? {
      assert Inside(h, h.callers[a.caller]);
    }
  }

  lemma StepKeepsMatched(h: Host, a: Action)
    requires Inv(h) && Enabled(h, a)
    ensures Matched(Do(h, a))
  {
    if !a.Drop? {
      assert Inside(h, h.callers[a.caller]);
    }
  }

  lemma {:induction false} RunKeepsInv(h: Host, run: seq<Action>)
    requires Inv(h) && Executable(h, run)
    ensures Inv(Run(h, run))
    decreases |run|
  {
    if run != [] {
      StepKeepsLocked(h, run[0]);
      StepKeepsReplaced(h, run[0]);
      StepKeepsInside(h, run[0]);
      StepKeepsMatched(h, run[0]);
      RunKeepsInv(Do(h, run[0]), run[1..]);
    }
  }

  // ---------- The theorems ----------

  /** No interleaving of any number of callers overwrites an open connection. */
  lemma OpenConnectionIsNeverOverwritten(h: Host, run: seq<Action>, a: Action)
    requires Initial(h) && Executable(h, run) && Enabled(Run(h, run), a)
    ensures Open(Run(h, run)) ==>
      Do(Run(h, run), a).connection == Run(h, run).connection && Do(Run(h, run), a).installed == Run(h, run).installed
  {
    RunKeepsInv(h, run);
    var h' := Run(h, run);
    if !a.Drop? {
      assert Inside(h', h'.callers[a.caller]);
    }
  }

  function Elements(xs: seq<nat>): set<nat> { set x | x in xs }

  lemma {:induction false} DistinctSize(xs: seq<nat>)
    requires forall j, k :: 0 <= j < k < |xs| ==> xs[j] < xs[k]
    ensures |Elements(xs)| == |xs|
  {
    if xs != [] {
      var n := |xs| - 1;
      var front := xs[..n];
      DistinctSize(front);
      assert xs == front + [xs[n]];
      assert Elements(xs) == Elements(front) + {xs[n]};
      assert xs[n] !in front;
    }
  }

  lemma SubsetSize(a: set<nat>, b: set<nat>)
    requires a <= b
    ensures |a| <= |b|
  {
    assert b == a + (b - a);
  }

  /** At most one installed connection has not closed: installations never exceed
      one plus the installed connections that have closed. */
  lemma InstalledBound(h: Host, run: seq<Action>)
    requires Initial(h) && Executable(h, run)
    ensures var h' := Run(h, run);
      |h'.installed| <= 1 + |Elements(h'.installed) * h'.dropped|
  {
    RunKeepsInv(h, run);
    var h' := Run(h, run);
    if h'.installed != [] {
      var earlier := h'.installed[..|h'.installed| - 1];
      DistinctSize(earlier);
      forall n | n in Elements(earlier) ensures n in Elements(h'.installed) * h'.dropped {
        var k :| 0 <= k < |earlier| && earlier[k] == n;
        assert h'.installed[k] == n;
      }
      SubsetSize(Elements(earlier), Elements(h'.installed) * h'.dropped);
    }
  }

  /** While someone pauses on flow control under the lock, nobody installs, and
      the notifications it reads are those of the current connection. */
  lemma PausingIsUndisturbed(h: Host, run: seq<Action>, i: nat)
    requires Initial(h) && Executable(h, run)
    requires i < |Run(h, run).callers| && Run(h, run).callers[i].Pausing?
    ensures var h' := Run(h, run);
      && h'.blockers == h'.connection && h'.errors == h'.connection
      && forall j :: 0 <= j < |h'.callers| && j != i ==> !Critical(h'.callers[j])
  {
    RunKeepsInv(h, run);
  }

  // ---------- What a reconnect achieves ----------

  function Next(h: Host, a: Action): Option<Host> { if Enabled(h, a) then Some(Do(h, a)) else None }

  /** A caller alone, up to and including its dial. */
  function CheckAndDial(i: nat, ok: bool): seq<Action> { [FirstCheck(i)] + ([Lock(i)] + ([Recheck(i)] + ([Dial(i, ok)] + []))) }

  function Install(i: nat): seq<Action> { [SetConnection(i)] + ([SetErrors(i)] + ([SetBlockers(i)] + ([Unlock(i)] + []))) }

  lemma ChecksAndDials(h: Host, i: nat, ok: bool)
    requires i < |h.callers| && h.callers[i].Outside? && h.lock.None? && !Open(h)
    ensures var k := if ok then SettingConnection(h.dials) else Unlocking;
      Reaches(Next, h, CheckAndDial(i, ok),
              h.(callers := h.callers[i := k], lock := Some(i), dials := if ok then h.dials + 1 else h.dials))
  {
    var k := if ok then SettingConnection(h.dials) else Unlocking;
    var t := h.(callers := h.callers[i := k], lock := Some(i), dials := if ok then h.dials + 1 else h.dials);
    assert Reaches(Next, t, [], t);
    hide Reaches;
    var h1 := Moved(h, i, WantingLock);
    var h2 := Moved(h, i, Rechecking).(lock := Some(i));
    var h3 := Moved(h, i, Dialing).(lock := Some(i));
    assert h1.callers[i := Rechecking] == h2.callers && h2.callers[i := Dialing] == h3.callers;
    assert h3.callers[i := k] == t.callers;
    First(Next, h3, Dial(i, ok), t, [], t);
    First(Next, h2, Recheck(i), h3, [Dial(i, ok)] + [], t);
    First(Next, h1, Lock(i), h2, [Recheck(i)] + ([Dial(i, ok)] + []), t);
    First(Next, h, FirstCheck(i), h1, [Lock(i)] + ([Recheck(i)] + ([Dial(i, ok)] + [])), t);
  }

  lemma Installs(h: Host, i: nat, n: nat)
    requires i < |h.callers| && h.callers[i] == SettingConnection(n)
    ensures Reaches(Next, h, Install(i),
                    h.(callers := h.callers[i := Outside], lock := None, connection := Some(n), errors := Some(n),
                       blockers := Some(n), installed := h.installed + [n]))
  {
    var t := h.(callers := h.callers[i := Outside], lock := None, connection := Some(n), errors := Some(n),
                blockers := Some(n), installed := h.installed + [n]);
    assert Reaches(Next, t, [], t);
    hide Reaches;
    var h1 := Moved(h, i, SettingErrors(n)).(connection := Some(n), installed := h.installed + [n]);
    var h2 := Moved(h1, i, SettingBlockers(n)).(errors := Some(n));
    var h3 := Moved(h2, i, Unlocking).(blockers := Some(n));
    assert h3.callers[i := Outside] == t.callers;
    First(Next, h3, Unlock(i), t, [], t);
    First(Next, h2, SetBlockers(i), h3, [Unlock(i)] + [], t);
    First(Next, h1, SetErrors(i), h2, [SetBlockers(i)] + ([Unlock(i)] + []), t);
    First(Next, h, SetConnection(i), h1, [SetErrors(i)] + ([SetBlockers(i)] + ([Unlock(i)] + [])), t);
  }

  /** After any run that leaves the connection closed and the lock free, a caller whose
      dial succeeds leaves the host open, with connection, close notifications and flow
      control all of the newly dialed connection; nothing else has changed. */
  lemma ReconnectConnects(h0: Host, run: seq<Action>, i: nat)
    requires Initial(h0) && Executable(h0, run)
    requires var h := Run(h0, run); i < |h.callers| && h.callers[i].Outside? && h.lock.None? && !Open(h)
    ensures var h := Run(h0, run);
      var t := h.(connection := Some(h.dials), errors := Some(h.dials), blockers := Some(h.dials),
                  dials := h.dials + 1, installed := h.installed + [h.dials]);
      Open(t) && Reaches(Next, h, CheckAndDial(i, true) + Install(i), t)
  {
    RunKeepsInv(h0, run);
    var h := Run(h0, run);
    var m := h.(callers := h.callers[i := SettingConnection(h.dials)], lock := Some(i), dials := h.dials + 1);
    var t := h.(connection := Some(h.dials), errors := Some(h.dials), blockers := Some(h.dials),
                dials := h.dials + 1, installed := h.installed + [h.dials]);
    hide Reaches, Executable, Run, Do, Enabled;
    ChecksAndDials(h, i, true);
    Installs(m, i, h.dials);
    assert m.callers[i := Outside] == h.callers;
    Chain(Next, h, CheckAndDial(i, true), m, Install(i), t);
  }

  /** A caller whose dial fails leaves the host exactly as it was. */
  lemma FailedDialChangesNothing(h: Host, i: nat)
    requires i < |h.callers| && h.callers[i].Outside? && h.lock.None? && !Open(h)
    ensures Reaches(Next, h, CheckAndDial(i, false) + [Unlock(i)], h)
  {
    var m := h.(callers := h.callers[i := Unlocking], lock := Some(i));
    ChecksAndDials(h, i, false);
    assert m.callers[i := Outside] == h.callers;
    One(Next, m, Unlock(i), h);
    hide Reaches;
    Chain(Next, h, CheckAndDial(i, false), m, [Unlock(i)], h);
  }

  /** A caller that finds the connection open leaves it alone without locking. */
  lemma OpenIsLeftAlone(h: Host, i: nat)
    requires i < |h.callers| && h.callers[i].Outside? && Open(h)
    ensures Reaches(Next, h, [FirstCheck(i)], h)
  {
    One(Next, h, FirstCheck(i), h);
  }

  /** How many dials of a run succeeded. */
  function SuccessfulDials(run: seq<Action>): nat
  {
    if run == [] then 0 else SuccessfulDials(run[1..]) + if run[0].Dial? && run[0].ok then 1 else 0
  }

  lemma {:induction false} DialsAreCounted(h: Host, run: seq<Action>)
    requires Executable(h, run)
    ensures Run(h, run).dials == h.dials + SuccessfulDials(run) && |Run(h, run).callers| == |h.callers|
    decreases |run|
  {
    if run != [] {
      DialsAreCounted(Do(h, run[0]), run[1..]);
    }
  }

  /** A dialed connection waits to be installed. */
  predicate Installing(h: Host) { h.lock.Some? && h.lock.value < |h.callers| && h.callers[h.lock.value].SettingConnection? }

  /** Every dialed connection has been installed, in the order of the dials, but for one
      that its caller is about to install. */
  ghost predicate AllInstalled(h: Host) { h.installed == Upto(if Installing(h) && h.dials > 0 then h.dials - 1 else h.dials) }

  lemma StepInstallsAll(h: Host, a: Action)
    requires Inv(h) && AllInstalled(h) && Enabled(h, a)
    ensures AllInstalled(Do(h, a))
  {
    if !a.Drop? {
      assert Inside(h, h.callers[a.caller]);
    }
    if a.SetConnection? {
      assert Upto(h.dials - 1) + [h.dials - 1] == Upto(h.dials);
    }
  }

  lemma {:induction false} RunInstallsAll(h: Host, run: seq<Action>)
    requires Inv(h) && AllInstalled(h) && Executable(h, run)
    ensures AllInstalled(Run(h, run))
    decreases |run|
  {
    if run != [] {
      StepInstallsAll(h, run[0]);
      RunKeepsInv(h, [run[0]]);
      assert Run(h, [run[0]]) == Do(h, run[0]) by { assert [run[0]][1..] == []; }
      RunInstallsAll(Do(h, run[0]), run[1..]);
    }
  }

  /** Over every run, the connections installed are exactly those dialed successfully,
      each once and in the order of the dials, but for one still being installed under
      the lock; and the connection in use is the one installed last. */
  lemma EveryDialIsInstalled(h: Host, run: seq<Action>)
    requires Initial(h) && Executable(h, run)
    ensures var h' := Run(h, run); var n := SuccessfulDials(run);
      && (Installing(h') ==> n > 0)
      && h'.installed == Upto(if Installing(h') then n - 1 else n)
      && h'.connection == (if h'.installed == [] then None else Some(|h'.installed| - 1))
  {
    RunKeepsInv(h, run);
    RunInstallsAll(h, run);
    DialsAreCounted(h, run);
    var h' := Run(h, run);
    if Installing(h') {
      assert Inside(h', h'.callers[h'.lock.value]);
    }
  }

  /** Nobody is past the second check with a connection to replace. */
  predicate Settled(h: Host)
  {
    Open(h) && forall j :: 0 <= j < |h.callers| ==> !h.callers[j].Dialing? && !h.callers[j].SettingConnection?
  }

  /** Once one caller has reconnected, all who waited for the lock find the connection
      open: until it drops nobody dials and nobody installs. */
  lemma {:induction false} WaitersDoNotDial(h: Host, run: seq<Action>)
    requires Settled(h) && Executable(h, run)
    requires forall j :: 0 <= j < |run| ==> run[j] != Drop(h.connection.value)
    ensures SuccessfulDials(run) == 0 && (forall j :: 0 <= j < |run| ==> !run[j].Dial?)
    ensures Settled(Run(h, run)) && Run(h, run).connection == h.connection && Run(h, run).installed == h.installed
    decreases |run|
  {
    if run != [] {
      var a, rest := run[0], run[1..];
      assert forall j :: 0 <= j < |rest| ==> rest[j] == run[j + 1];
      assert !a.Dial?;
      WaitersDoNotDial(Do(h, a), rest);
      assert forall j :: 0 < j < |run| ==> run[j] == rest[j - 1];
    }
  }

  /** Whoever holds the lock can go on, so the lock is never held by a blocked caller. */
  lemma HolderGoesOn(h: Host, run: seq<Action>) returns (a: Action)
    requires Initial(h) && Executable(h, run) && Run(h, run).lock.Some?
    ensures !a.Drop? && Enabled(Run(h, run), a) && a.caller == Run(h, run).lock.value
  {
    RunKeepsInv(h, run);
    var h' := Run(h, run);
    var i := h'.lock.value;
    a := match h'.callers[i]
      case Rechecking => Recheck(i)
      case Dialing => Dial(i, true)
      case SettingConnection(_) => SetConnection(i)
      case SettingErrors(_) => SetErrors(i)
      case SettingBlockers(_) => SetBlockers(i)
      case Unlocking => Unlock(i)
      case _ => PauseStep(i, false);
  }

  // ---------- What pausing and dropping do ----------

  /** Flow-control notifications that say the broker still blocks. */
  function Blocked(i: nat, n: nat): seq<Action> { if n == 0 then [] else [PauseStep(i, true)] + Blocked(i, n - 1) }

  lemma {:induction false} StaysPaused(h: Host, i: nat, n: nat)
    requires i < |h.callers| && h.callers[i].Pausing? && Open(h)
    ensures Reaches(Next, h, Blocked(i, n), h)
  {
    if n > 0 {
      StaysPaused(h, i, n - 1);
      First(Next, h, PauseStep(i, true), h, Blocked(i, n - 1), h);
    }
  }

  /** On an open connection a caller that pauses holds the lock as long as the broker
      blocks, and gives it back with the host as it was once it does not; on a closed
      one it does so at once, whatever the notification says. */
  lemma PausesWhileBlocked(h: Host, i: nat, n: nat, active: bool)
    requires i < |h.callers| && h.callers[i].Outside? && h.lock.None? && h.connection.Some?
    ensures var m := h.(callers := h.callers[i := Pausing], lock := Some(i));
      && (Open(h) ==> Reaches(Next, h, [BeginPause(i)] + ([LockPause(i)] + Blocked(i, n)), m))
      && (!Open(h) || !active ==> Reaches(Next, m, [PauseStep(i, active)], h))
  {
    var m := h.(callers := h.callers[i := Pausing], lock := Some(i));
    var h1 := Moved(h, i, WantingPause);
    assert h1.callers[i := Pausing] == m.callers && m.callers[i := Outside] == h.callers;
    if Open(h) {
      StaysPaused(m, i, n);
      hide Reaches;
      First(Next, h1, LockPause(i), m, Blocked(i, n), m);
      First(Next, h, BeginPause(i), h1, [LockPause(i)] + Blocked(i, n), m);
    }
    if !Open(h) || !active {
      One(Next, m, PauseStep(i, active), h);
    }
  }

  /** Over every run the closed connections are those that dropped; none ever reopens. */
  lemma {:induction false} DroppedForGood(h: Host, run: seq<Action>)
    requires Executable(h, run)
    ensures forall n: nat :: n in Run(h, run).dropped <==> n in h.dropped || Drop(n) in run
    decreases |run|
  {
    if run != [] {
      DroppedForGood(Do(h, run[0]), run[1..]);
      assert run == [run[0]] + run[1..];
    }
  }
}
