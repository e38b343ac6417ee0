/** The connection queue and the flag map of the pool (connectionpool.go) under any
    interleaving of goroutines that get and return connections. */
module FlagSafety {
  import opened Sequences

  /** A goroutine in GetConnection, holding a connection, or in ReturnConnection.
      `owned` is false for reconnectChannel, which verifies a connection it has
      not taken from the queue. `since` is when its recovery pass began. */
  datatype Caller =
    | Idle
    | Taken(id: nat, owned: bool)
    | Polled(id: nat, owned: bool, healthy: bool)
    | Connecting(id: nat, owned: bool, since: nat)
    | Flushing(id: nat, owned: bool, since: nat)
    | Unflagging(id: nat, owned: bool, since: nat)
    | Pausing(id: nat, owned: bool)
    | Held(id: nat)
    | Putting(id: nat)

  /** A recovery pass is complete when the flag is cleared; `since` is when it began. */
  datatype Event = Flagged(id: nat) | Recovered(id: nat, since: nat) | HandedOut(id: nat)

  datatype State = State(
    queue: seq<nat>,          // cp.connections, by ConnectionID
    flags: map<nat, bool>,    // cp.flaggedConnections
    open: seq<bool>,          // whether each connection is open
    errors: seq<nat>,         // how many notifications each Errors channel buffers; the
                              // channel is closed when its connection is
    callers: seq<Caller>,
    log: seq<Event>)          // history

  datatype Action =
    | Get(caller: nat)
    | BeginReconnect(caller: nat, id: nat)
    | PollErrors(caller: nat)
    | CheckHealth(caller: nat)
    | Connect(caller: nat, ok: bool)
    | Flush(caller: nat)
    | Unflag(caller: nat)
    | PauseDone(caller: nat)
    | Flag(caller: nat)
    | ReturnUnflagged(caller: nat)
    | Put(caller: nat)
    | Drop(id: nat)           // the connection closes and says so

  predicate IsFlagged(s: State, id: nat) { id in s.flags && s.flags[id] }

  predicate Known(s: State, k: Caller) { k.Idle? || (k.id < |s.open| && k.id < |s.errors|) }

  predicate Enabled(s: State, a: Action)
  {
    if a.Drop? then a.id < |s.open| && a.id < |s.errors| && s.open[a.id]
    else
      a.caller < |s.callers| && Known(s, s.callers[a.caller]) &&
      var k := s.callers[a.caller];
      match a
      case Get(_) => k.Idle? && s.queue != []
      case BeginReconnect(_, id) => k.Idle? && id < |s.open| && id < |s.errors|
      case PollErrors(_) => k.Taken?
      case CheckHealth(_) => k.Polled?
      case Connect(_, _) => k.Connecting?
      case Flush(_) => k.Flushing?
      case Unflag(_) => k.Unflagging?
      case PauseDone(_) => k.Pausing?
      case Flag(_) => k.Held?
      case ReturnUnflagged(_) => k.Held?
      case Put(_) => k.Putting?
  }

  function Moved(s: State, i: nat, k: Caller): State
    requires i < |s.callers|
  {
    s.(callers := s.callers[i := k])
  }

  /** A receive from the Errors channel of a closed connection always yields: the poll
      takes it for a notification, and the flush goes on until somebody redials. */
  function Do(s: State, a: Action): State
    requires Enabled(s, a)
  {
    match a
    case Get(i) => Moved(s, i, Taken(s.queue[0], true)).(queue := s.queue[1..])
    case BeginReconnect(i, id) => Moved(s, i, Taken(id, false))
    case PollErrors(i) =>
      var k := s.callers[i];
      var n := s.errors[k.id];
      Moved(s, i, Polled(k.id, k.owned, n == 0 && s.open[k.id])).(errors := s.errors[k.id := if n == 0 then 0 else n - 1])
    case CheckHealth(i) =>
      var k := s.callers[i];
      Moved(s, i, if IsFlagged(s, k.id) || !k.healthy || !s.open[k.id]
                  then Connecting(k.id, k.owned, |s.log|) else Pausing(k.id, k.owned))
    case Connect(i, ok) =>
      var k := s.callers[i];
      if s.open[k.id] then Moved(s, i, Flushing(k.id, k.owned, k.since))
      else if ok then
        Moved(s, i, Flushing(k.id, k.owned, k.since)).(open := s.open[k.id := true], errors := s.errors[k.id := 0])
      else s
    case Flush(i) =>
      var k := s.callers[i];
      if s.errors[k.id] > 0 then s.(errors := s.errors[k.id := s.errors[k.id] - 1])
      else if !s.open[k.id] then s
      else Moved(s, i, Unflagging(k.id, k.owned, k.since))
    case Unflag(i) =>
      var k := s.callers[i];
      Moved(s, i, Pausing(k.id, k.owned)).(flags := s.flags[k.id := false], log := s.log + [Recovered(k.id, k.since)])
    case PauseDone(i) =>
      var k := s.callers[i];
      if k.owned then Moved(s, i, Held(k.id)).(log := s.log + [HandedOut(k.id)]) else Moved(s, i, Idle)
    case Flag(i) =>
      var id := s.callers[i].id;
      Moved(s, i, Putting(id)).(flags := s.flags[id := true], log := s.log + [Flagged(id)])
    case ReturnUnflagged(i) => Moved(s, i, Putting(s.callers[i].id))
    case Put(i) => Moved(s, i, Idle).(queue := s.queue + [s.callers[i].id])
    case Drop(id) => s.(open := s.open[id := false], errors := s.errors[id := s.errors[id] + 1])
  }

  ghost predicate Initial(s: State)
  {
    && |s.open| == |s.errors| && s.queue == Upto(|s.open|)
    && (forall id :: 0 <= id < |s.open| ==> s.open[id] && s.errors[id] == 0)
    && s.flags == map[] && s.log == []
    && (forall i :: 0 <= i < |s.callers| ==> s.callers[i].Idle?)
  }

  predicate Executable(s: State, run: seq<Action>)
    decreases |run|
  {
    run == [] || (Enabled(s, run[0]) && Executable(Do(s, run[0]), run[1..]))
  }

  function Run(s: State, run: seq<Action>): State
    requires Executable(s, run)
    decreases |run|
  {
    if run == [] then s else Run(Do(s, run[0]), run[1..])
  }

  // ---------- What a log must satisfy ----------

  /** One past the position of the last time the connection was flagged; 0 if never. */
  function LastFlag(log: seq<Event>, id: nat): (n: nat)
    ensures n <= |log|
  {
    if log == [] then 0
    else if log[|log| - 1] == Flagged(id) then |log|
    else LastFlag(log[..|log| - 1], id)
  }

  /** The latest beginning of a completed recovery pass on the connection. */
  function LastPass(log: seq<Event>, id: nat): nat
  {
    if log == [] then 0
    else
      var n := LastPass(log[..|log| - 1], id);
      var e := log[|log| - 1];
      if e.Recovered? && e.id == id && e.since > n then e.since else n
  }

  /** Flagged, and no recovery pass begun since then has been completed. */
  predicate Dirty(log: seq<Event>, id: nat) { LastPass(log, id) < LastFlag(log, id) }

  /** No connection is handed out dirty. */
  predicate SafeLog(log: seq<Event>)
  {
    log == [] ||
    (SafeLog(log[..|log| - 1]) &&
     (log[|log| - 1].HandedOut? ==> !Dirty(log[..|log| - 1], log[|log| - 1].id)))
  }

  lemma LogNext(log: seq<Event>, e: Event, id: nat)
    ensures LastFlag(log + [e], id) == if e == Flagged(id) then |log| + 1 else LastFlag(log, id)
    ensures LastPass(log + [e], id) ==
      if e.Recovered? && e.id == id && e.since > LastPass(log, id) then e.since else LastPass(log, id)
    ensures SafeLog(log + [e]) <==> SafeLog(log) && (e.HandedOut? ==> !Dirty(log, e.id))
  {
    assert (log + [e])[..|log|] == log;
  }

  // ---------- Invariants ----------

  function Has(id: nat): Caller -> nat
  {
    (k: Caller) => if k.Idle? || k.id != id || (!k.Held? && !k.Putting? && !k.owned) then 0 else 1
  }

  /** How often the connection is in the queue or in somebody's hands. */
  function Copies(s: State, id: nat): nat { Sum(s.queue, Is(id)) + Sum(s.callers, Has(id)) }

  ghost predicate Owned(s: State)
  {
    && |s.open| == |s.errors|
    && (forall id: nat :: Copies(s, id) == if id < |s.open| then 1 else 0)
    && (forall i :: 0 <= i < |s.callers| ==> Known(s, s.callers[i]))
  }

  /** The goroutine has the connection to itself. */
  predicate Owns(k: Caller) { k.Held? || k.Putting? || (!k.Idle? && k.owned) }

  /** What a goroutine knows about the connection it owns. */
  ghost predicate Knows(s: State, k: Caller)
  {
    match k
    case Connecting(id, owned, since) => owned ==> LastFlag(s.log, id) <= since
    case Flushing(id, owned, since) => owned ==> LastFlag(s.log, id) <= since
    case Unflagging(id, owned, since) => owned ==> LastFlag(s.log, id) <= since
    case Pausing(id, owned) => owned ==> !Dirty(s.log, id)
    case _ => true
  }

  /** Every dirty connection is flagged. */
  ghost predicate Truthful(s: State) { forall id: nat :: Dirty(s.log, id) ==> IsFlagged(s, id) }

  ghost predicate Inv(s: State)
  {
    && Owned(s) && SafeLog(s.log) && Truthful(s)
    && (forall i :: 0 <= i < |s.callers| ==> Knows(s, s.callers[i]))
  }

  /** The step clears the flag of a dirty connection, flagged after its own recovery
      pass began. */
  predicate Stale(s: State, a: Action)
    requires Enabled(s, a)
  {
    a.Unflag? &&
    var k := s.callers[a.caller];
    Dirty(s.log, k.id) && k.since < LastFlag(s.log, k.id)
  }

  predicate NoStalePass(s: State, run: seq<Action>)
    requires Executable(s, run)
    decreases |run|
  {
    run == [] || (!Stale(s, run[0]) && NoStalePass(Do(s, run[0]), run[1..]))
  }

  lemma InitialInv(s: State)
    requires Initial(s)
    ensures Inv(s)
  {
    forall id: nat ensures Copies(s, id) == if id < |s.open| then 1 else 0 {
      CountUpto(|s.open|, id);
      SumZero(s.callers, Has(id));
    }
  }

  /** A connection is in one pair of hands at most. */
  lemma OneOwner(s: State, i: nat, j: nat)
    requires Owned(s) && i < |s.callers| && j < |s.callers| && i != j
    requires Owns(s.callers[i]) && Owns(s.callers[j])
    ensures s.callers[i].id != s.callers[j].id
  {
    var id := s.callers[i].id;
    assert Copies(s, id) <= 1;
    SumUpdate(s.callers, i, Idle, Has(id));
    SumPart(s.callers[i := Idle], j, Has(id));
  }

  lemma StepCopies(s: State, a: Action, id: nat)
    requires Enabled(s, a) && Known(s, if a.Drop? then Idle else s.callers[a.caller])
    ensures Copies(Do(s, a), id) == Copies(s, id)
  {
    hide Sum;
    if !a.Drop? {
      SumUpdate(s.callers, a.caller, Do(s, a).callers[a.caller], Has(id));
      if a.Get? {
        SumTail(s.queue, Is(id));
      } else if a.Put? {
        SumAppend(s.queue, s.callers[a.caller].id, Is(id));
      }
    }
  }

  lemma QueueIsKnown(s: State, q: nat)
    requires Owned(s) && q < |s.queue|
    ensures s.queue[q] < |s.open|
  {
    SumPart(s.queue, q, Is(s.queue[q]));
    assert Copies(s, s.queue[q]) > 0;
  }

  lemma StepKeepsOwned(s: State, a: Action)
    requires Owned(s) && Enabled(s, a)
    ensures Owned(Do(s, a))
  {
    forall id: nat ensures Copies(Do(s, a), id) == if id < |Do(s, a).open| then 1 else 0 {
      StepCopies(s, a, id);
      assert Copies(s, id) == if id < |s.open| then 1 else 0;
    }
    if a.Get? {
      QueueIsKnown(s, 0);
    }
  }

  /** Nobody but its owner flags a connection. */
  lemma StepKeepsKnowledge(s: State, a: Action, j: nat)
    requires Inv(s) && Enabled(s, a) && j < |s.callers|
    ensures Knows(Do(s, a), Do(s, a).callers[j])
  {
    hide Sum, LastFlag, LastPass, SafeLog;
    var s' := Do(s, a);
    var k := s'.callers[j];
    if s'.log != s.log && Owns(k) {
      LogNext(s.log, s'.log[|s.log|], k.id);
      if a.caller != j && a.Flag? {
        OneOwner(s, a.caller, j);
      }
    }
    if !a.Drop? {
      assert Knows(s, s.callers[a.caller]);
    }
  }

  /** The flags stay truthful exactly as long as no stale pass clears one. */
  lemma TruthfulExactly(s: State, a: Action)
    requires Inv(s) && Enabled(s, a)
    ensures Truthful(Do(s, a)) <==> !Stale(s, a)
  {
    hide Sum, LastFlag, LastPass, SafeLog;
    var s' := Do(s, a);
    forall id: nat ensures Dirty(s'.log, id) && !IsFlagged(s', id) ==> Stale(s, a) {
      if s'.log != s.log {
        LogNext(s.log, s'.log[|s.log|], id);
      }
      assert Dirty(s.log, id) ==> IsFlagged(s, id);
    }
    if Stale(s, a) {
      var id := s.callers[a.caller].id;
      LogNext(s.log, s'.log[|s.log|], id);
      assert Dirty(s'.log, id) && !IsFlagged(s', id);
    }
  }

  lemma StepKeepsLog(s: State, a: Action)
    requires Inv(s) && Enabled(s, a)
    ensures SafeLog(Do(s, a).log)
  {
    hide Sum, LastFlag, LastPass, SafeLog;
    if Do(s, a).log != s.log {
      LogNext(s.log, Do(s, a).log[|s.log|], 0);
      assert Knows(s, s.callers[a.caller]);
    }
  }

  lemma StepKeepsInv(s: State, a: Action)
    requires Inv(s) && Enabled(s, a) && !Stale(s, a)
    ensures Inv(Do(s, a))
  {
    StepKeepsOwned(s, a);
    forall j | 0 <= j < |s.callers| ensures Knows(Do(s, a), Do(s, a).callers[j]) { StepKeepsKnowledge(s, a, j); }
    hide Sum, Owned, Truthful, Knows, SafeLog;
    TruthfulExactly(s, a);
    StepKeepsLog(s, a);
  }

  lemma {:induction false} RunKeepsInv(s: State, run: seq<Action>)
    requires Inv(s) && Executable(s, run) && NoStalePass(s, run)
    ensures Inv(Run(s, run))
    decreases |run|
  {
    hide Inv, Enabled, Do, Stale;
    if run != [] {
      StepKeepsInv(s, run[0]);
      RunKeepsInv(Do(s, run[0]), run[1..]);
    }
  }

  lemma {:induction false} RunKeepsOwned(s: State, run: seq<Action>)
    requires Owned(s) && Executable(s, run)
    ensures Owned(Run(s, run)) && |Run(s, run).open| == |s.open|
    decreases |run|
  {
    hide Owned;
    if run != [] {
      StepKeepsOwned(s, run[0]);
      RunKeepsOwned(Do(s, run[0]), run[1..]);
    }
  }

  /** Whatever interleaving of getters, returners and channel reconnects runs,
      pooled plus held connections are exactly 0..N-1, each once. */
  lemma PooledPlusHeld(s: State, run: seq<Action>, id: nat)
    requires Initial(s) && Executable(s, run)
    ensures Copies(Run(s, run), id) == if id < |s.open| then 1 else 0
  {
    hide Sum;
    InitialInv(s);
    RunKeepsOwned(s, run);
    assert Copies(Run(s, run), id) == if id < |Run(s, run).open| then 1 else 0;
  }

  /** As long as no stale recovery pass clears a flag, no connection returned flagged
      is handed out before a full recovery pass begun after it was flagged. */
  lemma FlaggedConnectionsAreRecovered(s: State, run: seq<Action>)
    requires Initial(s) && Executable(s, run) && NoStalePass(s, run)
    ensures SafeLog(Run(s, run).log)
  {
    InitialInv(s);
    RunKeepsInv(s, run);
  }

  // ---------- Flagging quietly ----------

  predicate Recovering(k: Caller) { k.Connecting? || k.Flushing? || k.Unflagging? }

  /** Somebody is in a recovery pass on the connection. */
  predicate RecoveredBySomeone(s: State, id: nat)
  {
    exists j :: 0 <= j < |s.callers| && Recovering(s.callers[j]) && s.callers[j].id == id
  }

  /** Every flag is set while nobody is in a recovery pass on its connection. */
  predicate FlagsQuietly(s: State, run: seq<Action>)
    requires Executable(s, run)
    decreases |run|
  {
    run == [] ||
    ((run[0].Flag? ==> !RecoveredBySomeone(s, s.callers[run[0].caller].id)) && FlagsQuietly(Do(s, run[0]), run[1..]))
  }

  /** Every pass in progress began after the last flag on its connection. */
  ghost predicate Fresh(s: State)
  {
    forall j :: 0 <= j < |s.callers| && Recovering(s.callers[j]) ==> LastFlag(s.log, s.callers[j].id) <= s.callers[j].since
  }

  lemma StepKeepsFresh(s: State, a: Action, j: nat)
    requires Fresh(s) && Enabled(s, a) && (a.Flag? ==> !RecoveredBySomeone(s, s.callers[a.caller].id))
    requires j < |s.callers| && Recovering(Do(s, a).callers[j])
    ensures LastFlag(Do(s, a).log, Do(s, a).callers[j].id) <= Do(s, a).callers[j].since
  {
    hide LastFlag, LastPass, SafeLog;
    var s' := Do(s, a);
    if s'.log != s.log {
      LogNext(s.log, s'.log[|s.log|], s'.callers[j].id);
    }
  }

  /** Flags set quietly are never cleared by a stale pass. */
  lemma {:induction false} QuietFlagsAreNeverStale(s: State, run: seq<Action>)
    requires Fresh(s) && Executable(s, run) && FlagsQuietly(s, run)
    ensures NoStalePass(s, run)
    decreases |run|
  {
    if run != [] {
      assert !Stale(s, run[0]);
      forall j | 0 <= j < |s.callers| && Recovering(Do(s, run[0]).callers[j])
        ensures LastFlag(Do(s, run[0]).log, Do(s, run[0]).callers[j].id) <= Do(s, run[0]).callers[j].since
      {
        StepKeepsFresh(s, run[0], j);
      }
      QuietFlagsAreNeverStale(Do(s, run[0]), run[1..]);
    }
  }

  /** Whatever goroutines interleave, channel reconnects included: as long as every
      flag is set quietly, no connection returned flagged is handed out again before
      a full recovery pass begun after it was flagged. */
  lemma QuietFlagsAreSafe(s: State, run: seq<Action>)
    requires Initial(s) && Executable(s, run) && FlagsQuietly(s, run)
    ensures SafeLog(Run(s, run).log)
  {
    QuietFlagsAreNeverStale(s, run);
    FlaggedConnectionsAreRecovered(s, run);
  }

  /** Nobody is reconnecting a channel. */
  predicate OwnersOnly(s: State)
  {
    forall i :: 0 <= i < |s.callers| ==> s.callers[i].Idle? || Owns(s.callers[i])
  }

  /** Goroutines that verify only connections they took from the queue flag quietly,
      because the flag is set before the Put. */
  lemma {:induction false} OwnersFlagQuietly(s: State, run: seq<Action>)
    requires Owned(s) && OwnersOnly(s) && Executable(s, run)
    requires forall i :: 0 <= i < |run| ==> !run[i].BeginReconnect?
    ensures FlagsQuietly(s, run)
    decreases |run|
  {
    if run != [] {
      hide Owned, Sum;
      var a := run[0];
      forall j | a.Flag? && 0 <= j < |s.callers| && Recovering(s.callers[j])
        ensures s.callers[j].id != s.callers[a.caller].id
      {
        OneOwner(s, a.caller, j);
      }
      StepKeepsOwned(s, a);
      OwnersFlagQuietly(Do(s, a), run[1..]);
    }
  }

  /** Without channel reconnects no connection returned flagged is handed out again
      before a full recovery pass on it, whatever getters and returners interleave. */
  lemma FlaggedAreRecoveredWithoutReconnects(s: State, run: seq<Action>)
    requires Initial(s) && Executable(s, run) && forall i :: 0 <= i < |run| ==> !run[i].BeginReconnect?
    ensures SafeLog(Run(s, run).log)
  {
    InitialInv(s);
    OwnersFlagQuietly(s, run);
    QuietFlagsAreSafe(s, run);
  }
}
