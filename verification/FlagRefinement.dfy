/** Left alone, the calls of the connection pool are runs of the interleaving model with
    the effect that the sequential code promises of them (connectionpool.go). */
module FlagRefinement {
  import opened Sequences
  import opened Runs
  import opened FlagSafety
  import opened FlagExactness

  /** Something is wrong with the connection, as far as can be seen. */
  predicate Suspect(s: State, id: nat)
    requires id < |s.open| && id < |s.errors|
  {
    IsFlagged(s, id) || s.errors[id] > 0 || !s.open[id]
  }

  /** The state after a goroutine has verified the connection: open, nothing pending,
      and unflagged by a recovery pass exactly if it was suspect. */
  function Verified(s: State, id: nat): State
    requires id < |s.open| && id < |s.errors|
  {
    s.(open := s.open[id := true], errors := s.errors[id := 0],
       flags := if Suspect(s, id) then s.flags[id := false] else s.flags,
       log := s.log + if Suspect(s, id) then [Recovered(id, |s.log|)] else [])
  }

  /** Any number of failed dials. */
  function Dials(i: nat, failed: nat): seq<Action> { if failed == 0 then [] else [Connect(i, false)] + Dials(i, failed - 1) }

  lemma {:induction false} FailedDialsChangeNothing(s: State, i: nat, failed: nat)
    requires i < |s.callers| && s.callers[i].Connecting? && Known(s, s.callers[i]) && !s.open[s.callers[i].id]
    ensures Reaches(Next, s, Dials(i, failed), s) && NoFlags(Dials(i, failed))
  {
    if failed > 0 {
      FailedDialsChangeNothing(s, i, failed - 1);
      First(Next, s, Connect(i, false), s, Dials(i, failed - 1), s);
    }
  }

  /** A recovery pass, however many dials fail first. */
  lemma Recovers(s: State, i: nat, failed: nat) returns (run: seq<Action>)
    requires i < |s.callers| && s.callers[i].Connecting? && Known(s, s.callers[i])
    ensures NoFlags(run)
    ensures var k := s.callers[i];
      Reaches(Next, s, run, s.(callers := s.callers[i := Pausing(k.id, k.owned)], open := s.open[k.id := true],
                               errors := s.errors[k.id := 0], flags := s.flags[k.id := false],
                               log := s.log + [Recovered(k.id, k.since)]))
  {
    hide Reaches;
    var k := s.callers[i];
    run := [];
    assert Reaches(Next, s, [], s) by { Stays(s); }
    if !s.open[k.id] {
      FailedDialsChangeNothing(s, i, failed);
      run := Dials(i, failed);
    }
    var pass, m := GoesToUnflag(s, i);
    var t := Do(m, Unflag(i));
    assert m.callers[i := Pausing(k.id, k.owned)] == s.callers[i := Pausing(k.id, k.owned)];
    One(Next, m, Unflag(i), t);
    Chain(Next, s, pass, m, [Unflag(i)], t);
    Chain(Next, s, run, s, pass + [Unflag(i)], t);
    run := run + (pass + [Unflag(i)]);
  }

  lemma Stays(s: State)
    ensures Reaches(Next, s, [], s)
  {
  }

  /** Verification up to the pause on flow control. */
  lemma VerifiesFirst(s: State, i: nat, failed: nat) returns (run: seq<Action>)
    requires i < |s.callers| && s.callers[i].Taken? && Known(s, s.callers[i])
    ensures NoFlags(run)
    ensures var k := s.callers[i];
      Reaches(Next, s, run, Verified(s, k.id).(callers := s.callers[i := Pausing(k.id, k.owned)]))
  {
    hide Reaches;
    var k := s.callers[i];
    var t := Verified(s, k.id).(callers := s.callers[i := Pausing(k.id, k.owned)]);
    var m1 := Do(s, PollErrors(i));
    var m2 := Do(m1, CheckHealth(i));
    run := [];
    if Suspect(s, k.id) {
      assert m2.callers == s.callers[i := Connecting(k.id, k.owned, |s.log|)];
      run := Recovers(m2, i, failed);
      assert m2.callers[i := Pausing(k.id, k.owned)] == t.callers;
      assert m2.errors[k.id := 0] == t.errors;
    } else {
      assert m2.callers == t.callers;
      assert m2 == t;
      Stays(t);
    }
    First(Next, m1, CheckHealth(i), m2, run, t);
    First(Next, s, PollErrors(i), m1, [CheckHealth(i)] + run, t);
    run := [PollErrors(i)] + ([CheckHealth(i)] + run);
  }

  /** GetConnection alone: the head of the queue, verified and handed out, whatever
      state it was in and however many dials fail first. */
  lemma GetConnectionIsARun(s: State, i: nat, failed: nat) returns (run: seq<Action>)
    requires i < |s.callers| && s.callers[i].Idle? && s.queue != [] && s.queue[0] < |s.open| && s.queue[0] < |s.errors|
    ensures NoFlags(run)
    ensures var id := s.queue[0]; var v := Verified(s, id);
      Reaches(Next, s, run, v.(queue := s.queue[1..], callers := s.callers[i := Held(id)], log := v.log + [HandedOut(id)]))
  {
    hide Reaches;
    var id := s.queue[0];
    var v := Verified(s, id);
    var t := v.(queue := s.queue[1..], callers := s.callers[i := Held(id)], log := v.log + [HandedOut(id)]);
    var s1 := Do(s, Get(i));
    run := VerifiesFirst(s1, i, failed);
    var s2 := Verified(s1, id).(callers := s1.callers[i := Pausing(id, true)]);
    assert s2.callers[i := Held(id)] == t.callers;
    One(Next, s2, PauseDone(i), t);
    Chain(Next, s1, run, s2, [PauseDone(i)], t);
    First(Next, s, Get(i), s1, run + [PauseDone(i)], t);
    run := [Get(i)] + (run + [PauseDone(i)]);
  }

  /** The verification of a channel reconnect alone: the same of any connection, which
      stays in the queue or in the hands where it is. */
  lemma ReconnectIsARun(s: State, i: nat, id: nat, failed: nat) returns (run: seq<Action>)
    requires i < |s.callers| && s.callers[i].Idle? && id < |s.open| && id < |s.errors|
    ensures NoFlags(run) && Reaches(Next, s, run, Verified(s, id))
  {
    hide Reaches;
    var t := Verified(s, id);
    var s1 := Do(s, BeginReconnect(i, id));
    run := VerifiesFirst(s1, i, failed);
    var s2 := Verified(s1, id).(callers := s1.callers[i := Pausing(id, false)]);
    assert s2.callers[i := Idle] == s.callers;
    One(Next, s2, PauseDone(i), t);
    Chain(Next, s1, run, s2, [PauseDone(i)], t);
    First(Next, s, BeginReconnect(i, id), s1, run + [PauseDone(i)], t);
    run := [BeginReconnect(i, id)] + (run + [PauseDone(i)]);
  }

  /** ReturnConnection alone: flagged first if asked, then to the tail of the queue. */
  lemma ReturnConnectionIsARun(s: State, i: nat, flag: bool) returns (run: seq<Action>)
    requires i < |s.callers| && s.callers[i].Held? && Known(s, s.callers[i])
    ensures var id := s.callers[i].id;
      Reaches(Next, s, run, s.(queue := s.queue + [id], callers := s.callers[i := Idle],
                               flags := if flag then s.flags[id := true] else s.flags,
                               log := s.log + if flag then [Flagged(id)] else []))
  {
    hide Reaches;
    var id := s.callers[i].id;
    var a := if flag then Flag(i) else ReturnUnflagged(i);
    var m := Do(s, a);
    var t := Do(m, Put(i));
    assert m.callers[i := Idle] == s.callers[i := Idle] && s.log + [] == s.log;
    One(Next, m, Put(i), t);
    First(Next, s, a, m, [Put(i)], t);
    run := [a] + [Put(i)];
  }

  /** A redial brings a fresh notification channel: whatever the old one held, the flush
      after it is over at its first look. */
  lemma RedialIsFresh(s: State, i: nat)
    requires i < |s.callers| && s.callers[i].Connecting? && Known(s, s.callers[i]) && !s.open[s.callers[i].id]
    ensures var k := s.callers[i];
      Reaches(Next, s, [Connect(i, true)] + [Flush(i)],
              s.(callers := s.callers[i := Unflagging(k.id, k.owned, k.since)],
                 open := s.open[k.id := true], errors := s.errors[k.id := 0]))
  {
    var k := s.callers[i];
    var m := Do(s, Connect(i, true));
    var t := Do(m, Flush(i));
    assert m.callers[i := Unflagging(k.id, k.owned, k.since)] == s.callers[i := Unflagging(k.id, k.owned, k.since)];
    One(Next, m, Flush(i), t);
    hide Reaches;
    First(Next, s, Connect(i, true), m, [Flush(i)], t);
  }

  lemma {:induction false} OthersLeaveItPolled(s: State, run: seq<Action>, i: nat)
    requires Executable(s, run) && i < |s.callers| && s.callers[i].Polled?
    requires forall j :: 0 <= j < |run| ==> run[j].Drop? || run[j].caller != i
    ensures i < |Run(s, run).callers| && Run(s, run).callers[i] == s.callers[i]
    ensures |Run(s, run).open| == |s.open| && |Run(s, run).errors| == |s.errors|
    decreases |run|
  {
    if run != [] {
      OthersLeaveItPolled(Do(s, run[0]), run[1..], i);
    }
  }

  /** What the poll has seen is acted on: a goroutine that found a notification, or the
      channel of a closed connection, begins a recovery pass at its next step, even if
      others have reopened, flushed or unflagged the connection in between. */
  lemma SeenIsRecovered(s: State, run: seq<Action>, i: nat)
    requires Enabled(s, PollErrors(i)) && Executable(Do(s, PollErrors(i)), run)
    requires s.errors[s.callers[i].id] > 0 || !s.open[s.callers[i].id]
    requires forall j :: 0 <= j < |run| ==> run[j].Drop? || run[j].caller != i
    ensures var m := Run(Do(s, PollErrors(i)), run);
      Enabled(m, CheckHealth(i)) && Do(m, CheckHealth(i)).callers[i].Connecting?
  {
    OthersLeaveItPolled(Do(s, PollErrors(i)), run, i);
  }
}
