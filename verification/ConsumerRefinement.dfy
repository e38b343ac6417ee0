/** The consume loop and the pipeline model describe the same user of the channel cache:
    the loop's borrows and returns are a run of the model; and in every run of the model,
    whatever others do in between, a user's borrows and returns pair up as the loop's do.
    So what is proved of the cache holds with publisher and consumers together. */
module ConsumerRefinement {
  import opened Sequences
  import opened Pipeline
  import opened PipelineConservation
  import opened Publishing
  import opened ConsumerDelivery

  /** Borrows and returns alternate, each return of the channel borrowed last; an open
      borrow is of the channel the user holds. */
  ghost predicate Paired(events: seq<PoolEvent>, user: Client)
  {
    if events == [] then !(user.Holds? && user.managed)
    else if |events| == 1 then events[0].Borrowed? && user == Holds(events[0].channel, true)
    else
      && events[0].Borrowed? && events[1].Returned? && events[1].channel == events[0].channel
      && Paired(events[2..], user)
  }

  // ---------- Every run, projected on one user of the cache ----------

  /** What user i borrows from and returns to the cache with a step. */
  function EventOf(s: State, a: Action, i: nat): seq<PoolEvent>
  {
    if a == ClientBorrow(i) && s.pool.cache != [] then [Borrowed(s.pool.cache[0])]
    else if a.ClientReturn? && a.client == i && i < |s.pool.clients| && s.pool.clients[i].Holds? && s.pool.clients[i].managed
    then [Returned(s.pool.clients[i].channel, a.erred)]
    else []
  }

  function Events(c: Config, s: State, run: seq<Action>, i: nat): seq<PoolEvent>
    requires Executable(c, s, run)
    decreases |run|
  {
    if run == [] then [] else EventOf(s, run[0], i) + Events(c, Do(c, s, run[0]), run[1..], i)
  }

  /** The borrow that is still open. */
  function Open(user: Client): seq<PoolEvent>
  {
    if user.Holds? && user.managed then [Borrowed(user.channel)] else []
  }

  /** An event closes the open borrow, opens one, or leaves it. */
  ghost predicate Moves(before: Client, e: seq<PoolEvent>, after: Client)
  {
    || (e == [] && Open(after) == Open(before))
    || (|e| == 1 && e[0].Borrowed? && Open(before) == [] && Open(after) == e)
    || (|e| == 1 && e[0].Returned? && Open(before) == [Borrowed(e[0].channel)] && Open(after) == [])
  }

  lemma ClientMoves(c: Config, s: State, a: Action, i: nat)
    requires ClientEnabled(c, s, a) && i < |s.pool.clients|
    ensures i < |ClientStep(c, s, a).pool.clients|
    ensures Moves(s.pool.clients[i], EventOf(s, a, i), ClientStep(c, s, a).pool.clients[i])
  {
  }

  lemma ClientDoes(c: Config, s: State, a: Action)
    requires Enabled(c, s, a) && OfClient(a)
    ensures ClientEnabled(c, s, a) && Do(c, s, a) == ClientStep(c, s, a)
  {
    hide ClientEnabled, ClientStep;
  }

  lemma StepMoves(c: Config, s: State, a: Action, i: nat)
    requires Enabled(c, s, a) && i < |s.pool.clients|
    ensures i < |Do(c, s, a).pool.clients|
    ensures Moves(s.pool.clients[i], EventOf(s, a, i), Do(c, s, a).pool.clients[i])
  {
    hide Enabled, Do, ClientEnabled, ClientStep;
    if OfClient(a) {
      ClientDoes(c, s, a);
      ClientMoves(c, s, a, i);
    } else {
      Frame(c, s, a);
    }
  }

  lemma PairedNext(before: Client, e: seq<PoolEvent>, after: Client, rest: seq<PoolEvent>, user: Client)
    requires Moves(before, e, after) && Paired(Open(after) + rest, user)
    ensures Paired(Open(before) + (e + rest), user)
  {
    var events := Open(before) + (e + rest);
    if e == [] || e[0].Borrowed? {
      assert events == Open(after) + rest;
    } else {
      assert events[2..] == rest == Open(after) + rest;
    }
  }

  lemma {:induction false} PairedFrom(c: Config, s: State, run: seq<Action>, i: nat)
    requires Executable(c, s, run) && i < |s.pool.clients|
    ensures i < |Run(c, s, run).pool.clients|
    ensures Paired(Open(s.pool.clients[i]) + Events(c, s, run, i), Run(c, s, run).pool.clients[i])
    decreases |run|
  {
    if run == [] {
      assert Open(s.pool.clients[i]) + [] == Open(s.pool.clients[i]);
    } else {
      hide Enabled, Do, EventOf, Moves, Paired, Open;
      var a, s' := run[0], Do(c, s, run[0]);
      StepMoves(c, s, a, i);
      PairedFrom(c, s', run[1..], i);
      PairedNext(s.pool.clients[i], EventOf(s, a, i), s'.pool.clients[i], Events(c, s', run[1..], i),
                 Run(c, s, run).pool.clients[i]);
    }
  }

  /** In every run, whatever publishers and other users do in between, a user that
      starts without a cached channel borrows and returns in pairs, one channel at a
      time; what is left open is the channel it holds. */
  lemma EveryUserPairs(c: Config, s: State, run: seq<Action>, i: nat)
    requires Executable(c, s, run) && i < |s.pool.clients| && s.pool.clients[i].Empty?
    ensures i < |Run(c, s, run).pool.clients|
    ensures Paired(Events(c, s, run, i), Run(c, s, run).pool.clients[i])
  {
    hide Executable, Run;
    PairedFrom(c, s, run, i);
    assert [] + Events(c, s, run, i) == Events(c, s, run, i);
  }

  /** A user of a transient channel gets one whatever the cache holds, and may return
      it whenever it likes; the cache and everything else are as they were. */
  lemma TransientLeavesTheCacheAlone(c: Config, s: State, i: nat, erred: bool)
    requires i < |s.pool.clients| && s.pool.clients[i].Empty?
    ensures var m := s.(pool := s.pool.(clients := s.pool.clients[i := Holds(0, false)]));
      Leads(c, s, [ClientTransient(i)] + [], m) && Leads(c, s, [ClientTransient(i)] + ([ClientReturn(i, erred)] + []), s)
  {
    var m := s.(pool := s.pool.(clients := s.pool.clients[i := Holds(0, false)]));
    assert Leads(c, m, [], m) && Leads(c, s, [], s);
    hide Leads;
    assert m.pool.clients[i := Empty] == s.pool.clients;
    Then(c, m, ClientReturn(i, erred), s, [], s);
    Then(c, s, ClientTransient(i), m, [], m);
    Then(c, s, ClientTransient(i), m, [ClientReturn(i, erred)] + [], s);
  }

  // ---------- The consume loop is such a run ----------

  function StepOf(i: nat, e: PoolEvent): Action
  {
    match e case Borrowed(_) => ClientBorrow(i) case Returned(_, erred) => ClientReturn(i, erred)
  }

  function StepsOf(i: nat, events: seq<PoolEvent>): seq<Action>
  {
    if events == [] then [] else [StepOf(i, events[0])] + StepsOf(i, events[1..])
  }

  /** How many passes return their channel. */
  function PassesReturned(attempts: seq<Attempt>, qos: bool): nat
    decreases |attempts|
  {
    if attempts == [] || attempts[0].stop == Some(true) || attempts[0].found == [] then 0
    else if GoesOn(attempts[0], qos) then 1 + PassesReturned(attempts[1..], qos)
    else if Ends(attempts[0].ticks).StillConsuming? then 0 else 1
  }

  /** Left alone, pass k finds the cache rotated by k passes. */
  ghost predicate FindsInTurn(attempts: seq<Attempt>, cache: seq<nat>)
  {
    forall k :: 0 <= k < |attempts| ==> attempts[k].found == Rotate(cache, k)
  }

  /** User i and the cache after the loop. */
  function Looped(s: State, i: nat, returned: nat, holds: bool): State
    requires i < |s.pool.clients| && s.pool.cache != []
  {
    var cache := Rotate(s.pool.cache, returned);
    if holds then s.(pool := s.pool.(cache := cache[1..], clients := s.pool.clients[i := Holds(cache[0], true)]))
    else s.(pool := s.pool.(cache := cache))
  }

  lemma BorrowStep(c: Config, s: State, i: nat)
    requires i < |s.pool.clients| && s.pool.clients[i].Empty? && s.pool.cache != []
    ensures Leads(c, s, [ClientBorrow(i)] + [], Looped(s, i, 0, true))
  {
    var t := Looped(s, i, 0, true);
    assert Leads(c, t, [], t);
    hide Leads;
    Then(c, s, ClientBorrow(i), t, [], t);
  }

  lemma PassSteps(c: Config, s: State, i: nat, erred: bool, run: seq<Action>, t: State)
    requires i < |s.pool.clients| && s.pool.clients[i].Empty? && s.pool.cache != [] && |s.pool.cache| <= c.cacheSize
    requires Leads(c, Looped(s, i, 1, false), run, t)
    ensures Leads(c, s, [ClientBorrow(i)] + ([ClientReturn(i, erred)] + run), t)
  {
    hide Leads;
    var m, s' := Looped(s, i, 0, true), Looped(s, i, 1, false);
    RotateNext(s.pool.cache, 0);
    assert m.pool.clients[i := Empty] == s.pool.clients;
    Then(c, m, ClientReturn(i, erred), s', run, t);
    Then(c, s, ClientBorrow(i), m, [ClientReturn(i, erred)] + run, t);
  }

  /** The events of a pass as steps. */
  lemma StepsOfPass(i: nat, a: Attempt, qos: bool, rest: seq<PoolEvent>)
    requires a.found != []
    ensures var steps := StepsOf(i, PassEvents(a, qos) + rest);
      if Consumes(a, qos) && Ends(a.ticks).StillConsuming? then steps == [ClientBorrow(i)] + StepsOf(i, rest)
      else steps == [ClientBorrow(i)] + ([ClientReturn(i, Fails(a, qos) || Ends(a.ticks).ChannelLost?)] + StepsOf(i, rest))
  {
    hide Ends;
    var events := PassEvents(a, qos) + rest;
    if Consumes(a, qos) && Ends(a.ticks).StillConsuming? {
      assert events[1..] == rest;
    } else {
      assert events[1..][1..] == rest;
    }
  }

  /** Left alone, the consume loop is an executable run of the model that borrows and
      returns exactly what its ledger says: the cache ends up rotated by the passes,
      less the channel of a pass still consuming, and nothing else moves. */
  lemma {:induction false} ConsumeLoopIsARun(c: Config, s: State, i: nat, attempts: seq<Attempt>, qos: bool)
    requires i < |s.pool.clients| && s.pool.clients[i].Empty? && s.pool.cache != [] && |s.pool.cache| <= c.cacheSize
    requires FindsInTurn(attempts, s.pool.cache)
    ensures Leads(c, s, StepsOf(i, LoopEvents(attempts, qos)),
                  Looped(s, i, PassesReturned(attempts, qos), LoopHolds(attempts, qos)))
    decreases |attempts|
  {
    if attempts == [] || attempts[0].stop == Some(true) {
      assert Looped(s, i, 0, false) == s;
    } else {
      var a, rest := attempts[0], attempts[1..];
      assert a.found == s.pool.cache;
      var events := if GoesOn(a, qos) then LoopEvents(rest, qos) else [];
      StepsOfPass(i, a, qos, events);
      if GoesOn(a, qos) {
        LoopGoesOn(c, s, i, attempts, qos);
      } else if Ends(a.ticks).StillConsuming? {
        BorrowStep(c, s, i);
      } else {
        var s' := Looped(s, i, 1, false);
        assert Leads(c, s', [], s');
        PassSteps(c, s, i, false, [], s');
      }
    }
  }

  lemma {:induction false} LoopGoesOn(c: Config, s: State, i: nat, attempts: seq<Attempt>, qos: bool)
    requires i < |s.pool.clients| && s.pool.clients[i].Empty? && s.pool.cache != [] && |s.pool.cache| <= c.cacheSize
    requires FindsInTurn(attempts, s.pool.cache) && attempts != [] && GoesOn(attempts[0], qos)
    ensures Leads(c, s, [ClientBorrow(i)] + ([ClientReturn(i, true)] + StepsOf(i, LoopEvents(attempts[1..], qos))),
                  Looped(s, i, PassesReturned(attempts, qos), LoopHolds(attempts, qos)))
    decreases |attempts|, 0
  {
    hide Leads, StepsOf, LoopEvents;
    var rest := attempts[1..];
    var s' := Looped(s, i, 1, false);
    RotateNext(s.pool.cache, 0);
    forall k | 0 <= k < |rest| ensures rest[k].found == Rotate(s'.pool.cache, k) {
      RotateTwice(s.pool.cache, 1, k);
      assert rest[k] == attempts[k + 1];
    }
    ConsumeLoopIsARun(c, s', i, rest, qos);
    RotateTwice(s.pool.cache, 1, PassesReturned(rest, qos));
    PassSteps(c, s, i, true, StepsOf(i, LoopEvents(rest, qos)),
              Looped(s', i, PassesReturned(rest, qos), LoopHolds(rest, qos)));
  }
}
