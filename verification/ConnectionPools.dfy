/** The sequential code of the connection pool: hosts and their recovery, the
    rotating connection queue, and the creation, return and re-creation of
    channels (connectionpool.go, connectionhost.go, channelhost.go). How often a
    dial or a channel open fails before it succeeds is an input. */
module ConnectionPools {
  import opened Sequences

  /** What PauseOnFlowControl leaves of the notifications: it reads up to and
      including the first one that says the blocking is over. */
  function AfterPause(blockers: seq<bool>): (rest: seq<bool>)
    ensures |rest| <= |blockers| && rest == blockers[|blockers| - |rest|..]
    ensures forall i :: 0 <= i < |blockers| - |rest| - 1 ==> blockers[i]
    ensures rest != [] ==> |rest| < |blockers| && !blockers[|blockers| - |rest| - 1]
  {
    if blockers == [] then []
    else if !blockers[0] then blockers[1..]
    else AfterPause(blockers[1..])
  }

  // ---------- The flush of the close notifications ----------

  /** A notification channel: how many it buffers, and whether the library has closed
      it, which it does when the connection drops. */
  datatype Notices = Notices(buffered: nat, closed: bool)

  /** The connection may drop; an open one leaves a notification and closes the channel. */
  function AfterDrop(ch: Notices, drops: bool): Notices
  {
    if drops && !ch.closed then Notices(ch.buffered + 1, true) else ch
  }

  /** One look of the flush, before which the connection may drop: the flush is over
      if there is nothing to receive; a closed channel always has something. */
  function Look(ch: Notices, drops: bool): Option<Notices>
  {
    var now := AfterDrop(ch, drops);
    if now.buffered > 0 then Some(now.(buffered := now.buffered - 1))
    else if now.closed then Some(now)
    else None
  }

  /** The channel after so many looks, the first of which is number k; None once the
      flush is over. */
  function Flushed(ch: Notices, drops: nat -> bool, k: nat, looks: nat): Option<Notices>
    decreases looks
  {
    if looks == 0 then Some(ch)
    else
      match Look(ch, drops(k))
      case None => None
      case Some(rest) => Flushed(rest, drops, k + 1, looks - 1)
  }

  /** On a closed channel the flush never ends. */
  lemma {:induction false} ClosedChannelSpins(n: nat, drops: nat -> bool, k: nat, looks: nat)
    ensures Flushed(Notices(n, true), drops, k, looks).Some?
    decreases looks
  {
    if looks > 0 {
      ClosedChannelSpins(if n > 0 then n - 1 else 0, drops, k + 1, looks - 1);
    }
  }

  /** With n notifications buffered on an open connection, and nobody else redialing,
      the flush is over after `looks` looks if and only if these are more than n and
      the connection drops before none of the first n + 1. */
  lemma {:induction false} FlushedExactly(n: nat, drops: nat -> bool, k: nat, looks: nat)
    ensures Flushed(Notices(n, false), drops, k, looks).None? <==>
      looks > n && forall j :: k <= j <= k + n ==> !drops(j)
    decreases looks
  {
    if looks > 0 {
      if drops(k) {
        ClosedChannelSpins(n, drops, k + 1, looks - 1);
      } else if n > 0 {
        FlushedExactly(n - 1, drops, k + 1, looks - 1);
      }
    }
  }

  /** The flush ends at all if and only if the connection drops before none of its
      first n + 1 looks. */
  lemma FlushEndsExactly(n: nat, drops: nat -> bool)
    ensures (exists looks: nat :: Flushed(Notices(n, false), drops, 0, looks).None?) <==>
      forall j :: 0 <= j <= n ==> !drops(j)
  {
    FlushedExactly(n, drops, 0, n + 1);
    forall looks: nat ensures Flushed(Notices(n, false), drops, 0, looks).None? <==>
      looks > n && forall j :: 0 <= j <= n ==> !drops(j)
    {
      FlushedExactly(n, drops, 0, looks);
    }
  }

  /** A drop right after a fresh dial makes the flush spin: it is not over after any
      number of looks. */
  lemma DropAfterDialSpins(looks: nat)
    ensures Flushed(Notices(0, false), j => j == 0, 0, looks).Some?
  {
    FlushedExactly(0, j => j == 0, 0, looks);
  }

  /** The flush of n notifications is over after so many looks. */
  ghost predicate FlushIsOver(n: nat, drops: nat -> bool, looks: nat)
  {
    looks > n && forall j :: 0 <= j <= n ==> !drops(j)
  }

  /** The notifications the flush meets: one has been polled, or all are those of a
      fresh dial. */
  function LeftToFlush(open: bool, errors: nat): nat { if open && errors > 0 then errors - 1 else 0 }

  // ---------- Hosts ----------

  class ConnectionHost {
    const id: nat
    var open: bool
    var errors: seq<nat>       // buffered close notifications
    var errorsClosed: bool     // the library closes this channel with the connection
    var blockers: seq<bool>

    ghost predicate Valid() reads this { open ==> !errorsClosed }

    /** What the notification channel is like. */
    function Errors(): Notices reads this { Notices(|errors|, errorsClosed) }

    /** A host whose first dial succeeded. */
    constructor (id: nat)
      ensures this.id == id && open && errors == [] && blockers == [] && Valid()
    {
      this.id := id;
      open, errors, errorsClosed, blockers := true, [], false, [];
    }

    /** One call of ConnectWithErrorHandler: an open connection is left alone, a
        closed one is dialed, and a success brings fresh notification channels. */
    method Connect(dialSucceeds: bool) returns (ok: bool, dialed: bool)
      requires Valid()
      modifies this
      ensures Valid()
      ensures dialed == !old(open) && ok == (old(open) || dialSucceeds) && open == ok
      ensures !dialed || !ok ==> unchanged(this)
      ensures dialed && ok ==> errors == [] && blockers == []
    {
      if open { return true, false; }
      if !dialSucceeds { return false, true; }
      open := true;
      errors, errorsClosed := [], false;
      blockers := [];
      return true, true;
    }

    /** The connection closes and says so, once. */
    method Drop()
      requires Valid()
      modifies this`open, this`errors, this`errorsClosed
      ensures Valid() && !open && errorsClosed
      ensures old(open) ==> |errors| == |old(errors)| + 1
      ensures !old(open) && old(errorsClosed) ==> errors == old(errors)
    {
      if !errorsClosed { errors := errors + [0]; }
      open, errorsClosed := false, true;
    }

    method PauseOnFlowControl()
      modifies this`blockers
      ensures blockers == if open then AfterPause(old(blockers)) else old(blockers)
    {
      while open && blockers != []
        invariant open ==> AfterPause(blockers) == AfterPause(old(blockers))
        invariant !open ==> blockers == old(blockers)
        decreases |blockers|
      {
        var active := blockers[0];
        blockers := blockers[1..];
        if !active { return; }
      }
    }
  }

  datatype Channel = NoChannel | Unconfirmed | Confirming

  /** What opening a channel and putting it in confirm mode came to. */
  datatype Making = OpenFails | ConfirmFails | Succeeds

  class ChannelHost {
    const id: nat
    const host: ConnectionHost
    const ackable: bool
    const managed: bool        // the source calls this field `transient`
    var channel: Channel
    var errors: seq<nat>       // buffered close notifications

    /** createCacheChannel asks for an ackable channel, so it is in confirm mode. */
    constructor (host: ConnectionHost, id: nat, managed: bool)
      ensures this.host == host && this.id == id && this.managed == managed && ackable
      ensures channel.Confirming? && errors == []
    {
      this.host, this.id, this.ackable, this.managed := host, id, true, managed;
      channel, errors := Confirming, [];
    }

    /** Open, and in confirm mode if that was asked for. */
    predicate Ready()
      reads this`channel
    {
      channel == if ackable then Confirming else Unconfirmed
    }

    /** Confirm mode is asked for an ackable channel only; the notifications of the
        old channel are dropped once the new one is ready, not before. */
    method MakeChannel(making: Making) returns (ok: bool)
      modifies this`channel, this`errors
      ensures ok <==> making.Succeeds? || (making.ConfirmFails? && !ackable)
      ensures ok ==> errors == [] && Ready()
      ensures !ok ==> errors == old(errors) && channel == if making.OpenFails? then NoChannel else Unconfirmed
    {
      channel := if making.OpenFails? then NoChannel else Unconfirmed;
      if making.OpenFails? { return false; }
      if ackable {
        if making.ConfirmFails? { return false; }
        channel := Confirming;
      }
      errors := [];
      return true;
    }
  }

  // ---------- Round robin ----------

  /** Attempts made for the first n channels, if channel j needs fails(j) + 1. */
  function AttemptsFor(fails: nat -> nat, n: nat): nat
  {
    if n == 0 then 0 else AttemptsFor(fails, n - 1) + fails(n - 1) + 1
  }

  lemma AttemptsNext(fails: nat -> nat, n: nat)
    ensures AttemptsFor(fails, 0) == 0
    ensures AttemptsFor(fails, n + 1) == AttemptsFor(fails, n) + fails(n) + 1
  {
  }

  /** The connection that channel i of a sequential creation is on. */
  function Placed<T>(made: seq<T>, fails: nat -> nat, i: nat): T
    requires made != []
  {
    made[Rem(AttemptsFor(fails, i) + fails(i), |made|)]
  }

  lemma {:induction false} AttemptsWithoutFailures(fails: nat -> nat, n: nat)
    requires forall j :: 0 <= j < n ==> fails(j) == 0
    ensures AttemptsFor(fails, n) == n
  {
    if n > 0 {
      AttemptsWithoutFailures(fails, n - 1);
    }
  }

  /** The connections that successive channels use when no attempt fails. */
  function RoundRobin(n: nat, channels: nat): seq<nat>
    requires n > 0
  {
    if channels == 0 then [] else RoundRobin(n, channels - 1) + [Rem(channels - 1, n)]
  }

  /** channels/n channels on every connection, and one more on the first
      channels%n of them. */
  lemma {:induction false} RoundRobinCounts(n: nat, channels: nat, k: nat)
    requires n > 0 && k < n
    ensures Sum(RoundRobin(n, channels), Is(k)) == Quot(channels, n) + if k < Rem(channels, n) then 1 else 0
  {
    if channels > 0 {
      var m := channels - 1;
      hide Quot, Rem, Sum;
      RoundRobinCounts(n, m, k);
      SumAppend(RoundRobin(n, m), Rem(m, n), Is(k));
      NextDivision(m, n);
    }
  }

  /** The counts of any two of the n connections differ by one at most. */
  ghost predicate Fair(ids: seq<nat>, n: nat)
  {
    forall j, k :: 0 <= j < n && 0 <= k < n ==> Sum(ids, Is(j)) <= Sum(ids, Is(k)) + 1
  }

  lemma RoundRobinIsFair(n: nat, channels: nat)
    requires n > 0
    ensures Fair(RoundRobin(n, channels), n)
  {
    forall j, k | 0 <= j < n && 0 <= k < n
      ensures Sum(RoundRobin(n, channels), Is(j)) <= Sum(RoundRobin(n, channels), Is(k)) + 1
    {
      RoundRobinCounts(n, channels, j);
      RoundRobinCounts(n, channels, k);
    }
  }

  /** The connection IDs of the channels. */
  function HostIds(channels: seq<ChannelHost>): seq<nat>
  {
    seq(|channels|, i requires 0 <= i < |channels| => channels[i].host.id)
  }

  ghost predicate NeverFails(fails: nat -> nat, c: nat) { forall j :: 0 <= j < c ==> fails(j) == 0 }

  // ---------- Attempts ----------

  /** Attempt k is the last one on the connection with this ID. */
  ghost predicate LastTry(tried: seq<ConnectionHost>, id: nat, k: nat)
  {
    k < |tried| && tried[k].id == id && forall j :: k < j < |tried| ==> tried[j].id != id
  }

  ghost predicate Untried(tried: seq<ConnectionHost>, id: nat) { forall j :: 0 <= j < |tried| ==> tried[j].id != id }

  predicate Flagged(flags: map<nat, bool>, id: nat) { id in flags && flags[id] }

  /** The flags before and after these attempts, of which those told failed: a
      connection is flagged exactly if its last attempt failed, and one that was not
      tried is flagged as it was. */
  ghost predicate FlagsFollow(before: map<nat, bool>, after: map<nat, bool>, tried: seq<ConnectionHost>, failed: nat -> bool)
  {
    && (forall k: nat, id: nat :: LastTry(tried, id, k) ==> (Flagged(after, id) <==> failed(k)))
    && (forall id: nat :: Untried(tried, id) ==> (Flagged(after, id) <==> Flagged(before, id)))
  }

  lemma FollowOn(before: map<nat, bool>, mid: map<nat, bool>, after: map<nat, bool>, tried: seq<ConnectionHost>,
                 more: seq<ConnectionHost>, failed: nat -> bool, failedMore: nat -> bool)
    requires FlagsFollow(before, mid, tried, failed) && FlagsFollow(mid, after, more, failedMore)
    requires forall k :: 0 <= k < |more| ==> failedMore(k) == failed(|tried| + k)
    ensures FlagsFollow(before, after, tried + more, failed)
  {
    var n, all := |tried|, tried + more;
    assert forall j :: 0 <= j < n ==> tried[j] == all[j];
    assert forall j :: 0 <= j < |more| ==> more[j] == all[n + j];
    forall k: nat, id: nat | LastTry(all, id, k) ensures Flagged(after, id) <==> failed(k) {
      if k >= n {
        assert LastTry(more, id, k - n);
        assert failedMore(k - n) == failed(n + (k - n));
      } else {
        assert Untried(more, id) && LastTry(tried, id, k);
      }
    }
    forall id: nat | Untried(all, id) ensures Flagged(after, id) <==> Flagged(before, id) {
      assert Untried(tried, id) && Untried(more, id);
    }
  }

  /** An attempt changes the flag of its own connection only. */
  lemma FollowOne(before: map<nat, bool>, after: map<nat, bool>, host: ConnectionHost, failed: nat -> bool)
    requires forall id: nat :: id != host.id ==> (Flagged(after, id) <==> Flagged(before, id))
    requires Flagged(after, host.id) <==> failed(0)
    ensures FlagsFollow(before, after, [host], failed)
  {
    assert [host][0] == host;
  }

  /** Some channel is created by attempt k; any other attempt fails. */
  ghost predicate CreatesChannel(fails: nat -> nat, k: nat) { exists i: nat :: k == AttemptsFor(fails, i) + fails(i) }

  /** Which attempts of a sequential creation fail. */
  ghost function FailedAttempts(fails: nat -> nat): nat -> bool { (k: nat) => !CreatesChannel(fails, k) }

  function Below(n: nat): nat -> bool { (k: nat) => k < n }

  lemma {:induction false} AttemptsGrow(fails: nat -> nat, i: nat, j: nat)
    requires i < j
    ensures AttemptsFor(fails, i) + fails(i) < AttemptsFor(fails, j)
  {
    if i + 1 < j {
      AttemptsGrow(fails, i, j - 1);
    }
  }

  /** Of the attempts for channel i only the last one creates a channel. */
  lemma CreatesAtTheEnd(fails: nat -> nat, i: nat, k: nat)
    requires k <= fails(i)
    ensures CreatesChannel(fails, AttemptsFor(fails, i) + k) <==> k == fails(i)
  {
    hide AttemptsFor;
    if CreatesChannel(fails, AttemptsFor(fails, i) + k) {
      var j: nat :| AttemptsFor(fails, i) + k == AttemptsFor(fails, j) + fails(j);
      if j < i {
        AttemptsGrow(fails, j, i);
      } else if i < j {
        AttemptsGrow(fails, i, j);
      }
    }
  }

  // ---------- The pool ----------

  class ConnectionPool {
    var connections: seq<ConnectionHost>
    var flagged: map<nat, bool>
    var channels: seq<ChannelHost>
    ghost var hosts: set<ConnectionHost>   // every host the pool has made

    ghost predicate Valid()
      reads this, hosts
    {
      && (forall h :: h in hosts ==> h.Valid())
      && (forall i :: 0 <= i < |connections| ==> connections[i] in hosts)
    }

    constructor ()
      ensures connections == [] && flagged == map[] && channels == [] && hosts == {} && Valid()
    {
      connections, flagged, channels, hosts := [], map[], [], {};
    }

    predicate IsFlagged(id: nat)
      reads this
    {
      Flagged(flagged, id)
    }

    /** No flag but that of `id` has changed since `before`. */
    ghost predicate OthersKept(before: map<nat, bool>, id: nat)
      reads this
    {
      forall k: nat :: k != id ==> (k in flagged <==> k in before) && (k in before ==> flagged[k] == before[k])
    }

    /** Receives notifications until there is none, dropping in between as told. It is
        cut off after `looks` looks; whether it is over by then, and what is left, is
        exactly what Flushed says. */
    method FlushErrors(host: ConnectionHost, drops: nat -> bool, looks: nat) returns (ended: bool)
      requires host.Valid() && host.open
      modifies host`open, host`errors, host`errorsClosed
      ensures host.Valid()
      ensures ended == Flushed(old(host.Errors()), drops, 0, looks).None?
      ensures if ended then host.open && host.errors == [] else Flushed(old(host.Errors()), drops, 0, looks) == Some(host.Errors())
    {
      var k := 0;
      while k < looks
        invariant k <= looks && host.Valid() && (host.open <==> !host.errorsClosed)
        invariant Flushed(host.Errors(), drops, k, looks - k) == Flushed(old(host.Errors()), drops, 0, looks)
      {
        if drops(k) && host.open { host.Drop(); }
        if host.errors != [] {
          host.errors := host.errors[1..];
        } else if !host.errorsClosed {
          return true;
        }
        k := k + 1;
      }
      return false;
    }

    /** Dial until connected, flush the notifications, clear the flag. It comes to an
        end exactly if the flush does; until then the flag stays as it is. */
    method TriggerConnectionRecovery(host: ConnectionHost, failedDials: nat, drops: nat -> bool, looks: nat)
      returns (dials: nat, ended: bool)
      requires host.Valid()
      modifies this`flagged, host
      ensures host.Valid()
      ensures dials == if old(host.open) then 0 else failedDials + 1
      ensures host.blockers == if old(host.open) then old(host.blockers) else []
      ensures ended <==> FlushIsOver(if old(host.open) then |old(host.errors)| else 0, drops, looks)
      ensures !ended ==> flagged == old(flagged)
      ensures ended ==> host.open && host.errors == []
      ensures ended ==> host.id in flagged && !flagged[host.id] && OthersKept(old(flagged), host.id)
    {
      dials := 0;
      var connected := false;
      while !connected
        invariant host.Valid() && flagged == old(flagged)
        invariant if connected then host.open else host.open == old(host.open)
        invariant old(host.open) || !connected ==> host.blockers == old(host.blockers)
        invariant !old(host.open) && connected ==> host.blockers == [] && host.errors == []
        invariant old(host.open) ==> dials == 0 && host.errors == old(host.errors)
        invariant !old(host.open) && connected ==> dials == failedDials + 1
        invariant !old(host.open) && !connected ==> dials <= failedDials
        decreases !connected, failedDials - dials
      {
        var dialed;
        connected, dialed := host.Connect(dials == failedDials);
        if dialed { dials := dials + 1; }
      }
      FlushedExactly(|host.errors|, drops, 0, looks);
      ended := FlushErrors(host, drops, looks);
      if ended {
        flagged := flagged[host.id := false];
      }
    }

    /** Something is wrong with the connection, as far as can be seen. */
    predicate Suspect(host: ConnectionHost)
      reads this, host
    {
      IsFlagged(host.id) || host.errors != [] || host.errorsClosed || !host.open
    }

    /** Recovery postcondition: whatever state the connection was in, a call that comes
        to an end leaves it unflagged, with its notifications read, and open unless it
        drops once more before the return. A dial happens only if it was closed, once
        more than the failures before the first success; no other connection's flag
        changes. The call comes to an end exactly if nothing was suspect or the flush
        is over. */
    method VerifyHealthyConnection(host: ConnectionHost, failedDials: nat, drops: nat -> bool, looks: nat, dropsLate: bool)
      returns (dials: nat, ended: bool)
      requires host.Valid()
      modifies this`flagged, host
      ensures host.Valid()
      ensures dials == if old(host.open) then 0 else failedDials + 1
      ensures ended <==> !old(Suspect(host)) || FlushIsOver(LeftToFlush(old(host.open), |old(host.errors)|), drops, looks)
      ensures !ended ==> flagged == old(flagged)
      ensures ended ==> !IsFlagged(host.id) && OthersKept(old(flagged), host.id) && host.open == !dropsLate
      ensures ended && !dropsLate ==> host.errors == []
      ensures ended && !dropsLate ==> host.blockers == if old(host.open) then AfterPause(old(host.blockers)) else []
    {
      var healthy := true;
      if host.errors != [] {
        host.errors := host.errors[1..];
        healthy := false;
      } else if host.errorsClosed {
        healthy := false;
      }
      dials, ended := 0, true;
      if IsFlagged(host.id) || !healthy || !host.open {
        dials, ended := TriggerConnectionRecovery(host, failedDials, drops, looks);
      }
      if ended {
        if dropsLate { host.Drop(); }
        host.PauseOnFlowControl();
      }
    }

    /** The same while the connection does not drop again. */
    method VerifyCalmly(host: ConnectionHost, failedDials: nat) returns (dials: nat)
      requires host.Valid()
      modifies this`flagged, host
      ensures host.Valid() && host.open && host.errors == [] && !IsFlagged(host.id)
      ensures dials == if old(host.open) then 0 else failedDials + 1
      ensures host.blockers == if old(host.open) then AfterPause(old(host.blockers)) else []
      ensures OthersKept(old(flagged), host.id)
    {
      var ended;
      dials, ended := VerifyHealthyConnection(host, failedDials, _ => false, |host.errors| + 1, false);
    }

    /** The head of the queue, verified. */
    method GetConnection(failedDials: nat) returns (host: ConnectionHost, dials: nat)
      requires Valid() && connections != []
      modifies this`connections, this`flagged, connections[0]
      ensures Valid() && host in hosts
      ensures host == old(connections)[0] && connections == old(connections)[1..]
      ensures host.open && host.errors == [] && !IsFlagged(host.id) && OthersKept(old(flagged), host.id)
      ensures dials == if old(connections[0].open) then 0 else failedDials + 1
      ensures host.blockers == if old(connections[0].open) then AfterPause(old(connections[0].blockers)) else []
    {
      host := connections[0];
      connections := connections[1..];
      dials := VerifyCalmly(host, failedDials);
    }

    /** Back to the tail of the queue, flagged first if asked. */
    method ReturnConnection(host: ConnectionHost, flag: bool)
      requires Valid() && host in hosts
      modifies this`connections, this`flagged
      ensures Valid() && connections == old(connections) + [host]
      ensures OthersKept(old(flagged), host.id)
      ensures IsFlagged(host.id) == (flag || old(IsFlagged(host.id)))
    {
      if flag {
        flagged := flagged[host.id := true];
      }
      connections := connections + [host];
    }

    /** An attempt whose channel cannot be opened sends its connection, flagged, to
        the tail of the queue. */
    method FailingAttempt(failedDials: nat) returns (host: ConnectionHost)
      requires Valid() && connections != []
      modifies this`connections, this`flagged, hosts
      ensures Valid() && host == old(connections)[0] && connections == old(connections)[1..] + [old(connections)[0]]
      ensures IsFlagged(old(connections)[0].id) && OthersKept(old(flagged), old(connections)[0].id)
    {
      var dials;
      host, dials := GetConnection(failedDials);
      ReturnConnection(host, true);
    }

    /** However many attempts fail, each takes the next connection in turn and puts
        it back: the queue is rotated by the attempts, attempt k tried the connection
        that k rotations bring to the front, and the channel is on the last one. A
        connection is flagged exactly if its last attempt failed; one that was not tried
        keeps its flag. */
    method CreateCacheChannel(id: nat, managed: bool, fails: nat, failedDials: nat -> nat)
      returns (ch: ChannelHost, ghost tried: seq<ConnectionHost>)
      requires Valid() && connections != []
      modifies this`connections, this`flagged, hosts
      ensures Valid() && fresh(ch)
      ensures connections == Rotate(old(connections), fails + 1)
      ensures |tried| == fails + 1 && forall k :: 0 <= k <= fails ==> tried[k] == Rotate(old(connections), k)[0]
      ensures ch.id == id && ch.managed == managed && ch.channel.Confirming?
      ensures ch.host == tried[fails] && ch.host.open && !IsFlagged(ch.host.id)
      ensures FlagsFollow(old(flagged), flagged, tried, Below(fails))
    {
      tried := [];
      var attempt := 0;
      while attempt < fails
        invariant attempt <= fails
        invariant Valid() && connections == Rotate(old(connections), attempt)
        invariant |tried| == attempt && forall k :: 0 <= k < attempt ==> tried[k] == Rotate(old(connections), k)[0]
        invariant FlagsFollow(old(flagged), flagged, tried, Below(fails))
      {
        ghost var before := flagged;
        var host := FailingAttempt(failedDials(attempt));
        FollowOne(before, flagged, host, _ => true);
        FollowOn(old(flagged), before, flagged, tried, [host], Below(fails), _ => true);
        tried := tried + [host];
        RotateNext(old(connections), attempt);
        attempt := attempt + 1;
      }
      RotateNext(old(connections), fails);
      ghost var before := flagged;
      var host, _ := GetConnection(failedDials(fails));
      ch := new ChannelHost(host, id, managed);
      ReturnConnection(host, false);
      FollowOne(before, flagged, host, _ => false);
      FollowOn(old(flagged), before, flagged, tried, [host], Below(fails), _ => false);
      tried := tried + [host];
    }

    /** Re-creates the channel on its own connection, verified before every attempt. */
    method ReconnectChannel(ch: ChannelHost, failures: seq<Making>, failedDials: nat -> nat)
      requires Valid() && ch.host in hosts
      requires forall i :: 0 <= i < |failures| ==> !failures[i].Succeeds?
      modifies this`flagged, ch.host, ch`channel, ch`errors
      ensures Valid() && ch.Ready() && ch.errors == [] && ch.host.open && !IsFlagged(ch.host.id)
      ensures OthersKept(old(flagged), ch.host.id)
    {
      var i := 0;
      var made := false;
      while !made
        invariant i <= |failures| + 1 && (i == |failures| + 1 ==> made)
        invariant Valid() && OthersKept(old(flagged), ch.host.id)
        invariant made ==> ch.Ready() && ch.errors == [] && ch.host.open && !IsFlagged(ch.host.id)
        decreases |failures| + 1 - i
      {
        var _ := VerifyCalmly(ch.host, failedDials(i));
        made := ch.MakeChannel(if i < |failures| then failures[i] else Succeeds);
        i := i + 1;
      }
    }

    /** A managed channel goes back to the cache, re-created first if it erred; any
        other is closed and never enters the cache. */
    method ReturnChannel(ch: ChannelHost, erred: bool, failures: seq<Making>, failedDials: nat -> nat)
      requires Valid() && ch.host in hosts
      requires forall i :: 0 <= i < |failures| ==> !failures[i].Succeeds?
      modifies this`channels, this`flagged, ch.host, ch`channel, ch`errors
      ensures Valid()
      ensures channels == if ch.managed then old(channels) + [ch] else old(channels)
      ensures ch.managed && erred ==> ch.Ready() && ch.errors == [] && ch.host.open && !IsFlagged(ch.host.id)
      ensures OthersKept(old(flagged), ch.host.id) && (!ch.managed || !erred ==> unchanged(ch.host))
      ensures ch.managed && !erred ==> ch.channel == old(ch.channel) && ch.errors == old(ch.errors) && flagged == old(flagged)
      ensures !ch.managed ==> ch.channel.NoChannel? && flagged == old(flagged)
    {
      if ch.managed {
        if erred {
          ReconnectChannel(ch, failures, failedDials);
        }
        channels := channels + [ch];
      } else {
        ch.channel := NoChannel;
      }
    }

    /** Channels created one after the other: the queue is rotated by all attempts,
        attempt k tried connection k, around, channel i is on the connection of its
        last attempt, and the connections tried are flagged exactly if their last attempt
        failed. */
    method FillCache(c: nat, fails: nat -> nat, failedDials: nat -> nat) returns (ghost tried: seq<ConnectionHost>)
      requires Valid() && connections != [] && channels == []
      modifies this`connections, this`flagged, this`channels, hosts
      ensures Valid() && connections == Rotate(old(connections), AttemptsFor(fails, c))
      ensures TriedInTurn(old(connections), tried, AttemptsFor(fails, c))
      ensures |channels| == c
      ensures forall i :: 0 <= i < c ==> channels[i].id == i && channels[i].managed
      ensures forall i :: 0 <= i < c ==> channels[i].host == Placed(old(connections), fails, i)
      ensures FlagsFollow(old(flagged), flagged, tried, FailedAttempts(fails))
    {
      ghost var made := connections;
      tried := [];
      assert Rotate(made, 0) == made;
      AttemptsNext(fails, 0);
      assert FlagsFollow(flagged, flagged, [], FailedAttempts(fails));
      hide Rotate, AttemptsFor, Placed, FlagsFollow, CreatesChannel;
      for i := 0 to c
        invariant Valid() && connections == Rotate(made, AttemptsFor(fails, i)) && |channels| == i
        invariant TriedInTurn(made, tried, AttemptsFor(fails, i))
        invariant forall j :: 0 <= j < i ==> channels[j].id == j && channels[j].managed
        invariant forall j :: 0 <= j < i ==> channels[j].host == Placed(made, fails, j)
        invariant FlagsFollow(old(flagged), flagged, tried, FailedAttempts(fails))
      {
        var ch;
        ghost var more;
        ghost var before := flagged;
        ch, more := CreateCacheChannel(i, true, fails(i), failedDials);
        forall k | 0 <= k < |more| ensures Below(fails(i))(k) == FailedAttempts(fails)(|tried| + k) {
          CreatesAtTheEnd(fails, i, k);
        }
        FollowOn(old(flagged), before, flagged, tried, more, FailedAttempts(fails), Below(fails(i)));
        TriesNext(made, fails, i, tried, more);
        tried := tried + more;
        channels := channels + [ch];
      }
    }

    /** Dials n connections and creates c cached channels. It fails exactly if some
        dial does. Otherwise attempt k tried connection k mod n, failing or not, and
        the queue is a rotation and so a permutation of all connections; if no
        attempt failed, the channels are spread evenly. */
    method InitializeConnections(n: nat, c: nat, dialSucceeds: nat -> bool, fails: nat -> nat, failedDials: nat -> nat)
      returns (ok: bool, ghost made: seq<ConnectionHost>, ghost tried: seq<ConnectionHost>)
      requires n > 0 && connections == [] && channels == [] && hosts == {}
      modifies this
      ensures Valid() && ok == forall i :: 0 <= i < n ==> dialSucceeds(i)
      ensures ok ==> |made| == n && forall i :: 0 <= i < n ==> made[i].id == i
      ensures ok ==> connections == Rotate(made, AttemptsFor(fails, c)) && multiset(connections) == multiset(made)
      ensures ok ==> TriedInTurn(made, tried, AttemptsFor(fails, c))
      ensures ok ==> |channels| == c && forall i :: 0 <= i < c ==>
        channels[i].id == i && channels[i].managed && channels[i].host == Placed(made, fails, i)
      ensures ok ==> FlagsFollow(old(flagged), flagged, tried, FailedAttempts(fails))
      ensures ok && NeverFails(fails, c) ==> HostIds(channels) == RoundRobin(n, c) && Fair(HostIds(channels), n)
    {
      made, tried := [], [];
      hide Rotate, AttemptsFor, Placed, Sum, RoundRobin, FlagsFollow, CreatesChannel;
      for i := 0 to n
        invariant |connections| == i && made == connections && channels == [] && flagged == old(flagged)
        invariant Valid() && forall h :: h in hosts ==> fresh(h)
        invariant forall j :: 0 <= j < i ==> connections[j].id == j
        invariant forall j :: 0 <= j < i ==> dialSucceeds(j)
      {
        if !dialSucceeds(i) { return false, made, tried; }
        var host := new ConnectionHost(i);
        hosts := hosts + {host};
        connections := connections + [host];
        made := connections;
      }
      tried := FillCache(c, fails, failedDials);
      ok := true;
      RotatePermutes(made, AttemptsFor(fails, c));
      if NeverFails(fails, c) {
        InitializationIsRoundRobin(made, fails, c, HostIds(channels));
        RoundRobinIsFair(n, c);
      }
    }
  }

  /** A pool is built exactly from a nonzero heartbeat, timeout and connection count
      and a broker that answers every dial. */
  method NewConnectionPool(heartbeat: nat, connectionTimeout: nat, n: nat, c: nat,
                           dialSucceeds: nat -> bool, fails: nat -> nat, failedDials: nat -> nat)
    returns (pool: Option<ConnectionPool>, ghost made: seq<ConnectionHost>, ghost tried: seq<ConnectionHost>)
    ensures pool.Some? <==> heartbeat != 0 && connectionTimeout != 0 && n != 0 && forall i :: 0 <= i < n ==> dialSucceeds(i)
    ensures pool.Some? ==>
      && fresh(pool.value) && pool.value.Valid() && |made| == n && (forall i :: 0 <= i < n ==> made[i].id == i)
      && pool.value.connections == Rotate(made, AttemptsFor(fails, c))
      && TriedInTurn(made, tried, AttemptsFor(fails, c))
      && |pool.value.channels| == c
      && forall i :: 0 <= i < c ==> pool.value.channels[i].id == i && pool.value.channels[i].host == Placed(made, fails, i)
    ensures pool.Some? ==> forall id: nat ::
      pool.value.IsFlagged(id) <==> exists k: nat :: LastTry(tried, id, k) && !CreatesChannel(fails, k)
    ensures pool.Some? && NeverFails(fails, c) ==>
      Fair(HostIds(pool.value.channels), n) && forall id: nat :: !pool.value.IsFlagged(id)
  {
    made, tried := [], [];
    if heartbeat == 0 || connectionTimeout == 0 || n == 0 { return None, made, tried; }
    var cp := new ConnectionPool();
    var ok;
    ok, made, tried := cp.InitializeConnections(n, c, dialSucceeds, fails, failedDials);
    if ok {
      FlaggedExactly(cp.flagged, tried, fails, c);
    }
    return if ok then Some(cp) else None, made, tried;
  }

  /** Starting without flags, the flagged connections are exactly those whose last
      attempt failed; without failures there are none. */
  lemma FlaggedExactly(flags: map<nat, bool>, tried: seq<ConnectionHost>, fails: nat -> nat, c: nat)
    requires FlagsFollow(map[], flags, tried, FailedAttempts(fails)) && |tried| == AttemptsFor(fails, c)
    ensures forall id: nat :: Flagged(flags, id) <==> exists k: nat :: LastTry(tried, id, k) && !CreatesChannel(fails, k)
    ensures NeverFails(fails, c) ==> forall id: nat :: !Flagged(flags, id)
  {
    hide AttemptsFor;
    forall id: nat
      ensures Flagged(flags, id) <==> exists k: nat :: LastTry(tried, id, k) && !CreatesChannel(fails, k)
      ensures NeverFails(fails, c) ==> !Flagged(flags, id)
    {
      if Untried(tried, id) {
      } else {
        var k := FindLastTry(tried, id);
        if NeverFails(fails, c) {
          AttemptsWithoutFailures(fails, c);
          AttemptsWithoutFailures(fails, k);
          CreatesAtTheEnd(fails, k, 0);
        }
      }
    }
  }

  lemma {:induction false} FindLastTry(tried: seq<ConnectionHost>, id: nat) returns (k: nat)
    requires !Untried(tried, id)
    ensures LastTry(tried, id, k)
    decreases |tried|
  {
    var n := |tried| - 1;
    if tried[n].id == id {
      k := n;
    } else {
      assert !Untried(tried[..n], id);
      k := FindLastTry(tried[..n], id);
    }
  }

  /** Attempt k tried connection k, around. */
  ghost predicate TriedInTurn<T>(made: seq<T>, tried: seq<T>, attempts: nat)
  {
    && made != [] && |tried| == attempts
    && forall k :: 0 <= k < attempts ==> tried[k] == made[Rem(k, |made|)]
  }

  /** The attempts of channel i, seen from the whole run. */
  lemma TriesNext<T>(made: seq<T>, fails: nat -> nat, i: nat, tried: seq<T>, more: seq<T>)
    requires TriedInTurn(made, tried, AttemptsFor(fails, i))
    requires |more| == fails(i) + 1
    requires forall k :: 0 <= k <= fails(i) ==> more[k] == Rotate(Rotate(made, AttemptsFor(fails, i)), k)[0]
    ensures TriedInTurn(made, tried + more, AttemptsFor(fails, i + 1))
    ensures more[fails(i)] == Placed(made, fails, i)
    ensures Rotate(Rotate(made, AttemptsFor(fails, i)), fails(i) + 1) == Rotate(made, AttemptsFor(fails, i + 1))
  {
    var before := AttemptsFor(fails, i);
    AttemptsNext(fails, i);
    hide Rotate, Rem, AttemptsFor;
    forall k | 0 <= k <= fails(i) ensures more[k] == made[Rem(before + k, |made|)] {
      RotateTwice(made, before, k);
      RotateAt(made, before + k, 0);
    }
    RotateTwice(made, before, fails(i) + 1);
  }

  /** The connections of the channels that initialization creates when no attempt
      fails are the round robin. */
  lemma {:induction false} InitializationIsRoundRobin(made: seq<ConnectionHost>, fails: nat -> nat, c: nat, ids: seq<nat>)
    requires made != [] && (forall i :: 0 <= i < |made| ==> made[i].id == i)
    requires NeverFails(fails, c) && |ids| == c
    requires forall i :: 0 <= i < c ==> ids[i] == Placed(made, fails, i).id
    ensures ids == RoundRobin(|made|, c)
  {
    hide Rem, AttemptsFor;
    if c > 0 {
      InitializationIsRoundRobin(made, fails, c - 1, ids[..c - 1]);
      AttemptsWithoutFailures(fails, c - 1);
      assert fails(c - 1) == 0 && ids[c - 1] == Rem(c - 1, |made|);
      assert ids == ids[..c - 1] + [ids[c - 1]];
    }
  }
}
