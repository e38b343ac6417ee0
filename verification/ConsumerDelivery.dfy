/** The consume loop (consumer.go): what it forwards, and how it borrows and
    returns its channel. Each pass through a select is an input tick. */
module ConsumerDelivery {
  import opened Sequences
  import opened Publishing

  datatype Delivery = Delivery(tag: nat, body: seq<nat>)

  /** What a receive from a closed delivery channel yields. */
  const ZERO_DELIVERY := Delivery(0, [])

  datatype ReceivedMessage = ReceivedMessage(isAckable: bool, delivery: Delivery)

  datatype ErrorRead = NoError | ChannelError(code: nat) | ErrorsClosed

  datatype DeliveryRead = Nothing | Message(delivery: Delivery) | DeliveriesClosed

  /** One pass of processDeliveries: its three selects. */
  datatype Tick = Tick(error: ErrorRead, read: DeliveryRead, stop: Option<bool>)

  datatype Session = StillConsuming | ChannelLost(code: nat) | Stopped

  /** One pass of startConsumeLoop. `found` is what the other users have made of the
      cache when the pass comes to borrow; on an empty one it waits. */
  datatype Attempt = Attempt(stop: Option<bool>, found: seq<nat>, qosFails: bool, consumeFails: bool, ticks: seq<Tick>)

  // ---------- What a session does ----------

  predicate Stops(t: Tick) { t.stop == Some(true) }

  /** What the session reads before it ends. A tick with a channel error reads nothing. */
  function Reads(ticks: seq<Tick>): seq<DeliveryRead>
  {
    if ticks == [] || ticks[0].error.ChannelError? then []
    else [ticks[0].read] + if Stops(ticks[0]) then [] else Reads(ticks[1..])
  }

  function Ends(ticks: seq<Tick>): Session
  {
    if ticks == [] then StillConsuming
    else if ticks[0].error.ChannelError? then ChannelLost(ticks[0].error.code)
    else if Stops(ticks[0]) then Stopped
    else Ends(ticks[1..])
  }

  /** The deliveries of the broker among what was read, in order. */
  function Deliveries(input: seq<DeliveryRead>): seq<Delivery>
  {
    if input == [] then []
    else (if input[0].Message? then [input[0].delivery] else []) + Deliveries(input[1..])
  }

  /** What is forwarded for what was read: a closed channel yields zero deliveries. */
  function Forwarded(isAckable: bool, input: seq<DeliveryRead>): seq<ReceivedMessage>
  {
    if input == [] then [] else ForwardedOne(isAckable, input[0]) + Forwarded(isAckable, input[1..])
  }

  function ForwardedOne(isAckable: bool, read: DeliveryRead): seq<ReceivedMessage>
  {
    match read
    case Nothing => []
    case Message(d) => [ReceivedMessage(isAckable, d)]
    case DeliveriesClosed => [ReceivedMessage(isAckable, ZERO_DELIVERY)]
  }

  function Wrapped(isAckable: bool, ds: seq<Delivery>): (ms: seq<ReceivedMessage>)
    ensures |ms| == |ds|
    ensures forall i :: 0 <= i < |ds| ==> ms[i] == ReceivedMessage(isAckable, ds[i])
  {
    seq(|ds|, i requires 0 <= i < |ds| => ReceivedMessage(isAckable, ds[i]))
  }

  function ClosedReads(input: seq<DeliveryRead>): nat
  {
    if input == [] then 0 else (if input[0].DeliveriesClosed? then 1 else 0) + ClosedReads(input[1..])
  }

  lemma {:induction false} ForwardedCount(isAckable: bool, input: seq<DeliveryRead>)
    ensures |Forwarded(isAckable, input)| == |Deliveries(input)| + ClosedReads(input)
  {
    if input != [] {
      ForwardedCount(isAckable, input[1..]);
    }
  }

  lemma {:induction false} OpenForwardsExactly(isAckable: bool, input: seq<DeliveryRead>)
    requires ClosedReads(input) == 0
    ensures Forwarded(isAckable, input) == Wrapped(isAckable, Deliveries(input))
  {
    if input != [] {
      OpenForwardsExactly(isAckable, input[1..]);
    }
  }

  /** The forwarded messages are exactly the broker's deliveries, in order, once
      each, with IsAckable as asked, if and only if the delivery channel was never
      read after it was closed; each such read forwards one empty message more. */
  lemma ForwardsExactlyWhileOpen(isAckable: bool, input: seq<DeliveryRead>)
    ensures Forwarded(isAckable, input) == Wrapped(isAckable, Deliveries(input)) <==> DeliveriesClosed !in input
    ensures |Forwarded(isAckable, input)| == |Deliveries(input)| + ClosedReads(input)
  {
    ForwardedCount(isAckable, input);
    ClosedReadsCounted(input);
    if ClosedReads(input) == 0 {
      OpenForwardsExactly(isAckable, input);
    }
  }

  /** What the ticks offer to read. */
  function Offered(ticks: seq<Tick>): seq<DeliveryRead>
  {
    seq(|ticks|, i requires 0 <= i < |ticks| => ticks[i].read)
  }

  /** So many messages made of nothing. */
  function Empties(isAckable: bool, n: nat): seq<ReceivedMessage>
  {
    seq(n, _ => ReceivedMessage(isAckable, ZERO_DELIVERY))
  }

  /** The delivery channel is closed at tick k, and stays closed; until the last tick
      there is neither a channel error nor a stop. */
  ghost predicate ClosesQuietly(ticks: seq<Tick>, k: nat)
  {
    && k <= |ticks|
    && (forall j :: 0 <= j < |ticks| ==> !ticks[j].error.ChannelError?)
    && (forall j :: 0 <= j < |ticks| ==> (ticks[j].read.DeliveriesClosed? <==> j >= k))
    && (forall j :: 0 <= j < |ticks| - 1 ==> !Stops(ticks[j]))
  }

  predicate StopsAtEnd(ticks: seq<Tick>) { ticks != [] && Stops(ticks[|ticks| - 1]) }

  /** A session ends with its first tick that has a channel error, of which it reads
      nothing, or a stop, of which it reads what there is; it reads every tick before. */
  lemma {:induction false} SessionExactly(ticks: seq<Tick>, n: nat)
    requires n <= |ticks| && forall j :: 0 <= j < n ==> !ticks[j].error.ChannelError? && ticks[j].stop != Some(true)
    ensures n == |ticks| ==> Reads(ticks) == Offered(ticks) && Ends(ticks).StillConsuming?
    ensures n < |ticks| && ticks[n].error.ChannelError? ==>
      Reads(ticks) == Offered(ticks[..n]) && Ends(ticks) == ChannelLost(ticks[n].error.code)
    ensures n < |ticks| && !ticks[n].error.ChannelError? && ticks[n].stop == Some(true) ==>
      Reads(ticks) == Offered(ticks[..n + 1]) && Ends(ticks).Stopped?
    decreases n
  {
    if n > 0 {
      var rest := ticks[1..];
      SessionExactly(rest, n - 1);
      assert Offered(ticks) == [ticks[0].read] + Offered(rest);
      assert Offered(ticks[..n]) == [ticks[0].read] + Offered(rest[..n - 1]);
      assert n < |ticks| ==> Offered(ticks[..n + 1]) == [ticks[0].read] + Offered(rest[..n]);
    } else if ticks != [] {
      assert ticks[..1][0] == ticks[0];
    }
  }

  /** Without errors and stops everything is read. */
  lemma QuietlyReadsAll(ticks: seq<Tick>)
    requires forall j :: 0 <= j < |ticks| ==> !ticks[j].error.ChannelError?
    requires forall j :: 0 <= j < |ticks| - 1 ==> !Stops(ticks[j])
    ensures Reads(ticks) == Offered(ticks)
    ensures Ends(ticks) == if StopsAtEnd(ticks) then Stopped else StillConsuming
  {
    assert ticks[..|ticks|] == ticks;
    SessionExactly(ticks, if StopsAtEnd(ticks) then |ticks| - 1 else |ticks|);
  }

  lemma {:induction false} ClosedForwardsEmpties(isAckable: bool, input: seq<DeliveryRead>)
    requires forall j :: 0 <= j < |input| ==> input[j].DeliveriesClosed?
    ensures Forwarded(isAckable, input) == Empties(isAckable, |input|)
  {
    if input != [] {
      ClosedForwardsEmpties(isAckable, input[1..]);
    }
  }

  lemma QuietCloseFloods(isAckable: bool, ticks: seq<Tick>, k: nat)
    requires ClosesQuietly(ticks, k)
    ensures Forwarded(isAckable, Offered(ticks)) ==
      Wrapped(isAckable, Deliveries(Offered(ticks[..k]))) + Empties(isAckable, |ticks| - k)
  {
    hide Forwarded, Deliveries;
    var input := Offered(ticks);
    ForwardedConcat(isAckable, input[..k], input[k..]);
    assert input == input[..k] + input[k..] && input[..k] == Offered(ticks[..k]);
    ForwardsExactlyWhileOpen(isAckable, input[..k]);
    ClosedForwardsEmpties(isAckable, input[k..]);
  }

  /** Once the delivery channel is closed without a channel error, the pass forwards
      one empty message per tick until a stop, after exactly the deliveries it had
      read; the loop never gets to consume anew, and keeps its channel till then. */
  lemma ClosedChannelFloods(isAckable: bool, attempts: seq<Attempt>, qos: bool, k: nat)
    requires attempts != [] && attempts[0].stop != Some(true) && Consumes(attempts[0], qos)
    requires ClosesQuietly(attempts[0].ticks, k)
    ensures var ticks := attempts[0].ticks;
      && Forwarded(isAckable, LoopReads(attempts, qos)) ==
         Wrapped(isAckable, Deliveries(Offered(ticks[..k]))) + Empties(isAckable, |ticks| - k)
      && !GoesOn(attempts[0], qos)
      && LoopStops(attempts, qos) == StopsAtEnd(ticks) && LoopHolds(attempts, qos) == !StopsAtEnd(ticks)
  {
    QuietlyReadsAll(attempts[0].ticks);
    QuietCloseFloods(isAckable, attempts[0].ticks, k);
    assert LoopReads(attempts, qos) == Reads(attempts[0].ticks);
  }

  lemma {:induction false} ClosedReadsCounted(input: seq<DeliveryRead>)
    ensures ClosedReads(input) == 0 <==> DeliveriesClosed !in input
  {
    if input != [] {
      ClosedReadsCounted(input[1..]);
      assert input == [input[0]] + input[1..];
    }
  }

  // ---------- What the loop does with the channel cache ----------

  /** The pass gets its channel but cannot set it up. */
  predicate Fails(a: Attempt, qos: bool) { a.found != [] && ((qos && a.qosFails) || a.consumeFails) }

  /** The pass gets as far as consuming. */
  predicate Consumes(a: Attempt, qos: bool) { a.found != [] && !Fails(a, qos) }

  /** The pass returns its channel erred unless it ended on a stop; a pass still
      consuming has not returned it, and one that waits for a channel has none. */
  function PassEvents(a: Attempt, qos: bool): seq<PoolEvent>
  {
    if a.found == [] then []
    else if Fails(a, qos) then [Borrowed(a.found[0]), Returned(a.found[0], true)]
    else
      match Ends(a.ticks)
      case StillConsuming => [Borrowed(a.found[0])]
      case ChannelLost(_) => [Borrowed(a.found[0]), Returned(a.found[0], true)]
      case Stopped => [Borrowed(a.found[0]), Returned(a.found[0], false)]
  }

  /** Whether the loop goes on to another pass. */
  predicate GoesOn(a: Attempt, qos: bool)
  {
    a.stop != Some(true) && (Fails(a, qos) || (Consumes(a, qos) && Ends(a.ticks).ChannelLost?))
  }

  /** Everything the loop borrows and returns over these passes. */
  function LoopEvents(attempts: seq<Attempt>, qos: bool): seq<PoolEvent>
    decreases |attempts|
  {
    if attempts == [] || attempts[0].stop == Some(true) then []
    else PassEvents(attempts[0], qos) + if GoesOn(attempts[0], qos) then LoopEvents(attempts[1..], qos) else []
  }

  /** Everything the loop reads over these passes. */
  function LoopReads(attempts: seq<Attempt>, qos: bool): seq<DeliveryRead>
    decreases |attempts|
  {
    if attempts == [] || attempts[0].stop == Some(true) then []
    else
      (if Consumes(attempts[0], qos) then Reads(attempts[0].ticks) else [])
      + if GoesOn(attempts[0], qos) then LoopReads(attempts[1..], qos) else []
  }

  predicate LoopStops(attempts: seq<Attempt>, qos: bool)
    decreases |attempts|
  {
    attempts != [] &&
    (attempts[0].stop == Some(true)
     || (Consumes(attempts[0], qos) && Ends(attempts[0].ticks).Stopped?)
     || (GoesOn(attempts[0], qos) && LoopStops(attempts[1..], qos)))
  }

  /** The errors the loop reports: one for each channel it lost. */
  function LoopErrors(attempts: seq<Attempt>, qos: bool): seq<nat>
    decreases |attempts|
  {
    if attempts == [] || attempts[0].stop == Some(true) then []
    else PassErrors(attempts[0], qos) + if GoesOn(attempts[0], qos) then LoopErrors(attempts[1..], qos) else []
  }

  function PassErrors(a: Attempt, qos: bool): seq<nat>
  {
    if Consumes(a, qos) && Ends(a.ticks).ChannelLost? then [Ends(a.ticks).code] else []
  }

  /** The loop survives every failure to set up and every lost channel: it ends with the
      first pass that is told to stop, before or while consuming, or that still waits
      or consumes; nothing after that pass matters. */
  lemma {:induction false} LoopEndsExactly(attempts: seq<Attempt>, qos: bool, n: nat)
    requires n <= |attempts|
    requires forall k :: 0 <= k < n ==>
      var a := attempts[k];
      a.stop != Some(true) && a.found != [] && ((qos && a.qosFails) || a.consumeFails || Ends(a.ticks).ChannelLost?)
    ensures n == |attempts| ==> !LoopStops(attempts, qos) && !LoopHolds(attempts, qos)
    ensures n < |attempts| && attempts[n].stop == Some(true) ==>
      LoopStops(attempts, qos) && LoopEvents(attempts, qos) == LoopEvents(attempts[..n], qos)
    ensures n < |attempts| && attempts[n].stop != Some(true) && attempts[n].found == [] ==>
      !LoopStops(attempts, qos) && LoopEvents(attempts, qos) == LoopEvents(attempts[..n], qos)
    ensures n < |attempts| && attempts[n].stop != Some(true) && Consumes(attempts[n], qos)
            && !Ends(attempts[n].ticks).ChannelLost? ==>
      && LoopStops(attempts, qos) == Ends(attempts[n].ticks).Stopped?
      && LoopEvents(attempts, qos) == LoopEvents(attempts[..n], qos) + PassEvents(attempts[n], qos)
    ensures |LoopEvents(attempts[..n], qos)| == 2 * n
    decreases n
  {
    hide Ends;
    if n > 0 {
      var rest := attempts[1..];
      assert GoesOn(attempts[0], qos);
      assert attempts[..n][1..] == rest[..n - 1];
      LoopGoesOnWith(attempts, qos);
      LoopGoesOnWith(attempts[..n], qos);
      assert n < |attempts| ==> rest[n - 1] == attempts[n];
      hide LoopEvents, LoopStops, LoopHolds, PassEvents, GoesOn, Consumes, Fails;
      LoopEndsExactly(rest, qos, n - 1);
    }
  }

  lemma LoopGoesOnWith(attempts: seq<Attempt>, qos: bool)
    requires attempts != [] && GoesOn(attempts[0], qos)
    ensures LoopStops(attempts, qos) == LoopStops(attempts[1..], qos)
    ensures LoopHolds(attempts, qos) == LoopHolds(attempts[1..], qos)
    ensures LoopEvents(attempts, qos) == PassEvents(attempts[0], qos) + LoopEvents(attempts[1..], qos)
    ensures |PassEvents(attempts[0], qos)| == 2
  {
    hide Ends;
  }

  /** Borrows and returns alternate on one channel at a time; a return without
      error is the very last event, and a missing return means still consuming. */
  ghost predicate WellBracketed(events: seq<PoolEvent>, holding: bool)
  {
    if events == [] then !holding
    else if |events| == 1 then events[0].Borrowed? && holding
    else
      && events[0].Borrowed? && events[1].Returned? && events[1].channel == events[0].channel
      && (!events[1].erred ==> |events| == 2)
      && WellBracketed(events[2..], holding)
  }

  /** The loop is in the middle of a session when its passes run out. */
  predicate LoopHolds(attempts: seq<Attempt>, qos: bool)
    decreases |attempts|
  {
    attempts != [] && attempts[0].stop != Some(true) &&
    if GoesOn(attempts[0], qos) then LoopHolds(attempts[1..], qos)
    else Consumes(attempts[0], qos) && Ends(attempts[0].ticks).StillConsuming?
  }

  /** Every pass returns its channel exactly once, erred on every error path and
      not on a stop; only a session still running holds one. */
  lemma {:induction false} EveryPassReturnsItsChannel(attempts: seq<Attempt>, qos: bool)
    ensures WellBracketed(LoopEvents(attempts, qos), LoopHolds(attempts, qos))
    ensures LoopStops(attempts, qos) ==> !LoopHolds(attempts, qos)
    decreases |attempts|
  {
    if attempts != [] && attempts[0].stop != Some(true) {
      var events := LoopEvents(attempts, qos);
      if GoesOn(attempts[0], qos) {
        EveryPassReturnsItsChannel(attempts[1..], qos);
        assert events[2..] == LoopEvents(attempts[1..], qos);
      } else {
        assert events == PassEvents(attempts[0], qos);
        assert |events| == 2 ==> events[2..] == [];
      }
    }
  }

  // ---------- The consumer ----------

  class Consumer {
    const autoAck: bool
    const qos: bool                      // qosCountOverride > 0
    var cache: seq<nat>                  // ConnectionPool.channels
    var received: seq<ReceivedMessage>   // receivedMessages, or the calls of the action
    var errors: seq<nat>
    ghost var ledger: seq<PoolEvent>

    constructor (autoAck: bool, qos: bool, cache: seq<nat>)
      ensures this.autoAck == autoAck && this.qos == qos && this.cache == cache
      ensures received == [] && errors == [] && ledger == []
    {
      this.autoAck, this.qos, this.cache := autoAck, qos, cache;
      received, errors, ledger := [], [], [];
    }

    method ReturnChannel(channel: nat, erred: bool)
      modifies this`cache, this`ledger
      ensures cache == old(cache) + [channel] && ledger == old(ledger) + [Returned(channel, erred)]
    {
      cache := cache + [channel];
      ledger := ledger + [Returned(channel, erred)];
    }

    /** NewReceivedMessage, handed to the action or to the message buffer. */
    method Forward(read: DeliveryRead)
      modifies this`received
      ensures received == old(received) + Forwarded(!autoAck, [read])
    {
      assert [read][1..] == [];
      match read {
        case Nothing =>
        case Message(d) => received := received + [ReceivedMessage(!autoAck, d)];
        case DeliveriesClosed => received := received + [ReceivedMessage(!autoAck, ZERO_DELIVERY)];
      }
    }

    /** Forwards exactly what it reads, and gives the channel back on the way out. */
    method ProcessDeliveries(channel: nat, ticks: seq<Tick>) returns (session: Session)
      modifies this`received, this`errors, this`cache, this`ledger
      ensures session == Ends(ticks)
      ensures received == old(received) + Forwarded(!autoAck, Reads(ticks))
      ensures session.StillConsuming? ==> cache == old(cache) && ledger == old(ledger)
      ensures !session.StillConsuming? ==>
        cache == old(cache) + [channel] && ledger == old(ledger) + [Returned(channel, session.ChannelLost?)]
      ensures errors == old(errors) + if session.ChannelLost? then [session.code] else []
    {
      hide Reads, Forwarded, Ends;
      var i := 0;
      assert ticks[0..] == ticks;
      ghost var all := received + Forwarded(!autoAck, Reads(ticks));
      while i < |ticks|
        invariant 0 <= i <= |ticks|
        invariant cache == old(cache) && ledger == old(ledger) && errors == old(errors)
        invariant Ends(ticks[i..]) == Ends(ticks)
        invariant received + Forwarded(!autoAck, Reads(ticks[i..])) == all
      {
        assert ticks[i..][0] == ticks[i] && ticks[i..][1..] == ticks[i + 1..];
        SessionNext(!autoAck, ticks[i..]);
        if ticks[i].error.ChannelError? {
          ReturnChannel(channel, true);
          errors := errors + [ticks[i].error.code];
          return ChannelLost(ticks[i].error.code);
        }
        ghost var before := received;
        Forward(ticks[i].read);
        if ticks[i].stop == Some(true) {
          ReturnChannel(channel, false);
          return Stopped;
        }
        assert before + (Forwarded(!autoAck, [ticks[i].read]) + Forwarded(!autoAck, Reads(ticks[i + 1..])))
            == received + Forwarded(!autoAck, Reads(ticks[i + 1..]));
        i := i + 1;
      }
      SessionEmpty(!autoAck);
      assert ticks[i..] == [];
      return StillConsuming;
    }

    /** One pass: borrow, set up, consume, and return unless still consuming. */
    method Pass(a: Attempt) returns (stopped: bool, goesOn: bool)
      requires a.stop != Some(true)
      modifies this`received, this`errors, this`cache, this`ledger
      ensures goesOn == GoesOn(a, qos) && stopped == (Consumes(a, qos) && Ends(a.ticks).Stopped?)
      ensures ledger == old(ledger) + PassEvents(a, qos)
      ensures received == old(received) + PassMessages(!autoAck, a, qos)
      ensures goesOn || stopped ==> cache == a.found[1..] + [a.found[0]]
      ensures errors == old(errors) + PassErrors(a, qos)
      ensures a.found == [] ==> !goesOn && !stopped && received == old(received) && ledger == old(ledger)
      ensures a.found != [] && ((qos && a.qosFails) || a.consumeFails) ==>
        && goesOn && !stopped && received == old(received) && errors == old(errors)
        && ledger == old(ledger) + [Borrowed(a.found[0]), Returned(a.found[0], true)]
      ensures a.found != [] && !(qos && a.qosFails) && !a.consumeFails ==>
        && goesOn == Ends(a.ticks).ChannelLost? && stopped == Ends(a.ticks).Stopped?
        && received == old(received) + Forwarded(!autoAck, Reads(a.ticks))
        && errors == old(errors) + if goesOn then [Ends(a.ticks).code] else []
    {
      cache := a.found;
      if cache == [] { return false, false; }
      var channel := cache[0];
      cache := cache[1..];
      ledger := ledger + [Borrowed(channel)];
      if qos && a.qosFails {
        ReturnChannel(channel, true);
        return false, true;
      }
      if a.consumeFails {
        ReturnChannel(channel, true);
        return false, true;
      }
      var session := ProcessDeliveries(channel, a.ticks);
      return session.Stopped?, session.ChannelLost?;
    }

    /** The outer loop: what it forwards, borrows and returns over its passes. */
    method ConsumeLoop(attempts: seq<Attempt>) returns (stopped: bool)
      modifies this`received, this`errors, this`cache, this`ledger
      ensures stopped == LoopStops(attempts, qos)
      ensures ledger == old(ledger) + LoopEvents(attempts, qos)
      ensures received == old(received) + Forwarded(!autoAck, LoopReads(attempts, qos))
      ensures errors == old(errors) + LoopErrors(attempts, qos)
    {
      hide Forwarded, LoopReads, LoopEvents, LoopStops, LoopErrors, PassEvents, PassMessages, PassErrors, Ends;
      var i := 0;
      assert attempts[0..] == attempts;
      ghost var all := received + Forwarded(!autoAck, LoopReads(attempts, qos));
      ghost var events := ledger + LoopEvents(attempts, qos);
      ghost var codes := errors + LoopErrors(attempts, qos);
      while i < |attempts|
        invariant 0 <= i <= |attempts|
        invariant LoopStops(attempts[i..], qos) == LoopStops(attempts, qos)
        invariant ledger + LoopEvents(attempts[i..], qos) == events
        invariant received + Forwarded(!autoAck, LoopReads(attempts[i..], qos)) == all
        invariant errors + LoopErrors(attempts[i..], qos) == codes
      {
        assert attempts[i..][0] == attempts[i] && attempts[i..][1..] == attempts[i + 1..];
        LoopNext(!autoAck, attempts[i..], qos);
        if attempts[i].stop == Some(true) { return true; }
        ghost var before, ledgerBefore, errorsBefore := received, ledger, errors;
        var goesOn;
        stopped, goesOn := Pass(attempts[i]);
        if !goesOn { return; }
        assert before + (PassMessages(!autoAck, attempts[i], qos) + Forwarded(!autoAck, LoopReads(attempts[i + 1..], qos)))
            == received + Forwarded(!autoAck, LoopReads(attempts[i + 1..], qos));
        assert ledgerBefore + (PassEvents(attempts[i], qos) + LoopEvents(attempts[i + 1..], qos))
            == ledger + LoopEvents(attempts[i + 1..], qos);
        assert errorsBefore + (PassErrors(attempts[i], qos) + LoopErrors(attempts[i + 1..], qos))
            == errors + LoopErrors(attempts[i + 1..], qos);
        i := i + 1;
      }
      LoopEmpty(!autoAck, qos);
      assert attempts[i..] == [];
      return false;
    }
  }

  lemma LoopEmpty(isAckable: bool, qos: bool)
    ensures !LoopStops([], qos) && LoopEvents([], qos) == [] && Forwarded(isAckable, LoopReads([], qos)) == []
    ensures LoopErrors([], qos) == []
  {
  }

  /** What one pass forwards. */
  function PassMessages(isAckable: bool, a: Attempt, qos: bool): seq<ReceivedMessage>
  {
    if Consumes(a, qos) then Forwarded(isAckable, Reads(a.ticks)) else []
  }

  lemma {:induction false} ForwardedConcat(isAckable: bool, xs: seq<DeliveryRead>, ys: seq<DeliveryRead>)
    ensures Forwarded(isAckable, xs + ys) == Forwarded(isAckable, xs) + Forwarded(isAckable, ys)
  {
    hide ForwardedOne;
    if xs == [] {
      assert xs + ys == ys;
    } else {
      ForwardedConcat(isAckable, xs[1..], ys);
      assert (xs + ys)[1..] == xs[1..] + ys && (xs + ys)[0] == xs[0];
      var head := ForwardedOne(isAckable, xs[0]);
      assert head + (Forwarded(isAckable, xs[1..]) + Forwarded(isAckable, ys))
          == (head + Forwarded(isAckable, xs[1..])) + Forwarded(isAckable, ys);
    }
  }

  lemma SessionEmpty(isAckable: bool)
    ensures Forwarded(isAckable, Reads([])) == [] && Ends([]).StillConsuming?
  {
  }

  /** What the first tick contributes. */
  lemma SessionNext(isAckable: bool, ticks: seq<Tick>)
    requires ticks != []
    ensures ticks[0].error.ChannelError? ==>
      Forwarded(isAckable, Reads(ticks)) == [] && Ends(ticks) == ChannelLost(ticks[0].error.code)
    ensures !ticks[0].error.ChannelError? && Stops(ticks[0]) ==>
      Forwarded(isAckable, Reads(ticks)) == Forwarded(isAckable, [ticks[0].read]) && Ends(ticks).Stopped?
    ensures !ticks[0].error.ChannelError? && !Stops(ticks[0]) ==>
      && Forwarded(isAckable, Reads(ticks)) == Forwarded(isAckable, [ticks[0].read]) + Forwarded(isAckable, Reads(ticks[1..]))
      && Ends(ticks) == Ends(ticks[1..])
  {
    if !ticks[0].error.ChannelError? && !Stops(ticks[0]) {
      ForwardedConcat(isAckable, [ticks[0].read], Reads(ticks[1..]));
    }
  }

  /** What the first pass contributes. */
  lemma LoopNext(isAckable: bool, attempts: seq<Attempt>, qos: bool)
    requires attempts != []
    ensures var a := attempts[0];
      if a.stop == Some(true) then
        && LoopStops(attempts, qos) && LoopEvents(attempts, qos) == [] && LoopErrors(attempts, qos) == []
        && Forwarded(isAckable, LoopReads(attempts, qos)) == []
      else if GoesOn(a, qos) then
        && LoopStops(attempts, qos) == LoopStops(attempts[1..], qos)
        && LoopEvents(attempts, qos) == PassEvents(a, qos) + LoopEvents(attempts[1..], qos)
        && LoopErrors(attempts, qos) == PassErrors(a, qos) + LoopErrors(attempts[1..], qos)
        && Forwarded(isAckable, LoopReads(attempts, qos))
           == PassMessages(isAckable, a, qos) + Forwarded(isAckable, LoopReads(attempts[1..], qos))
      else
        && LoopStops(attempts, qos) == (Consumes(a, qos) && Ends(a.ticks).Stopped?)
        && LoopEvents(attempts, qos) == PassEvents(a, qos) && LoopErrors(attempts, qos) == PassErrors(a, qos)
        && Forwarded(isAckable, LoopReads(attempts, qos)) == PassMessages(isAckable, a, qos)
  {
    ForwardedConcat(isAckable, if Consumes(attempts[0], qos) then Reads(attempts[0].ticks) else [],
                    if GoesOn(attempts[0], qos) then LoopReads(attempts[1..], qos) else []);
  }
}
