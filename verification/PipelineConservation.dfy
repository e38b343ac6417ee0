/** What every step of the pipeline keeps: each accepted entry is in exactly one
    place, the flows between the places balance, and the channels of the cache
    are neither lost nor duplicated. */
module PipelineConservation {
  import opened Sequences
  import opened Pipeline

  // ---------- Probes ----------

  /** What to count: one entry, or every entry of one letter. */
  datatype Probe = One(entry: Entry) | OfLetter(letter: nat)

  function Hit(p: Probe, e: Entry): nat
  {
    match p
    case One(x) => if x == e then 1 else 0
    case OfLetter(l) => if e.letter == l then 1 else 0
  }

  function Hits(p: Probe): Entry -> nat { (e: Entry) => Hit(p, e) }

  function TaskHits(p: Probe): Task -> nat { (t: Task) => if t.Releasing? || t.Ended? then 0 else Hit(p, t.entry) }

  function SenderHits(p: Probe): Sender -> nat { (r: Sender) => if r.Sent? then 0 else Hit(p, r.entry) }

  function ReceiptHits(p: Probe): Receipt -> nat { (r: Receipt) => Hit(p, r.entry) }

  function DispatcherHits(p: Probe, d: Dispatcher): nat { if d.InHand? then Hit(p, d.entry) else 0 }

  function ProcessorHits(p: Probe, q: Processor): nat { if q.Idle? then 0 else Hit(p, q.entry) }

  /** How often the probe is met over every place an accepted entry can be. */
  function InPlaces(p: Probe, s: State): nat
  {
    Sum(s.queue, Hits(p)) + DispatcherHits(p, s.dispatcher) + Sum(s.tasks, TaskHits(p))
    + Sum(s.senders, SenderHits(p)) + Sum(s.receipts, ReceiptHits(p)) + ProcessorHits(p, s.processor)
    + Sum(s.confirmed, Hits(p)) + Sum(s.exhausted, Hits(p)) + Sum(s.refused, Hits(p))
  }

  function SenderSpent(p: Probe): Sender -> nat { (r: Sender) => if r.Ready? && !r.success then Hit(p, r.entry) else 0 }

  function ReceiptSpent(p: Probe): Receipt -> nat { (r: Receipt) => if r.success then 0 else Hit(p, r.entry) }

  /** Counted failures on which no retry has been granted. */
  function Spent(p: Probe, s: State): nat
  {
    Sum(s.senders, SenderSpent(p)) + Sum(s.receipts, ReceiptSpent(p))
    + (if s.processor.Judging? || s.processor.SayingExhausted? then Hit(p, s.processor.entry) else 0)
    + Sum(s.exhausted, Hits(p))
  }

  /** Granted retries that have not come back to the queue. */
  function Returning(p: Probe, s: State): nat
  {
    (if s.processor.SayingRetry? || s.processor.Requeuing? || s.processor.SayingRefused?
     then Hit(p, s.processor.entry) else 0)
    + Sum(s.refused, Hits(p))
  }

  function RetryReports(e: Entry): Report -> nat { (r: Report) => if r == Retrying(e) then 1 else 0 }

  function ExhaustedReports(e: Entry): Report -> nat { (r: Report) => if r == Exhausted(e) then 1 else 0 }

  function RefusedReports(e: Entry): Report -> nat { (r: Report) => if r == Refused(e) then 1 else 0 }

  /** Reports of one kind ever put on the error channel. */
  function Said(s: State, kind: Report -> nat): nat { Sum(s.log.drained, kind) + Sum(s.errors, kind) }

  /** Which cached channels to count: all of them, or those with one ID. */
  datatype ChannelProbe = Every | WithId(id: nat)

  function ChannelHit(p: ChannelProbe, ch: nat): nat { if p.Every? || p.id == ch then 1 else 0 }

  function ChannelHits(p: ChannelProbe): nat -> nat { ch => ChannelHit(p, ch) }

  function TaskChannels(p: ChannelProbe): Task -> nat
  {
    (t: Task) => if t.Holding? || t.Giving? then ChannelHit(p, t.channel) else 0
  }

  function ClientChannels(p: ChannelProbe): Client -> nat
  {
    (k: Client) => if k.Holds? && k.managed then ChannelHit(p, k.channel) else 0
  }

  /** How often the probe is met over the cache, its borrowers and the shut-down channels. */
  function InChannels(p: ChannelProbe, s: State): nat
  {
    Sum(s.pool.cache, ChannelHits(p)) + Sum(s.tasks, TaskChannels(p))
    + Sum(s.pool.clients, ClientChannels(p)) + Sum(s.pool.shut, ChannelHits(p))
  }

  // ---------- The invariants ----------

  ghost predicate Issued(s: State)
  {
    && (forall i :: 0 <= i < |s.log.issued| ==> s.log.issued[i].ticket == i && s.log.issued[i].letter < |s.retry|)
    && (forall i :: 0 <= i < |s.log.granted| ==> s.log.granted[i].letter < |s.retry|)
  }

  ghost predicate Conserved(p: Probe, s: State) { InPlaces(p, s) == Sum(s.log.issued, Hits(p)) }

  /** deliverLetters is running. */
  predicate Delivering(s: State) { s.dispatcher.Polling? || s.dispatcher.InHand? || s.dispatcher.CheckingStop? }

  /** The queue is first-in first-out, and it is closed only after the dispatcher
      has taken everything accepted before its last empty observation. */
  ghost predicate Ordered(s: State)
  {
    && s.log.accepted == s.log.taken + s.queue
    && s.log.emptyAt <= |s.log.accepted|
    && (s.closed ==> s.dispatcher.Leaving? || s.dispatcher.Gone?)
    && (s.closed || s.dispatcher.CheckingStop? ==> s.log.taken == s.log.accepted[..s.log.emptyAt])
    && (!s.closed ==> s.refused == [] && s.log.bounced == [] && !s.processor.SayingRefused?)
    && (!Delivering(s) && !s.closed ==> s.log.taken == [])
    && (s.log.taken == [] ==>
        && s.tasks == [] && s.senders == [] && s.receipts == [] && s.processor.Idle? && !s.dispatcher.InHand?
        && s.confirmed == [] && s.exhausted == [])
  }

  /** One publish goroutine per letter taken, in that order, but for a letter still
      in the dispatcher's hand. */
  ghost predicate Dispatched(s: State)
  {
    && |s.log.taken| == |s.tasks| + (if s.dispatcher.InHand? then 1 else 0)
    && (s.dispatcher.InHand? ==> s.log.taken[|s.tasks|] == s.dispatcher.entry)
    && (forall k :: 0 <= k < |s.tasks| && !s.tasks[k].Releasing? && !s.tasks[k].Ended? ==> s.tasks[k].entry == s.log.taken[k])
  }

  /** Sends on the queue against admissions and granted retries; increments of
      RetryCount against granted retries and failures still to be judged. */
  ghost predicate Balanced(p: Probe, s: State)
  {
    && Sum(s.log.accepted, Hits(p)) + Returning(p, s) == Sum(s.log.issued, Hits(p)) + Sum(s.log.granted, Hits(p))
    && Sum(s.log.counted, Hits(p)) == Sum(s.log.granted, Hits(p)) + Spent(p, s)
  }

  function SenderAcked(p: Probe): Sender -> nat { (r: Sender) => if r.Ready? && r.success then Hit(p, r.entry) else 0 }

  function ReceiptAcked(p: Probe): Receipt -> nat { (r: Receipt) => if r.success then Hit(p, r.entry) else 0 }

  /** Every acknowledgement is on its way to be confirmed, or confirmed. */
  ghost predicate Acknowledged(p: Probe, s: State)
  {
    Sum(s.log.acked, Hits(p)) ==
    Sum(s.senders, SenderAcked(p)) + Sum(s.receipts, ReceiptAcked(p)) + Sum(s.confirmed, Hits(p))
  }

  /** One report per failed receipt, and one more per requeue that bounced. */
  ghost predicate Reported(e: Entry, s: State)
  {
    && Said(s, RetryReports(e)) + Said(s, ExhaustedReports(e))
       + (if s.processor == Judging(e) || s.processor == SayingRetry(e) || s.processor == SayingExhausted(e) then 1 else 0)
       == Sum(s.log.failed, Hits(One(e)))
    && Said(s, RefusedReports(e)) + (if s.processor == SayingRefused(e) then 1 else 0) == Sum(s.log.bounced, Hits(One(e)))
    && Said(s, ExhaustedReports(e)) == Sum(s.exhausted, Hits(One(e)))
    && Said(s, RefusedReports(e)) == Sum(s.refused, Hits(One(e)))
  }

  ghost predicate CacheKept(c: Config, p: ChannelProbe, s: State)
  {
    InChannels(p, s) == Sum(Upto(c.cacheSize), ChannelHits(p))
  }

  /** The Go counter is the initial value plus the increments, modulo 2^16. */
  ghost predicate Counted(s: State)
  {
    && |s.retry| == |s.initial|
    && forall l :: 0 <= l < |s.retry| ==>
        s.retry[l] == (s.initial[l] + Sum(s.log.counted, Hits(OfLetter(l)))) % RETRY_MODULUS
  }

  ghost predicate Inv(c: Config, s: State)
  {
    && Issued(s) && Ordered(s) && Dispatched(s) && Counted(s) && Sum(s.tasks, Live) <= Permits(c)
    && (forall p: Probe :: Conserved(p, s))
    && (forall p: Probe :: Balanced(p, s))
    && (forall p: Probe :: Acknowledged(p, s))
    && (forall e: Entry :: Reported(e, s))
    && (forall p: ChannelProbe :: CacheKept(c, p, s))
  }

  // ---------- Who touches what ----------

  /** Only the dispatcher and its controllers touch the dispatcher; only producers
      admit letters; only clients touch the other users of the cache. */
  ghost predicate Framed(a: Action, s: State, s': State)
  {
    && s'.initial == s.initial
    && (!OfProducer(a) ==> s'.log.issued == s.log.issued)
    && (!OfClient(a) ==> s'.pool.clients == s.pool.clients && s'.pool.shut == s.pool.shut)
    && (!OfDispatcher(a) ==> s'.closed == s.closed)
    && (!OfDispatcher(a) && !OfTask(a) ==> s'.tasks == s.tasks)
    && (!OfProducer(a) ==> s'.asked == s.asked)
    && (!OfDispatcher(a) && !OfProducer(a) ==> s'.dispatcher == s.dispatcher && s'.stops == s.stops)
  }

  lemma Frame(c: Config, s: State, a: Action)
    requires Enabled(c, s, a)
    ensures Framed(a, s, Do(c, s, a))
  {
    hide Sum, ProducerStep, ClientStep, DispatcherStep, TaskStep, SenderStep, ProcessorStep;
    hide ProducerEnabled, ClientEnabled, TaskEnabled, SenderEnabled, ProcessorEnabled, DispatcherEnabled;
    if OfProducer(a) {
      assert Framed(a, s, ProducerStep(c, s, a));
    } else if OfClient(a) {
      assert Framed(a, s, ClientStep(c, s, a));
    } else if OfDispatcher(a) {
      assert Framed(a, s, DispatcherStep(c, s, a));
    } else if OfTask(a) {
      assert Framed(a, s, TaskStep(c, s, a));
    } else if OfSender(a) {
      assert Framed(a, s, SenderStep(c, s, a));
    } else {
      assert Framed(a, s, ProcessorStep(c, s, a));
    }
  }

  lemma DispatcherDoes(c: Config, s: State, a: Action)
    requires Enabled(c, s, a) && OfDispatcher(a)
    ensures DispatcherEnabled(c, s, a) && Do(c, s, a) == DispatcherStep(c, s, a)
  {
    hide Sum, ProducerStep, ClientStep, DispatcherStep, TaskStep, SenderStep, ProcessorStep;
    hide ProducerEnabled, ClientEnabled, TaskEnabled, SenderEnabled, ProcessorEnabled, DispatcherEnabled;
  }

  lemma ProducerDoes(c: Config, s: State, a: Action)
    requires Enabled(c, s, a) && OfProducer(a)
    ensures ProducerEnabled(c, s, a) && Do(c, s, a) == ProducerStep(c, s, a)
  {
    hide Sum, ProducerStep, ClientStep, DispatcherStep, TaskStep, SenderStep, ProcessorStep;
    hide ProducerEnabled, ClientEnabled, TaskEnabled, SenderEnabled, ProcessorEnabled, DispatcherEnabled;
  }

  // ---------- Every step keeps them ----------

  lemma InitialInv(c: Config, s: State)
    requires Initial(c, s)
    ensures Inv(c, s)
  {
    forall p: ChannelProbe ensures CacheKept(c, p, s) {
      SumZero(s.pool.clients, ClientChannels(p));
    }
  }

  lemma TaskConserves(c: Config, s: State, a: Action, p: Probe)
    requires Conserved(p, s) && TaskEnabled(c, s, a)
    ensures Conserved(p, TaskStep(c, s, a))
  {
    hide Sum;
    SumUpdate(s.tasks, a.task, NextTask(c, s, a), TaskHits(p));
    if a.Confirm? && !a.verdict.Nacked? {
      SumAppend(s.senders, TaskStep(c, s, a).senders[|s.senders|], SenderHits(p));
    }
  }

  lemma SenderConserves(c: Config, s: State, a: Action, p: Probe)
    requires Conserved(p, s) && SenderEnabled(c, s, a)
    ensures Conserved(p, SenderStep(c, s, a))
  {
    hide Sum;
    var s' := SenderStep(c, s, a);
    SumUpdate(s.senders, a.sender, s'.senders[a.sender], SenderHits(p));
    if a.SendReceipt? {
      SumAppend(s.receipts, s'.receipts[|s.receipts|], ReceiptHits(p));
    }
  }

  lemma ProcessorConserves(c: Config, s: State, a: Action, p: Probe)
    requires Conserved(p, s) && ProcessorEnabled(c, s, a)
    ensures Conserved(p, ProcessorStep(c, s, a))
  {
    hide Sum;
    match a
    case TakeReceipt =>
      SumTail(s.receipts, ReceiptHits(p));
      SumAppend(s.confirmed, s.receipts[0].entry, Hits(p));
    case Say =>
      SumAppend(s.refused, s.processor.entry, Hits(p));
      SumAppend(s.exhausted, s.processor.entry, Hits(p));
    case Requeue => SumAppend(s.queue, s.processor.entry, Hits(p));
    case _ =>
  }

  lemma ProducerConserves(c: Config, s: State, a: Action, p: Probe)
    requires Conserved(p, s) && Balanced(p, s) && ProducerEnabled(c, s, a)
    ensures Conserved(p, ProducerStep(c, s, a)) && Balanced(p, ProducerStep(c, s, a))
  {
    hide Sum;
    if a.Submit? && !s.closed {
      var e := Entry(|s.log.issued|, a.letter);
      SumAppend(s.queue, e, Hits(p));
      SumAppend(s.log.issued, e, Hits(p));
      SumAppend(s.log.accepted, e, Hits(p));
    }
  }

  lemma DispatcherConserves(c: Config, s: State, a: Action, p: Probe)
    requires Conserved(p, s) && Balanced(p, s) && DispatcherEnabled(c, s, a)
    ensures Conserved(p, DispatcherStep(c, s, a)) && Balanced(p, DispatcherStep(c, s, a))
  {
    hide Sum;
    if a.Take? {
      SumTail(s.queue, Hits(p));
    } else if a.Dispatch? {
      SumAppend(s.tasks, Wanting(s.dispatcher.entry), TaskHits(p));
    }
  }

  lemma ClientConserves(c: Config, s: State, a: Action, p: Probe)
    requires Conserved(p, s) && Balanced(p, s) && ClientEnabled(c, s, a)
    ensures Conserved(p, ClientStep(c, s, a)) && Balanced(p, ClientStep(c, s, a))
  {
    hide Sum, ClientStep;
  }

  /** Letter conservation and the flow balances, one step. */
  lemma StepConserves(c: Config, s: State, a: Action, p: Probe)
    requires Conserved(p, s) && Balanced(p, s) && Enabled(c, s, a)
    ensures Conserved(p, Do(c, s, a)) && Balanced(p, Do(c, s, a))
  {
    hide Sum, InPlaces, Balanced, Conserved;
    if OfProducer(a) {
      ProducerConserves(c, s, a, p);
    } else if OfClient(a) {
      ClientConserves(c, s, a, p);
    } else if OfDispatcher(a) {
      DispatcherConserves(c, s, a, p);
    } else if OfTask(a) {
      TaskConserves(c, s, a, p);
      TaskBalances(c, s, a, p);
    } else if OfSender(a) {
      SenderConserves(c, s, a, p);
      SenderBalances(c, s, a, p);
    } else {
      ProcessorConserves(c, s, a, p);
      ProcessorBalances(c, s, a, p);
    }
  }

  lemma SenderBalances(c: Config, s: State, a: Action, p: Probe)
    requires Balanced(p, s) && SenderEnabled(c, s, a)
    ensures Balanced(p, SenderStep(c, s, a))
  {
    hide Sum;
    var s' := SenderStep(c, s, a);
    SumUpdate(s.senders, a.sender, s'.senders[a.sender], SenderSpent(p));
    if a.SendReceipt? {
      SumAppend(s.receipts, s'.receipts[|s.receipts|], ReceiptSpent(p));
    } else {
      SumAppend(s.log.counted, s.senders[a.sender].entry, Hits(p));
    }
  }

  lemma ProcessorBalances(c: Config, s: State, a: Action, p: Probe)
    requires Balanced(p, s) && ProcessorEnabled(c, s, a)
    ensures Balanced(p, ProcessorStep(c, s, a))
  {
    hide Sum;
    match a
    case TakeReceipt => SumTail(s.receipts, ReceiptSpent(p));
    case Judge => SumAppend(s.log.granted, s.processor.entry, Hits(p));
    case Say =>
      SumAppend(s.refused, s.processor.entry, Hits(p));
      SumAppend(s.exhausted, s.processor.entry, Hits(p));
    case Requeue => SumAppend(s.log.accepted, s.processor.entry, Hits(p));
    case _ =>
  }

  lemma TaskBalances(c: Config, s: State, a: Action, p: Probe)
    requires Balanced(p, s) && TaskEnabled(c, s, a)
    ensures Balanced(p, TaskStep(c, s, a))
  {
    hide Sum;
    if a.Confirm? && !a.verdict.Nacked? {
      SumAppend(s.senders, TaskStep(c, s, a).senders[|s.senders|], SenderSpent(p));
    }
  }

  lemma DispatcherOrders(c: Config, s: State, a: Action)
    requires Ordered(s) && Issued(s) && DispatcherEnabled(c, s, a)
    ensures Ordered(DispatcherStep(c, s, a)) && Issued(DispatcherStep(c, s, a))
  {
  }

  lemma ProcessorOrders(c: Config, s: State, a: Action)
    requires Ordered(s) && Issued(s) && ProcessorEnabled(c, s, a)
    ensures Ordered(ProcessorStep(c, s, a)) && Issued(ProcessorStep(c, s, a))
  {
  }

  lemma ProducerOrders(c: Config, s: State, a: Action)
    requires Ordered(s) && Issued(s) && ProducerEnabled(c, s, a)
    ensures Ordered(ProducerStep(c, s, a)) && Issued(ProducerStep(c, s, a))
  {
  }

  /** Sequencing of the queue and of the tickets, one step. */
  lemma StepOrders(c: Config, s: State, a: Action)
    requires Ordered(s) && Issued(s) && Enabled(c, s, a)
    ensures Ordered(Do(c, s, a)) && Issued(Do(c, s, a))
  {
    if OfProducer(a) {
      hide Ordered, Issued;
      ProducerOrders(c, s, a);
    } else if OfDispatcher(a) {
      hide Ordered, Issued;
      DispatcherOrders(c, s, a);
    } else if OfProcessor(a) {
      hide Ordered, Issued;
      ProcessorOrders(c, s, a);
    } else {
      hide ClientStep;
    }
  }

  lemma TaskDispatches(c: Config, s: State, a: Action)
    requires Dispatched(s) && TaskEnabled(c, s, a)
    ensures Dispatched(TaskStep(c, s, a))
  {
  }

  lemma DispatcherDispatches(c: Config, s: State, a: Action)
    requires Dispatched(s) && DispatcherEnabled(c, s, a)
    ensures Dispatched(DispatcherStep(c, s, a))
  {
  }

  lemma StepDispatches(c: Config, s: State, a: Action)
    requires Dispatched(s) && Enabled(c, s, a)
    ensures Dispatched(Do(c, s, a))
  {
    hide ClientStep, DispatcherStep, TaskStep, SenderStep, ProcessorStep;
    if OfTask(a) {
      TaskDispatches(c, s, a);
    } else if OfDispatcher(a) {
      DispatcherDispatches(c, s, a);
    }
  }

  /** One more report of whatever kind moves the count of that kind by its weight. */
  lemma ProcessorSays(c: Config, s: State, a: Action, kind: Report -> nat)
    requires ProcessorEnabled(c, s, a)
    ensures |s.errors| <= |ProcessorStep(c, s, a).errors| + 1
    ensures a.Say? ==> |ProcessorStep(c, s, a).errors| == |s.errors| + 1
    ensures Said(ProcessorStep(c, s, a), kind) ==
      Said(s, kind) + if a.Say? then kind(ProcessorStep(c, s, a).errors[|s.errors|]) else 0
  {
    hide Sum;
    if a.DrainError? {
      SumTail(s.errors, kind);
      SumAppend(s.log.drained, s.errors[0], kind);
    } else if a.Say? {
      SumAppend(s.errors, ProcessorStep(c, s, a).errors[|s.errors|], kind);
    }
  }

  lemma ProcessorReports(c: Config, s: State, a: Action, e: Entry)
    requires Reported(e, s) && ProcessorEnabled(c, s, a)
    ensures Reported(e, ProcessorStep(c, s, a))
  {
    hide Sum, Said;
    ProcessorSays(c, s, a, RetryReports(e));
    ProcessorSays(c, s, a, ExhaustedReports(e));
    ProcessorSays(c, s, a, RefusedReports(e));
    if a.TakeReceipt? {
      SumAppend(s.log.failed, s.receipts[0].entry, Hits(One(e)));
    } else if a.Say? {
      SumAppend(s.refused, s.processor.entry, Hits(One(e)));
      SumAppend(s.exhausted, s.processor.entry, Hits(One(e)));
    } else if a.Requeue? {
      SumAppend(s.log.bounced, s.processor.entry, Hits(One(e)));
    }
  }

  lemma ClientReports(c: Config, s: State, a: Action, e: Entry)
    requires Reported(e, s) && ClientEnabled(c, s, a)
    ensures Reported(e, ClientStep(c, s, a))
  {
    hide Sum;
    SumAppend(s.errors, Foreign, RetryReports(e));
    SumAppend(s.errors, Foreign, ExhaustedReports(e));
    SumAppend(s.errors, Foreign, RefusedReports(e));
  }

  /** Only these parts of the state matter to the accounting of reports. */
  lemma ReportsDependOn(s: State, s': State, e: Entry)
    requires Reported(e, s)
    requires s'.processor == s.processor && s'.errors == s.errors && s'.exhausted == s.exhausted
    requires s'.refused == s.refused && s'.log.drained == s.log.drained
    requires s'.log.failed == s.log.failed && s'.log.bounced == s.log.bounced
    ensures Reported(e, s')
  {
    hide Sum;
  }

  /** The accounting of error reports, one step. */
  lemma StepReports(c: Config, s: State, a: Action, e: Entry)
    requires Reported(e, s) && Enabled(c, s, a)
    ensures Reported(e, Do(c, s, a))
  {
    hide Sum, Reported, ProducerStep, ClientStep, DispatcherStep, TaskStep, SenderStep, ProcessorStep;
    if OfProcessor(a) {
      ProcessorReports(c, s, a, e);
    } else if OfClient(a) {
      ClientReports(c, s, a, e);
    } else {
      ReportsDependOn(s, Do(c, s, a), e);
    }
  }

  lemma TaskKeepsCache(c: Config, s: State, a: Action, p: ChannelProbe)
    requires CacheKept(c, p, s) && TaskEnabled(c, s, a)
    ensures CacheKept(c, p, TaskStep(c, s, a))
  {
    hide Sum;
    SumUpdate(s.tasks, a.task, NextTask(c, s, a), TaskChannels(p));
    if a.Acquire? {
      SumTail(s.pool.cache, ChannelHits(p));
    } else if a.GiveBack? {
      SumAppend(s.pool.cache, s.tasks[a.task].channel, ChannelHits(p));
    }
  }

  lemma ClientKeepsCache(c: Config, s: State, a: Action, p: ChannelProbe)
    requires CacheKept(c, p, s) && ClientEnabled(c, s, a)
    ensures CacheKept(c, p, ClientStep(c, s, a))
  {
    hide Sum;
    var s' := ClientStep(c, s, a);
    if a.ShutChannel? {
      SumTail(s.pool.cache, ChannelHits(p));
      SumAppend(s.pool.shut, s.pool.cache[0], ChannelHits(p));
    } else if !a.ForeignError? {
      SumUpdate(s.pool.clients, a.client, s'.pool.clients[a.client], ClientChannels(p));
      if a.ClientBorrow? {
        SumTail(s.pool.cache, ChannelHits(p));
      } else if a.ClientReturn? {
        SumAppend(s.pool.cache, s.pool.clients[a.client].channel, ChannelHits(p));
      }
    }
  }

  /** Only these parts of the state matter to the accounting of channels. */
  lemma CacheDependsOn(c: Config, s: State, s': State, p: ChannelProbe)
    requires CacheKept(c, p, s) && s'.pool == s.pool
    requires Sum(s'.tasks, TaskChannels(p)) == Sum(s.tasks, TaskChannels(p))
    ensures CacheKept(c, p, s')
  {
    hide Sum;
  }

  lemma DispatcherKeepsChannels(c: Config, s: State, a: Action, p: ChannelProbe)
    requires DispatcherEnabled(c, s, a)
    ensures Sum(DispatcherStep(c, s, a).tasks, TaskChannels(p)) == Sum(s.tasks, TaskChannels(p))
  {
    hide Sum;
    if a.Dispatch? {
      SumAppend(s.tasks, Wanting(s.dispatcher.entry), TaskChannels(p));
    }
  }

  /** Channel conservation, one step. */
  lemma StepKeepsCache(c: Config, s: State, a: Action, p: ChannelProbe)
    requires CacheKept(c, p, s) && Enabled(c, s, a)
    ensures CacheKept(c, p, Do(c, s, a))
  {
    hide Sum, CacheKept, ProducerStep, ClientStep, DispatcherStep, TaskStep, SenderStep, ProcessorStep;
    if OfTask(a) {
      TaskKeepsCache(c, s, a, p);
    } else if OfClient(a) {
      ClientKeepsCache(c, s, a, p);
    } else {
      if OfDispatcher(a) { DispatcherKeepsChannels(c, s, a, p); }
      CacheDependsOn(c, s, Do(c, s, a), p);
    }
  }

  lemma TaskKeepsPermits(c: Config, s: State, a: Action)
    requires TaskEnabled(c, s, a)
    ensures Sum(TaskStep(c, s, a).tasks, Live) <= Sum(s.tasks, Live)
  {
    hide Sum;
    SumUpdate(s.tasks, a.task, NextTask(c, s, a), Live);
  }

  lemma DispatcherKeepsPermits(c: Config, s: State, a: Action)
    requires Sum(s.tasks, Live) <= Permits(c) && DispatcherEnabled(c, s, a)
    ensures Sum(DispatcherStep(c, s, a).tasks, Live) <= Permits(c)
  {
    hide Sum;
    if a.Dispatch? {
      SumAppend(s.tasks, Wanting(s.dispatcher.entry), Live);
    }
  }

  lemma StepKeepsPermits(c: Config, s: State, a: Action)
    requires Sum(s.tasks, Live) <= Permits(c) && Enabled(c, s, a)
    ensures Sum(Do(c, s, a).tasks, Live) <= Permits(c)
  {
    hide Sum, Permits, ProducerStep, ClientStep, DispatcherStep, TaskStep, SenderStep, ProcessorStep;
    if OfTask(a) {
      TaskKeepsPermits(c, s, a);
    } else if OfDispatcher(a) {
      DispatcherKeepsPermits(c, s, a);
    }
  }

  lemma SenderCounts(c: Config, s: State, a: Action)
    requires Counted(s) && SenderEnabled(c, s, a)
    ensures Counted(SenderStep(c, s, a))
  {
    hide Sum;
    if a.Count? {
      forall l | 0 <= l < |s.retry|
        ensures SenderStep(c, s, a).retry[l] ==
          (s.initial[l] + Sum(SenderStep(c, s, a).log.counted, Hits(OfLetter(l)))) % RETRY_MODULUS
      {
        SumAppend(s.log.counted, s.senders[a.sender].entry, Hits(OfLetter(l)));
      }
    }
  }

  lemma CountsDependOn(s: State, s': State)
    requires Counted(s) && s'.retry == s.retry && s'.initial == s.initial && s'.log.counted == s.log.counted
    ensures Counted(s')
  {
  }

  lemma StepCounts(c: Config, s: State, a: Action)
    requires Counted(s) && Enabled(c, s, a)
    ensures Counted(Do(c, s, a))
  {
    hide Sum, Counted, ProducerStep, ClientStep, DispatcherStep, TaskStep, SenderStep, ProcessorStep;
    if OfSender(a) {
      SenderCounts(c, s, a);
    } else {
      CountsDependOn(s, Do(c, s, a));
    }
  }

  lemma TaskAcknowledges(c: Config, s: State, a: Action, p: Probe)
    requires Acknowledged(p, s) && TaskEnabled(c, s, a)
    ensures Acknowledged(p, TaskStep(c, s, a))
  {
    hide Sum;
    if a.Confirm? && !a.verdict.Nacked? {
      SumAppend(s.senders, TaskStep(c, s, a).senders[|s.senders|], SenderAcked(p));
      SumAppend(s.log.acked, s.tasks[a.task].entry, Hits(p));
    }
  }

  lemma SenderAcknowledges(c: Config, s: State, a: Action, p: Probe)
    requires Acknowledged(p, s) && SenderEnabled(c, s, a)
    ensures Acknowledged(p, SenderStep(c, s, a))
  {
    hide Sum;
    var s' := SenderStep(c, s, a);
    SumUpdate(s.senders, a.sender, s'.senders[a.sender], SenderAcked(p));
    if a.SendReceipt? {
      SumAppend(s.receipts, s'.receipts[|s.receipts|], ReceiptAcked(p));
    }
  }

  lemma ProcessorAcknowledges(c: Config, s: State, a: Action, p: Probe)
    requires Acknowledged(p, s) && ProcessorEnabled(c, s, a)
    ensures Acknowledged(p, ProcessorStep(c, s, a))
  {
    hide Sum;
    if a.TakeReceipt? {
      SumTail(s.receipts, ReceiptAcked(p));
      SumAppend(s.confirmed, s.receipts[0].entry, Hits(p));
    }
  }

  lemma AcknowledgedDependsOn(s: State, s': State, p: Probe)
    requires Acknowledged(p, s) && s'.log.acked == s.log.acked && s'.senders == s.senders
    requires s'.receipts == s.receipts && s'.confirmed == s.confirmed
    ensures Acknowledged(p, s')
  {
    hide Sum;
  }

  lemma StepAcknowledges(c: Config, s: State, a: Action, p: Probe)
    requires Acknowledged(p, s) && Enabled(c, s, a)
    ensures Acknowledged(p, Do(c, s, a))
  {
    hide Sum, Acknowledged, ProducerStep, ClientStep, DispatcherStep, TaskStep, SenderStep, ProcessorStep;
    if OfTask(a) {
      TaskAcknowledges(c, s, a, p);
    } else if OfSender(a) {
      SenderAcknowledges(c, s, a, p);
    } else if OfProcessor(a) {
      ProcessorAcknowledges(c, s, a, p);
    } else {
      AcknowledgedDependsOn(s, Do(c, s, a), p);
    }
  }

  /** Every step of every goroutine keeps every invariant. */
  lemma StepKeepsInv(c: Config, s: State, a: Action)
    requires Inv(c, s) && Enabled(c, s, a)
    ensures Inv(c, Do(c, s, a))
  {
    hide Enabled, Do, Issued, Ordered, Dispatched, Counted, Sum, Conserved, Balanced, Acknowledged, Reported, CacheKept;
    StepOrders(c, s, a);
    StepDispatches(c, s, a);
    StepCounts(c, s, a);
    StepKeepsPermits(c, s, a);
    forall p: Probe ensures Conserved(p, Do(c, s, a)) && Balanced(p, Do(c, s, a)) { StepConserves(c, s, a, p); }
    forall p: Probe ensures Acknowledged(p, Do(c, s, a)) { StepAcknowledges(c, s, a, p); }
    forall e: Entry ensures Reported(e, Do(c, s, a)) { StepReports(c, s, a, e); }
    forall p: ChannelProbe ensures CacheKept(c, p, Do(c, s, a)) { StepKeepsCache(c, s, a, p); }
  }

  lemma {:induction false} RunKeepsInv(c: Config, s: State, run: seq<Action>)
    requires Inv(c, s) && Executable(c, s, run)
    ensures Inv(c, Run(c, s, run))
    decreases |run|
  {
    if run != [] {
      StepKeepsInv(c, s, run[0]);
      RunKeepsInv(c, Do(c, s, run[0]), run[1..]);
    }
  }

  lemma ReachableInv(c: Config, s: State)
    requires Reachable(c, s)
    ensures Inv(c, s)
  {
    var s0: State, run: seq<Action> :| Initial(c, s0) && Executable(c, s0, run) && Run(c, s0, run) == s;
    InitialInv(c, s0);
    RunKeepsInv(c, s0, run);
  }
}
