/** The auto-publish and retry pipeline (publisher.go, rabbitservice.go) together
    with the channel cache it shares with the consumers (connectionpool.go,
    consumer.go), as atomic steps over one explicit state. Go channel operations,
    lock operations and counter increments are atomic; sleeps are stutters; the
    broker's answers are chosen by the environment. */
module Pipeline {
  import opened Sequences

  const RETRY_MODULUS: nat := 65536

  /** A Go uint16. */
  type Counter = n: nat | n < 65536

  function Increment(n: Counter): Counter { (n + 1) % RETRY_MODULUS }

  datatype Config = Config(
    letterCapacity: nat,   // make(chan *Letter, 1000)
    receiptCapacity: nat,  // make(chan *PublishReceipt, 1000)
    errorCapacity: nat,    // make(chan error, 1000)
    cacheSize: nat,        // MaxCacheChannelCount
    maxRetry: Counter)     // MaxRetryCount

  predicate ValidConfig(c: Config)
  {
    c.letterCapacity > 0 && c.receiptCapacity > 0 && c.errorCapacity > 0
  }

  /** NewPublisher replaces a MaxRetryCount of 0. */
  function MaxRetryOf(configured: Counter): Counter { if configured == 0 then 5 else configured }

  /** The configuration the constructors build: three buffers of 1000. */
  function NewConfig(cacheSize: nat, configured: Counter): (c: Config)
    ensures ValidConfig(c) && c.cacheSize == cacheSize && c.maxRetry > 0 && (configured > 0 ==> c.maxRetry == configured)
  {
    Config(1000, 1000, 1000, cacheSize, MaxRetryOf(configured))
  }

  /** The capacity of parallelPublishSemaphore. */
  function Permits(c: Config): nat { c.cacheSize / 2 + 1 }

  /** One accepted queue entry. `letter` is the *Letter it points to, so several
      entries may share one letter and its RetryCount. */
  datatype Entry = Entry(ticket: nat, letter: nat)

  datatype Dispatcher =
    | NotStarted
    | Starting                // the stop check before deliverLetters
    | Polling                 // select on the letter queue
    | InHand(entry: Entry)    // waiting for a semaphore permit
    | CheckingStop            // saw the queue empty, about to look at autoStop
    | Leaving                 // out of the loop, about to clear autoStarted
    | Gone

  /** A publish goroutine. Slots are never reused, so an index names a goroutine. */
  datatype Task =
    | Wanting(entry: Entry)
    | Holding(entry: Entry, channel: nat)
    | Giving(entry: Entry, channel: nat, erred: bool)
    | Waiting(entry: Entry)
    | Releasing               // about to give the permit back
    | Ended

  /** A receipt goroutine: RetryCount++ on failure, then one send. */
  datatype Sender = Counting(entry: Entry) | Ready(entry: Entry, success: bool) | Sent

  datatype Receipt = Receipt(entry: Entry, success: bool)

  datatype Processor =
    | Idle
    | Judging(entry: Entry)
    | SayingRetry(entry: Entry)
    | Requeuing(entry: Entry)
    | SayingRefused(entry: Entry)
    | SayingExhausted(entry: Entry)

  datatype Report = Retrying(entry: Entry) | Exhausted(entry: Entry) | Refused(entry: Entry) | Foreign

  /** Another user of the cache: a consumer loop or a direct publisher. A managed
      channel came from the cache; an unmanaged one from GetTransientChannel. */
  datatype Client = Empty | Holds(channel: nat, managed: bool)

  /** cp.channels, its other users, and the cached channels closed by
      ConnectionPool.Shutdown. */
  datatype Pool = Pool(cache: seq<nat>, clients: seq<Client>, shut: seq<nat>)

  /** What has happened so far. No step reads a history. */
  datatype History = History(
    issued: seq<Entry>,       // entries in the order producers had them accepted
    accepted: seq<Entry>,     // every successful send on pub.letters, requeues included
    taken: seq<Entry>,        // every receive from pub.letters
    emptyAt: nat,             // |accepted| at the dispatcher's last empty observation
    acked: seq<Entry>,        // every attempt the broker acknowledged
    counted: seq<Entry>,      // every RetryCount++
    failed: seq<Entry>,       // every failed receipt taken by the processor
    granted: seq<Entry>,      // every decision to retry
    bounced: seq<Entry>,      // every requeue that found the queue closed
    drained: seq<Report>)     // every error taken off rs.centralErr

  datatype State = State(
    initial: seq<Counter>,    // RetryCount of each letter before its first attempt
    retry: seq<Counter>,      // RetryCount of each letter now
    queue: seq<Entry>,        // pub.letters
    closed: bool,             // close(pub.letters) has happened
    dispatcher: Dispatcher,
    asked: nat,               // stop goroutines that have not sent their signal yet
    stops: nat,               // signals in pub.autoStop, which holds one
    tasks: seq<Task>,
    senders: seq<Sender>,
    receipts: seq<Receipt>,   // pub.publishReceipts
    processor: Processor,
    errors: seq<Report>,      // rs.centralErr
    confirmed: seq<Entry>,
    exhausted: seq<Entry>,
    refused: seq<Entry>,
    pool: Pool,
    log: History)

  datatype Verdict = Acked | Nacked | TimedOut | Cancelled

  datatype Action =
    // Producers and controllers
    | Submit(letter: nat)
    | StartPublisher
    | RequestStop             // stopAutoPublish starts a goroutine
    | SendStop                // which sends the signal later
    // Other users of the cache, the pool's shutdown, other senders of errors
    | ClientBorrow(client: nat)
    | ClientTransient(client: nat)
    | ClientReturn(client: nat, erred: bool)
    | ShutChannel
    | ForeignError
    // The dispatcher
    | BeginCheck
    | Take
    | Dispatch
    | SeeEmpty
    | CheckStop
    | Leave
    // Publish goroutines
    | Acquire(task: nat)
    | Publish(task: nat, erred: bool)
    | GiveBack(task: nat)
    | Confirm(task: nat, verdict: Verdict)
    | Release(task: nat)
    // Receipt goroutines
    | Count(sender: nat)
    | SendReceipt(sender: nat)
    // The receipt processor and the error drain
    | TakeReceipt
    | Judge
    | Say
    | Requeue
    | DrainError

  function Live(t: Task): nat { if t.Ended? then 0 else 1 }

  predicate AutoStarted(s: State) { !s.dispatcher.NotStarted? && !s.dispatcher.Gone? }

  predicate OfProducer(a: Action) { a.Submit? || a.StartPublisher? || a.RequestStop? || a.SendStop? }

  predicate OfClient(a: Action)
  {
    a.ClientBorrow? || a.ClientTransient? || a.ClientReturn? || a.ShutChannel? || a.ForeignError?
  }

  predicate OfDispatcher(a: Action)
  {
    a.BeginCheck? || a.Take? || a.Dispatch? || a.SeeEmpty? || a.CheckStop? || a.Leave?
  }

  predicate OfTask(a: Action) { a.Acquire? || a.Publish? || a.GiveBack? || a.Confirm? || a.Release? }

  predicate OfSender(a: Action) { a.Count? || a.SendReceipt? }

  predicate OfProcessor(a: Action) { a.TakeReceipt? || a.Judge? || a.Say? || a.Requeue? || a.DrainError? }

  // ---------- Producers and controllers ----------

  predicate ProducerEnabled(c: Config, s: State, a: Action)
  {
    match a
    case Submit(l) => l < |s.retry| && (s.closed || |s.queue| < c.letterCapacity)
    case StartPublisher => s.dispatcher.NotStarted?
    case RequestStop => AutoStarted(s)
    case SendStop => s.asked > 0 && s.stops == 0
    case _ => false
  }

  /** A send on the closed queue panics; safeSend recovers and answers false. */
  function ProducerStep(c: Config, s: State, a: Action): (s': State)
    requires ProducerEnabled(c, s, a)
    ensures s' == s.(queue := s'.queue, dispatcher := s'.dispatcher, asked := s'.asked, stops := s'.stops,
                     log := s.log.(issued := s'.log.issued, accepted := s'.log.accepted))
  {
    match a
    case Submit(l) =>
      if s.closed then s
      else
        var e := Entry(|s.log.issued|, l);
        s.(queue := s.queue + [e],
           log := s.log.(issued := s.log.issued + [e], accepted := s.log.accepted + [e]))
    case StartPublisher => s.(dispatcher := Starting)
    case RequestStop => s.(asked := s.asked + 1)
    case SendStop => s.(asked := s.asked - 1, stops := s.stops + 1)
  }

  // ---------- Other users of the cache ----------

  predicate ClientEnabled(c: Config, s: State, a: Action)
  {
    var clients := s.pool.clients;
    match a
    case ClientBorrow(i) => i < |clients| && clients[i].Empty? && s.pool.cache != []
    case ClientTransient(i) => i < |clients| && clients[i].Empty?
    case ClientReturn(i, _) =>
      i < |clients| && clients[i].Holds? && (clients[i].managed ==> |s.pool.cache| < c.cacheSize)
    case ShutChannel => s.pool.cache != []
    case ForeignError => |s.errors| < c.errorCapacity
    case _ => false
  }

  function ClientStep(c: Config, s: State, a: Action): (s': State)
    requires ClientEnabled(c, s, a)
    ensures s' == s.(pool := s'.pool, errors := s'.errors)
  {
    var Pool(cache, clients, shut) := s.pool;
    match a
    case ClientBorrow(i) => s.(pool := Pool(cache[1..], clients[i := Holds(cache[0], true)], shut))
    case ClientTransient(i) => s.(pool := Pool(cache, clients[i := Holds(0, false)], shut))
    case ClientReturn(i, _) =>
      var kept := if clients[i].managed then cache + [clients[i].channel] else cache;
      s.(pool := Pool(kept, clients[i := Empty], shut))
    case ShutChannel => s.(pool := Pool(cache[1..], clients, shut + [cache[0]]))
    case ForeignError => s.(errors := s.errors + [Foreign])
  }

  // ---------- The dispatcher ----------

  predicate DispatcherEnabled(c: Config, s: State, a: Action)
  {
    match a
    case BeginCheck => s.dispatcher.Starting?
    case Take => s.dispatcher.Polling? && s.queue != []
    case Dispatch => s.dispatcher.InHand? && Sum(s.tasks, Live) < Permits(c)
    case SeeEmpty => s.dispatcher.Polling? && s.queue == []
    case CheckStop => s.dispatcher.CheckingStop?
    case Leave => s.dispatcher.Leaving?
    case _ => false
  }

  /** A stop seen before deliverLetters leaves the queue open; one seen inside
      deliverLetters closes it. */
  function DispatcherStep(c: Config, s: State, a: Action): (s': State)
    requires DispatcherEnabled(c, s, a)
    ensures s' == s.(queue := s'.queue, closed := s'.closed, dispatcher := s'.dispatcher, stops := s'.stops,
                     tasks := s'.tasks, log := s.log.(taken := s'.log.taken, emptyAt := s'.log.emptyAt))
  {
    match a
    case BeginCheck =>
      if s.stops > 0 then s.(stops := s.stops - 1, dispatcher := Leaving) else s.(dispatcher := Polling)
    case Take =>
      var e := s.queue[0];
      s.(queue := s.queue[1..], dispatcher := InHand(e), log := s.log.(taken := s.log.taken + [e]))
    case Dispatch => s.(dispatcher := Polling, tasks := s.tasks + [Wanting(s.dispatcher.entry)])
    case SeeEmpty => s.(dispatcher := CheckingStop, log := s.log.(emptyAt := |s.log.accepted|))
    case CheckStop =>
      if s.stops > 0 then s.(stops := s.stops - 1, closed := true, dispatcher := Leaving)
      else s.(dispatcher := Polling)
    case Leave => s.(dispatcher := Gone)
  }

  // ---------- Publish goroutines: PublishWithConfirmation and the permit ----------

  predicate TaskEnabled(c: Config, s: State, a: Action)
  {
    match a
    case Acquire(i) => i < |s.tasks| && s.tasks[i].Wanting? && s.pool.cache != []
    case Publish(i, _) => i < |s.tasks| && s.tasks[i].Holding?
    case GiveBack(i) => i < |s.tasks| && s.tasks[i].Giving? && |s.pool.cache| < c.cacheSize
    case Confirm(i, _) => i < |s.tasks| && s.tasks[i].Waiting?
    case Release(i) => i < |s.tasks| && s.tasks[i].Releasing?
    case _ => false
  }

  /** The goroutine's next program point. */
  function NextTask(c: Config, s: State, a: Action): Task
    requires TaskEnabled(c, s, a)
  {
    var t := s.tasks[a.task];
    match a
    case Acquire(_) => Holding(t.entry, s.pool.cache[0])
    case Publish(_, erred) => Giving(t.entry, t.channel, erred)
    case GiveBack(_) => if t.erred then Wanting(t.entry) else Waiting(t.entry)
    case Confirm(_, v) => if v.Nacked? then Wanting(t.entry) else Releasing
    case Release(_) => Ended
  }

  function TaskStep(c: Config, s: State, a: Action): (s': State)
    requires TaskEnabled(c, s, a)
    ensures s' == s.(tasks := s'.tasks, senders := s'.senders, pool := s.pool.(cache := s'.pool.cache),
                     log := s.log.(acked := s'.log.acked))
  {
    var t := s.tasks[a.task];
    var tasks := s.tasks[a.task := NextTask(c, s, a)];
    match a
    case Acquire(_) => s.(tasks := tasks, pool := s.pool.(cache := s.pool.cache[1..]))
    case GiveBack(_) => s.(tasks := tasks, pool := s.pool.(cache := s.pool.cache + [t.channel]))
    case Confirm(_, v) =>
      if v.Nacked? then s.(tasks := tasks)
      else if v.Acked? then
        s.(tasks := tasks, senders := s.senders + [Ready(t.entry, true)],
           log := s.log.(acked := s.log.acked + [t.entry]))
      else s.(tasks := tasks, senders := s.senders + [Counting(t.entry)])
    case _ => s.(tasks := tasks)
  }

  // ---------- Receipt goroutines ----------

  predicate SenderEnabled(c: Config, s: State, a: Action)
  {
    match a
    case Count(j) => j < |s.senders| && s.senders[j].Counting? && s.senders[j].entry.letter < |s.retry|
    case SendReceipt(j) => j < |s.senders| && s.senders[j].Ready? && |s.receipts| < c.receiptCapacity
    case _ => false
  }

  function SenderStep(c: Config, s: State, a: Action): (s': State)
    requires SenderEnabled(c, s, a)
    ensures s' == s.(senders := s'.senders, receipts := s'.receipts, retry := s'.retry,
                     log := s.log.(counted := s'.log.counted))
  {
    var r := s.senders[a.sender];
    match a
    case Count(j) =>
      s.(senders := s.senders[j := Ready(r.entry, false)],
         retry := s.retry[r.entry.letter := Increment(s.retry[r.entry.letter])],
         log := s.log.(counted := s.log.counted + [r.entry]))
    case SendReceipt(j) =>
      s.(senders := s.senders[j := Sent], receipts := s.receipts + [Receipt(r.entry, r.success)])
  }

  // ---------- The receipt processor and the error drain ----------

  predicate ProcessorEnabled(c: Config, s: State, a: Action)
  {
    match a
    case TakeReceipt => s.processor.Idle? && s.receipts != []
    case Judge => s.processor.Judging? && s.processor.entry.letter < |s.retry|
    case Say =>
      (s.processor.SayingRetry? || s.processor.SayingRefused? || s.processor.SayingExhausted?)
      && |s.errors| < c.errorCapacity
    case Requeue => s.processor.Requeuing? && (s.closed || |s.queue| < c.letterCapacity)
    case DrainError => s.errors != []
    case _ => false
  }

  function ProcessorStep(c: Config, s: State, a: Action): (s': State)
    requires ProcessorEnabled(c, s, a)
    ensures s' == s.(queue := s'.queue, receipts := s'.receipts, processor := s'.processor, errors := s'.errors,
                     confirmed := s'.confirmed, exhausted := s'.exhausted, refused := s'.refused,
                     log := s.log.(accepted := s'.log.accepted, failed := s'.log.failed, granted := s'.log.granted,
                                   bounced := s'.log.bounced, drained := s'.log.drained))
  {
    match a
    case TakeReceipt =>
      var r := s.receipts[0];
      if r.success then s.(receipts := s.receipts[1..], confirmed := s.confirmed + [r.entry])
      else s.(receipts := s.receipts[1..], processor := Judging(r.entry),
              log := s.log.(failed := s.log.failed + [r.entry]))
    case Judge =>
      var e := s.processor.entry;
      if s.retry[e.letter] <= c.maxRetry
      then s.(processor := SayingRetry(e), log := s.log.(granted := s.log.granted + [e]))
      else s.(processor := SayingExhausted(e))
    case Say =>
      (match s.processor
       case SayingRetry(e) => s.(errors := s.errors + [Retrying(e)], processor := Requeuing(e))
       case SayingRefused(e) => s.(errors := s.errors + [Refused(e)], processor := Idle, refused := s.refused + [e])
       case SayingExhausted(e) => s.(errors := s.errors + [Exhausted(e)], processor := Idle, exhausted := s.exhausted + [e]))
    case Requeue =>
      var e := s.processor.entry;
      if s.closed then s.(processor := SayingRefused(e), log := s.log.(bounced := s.log.bounced + [e]))
      else s.(processor := Idle, queue := s.queue + [e], log := s.log.(accepted := s.log.accepted + [e]))
    case DrainError => s.(errors := s.errors[1..], log := s.log.(drained := s.log.drained + [s.errors[0]]))
  }

  // ---------- The whole system ----------

  predicate Enabled(c: Config, s: State, a: Action)
  {
    if OfProducer(a) then ProducerEnabled(c, s, a)
    else if OfClient(a) then ClientEnabled(c, s, a)
    else if OfDispatcher(a) then DispatcherEnabled(c, s, a)
    else if OfTask(a) then TaskEnabled(c, s, a)
    else if OfSender(a) then SenderEnabled(c, s, a)
    else ProcessorEnabled(c, s, a)
  }

  function Do(c: Config, s: State, a: Action): State
    requires Enabled(c, s, a)
  {
    if OfProducer(a) then ProducerStep(c, s, a)
    else if OfClient(a) then ClientStep(c, s, a)
    else if OfDispatcher(a) then DispatcherStep(c, s, a)
    else if OfTask(a) then TaskStep(c, s, a)
    else if OfSender(a) then SenderStep(c, s, a)
    else ProcessorStep(c, s, a)
  }

  /** The state the constructors leave: nothing queued, the cache full, and every
      other user of the cache empty-handed. */
  ghost predicate Initial(c: Config, s: State)
  {
    && s.retry == s.initial
    && s.queue == [] && !s.closed && s.dispatcher.NotStarted? && s.asked == 0 && s.stops == 0
    && s.tasks == [] && s.senders == [] && s.receipts == [] && s.processor.Idle? && s.errors == []
    && s.confirmed == [] && s.exhausted == [] && s.refused == []
    && s.pool.cache == Upto(c.cacheSize) && s.pool.shut == []
    && (forall i :: 0 <= i < |s.pool.clients| ==> s.pool.clients[i].Empty?)
    && s.log == History([], [], [], 0, [], [], [], [], [], [])
  }

  predicate Executable(c: Config, s: State, run: seq<Action>)
    decreases |run|
  {
    run == [] || (Enabled(c, s, run[0]) && Executable(c, Do(c, s, run[0]), run[1..]))
  }

  function Run(c: Config, s: State, run: seq<Action>): State
    requires Executable(c, s, run)
    decreases |run|
  {
    if run == [] then s else Run(c, Do(c, s, run[0]), run[1..])
  }

  /** `s` can be reached from an initial state by some run. */
  ghost predicate Reachable(c: Config, s: State)
  {
    exists s0: State, run: seq<Action> ::
      Initial(c, s0) && Executable(c, s0, run) && Run(c, s0, run) == s
  }

  lemma {:induction false} RunConcat(c: Config, s: State, xs: seq<Action>, ys: seq<Action>)
    requires Executable(c, s, xs) && Executable(c, Run(c, s, xs), ys)
    ensures Executable(c, s, xs + ys) && Run(c, s, xs + ys) == Run(c, Run(c, s, xs), ys)
    decreases |xs|
  {
    hide Enabled, Do;
    if xs == [] {
      assert xs + ys == ys;
    } else {
      assert (xs + ys)[1..] == xs[1..] + ys;
      RunConcat(c, Do(c, s, xs[0]), xs[1..], ys);
    }
  }

  lemma RunOne(c: Config, s: State, a: Action)
    requires Enabled(c, s, a)
    ensures Executable(c, s, [a]) && Run(c, s, [a]) == Do(c, s, a)
  {
    hide Enabled, Do;
    assert [a][1..] == [];
  }

  /** The run leads from s to t. */
  ghost predicate Leads(c: Config, s: State, run: seq<Action>, t: State) { Executable(c, s, run) && Run(c, s, run) == t }

  lemma Then(c: Config, s: State, a: Action, m: State, run: seq<Action>, t: State)
    requires Enabled(c, s, a) && Do(c, s, a) == m && Leads(c, m, run, t)
    ensures Leads(c, s, [a] + run, t)
  {
    hide Enabled, Do;
    assert ([a] + run)[1..] == run;
  }

  lemma ReachableOn(c: Config, s: State, run: seq<Action>)
    requires Reachable(c, s) && Executable(c, s, run)
    ensures Reachable(c, Run(c, s, run))
  {
    var s0: State, before: seq<Action> :| Initial(c, s0) && Executable(c, s0, before) && Run(c, s0, before) == s;
    RunConcat(c, s0, before, run);
  }
}
