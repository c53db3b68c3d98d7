/** The blocking queue of components/kvs_utils/src/ThreadSafeBlockingQueue.c: a locked queue paired
    with a counting semaphore that refuses permits beyond its limit. Any number of threads enqueue and
    dequeue, interleaved step by step. */
module BlockingQueue {
  import opened Common

  const LIMIT := 1024

  /** Where a thread stands. */
  datatype Pc =
    | Idle
    | WantStore(x: nat)  // enqueue: lock the mutex
    | Store(x: nat)      // store the item
    | Stored             // unlock
    | Release            // release a permit
    | Acquire            // dequeue: acquire a permit
    | Admitted           // lock the mutex
    | Pop                // take the head
    | Popped             // unlock

  /** stored and popped are the items in the order they went in and out; refused counts the permits the
      semaphore would not take; starved is set when a dequeuer finds the queue empty. */
  datatype Shared = Shared(locked: bool, items: seq<nat>, permits: nat, stored: seq<nat>, popped: seq<nat>, refused: nat,
                           starved: bool)

  datatype State = State(threads: map<nat, Pc>, sh: Shared)

  datatype Move = Blocked | To(pc: Pc, sh: Shared)

  function Next(pc: Pc, s: Shared): Move {
    match pc
    case Idle => Blocked
    case WantStore(x) => if s.locked then Blocked else To(Store(x), s.(locked := true))
    case Store(x) => To(Stored, s.(items := s.items + [x], stored := s.stored + [x]))
    case Stored => To(Release, s.(locked := false))
    case Release => To(Idle, if s.permits < LIMIT then s.(permits := s.permits + 1) else s.(refused := s.refused + 1))
    case Acquire => if s.permits == 0 then Blocked else To(Admitted, s.(permits := s.permits - 1))
    case Admitted => if s.locked then Blocked else To(Pop, s.(locked := true))
    case Pop =>
      if s.items == [] then To(Popped, s.(starved := true))
      else To(Popped, s.(items := s.items[1..], popped := s.popped + [s.items[0]]))
    case Popped => To(Idle, s.(locked := false))
  }

  /** Thread i takes its next step, or calls safeBlockingQueueEnqueue or safeBlockingQueueDequeue. */
  datatype Label = Go(i: nat) | Enqueue(i: nat, x: nat) | Dequeue(i: nat)

  function Step(s: State, l: Label): Option<State> {
    match l
    case Go(i) =>
      if i !in s.threads then None
      else
        var m := Next(s.threads[i], s.sh);
        if m.Blocked? then None else Some(State(s.threads[i := m.pc], m.sh))
    case Enqueue(i, x) =>
      if i in s.threads && !s.threads[i].Idle? then None else Some(s.(threads := s.threads[i := WantStore(x)]))
    case Dequeue(i) =>
      if i in s.threads && !s.threads[i].Idle? then None else Some(s.(threads := s.threads[i := Acquire]))
  }

  predicate Init(s: State) { s == State(map[], Shared(false, [], 0, [], [], 0, false)) }

  ghost predicate IsRun(states: seq<State>, labels: seq<Label>) {
    && |states| == |labels| + 1
    && Init(states[0])
    && forall k | 0 <= k < |labels| :: Step(states[k], labels[k]) == Some(states[k + 1])
  }

  // ---------------------------------------------------------------- the invariant

  /** A dequeuer that holds a permit and has not popped. */
  predicate HasPermit(pc: Pc) { pc.Admitted? || pc.Pop? }

  /** An enqueuer that has stored and not released. */
  predicate Owes(pc: Pc) { pc.Stored? || pc.Release? }

  predicate Holds(pc: Pc) { pc.Store? || pc.Stored? || pc.Pop? || pc.Popped? }

  /** items, with as many threads holding a permit, owing one and holding the lock. */
  predicate Balanced(s: Shared, admitted: nat, owing: nat, holding: nat) {
    && |s.items| == s.permits + admitted + owing + s.refused
    && s.stored == s.popped + s.items
    && holding == Bit(s.locked)
    && !s.starved
  }

  ghost predicate Invariant(s: State) {
    Balanced(s.sh, |Who(s.threads, HasPermit)|, |Who(s.threads, Owes)|, |Who(s.threads, Holds)|)
  }

  lemma NextBalances(pc: Pc, s: Shared, a: nat, o: nat, h: nat, a': nat, o': nat, h': nat)
    requires Balanced(s, a, o, h) && Next(pc, s).To?
    requires HasPermit(pc) ==> a > 0
    requires a' == a - Bit(HasPermit(pc)) + Bit(HasPermit(Next(pc, s).pc))
    requires o' == o - Bit(Owes(pc)) + Bit(Owes(Next(pc, s).pc))
    requires h' == h - Bit(Holds(pc)) + Bit(Holds(Next(pc, s).pc))
    ensures Balanced(Next(pc, s).sh, a', o', h')
  {}

  lemma GoKeeps(s: State, i: nat)
    requires Invariant(s) && Step(s, Go(i)).Some?
    ensures Invariant(Step(s, Go(i)).value)
  {
    hide Next, Balanced, HasPermit, Owes, Holds;
    var pc, t := s.threads[i], s.threads;
    var m := Next(pc, s.sh);
    CountAfter(t, i, m.pc, HasPermit);
    CountAfter(t, i, m.pc, Owes);
    CountAfter(t, i, m.pc, Holds);
    if HasPermit(pc) { assert i in Who(t, HasPermit); }
    var t' := t[i := m.pc];
    NextBalances(pc, s.sh, |Who(t, HasPermit)|, |Who(t, Owes)|, |Who(t, Holds)|,
      |Who(t', HasPermit)|, |Who(t', Owes)|, |Who(t', Holds)|);
  }

  lemma CallKeeps(s: State, i: nat, pc: Pc)
    requires Invariant(s) && (i in s.threads ==> s.threads[i].Idle?) && (pc.WantStore? || pc.Acquire?)
    ensures Invariant(s.(threads := s.threads[i := pc]))
  {
    if i in s.threads {
      CountAfter(s.threads, i, pc, HasPermit);
      CountAfter(s.threads, i, pc, Owes);
      CountAfter(s.threads, i, pc, Holds);
    } else {
      CountAdd(s.threads, i, pc, HasPermit);
      CountAdd(s.threads, i, pc, Owes);
      CountAdd(s.threads, i, pc, Holds);
    }
  }

  /** In every run the items stored and not popped are the permits, plus the dequeuers that have one and
      have not popped, plus the enqueuers that have stored and not released, plus the permits refused;
      what has been popped is a prefix of what has been stored, with the queue as the rest; one thread
      at most holds the lock, and no dequeuer has found the queue empty. */
  lemma {:induction false} RunBalances(states: seq<State>, labels: seq<Label>, k: nat)
    requires IsRun(states, labels) && k < |states|
    ensures Invariant(states[k])
  {
    hide Next;
    if k == 0 {
      assert Who(states[0].threads, HasPermit) == Who(states[0].threads, Owes) == Who(states[0].threads, Holds) == {};
    } else {
      RunBalances(states, labels, k - 1);
      var s := states[k - 1];
      assert Step(s, labels[k - 1]) == Some(states[k]);
      hide IsRun, Invariant;
      match labels[k - 1]
      case Go(i) => GoKeeps(s, i);
      case Enqueue(i, x) => CallKeeps(s, i, WantStore(x));
      case Dequeue(i) => CallKeeps(s, i, Acquire);
    }
  }

  /** A dequeuer about to pop finds an item: the oldest one not popped yet. */
  lemma PermitMeansItem(states: seq<State>, labels: seq<Label>, k: nat, i: nat)
    requires IsRun(states, labels) && k < |labels| && labels[k] == Go(i)
    requires i in states[k].threads && states[k].threads[i].Pop?
    ensures var s, s' := states[k].sh, states[k + 1].sh;
      |s.popped| < |s.stored| && s'.popped == s.popped + [s.stored[|s.popped|]]
  {
    RunBalances(states, labels, k);
    assert Step(states[k], labels[k]) == Some(states[k + 1]);
    hide IsRun;
    assert i in Who(states[k].threads, HasPermit);
  }

  /** No item is left behind: if none was refused a permit and one is queued while every dequeuer waits
      for a permit, then there is a permit, or an enqueuer is about to release one. */
  lemma ItemMeansPermit(states: seq<State>, labels: seq<Label>, k: nat)
    requires IsRun(states, labels) && k < |states|
    requires states[k].sh.refused == 0 && states[k].sh.items != [] && Who(states[k].threads, HasPermit) == {}
    ensures states[k].sh.permits > 0 || Who(states[k].threads, Owes) != {}
  {
    RunBalances(states, labels, k);
  }

  /** With a refused permit an item stays behind for good: the queue never again has fewer items than
      permits were refused. */
  lemma {:induction false} RefusedStays(states: seq<State>, labels: seq<Label>, j: nat, k: nat)
    requires IsRun(states, labels) && j <= k < |states|
    ensures states[j].sh.refused <= states[k].sh.refused <= |states[k].sh.items|
    decreases k
  {
    RunBalances(states, labels, k);
    if j < k {
      RefusedStays(states, labels, j, k - 1);
      assert Step(states[k - 1], labels[k - 1]) == Some(states[k]);
    }
  }

  /** A permit is refused only with more than 1024 items in the queue: while there never are, none is. */
  lemma {:induction false} NoneRefused(states: seq<State>, labels: seq<Label>, k: nat)
    requires IsRun(states, labels) && k < |states| && forall m | 0 <= m <= k :: |states[m].sh.items| <= 1024
    ensures states[k].sh.refused == 0
  {
    if k > 0 {
      NoneRefused(states, labels, k - 1);
      RunBalances(states, labels, k - 1);
      var s, l := states[k - 1], labels[k - 1];
      assert Step(s, l) == Some(states[k]);
      hide IsRun;
      if l.Go? && s.threads[l.i].Release? { assert l.i in Who(s.threads, Owes); }
    }
  }

  // ---------------------------------------------------------------- what is stored

  /** What thread i asks to be enqueued. */
  function AsksOf(i: nat): (State, Label) -> seq<nat> {
    (s: State, l: Label) => if l.Enqueue? && l.i == i then [l.x] else []
  }

  /** What is enqueued by a thread that gets the mutex. */
  function Enters(s: State, l: Label): seq<nat> {
    if l.Go? && l.i in s.threads && s.threads[l.i].WantStore? then [s.threads[l.i].x] else []
  }

  /** ... that is thread i. */
  function EntersOf(i: nat): (State, Label) -> seq<nat> {
    (s: State, l: Label) => if l.Go? && l.i == i then Enters(s, l) else []
  }

  /** What thread i waits with for the mutex. */
  function WaitingWith(s: State, i: nat): seq<nat> {
    if i in s.threads && s.threads[i].WantStore? then [s.threads[i].x] else []
  }

  /** What was enqueued in order of the mutex is stored, but for what its holder is about to store. */
  ghost predicate StoredSoFar(s: State, entered: seq<nat>) {
    && (forall i | i in s.threads && s.threads[i].Store? :: entered == s.sh.stored + [s.threads[i].x])
    && ((forall i | i in s.threads :: !s.threads[i].Store?) ==> entered == s.sh.stored)
  }

  lemma StepStores(s: State, l: Label, entered: seq<nat>)
    requires Invariant(s) && StoredSoFar(s, entered) && Step(s, l).Some?
    ensures StoredSoFar(Step(s, l).value, entered + Enters(s, l))
  {
    var s' := Step(s, l).value;
    assert l.i in s'.threads && forall j | j in s.threads && j != l.i :: s'.threads[j] == s.threads[j];
    match l
    case Go(i) =>
      forall j | j in s.threads && Holds(s.threads[j]) ensures s.sh.locked && (Holds(s.threads[i]) ==> i == j) {
        OneHolds(s, i, j);
      }
      hide Invariant;
    case Enqueue(_, _) => hide Invariant;
    case Dequeue(_) => hide Invariant;
  }

  lemma OneHolds(s: State, i: nat, j: nat)
    requires Invariant(s) && i in s.threads && j in s.threads && Holds(s.threads[j])
    ensures s.sh.locked && (Holds(s.threads[i]) ==> i == j)
  {
    var w := Who(s.threads, Holds);
    assert j in w && (Holds(s.threads[i]) ==> i in w);
    assert |w - {j}| == |w| - 1;
    assert i in w && i != j ==> i in w - {j};
  }

  lemma StepAsks(s: State, l: Label, i: nat)
    requires Step(s, l).Some?
    ensures WaitingWith(s, i) + AsksOf(i)(s, l) == EntersOf(i)(s, l) + WaitingWith(Step(s, l).value, i)
  {}

  /** In every run what has been stored is what the calls asked for, in the order in which their threads got
      the mutex, with nothing left out and nothing stored twice: of each thread every call has got the mutex
      once and in order, but for one that waits for it. */
  lemma {:induction false} StoredInOrder(states: seq<State>, labels: seq<Label>, k: nat, i: nat)
    requires IsRun(states, labels) && k < |states|
    ensures StoredSoFar(states[k], History(states, labels, k, Enters))
    ensures History(states, labels, k, AsksOf(i)) == History(states, labels, k, EntersOf(i)) + WaitingWith(states[k], i)
  {
    if k > 0 {
      StoredInOrder(states, labels, k - 1, i);
      RunBalances(states, labels, k - 1);
      var s, l := states[k - 1], labels[k - 1];
      assert Step(s, l) == Some(states[k]);
      StepStores(s, l, History(states, labels, k - 1, Enters));
      StepAsks(s, l, i);
      hide IsRun, Step, StoredSoFar, Invariant, WaitingWith, AsksOf, EntersOf, Enters;
      var asked, entered := History(states, labels, k - 1, AsksOf(i)), History(states, labels, k - 1, EntersOf(i));
      assert asked + AsksOf(i)(s, l) == entered + (WaitingWith(s, i) + AsksOf(i)(s, l));
    }
  }
}
