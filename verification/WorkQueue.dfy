/** The work queue of components/esp_webrtc_utils/src/esp_work_queue.c: the ring of the Linux build
    against a sequence, and the worker that runs what is posted, with its barrier and its start, stop
    and deinit. */
module WorkQueue {
  import opened Common

  /** A task, or the barrier of a call of esp_work_queue_sync. */
  datatype Entry = Work(id: nat) | Barrier(call: nat)

  // ---------------------------------------------------------------- the ring

  /** Where entry k of a ring that starts at head is kept. */
  function Slot(head: nat, k: nat, size: nat): (i: nat)
    requires head < size
    ensures i < size
  {
    (head + k) % size
  }

  class Ring {
    var items: array<Entry>
    var head: nat
    var count: nat
    var created: bool
    /** queue_config.size. */
    var size: nat

    ghost predicate Valid()
      reads this
    {
      if created then items.Length == size > 0 && head < size && count <= size else count == 0
    }

    /** What is queued, oldest first. */
    ghost function Contents(): (q: seq<Entry>)
      reads this, items
      requires Valid()
      ensures |q| == count
    {
      if created then seq(count, k requires k >= 0 && Valid() && created reads this, items => items[Slot(head, k, size)]) else []
    }

    constructor ()
      ensures Valid() && !created && Contents() == []
    {
      items := new Entry[0];
      head, count, created, size := 0, 0, false, 0;
    }

    /** wq_create; allocOk says that the allocation succeeds. */
    method Create(size: nat, allocOk: bool) returns (ok: bool)
      requires size > 0
      modifies this
      ensures Valid() && ok == created == allocOk && Contents() == []
      ensures ok ==> fresh(items) && this.size == size
    {
      if allocOk { items := new Entry[size](_ => Work(0)); }
      head, count, created, this.size := 0, 0, allocOk, size;
      ok := created;
    }

    /** wq_delete. */
    method Delete()
      modifies this`created, this`count
      ensures Valid() && !created && Contents() == []
    {
      created, count := false, 0;
    }

    /** wq_try_send. */
    method TrySend(e: Entry) returns (ok: bool)
      requires Valid()
      modifies this`count, items
      ensures Valid() && ok == (created && |old(Contents())| < size)
      ensures Contents() == if ok then old(Contents()) + [e] else old(Contents())
    {
      ok := false;
      if created && count < size {
        ghost var was := Contents();
        Apart(head, count, size);
        items[Slot(head, count, size)] := e;
        hide Slot;
        count := count + 1;
        assert Contents()[..count - 1] == was;
        ok := true;
      }
    }

    /** wq_receive. */
    method Receive() returns (ok: bool, e: Entry)
      requires Valid()
      modifies this`head, this`count
      ensures Valid() && ok == (old(Contents()) != [])
      ensures ok ==> [e] + Contents() == old(Contents())
      ensures !ok ==> Contents() == old(Contents())
    {
      ok, e := false, Work(0);
      if created && count > 0 {
        e := items[head];
        ghost var was := Contents();
        assert was[0] == e by { assert Slot(head, 0, size) == head; }
        Around(head, size);
        hide Slot;
        head := (head + 1) % size;
        count := count - 1;
        forall k | 0 <= k < count ensures Contents()[k] == was[k + 1] {
          assert Slot(old(head), k + 1, size) == Slot(head, k, size);
        }
        assert was == [e] + Contents();
        ok := true;
      }
    }

    /** wq_pending. */
    method Pending() returns (n: nat)
      requires Valid()
      ensures n == |Contents()|
    {
      n := count;
    }
  }

  lemma SlotIs(head: nat, k: nat, size: nat)
    requires head < size && k <= size
    ensures Slot(head, k, size) == if head + k < size then head + k else head + k - size
  {}

  /** Different entries of a ring are in different places. */
  lemma Apart(head: nat, n: nat, size: nat)
    requires head < size && n < size
    ensures forall k: nat | k < n :: Slot(head, k, size) != Slot(head, n, size)
  {
    hide Slot;
    SlotIs(head, n, size);
    forall k: nat | k < n ensures Slot(head, k, size) != Slot(head, n, size) {
      SlotIs(head, k, size);
    }
  }

  /** Moving the head by one moves every entry by one. */
  lemma Around(head: nat, size: nat)
    requires head < size
    ensures forall k: nat | 0 < k < size :: Slot(head, k, size) == Slot((head + 1) % size, k - 1, size)
  {
    var next := (head + 1) % size;
    assert next == if head + 1 < size then head + 1 else 0;
    hide Slot;
    forall k: nat | 0 < k < size ensures Slot(head, k, size) == Slot(next, k - 1, size) {
      SlotIs(next, k - 1, size);
      SlotIs(head, k, size);
    }
  }

  // ---------------------------------------------------------------- the worker and its callers

  datatype QueueState = Deinit | InitDone | Running | StopRequested

  /** Where a worker task stands. */
  datatype WorkerPc =
    | Loop              // has a stop been requested?
    | Receive           // receive an entry
    | Run(e: Entry)     // call its function; a barrier gives its semaphore
    | Finish(e: Entry)  // the function returns
    | Leave             // mark the queue as not running
    | Gone

  /** Where the one control thread stands: it has created a worker, or waits for it in deinit. */
  datatype ControlPc = Ready | Starting | Deiniting

  /** Where a call of esp_work_queue_sync stands. */
  datatype SyncPc = Posting | Waiting | Synced | Failed

  /** ring is what the queue holds, size its room; kept is what was accepted, less what a deinit threw
      away, and executed what has finished, in order; current is being run; given are the calls whose
      barrier has given its semaphore, and before what had been accepted when it was posted. */
  datatype Shared = Shared(
    state: QueueState, control: ControlPc, created: bool, size: nat, ring: seq<Entry>,
    kept: seq<Entry>, executed: seq<Entry>, current: seq<Entry>, given: set<nat>, before: map<nat, seq<Entry>>)

  datatype State = State(workers: map<nat, WorkerPc>, syncs: map<nat, SyncPc>, sh: Shared)

  datatype WorkerMove = Idle | To(pc: WorkerPc, sh: Shared)

  /** esp_work_queue_task and esp_webrtc_handle_work_queue. */
  function WorkerNext(pc: WorkerPc, s: Shared): WorkerMove {
    match pc
    case Loop => To(if s.state == StopRequested then Leave else Receive, s)
    case Receive =>
      if !s.created || s.ring == [] then To(Loop, s)
      else To(Run(s.ring[0]), s.(ring := s.ring[1..], current := s.current + [s.ring[0]]))
    case Run(e) => To(Finish(e), if e.Barrier? then s.(given := s.given + {e.call}) else s)
    case Finish(e) =>
      To(Receive, s.(executed := s.executed + s.current, current := []))
    case Leave => To(Gone, s.(state := InitDone))
    case Gone => Idle
  }

  /** Start i creates worker i; Post is a call of esp_work_queue_add_task that finds room. */
  datatype Label =
    | Init(size: nat) | Start(i: nat) | Started | Stop | BeginDeinit | EndDeinit
    | Post(e: Entry) | Sync(c: nat) | SyncGo(c: nat, giveUp: bool) | Worker(i: nat)

  function Accepted(s: Shared, e: Entry): Shared { s.(ring := s.ring + [e], kept := s.kept + [e]) }

  function ControlNext(s: Shared, l: Label): Option<Shared> {
    match l
    case Init(size) =>
      if s.control == Ready && s.state == Deinit && size > 0 then Some(s.(state := InitDone, created := true, size := size, ring := []))
      else None
    case Start(_) => if s.control == Ready && s.state == InitDone then Some(s.(control := Starting)) else None
    case Started => if s.control == Starting then Some(s.(control := Ready, state := Running)) else None
    case Stop => if s.control == Ready && s.state == Running then Some(s.(state := StopRequested)) else None
    case BeginDeinit =>
      if s.control == Ready then Some(s.(control := Deiniting, state := if s.state == Running then StopRequested else s.state))
      else None
    case EndDeinit =>
      if s.control != Deiniting || s.state == StopRequested then None
      else if s.state == InitDone then
        Some(s.(control := Ready, state := Deinit, created := false, ring := [], kept := s.executed + s.current))
      else Some(s.(control := Ready))
    case Post(e) => if e.Work? && s.created && |s.ring| < s.size then Some(Accepted(s, e)) else None
    case _ => None
  }

  function SyncNext(c: nat, pc: SyncPc, s: Shared, giveUp: bool): Option<(SyncPc, Shared)> {
    match pc
    case Posting =>
      if !s.created then Some((Failed, s))
      else if |s.ring| < s.size then Some((Waiting, Accepted(s, Barrier(c)).(before := s.before[c := s.kept])))
      else if giveUp then Some((Failed, s))
      else None
    case Waiting => if c in s.given then Some((Synced, s)) else if giveUp then Some((Failed, s)) else None
    case _ => None
  }

  function Step(s: State, l: Label): Option<State> {
    match l
    case Worker(i) =>
      if i !in s.workers then None
      else
        var m := WorkerNext(s.workers[i], s.sh);
        if m.Idle? then None else Some(s.(workers := s.workers[i := m.pc], sh := m.sh))
    case Sync(c) => if c in s.syncs then None else Some(s.(syncs := s.syncs[c := Posting]))
    case SyncGo(c, giveUp) =>
      if c !in s.syncs then None
      else
        var m := SyncNext(c, s.syncs[c], s.sh, giveUp);
        if m.None? then None else Some(s.(syncs := s.syncs[c := m.value.0], sh := m.value.1))
    case Start(i) =>
      var m := ControlNext(s.sh, l);
      if m.None? || i in s.workers then None else Some(s.(workers := s.workers[i := Loop], sh := m.value))
    case _ =>
      var m := ControlNext(s.sh, l);
      if m.None? then None else Some(s.(sh := m.value))
  }

  predicate Initial(s: State) {
    s == State(map[], map[], Shared(Deinit, Ready, false, 0, [], [], [], [], {}, map[]))
  }

  /** The states that the labels lead through. */
  ghost predicate IsPath(states: seq<State>, labels: seq<Label>) {
    && |states| == |labels| + 1
    && forall k | 0 <= k < |labels| :: Step(states[k], labels[k]) == Some(states[k + 1])
  }

  ghost predicate IsRun(states: seq<State>, labels: seq<Label>) { IsPath(states, labels) && Initial(states[0]) }

  // ---------------------------------------------------------------- the invariant

  predicate Alive(pc: WorkerPc) { !pc.Gone? }

  /** A worker is to be alive. */
  predicate Wanted(s: Shared) { s.state == Running || s.state == StopRequested || s.control == Starting }

  predicate SharedOk(s: Shared) {
    && s.kept == s.executed + s.current + s.ring
    && (s.control == Starting ==> s.state == InitDone)
    && (s.created <==> s.state != Deinit) && (s.state == Deinit ==> s.ring == [])
    && (s.control == Deiniting ==> s.state != Running)
  }

  predicate WorkerOk(pc: WorkerPc, s: Shared) {
    Alive(pc) ==>
      && Wanted(s)
      && s.current == (if pc.Run? || pc.Finish? then [pc.e] else [])
      && (pc.Leave? ==> s.state == StopRequested)
  }

  /** What was accepted before each barrier in the queue's history. */
  ghost predicate Marked(s: Shared) {
    forall p | 0 <= p < |s.kept| && s.kept[p].Barrier? :: s.kept[p].call in s.before && s.before[s.kept[p].call] == s.kept[..p]
  }

  ghost predicate Served(s: Shared) {
    forall c | c in s.given :: c in s.before && s.before[c] <= s.executed
  }

  ghost predicate SyncsOk(s: State) {
    && (forall c | c in s.sh.before :: c in s.syncs && !s.syncs[c].Posting?)
    && (forall c | c in s.syncs && s.syncs[c].Synced? :: c in s.sh.given)
  }

  ghost predicate Invariant(s: State) {
    && SharedOk(s.sh) && Marked(s.sh) && Served(s.sh) && SyncsOk(s)
    && (forall i | i in s.workers :: WorkerOk(s.workers[i], s.sh))
    && (forall i, j | i in s.workers && j in s.workers && Alive(s.workers[i]) && Alive(s.workers[j]) :: i == j)
    && ((forall i | i in s.workers :: !Alive(s.workers[i])) ==> s.sh.current == [])
  }

  lemma WorkerKeepsShared(pc: WorkerPc, s: Shared)
    requires SharedOk(s) && WorkerOk(pc, s) && WorkerNext(pc, s).To?
    ensures var m := WorkerNext(pc, s);
      && SharedOk(m.sh) && WorkerOk(m.pc, m.sh) && m.sh.kept == s.kept && m.sh.before == s.before
      && Alive(pc) && (!Alive(m.pc) ==> m.sh.current == [])
      && s.executed <= m.sh.executed && s.given <= m.sh.given
  {}

  lemma WorkerServes(pc: WorkerPc, s: Shared)
    requires SharedOk(s) && WorkerOk(pc, s) && Marked(s) && Served(s) && WorkerNext(pc, s).To?
    ensures Served(WorkerNext(pc, s).sh)
  {
    if pc.Run? && pc.e.Barrier? {
      assert s.kept[|s.executed|] == pc.e;
      assert s.kept[..|s.executed|] == s.executed;
    }
  }

  lemma WorkerKeeps(s: State, i: nat)
    requires Invariant(s) && Step(s, Worker(i)).Some?
    ensures Invariant(Step(s, Worker(i)).value)
  {
    var pc := s.workers[i];
    WorkerKeepsShared(pc, s.sh);
    WorkerServes(pc, s.sh);
    var s' := Step(s, Worker(i)).value;
    hide WorkerNext, SharedOk, Served, Alive;
    assert forall j | j in s.workers && j != i :: !Alive(s'.workers[j]) && s'.workers[j] == s.workers[j];
    assert i in s'.workers && s'.workers[i] == WorkerNext(pc, s.sh).pc;
    assert Marked(s'.sh);
    assert SyncsOk(s');
  }

  lemma ControlKeepsShared(s: Shared, l: Label)
    requires SharedOk(s) && Marked(s) && Served(s) && ControlNext(s, l).Some?
    requires l.EndDeinit? && s.state == InitDone ==> s.current == []
    ensures var s' := ControlNext(s, l).value;
      SharedOk(s') && Marked(s') && Served(s') && s'.given == s.given && s'.before == s.before && s'.current == s.current
  {
    var s' := ControlNext(s, l).value;
    assert forall p | 0 <= p < |s'.kept| && p < |s.kept| :: s'.kept[p] == s.kept[p] && s'.kept[..p] == s.kept[..p];
  }

  lemma ControlKeepsWorker(pc: WorkerPc, s: Shared, l: Label)
    requires SharedOk(s) && WorkerOk(pc, s) && ControlNext(s, l).Some?
    ensures WorkerOk(pc, ControlNext(s, l).value)
  {}

  /** A worker is created only while there is none. */
  lemma StartAlone(pc: WorkerPc, s: Shared, i: nat)
    requires SharedOk(s) && WorkerOk(pc, s) && ControlNext(s, Start(i)).Some?
    ensures !Alive(pc) && Wanted(ControlNext(s, Start(i)).value)
  {}

  /** With the queue initialised and no start under way there is no worker. */
  lemma StoppedAlone(pc: WorkerPc, s: Shared)
    requires WorkerOk(pc, s) && s.state == InitDone && s.control == Deiniting
    ensures !Alive(pc)
  {}

  lemma ControlKeeps(s: State, l: Label)
    requires Invariant(s) && !l.Worker? && !l.Sync? && !l.SyncGo? && Step(s, l).Some?
    ensures Invariant(Step(s, l).value)
  {
    var s' := Step(s, l).value;
    if l.EndDeinit? && s.sh.state == InitDone {
      forall i | i in s.workers ensures !Alive(s.workers[i]) { StoppedAlone(s.workers[i], s.sh); }
    }
    ControlKeepsShared(s.sh, l);
    forall i | i in s.workers ensures WorkerOk(s.workers[i], s'.sh) { ControlKeepsWorker(s.workers[i], s.sh, l); }
    if l.Start? {
      forall i | i in s.workers ensures !Alive(s.workers[i]) { StartAlone(s.workers[i], s.sh, l.i); }
      NewWorkerOk(s.sh, l.i);
    }
    hide ControlNext, SharedOk, Marked, Served, WorkerOk, Alive;
  }

  lemma NewWorkerOk(s: Shared, i: nat)
    requires ControlNext(s, Start(i)).Some? && s.current == []
    ensures WorkerOk(Loop, ControlNext(s, Start(i)).value) && Alive(Loop)
  {}

  lemma SyncKeepsShared(c: nat, pc: SyncPc, s: Shared, giveUp: bool)
    requires SharedOk(s) && Marked(s) && Served(s) && SyncNext(c, pc, s, giveUp).Some?
    requires pc.Posting? ==> c !in s.before
    ensures var m := SyncNext(c, pc, s, giveUp).value;
      && SharedOk(m.1) && Marked(m.1) && Served(m.1)
      && m.1.given == s.given && m.1.current == s.current && m.1.state == s.state && m.1.control == s.control
      && (m.1.before == s.before || (pc.Posting? && m.0.Waiting? && m.1.before == s.before[c := s.kept]))
      && (m.0.Synced? ==> c in s.given) && !m.0.Posting? && !pc.Synced?
  {}

  lemma SyncGoKeeps(s: State, c: nat, giveUp: bool)
    requires Invariant(s) && Step(s, SyncGo(c, giveUp)).Some?
    ensures Invariant(Step(s, SyncGo(c, giveUp)).value)
  {
    var s' := Step(s, SyncGo(c, giveUp)).value;
    SyncKeepsShared(c, s.syncs[c], s.sh, giveUp);
    hide SyncNext, SharedOk, Marked, Served, Alive;
  }

  lemma StepKeeps(s: State, l: Label)
    requires Invariant(s) && Step(s, l).Some?
    ensures Invariant(Step(s, l).value)
  {
    match l
    case Worker(i) => WorkerKeeps(s, i); hide Invariant;
    case SyncGo(c, giveUp) => SyncGoKeeps(s, c, giveUp); hide Invariant;
    case Sync(c) => hide SharedOk, Marked, Served, Alive, WorkerOk;
    case _ => ControlKeeps(s, l); hide Invariant;
  }

  lemma {:induction false} RunKeepsInvariant(states: seq<State>, labels: seq<Label>, k: nat)
    requires IsRun(states, labels) && k < |states|
    ensures Invariant(states[k])
  {
    hide Step;
    if k > 0 {
      RunKeepsInvariant(states, labels, k - 1);
      assert Step(states[k - 1], labels[k - 1]) == Some(states[k]);
      hide Invariant;
      StepKeeps(states[k - 1], labels[k - 1]);
    }
  }

  /** In every run the entries accepted, less those a deinit threw away, are those that have finished,
      then the one being run, then the queue, in order; and at most one worker is alive, so they are run
      one at a time. */
  lemma OneWorkerInOrder(states: seq<State>, labels: seq<Label>, k: nat, i: nat, j: nat)
    requires IsRun(states, labels) && k < |states| && i in states[k].workers && j in states[k].workers
    ensures var s := states[k];
      && s.sh.kept == s.sh.executed + s.sh.current + s.sh.ring && |s.sh.current| <= 1
      && (Alive(s.workers[i]) && Alive(s.workers[j]) ==> i == j)
      && (s.workers[i].Run? || s.workers[i].Finish? ==> s.sh.current == [s.workers[i].e])
  {
    RunKeepsInvariant(states, labels, k);
    hide IsRun;
    var s := states[k];
    if l :| l in s.workers && Alive(s.workers[l]) { assert WorkerOk(s.workers[l], s.sh); }
  }

  /** In every run, when a sync has returned ESP_OK, everything that had been accepted when its barrier
      was posted, less what an earlier deinit threw away, has finished, however the queue was stopped,
      restarted or re-created since. */
  lemma SyncMeansFinished(states: seq<State>, labels: seq<Label>, j: nat, k: nat, c: nat)
    requires IsRun(states, labels) && j < k < |states|
    requires c in states[j].syncs && states[j].syncs[c].Posting? && c in states[j + 1].syncs && states[j + 1].syncs[c].Waiting?
    requires c in states[k].syncs && states[k].syncs[c].Synced?
    ensures states[j].sh.kept <= states[k].sh.executed
  {
    RunKeepsInvariant(states, labels, j);
    RunKeepsInvariant(states, labels, k);
    assert Step(states[j], labels[j]) == Some(states[j + 1]);
    BeforeStays(states, labels, j + 1, k, c);
    hide IsRun;
    assert Served(states[k].sh);
  }

  lemma {:induction false} BeforeStays(states: seq<State>, labels: seq<Label>, j: nat, k: nat, c: nat)
    requires IsRun(states, labels) && j <= k < |states| && c in states[j].sh.before
    ensures c in states[k].sh.before && states[k].sh.before[c] == states[j].sh.before[c]
    decreases k
  {
    if j < k {
      BeforeStays(states, labels, j, k - 1, c);
      RunKeepsInvariant(states, labels, k - 1);
      assert Step(states[k - 1], labels[k - 1]) == Some(states[k]);
      hide IsRun;
      assert SyncsOk(states[k - 1]) && SharedOk(states[k - 1].sh);
      hide Invariant, Step, SyncsOk, SharedOk;
      BeforeKept(states[k - 1], labels[k - 1], c);
    }
  }

  /** What was accepted before a barrier is not rewritten. */
  lemma BeforeKept(s: State, l: Label, c: nat)
    requires SyncsOk(s) && Step(s, l).Some? && c in s.sh.before
    ensures var s' := Step(s, l).value; c in s'.sh.before && s'.sh.before[c] == s.sh.before[c]
  {}

  // ---------------------------------------------------------------- when a sync returns

  /** The worker takes all that is queued before it looks for a stop again. */
  predicate Draining(pc: WorkerPc) { pc.Receive? || pc.Run? || pc.Finish? }

  /** A deinit is under way, and no worker will take what is queued before it is thrown away. */
  ghost predicate Doomed(s: State) { s.sh.control == Deiniting && forall i | i in s.workers :: !Draining(s.workers[i]) }

  /** The barrier of call c has given its semaphore, is about to, or is queued for a worker to come to it. */
  ghost predicate Coming(s: State, c: nat) {
    || c in s.sh.given
    || (exists i | i in s.workers :: s.workers[i] == Run(Barrier(c)))
    || (Barrier(c) in s.sh.ring && !Doomed(s))
  }

  predicate WaitsFor(s: State, c: nat) { c in s.syncs && s.syncs[c].Waiting? }

  predicate Returned(s: State, c: nat) { c in s.syncs && (s.syncs[c].Synced? || s.syncs[c].Failed?) }

  /** A sync whose barrier is posted can return without its time running out, as with timeout_ms 0 it never
      does. */
  ghost predicate CanReturn(s: State, c: nat) {
    exists states, labels ::
      && IsPath(states, labels) && states[0] == s && SyncGo(c, true) !in labels
      && Returned(states[|labels|], c)
  }

  lemma WorkerStaysLost(s: State, i: nat, c: nat)
    requires Invariant(s) && WaitsFor(s, c) && !Coming(s, c) && Step(s, Worker(i)).Some?
    ensures !Coming(Step(s, Worker(i)).value, c)
  {
    var s', pc := Step(s, Worker(i)).value, s.workers[i];
    assert WorkerOk(pc, s.sh);
    if s'.workers[i] == Run(Barrier(c)) { assert pc.Receive? && Draining(pc); }
    if Doomed(s) {
      assert !Draining(s'.workers[i]);
      assert Doomed(s');
    }
    hide Invariant;
  }

  lemma ControlStaysLost(s: State, l: Label, c: nat)
    requires Invariant(s) && WaitsFor(s, c) && !Coming(s, c) && Step(s, l).Some? && !l.Worker? && !l.SyncGo?
    ensures !Coming(Step(s, l).value, c)
  {
    var s' := Step(s, l).value;
    assert s'.sh.given == s.sh.given;
    if Doomed(s) && Barrier(c) in s'.sh.ring { assert Doomed(s'); }
    hide Invariant;
  }

  lemma StaysLost(s: State, l: Label, c: nat)
    requires Invariant(s) && WaitsFor(s, c) && !Coming(s, c) && Step(s, l).Some? && l != SyncGo(c, true)
    ensures WaitsFor(Step(s, l).value, c) && !Coming(Step(s, l).value, c)
  {
    match l
    case Worker(i) => WorkerStaysLost(s, i, c); hide Coming, Invariant;
    case SyncGo(d, _) => hide Invariant;
    case _ => ControlStaysLost(s, l, c); hide Coming, Invariant;
  }

  lemma {:induction false} PathStaysLost(states: seq<State>, labels: seq<Label>, c: nat, k: nat)
    requires IsPath(states, labels) && SyncGo(c, true) !in labels && k < |states|
    requires Invariant(states[0]) && WaitsFor(states[0], c) && !Coming(states[0], c)
    ensures Invariant(states[k]) && WaitsFor(states[k], c) && !Coming(states[k], c)
  {
    hide Step, Invariant, WaitsFor, Coming;
    if k > 0 {
      PathStaysLost(states, labels, c, k - 1);
      assert Step(states[k - 1], labels[k - 1]) == Some(states[k]);
      StepKeeps(states[k - 1], labels[k - 1]);
      StaysLost(states[k - 1], labels[k - 1], c);
    }
  }

  /** While the queue is to have a worker, it has one. */
  ghost predicate Manned(s: State) { Wanted(s.sh) ==> exists i | i in s.workers :: Alive(s.workers[i]) }

  lemma StepKeepsManned(s: State, l: Label)
    requires Invariant(s) && Manned(s) && Step(s, l).Some?
    ensures Manned(Step(s, l).value)
  {
    var s' := Step(s, l).value;
    if l.Start? { assert Alive(s'.workers[l.i]); }
    if l.Worker? { assert WorkerOk(s.workers[l.i], s.sh); assert l.i in s'.workers; }
    if i :| i in s.workers && Alive(s.workers[i]) { assert i in s'.workers; }
    hide Invariant;
  }

  lemma {:induction false} RunKeepsManned(states: seq<State>, labels: seq<Label>, k: nat)
    requires IsRun(states, labels) && k < |states|
    ensures Manned(states[k])
  {
    hide Step, Manned, Invariant;
    if k == 0 {
      NotWanted(states[0]);
    } else {
      RunKeepsManned(states, labels, k - 1);
      RunKeepsInvariant(states, labels, k - 1);
      assert Step(states[k - 1], labels[k - 1]) == Some(states[k]);
      StepKeepsManned(states[k - 1], labels[k - 1]);
    }
  }

  lemma NotWanted(s: State)
    requires Initial(s)
    ensures Manned(s)
  {}

  lemma CanReturnAfter(s: State, l: Label, c: nat)
    requires Step(s, l).Some? && l != SyncGo(c, true) && CanReturn(Step(s, l).value, c)
    ensures CanReturn(s, c)
  {
    hide Step, Returned;
    var s' := Step(s, l).value;
    var states', labels' :| IsPath(states', labels') && states'[0] == s' && SyncGo(c, true) !in labels'
      && Returned(states'[|labels'|], c);
    var states, labels := [s] + states', [l] + labels';
    forall k | 0 <= k < |labels| ensures Step(states[k], labels[k]) == Some(states[k + 1]) {
      if k > 0 { assert labels[k] == labels'[k - 1] && Step(states'[k - 1], labels'[k - 1]) == Some(states'[k]); }
    }
    assert IsPath(states, labels);
  }

  lemma GivenReturns(s: State, c: nat)
    requires WaitsFor(s, c) && c in s.sh.given
    ensures CanReturn(s, c)
  {
    var s' := Step(s, SyncGo(c, false)).value;
    assert IsPath([s, s'], [SyncGo(c, false)]);
  }

  /** A worker that is draining the queue comes to the barrier. */
  lemma {:induction false} DrainingReturns(s: State, i: nat, c: nat)
    requires Invariant(s) && WaitsFor(s, c) && i in s.workers && Draining(s.workers[i])
    requires Barrier(c) in s.sh.ring || s.workers[i] == Run(Barrier(c))
    ensures CanReturn(s, c)
    decreases |s.sh.ring|, if s.workers[i].Run? then 2 else if s.workers[i].Finish? then 1 else 0
  {
    assert SharedOk(s.sh);
    var s' := Step(s, Worker(i)).value;
    StepKeeps(s, Worker(i));
    hide Invariant, CanReturn;
    if s.workers[i] == Run(Barrier(c)) {
      GivenReturns(s', c);
    } else {
      DrainingReturns(s', i, c);
    }
    CanReturnAfter(s, Worker(i), c);
  }

  /** One that does not find a stop begins to. */
  lemma LoopReturns(s: State, i: nat, c: nat)
    requires Invariant(s) && WaitsFor(s, c) && Barrier(c) in s.sh.ring && i in s.workers && s.workers[i].Loop?
    requires s.sh.state != StopRequested
    ensures CanReturn(s, c)
  {
    StepKeeps(s, Worker(i));
    hide Invariant, CanReturn;
    DrainingReturns(Step(s, Worker(i)).value, i, c);
    CanReturnAfter(s, Worker(i), c);
  }

  lemma Unused<V>(m: map<nat, V>) returns (n: nat)
    ensures n !in m
  {
    n := MaxPlus(m.Keys);
  }

  lemma {:induction false} MaxPlus(s: set<nat>) returns (n: nat)
    ensures forall x | x in s :: x < n
  {
    if s == {} { return 0; }
    var x :| x in s;
    n := MaxPlus(s - {x});
    assert s == s - {x} + {x};
    if n <= x { n := x + 1; }
  }

  /** Where there is no worker a start makes one. */
  lemma StartReturns(s: State, c: nat)
    requires Invariant(s) && WaitsFor(s, c) && Barrier(c) in s.sh.ring && s.sh.control == Ready && s.sh.state == InitDone
    ensures CanReturn(s, c)
  {
    var i := Unused(s.workers);
    StepKeeps(s, Start(i));
    hide Invariant, CanReturn;
    LoopReturns(Step(s, Start(i)).value, i, c);
    CanReturnAfter(s, Start(i), c);
  }

  lemma LeaveReturns(s: State, i: nat, c: nat)
    requires Invariant(s) && WaitsFor(s, c) && Barrier(c) in s.sh.ring && i in s.workers && s.workers[i].Leave?
    requires s.sh.control == Ready
    ensures CanReturn(s, c)
  {
    StepKeeps(s, Worker(i));
    hide Invariant, CanReturn;
    StartReturns(Step(s, Worker(i)).value, c);
    CanReturnAfter(s, Worker(i), c);
  }

  lemma StoppedReturns(s: State, i: nat, c: nat)
    requires Invariant(s) && WaitsFor(s, c) && Barrier(c) in s.sh.ring && i in s.workers && s.workers[i].Loop?
    requires s.sh.state == StopRequested && s.sh.control == Ready
    ensures CanReturn(s, c)
  {
    StepKeeps(s, Worker(i));
    hide Invariant, CanReturn;
    LeaveReturns(Step(s, Worker(i)).value, i, c);
    CanReturnAfter(s, Worker(i), c);
  }

  lemma ComingReturns(s: State, c: nat)
    requires Invariant(s) && Manned(s) && WaitsFor(s, c) && Coming(s, c)
    ensures CanReturn(s, c)
  {
    assert SharedOk(s.sh);
    if c in s.sh.given {
      GivenReturns(s, c);
    } else if i :| i in s.workers && s.workers[i] == Run(Barrier(c)) {
      DrainingReturns(s, i, c);
    } else if i :| i in s.workers && Draining(s.workers[i]) {
      DrainingReturns(s, i, c);
    } else if i :| i in s.workers && Alive(s.workers[i]) {
      assert WorkerOk(s.workers[i], s.sh);
      if s.workers[i].Leave? {
        LeaveReturns(s, i, c);
      } else if s.sh.state == StopRequested {
        StoppedReturns(s, i, c);
      } else {
        LoopReturns(s, i, c);
      }
    } else {
      StartReturns(s, c);
    }
  }

  /** In every run a sync that has posted its barrier can return without its time running out if and only if
      the barrier is still to come: not where a deinit has thrown it away, or is about to with no worker left
      to take it first. */
  lemma ReturnsIfAndOnlyIf(states: seq<State>, labels: seq<Label>, k: nat, c: nat)
    requires IsRun(states, labels) && k < |states| && WaitsFor(states[k], c)
    ensures CanReturn(states[k], c) <==> Coming(states[k], c)
  {
    RunKeepsInvariant(states, labels, k);
    RunKeepsManned(states, labels, k);
    hide Invariant, Manned, WaitsFor, Coming, IsRun;
    if Coming(states[k], c) {
      ComingReturns(states[k], c);
    } else if CanReturn(states[k], c) {
      var path, steps :| IsPath(path, steps) && path[0] == states[k] && SyncGo(c, true) !in steps
        && Returned(path[|steps|], c);
      PathStaysLost(path, steps, c, |steps|);
    }
  }

  /** A run with such a sync: a deinit throws its barrier away, and with timeout_ms 0 it never returns. */
  lemma LostBarrierExample() returns (states: seq<State>, labels: seq<Label>)
    ensures IsRun(states, labels) && WaitsFor(states[|labels|], 0) && !CanReturn(states[|labels|], 0)
  {
    var start := Shared(Deinit, Ready, false, 0, [], [], [], [], {}, map[]);
    var ready := start.(state := InitDone, created := true, size := 1);
    var posted := ready.(ring := [Barrier(0)], kept := [Barrier(0)], before := map[0 := []]);
    var gone := start.(size := 1, before := map[0 := []]);
    labels := [Init(1), Sync(0), SyncGo(0, false), BeginDeinit, EndDeinit];
    states := [State(map[], map[], start), State(map[], map[], ready), State(map[], map[0 := Posting], ready),
      State(map[], map[0 := Waiting], posted), State(map[], map[0 := Waiting], posted.(control := Deiniting)),
      State(map[], map[0 := Waiting], gone)];
    assert Accepted(ready, Barrier(0)).(before := posted.before) == posted;
    assert ready.before[0 := ready.kept] == posted.before;
    assert states[2].syncs[0 := Waiting] == states[3].syncs;
    assert posted.executed + posted.current == gone.kept;
    ReturnsIfAndOnlyIf(states, labels, 5, 0);
  }

  // ---------------------------------------------------------------- what is kept and what is run

  /** What a step has accepted: a task somebody posts, or the barrier of a sync that finds room. */
  function Accepts(s: State, l: Label): seq<Entry> {
    match l
    case Post(e) => [e]
    case SyncGo(c, _) =>
      if c in s.syncs && s.syncs[c].Posting? && s.sh.created && |s.sh.ring| < s.sh.size then [Barrier(c)] else []
    case _ => []
  }

  /** What a deinit throws away. */
  function Throws(s: State, l: Label): seq<Entry> {
    if l.EndDeinit? && s.sh.control == Deiniting && s.sh.state == InitDone then s.sh.ring else []
  }

  lemma StepKept(s: State, l: Label)
    requires Invariant(s) && Step(s, l).Some?
    ensures s.sh.kept + Accepts(s, l) == Step(s, l).value.sh.kept + Throws(s, l)
  {
    assert SharedOk(s.sh);
    if l.EndDeinit? && s.sh.state == InitDone && s.sh.control == Deiniting {
      forall i | i in s.workers ensures !Alive(s.workers[i]) { StoppedAlone(s.workers[i], s.sh); }
      assert s.sh.current == [];
    }
    hide Invariant;
  }

  lemma TailOfBoth(kept: seq<Entry>, a: seq<Entry>, b: seq<Entry>, n: nat)
    requires n <= |a|
    ensures kept + (a + b)[n..] == kept + a[n..] + b
  {}

  /** Of the accepted entries h some are kept and some thrown away, before a step and after it. */
  lemma BagsAfter(h: seq<Entry>, a: seq<Entry>, kept: seq<Entry>, kept': seq<Entry>, thrown: seq<Entry>, t: seq<Entry>)
    requires multiset(h) == multiset(kept) + multiset(thrown) && kept + a == kept' + t
    ensures multiset(h + a) == multiset(kept') + multiset(thrown + t)
  {
    assert multiset(kept) + multiset(a) == multiset(kept + a) == multiset(kept' + t) == multiset(kept') + multiset(t);
    forall e ensures multiset(h + a)[e] == (multiset(kept') + multiset(thrown + t))[e] {
      assert (multiset(kept) + multiset(a))[e] == (multiset(kept') + multiset(t))[e];
    }
  }

  /** In every run, from one state to a later one with no deinit completed between them: what is kept grows by
      exactly what was accepted, in that order. */
  lemma {:induction false} KeptIsAccepted(states: seq<State>, labels: seq<Label>, j: nat, k: nat)
    requires IsRun(states, labels) && j <= k < |states| && forall m | j <= m < k :: !labels[m].EndDeinit?
    ensures History(states, labels, j, Accepts) <= History(states, labels, k, Accepts)
    ensures states[k].sh.kept ==
      states[j].sh.kept + History(states, labels, k, Accepts)[|History(states, labels, j, Accepts)|..]
    decreases k
  {
    if j < k {
      KeptIsAccepted(states, labels, j, k - 1);
      RunKeepsInvariant(states, labels, k - 1);
      var s, l := states[k - 1], labels[k - 1];
      assert Step(s, l) == Some(states[k]);
      StepKept(s, l);
      assert Throws(s, l) == [];
      hide IsRun, Invariant, Step, Accepts, Throws, IsPath;
      var before := History(states, labels, j, Accepts);
      TailOfBoth(states[j].sh.kept, History(states, labels, k - 1, Accepts), Accepts(s, l), |before|);
      assert states[k].sh.kept + [] == states[k].sh.kept;
    }
  }

  /** In every run nothing is lost or made up: what was accepted is kept or was thrown away by a deinit. */
  lemma {:induction false} AcceptedIsKeptOrThrown(states: seq<State>, labels: seq<Label>, k: nat)
    requires IsRun(states, labels) && k < |states|
    ensures multiset(History(states, labels, k, Accepts)) ==
      multiset(states[k].sh.kept) + multiset(History(states, labels, k, Throws))
  {
    hide Invariant, Step, Accepts, Throws;
    if k == 0 {
      assert multiset(states[0].sh.kept) == multiset{};
    } else {
      AcceptedIsKeptOrThrown(states, labels, k - 1);
      RunKeepsInvariant(states, labels, k - 1);
      var s, l := states[k - 1], labels[k - 1];
      assert Step(s, l) == Some(states[k]);
      hide IsRun, IsPath;
      StepKept(s, l);
      BagsAfter(History(states, labels, k - 1, Accepts), Accepts(s, l), s.sh.kept, states[k].sh.kept,
        History(states, labels, k - 1, Throws), Throws(s, l));
    }
  }

  /** The entry whose function a step of a worker calls. */
  function Runs(s: State, l: Label): seq<Entry> {
    if l.Worker? && l.i in s.workers && s.workers[l.i].Run? then [s.workers[l.i].e] else []
  }

  /** What has been called has finished, but for what a worker is returning from. */
  ghost predicate CalledSoFar(s: State, called: seq<Entry>) {
    && (forall i | i in s.workers && s.workers[i].Finish? :: called == s.sh.executed + [s.workers[i].e])
    && ((forall i | i in s.workers :: !s.workers[i].Finish?) ==> called == s.sh.executed)
  }

  lemma WorkerCalls(s: State, i: nat, called: seq<Entry>)
    requires Invariant(s) && CalledSoFar(s, called) && Step(s, Worker(i)).Some?
    ensures CalledSoFar(Step(s, Worker(i)).value, called + Runs(s, Worker(i)))
  {
    var s' := Step(s, Worker(i)).value;
    assert WorkerOk(s.workers[i], s.sh);
    assert i in s'.workers && forall j | j in s.workers && j != i :: s'.workers[j] == s.workers[j] && !Alive(s.workers[j]);
    hide Invariant;
  }

  lemma OthersCall(s: State, l: Label, called: seq<Entry>)
    requires CalledSoFar(s, called) && !l.Worker? && Step(s, l).Some?
    ensures CalledSoFar(Step(s, l).value, called) && Runs(s, l) == []
  {
    var s' := Step(s, l).value;
    assert forall j | j in s.workers :: j in s'.workers && s'.workers[j] == s.workers[j];
  }

  /** In every run the functions called are those of the entries finished, in order and each once, and of the
      one being run. */
  lemma {:induction false} CalledIsFinished(states: seq<State>, labels: seq<Label>, k: nat)
    requires IsRun(states, labels) && k < |states|
    ensures CalledSoFar(states[k], History(states, labels, k, Runs))
  {
    if k > 0 {
      CalledIsFinished(states, labels, k - 1);
      RunKeepsInvariant(states, labels, k - 1);
      var s, l := states[k - 1], labels[k - 1];
      var called := History(states, labels, k - 1, Runs);
      assert Step(s, l) == Some(states[k]);
      if l.Worker? {
        WorkerCalls(s, l.i, called);
      } else {
        OthersCall(s, l, called);
        assert called + [] == called;
      }
      hide IsRun, Invariant, Step, CalledSoFar, Runs;
    }
  }

  // ---------------------------------------------------------------- a stop is obeyed

  /** The worker can come to its end by its own steps, with exactly these entries finished. */
  ghost predicate CanStop(s: State, done: seq<Entry>) {
    exists states: seq<State>, labels: seq<Label> ::
      && IsPath(states, labels) && states[0] == s && (forall l | l in labels :: l.Worker?)
      && Stopped(states[|labels|]) && states[|labels|].sh.executed == done
  }

  ghost predicate Stopped(s: State) { s.sh.state == InitDone && forall i | i in s.workers :: !Alive(s.workers[i]) }

  lemma CanStopAfter(s: State, i: nat, done: seq<Entry>)
    requires Step(s, Worker(i)).Some? && CanStop(Step(s, Worker(i)).value, done)
    ensures CanStop(s, done)
  {
    hide Step, Stopped;
    var s' := Step(s, Worker(i)).value;
    var states': seq<State>, labels': seq<Label> :| IsPath(states', labels') && states'[0] == s' && (forall l | l in labels' :: l.Worker?)
      && Stopped(states'[|labels'|]) && states'[|labels'|].sh.executed == done;
    var states, labels := [s] + states', [Worker(i)] + labels';
    forall k | 0 <= k < |labels| ensures Step(states[k], labels[k]) == Some(states[k + 1]) {
      if k > 0 { assert labels[k] == labels'[k - 1] && Step(states'[k - 1], labels'[k - 1]) == Some(states'[k]); }
    }
    assert IsPath(states, labels);
  }

  lemma LeavingStops(s: State, i: nat)
    requires Invariant(s) && i in s.workers && s.workers[i].Leave?
    ensures CanStop(s, s.sh.executed)
  {
    var s' := Step(s, Worker(i)).value;
    assert WorkerOk(s.workers[i], s.sh) && Stopped(s');
    assert CanStop(s', s.sh.executed) by {
      var states: seq<State>, labels: seq<Label> := [s'], [];
      assert IsPath(states, labels) && states[0] == s' && Stopped(states[|labels|]);
    }
    CanStopAfter(s, i, s.sh.executed);
  }

  lemma LoopStops(s: State, i: nat)
    requires Invariant(s) && i in s.workers && s.workers[i].Loop? && s.sh.state == StopRequested
    ensures CanStop(s, s.sh.executed)
  {
    StepKeeps(s, Worker(i));
    hide Invariant, CanStop;
    LeavingStops(Step(s, Worker(i)).value, i);
    CanStopAfter(s, i, s.sh.executed);
  }

  lemma {:induction false} DrainingStops(s: State, i: nat)
    requires Invariant(s) && i in s.workers && Draining(s.workers[i]) && s.sh.state == StopRequested
    ensures CanStop(s, s.sh.executed + s.sh.current + s.sh.ring)
    decreases |s.sh.ring|, if s.workers[i].Run? then 2 else if s.workers[i].Finish? then 1 else 0
  {
    assert SharedOk(s.sh) && WorkerOk(s.workers[i], s.sh);
    var s' := Step(s, Worker(i)).value;
    var done := s.sh.executed + s.sh.current + s.sh.ring;
    StepKeeps(s, Worker(i));
    hide Invariant, CanStop;
    if s.workers[i].Receive? && s.sh.ring == [] {
      LoopStops(s', i);
      assert s'.sh.executed == done;
    } else {
      DrainingStops(s', i);
      assert s'.sh.executed + s'.sh.current + s'.sh.ring == done;
    }
    CanStopAfter(s, i, done);
  }

  /** In every run, when a stop is requested, by esp_work_queue_stop or a deinit, the worker can come to its end by
      its own steps: with all that is queued finished if it has begun on the queue, and else with nothing more. */
  lemma StopIsObeyed(states: seq<State>, labels: seq<Label>, k: nat) returns (i: nat)
    requires IsRun(states, labels) && k < |labels| && (labels[k] == Stop || labels[k] == BeginDeinit) && states[k].sh.state == Running
    ensures var s := states[k + 1];
      && i in s.workers && Alive(s.workers[i])
      && CanStop(s, if Draining(s.workers[i]) then s.sh.executed + s.sh.current + s.sh.ring else s.sh.executed)
  {
    RunKeepsInvariant(states, labels, k + 1);
    RunKeepsManned(states, labels, k + 1);
    assert Step(states[k], labels[k]) == Some(states[k + 1]);
    var s := states[k + 1];
    hide IsRun, CanStop;
    assert s.sh.state == StopRequested;
    i :| i in s.workers && Alive(s.workers[i]);
    match s.workers[i]
    case Loop => LoopStops(s, i);
    case Leave => LeavingStops(s, i);
    case _ => DrainingStops(s, i);
  }

  /** In every run a sync that does not run out of time fails only where it finds no queue. */
  lemma {:induction false} FailsWithoutQueue(states: seq<State>, labels: seq<Label>, k: nat, c: nat) returns (j: nat)
    requires IsRun(states, labels) && k < |states| && SyncGo(c, true) !in labels
    requires c in states[k].syncs && states[k].syncs[c].Failed?
    ensures j < k && labels[j] == SyncGo(c, false) && !states[j].sh.created
  {
    assert k > 0;
    var s, l := states[k - 1], labels[k - 1];
    assert Step(s, l) == Some(states[k]);
    if c in s.syncs && s.syncs[c].Failed? {
      j := FailsWithoutQueue(states, labels, k - 1, c);
    } else {
      j := k - 1;
    }
  }

  /** In every run a task is accepted if and only if the queue is initialised, whether a worker runs or not, and
      has room. */
  lemma PostedIfAndOnlyIf(states: seq<State>, labels: seq<Label>, k: nat, id: nat)
    requires IsRun(states, labels) && k < |states|
    ensures Step(states[k], Post(Work(id))).Some? <==> states[k].sh.state != Deinit && |states[k].sh.ring| < states[k].sh.size
    ensures Step(states[k], Post(Work(id))).Some? ==>
      Step(states[k], Post(Work(id))).value.sh.ring == states[k].sh.ring + [Work(id)]
  {
    RunKeepsInvariant(states, labels, k);
    hide IsRun;
  }
}
