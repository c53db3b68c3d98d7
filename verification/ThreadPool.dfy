/** The lifetime protocol of components/kvs_utils/src/ThreadPool.c: any number of actors, one
    threadpoolFree, and pushes that end before it starts, interleaved step by step.

    An actor locks its dataMutex and then the pool's listMutex; the destructor locks listMutex
    and only tries dataMutex. Where that fails it queues termination tasks whose argument lives
    on its own stack. */
module ThreadPool {
  import opened Common

  /** A task pushed by a caller, or a termination task. */
  datatype Task = User(id: nat) | Term

  /** Where an actor stands, by the statement of threadpoolActor it executes next. */
  datatype Pc =
    | Start                  // try dataMutex
    | StartHeld              // check terminate, read the pool's queue
    | Top                    // lock dataMutex
    | TopHeld                // check terminate
    | Waiting                // acquire a permit of the queue
    | Permit                 // pop an item
    | Popped(task: Task)     // count itself busy
    | Missed                 // the same, with nothing popped
    | DoneQueue(got: Option<Task>) // unlock dataMutex
    | Run(task: Task)        // call the task; a termination task locks the task's mutex
    | TermHeld               // release the task's semaphore
    | TermReleased           // increment the task's counter
    | TermCounted            // unlock the task's mutex
    | After                  // lock dataMutex
    | AfterHeld              // check terminate
    | WantList               // lock listMutex
    | InList                 // check the pool's terminate flag
    | CheckQueue             // is the task queue empty?
    | CheckCount             // more threads than the minimum? then leave the list
    | Keep                   // unlock listMutex
    | Left                   // the same, having removed itself
    | Unlock(leaving: bool)  // unlock dataMutex
    | Exit                   // lock dataMutex a last time
    | ExitHeld               // unlock it
    | Free                   // free the thread data
    | Gone

  datatype Holder = Nobody | Self | Destructor

  /** ThreadData: whether its terminate flag is set and who holds its dataMutex. */
  datatype Actor = Actor(pc: Pc, terminate: bool, holder: Holder)

  /** Where threadpoolFree stands. */
  datatype DPc =
    | DIdle
    | DQueue                 // is the task queue empty?
    | DDrain                 // clear the queue: take its permits
    | DClear                 // ... then its items
    | DLock                  // lock listMutex
    | DIter                  // head of the thread list
    | DTry(i: nat)           // try its dataMutex
    | DMark(i: nat)          // set its terminate flag
    | DDrop(i: nat)          // remove it from the list
    | DRelease(i: nat)       // unlock its dataMutex
    | DSend(left: nat)       // store a termination task
    | DPost(left: nat)       // release its permit and count it
    | DUnlock(finished: bool)// unlock listMutex
    | DHead                  // compare the finished and the sent tasks
    | DCount                 // any task left in the queue?
    | DWait                  // take its permit
    | DPop                   // pop it
    | DRun                   // lock the task's mutex
    | DTermHeld
    | DTermReleased
    | DTermCounted
    | DSem                   // acquire the task's semaphore
    | DRelock                // lock the task's mutex
    | DUnlockTemp            // done: unlock the task's mutex
    | DFreeTask              // the termination task's mutex and semaphore go
    | DFreePool              // the list, the queue and the pool go
    | DEnd

  datatype Owner = NoOwner | ByActor(i: nat) | ByDestructor

  /** What threads share. list is the pool's thread list; items and permits are its task queue;
      owes counts pushes that have stored but not yet released; temp is the mutex of the
      termination task, sem its semaphore, which holds at most maxThreads permits, finished its
      counter. */
  datatype Shared = Shared(
    list: set<nat>, listOwner: Owner, tempOwner: Owner,
    items: seq<Task>, permits: nat, owes: nat,
    sem: nat, sent: nat, finished: nat,
    minThreads: nat, maxThreads: nat, d: DPc)

  datatype State = State(actors: map<nat, Actor>, sh: Shared)

  // ---------------------------------------------------------------- the actor

  datatype Move = Blocked | To(a: Actor, sh: Shared)

  /** The next step of actor i. */
  function ActorMove(i: nat, a: Actor, s: Shared): Move {
    match Phase(a.pc)
    case Begin => BeginMove(a, s)
    case Fetch => FetchMove(a, s)
    case Work => TaskMove(i, a, s)
    case Leave => LeaveMove(i, a, s)
  }

  datatype Part = Begin | Fetch | Work | Leave

  function Phase(pc: Pc): Part {
    match pc
    case Start => Begin case StartHeld => Begin case Top => Begin case TopHeld => Begin
    case Waiting => Fetch case Permit => Fetch case Popped(_) => Fetch case Missed => Fetch case DoneQueue(_) => Fetch
    case Run(_) => Work case TermHeld => Work case TermReleased => Work case TermCounted => Work
    case After => Work case AfterHeld => Work
    case _ => Leave
  }

  /** Starting up, and looking at terminate before each fetch. */
  function BeginMove(a: Actor, s: Shared): Move {
    match a.pc
    case Start => To(if a.holder == Nobody then a.(pc := StartHeld, holder := Self) else a.(pc := Exit), s)
    case StartHeld => To(a.(pc := if a.terminate then Exit else Top, holder := Nobody), s)
    case Top => if a.holder == Nobody then To(a.(pc := TopHeld, holder := Self), s) else Blocked
    case TopHeld => To(if a.terminate then a.(pc := Exit, holder := Nobody) else a.(pc := Waiting), s)
    case _ => Blocked
  }

  /** Fetching a task from the queue. */
  function FetchMove(a: Actor, s: Shared): Move {
    match a.pc
    case Waiting => if s.permits == 0 then Blocked else To(a.(pc := Permit), s.(permits := s.permits - 1))
    case Permit =>
      if s.items == [] then To(a.(pc := Missed), s)
      else To(a.(pc := Popped(s.items[0])), s.(items := s.items[1..]))
    case Popped(task) => To(a.(pc := DoneQueue(Some(task))), s)
    case Missed => To(a.(pc := DoneQueue(None)), s)
    case DoneQueue(got) => To(a.(pc := if got.Some? then Run(got.value) else After, holder := Nobody), s)
    case _ => Blocked
  }

  /** semaphoreRelease: a full semaphore refuses, which threadpoolTermination does not notice. */
  function Raised(s: Shared): nat { if s.sem < s.maxThreads then s.sem + 1 else s.sem }

  /** Running it, and coming back to check terminate. */
  function TaskMove(i: nat, a: Actor, s: Shared): Move {
    match a.pc
    case Run(task) =>
      if task.User? then To(a.(pc := After), s)
      else if s.tempOwner == NoOwner then To(a.(pc := TermHeld), s.(tempOwner := ByActor(i)))
      else Blocked
    case TermHeld => To(a.(pc := TermReleased), s.(sem := Raised(s)))
    case TermReleased => To(a.(pc := TermCounted), s.(finished := s.finished + 1))
    case TermCounted => To(a.(pc := After), s.(tempOwner := NoOwner))
    case After => if a.holder == Nobody then To(a.(pc := AfterHeld, holder := Self), s) else Blocked
    case AfterHeld => To(if a.terminate then a.(pc := Top, holder := Nobody) else a.(pc := WantList), s)
    case _ => Blocked
  }

  /** Deciding under listMutex whether to leave, and leaving. */
  function LeaveMove(i: nat, a: Actor, s: Shared): Move {
    match a.pc
    case WantList => if s.listOwner == NoOwner then To(a.(pc := InList), s.(listOwner := ByActor(i))) else Blocked
    case InList => To(a.(pc := if s.d == DIdle then CheckQueue else Keep), s)
    case CheckQueue => To(a.(pc := if s.items == [] then CheckCount else Keep), s)
    case CheckCount =>
      if |s.list| > s.minThreads then To(a.(pc := Left), s.(list := s.list - {i})) else To(a.(pc := Keep), s)
    case Keep => To(a.(pc := Unlock(false)), s.(listOwner := NoOwner))
    case Left => To(a.(pc := Unlock(true)), s.(listOwner := NoOwner))
    case Unlock(leaving) => To(a.(pc := if leaving then Exit else Top, holder := Nobody), s)
    case Exit => if a.holder == Nobody then To(a.(pc := ExitHeld, holder := Self), s) else Blocked
    case ExitHeld => To(a.(pc := Free, holder := Nobody), s)
    case Free => To(a.(pc := Gone), s)
    case _ => Blocked
  }

  // ---------------------------------------------------------------- threadpoolFree

  /** Steps of the destructor on the data of thread i, which it holds or tries to lock. */
  function DataMove(a: Actor, s: Shared): Move {
    match s.d
    case DTry(i) =>
      if a.holder == Nobody then To(a.(holder := Destructor), s.(d := DMark(i)))
      else To(a, s.(d := DSend(|s.list|)))
    case DMark(i) => To(a.(terminate := true), s.(d := DDrop(i)))
    case DDrop(i) => To(a, s.(d := DRelease(i), list := s.list - {i}))
    case DRelease(i) => To(a.(holder := Nobody), s.(d := DIter))
    case _ => Blocked
  }

  predicate OnData(d: DPc) { d.DTry? || d.DMark? || d.DDrop? || d.DRelease? }

  /** The other steps, with i as the head of the thread list. */
  function DestructorMove(s: Shared, i: nat): Option<Shared> {
    if Emptied(s.d) then DrainMove(s) else ListMove(s, i)
  }

  /** Clearing the queue, emptying the thread list, sending termination tasks. */
  function ListMove(s: Shared, i: nat): Option<Shared> {
    match s.d
    case DIdle => if s.owes == 0 then Some(s.(d := DQueue, tempOwner := ByDestructor)) else None
    case DQueue => Some(s.(d := if s.items == [] then DLock else DDrain))
    case DDrain => Some(if s.permits > 0 then s.(permits := s.permits - 1) else s.(d := DClear))
    case DClear => Some(s.(d := DLock, items := []))
    case DLock => if s.listOwner == NoOwner then Some(s.(d := DIter, listOwner := ByDestructor)) else None
    case DIter =>
      if s.list == {} then Some(s.(d := DUnlock(true)))
      else if i in s.list then Some(s.(d := DTry(i))) else None
    case DSend(left) =>
      if left == 0 then Some(s.(d := DUnlock(false)))
      else Some(s.(d := DPost(left - 1), items := s.items + [Term]))
    case DPost(left) => Some(s.(d := DSend(left), permits := s.permits + 1, sent := s.sent + 1))
    case DUnlock(finished) => if finished then None else Some(s.(d := DLock, listOwner := NoOwner))
    case _ => None
  }

  /** Waiting for the termination tasks, and freeing everything. */
  function DrainMove(s: Shared): Option<Shared> {
    match s.d
    case DUnlock(finished) => if finished then Some(s.(d := DHead, listOwner := NoOwner)) else None
    case DHead => Some(if s.finished < s.sent then s.(d := DCount, tempOwner := NoOwner) else s.(d := DUnlockTemp))
    case DCount => Some(s.(d := if s.items == [] then DSem else DWait))
    case DWait => if s.permits == 0 then None else Some(s.(d := DPop, permits := s.permits - 1))
    case DPop =>
      if s.items == [] then Some(s.(d := DSem))
      else Some(s.(d := if s.items[0] == Term then DRun else DSem, items := s.items[1..]))
    case DRun => if s.tempOwner == NoOwner then Some(s.(d := DTermHeld, tempOwner := ByDestructor)) else None
    case DTermHeld => Some(s.(d := DTermReleased, sem := Raised(s)))
    case DTermReleased => Some(s.(d := DTermCounted, finished := s.finished + 1))
    case DTermCounted => Some(s.(d := DSem, tempOwner := NoOwner))
    case DSem => if s.sem == 0 then None else Some(s.(d := DRelock, sem := s.sem - 1))
    case DRelock => if s.tempOwner == NoOwner then Some(s.(d := DHead, tempOwner := ByDestructor)) else None
    case DUnlockTemp => Some(s.(d := DFreeTask, tempOwner := NoOwner))
    case DFreeTask => Some(s.(d := DFreePool))
    case DFreePool => Some(s.(d := DEnd))
    case _ => None
  }

  // ---------------------------------------------------------------- pushes and the whole system

  /** Store and Post are the two halves of queueing user task id, Spawn creates thread i. */
  datatype Label = Act(i: nat) | Destroy(i: nat) | Store(id: nat) | Post | Spawn(i: nat)

  function PushMove(s: Shared, l: Label): Option<Shared> {
    match l
    case Store(id) => if s.d == DIdle then Some(s.(items := s.items + [User(id)], owes := s.owes + 1)) else None
    case Post => if s.owes > 0 then Some(s.(permits := s.permits + 1, owes := s.owes - 1)) else None
    case Spawn(i) => if s.d == DIdle && s.listOwner == NoOwner then Some(s.(list := s.list + {i})) else None
    case _ => None
  }

  /** The state after a step, None where it is not possible. */
  function Step(s: State, l: Label): Option<State> {
    match l
    case Act(i) =>
      if i !in s.actors then None
      else
        var m := ActorMove(i, s.actors[i], s.sh);
        if m.Blocked? then None else Some(State(s.actors[i := m.a], m.sh))
    case Destroy(i) =>
      if OnData(s.sh.d) then
        if s.sh.d.i !in s.actors then None
        else
          var m := DataMove(s.actors[s.sh.d.i], s.sh);
          if m.Blocked? then None else Some(State(s.actors[s.sh.d.i := m.a], m.sh))
      else
        var m := DestructorMove(s.sh, i);
        if m.None? then None else Some(State(s.actors, m.value))
    case Spawn(i) =>
      var m := PushMove(s.sh, l);
      if m.None? || i in s.actors then None
      else Some(State(s.actors[i := Actor(Start, false, Nobody)], m.value))
    case _ =>
      var m := PushMove(s.sh, l);
      if m.None? then None else Some(State(s.actors, m.value))
  }

  predicate Init(s: State) {
    s.actors == map[] && s.sh == Shared({}, NoOwner, NoOwner, [], 0, 0, 0, 0, 0, s.sh.minThreads, s.sh.maxThreads, DIdle)
    && s.sh.maxThreads > 0
  }

  /** States and the labels of the steps between them. */
  ghost predicate IsPath(states: seq<State>, labels: seq<Label>) {
    && |states| == |labels| + 1
    && forall k | 0 <= k < |labels| :: Step(states[k], labels[k]) == Some(states[k + 1])
  }

  ghost predicate IsRun(states: seq<State>, labels: seq<Label>) { IsPath(states, labels) && Init(states[0]) }

  // ---------------------------------------------------------------- who may touch what

  predicate HoldsData(pc: Pc) {
    || pc.StartHeld? || pc.TopHeld? || pc.Waiting? || pc.Permit? || pc.Popped? || pc.Missed? || pc.DoneQueue?
    || pc.AfterHeld? || pc.WantList? || HoldsList(pc) || pc.Unlock? || pc.ExitHeld?
  }

  predicate HoldsList(pc: Pc) {
    pc.InList? || pc.CheckQueue? || pc.CheckCount? || pc.Keep? || pc.Left?
  }

  /** Past a check of terminate that found it clear, with dataMutex still held. */
  predicate Committed(pc: Pc) {
    || pc.Waiting? || pc.Permit? || pc.Popped? || pc.Missed? || pc.DoneQueue?
    || pc.WantList? || HoldsList(pc) || pc == Unlock(false)
  }

  predicate HoldsTemp(pc: Pc) { pc.TermHeld? || pc.TermReleased? || pc.TermCounted? }

  /** The next statement of the actor reads or writes the pool, its list or its queue. */
  predicate TouchesPool(a: Actor) {
    || (a.pc.StartHeld? && !a.terminate)
    || (a.pc.TopHeld? && !a.terminate)
    || a.pc.Waiting? || a.pc.Permit? || a.pc.Popped? || a.pc.Missed?
    || a.pc.WantList? || HoldsList(a.pc)
  }

  /** The next statement of the actor reads or writes the termination task. */
  predicate TouchesTask(a: Actor) {
    a.pc == Run(Term) || HoldsTemp(a.pc)
  }

  /** The actor has been handed a termination task it has not counted yet. */
  predicate Carries(a: Actor) {
    || a.pc == Popped(Term) || a.pc == DoneQueue(Some(Term)) || a.pc == Run(Term)
    || a.pc == TermHeld || a.pc == TermReleased
  }

  predicate DHoldsData(d: DPc, i: nat) { d == DMark(i) || d == DDrop(i) || d == DRelease(i) }

  predicate DHoldsList(d: DPc) {
    || d.DIter? || d.DTry? || d.DMark? || d.DDrop? || d.DRelease? || d.DSend? || d.DPost? || d.DUnlock?
  }

  predicate DHoldsTemp(d: DPc) {
    || d.DQueue? || d.DDrain? || d.DClear? || d.DLock? || DHoldsList(d) || d.DHead?
    || d.DTermHeld? || d.DTermReleased? || d.DTermCounted? || d.DUnlockTemp?
  }

  /** Nothing has been sent yet. */
  predicate BeforeSending(d: DPc) { d.DIdle? || d.DQueue? || d.DDrain? || d.DClear? }

  /** The thread list has been seen empty. */
  predicate Emptied(d: DPc) {
    || d == DUnlock(true) || Draining(d) || Released(d)
  }

  /** In the loop that waits for the termination tasks. */
  predicate Draining(d: DPc) {
    || d.DHead? || d.DCount? || d.DWait? || d.DPop? || d.DRun? || d.DTermHeld? || d.DTermReleased?
    || d.DTermCounted? || d.DSem? || d.DRelock?
  }

  /** The drain is over: what remains is to free the task and then the pool. */
  predicate Released(d: DPc) { d.DUnlockTemp? || d.DFreeTask? || d.DFreePool? || d.DEnd? }

  predicate DCarries(d: DPc) { d.DRun? || d.DTermHeld? || d.DTermReleased? }

  // ---------------------------------------------------------------- the locking invariant

  /** Locks match program points. */
  predicate Locked(i: nat, a: Actor, s: Shared) {
    && (a.holder == Self <==> HoldsData(a.pc))
    && (a.holder == Destructor <==> DHoldsData(s.d, i))
    && (s.listOwner == ByActor(i) <==> HoldsList(a.pc))
    && (s.tempOwner == ByActor(i) <==> HoldsTemp(a.pc))
  }

  /** The terminate flag is not set behind the back of a thread that has checked it. */
  predicate Flagged(i: nat, a: Actor, s: Shared) {
    && (Committed(a.pc) ==> !a.terminate)
    && (s.d == DDrop(i) || s.d == DRelease(i) ==> a.terminate)
    && (BeforeSending(s.d) ==> !Carries(a) && a.pc != TermCounted)
    && (a.holder == Destructor ==> !a.pc.Free? && !a.pc.Gone?)
  }

  /** The thread has removed itself from the list. */
  predicate HasLeft(a: Actor) {
    || a.pc.Left? || a.pc == Unlock(true) || a.pc.ExitHeld? || a.pc.Free? || a.pc.Gone?
    || (a.pc.Exit? && a.holder != Destructor)
  }

  /** The list holds exactly the threads that neither the destructor nor the thread has removed. */
  predicate Listed(i: nat, a: Actor, s: Shared) {
    i in s.list <==> s.d == DDrop(i) || (!a.terminate && !HasLeft(a))
  }

  predicate ActorOk(i: nat, a: Actor, s: Shared) { Locked(i, a, s) && Flagged(i, a, s) && Listed(i, a, s) }

  /** All tasks of q are pushed ones, or none is. */
  predicate Only(q: seq<Task>, user: bool) { forall k | 0 <= k < |q| :: q[k].User? == user }

  predicate SharedOk(s: Shared) {
    && (s.listOwner == ByDestructor <==> DHoldsList(s.d))
    && (s.tempOwner == ByDestructor <==> DHoldsTemp(s.d))
    && (s.d.DTry? || s.d.DMark? || s.d.DDrop? ==> s.d.i in s.list)
    && (Emptied(s.d) ==> s.list == {} && !s.listOwner.ByActor?)
    && (s.owes > 0 ==> s.d == DIdle)
    && (BeforeSending(s.d) ==> !s.tempOwner.ByActor?)
    && Only(s.items, BeforeSending(s.d))
  }

  predicate LocksOk(s: State) {
    && SharedOk(s.sh)
    && (forall i | i in s.actors :: ActorOk(i, s.actors[i], s.sh))
    && (forall i | i in s.sh.list :: i in s.actors)
    && (s.sh.listOwner.ByActor? ==> s.sh.listOwner.i in s.actors)
    && (s.sh.tempOwner.ByActor? ==> s.sh.tempOwner.i in s.actors)
    && (s.sh.d.DRelease? ==> s.sh.d.i in s.actors)
  }

  /** What a step of actor i changes of what is shared. */
  predicate ActorFrame(i: nat, s: Shared, s': Shared) {
    && s'.d == s.d && s'.owes == s.owes && (s'.items == s.items || (s.items != [] && s'.items == s.items[1..]))
    && (s'.list == s.list || s'.list == s.list - {i})
    && OwnerMoves(s.listOwner, s'.listOwner, NoOwner, ByActor(i))
    && OwnerMoves(s.tempOwner, s'.tempOwner, NoOwner, ByActor(i))
  }

  lemma BeginFrames(i: nat, a: Actor, s: Shared)
    requires Locked(i, a, s)
    requires Phase(a.pc) == Begin && BeginMove(a, s).To?
    ensures ActorFrame(i, s, BeginMove(a, s).sh)
  {}

  lemma BeginLocked(i: nat, a: Actor, s: Shared)
    requires Locked(i, a, s) && Flagged(i, a, s)
    requires Phase(a.pc) == Begin && BeginMove(a, s).To?
    ensures Locked(i, BeginMove(a, s).a, BeginMove(a, s).sh)
  {}

  lemma BeginFlagged(i: nat, a: Actor, s: Shared)
    requires SharedOk(s) && Locked(i, a, s) && Flagged(i, a, s)
    requires Phase(a.pc) == Begin && BeginMove(a, s).To?
    ensures Flagged(i, BeginMove(a, s).a, BeginMove(a, s).sh)
  {}

  lemma BeginListed(i: nat, a: Actor, s: Shared)
    requires ActorOk(i, a, s)
    requires Phase(a.pc) == Begin && BeginMove(a, s).To?
    ensures Listed(i, BeginMove(a, s).a, BeginMove(a, s).sh)
  {}

  lemma FetchFrames(i: nat, a: Actor, s: Shared)
    requires Locked(i, a, s)
    requires Phase(a.pc) == Fetch && FetchMove(a, s).To?
    ensures ActorFrame(i, s, FetchMove(a, s).sh)
  {}

  lemma FetchLocked(i: nat, a: Actor, s: Shared)
    requires Locked(i, a, s) && Flagged(i, a, s)
    requires Phase(a.pc) == Fetch && FetchMove(a, s).To?
    ensures Locked(i, FetchMove(a, s).a, FetchMove(a, s).sh)
  {}

  lemma FetchFlagged(i: nat, a: Actor, s: Shared)
    requires SharedOk(s) && Locked(i, a, s) && Flagged(i, a, s)
    requires Phase(a.pc) == Fetch && FetchMove(a, s).To?
    ensures Flagged(i, FetchMove(a, s).a, FetchMove(a, s).sh)
  {}

  lemma FetchListed(i: nat, a: Actor, s: Shared)
    requires ActorOk(i, a, s)
    requires Phase(a.pc) == Fetch && FetchMove(a, s).To?
    ensures Listed(i, FetchMove(a, s).a, FetchMove(a, s).sh)
  {}

  lemma WorkFrames(i: nat, a: Actor, s: Shared)
    requires Locked(i, a, s)
    requires Phase(a.pc) == Work && TaskMove(i, a, s).To?
    ensures ActorFrame(i, s, TaskMove(i, a, s).sh)
  {}

  lemma WorkLocked(i: nat, a: Actor, s: Shared)
    requires Locked(i, a, s) && Flagged(i, a, s)
    requires Phase(a.pc) == Work && TaskMove(i, a, s).To?
    ensures Locked(i, TaskMove(i, a, s).a, TaskMove(i, a, s).sh)
  {}

  lemma WorkFlagged(i: nat, a: Actor, s: Shared)
    requires SharedOk(s) && Locked(i, a, s) && Flagged(i, a, s)
    requires Phase(a.pc) == Work && TaskMove(i, a, s).To?
    ensures Flagged(i, TaskMove(i, a, s).a, TaskMove(i, a, s).sh)
  {}

  lemma WorkListed(i: nat, a: Actor, s: Shared)
    requires ActorOk(i, a, s)
    requires Phase(a.pc) == Work && TaskMove(i, a, s).To?
    ensures Listed(i, TaskMove(i, a, s).a, TaskMove(i, a, s).sh)
  {}

  lemma LeaveFrames(i: nat, a: Actor, s: Shared)
    requires Locked(i, a, s)
    requires Phase(a.pc) == Leave && LeaveMove(i, a, s).To?
    ensures ActorFrame(i, s, LeaveMove(i, a, s).sh)
  {}

  lemma LeaveLocked(i: nat, a: Actor, s: Shared)
    requires Locked(i, a, s) && Flagged(i, a, s)
    requires Phase(a.pc) == Leave && LeaveMove(i, a, s).To?
    ensures Locked(i, LeaveMove(i, a, s).a, LeaveMove(i, a, s).sh)
  {}

  lemma LeaveFlagged(i: nat, a: Actor, s: Shared)
    requires SharedOk(s) && Locked(i, a, s) && Flagged(i, a, s)
    requires Phase(a.pc) == Leave && LeaveMove(i, a, s).To?
    ensures Flagged(i, LeaveMove(i, a, s).a, LeaveMove(i, a, s).sh)
  {}

  lemma LeaveListed(i: nat, a: Actor, s: Shared)
    requires ActorOk(i, a, s)
    requires Phase(a.pc) == Leave && LeaveMove(i, a, s).To?
    ensures Listed(i, LeaveMove(i, a, s).a, LeaveMove(i, a, s).sh)
  {}

  lemma BeginShared(i: nat, a: Actor, s: Shared)
    requires SharedOk(s) && ActorOk(i, a, s)
    requires Phase(a.pc) == Begin && BeginMove(a, s).To?
    ensures SharedOk(BeginMove(a, s).sh)
  {}

  lemma FetchShared(i: nat, a: Actor, s: Shared)
    requires SharedOk(s) && ActorOk(i, a, s)
    requires Phase(a.pc) == Fetch && FetchMove(a, s).To?
    ensures SharedOk(FetchMove(a, s).sh)
  {}

  lemma WorkShared(i: nat, a: Actor, s: Shared)
    requires SharedOk(s) && ActorOk(i, a, s)
    requires Phase(a.pc) == Work && TaskMove(i, a, s).To?
    ensures SharedOk(TaskMove(i, a, s).sh)
  {}

  lemma LeaveShared(i: nat, a: Actor, s: Shared)
    requires SharedOk(s) && ActorOk(i, a, s)
    requires Phase(a.pc) == Leave && LeaveMove(i, a, s).To?
    ensures SharedOk(LeaveMove(i, a, s).sh)
  {}

  /** A step of actor i keeps what holds of it and of what is shared. */
  lemma ActorMoveKeeps(i: nat, a: Actor, s: Shared)
    requires SharedOk(s) && ActorOk(i, a, s) && ActorMove(i, a, s).To?
    ensures var m := ActorMove(i, a, s); SharedOk(m.sh) && ActorOk(i, m.a, m.sh) && ActorFrame(i, s, m.sh)
  {
    hide SharedOk, Locked, Flagged, Listed, BeginMove, FetchMove, TaskMove, LeaveMove, ActorFrame;
    match Phase(a.pc)
    case Begin => BeginFrames(i, a, s); BeginLocked(i, a, s); BeginFlagged(i, a, s); BeginListed(i, a, s); BeginShared(i, a, s);
    case Fetch => FetchFrames(i, a, s); FetchLocked(i, a, s); FetchFlagged(i, a, s); FetchListed(i, a, s); FetchShared(i, a, s);
    case Work => WorkFrames(i, a, s); WorkLocked(i, a, s); WorkFlagged(i, a, s); WorkListed(i, a, s); WorkShared(i, a, s);
    case Leave => LeaveFrames(i, a, s); LeaveLocked(i, a, s); LeaveFlagged(i, a, s); LeaveListed(i, a, s); LeaveShared(i, a, s);
  }

  /** ... and of every other actor. */
  lemma OthersKeep(i: nat, j: nat, b: Actor, s: Shared, s': Shared)
    requires i != j && ActorFrame(i, s, s') && ActorOk(j, b, s)
    ensures ActorOk(j, b, s')
  {}

  lemma ActKeepsLocks(s: State, i: nat)
    requires LocksOk(s) && Step(s, Act(i)).Some?
    ensures LocksOk(Step(s, Act(i)).value)
  {
    hide SharedOk, Locked, Flagged, Listed, ActorOk, ActorMove;
    var m := ActorMove(i, s.actors[i], s.sh);
    ActorMoveKeeps(i, s.actors[i], s.sh);
    forall j | j in s.actors && j != i ensures ActorOk(j, s.actors[j], m.sh) {
      OthersKeep(i, j, s.actors[j], s.sh, m.sh);
    }
  }

  // ---------------------------------------------------------------- the destructor keeps it

  /** What the destructor's other steps leave alone. */
  predicate DestructorFrame(s: Shared, s': Shared) {
    && s'.list == s.list
    && OwnerMoves(s.listOwner, s'.listOwner, NoOwner, ByDestructor)
    && OwnerMoves(s.tempOwner, s'.tempOwner, NoOwner, ByDestructor)
    && (BeforeSending(s'.d) ==> BeforeSending(s.d))
    && !OnData(s.d) && (s'.d.DTry? || !OnData(s'.d))
  }

  lemma ListMoveFrames(s: Shared, i: nat)
    requires SharedOk(s) && !OnData(s.d) && !Emptied(s.d) && ListMove(s, i).Some?
    ensures DestructorFrame(s, ListMove(s, i).value)
  {}

  lemma DrainMoveFrames(s: Shared)
    requires SharedOk(s) && Emptied(s.d) && DrainMove(s).Some?
    ensures DestructorFrame(s, DrainMove(s).value)
  {}

  lemma ListMoveShared(s: Shared, i: nat)
    requires SharedOk(s) && !OnData(s.d) && !Emptied(s.d) && ListMove(s, i).Some?
    ensures SharedOk(ListMove(s, i).value)
  {}

  lemma DrainMoveShared(s: Shared)
    requires SharedOk(s) && Emptied(s.d) && DrainMove(s).Some?
    ensures SharedOk(DrainMove(s).value)
  {}

  lemma ActorsUnderDestructor(j: nat, b: Actor, s: Shared, s': Shared)
    requires DestructorFrame(s, s') && ActorOk(j, b, s)
    ensures ActorOk(j, b, s')
  {}

  /** The four steps on a thread's data. */
  lemma DataMoveKeeps(i: nat, a: Actor, s: Shared)
    requires SharedOk(s) && ActorOk(i, a, s) && OnData(s.d) && s.d.i == i && DataMove(a, s).To?
    ensures var m := DataMove(a, s); SharedOk(m.sh) && ActorOk(i, m.a, m.sh)
  {}

  lemma OthersUnderData(j: nat, b: Actor, a: Actor, s: Shared)
    requires SharedOk(s) && ActorOk(j, b, s) && OnData(s.d) && s.d.i != j && DataMove(a, s).To?
    ensures ActorOk(j, b, DataMove(a, s).sh)
  {}

  lemma DestroyKeepsLocks(s: State, i: nat)
    requires LocksOk(s) && Step(s, Destroy(i)).Some?
    ensures LocksOk(Step(s, Destroy(i)).value)
  {
    hide SharedOk, Locked, Flagged, Listed, ActorOk, DataMove, ListMove, DrainMove;
    var s' := Step(s, Destroy(i)).value;
    if OnData(s.sh.d) {
      var k := s.sh.d.i;
      DataMoveKeeps(k, s.actors[k], s.sh);
      forall j | j in s.actors && j != k ensures ActorOk(j, s.actors[j], s'.sh) {
        OthersUnderData(j, s.actors[j], s.actors[k], s.sh);
      }
      DataMoveOwners(s.actors[k], s.sh);
    } else {
      if Emptied(s.sh.d) {
        DrainMoveFrames(s.sh); DrainMoveShared(s.sh);
      } else {
        ListMoveFrames(s.sh, i); ListMoveShared(s.sh, i);
      }
      forall j | j in s.actors ensures ActorOk(j, s.actors[j], s'.sh) {
        ActorsUnderDestructor(j, s.actors[j], s.sh, s'.sh);
      }
    }
  }

  lemma DataMoveOwners(a: Actor, s: Shared)
    requires OnData(s.d) && DataMove(a, s).To?
    ensures var s' := DataMove(a, s).sh;
      && s'.listOwner == s.listOwner && s'.tempOwner == s.tempOwner && s'.list <= s.list
      && (s'.d.DRelease? ==> s'.d.i == s.d.i)
  {}

  // ---------------------------------------------------------------- pushes keep it

  lemma PushesKeep(j: nat, b: Actor, s: Shared, l: Label)
    requires SharedOk(s) && ActorOk(j, b, s) && PushMove(s, l).Some? && (l.Spawn? ==> l.i != j)
    ensures ActorOk(j, b, PushMove(s, l).value)
  {}

  lemma PushMoveKeeps(s: Shared, l: Label)
    requires SharedOk(s) && PushMove(s, l).Some?
    ensures var s' := PushMove(s, l).value;
      && SharedOk(s') && s'.listOwner == s.listOwner && s'.tempOwner == s.tempOwner && s'.d == s.d
      && (l.Spawn? ==> ActorOk(l.i, Actor(Start, false, Nobody), s'))
  {}

  lemma PushKeepsLocks(s: State, l: Label)
    requires LocksOk(s) && !l.Act? && !l.Destroy? && Step(s, l).Some?
    ensures LocksOk(Step(s, l).value)
  {
    hide SharedOk, Locked, Flagged, Listed, ActorOk;
    var s' := Step(s, l).value;
    PushMoveKeeps(s.sh, l);
    forall j | j in s.actors ensures ActorOk(j, s.actors[j], s'.sh) {
      PushesKeep(j, s.actors[j], s.sh, l);
    }
  }

  lemma StepKeepsLocks(s: State, l: Label)
    requires LocksOk(s) && Step(s, l).Some?
    ensures LocksOk(Step(s, l).value)
  {
    hide LocksOk, Step;
    match l
    case Act(i) => ActKeepsLocks(s, i);
    case Destroy(i) => DestroyKeepsLocks(s, i);
    case _ => PushKeepsLocks(s, l);
  }

  // ---------------------------------------------------------------- the counting invariant

  /** Has a permit and has not popped. */
  predicate Fetches(a: Actor) { a.pc.Permit? }

  /** Has released the task's semaphore and not yet counted that. */
  predicate Releases(a: Actor) { a.pc.TermReleased? }

  /** Termination tasks in the queue, and those taken and not yet counted. */
  function Sent(s: Shared): nat { if BeforeSending(s.d) then 0 else |s.items| }

  /** Between finding a task unfinished and acquiring the semaphore. */
  predicate Owed(d: DPc) { Draining(d) && !d.DHead? && !d.DRelock? }

  /** carriers, fetchers and releasers count the actors at the points those predicates name. */
  predicate Tally(s: Shared, carriers: nat, fetchers: nat, releasers: nat) {
    && s.sent + Bit(s.d.DPost?) == Sent(s) + carriers + Bit(DCarries(s.d)) + s.finished
    && (!BeforeSending(s.d) ==> |s.items| <= s.permits + fetchers + Bit(s.d.DPost?) + Bit(s.d.DPop?))
    && Waits(s, carriers, releasers)
  }

  /** What the destructor knows while it waits for its tasks. */
  predicate Waits(s: Shared, carriers: nat, releasers: nat) {
    && s.maxThreads > 0
    && (Owed(s.d) && releasers > 0 ==> s.sem > 0)
    && ((s.d.DCount? || s.d.DSem?) && s.items == [] ==> carriers > 0 || s.sem > 0)
    && (s.d.DTermReleased? || s.d.DTermCounted? ==> s.sem > 0)
    && (s.d.DSem? ==> s.items == [] || s.sem > 0)
    && (s.d.DWait? || s.d.DPop? ==> s.items != [])
    && (Released(s.d) ==> s.finished >= s.sent && !s.tempOwner.ByActor?)
  }

  ghost predicate Counted(s: State) {
    Tally(s.sh, |Who(s.actors, Carries)|, |Who(s.actors, Fetches)|, |Who(s.actors, Releases)|)
  }

  /** Once the list has been seen empty no actor is at the queue or at the list any more. */
  lemma NoneFetches(s: State)
    requires LocksOk(s) && Emptied(s.sh.d)
    ensures forall i | i in s.actors :: !TouchesPool(s.actors[i]) && Phase(s.actors[i].pc) != Fetch
    ensures Who(s.actors, Fetches) == {}
  {
    forall i | i in s.actors ensures !TouchesPool(s.actors[i]) && Phase(s.actors[i].pc) != Fetch {
      assert ActorOk(i, s.actors[i], s.sh);
    }
  }

  lemma NoneReleases(s: State)
    requires LocksOk(s) && !s.sh.tempOwner.ByActor?
    ensures Who(s.actors, Releases) == {}
  {
    forall i | i in s.actors ensures !Releases(s.actors[i]) {
      assert ActorOk(i, s.actors[i], s.sh);
    }
  }

  lemma FetchTally(i: nat, a: Actor, s: Shared, c: nat, f: nat, r: nat, c': nat, f': nat, r': nat)
    requires SharedOk(s) && Flagged(i, a, s) && Phase(a.pc) == Fetch && FetchMove(a, s).To? && Tally(s, c, f, r)
    requires !Emptied(s.d)
    requires c' == c - Bit(Carries(a)) + Bit(Carries(FetchMove(a, s).a))
    requires f' == f - Bit(Fetches(a)) + Bit(Fetches(FetchMove(a, s).a))
    requires r' == r - Bit(Releases(a)) + Bit(Releases(FetchMove(a, s).a))
    ensures Tally(FetchMove(a, s).sh, c', f', r')
  {}

  /** What running a task does to the numbers. */
  lemma WorkIs(i: nat, a: Actor, s: Shared)
    requires Phase(a.pc) == Work && TaskMove(i, a, s).To?
    ensures var m := TaskMove(i, a, s);
      && m.sh == s.(tempOwner := m.sh.tempOwner, sem := if a.pc.TermHeld? then Raised(s) else s.sem, finished := s.finished + Bit(Releases(a)))
      && (m.sh.tempOwner.ByActor? ==> s.tempOwner.ByActor? || Carries(a))
      && Bit(Carries(m.a)) == Bit(Carries(a)) - Bit(Releases(a)) && !Fetches(a) && !Fetches(m.a)
      && (Releases(m.a) <==> a.pc.TermHeld?)
  {}

  lemma WorkTally(i: nat, a: Actor, s: Shared, c: nat, f: nat, r: nat, c': nat, f': nat, r': nat)
    requires Phase(a.pc) == Work && TaskMove(i, a, s).To? && Tally(s, c, f, r)
    requires c' == c - Bit(Carries(a)) + Bit(Carries(TaskMove(i, a, s).a))
    requires f' == f - Bit(Fetches(a)) + Bit(Fetches(TaskMove(i, a, s).a))
    requires r' == r - Bit(Releases(a)) + Bit(Releases(TaskMove(i, a, s).a))
    requires Carries(a) ==> c > 0
    ensures Tally(TaskMove(i, a, s).sh, c', f', r')
  {
    WorkIs(i, a, s);
    hide TaskMove, Carries;
  }

  /** The other steps touch none of it. */
  lemma QuietIs(i: nat, a: Actor, s: Shared)
    requires Phase(a.pc) == Begin || Phase(a.pc) == Leave
    requires ActorMove(i, a, s).To?
    ensures var m := ActorMove(i, a, s);
      && m.sh == s.(list := m.sh.list, listOwner := m.sh.listOwner)
      && !Carries(a) && !Fetches(a) && !Releases(a) && !Carries(m.a) && !Fetches(m.a) && !Releases(m.a)
  {}

  lemma MoveTally(i: nat, a: Actor, s: Shared, c: nat, f: nat, r: nat, c': nat, f': nat, r': nat)
    requires SharedOk(s) && ActorOk(i, a, s) && ActorMove(i, a, s).To? && Tally(s, c, f, r)
    requires Emptied(s.d) ==> Phase(a.pc) != Fetch
    requires Carries(a) ==> c > 0
    requires c' == c - Bit(Carries(a)) + Bit(Carries(ActorMove(i, a, s).a))
    requires f' == f - Bit(Fetches(a)) + Bit(Fetches(ActorMove(i, a, s).a))
    requires r' == r - Bit(Releases(a)) + Bit(Releases(ActorMove(i, a, s).a))
    ensures Tally(ActorMove(i, a, s).sh, c', f', r')
  {
    match Phase(a.pc)
    case Fetch => FetchTally(i, a, s, c, f, r, c', f', r') by { hide FetchMove, Tally; }
    case Work => WorkTally(i, a, s, c, f, r, c', f', r') by { hide TaskMove, Tally; }
    case _ => QuietIs(i, a, s); hide ActorMove;
  }

  lemma ActKeepsCounts(s: State, i: nat)
    requires LocksOk(s) && Counted(s) && Step(s, Act(i)).Some?
    ensures Counted(Step(s, Act(i)).value)
  {
    hide ActorMove, Tally, Carries, Fetches, Releases;
    var a := s.actors[i];
    var a' := ActorMove(i, a, s.sh).a;
    CountAfter(s.actors, i, a', Carries);
    CountAfter(s.actors, i, a', Fetches);
    CountAfter(s.actors, i, a', Releases);
    if Carries(a) { assert i in Who(s.actors, Carries); }
    if Emptied(s.sh.d) { NoneFetches(s); }
    var s' := Step(s, Act(i)).value;
    MoveTally(i, a, s.sh, |Who(s.actors, Carries)|, |Who(s.actors, Fetches)|, |Who(s.actors, Releases)|,
      |Who(s'.actors, Carries)|, |Who(s'.actors, Fetches)|, |Who(s'.actors, Releases)|);
  }

  lemma ListMoveTally(s: Shared, i: nat, c: nat, f: nat, r: nat)
    requires SharedOk(s) && Tally(s, c, f, r) && !OnData(s.d) && !Emptied(s.d) && ListMove(s, i).Some?
    requires BeforeSending(s.d) ==> c == 0
    ensures Tally(ListMove(s, i).value, c, f, r)
  {}

  lemma DrainMoveTally(s: Shared, c: nat, f: nat, r: nat)
    requires SharedOk(s) && Tally(s, c, f, r) && Emptied(s.d) && DrainMove(s).Some?
    requires f == 0 && (!s.tempOwner.ByActor? ==> r == 0)
    ensures Tally(DrainMove(s).value, c, f, r)
  {
    DrainMoveWaits(s, c, f, r) by { hide DrainMove, Waits; }
    hide Waits;
  }

  lemma DrainMoveWaits(s: Shared, c: nat, f: nat, r: nat)
    requires SharedOk(s) && Tally(s, c, f, r) && Emptied(s.d) && DrainMove(s).Some?
    requires !s.tempOwner.ByActor? ==> r == 0
    ensures Waits(DrainMove(s).value, c, r)
  {}

  lemma DataMoveIs(a: Actor, s: Shared)
    requires OnData(s.d) && DataMove(a, s).To?
    ensures var m := DataMove(a, s);
      && m.sh == s.(list := m.sh.list, d := m.sh.d) && DHoldsList(m.sh.d) && !m.sh.d.DUnlock? && !m.sh.d.DPost?
      && Carries(m.a) == Carries(a) && Fetches(m.a) == Fetches(a) && Releases(m.a) == Releases(a)
  {}

  lemma DataMoveTally(a: Actor, s: Shared, c: nat, f: nat, r: nat)
    requires OnData(s.d) && DataMove(a, s).To? && Tally(s, c, f, r)
    ensures Tally(DataMove(a, s).sh, c, f, r)
  {}

  lemma DestroyKeepsCounts(s: State, i: nat)
    requires LocksOk(s) && Counted(s) && Step(s, Destroy(i)).Some?
    ensures Counted(Step(s, Destroy(i)).value)
  {
    hide DataMove, ListMove, DrainMove, Carries, Fetches, Releases;
    if OnData(s.sh.d) {
      DataKeepsCounts(s, i) by { hide Counted, LocksOk; }
    } else {
      var c, f, r := |Who(s.actors, Carries)|, |Who(s.actors, Fetches)|, |Who(s.actors, Releases)|;
      hide Tally;
      if Emptied(s.sh.d) {
        NoneFetches(s);
        if !s.sh.tempOwner.ByActor? { NoneReleases(s); }
        DrainMoveTally(s.sh, c, f, r);
      } else {
        if BeforeSending(s.sh.d) { NoneCarries(s); }
        ListMoveTally(s.sh, i, c, f, r);
      }
    }
  }

  lemma DataKeepsCounts(s: State, i: nat)
    requires Counted(s) && OnData(s.sh.d) && Step(s, Destroy(i)).Some?
    ensures Counted(Step(s, Destroy(i)).value)
  {
    var k, a := s.sh.d.i, s.actors[s.sh.d.i];
    DataMoveIs(a, s.sh);
    DataMoveTally(a, s.sh, |Who(s.actors, Carries)|, |Who(s.actors, Fetches)|, |Who(s.actors, Releases)|);
    hide DataMove, Tally, Carries, Fetches, Releases;
    var a' := DataMove(a, s.sh).a;
    CountAfter(s.actors, k, a', Carries);
    CountAfter(s.actors, k, a', Fetches);
    CountAfter(s.actors, k, a', Releases);
  }

  lemma NoneCarries(s: State)
    requires LocksOk(s) && BeforeSending(s.sh.d)
    ensures Who(s.actors, Carries) == {}
  {
    forall i | i in s.actors ensures !Carries(s.actors[i]) {
      assert ActorOk(i, s.actors[i], s.sh);
    }
  }

  lemma PushKeepsCounts(s: State, l: Label)
    requires LocksOk(s) && Counted(s) && !l.Act? && !l.Destroy? && Step(s, l).Some?
    ensures Counted(Step(s, l).value)
  {
    if l.Spawn? {
      CountAdd(s.actors, l.i, Actor(Start, false, Nobody), Carries);
      CountAdd(s.actors, l.i, Actor(Start, false, Nobody), Fetches);
      CountAdd(s.actors, l.i, Actor(Start, false, Nobody), Releases);
    }
  }

  // ---------------------------------------------------------------- every run

  ghost predicate Invariant(s: State) { LocksOk(s) && Counted(s) }

  lemma StepKeepsInvariant(s: State, l: Label)
    requires Invariant(s) && Step(s, l).Some?
    ensures Invariant(Step(s, l).value)
  {
    StepKeepsLocks(s, l) by { hide LocksOk; }
    hide LocksOk, Counted, Step;
    match l
    case Act(i) => ActKeepsCounts(s, i);
    case Destroy(i) => DestroyKeepsCounts(s, i);
    case _ => PushKeepsCounts(s, l);
  }

  lemma {:induction false} RunKeepsInvariant(states: seq<State>, labels: seq<Label>, k: nat)
    requires IsRun(states, labels) && k < |states|
    ensures Invariant(states[k])
  {
    hide Step;
    if k == 0 {
      assert Who(states[0].actors, Carries) == Who(states[0].actors, Fetches) == Who(states[0].actors, Releases) == {};
    } else {
      RunKeepsInvariant(states, labels, k - 1);
      assert Step(states[k - 1], labels[k - 1]) == Some(states[k]);
      hide Invariant;
      StepKeepsInvariant(states[k - 1], labels[k - 1]);
    }
  }

  /** An actor for which TouchesPool is false neither reads nor writes the pool in its next step. */
  lemma OthersIgnorePool(i: nat, a: Actor, s: Shared, s': Shared)
    requires !TouchesPool(a)
    requires s' == s.(list := s'.list, listOwner := s'.listOwner, items := s'.items, permits := s'.permits,
                      owes := s'.owes, minThreads := s'.minThreads,
                      d := s'.d)
    ensures var m, m' := ActorMove(i, a, s), ActorMove(i, a, s');
      if m.Blocked? then m'.Blocked?
      else m' == To(m.a, s'.(tempOwner := m.sh.tempOwner, sem := m.sh.sem, finished := m.sh.finished))
  {}

  /** An actor for which TouchesTask is false neither reads nor writes the termination task. */
  lemma OthersIgnoreTask(i: nat, a: Actor, s: Shared, s': Shared)
    requires !TouchesTask(a)
    requires s' == s.(tempOwner := s'.tempOwner, sem := s'.sem, finished := s'.finished)
    ensures var m, m' := ActorMove(i, a, s), ActorMove(i, a, s');
      if m.Blocked? then m'.Blocked?
      else m' == To(m.a, m.sh.(tempOwner := s'.tempOwner, sem := s'.sem, finished := s'.finished))
  {}

  /** In every run: once the destructor has seen the thread list empty, no actor's next step touches
      the pool, and no push is under way; once it stops waiting, no actor's next step touches the
      termination task and none is queued; and the thread data it works on is still allocated. */
  lemma ReleasedUntouched(states: seq<State>, labels: seq<Label>, k: nat, i: nat)
    requires IsRun(states, labels) && k < |states| && i in states[k].actors
    ensures var s := states[k]; var a := s.actors[i];
      && (Emptied(s.sh.d) ==> !TouchesPool(a) && s.sh.owes == 0)
      && (Released(s.sh.d) ==> !TouchesTask(a) && s.sh.items == [])
      && (OnData(s.sh.d) && s.sh.d.i == i ==> !a.pc.Free? && !a.pc.Gone?)
      && (a.pc.Free? || a.pc.Gone? ==> i !in s.sh.list && a.holder != Destructor)
  {
    RunKeepsInvariant(states, labels, k);
    var s := states[k];
    hide IsRun;
    assert ActorOk(i, s.actors[i], s.sh);
    if Emptied(s.sh.d) { NoneFetches(s); }
    if Released(s.sh.d) {
      assert Who(s.actors, Carries) == {};
      assert Carries(s.actors[i]) ==> i in Who(s.actors, Carries);
    }
  }

  lemma {:induction false} GoneIsFinal(states: seq<State>, labels: seq<Label>, i: nat, j: nat, k: nat)
    requires IsRun(states, labels) && j <= k < |states|
    requires i in states[j].actors
    ensures i in states[k].actors
    ensures states[j].actors[i].pc.Gone? ==> states[k].actors[i].pc.Gone?
    decreases k
  {
    if j < k {
      GoneIsFinal(states, labels, i, j, k - 1);
      assert Step(states[k - 1], labels[k - 1]) == Some(states[k]);
      hide IsRun;
      StepKeepsGone(states[k - 1], labels[k - 1], i);
    }
  }

  /** Only the thread itself frees its data. */
  lemma StepKeepsGone(s: State, l: Label, i: nat)
    requires i in s.actors && Step(s, l).Some?
    ensures var s' := Step(s, l).value;
      && i in s'.actors
      && (s.actors[i].pc.Gone? ==> s'.actors[i].pc.Gone?)
      && (!s.actors[i].pc.Gone? && s'.actors[i].pc.Gone? ==> l == Act(i) && s.actors[i].pc.Free?)
  {}

  /** Two steps of a run that free the data of thread i are the same step: the program of a thread frees
      it in one place. That nobody else comes by it then is the last clause of ReleasedUntouched. */
  lemma FreedOnce(states: seq<State>, labels: seq<Label>, i: nat, j: nat, k: nat)
    requires IsRun(states, labels) && j <= k < |labels|
    requires labels[j] == Act(i) && i in states[j].actors && states[j].actors[i].pc.Free?
    requires labels[k] == Act(i) && i in states[k].actors && states[k].actors[i].pc.Free?
    ensures j == k
  {
    if j < k {
      assert Step(states[j], labels[j]) == Some(states[j + 1]);
      GoneIsFinal(states, labels, i, j + 1, k);
    }
  }

  // ---------------------------------------------------------------- who can take a step

  /** An actor that holds listMutex or the task's mutex can take its next step. */
  lemma HoldersMove(i: nat, a: Actor, s: Shared)
    requires ActorOk(i, a, s)
    requires HoldsList(a.pc) || HoldsTemp(a.pc) || a.pc.Popped? || a.pc.DoneQueue?
      || (a.pc == Run(Term) && s.tempOwner == NoOwner)
    ensures ActorMove(i, a, s).To?
  {}

  lemma ListOwnerMoves(s: State)
    requires LocksOk(s) && s.sh.listOwner.ByActor?
    ensures Step(s, Act(s.sh.listOwner.i)).Some?
  {
    var i := s.sh.listOwner.i;
    assert ActorOk(i, s.actors[i], s.sh);
    hide ActorMove;
    HoldersMove(i, s.actors[i], s.sh);
  }

  lemma TempOwnerMoves(s: State)
    requires LocksOk(s) && s.sh.tempOwner.ByActor?
    ensures Step(s, Act(s.sh.tempOwner.i)).Some?
  {}

  /** While the destructor waits for the semaphore some actor is still to release it. */
  lemma CarrierWhileWaiting(s: State) returns (i: nat)
    requires Invariant(s) && s.sh.d.DSem? && s.sh.sem == 0 && !s.sh.tempOwner.ByActor?
    ensures i in s.actors && s.actors[i].pc == Run(Term) && Step(s, Act(i)).Some?
  {
    hide ActorMove;
    NoneReleases(s);
    assert Who(s.actors, Carries) != {};
    i :| i in Who(s.actors, Carries);
    assert ActorOk(i, s.actors[i], s.sh);
    HoldersMove(i, s.actors[i], s.sh);
  }

  lemma DestructorMoves(s: State, i: nat)
    requires Invariant(s) && Emptied(s.sh.d) && !s.sh.d.DEnd? && !s.sh.tempOwner.ByActor?
    requires s.sh.d.DSem? ==> s.sh.sem > 0
    ensures Step(s, Destroy(i)).Some?
  {
    if s.sh.d.DWait? { NoneFetches(s); }
  }

  // ---------------------------------------------------------------- threadpoolFree comes to its end

  /** How many steps an actor is from giving its dataMutex back. */
  function HeldRank(pc: Pc): nat {
    match pc
    case AfterHeld => 8 case WantList => 7 case InList => 6 case CheckQueue => 5 case CheckCount => 4 case Keep => 3 case Left => 3
    case Unlock(_) => 2 case TopHeld => 6 case Waiting => 5 case Permit => 4 case Popped(_) => 3 case Missed => 3
    case DoneQueue(_) => 2 case StartHeld => 1 case ExitHeld => 1 case _ => 0
  }

  /** How many steps it is from being through with a termination task. */
  function TaskRank(pc: Pc): nat {
    match pc
    case Run(task) => if task == Term then 4 else 0
    case TermHeld => 3 case TermReleased => 2 case TermCounted => 1 case _ => 0
  }

  function HeldOf(a: Actor): nat { HeldRank(a.pc) }

  function TaskOf(a: Actor): nat { TaskRank(a.pc) }

  ghost function HeldLoad(s: State): nat { Sum(s.actors, HeldOf) }

  ghost function TaskLoad(s: State): nat { Sum(s.actors, TaskOf) }

  /** Will not give its dataMutex back before it has taken a permit. */
  predicate Hungry(a: Actor) { (a.pc.TopHeld? && !a.terminate) || a.pc.Waiting? }

  /** How many permits those lack. */
  ghost function Deficit(s: State): nat {
    var n := |Who(s.actors, Hungry)|;
    if n > s.sh.permits then n - s.sh.permits else 0
  }

  /** Clearing the queue, then emptying the list, then waiting for the termination tasks. */
  function Stage(s: Shared): nat {
    if Emptied(s.d) then 0
    else match s.d
      case DQueue => s.permits + 4 case DDrain => s.permits + 3 case DClear => 2 case _ => 1
  }

  /** How far the destructor is from giving listMutex back, or from taking a thread out of the list;
      starved says that some actor lacks a permit, held that some actor has its dataMutex. */
  function ListRank(s: Shared, starved: bool, held: bool): nat {
    var base := if starved then 2 else if held then 2 * |s.list| + 4 else 4;
    match s.d
    case DLock => if starved then 7 else if held then 1 else 9
    case DUnlock(_) => if starved then 8 else if held then 2 else 10
    case DSend(left) => if starved then (if left == 0 then 9 else 2) else 2 * left + if held then 3 else 20
    case DPost(left) => if starved then 1 else 2 * left + if held then 4 else 21
    case DRelease(_) => base + 5 case DIter => base + 4 case DTry(_) => base + 3 case DMark(_) => base + 2
    case DDrop(_) => base + 1
    case _ => 0
  }

  /** How far it is from comparing the finished tasks with those sent again, or from the end. */
  function DrainRank(d: DPc): nat {
    match d
    case DUnlock(_) => 9 case DRelock => 8 case DHead => 7 case DCount => 6 case DWait => 5 case DPop => 4
    case DUnlockTemp => 3 case DFreeTask => 2 case DFreePool => 1 case DTermCounted => 3 case DSem => 2 case _ => 0
  }

  /** How far it is through a termination task that it runs itself. */
  function OwnTaskRank(d: DPc): nat { match d case DRun => 3 case DTermHeld => 2 case DTermReleased => 1 case _ => 0 }

  ghost function M1(s: State): nat {
    if Stage(s.sh) > 0 then |s.sh.list| else if s.sh.sent > s.sh.finished then s.sh.sent - s.sh.finished else 0
  }

  ghost function M2(s: State): nat {
    if Stage(s.sh) > 0 then Deficit(s) else TaskLoad(s) + 4 * |s.sh.items| + OwnTaskRank(s.sh.d)
  }

  ghost function M3(s: State): nat { if Stage(s.sh) > 0 then HeldLoad(s) else s.sh.sem }

  ghost function M4(s: State): nat {
    if Stage(s.sh) > 0 then ListRank(s.sh, Deficit(s) > 0, HeldLoad(s) > 0) else DrainRank(s.sh.d)
  }

  /** Nearer to the end of threadpoolFree, in five respects, the first ones first. */
  ghost predicate Nearer(s': State, s: State) {
    || Stage(s'.sh) < Stage(s.sh)
    || (Stage(s'.sh) == Stage(s.sh) &&
        (M1(s') < M1(s) || (M1(s') == M1(s) &&
         (M2(s') < M2(s) || (M2(s') == M2(s) &&
          (M3(s') < M3(s) || (M3(s') == M3(s) && M4(s') < M4(s))))))))
  }

  // ---------------------------------------------------------------- ... with the list not empty yet

  /** An actor with its dataMutex can go on to give it back. */
  lemma HeldMoves(i: nat, a: Actor, s: Shared)
    requires ActorOk(i, a, s) && HoldsData(a.pc)
    requires a.pc.Waiting? ==> s.permits > 0
    requires a.pc.WantList? ==> s.listOwner == NoOwner
    ensures ActorMove(i, a, s).To?
  {}

  lemma HeldIs(i: nat, a: Actor, s: Shared)
    requires ActorMove(i, a, s).To? && HoldsData(a.pc) && !s.d.DIdle?
    ensures var m := ActorMove(i, a, s);
      && HeldRank(m.a.pc) < HeldRank(a.pc) && m.sh.d == s.d && (m.sh.list == s.list || m.sh.list == s.list - {i})
      && m.sh.permits == s.permits - Bit(a.pc.Waiting?) && Bit(Hungry(m.a)) == Bit(Hungry(a)) - Bit(a.pc.Waiting?)
  {
    match a.pc
    case StartHeld => return;
    case TopHeld => return;
    case Waiting => return;
    case Permit => return;
    case Popped(_) => return;
    case Missed => return;
    case DoneQueue(_) => return;
    case AfterHeld => return;
    case WantList => return;
    case InList => return;
    case CheckQueue => return;
    case CheckCount => return;
    case Keep => return;
    case Left => return;
    case Unlock(_) => return;
    case _ =>
  }

  lemma HeldLowers(s: State, i: nat)
    requires LocksOk(s) && i in s.actors && HoldsData(s.actors[i].pc) && s.sh.d.DLock? && Step(s, Act(i)).Some?
    ensures Nearer(Step(s, Act(i)).value, s)
  {
    HeldIs(i, s.actors[i], s.sh);
    hide ActorMove, HeldRank, Hungry, HoldsData, Nearer, LocksOk;
    HeldIsNearer(s, Step(s, Act(i)).value, i);
  }

  lemma HeldIsNearer(s: State, s': State, i: nat)
    requires s.sh.d.DLock? && s'.sh.d == s.sh.d && i in s.actors && i in s'.actors
    requires s'.actors == s.actors[i := s'.actors[i]] && HeldOf(s'.actors[i]) < HeldOf(s.actors[i])
    requires s'.sh.list == s.sh.list || s'.sh.list == s.sh.list - {i}
    requires s'.sh.permits == s.sh.permits - Bit(s.actors[i].pc.Waiting?)
    requires Bit(Hungry(s'.actors[i])) == Bit(Hungry(s.actors[i])) - Bit(s.actors[i].pc.Waiting?)
    ensures Nearer(s', s)
  {
    hide HeldRank, HeldOf, Hungry, ListRank, DrainRank;
    CountAfter(s.actors, i, s'.actors[i], Hungry);
    SumAfter(s.actors, i, s'.actors[i], HeldOf);
    ListFalls(s.sh.list, s'.sh.list, i);
  }

  lemma ListFalls(list: set<nat>, list': set<nat>, i: nat)
    requires list' == list || list' == list - {i}
    ensures list' == list || |list'| < |list|
  {}

  /** With the list mutex in its hands the destructor always goes on. */
  lemma ListMoveOn(s: Shared, i: nat)
    requires SharedOk(s) && !OnData(s.d) && Stage(s) > 0 && !s.d.DIdle? && (s.list != {} ==> i in s.list)
    requires s.d.DLock? ==> s.listOwner == NoOwner
    ensures ListMove(s, i).Some?
  {}

  /** Before it takes the list the destructor only clears the queue. */
  lemma ClearingLowers(s: Shared, i: nat)
    requires SharedOk(s) && Stage(s) > 1 && ListMove(s, i).Some? && !s.d.DIdle?
    ensures Stage(ListMove(s, i).value) < Stage(s)
  {}

  /** A step of the destructor in the list, with the loads as they are. */
  lemma ListMoveLowers(s: Shared, i: nat, hungry: nat, held: bool)
    requires SharedOk(s) && !OnData(s.d) && Stage(s) == 1 && !s.d.DIdle? && ListMove(s, i).Some?
    requires s.d.DLock? ==> hungry > s.permits || !held
    ensures var s' := ListMove(s, i).value;
      || Stage(s') == 0
      || (Stage(s') == 1 && s'.list == s.list && s'.permits > s.permits && hungry > s.permits)
      || (Stage(s') == 1 && s'.list == s.list && s'.permits >= s.permits
          && (hungry > s'.permits <==> hungry > s.permits)
          && ListRank(s', hungry > s.permits, held) < ListRank(s, hungry > s.permits, held))
  {}

  /** ... and on a thread's data: if no actor holds its own, the try works. */
  lemma DataMoveLowers(a: Actor, s: Shared, starved: bool, held: bool)
    requires SharedOk(s) && OnData(s.d) && ActorOk(s.d.i, a, s)
    requires !held ==> !HoldsData(a.pc)
    ensures var m := DataMove(a, s);
      && m.To? && Stage(m.sh) == 1 && m.sh.permits == s.permits
      && HeldOf(m.a) == HeldOf(a) && Hungry(m.a) == Hungry(a)
      && (if s.d.DDrop? then m.sh.list == s.list - {s.d.i}
          else m.sh.list == s.list && ListRank(m.sh, starved, held) < ListRank(s, starved, held))
  {}

  lemma DestroyLowersList(s: State, i: nat)
    requires LocksOk(s) && Stage(s.sh) == 1 && !s.sh.d.DIdle? && (s.sh.list != {} ==> i in s.sh.list)
    requires s.sh.d.DLock? ==> s.sh.listOwner == NoOwner && (Deficit(s) > 0 || HeldLoad(s) == 0)
    ensures Step(s, Destroy(i)).Some? && Nearer(Step(s, Destroy(i)).value, s)
  {
    hide ListMove, DataMove, ListRank, Hungry, HoldsData, SharedOk, ActorOk;
    var n, held := |Who(s.actors, Hungry)|, HeldLoad(s) > 0;
    if OnData(s.sh.d) {
      var k := s.sh.d.i;
      OnDataListed(s);
      if !held { NoneHolds(s, k); }
      DataMoveLowers(s.actors[k], s.sh, Deficit(s) > 0, held);
      var a' := DataMove(s.actors[k], s.sh).a;
      CountAfter(s.actors, k, a', Hungry);
      SumAfter(s.actors, k, a', HeldOf);
    } else {
      ListMoveOn(s.sh, i);
      ListMoveLowers(s.sh, i, n, held);
    }
  }

  lemma OnDataListed(s: State)
    requires LocksOk(s) && OnData(s.sh.d)
    ensures s.sh.d.i in s.actors && ActorOk(s.sh.d.i, s.actors[s.sh.d.i], s.sh)
    ensures s.sh.d.DDrop? ==> s.sh.d.i in s.sh.list
  {}

  lemma NoneHolds(s: State, k: nat)
    requires HeldLoad(s) == 0 && k in s.actors
    ensures !HoldsData(s.actors[k].pc)
  {
    SumAt(s.actors, k, HeldOf);
  }

  lemma {:induction false} SomeoneHolds(actors: map<nat, Actor>) returns (i: nat)
    requires Sum(actors, HeldOf) > 0
    ensures i in actors && HoldsData(actors[i].pc)
    decreases actors.Keys
  {
    var j :| j in actors;
    SumAt(actors, j, HeldOf);
    if HeldRank(actors[j].pc) > 0 { return j; }
    i := SomeoneHolds(actors - {j});
  }

  /** While the list is not known to be empty some step leads on: the destructor waits for actors only
      where it does not have listMutex, and then they have the permits they lack. */
  lemma ListLeadsOn(s: State, i: nat) returns (l: Label)
    requires LocksOk(s) && Stage(s.sh) > 0 && !s.sh.d.DIdle? && (s.sh.list != {} ==> i in s.sh.list)
    ensures (l.Act? || l == Destroy(i)) && Step(s, l).Some? && Nearer(Step(s, l).value, s)
  {
    hide ActorMove, M1, M2, M3, M4;
    if Stage(s.sh) > 1 {
      ListMoveOn(s.sh, i);
      ClearingLowers(s.sh, i);
      return Destroy(i);
    }
    if s.sh.d.DLock? && s.sh.listOwner.ByActor? {
      ListOwnerMoves(s);
      assert ActorOk(s.sh.listOwner.i, s.actors[s.sh.listOwner.i], s.sh);
      HeldLowers(s, s.sh.listOwner.i);
      return Act(s.sh.listOwner.i);
    }
    if s.sh.d.DLock? && Deficit(s) == 0 && HeldLoad(s) > 0 {
      var j := SomeoneHolds(s.actors);
      assert ActorOk(j, s.actors[j], s.sh);
      if s.actors[j].pc.Waiting? { assert j in Who(s.actors, Hungry); }
      HeldMoves(j, s.actors[j], s.sh);
      HeldLowers(s, j);
      return Act(j);
    }
    DestroyLowersList(s, i);
    return Destroy(i);
  }

  // ---------------------------------------------------------------- ... and with the list empty

  /** An actor in a termination task gets through it. */
  lemma TaskLowers(s: State, i: nat)
    requires Invariant(s) && Emptied(s.sh.d) && i in s.actors && TaskRank(s.actors[i].pc) > 0 && Step(s, Act(i)).Some?
    ensures Nearer(Step(s, Act(i)).value, s)
  {
    var a := s.actors[i];
    TaskIs(i, a, s.sh);
    hide ActorMove, LocksOk;
    if a.pc.TermReleased? { assert i in Who(s.actors, Carries); }
    SumAfter(s.actors, i, Step(s, Act(i)).value.actors[i], TaskOf);
  }

  lemma TaskIs(i: nat, a: Actor, s: Shared)
    requires TaskRank(a.pc) > 0 && ActorMove(i, a, s).To?
    ensures var m := ActorMove(i, a, s);
      && TaskOf(m.a) < TaskOf(a) && m.sh.d == s.d && m.sh.items == s.items && m.sh.sent == s.sent
      && m.sh.finished == s.finished + Bit(a.pc.TermReleased?)
  {}

  /** A step of the destructor there, with the actors' tasks as they are. */
  lemma DrainMoveLowers(s: Shared)
    requires Emptied(s.d) && DrainMove(s).Some?
    requires s.d.DTermReleased? ==> s.finished < s.sent
    ensures var s' := DrainMove(s).value;
      var own, own' := 4 * |s.items| + OwnTaskRank(s.d), 4 * |s'.items| + OwnTaskRank(s'.d);
      && Emptied(s'.d) && s'.sent == s.sent && s'.finished == s.finished + Bit(s.d.DTermReleased?)
      && (s.d.DTermReleased? || own' < own || (own' == own && (s'.sem < s.sem || (s'.sem == s.sem && DrainRank(s'.d) < DrainRank(s.d)))))
  {}

  lemma DestroyLowersDrain(s: State, i: nat)
    requires Invariant(s) && Emptied(s.sh.d) && Step(s, Destroy(i)).Some?
    ensures Nearer(Step(s, Destroy(i)).value, s)
  {
    hide DrainMove, LocksOk;
    assert s.sh.d.DTermReleased? ==> s.sh.finished < s.sh.sent;
    DrainMoveLowers(s.sh);
  }

  lemma DrainLeadsOn(s: State, i: nat) returns (l: Label)
    requires Invariant(s) && Emptied(s.sh.d) && !s.sh.d.DEnd?
    ensures (l.Act? || l == Destroy(i)) && Step(s, l).Some? && Nearer(Step(s, l).value, s)
  {
    hide Nearer;
    if s.sh.tempOwner.ByActor? {
      TempOwnerMoves(s);
      assert ActorOk(s.sh.tempOwner.i, s.actors[s.sh.tempOwner.i], s.sh);
      TaskLowers(s, s.sh.tempOwner.i);
      return Act(s.sh.tempOwner.i);
    }
    if s.sh.d.DSem? && s.sh.sem == 0 {
      var j := CarrierWhileWaiting(s);
      TaskLowers(s, j);
      return Act(j);
    }
    DestructorMoves(s, i);
    DestroyLowersDrain(s, i);
    return Destroy(i);
  }

  /** From every state of every run in which threadpoolFree is under way steps of it and of the actors
      take it to its end, whichever thread the list has at its head: it does not go round for ever. */
  lemma Finishes(s: State, head: set<nat> -> nat) returns (states: seq<State>, labels: seq<Label>)
    requires Invariant(s) && !s.sh.d.DIdle? && forall list: set<nat> | list != {} :: head(list) in list
    ensures IsPath(states, labels) && states[0] == s && states[|labels|].sh.d.DEnd?
    ensures forall k | 0 <= k < |labels| :: labels[k].Act? || labels[k] == Destroy(head(states[k].sh.list))
    decreases Stage(s.sh), M1(s), M2(s), M3(s), M4(s)
  {
    hide Invariant, Step, M1, M2, M3, M4;
    if s.sh.d.DEnd? {
      return [s], [];
    }
    var l;
    if Emptied(s.sh.d) {
      l := DrainLeadsOn(s, head(s.sh.list));
    } else {
      l := InvariantListLeadsOn(s, head(s.sh.list));
    }
    var s' := Step(s, l).value;
    StepKeepsInvariant(s, l);
    StaysUnderWay(s, l);
    var states', labels' := Finishes(s', head);
    states, labels := [s] + states', [l] + labels';
    forall k | 0 <= k < |labels| ensures Step(states[k], labels[k]) == Some(states[k + 1])
      && (labels[k].Act? || labels[k] == Destroy(head(states[k].sh.list))) {
      if k > 0 { assert labels[k] == labels'[k - 1] && Step(states'[k - 1], labels'[k - 1]) == Some(states'[k]); }
    }
  }

  lemma InvariantListLeadsOn(s: State, i: nat) returns (l: Label)
    requires Invariant(s) && !Emptied(s.sh.d) && !s.sh.d.DIdle? && (s.sh.list != {} ==> i in s.sh.list)
    ensures (l.Act? || l == Destroy(i)) && Step(s, l).Some? && Nearer(Step(s, l).value, s)
  {
    hide Nearer, LocksOk;
    l := ListLeadsOn(s, i);
  }

  lemma StaysUnderWay(s: State, l: Label)
    requires !s.sh.d.DIdle? && Step(s, l).Some? && (l.Act? || l.Destroy?)
    ensures !Step(s, l).value.sh.d.DIdle?
  {}

  /** In every run, while threadpoolFree is under way, it can still come to its end, although the two
      take the mutexes in opposite orders and releases of a full semaphore are refused. */
  lemma FreeFinishes(states: seq<State>, labels: seq<Label>, k: nat, head: set<nat> -> nat)
    returns (path: seq<State>, steps: seq<Label>)
    requires IsRun(states, labels) && k < |states| && !states[k].sh.d.DIdle?
    requires forall list: set<nat> | list != {} :: head(list) in list
    ensures IsPath(path, steps) && path[0] == states[k] && path[|steps|].sh.d.DEnd?
    ensures forall m | 0 <= m < |steps| :: steps[m].Act? || steps[m] == Destroy(head(path[m].sh.list))
  {
    RunKeepsInvariant(states, labels, k);
    hide IsRun, IsPath, Invariant;
    path, steps := Finishes(states[k], head);
  }

  // ---------------------------------------------------------------- every thread leaves

  /** How many steps a thread is from having freed its data, once its pool is gone. */
  function Rank(pc: Pc): nat {
    match pc
    case DoneQueue(_) => 9 case Run(_) => 8 case After => 7 case AfterHeld => 6 case Unlock(_) => 6
    case Start => 5 case Top => 5 case StartHeld => 4 case TopHeld => 4
    case Exit => 3 case ExitHeld => 2 case Free => 1 case Gone => 0 case _ => 10
  }

  lemma ThreadLeaves(i: nat, a: Actor, s: Shared)
    requires Locked(i, a, s) && Listed(i, a, s) && s.d.DEnd? && s.list == {} && !a.pc.Gone?
    requires !TouchesPool(a) && !TouchesTask(a)
    ensures var m := ActorMove(i, a, s); m.To? && Rank(m.a.pc) < Rank(a.pc) && m.sh == s
  {}

  lemma OnlyActorsLeft(s: State, l: Label)
    requires SharedOk(s.sh) && s.sh.d.DEnd? && !l.Act?
    ensures Step(s, l).None?
  {}

  /** After threadpoolFree has returned every thread that is left can step, and each step brings it
      nearer to freeing its data; nothing else can happen. */
  lemma EveryThreadLeaves(states: seq<State>, labels: seq<Label>, k: nat, i: nat)
    requires IsRun(states, labels) && k < |states| && states[k].sh.d.DEnd?
    requires i in states[k].actors && !states[k].actors[i].pc.Gone?
    ensures var s := states[k]; var s' := Step(s, Act(i));
      && s'.Some? && Rank(s'.value.actors[i].pc) < Rank(s.actors[i].pc)
      && s'.value == State(s.actors[i := s'.value.actors[i]], s.sh)
    ensures forall l: Label | !l.Act? :: Step(states[k], l).None?
  {
    var s := states[k];
    ReleasedUntouched(states, labels, k, i);
    RunKeepsInvariant(states, labels, k);
    hide IsRun;
    assert ActorOk(i, s.actors[i], s.sh);
    ThreadLeaves(i, s.actors[i], s.sh);
    assert SharedOk(s.sh) && s.sh.list == {};
    forall l: Label | !l.Act? ensures Step(s, l).None? { OnlyActorsLeft(s, l); }
    hide ActorMove, DestructorMove, DataMove, PushMove, TouchesPool, TouchesTask, Rank, Counted, LocksOk, SharedOk, Locked, Flagged, Listed;
  }

  // ---------------------------------------------------------------- every task is run once

  function Pushed(task: Task): seq<nat> { if task.User? then [task.id] else [] }

  /** The pushed tasks of a queue. */
  function Queued(q: seq<Task>): seq<nat> { if q == [] then [] else Pushed(q[0]) + Queued(q[1..]) }

  /** The task a caller pushes. */
  function Stores(s: State, l: Label): seq<nat> { if l.Store? then [l.id] else [] }

  /** The pushed task an actor takes from the queue. */
  function Takes(s: State, l: Label): seq<nat> {
    if l.Act? && l.i in s.actors && s.actors[l.i].pc.Permit? && s.sh.items != [] then Pushed(s.sh.items[0]) else []
  }

  /** The pushed task whose function an actor calls. */
  function Runs(s: State, l: Label): seq<nat> {
    if l.Act? && l.i in s.actors && s.actors[l.i].pc.Run? then Pushed(s.actors[l.i].pc.task) else []
  }

  /** The pushed tasks the destructor clears away. */
  function Clears(s: State, l: Label): seq<nat> { if l.Destroy? && s.sh.d == DClear then Queued(s.sh.items) else [] }

  /** What actor i takes, and what it runs. */
  function TakesOf(i: nat): (State, Label) -> seq<nat> { (s: State, l: Label) => if l == Act(i) then Takes(s, l) else [] }

  function RunsOf(i: nat): (State, Label) -> seq<nat> { (s: State, l: Label) => if l == Act(i) then Runs(s, l) else [] }

  /** The pushed task an actor has taken and not yet called. */
  function InHand(pc: Pc): seq<nat> {
    match pc
    case Popped(task) => Pushed(task)
    case DoneQueue(got) => if got.Some? then Pushed(got.value) else []
    case Run(task) => Pushed(task)
    case _ => []
  }

  function InHandOf(s: State, i: nat): seq<nat> { if i in s.actors then InHand(s.actors[i].pc) else [] }

  predicate HasTask(a: Actor) { InHand(a.pc) != [] }

  lemma {:induction false} QueuedBehind(q: seq<Task>, r: seq<Task>)
    ensures Queued(q + r) == Queued(q) + Queued(r)
  {
    if q == [] {
      assert q + r == r;
    } else {
      assert (q + r)[1..] == q[1..] + r;
      QueuedBehind(q[1..], r);
    }
  }

  lemma {:induction false} NoneQueued(q: seq<Task>)
    requires Only(q, false)
    ensures Queued(q) == []
  {
    if q != [] { NoneQueued(q[1..]); }
  }

  /** An actor's step takes the head of the queue or leaves it alone, and calls what it has in hand. */
  lemma MoveTakes(i: nat, a: Actor, s: Shared)
    requires ActorMove(i, a, s).To?
    ensures var m := ActorMove(i, a, s); var takes := a.pc.Permit? && s.items != [];
      && m.sh.items == (if takes then s.items[1..] else s.items) && m.sh.d == s.d
      && InHand(a.pc) + (if takes then Pushed(s.items[0]) else []) ==
           (if a.pc.Run? then Pushed(a.pc.task) else []) + InHand(m.a.pc)
  {
    match Phase(a.pc)
    case Begin => return;
    case Fetch => return;
    case Work => return;
    case Leave => return;
  }

  lemma ActTakes(s: State, i: nat)
    requires Step(s, Act(i)).Some?
    ensures var s' := Step(s, Act(i)).value;
      && Queued(s.sh.items) == Takes(s, Act(i)) + Queued(s'.sh.items) && s'.sh.d == s.sh.d
      && InHandOf(s, i) + Takes(s, Act(i)) == Runs(s, Act(i)) + InHandOf(s', i)
  {
    hide ActorMove, InHand;
    MoveTakes(i, s.actors[i], s.sh);
  }

  /** What the destructor does to pushed tasks: it clears them away, and none is left behind that. */
  lemma DestroyClears(s: State, i: nat)
    requires SharedOk(s.sh) && Step(s, Destroy(i)).Some?
    ensures var s' := Step(s, Destroy(i)).value;
      && Queued(s.sh.items) == Queued(s'.sh.items) + Clears(s, Destroy(i))
      && (BeforeSending(s'.sh.d) ==> BeforeSending(s.sh.d) && Clears(s, Destroy(i)) == [])
  {
    var s' := Step(s, Destroy(i)).value;
    if !BeforeSending(s.sh.d) {
      NoneQueued(s.sh.items);
      if !OnData(s.sh.d) {
        DestructorAfter(s.sh, i);
        NoneQueued(s'.sh.items);
      }
    } else {
      DestructorBefore(s.sh, i);
    }
    hide SharedOk, DestructorMove, Queued;
  }

  lemma DestructorAfter(s: Shared, i: nat)
    requires SharedOk(s) && !BeforeSending(s.d) && DestructorMove(s, i).Some?
    ensures Only(DestructorMove(s, i).value.items, false) && !BeforeSending(DestructorMove(s, i).value.d)
  {}

  lemma DestructorBefore(s: Shared, i: nat)
    requires BeforeSending(s.d) && DestructorMove(s, i).Some?
    ensures DestructorMove(s, i).value.items == (if s.d.DClear? then [] else s.items)
    ensures s.d.DClear? ==> !BeforeSending(DestructorMove(s, i).value.d)
  {}

  /** The pushed tasks were taken in order, then cleared away, in a state where none is queued any more. */
  predicate InTurn(s: State, stored: seq<nat>, taken: seq<nat>, cleared: seq<nat>) {
    stored == taken + Queued(s.sh.items) + cleared && (BeforeSending(s.sh.d) ==> cleared == [])
      && (!BeforeSending(s.sh.d) ==> Queued(s.sh.items) == [])
  }

  /** What a step does to the pushed tasks in the queue. */
  lemma StepQueues(s: State, l: Label)
    requires SharedOk(s.sh) && Step(s, l).Some?
    ensures var s' := Step(s, l).value;
      && Queued(s.sh.items) + Stores(s, l) == Takes(s, l) + Queued(s'.sh.items) + Clears(s, l)
      && (if BeforeSending(s.sh.d) then BeforeSending(s'.sh.d) ==> Clears(s, l) == []
          else !BeforeSending(s'.sh.d) && Stores(s, l) == [] && Clears(s, l) == [])
  {
    match l
    case Act(i) => ActTakes(s, i); hide Step, SharedOk, Queued;
    case Destroy(i) => DestroyClears(s, i); hide Step, SharedOk, Queued;
    case Store(id) =>
      QueuedBehind(s.sh.items, [User(id)]);
      assert Queued([User(id)]) == [id];
      hide SharedOk, Queued;
    case _ => hide SharedOk, Queued;
  }

  lemma Regroup(taken: seq<nat>, q: seq<nat>, st: seq<nat>, t: seq<nat>, q': seq<nat>, c: seq<nat>)
    requires q + st == t + q' + c
    ensures taken + q + st == (taken + t) + q' + c
  {
    assert taken + q + st == taken + (q + st);
    assert taken + (t + q' + c) == (taken + t) + q' + c;
  }

  lemma StepInTurn(s: State, l: Label, stored: seq<nat>, taken: seq<nat>, cleared: seq<nat>)
    requires Step(s, l).Some? && SharedOk(s.sh) && SharedOk(Step(s, l).value.sh) && InTurn(s, stored, taken, cleared)
    ensures InTurn(Step(s, l).value, stored + Stores(s, l), taken + Takes(s, l), cleared + Clears(s, l))
  {
    var s' := Step(s, l).value;
    StepQueues(s, l);
    if !BeforeSending(s'.sh.d) { NoneQueued(s'.sh.items); }
    hide Step, SharedOk, Queued, Stores, Takes, Clears, BeforeSending;
    var q, q', st, t, c := Queued(s.sh.items), Queued(s'.sh.items), Stores(s, l), Takes(s, l), Clears(s, l);
    if BeforeSending(s.sh.d) {
      Regroup(taken, q, st, t, q', c);
      assert stored == taken + q && cleared + c == c;
    } else {
      assert q == [] && t == [] && c == [] && st == [] && q' == [];
      assert stored + st == stored && taken + t == taken && cleared + c == cleared;
    }
  }

  /** In every run the pushed tasks are taken from the queue in the order in which they were pushed: those
      taken, those still queued and those a destructor has cleared away are all there are. */
  lemma {:induction false} TakenInOrder(states: seq<State>, labels: seq<Label>, k: nat)
    requires IsRun(states, labels) && k < |states|
    ensures InTurn(states[k], History(states, labels, k, Stores), History(states, labels, k, Takes), History(states, labels, k, Clears))
  {
    hide SharedOk, Step, Stores, Takes, Clears;
    if k > 0 {
      TakenInOrder(states, labels, k - 1);
      RunKeepsInvariant(states, labels, k - 1);
      RunKeepsInvariant(states, labels, k);
      assert Step(states[k - 1], labels[k - 1]) == Some(states[k]);
      hide IsRun, InTurn, Counted;
      StepInTurn(states[k - 1], labels[k - 1], History(states, labels, k - 1, Stores), History(states, labels, k - 1, Takes),
        History(states, labels, k - 1, Clears));
    }
  }

  lemma StepRuns(s: State, l: Label, i: nat)
    requires Step(s, l).Some?
    ensures InHandOf(s, i) + TakesOf(i)(s, l) == RunsOf(i)(s, l) + InHandOf(Step(s, l).value, i)
  {
    hide ActorMove, DestructorMove, PushMove;
    if l == Act(i) {
      ActTakes(s, i);
      hide Step, InHandOf, Takes, Runs;
    }
  }

  /** In every run each actor calls every task it has taken, once and in order, but for one it has in hand. */
  lemma {:induction false} TakenIsRun(states: seq<State>, labels: seq<Label>, k: nat, i: nat)
    requires IsRun(states, labels) && k < |states|
    ensures History(states, labels, k, TakesOf(i)) == History(states, labels, k, RunsOf(i)) + InHandOf(states[k], i)
  {
    hide Step, TakesOf, RunsOf;
    if k > 0 {
      TakenIsRun(states, labels, k - 1, i);
      var s, l := states[k - 1], labels[k - 1];
      assert Step(s, l) == Some(states[k]);
      hide IsRun, IsPath, InHandOf;
      StepRuns(s, l, i);
      var taken, run := History(states, labels, k - 1, TakesOf(i)), History(states, labels, k - 1, RunsOf(i));
      assert taken + TakesOf(i)(s, l) == run + (InHandOf(s, i) + TakesOf(i)(s, l));
    }
  }

  lemma StepCountsHands(s: State, l: Label)
    requires Step(s, l).Some?
    ensures |Who(s.actors, HasTask)| + |Takes(s, l)| == |Runs(s, l)| + |Who(Step(s, l).value.actors, HasTask)|
  {
    var s' := Step(s, l).value;
    match l
    case Act(i) =>
      ActTakes(s, i);
      CountAfter(s.actors, i, s'.actors[i], HasTask);
      assert s'.actors == s.actors[i := s'.actors[i]];
      hide ActorMove, Queued;
    case Destroy(i) =>
      if OnData(s.sh.d) { DataKeepsHands(s, i); }
      hide DestructorMove;
    case Spawn(i) => CountAdd(s.actors, i, Actor(Start, false, Nobody), HasTask);
    case _ =>
  }

  lemma DataKeepsHands(s: State, i: nat)
    requires OnData(s.sh.d) && Step(s, Destroy(i)).Some?
    ensures |Who(Step(s, Destroy(i)).value.actors, HasTask)| == |Who(s.actors, HasTask)|
  {
    var j := s.sh.d.i;
    CountAfter(s.actors, j, DataMove(s.actors[j], s.sh).a, HasTask);
  }

  /** In every run as many tasks have been pushed as are queued, in an actor's hands, have been run, or were
      cleared away. */
  lemma {:induction false} RunConserves(states: seq<State>, labels: seq<Label>, k: nat)
    requires IsRun(states, labels) && k < |states|
    ensures |History(states, labels, k, Takes)| == |Who(states[k].actors, HasTask)| + |History(states, labels, k, Runs)|
    ensures |History(states, labels, k, Stores)| ==
      |Queued(states[k].sh.items)| + |Who(states[k].actors, HasTask)| + |History(states, labels, k, Runs)|
      + |History(states, labels, k, Clears)|
  {
    hide Step, Takes, Runs, Stores, Clears, Queued;
    TakenInOrder(states, labels, k);
    if k > 0 {
      RunConserves(states, labels, k - 1);
      assert Step(states[k - 1], labels[k - 1]) == Some(states[k]);
      hide IsRun, IsPath;
      StepCountsHands(states[k - 1], labels[k - 1]);
    }
  }

  // ---------------------------------------------------------------- the pool keeps its threads

  lemma MoveKeepsMinimum(i: nat, a: Actor, s: Shared)
    requires ActorMove(i, a, s).To? && |s.list| >= s.minThreads
    ensures var s' := ActorMove(i, a, s).sh; |s'.list| >= s'.minThreads && s'.minThreads == s.minThreads && s'.d == s.d
  {
    match Phase(a.pc)
    case Begin => return;
    case Fetch => return;
    case Work => return;
    case Leave =>
      if i in s.list { assert |s.list - {i}| == |s.list| - 1; } else { assert s.list - {i} == s.list; }
      return;
  }

  lemma StepKeepsMinimum(s: State, l: Label)
    requires Step(s, l).Some? && Step(s, l).value.sh.d == DIdle && |s.sh.list| >= s.sh.minThreads
    ensures var s' := Step(s, l).value; s.sh.d == DIdle && |s'.sh.list| >= s'.sh.minThreads == s.sh.minThreads
  {
    match l
    case Act(i) => MoveKeepsMinimum(i, s.actors[i], s.sh); hide ActorMove;
    case Spawn(i) => assert s.sh.list <= s.sh.list + {i}; SubsetCount(s.sh.list, i);
    case _ =>
  }

  lemma SubsetCount(list: set<nat>, i: nat)
    ensures |list + {i}| >= |list|
  {
    if i in list { assert list + {i} == list; }
  }

  /** In every run, until it is freed: once the pool has its minimum of threads it never has fewer, though each
      may leave on its own. */
  lemma {:induction false} KeepsMinimum(states: seq<State>, labels: seq<Label>, j: nat, k: nat)
    requires IsRun(states, labels) && j <= k < |states| && states[k].sh.d == DIdle
    requires |states[j].sh.list| >= states[j].sh.minThreads
    ensures |states[k].sh.list| >= states[k].sh.minThreads == states[j].sh.minThreads
    decreases k
  {
    if j < k {
      assert Step(states[k - 1], labels[k - 1]) == Some(states[k]);
      IdleBefore(states[k - 1], labels[k - 1]);
      KeepsMinimum(states, labels, j, k - 1);
      hide IsRun, Step;
      StepKeepsMinimum(states[k - 1], labels[k - 1]);
    }
  }

  lemma IdleBefore(s: State, l: Label)
    requires Step(s, l).Some? && Step(s, l).value.sh.d == DIdle
    ensures s.sh.d == DIdle
  {
    if l.Act? {
      var a := s.actors[l.i];
      assert ActorMove(l.i, a, s.sh).sh.d == s.sh.d;
    }
  }

  // ---------------------------------------------------------------- who takes threads off the list

  /** The destructor has had the thread list in its hands. */
  predicate Begun(s: Shared) { !BeforeSending(s.d) && (s.d.DLock? ==> s.sent > 0) }

  /** The actor is about to leave on its own. */
  predicate Deciding(pc: Pc) { pc.CheckQueue? || pc.CheckCount? || pc.Left? }

  predicate RoundOk(s: Shared) {
    && (BeforeSending(s.d) ==> s.sent == 0)
    && (s.d == DUnlock(false) || (s.d.DSend? && s.d.left == 0) ==> s.sent > 0)
    && (s.d.DTry? ==> s.list != {})
  }

  /** Then no actor decides any more whether to leave; and a round of sending has left something to drain. */
  ghost predicate NoneDecides(s: State) {
    && (Begun(s.sh) ==> forall i | i in s.actors :: !Deciding(s.actors[i].pc))
    && RoundOk(s.sh)
  }

  lemma ActDecides(i: nat, a: Actor, s: Shared)
    requires SharedOk(s) && ActorOk(i, a, s) && ActorMove(i, a, s).To?
    ensures var m := ActorMove(i, a, s);
      && m.sh.d == s.d && m.sh.sent == s.sent
      && (Deciding(m.a.pc) ==> Deciding(a.pc) || s.d == DIdle)
      && (m.sh.list != s.list ==> Deciding(a.pc))
  {
    match Phase(a.pc)
    case Begin => return;
    case Fetch => return;
    case Work => return;
    case Leave => return;
  }

  lemma DestructorDecides(s: Shared, i: nat)
    requires SharedOk(s) && RoundOk(s) && DestructorMove(s, i).Some?
    ensures var s' := DestructorMove(s, i).value; RoundOk(s') && (Begun(s') ==> Begun(s) || s.listOwner == NoOwner)
  {}

  lemma DataDecides(a: Actor, s: Shared)
    requires RoundOk(s) && DataMove(a, s).To?
    ensures Begun(s) && RoundOk(DataMove(a, s).sh) && DataMove(a, s).a.pc == a.pc
  {
    if s.list != {} { var i :| i in s.list; assert |s.list - {i}| == |s.list| - 1; }
  }

  lemma StepNoneDecides(s: State, l: Label)
    requires LocksOk(s) && NoneDecides(s) && Step(s, l).Some?
    ensures NoneDecides(Step(s, l).value)
  {
    hide SharedOk, ActorOk, ActorMove, DataMove, DestructorMove;
    match l
    case Act(i) =>
      ActDecides(i, s.actors[i], s.sh);
      hide Deciding;
    case Destroy(i) =>
      if OnData(s.sh.d) {
        DataDecides(s.actors[s.sh.d.i], s.sh);
        hide Deciding;
      } else {
        DestructorDecides(s.sh, i);
        if s.sh.listOwner == NoOwner { NoneListed(s); }
        hide Deciding;
      }
    case _ =>
  }

  lemma NoneListed(s: State)
    requires LocksOk(s) && s.sh.listOwner == NoOwner
    ensures forall i | i in s.actors :: !Deciding(s.actors[i].pc)
  {
    forall i | i in s.actors ensures !Deciding(s.actors[i].pc) { assert ActorOk(i, s.actors[i], s.sh); }
  }

  lemma {:induction false} RunNoneDecides(states: seq<State>, labels: seq<Label>, k: nat)
    requires IsRun(states, labels) && k < |states|
    ensures NoneDecides(states[k])
  {
    hide Step, LocksOk;
    if k > 0 {
      RunNoneDecides(states, labels, k - 1);
      RunKeepsInvariant(states, labels, k - 1);
      hide NoneDecides;
      assert Step(states[k - 1], labels[k - 1]) == Some(states[k]);
      StepNoneDecides(states[k - 1], labels[k - 1]);
    }
  }

  /** In every run, once the destructor has had the thread list no actor takes itself off it: the destructor
      finds on it every thread whose flag it has not set. */
  lemma OnlyDestructorUnlists(states: seq<State>, labels: seq<Label>, k: nat, i: nat)
    requires IsRun(states, labels) && k < |labels| && Begun(states[k].sh) && labels[k] == Act(i)
    ensures states[k + 1].sh.list == states[k].sh.list
  {
    RunNoneDecides(states, labels, k);
    RunKeepsInvariant(states, labels, k);
    assert Step(states[k], labels[k]) == Some(states[k + 1]);
    hide IsRun, SharedOk;
    assert ActorOk(i, states[k].actors[i], states[k].sh);
    hide ActorOk;
    ActDecides(i, states[k].actors[i], states[k].sh);
    hide ActorMove, Deciding;
  }

  /** How far a round has come: total is what will have been sent when it is over. */
  predicate InRound(s: Shared, total: nat) {
    match s.d
    case DSend(left) => s.sent + left == total
    case DPost(left) => s.sent + left + 1 == total
    case DUnlock(finished) => !finished && s.sent == total
    case _ => false
  }

  lemma StepInRound(s: State, l: Label, total: nat)
    requires LocksOk(s) && NoneDecides(s) && InRound(s.sh, total) && !s.sh.d.DUnlock? && Step(s, l).Some?
    ensures var s' := Step(s, l).value; InRound(s'.sh, total) && s'.sh.list == s.sh.list
  {
    hide SharedOk, ActorOk, ActorMove, Deciding;
    if l.Act? {
      assert ActorOk(l.i, s.actors[l.i], s.sh);
      ActDecides(l.i, s.actors[l.i], s.sh);
    }
  }

  /** In every run: where the destructor finds a thread's mutex taken, it sends one termination task for each
      thread still listed before it lets go of the list. */
  lemma {:induction false} RoundSends(states: seq<State>, labels: seq<Label>, j: nat, k: nat)
    requires IsRun(states, labels) && j < k < |states| && states[j].sh.d.DTry? && states[j + 1].sh.d.DSend?
    requires forall m | j < m < k :: !states[m].sh.d.DUnlock?
    ensures InRound(states[k].sh, states[j].sh.sent + |states[k].sh.list|) && states[k].sh.list == states[j].sh.list
    decreases k
  {
    hide LocksOk, NoneDecides;
    RunNoneDecides(states, labels, k - 1);
    RunKeepsInvariant(states, labels, k - 1);
    assert Step(states[k - 1], labels[k - 1]) == Some(states[k]);
    if k == j + 1 {
      TryFails(states[j], labels[j]);
    } else {
      RoundSends(states, labels, j, k - 1);
      hide IsRun, Step, InRound;
      StepInRound(states[k - 1], labels[k - 1], states[j].sh.sent + |states[j].sh.list|);
    }
  }

  lemma TryFails(s: State, l: Label)
    requires LocksOk(s) && s.sh.d.DTry? && Step(s, l).Some? && Step(s, l).value.sh.d.DSend?
    ensures var s' := Step(s, l).value; s'.sh == s.sh.(d := DSend(|s.sh.list|))
  {
    hide SharedOk, ActorOk, ActorMove;
    if l.Act? {
      assert ActorOk(l.i, s.actors[l.i], s.sh);
      ActorMoveKeeps(l.i, s.actors[l.i], s.sh);
    }
  }

  // ---------------------------------------------------------------- when an actor leaves

  /** What becomes of actor i and of what is shared by n steps of the actor, if nobody comes in between. */
  function Alone(i: nat, a: Actor, s: Shared, n: nat): Move {
    if n == 0 then To(a, s)
    else
      var m := Alone(i, a, s, n - 1);
      if m.Blocked? then m else ActorMove(i, m.a, m.sh)
  }

  lemma AloneOn(i: nat, a: Actor, s: Shared, n: nat, a': Actor, s': Shared)
    requires Alone(i, a, s, n) == To(a', s')
    ensures Alone(i, a, s, n + 1) == ActorMove(i, a', s')
  {
    hide ActorMove;
  }

  lemma AtList(i: nat, a: Actor, s: Shared)
    requires a.pc.WantList? && s.listOwner == NoOwner
    ensures Alone(i, a, s, 2) == To(a.(pc := if s.d == DIdle then CheckQueue else Keep), s.(listOwner := ByActor(i)))
  {
    hide Alone;
    AloneNone(i, a, s);
    AloneOn(i, a, s, 0, a, s);
    AloneOn(i, a, s, 1, a.(pc := InList), s.(listOwner := ByActor(i)));
  }

  lemma AtIdleList(i: nat, a: Actor, s: Shared)
    requires a.pc.WantList? && s.listOwner == NoOwner && s.d == DIdle && s.items == []
    ensures Alone(i, a, s, 4) == if |s.list| > s.minThreads
      then To(a.(pc := Left), s.(list := s.list - {i}, listOwner := ByActor(i)))
      else To(a.(pc := Keep), s.(listOwner := ByActor(i)))
  {
    hide Alone;
    AtList(i, a, s);
    AloneOn(i, a, s, 2, a.(pc := CheckQueue), s.(listOwner := ByActor(i)));
    AloneOn(i, a, s, 3, a.(pc := CheckCount), s.(listOwner := ByActor(i)));
  }

  /** An actor that comes to the list, and nobody else in between, leaves if and only if the pool is not being
      freed, has nothing queued, and has more threads than its minimum; else it goes back for the next task and
      the pool is as it was. */
  lemma LeavesIfAndOnlyIf(i: nat, a: Actor, s: Shared)
    requires a.pc.WantList? && s.listOwner == NoOwner
    ensures var leaves := s.d == DIdle && s.items == [] && |s.list| > s.minThreads;
      var n := if s.d != DIdle then 4 else if s.items != [] then 5 else 6;
      Alone(i, a, s, n) ==
        To(a.(pc := if leaves then Exit else Top, holder := Nobody), if leaves then s.(list := s.list - {i}) else s)
  {
    hide Alone;
    AtList(i, a, s);
    if s.d != DIdle {
      AloneKeeps(i, a, s, 2);
    } else if s.items != [] {
      AloneOn(i, a, s, 2, a.(pc := CheckQueue), s.(listOwner := ByActor(i)));
      AloneKeeps(i, a, s, 3);
    } else {
      AtIdleList(i, a, s);
      if |s.list| > s.minThreads { AloneLeaves(i, a, s, 4); } else { AloneKeeps(i, a, s, 4); }
    }
  }

  lemma AloneLeaves(i: nat, a: Actor, s: Shared, n: nat)
    requires Alone(i, a, s, n) == To(a.(pc := Left), s.(list := s.list - {i}, listOwner := ByActor(i))) && s.listOwner == NoOwner
    ensures Alone(i, a, s, n + 2) == To(a.(pc := Exit, holder := Nobody), s.(list := s.list - {i}))
  {
    hide Alone;
    AloneOn(i, a, s, n, a.(pc := Left), s.(list := s.list - {i}, listOwner := ByActor(i)));
    AloneOn(i, a, s, n + 1, a.(pc := Unlock(true)), s.(list := s.list - {i}));
  }

  lemma AloneNone(i: nat, a: Actor, s: Shared)
    ensures Alone(i, a, s, 0) == To(a, s)
  {}

  lemma AloneKeeps(i: nat, a: Actor, s: Shared, n: nat)
    requires Alone(i, a, s, n) == To(a.(pc := Keep), s.(listOwner := ByActor(i))) && s.listOwner == NoOwner
    ensures Alone(i, a, s, n + 2) == To(a.(pc := Top, holder := Nobody), s)
  {
    hide Alone;
    AloneOn(i, a, s, n, a.(pc := Keep), s.(listOwner := ByActor(i)));
    AloneOn(i, a, s, n + 1, a.(pc := Unlock(false)), s);
  }
}
