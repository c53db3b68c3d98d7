/** Terminating the application in components/app_webrtc/src/app_webrtc.c: one run task with its
    cleanup loop, any number of app_webrtc_terminate calls, and any number of other threads that take
    and wait for locks as they like, interleaved step by step. A call can be made by a thread of its
    own, from a callback on the run task, or by another thread with whatever locks it holds; that
    thread then waits for the call. The chip build, where a finished run task parks and is deleted
    from outside. */
module Lifecycle {
  import opened Common

  /** Where a thread stands in app_webrtc_teardown. */
  datatype Tear =
    | Enter        // is there a context?
    | Flag         // store appTerminateFlag
    | Drain        // wait while reconnectInProgress is set
    | Disconnect   // disconnect the signaling client
    | Sessions     // lock the context to unpublish the sessions
    | SessionsHeld // unlock it
    | Detach       // lock the list, detach the sessions, unlock it
    | Clients      // free the sessions and the clients
    | Again        // freeAppWebRTCContext: the same three steps, with no session left
    | AgainHeld
    | DetachAgain
    | Hands        // lock the context once more before it goes
    | HandsHeld    // unlock it
    | FreeContext  // free it
    | Reset        // clear the initialised flag

  /** Where the run task stands, by what it does next. */
  datatype RunPc =
    | NoTask
    | Setup        // make the clients, connect: a failure skips the loop
    | Report       // report the failure
    | LoopTop      // check appTerminateFlag
    | LockPass     // lock the context
    | Pass         // one pass over the sessions
    | SetRec       // set reconnectInProgress
    | CheckRec     // check appTerminateFlag
    | BailClear    // clear reconnectInProgress
    | UnlockRec    // unlock the context
    | Connecting   // disconnect and connect
    | ClearRec     // clear reconnectInProgress
    | Relock       // lock the context
    | Recheck      // check appTerminateFlag
    | Check        // check appTerminateFlag before sleeping
    | Sleep        // release the context's lock and wait, in one step
    | Asleep       // wait for a broadcast or the period to end
    | Wake         // lock the context
    | UnlockTop    // unlock it
    | BailUnlock   // unlock it and leave the loop
    | Exit         // lock gRunTaskLock
    | Mark         // set gRunTaskTearingDown
    | Unmark       // unlock gRunTaskLock
    | RunTear(d: Tear)
    | Done         // set gRunTaskDone
    | Suspending
    | Parked

  /** Where an app_webrtc_terminate call stands. */
  datatype CallPc =
    | Called       // is the application initialised?
    | Lock1        // lock gRunTaskLock
    | Reap1        // delete a finished run task
    | Decide       // run task alive? another teardown in progress?
    | Refuse       // unlock, return
    | UnlockAlive  // unlock
    | Lock2        // lock again
    | Raise        // store appTerminateFlag unless the teardown has started
    | Abort        // cut a signaling connect short
    | Unlock2      // unlock
    | Wait(woken: bool) // poll gRunTaskDone, waking the loop until that has worked
    | LockWake     // wakeCleanupLoop: lock gRunTaskLock
    | TryWake      // ... try the context's lock
    | WakeHeld     // ... unlock it
    | Broadcast    // ... broadcast
    | UnlockWake(woken: bool)
    | Lock3        // lock
    | Reap3
    | Unlock3
    | UnlockOwn    // this call tears down: unlock
    | CallTear(d: Tear)
    | LockOwn      // lock, to clear gTerminateTeardownBusy
    | ClearBusy
    | UnlockBusy
    | Returned

  /** What can keep the run task waiting: the context's lock, the lock of the session list
      (streamingSessionListReadLock), that of the event callbacks (gEventCallbackLock), and whatever its
      surroundings wait for, a lock of the signaling client for one, or the end of one of its threads. */
  datatype Lock = Context | List | Events | Foreign(k: nat)

  datatype Owner = Free | ByRun | ByCall(i: nat) | ByOther(o: nat)

  /** The thread a terminate call is made in: one of its own, the run task, or another. */
  datatype From = Alone | OnRun | InThread(o: nat)

  datatype Call = Call(from: From, pc: CallPc)

  /** A call of the run task's surroundings under way on its thread: the locks it is still to take, one after
      the other, and whether it has taken the context's. It keeps them all until it ends. */
  datatype Inner = Inner(todo: seq<Lock>, locked: bool)

  /** What the threads share: gRunTaskLock, the context's lock, the flags, the run task and a call of its
      surroundings. busy is gTerminateTeardownBusy with the call that set it; freed counts how often the
      context was freed. */
  datatype Shared = Shared(
    g: Owner, lock: Owner,
    term: bool, reconnect: bool, tearing: bool, done: bool, busy: Owner, handle: bool,
    context: bool, initialized: bool, freed: nat, run: RunPc, inner: Option<Inner>, others: Others)

  /** Who has which of the other locks, and which lock another thread waits for. */
  datatype Others = Others(has: map<Lock, Owner>, wants: map<nat, Lock>)

  datatype State = State(calls: map<nat, Call>, sh: Shared)

  // ---------------------------------------------------------------- the steps

  datatype TearMove = Held | At(d: Tear, sh: Shared) | Over(sh: Shared)

  function OwnerOf(s: Shared, l: Lock): Owner {
    if l.Context? then s.lock else if l in s.others.has then s.others.has[l] else Free
  }

  /** The context's mutex is recursive: a call can lock it as well where its thread has it already, and
      then leaves it with its thread. */
  predicate Lockable(s: Shared, from: From) { s.lock == Free || (from.InThread? && s.lock == ByOther(from.o)) }

  function Locked(s: Shared, who: Owner): Owner { if s.lock == Free then who else s.lock }

  function Unlocked(s: Shared, who: Owner): Owner { if s.lock == who then Free else s.lock }

  /** What the surroundings of the run task decide: which way it goes, and, where it calls them, which
      locks they take on its thread, in which order. */
  datatype Choice = Choice(go: bool, needs: seq<Lock>)

  /** A step of app_webrtc_teardown by who, made in thread from. */
  function TearStep(d: Tear, who: Owner, from: From, s: Shared): TearMove {
    match d
    case Enter => At(if s.context then Flag else Reset, s)
    case Flag => At(Drain, s.(term := true))
    case Drain => if s.reconnect then Held else At(Disconnect, s)
    case Disconnect => At(Sessions, s)
    case Sessions => if Lockable(s, from) then At(SessionsHeld, s.(lock := Locked(s, who))) else Held
    case SessionsHeld => At(Detach, s.(lock := Unlocked(s, who)))
    case Detach => if OwnerOf(s, List).Free? then At(Clients, s) else Held
    case Clients => At(Again, s)
    case Again => if Lockable(s, from) then At(AgainHeld, s.(lock := Locked(s, who))) else Held
    case AgainHeld => At(DetachAgain, s.(lock := Unlocked(s, who)))
    case DetachAgain => if OwnerOf(s, List).Free? then At(Hands, s) else Held
    case Hands => if Lockable(s, from) then At(HandsHeld, s.(lock := Locked(s, who))) else Held
    case HandsHeld => At(FreeContext, s.(lock := Unlocked(s, who)))
    case FreeContext => At(Reset, s.(context := false, freed := s.freed + 1))
    case Reset => Over(s.(initialized := false))
  }

  datatype Stretch = Looping | Reconnect | Ending | Absent

  function StretchOf(r: RunPc): Stretch {
    match r
    case Setup => Looping case Report => Looping case LoopTop => Looping case LockPass => Looping case Pass => Looping
    case Check => Looping case Sleep => Looping case Asleep => Looping case Wake => Looping case UnlockTop => Looping
    case NoTask => Absent
    case Exit => Ending case Mark => Ending case Unmark => Ending case RunTear(_) => Ending
    case Done => Ending case Suspending => Ending case Parked => Ending
    case _ => Reconnect
  }

  /** The run task calls its surroundings there: to connect, free sessions, ask for the state of the
      connection, report an error, disconnect, or free the clients. A call that tears down does so where the
      run task was never started, and then there is no client and no session to call. */
  predicate CallsOut(r: RunPc) {
    r.Setup? || r.Pass? || r.Check? || r.Connecting? || r.Report? || (r.RunTear? && (r.d.Disconnect? || r.d.Clients?))
  }

  /** The run task has still to call its surroundings there, or is inside the call with locks to take. */
  predicate Inside(s: Shared) { CallsOut(s.run) && !(s.inner.Some? && s.inner.value.todo == []) }

  /** The call begins, or takes its next lock. */
  function InnerStep(s: Shared, needs: seq<Lock>): Option<Shared> {
    if s.inner.None? then Some(s.(inner := Some(Inner(needs, false))))
    else if s.inner.value.todo == [] || !CanTake(s, s.inner.value.todo[0]) then None
    else Some(TakeNext(s, s.inner.value.todo[0], s.inner.value.(todo := s.inner.value.todo[1..])))
  }

  predicate CanTake(s: Shared, l: Lock) { OwnerOf(s, l) == Free || OwnerOf(s, l) == ByRun }

  /** It takes lock l, one that the run task has already not once more, and goes on as the rest says. */
  function TakeNext(s: Shared, l: Lock, rest: Inner): Shared {
    if OwnerOf(s, l) == ByRun then s.(inner := Some(rest))
    else if l.Context? then s.(lock := ByRun, inner := Some(rest.(locked := true)))
    else s.(others := s.others.(has := s.others.has[l := ByRun]), inner := Some(rest))
  }

  /** With the locks of the call given back. */
  function Back(s: Shared): Shared {
    if s.inner.None? then s
    else
      s.(lock := if s.inner.value.locked then Free else s.lock, inner := None,
         others := s.others.(has := map l | l in s.others.has && s.others.has[l] != ByRun :: s.others.has[l]))
  }

  /** A step of the run task. */
  function RunStep(s: Shared, choice: Choice): Option<Shared> {
    if Inside(s) then InnerStep(s, choice.needs) else OuterStep(Back(s), choice.go)
  }

  /** A step of its own. */
  function OuterStep(s: Shared, go: bool): Option<Shared> {
    match StretchOf(s.run)
    case Looping => LoopStep(s, go)
    case Reconnect => ReconnectStep(s)
    case Ending => ExitStep(s)
    case Absent => None
  }

  function LoopStep(s: Shared, go: bool): Option<Shared> {
    match s.run
    case Setup => Some(s.(run := if go then LoopTop else Report))
    case Report => Some(s.(run := Exit))
    case LoopTop => Some(s.(run := if s.term then Exit else LockPass))
    case LockPass => if s.lock == Free then Some(s.(run := Pass, lock := ByRun)) else None
    case Pass => Some(s.(run := if go then SetRec else Check))
    case Check => Some(s.(run := if s.term then BailUnlock else Sleep))
    case Sleep => Some(s.(run := Asleep, lock := Free))
    case Asleep => if go then Some(s.(run := Wake)) else None
    case Wake => if s.lock == Free then Some(s.(run := UnlockTop, lock := ByRun)) else None
    case UnlockTop => Some(s.(run := LoopTop, lock := Free))
    case _ => None
  }

  function ReconnectStep(s: Shared): Option<Shared> {
    match s.run
    case SetRec => Some(s.(run := CheckRec, reconnect := true))
    case CheckRec => Some(s.(run := if s.term then BailClear else UnlockRec))
    case BailClear => Some(s.(run := BailUnlock, reconnect := false))
    case UnlockRec => Some(s.(run := Connecting, lock := Free))
    case Connecting => Some(s.(run := ClearRec))
    case ClearRec => Some(s.(run := Relock, reconnect := false))
    case Relock => if s.lock == Free then Some(s.(run := Recheck, lock := ByRun)) else None
    case Recheck => Some(s.(run := if s.term then BailUnlock else Check))
    case BailUnlock => Some(s.(run := Exit, lock := Free))
    case _ => None
  }

  function ExitStep(s: Shared): Option<Shared> {
    match s.run
    case Exit => if s.g == Free then Some(s.(run := Mark, g := ByRun)) else None
    case Mark => Some(s.(run := Unmark, tearing := true))
    case Unmark => Some(s.(run := RunTear(Enter), g := Free))
    case RunTear(d) =>
      var m := TearStep(d, ByRun, OnRun, s);
      if m.Held? then None else if m.At? then Some(m.sh.(run := RunTear(m.d))) else Some(m.sh.(run := Done))
    case Done => Some(s.(run := Suspending, done := true))
    case Suspending => Some(s.(run := Parked))
    case _ => None
  }

  datatype CallMove = Blocked | To(pc: CallPc, sh: Shared)

  datatype Part = Opening | Raising | Waking | Closing | Own

  function PartOf(t: CallPc): Part {
    match t
    case Called => Opening case Lock1 => Opening case Reap1 => Opening case Decide => Opening case Refuse => Opening
    case UnlockAlive => Raising case Lock2 => Raising case Raise => Raising case Abort => Raising case Unlock2 => Raising
    case Wait(_) => Waking case LockWake => Waking case TryWake => Waking case WakeHeld => Waking
    case Broadcast => Waking case UnlockWake(_) => Waking
    case Lock3 => Closing case Reap3 => Closing case Unlock3 => Closing case Returned => Closing
    case _ => Own
  }

  /** A step of terminate call i. */
  function CallStep(i: nat, c: Call, s: Shared): CallMove {
    match PartOf(c.pc)
    case Opening => OpeningStep(i, c.from, c.pc, s)
    case Raising => RaisingStep(i, c.from, c.pc, s)
    case Waking => WakingStep(i, c.from, c.pc, s)
    case Closing => ClosingStep(i, c.from, c.pc, s)
    case Own => OwnStep(i, c.from, c.pc, s)
  }

  /** reapRunTask: waits for a finished run task to be suspended, then deletes it. */
  function Reap(t: CallPc, s: Shared): CallMove {
    if !s.handle || !s.done then To(t, s) else if s.run == Suspending then Blocked else To(t, s.(handle := false))
  }

  function OpeningStep(i: nat, from: From, t: CallPc, s: Shared): CallMove {
    match t
    case Called => To(if s.initialized then Lock1 else Returned, s)
    case Lock1 => if s.g == Free then To(Reap1, s.(g := ByCall(i))) else Blocked
    case Reap1 => Reap(Decide, s)
    case Decide =>
      if s.handle then To(UnlockAlive, s)
      else if s.busy != Free then To(Refuse, s)
      else To(UnlockOwn, s.(busy := ByCall(i)))
    case Refuse => To(Returned, s.(g := Free))
    case _ => Blocked
  }

  function RaisingStep(i: nat, from: From, t: CallPc, s: Shared): CallMove {
    match t
    case UnlockAlive => To(Lock2, s.(g := Free))
    case Lock2 => if s.g == Free then To(Raise, s.(g := ByCall(i))) else Blocked
    case Raise => if !s.tearing && s.context then To(Abort, s.(term := true)) else To(Unlock2, s)
    case Abort => To(Unlock2, s)
    case Unlock2 => To(if from.OnRun? then Returned else Wait(false), s.(g := Free))
    case _ => Blocked
  }

  function WakingStep(i: nat, from: From, t: CallPc, s: Shared): CallMove {
    match t
    case Wait(woken) => if s.done then To(Lock3, s) else if woken then Blocked else To(LockWake, s)
    case LockWake => if s.g == Free then To(TryWake, s.(g := ByCall(i))) else Blocked
    case TryWake =>
      if s.tearing || !s.context then To(UnlockWake(true), s)
      else if Lockable(s, from) then To(WakeHeld, s.(lock := Locked(s, ByCall(i))))
      else To(UnlockWake(false), s)
    case WakeHeld => To(Broadcast, s.(lock := Unlocked(s, ByCall(i))))
    case Broadcast => To(UnlockWake(true), s.(run := if s.run == Asleep then Wake else s.run))
    case UnlockWake(woken) => To(Wait(woken), s.(g := Free))
    case _ => Blocked
  }

  function ClosingStep(i: nat, from: From, t: CallPc, s: Shared): CallMove {
    match t
    case Lock3 => if s.g == Free then To(Reap3, s.(g := ByCall(i))) else Blocked
    case Reap3 => Reap(Unlock3, s)
    case Unlock3 => To(Returned, s.(g := Free))
    case _ => Blocked
  }

  function OwnStep(i: nat, from: From, t: CallPc, s: Shared): CallMove {
    match t
    case UnlockOwn => To(CallTear(Enter), s.(g := Free))
    case CallTear(d) =>
      var m := TearStep(d, ByCall(i), from, s);
      if m.Held? then Blocked else if m.At? then To(CallTear(m.d), m.sh) else To(LockOwn, m.sh)
    case LockOwn => if s.g == Free then To(ClearBusy, s.(g := ByCall(i))) else Blocked
    case ClearBusy => To(UnlockBusy, s.(busy := Free))
    case UnlockBusy => To(Returned, s.(g := Free))
    case _ => Blocked
  }

  /** Seek, Grant and Give are another thread asking for a lock, getting it and giving it back; Invoke is a
      new terminate call. */
  datatype Label =
    | RunOn(choice: Choice)
    | Go(i: nat)
    | Seek(o: nat, l: Lock)
    | Grant(o: nat)
    | Give(o: nat, l: Lock)
    | Invoke(i: nat, from: From)

  /** A thread waits while a terminate call it has made has not returned. */
  predicate Waits(calls: map<nat, Call>, from: From) {
    exists i | i in calls :: calls[i].from == from && !calls[i].pc.Returned?
  }

  /** Thread o is neither waiting for a lock nor for a call of its own. */
  predicate Running(s: State, o: nat) { o !in s.sh.others.wants && !Waits(s.calls, InThread(o)) }

  /** Thread o can come to wait: a thread calls others with the context's or the list's lock in its hands
      only where there are clients and sessions, and it is the run task that makes the clients. */
  predicate CanStop(s: State, o: nat) {
    && Running(s, o)
    && (s.sh.run.NoTask? ==> OwnerOf(s.sh, Context) != ByOther(o) && OwnerOf(s.sh, List) != ByOther(o))
  }

  /** Thread from can make a terminate call. */
  predicate CanInvoke(s: State, from: From) {
    match from
    case Alone => true
    case OnRun => CallsOut(s.sh.run) && !Waits(s.calls, OnRun)
    case InThread(o) => CanStop(s, o)
  }

  /** Another thread with nothing to wait for, or the lock it waits for now free. */
  predicate Granted(s: Shared, o: nat) {
    o in s.others.wants && OwnerOf(s, s.others.wants[o]) == Free && (s.others.wants[o].Context? ==> s.context)
  }

  function Taken(s: Shared, o: nat, l: Lock): Shared {
    if l.Context? then s.(lock := ByOther(o)) else s.(others := s.others.(has := s.others.has[l := ByOther(o)]))
  }

  function Given(s: Shared, l: Lock): Shared {
    if l.Context? then s.(lock := Free) else s.(others := s.others.(has := s.others.has - {l}))
  }

  function Step(s: State, l: Label): Option<State> {
    match l
    case RunOn(choice) =>
      if Waits(s.calls, OnRun) then None
      else
        var m := RunStep(s.sh, choice);
        if m.None? then None else Some(State(s.calls, m.value))
    case Go(i) =>
      if i !in s.calls then None
      else
        var m := CallStep(i, s.calls[i], s.sh);
        if m.Blocked? then None else Some(State(s.calls[i := s.calls[i].(pc := m.pc)], m.sh))
    case Seek(o, l) =>
      if !CanStop(s, o) || (l.Context? && s.sh.lock == ByOther(o)) then None
      else Some(s.(sh := s.sh.(others := s.sh.others.(wants := s.sh.others.wants[o := l]))))
    case Grant(o) =>
      if !Granted(s.sh, o) then None
      else Some(s.(sh := Taken(s.sh.(others := s.sh.others.(wants := s.sh.others.wants - {o})), o, s.sh.others.wants[o])))
    case Give(o, l) =>
      if !Running(s, o) || OwnerOf(s.sh, l) != ByOther(o) then None else Some(s.(sh := Given(s.sh, l)))
    case Invoke(i, from) =>
      if i in s.calls || !CanInvoke(s, from) then None
      else Some(s.(calls := s.calls[i := Call(from, Called)]))
  }

  /** An initialised application, with its run task started or never started. */
  predicate Init(s: State) {
    s.calls == map[] &&
    (s.sh == Shared(Free, Free, false, false, false, false, Free, true, true, true, 0, Setup, None, Others(map[], map[]))
     || s.sh == Shared(Free, Free, false, false, false, false, Free, false, true, true, 0, NoTask, None, Others(map[], map[])))
  }

  /** The states that the labels lead through. */
  ghost predicate IsPath(states: seq<State>, labels: seq<Label>) {
    && |states| == |labels| + 1
    && forall k | 0 <= k < |labels| :: Step(states[k], labels[k]) == Some(states[k + 1])
  }

  ghost predicate IsRun(states: seq<State>, labels: seq<Label>) { IsPath(states, labels) && Init(states[0]) }

  // ---------------------------------------------------------------- the invariant

  predicate TearHolds(d: Tear) { d.SessionsHeld? || d.AgainHeld? || d.HandsHeld? }

  predicate RunHoldsLock(r: RunPc) {
    || r.Pass? || r.SetRec? || r.CheckRec? || r.BailClear? || r.UnlockRec? || r.Recheck? || r.Check? || r.Sleep?
    || r.UnlockTop? || r.BailUnlock? || (r.RunTear? && TearHolds(r.d))
  }

  predicate RunHoldsG(r: RunPc) { r.Mark? || r.Unmark? }

  predicate Reconnecting(r: RunPc) {
    r.CheckRec? || r.BailClear? || r.UnlockRec? || r.Connecting? || r.ClearRec?
  }

  /** Past the store of gRunTaskTearingDown. */
  predicate Leaving(r: RunPc) { r.Unmark? || r.RunTear? || r.Done? || r.Suspending? || r.Parked? }

  predicate CallHoldsG(t: CallPc) {
    || t.Reap1? || t.Decide? || t.Refuse? || t.UnlockAlive? || t.Raise? || t.Abort? || t.Unlock2?
    || t.TryWake? || t.WakeHeld? || t.Broadcast? || t.UnlockWake? || t.Reap3? || t.Unlock3?
    || t.UnlockOwn? || t.ClearBusy? || t.UnlockBusy?
  }

  predicate CallHoldsLock(t: CallPc) { t.WakeHeld? || (t.CallTear? && TearHolds(t.d)) }

  /** The call owns gTerminateTeardownBusy. */
  predicate Owns(t: CallPc) { t.UnlockOwn? || t.CallTear? || t.LockOwn? || t.ClearBusy? }

  /** The call found the run task alive. */
  predicate SawTask(t: CallPc) {
    t.UnlockAlive? || t.Lock2? || t.Raise? || Raised(t)
  }

  /** ... and has seen to it that the run task will leave. */
  predicate Raised(t: CallPc) {
    || t.Abort? || t.Unlock2? || t.Wait? || t.LockWake? || t.TryWake? || t.WakeHeld? || t.Broadcast? || t.UnlockWake?
    || t.Lock3? || t.Reap3? || t.Unlock3?
  }

  /** wakeCleanupLoop has returned TRUE to it. */
  predicate Woke(t: CallPc) { t == UnlockWake(true) || t == Wait(true) }

  /** The next statement of the call uses the context or its clients, outside a teardown of its own. */
  predicate Uses(t: CallPc) { t.Abort? || t.WakeHeld? || t.Broadcast? }

  /** The next statement of the call checks for the context under gRunTaskLock and will go on to use it. */
  predicate Guarded(t: CallPc, s: Shared) { (t.Raise? || t.TryWake?) && !s.tearing && s.context }

  /** In app_webrtc_teardown with the context still there. */
  predicate TearUses(d: Tear) { !d.Enter? && !d.Reset? }

  predicate InnerLocked(s: Shared) { s.inner.Some? && s.inner.value.locked }

  /** The run task has other locks only inside a call of its surroundings, terminate calls never. */
  predicate HasOk(s: Shared) {
    Context !in s.others.has
    && forall l | l in s.others.has :: s.others.has[l].ByOther? || (s.others.has[l].ByRun? && s.inner.Some?)
  }

  predicate RunOk(s: Shared) { RunLocks(s) && RunFlags(s) }

  predicate RunLocks(s: Shared) {
    && (s.g == ByRun <==> RunHoldsG(s.run))
    && (s.lock == ByRun <==> RunHoldsLock(s.run) || InnerLocked(s))
    && (s.inner.Some? ==> CallsOut(s.run)) && (InnerLocked(s) ==> !RunHoldsLock(s.run))
    && !s.g.ByOther? && !s.busy.ByRun? && !s.busy.ByOther?
  }

  predicate RunFlags(s: Shared) {
    && (s.reconnect <==> Reconnecting(s.run))
    && (s.tearing <==> Leaving(s.run))
    && (s.done <==> s.run.Suspending? || s.run.Parked?)
    && (s.run.NoTask? ==> !s.handle)
    && (!s.handle ==> Gone(s.run))
    && (!s.initialized ==> Gone(s.run) || s.run.Done? || s.run.Suspending?)
  }

  /** There is no run task, or it has parked. */
  predicate Gone(r: RunPc) { r.NoTask? || r.Parked? }

  /** What is left of the context. */
  predicate ContextOk(s: Shared) {
    && s.freed == (if s.context then 0 else 1)
    && (!s.run.NoTask? ==> (s.context <==> !(s.run.RunTear? && s.run.d.Reset?) && !s.run.Done? && !s.done))
    && (s.run.Asleep? || s.run.Sleep? || s.run.Wake? ==> s.context)
  }

  predicate CallOk(i: nat, c: Call, s: Shared) { CallLocks(i, c, s) && CallKnows(c.pc, s) && FromOk(c, s) }

  predicate CallLocks(i: nat, c: Call, s: Shared) {
    && (s.g == ByCall(i) <==> CallHoldsG(c.pc))
    && (s.lock == ByCall(i) ==> CallHoldsLock(c.pc))
    && (CallHoldsLock(c.pc) ==> s.lock == ByCall(i) || (c.from.InThread? && s.lock == ByOther(c.from.o)))
    && (s.busy == ByCall(i) <==> Owns(c.pc))
  }

  predicate CallKnows(t: CallPc, s: Shared) {
    && (Owns(t) || t.Refuse? || t.UnlockBusy? ==> !s.handle)
    && (t.Refuse? ==> s.busy != Free)
    && (SawTask(t) ==> !s.run.NoTask?)
    && (Raised(t) ==> s.term || s.tearing)
    && (t.Lock3? || t.Reap3? || t.Unlock3? ==> s.done)
    && (Uses(t) ==> s.term && !s.tearing)
    && (Uses(t) && !t.Abort? ==> !s.run.Sleep?)
    && (Woke(t) ==> !s.run.Sleep? && !s.run.Asleep?)
    && (t.CallTear? && TearUses(t.d) ==> s.context)
  }

  /** A call on the run task finds it alive, and comes back without waiting for it. */
  predicate FromOk(c: Call, s: Shared) {
    c.from.OnRun? && !c.pc.Returned? ==> CallsOut(s.run) && (PartOf(c.pc).Opening? || PartOf(c.pc).Raising?)
  }

  /** No thread waits for a lock and for a call at once. */
  predicate OneWait(s: State) { forall o | o in s.sh.others.wants :: !Waits(s.calls, InThread(o)) }

  /** Without a run task nobody waits with a lock in its hands that a teardown takes. */
  predicate AloneOk(s: State) {
    s.sh.run.NoTask? ==>
      && (s.sh.lock.ByOther? ==> Running(s, s.sh.lock.o))
      && (OwnerOf(s.sh, List).ByOther? ==> Running(s, OwnerOf(s.sh, List).o))
  }

  predicate Invariant(s: State) {
    && RunOk(s.sh) && ContextOk(s.sh) && HasOk(s.sh) && AloneOk(s) && OneWait(s)
    && (forall i | i in s.calls :: CallOk(i, s.calls[i], s.sh))
    && (s.sh.g.ByCall? ==> s.sh.g.i in s.calls)
    && (s.sh.lock.ByCall? ==> s.sh.lock.i in s.calls)
    && (s.sh.busy.ByCall? ==> s.sh.busy.i in s.calls)
  }

  // ---------------------------------------------------------------- the run task keeps it

  /** What a step of a teardown leaves alone of what is shared. */
  lemma TearFrames(d: Tear, who: Owner, from: From, s: Shared)
    requires !TearStep(d, who, from, s).Held?
    ensures var s' := TearStep(d, who, from, s).sh;
      && s' == s.(term := s'.term, lock := s'.lock, context := s'.context, freed := s'.freed, initialized := s'.initialized)
  {}

  lemma TearLocks(d: Tear, who: Owner, from: From, s: Shared)
    requires !TearStep(d, who, from, s).Held?
    ensures var m := TearStep(d, who, from, s);
      && (if m.At? && TearHolds(m.d) then Lockable(s, from) && m.sh.lock == Locked(s, who) && !TearHolds(d)
          else m.sh.lock == if TearHolds(d) then Unlocked(s, who) else s.lock)
  {}

  lemma TearContext(d: Tear, who: Owner, from: From, s: Shared)
    requires !TearStep(d, who, from, s).Held?
    ensures var m := TearStep(d, who, from, s);
      && (s.term ==> m.sh.term) && (m.sh.context == s.context || (d.FreeContext? && !m.sh.context))
      && (m.At? && TearUses(m.d) ==> m.sh.context == s.context && (TearUses(d) || s.context))
  {}

  lemma TearIs(d: Tear, who: Owner, from: From, s: Shared)
    requires !TearStep(d, who, from, s).Held?
    ensures var m := TearStep(d, who, from, s);
      && m.sh == s.(term := m.sh.term, lock := m.sh.lock, context := m.sh.context, freed := m.sh.freed, initialized := m.sh.initialized)
      && (s.term ==> m.sh.term)
      && (m.sh.context == s.context || (d.FreeContext? && !m.sh.context))
      && (if m.At? && TearHolds(m.d) then Lockable(s, from) && m.sh.lock == Locked(s, who) && !TearHolds(d)
          else m.sh.lock == if TearHolds(d) then Unlocked(s, who) else s.lock)
      && (m.At? && TearUses(m.d) ==> m.sh.context == s.context && (TearUses(d) || s.context))
  {
    TearFrames(d, who, from, s);
    TearLocks(d, who, from, s);
    TearContext(d, who, from, s);
    hide TearStep, TearHolds, TearUses, Lockable, Locked, Unlocked;
  }

  lemma ExitKeeps(s: Shared, s': Shared)
    requires RunOk(s) && ContextOk(s) && ExitStep(s) == Some(s') && StretchOf(s.run) == Ending
    requires s.inner.None?
    ensures RunOk(s') && ContextOk(s') && RunFrame(s, s') && s'.inner.None? && s'.others == s.others
  {
    match s.run
    case Exit => return;
    case Mark => return;
    case Unmark => return;
    case RunTear(d) => TearIs(d, ByRun, OnRun, s); hide TearStep; return;
    case Done => return;
    case Suspending => return;
    case _ =>
  }

  lemma ExitKeepsCall(s: Shared, s': Shared, i: nat, c: Call)
    requires RunOk(s) && ContextOk(s) && CallOk(i, c, s) && ExitStep(s) == Some(s') && StretchOf(s.run) == Ending
    requires s.inner.None?
    ensures CallLocks(i, c, s') && CallKnows(c.pc, s')
  {
    match s.run
    case Exit => return;
    case Mark => return;
    case Unmark => return;
    case RunTear(d) => TearIs(d, ByRun, OnRun, s); hide TearStep; return;
    case Done => return;
    case Suspending => return;
    case _ =>
  }

  lemma ReconnectKeeps(s: Shared, s': Shared)
    requires RunOk(s) && ContextOk(s) && ReconnectStep(s) == Some(s') && StretchOf(s.run) == Reconnect
    requires s.inner.None?
    ensures RunOk(s') && ContextOk(s') && RunFrame(s, s') && s'.inner.None? && s'.others == s.others
  {
    match s.run
    case SetRec => return;
    case CheckRec => return;
    case BailClear => return;
    case UnlockRec => return;
    case Connecting => return;
    case ClearRec => return;
    case Relock => return;
    case Recheck => return;
    case _ =>
  }

  lemma ReconnectKeepsCall(s: Shared, s': Shared, i: nat, c: Call)
    requires RunOk(s) && ContextOk(s) && CallOk(i, c, s) && ReconnectStep(s) == Some(s') && StretchOf(s.run) == Reconnect
    requires s.inner.None?
    ensures CallLocks(i, c, s') && CallKnows(c.pc, s')
  {
    match s.run
    case SetRec => return;
    case CheckRec => return;
    case BailClear => return;
    case UnlockRec => return;
    case Connecting => return;
    case ClearRec => return;
    case Relock => return;
    case Recheck => return;
    case _ =>
  }

  lemma LoopKeeps(s: Shared, s': Shared, go: bool)
    requires RunOk(s) && ContextOk(s) && LoopStep(s, go) == Some(s') && StretchOf(s.run) == Looping
    requires s.inner.None?
    ensures RunOk(s') && ContextOk(s') && RunFrame(s, s') && s'.inner.None? && s'.others == s.others
  {
    match s.run
    case Setup => return;
    case Report => return;
    case LoopTop => return;
    case LockPass => return;
    case Pass => return;
    case Check => return;
    case Sleep => return;
    case Asleep => return;
    case Wake => return;
    case _ =>
  }

  lemma LoopKeepsCall(s: Shared, s': Shared, go: bool, i: nat, c: Call)
    requires RunOk(s) && ContextOk(s) && CallOk(i, c, s) && LoopStep(s, go) == Some(s') && StretchOf(s.run) == Looping
    requires s.inner.None?
    ensures CallLocks(i, c, s') && CallKnows(c.pc, s')
  {
    match s.run
    case Setup => return;
    case Report => return;
    case LoopTop => return;
    case LockPass => return;
    case Pass => return;
    case Check => return;
    case Sleep => return;
    case Asleep => return;
    case Wake => return;
    case _ =>
  }

  /** What a step of the run task leaves to the calls and to others. */
  predicate RunFrame(s: Shared, s': Shared) {
    && s'.busy == s.busy && s'.handle == s.handle && s'.others.wants == s.others.wants
    && (s'.g.ByCall? ==> s'.g == s.g) && (s'.lock.ByCall? ==> s'.lock == s.lock)
    && (s.lock.ByOther? ==> s'.lock == s.lock) && (s'.lock.ByOther? ==> s'.lock == s.lock)
    && (s'.run.NoTask? <==> s.run.NoTask?)
  }

  /** The other threads keep their locks. */
  ghost predicate SameOthers(s: Shared, s': Shared) {
    forall l :: OwnerOf(s, l).ByOther? || OwnerOf(s', l).ByOther? ==> OwnerOf(s', l) == OwnerOf(s, l)
  }

  lemma OuterKeeps(s: Shared, go: bool)
    requires RunOk(s) && ContextOk(s) && s.inner.None? && OuterStep(s, go).Some?
    ensures var s' := OuterStep(s, go).value;
      RunOk(s') && ContextOk(s') && RunFrame(s, s') && s'.inner.None? && s'.others == s.others
  {
    var s' := OuterStep(s, go).value;
    hide RunOk, ContextOk, ExitStep, ReconnectStep, LoopStep, RunFrame;
    match StretchOf(s.run)
    case Ending => ExitKeeps(s, s');
    case Reconnect => ReconnectKeeps(s, s');
    case Looping => LoopKeeps(s, s', go);
    case Absent =>
  }

  lemma OuterKeepsCall(s: Shared, go: bool, i: nat, c: Call)
    requires RunOk(s) && ContextOk(s) && CallOk(i, c, s) && s.inner.None? && OuterStep(s, go).Some?
    ensures CallLocks(i, c, OuterStep(s, go).value) && CallKnows(c.pc, OuterStep(s, go).value)
  {
    var s' := OuterStep(s, go).value;
    hide RunOk, ContextOk, CallLocks, CallKnows, ExitStep, ReconnectStep, LoopStep;
    match StretchOf(s.run)
    case Ending => ExitKeepsCall(s, s', i, c);
    case Reconnect => ReconnectKeepsCall(s, s', i, c);
    case Looping => LoopKeepsCall(s, s', go, i, c);
    case Absent =>
  }

  /** A call of the surroundings changes nothing but locks. */
  predicate InnerFrame(s: Shared, s': Shared) {
    && s' == s.(lock := s'.lock, inner := s'.inner, others := s'.others)
    && s'.others.wants == s.others.wants && s'.inner.Some?
    && (if s'.lock == s.lock then InnerLocked(s') == InnerLocked(s) else s.lock == Free && s'.lock == ByRun && InnerLocked(s'))
  }

  lemma TakeNextIs(s: Shared, l: Lock, rest: Inner)
    requires CanTake(s, l) && (rest.locked ==> s.lock == ByRun)
    ensures var s' := TakeNext(s, l, rest);
      && s' == s.(lock := s'.lock, inner := s'.inner, others := s'.others) && s'.others.wants == s.others.wants
      && s'.inner.Some? && s'.inner.value.todo == rest.todo
      && (if s'.lock == s.lock then InnerLocked(s') == rest.locked else s.lock == Free && s'.lock == ByRun && InnerLocked(s'))
  {
    if OwnerOf(s, l) == ByRun { return; }
    if l.Context? { return; }
  }

  lemma InnerIs(s: Shared, needs: seq<Lock>)
    requires (InnerLocked(s) ==> s.lock == ByRun) && InnerStep(s, needs).Some?
    ensures InnerFrame(s, InnerStep(s, needs).value)
  {
    if s.inner.Some? {
      TakeNextIs(s, s.inner.value.todo[0], s.inner.value.(todo := s.inner.value.todo[1..]));
    }
    hide TakeNext;
  }

  lemma TakeNextSame(s: Shared, l: Lock, rest: Inner)
    requires CanTake(s, l)
    ensures SameOthers(s, TakeNext(s, l, rest))
  {
    if OwnerOf(s, l) == ByRun { return; }
    if l.Context? { return; }
  }

  lemma InnerSame(s: Shared, needs: seq<Lock>)
    requires InnerStep(s, needs).Some?
    ensures SameOthers(s, InnerStep(s, needs).value)
  {
    if s.inner.Some? {
      TakeNextSame(s, s.inner.value.todo[0], s.inner.value.(todo := s.inner.value.todo[1..]));
    }
    hide TakeNext;
  }

  lemma FrameKeeps(s: Shared, s': Shared)
    requires RunOk(s) && ContextOk(s) && CallsOut(s.run) && InnerFrame(s, s')
    ensures RunOk(s') && ContextOk(s') && RunFrame(s, s')
  {
    hide RunHoldsLock, RunHoldsG, CallsOut, Reconnecting, Leaving;
  }

  lemma InnerKeeps(s: Shared, needs: seq<Lock>)
    requires RunOk(s) && ContextOk(s) && Inside(s) && InnerStep(s, needs).Some?
    ensures var s' := InnerStep(s, needs).value; RunOk(s') && ContextOk(s') && RunFrame(s, s') && SameOthers(s, s')
  {
    InnerIs(s, needs);
    InnerSame(s, needs);
    hide RunOk, ContextOk, InnerStep, InnerFrame, RunFrame, SameOthers;
    FrameKeeps(s, InnerStep(s, needs).value);
  }

  lemma InnerKeepsCall(s: Shared, needs: seq<Lock>, i: nat, c: Call)
    requires RunOk(s) && CallOk(i, c, s) && InnerStep(s, needs).Some?
    ensures CallLocks(i, c, InnerStep(s, needs).value) && CallKnows(c.pc, InnerStep(s, needs).value)
  {
    InnerIs(s, needs);
    hide InnerStep, RunOk;
  }

  lemma BackKeeps(s: Shared)
    requires RunOk(s) && ContextOk(s)
    ensures RunOk(Back(s)) && ContextOk(Back(s)) && RunFrame(s, Back(s)) && Back(s).inner.None? && Back(s).run == s.run
    ensures Context !in s.others.has ==> SameOthers(s, Back(s))
  {
    hide RunHoldsLock, RunHoldsG, CallsOut, Reconnecting, Leaving;
  }

  lemma BackKeepsCall(s: Shared, i: nat, c: Call)
    requires RunOk(s) && CallOk(i, c, s)
    ensures CallOk(i, c, Back(s))
  {
    hide RunHoldsLock, RunHoldsG, CallsOut, RunFlags;
  }

  lemma TakeNextHas(s: Shared, l: Lock, rest: Inner)
    requires HasOk(s) && s.inner.Some? && CanTake(s, l)
    ensures HasOk(TakeNext(s, l, rest))
  {
    if OwnerOf(s, l) == ByRun { return; }
    if l.Context? { return; }
  }

  lemma InnerKeepsHas(s: Shared, needs: seq<Lock>)
    requires HasOk(s) && InnerStep(s, needs).Some?
    ensures HasOk(InnerStep(s, needs).value)
  {
    if s.inner.Some? {
      TakeNextHas(s, s.inner.value.todo[0], s.inner.value.(todo := s.inner.value.todo[1..]));
    }
    hide TakeNext;
  }

  /** Between two calls of its surroundings the run task has none of the other locks. */
  lemma BackHas(s: Shared)
    requires HasOk(s)
    ensures HasOk(Back(s))
  {}

  lemma SameHas(s: Shared, s': Shared)
    requires HasOk(s) && s.inner.None? && s'.others == s.others
    ensures HasOk(s')
  {}

  lemma RunKeepsHas(s: Shared, choice: Choice)
    requires RunOk(s) && ContextOk(s) && HasOk(s) && RunStep(s, choice).Some?
    ensures HasOk(RunStep(s, choice).value)
  {
    if Inside(s) {
      InnerKeepsHas(s, choice.needs);
    } else {
      BackKeeps(s);
      BackHas(s);
      OuterKeeps(Back(s), choice.go);
      SameHas(Back(s), OuterStep(Back(s), choice.go).value);
    }
    hide RunOk, ContextOk, HasOk, InnerStep, OuterStep, Back, RunFrame, SameOthers;
  }

  lemma RunStepKeeps(s: Shared, choice: Choice)
    requires RunOk(s) && ContextOk(s) && HasOk(s) && RunStep(s, choice).Some?
    ensures var s' := RunStep(s, choice).value;
      RunOk(s') && ContextOk(s') && HasOk(s') && RunFrame(s, s') && SameOthers(s, s')
  {
    RunKeepsHas(s, choice);
    if Inside(s) {
      InnerKeeps(s, choice.needs);
    } else {
      BackKeeps(s);
      OuterKeeps(Back(s), choice.go);
      SameOthersAfter(s, Back(s), OuterStep(Back(s), choice.go).value);
      hide RunOk, ContextOk, OuterStep, Back, SameOthers;
    }
  }

  lemma SameOthersAfter(s: Shared, b: Shared, s': Shared)
    requires SameOthers(s, b) && s'.others == b.others && RunFrame(b, s')
    ensures SameOthers(s, s')
  {}

  lemma RunStepKeepsCall(s: Shared, choice: Choice, i: nat, c: Call)
    requires RunOk(s) && ContextOk(s) && CallOk(i, c, s) && RunStep(s, choice).Some?
    requires c.from.OnRun? ==> c.pc.Returned?
    ensures CallOk(i, c, RunStep(s, choice).value)
  {
    if Inside(s) {
      InnerKeepsCall(s, choice.needs, i, c);
    } else {
      BackKeeps(s);
      BackKeepsCall(s, i, c);
      OuterKeepsCall(Back(s), choice.go, i, c);
    }
    hide RunOk, ContextOk, OuterStep, InnerStep, Back, CallLocks, CallKnows, Inside;
  }

  lemma RunOnKeeps(s: State, choice: Choice)
    requires Invariant(s) && Step(s, RunOn(choice)).Some?
    ensures Invariant(Step(s, RunOn(choice)).value)
  {
    hide RunOk, ContextOk, HasOk, CallOk, RunStep;
    RunStepKeeps(s.sh, choice);
    forall i | i in s.calls ensures CallOk(i, s.calls[i], RunStep(s.sh, choice).value) {
      RunStepKeepsCall(s.sh, choice, i, s.calls[i]);
    }
  }

  // ---------------------------------------------------------------- a terminate call keeps it

  /** What a step of call i may change of what is shared. */
  predicate CallFrame(i: nat, s: Shared, s': Shared) {
    && OwnerMoves(s.g, s'.g, Free, ByCall(i)) && OwnerMoves(s.lock, s'.lock, Free, ByCall(i))
    && OwnerMoves(s.busy, s'.busy, Free, ByCall(i)) && (s'.busy != s.busy ==> s.g == ByCall(i))
    && s'.reconnect == s.reconnect && s'.tearing == s.tearing && s'.done == s.done
    && (s.term ==> s'.term) && (s'.handle ==> s.handle)
    && (s'.run == s.run || (s.run == Asleep && s'.run == Wake))
    && (s'.context == s.context || s.busy == ByCall(i)) && s'.others == s.others && s'.inner == s.inner
  }

  lemma OthersKeep(i: nat, j: nat, c: Call, s: Shared, s': Shared)
    requires i != j && CallFrame(i, s, s') && CallOk(j, c, s)
    ensures CallOk(j, c, s')
  {}

  lemma OpeningKeeps(i: nat, from: From, t: CallPc, s: Shared)
    requires RunOk(s) && ContextOk(s) && CallOk(i, Call(from, t), s) && OpeningStep(i, from, t, s).To? && PartOf(t) == Opening
    ensures var s' := OpeningStep(i, from, t, s).sh; RunOk(s') && ContextOk(s') && CallFrame(i, s, s')
  {
    match t
    case Called => return;
    case Lock1 => return;
    case Reap1 => return;
    case Decide => return;
    case _ =>
  }

  lemma OpeningKeepsOwn(i: nat, from: From, t: CallPc, s: Shared)
    requires RunOk(s) && ContextOk(s) && CallOk(i, Call(from, t), s) && OpeningStep(i, from, t, s).To? && PartOf(t) == Opening
    ensures CallOk(i, Call(from, OpeningStep(i, from, t, s).pc), OpeningStep(i, from, t, s).sh)
  {
    match t
    case Called => return;
    case Lock1 => return;
    case Reap1 => return;
    case Decide => return;
    case _ =>
  }

  lemma RaisingKeeps(i: nat, from: From, t: CallPc, s: Shared)
    requires RunOk(s) && ContextOk(s) && CallOk(i, Call(from, t), s) && RaisingStep(i, from, t, s).To? && PartOf(t) == Raising
    ensures var s' := RaisingStep(i, from, t, s).sh; RunOk(s') && ContextOk(s') && CallFrame(i, s, s')
  {
    match t
    case UnlockAlive => return;
    case Lock2 => return;
    case Raise => return;
    case Abort => return;
    case _ =>
  }

  lemma RaisingKeepsOwn(i: nat, from: From, t: CallPc, s: Shared)
    requires RunOk(s) && ContextOk(s) && CallOk(i, Call(from, t), s) && RaisingStep(i, from, t, s).To? && PartOf(t) == Raising
    ensures CallOk(i, Call(from, RaisingStep(i, from, t, s).pc), RaisingStep(i, from, t, s).sh)
  {
    match t
    case UnlockAlive => return;
    case Lock2 => return;
    case Raise => return;
    case Abort => return;
    case _ =>
  }

  lemma WakingKeeps(i: nat, from: From, t: CallPc, s: Shared)
    requires RunOk(s) && ContextOk(s) && CallOk(i, Call(from, t), s) && WakingStep(i, from, t, s).To? && PartOf(t) == Waking
    ensures var s' := WakingStep(i, from, t, s).sh; RunOk(s') && ContextOk(s') && CallFrame(i, s, s')
  {
    match t
    case Wait(_) => return;
    case LockWake => return;
    case TryWake => return;
    case WakeHeld => return;
    case Broadcast => return;
    case _ =>
  }

  lemma WakingKeepsOwn(i: nat, from: From, t: CallPc, s: Shared)
    requires RunOk(s) && ContextOk(s) && CallOk(i, Call(from, t), s) && WakingStep(i, from, t, s).To? && PartOf(t) == Waking
    ensures CallOk(i, Call(from, WakingStep(i, from, t, s).pc), WakingStep(i, from, t, s).sh)
  {
    match t
    case Wait(_) => return;
    case LockWake => return;
    case TryWake => return;
    case WakeHeld => return;
    case Broadcast => return;
    case _ =>
  }

  lemma ClosingKeeps(i: nat, from: From, t: CallPc, s: Shared)
    requires RunOk(s) && ContextOk(s) && CallOk(i, Call(from, t), s) && ClosingStep(i, from, t, s).To? && PartOf(t) == Closing
    ensures var s' := ClosingStep(i, from, t, s).sh; RunOk(s') && ContextOk(s') && CallFrame(i, s, s')
  {
    match t
    case Lock3 => return;
    case Reap3 => return;
    case Unlock3 => return;
    case _ =>
  }

  lemma ClosingKeepsOwn(i: nat, from: From, t: CallPc, s: Shared)
    requires RunOk(s) && ContextOk(s) && CallOk(i, Call(from, t), s) && ClosingStep(i, from, t, s).To? && PartOf(t) == Closing
    ensures CallOk(i, Call(from, ClosingStep(i, from, t, s).pc), ClosingStep(i, from, t, s).sh)
  {
    match t
    case Lock3 => return;
    case Reap3 => return;
    case Unlock3 => return;
    case _ =>
  }

  lemma OwnKeeps(i: nat, from: From, t: CallPc, s: Shared)
    requires RunOk(s) && ContextOk(s) && CallOk(i, Call(from, t), s) && OwnStep(i, from, t, s).To? && PartOf(t) == Own
    ensures var s' := OwnStep(i, from, t, s).sh; RunOk(s') && ContextOk(s') && CallFrame(i, s, s')
  {
    match t
    case UnlockOwn => return;
    case CallTear(d) => TearIs(d, ByCall(i), from, s); hide TearStep; return;
    case LockOwn => return;
    case ClearBusy => return;
    case _ =>
  }

  lemma OwnKeepsOwn(i: nat, from: From, t: CallPc, s: Shared)
    requires RunOk(s) && ContextOk(s) && CallOk(i, Call(from, t), s) && OwnStep(i, from, t, s).To? && PartOf(t) == Own
    ensures CallOk(i, Call(from, OwnStep(i, from, t, s).pc), OwnStep(i, from, t, s).sh)
  {
    match t
    case UnlockOwn => return;
    case CallTear(d) => TearIs(d, ByCall(i), from, s); hide TearStep; return;
    case LockOwn => return;
    case ClearBusy => return;
    case _ =>
  }

  lemma CallStepKeeps(i: nat, c: Call, s: Shared)
    requires RunOk(s) && ContextOk(s) && CallOk(i, c, s) && CallStep(i, c, s).To?
    ensures var m := CallStep(i, c, s);
      RunOk(m.sh) && ContextOk(m.sh) && CallOk(i, c.(pc := m.pc), m.sh) && CallFrame(i, s, m.sh)
  {
    hide RunOk, ContextOk, CallOk, CallFrame, OpeningStep, RaisingStep, WakingStep, ClosingStep, OwnStep;
    match PartOf(c.pc)
    case Opening => OpeningKeeps(i, c.from, c.pc, s); OpeningKeepsOwn(i, c.from, c.pc, s);
    case Raising => RaisingKeeps(i, c.from, c.pc, s); RaisingKeepsOwn(i, c.from, c.pc, s);
    case Waking => WakingKeeps(i, c.from, c.pc, s); WakingKeepsOwn(i, c.from, c.pc, s);
    case Closing => ClosingKeeps(i, c.from, c.pc, s); ClosingKeepsOwn(i, c.from, c.pc, s);
    case Own => OwnKeeps(i, c.from, c.pc, s); OwnKeepsOwn(i, c.from, c.pc, s);
  }

  lemma GoKeeps(s: State, i: nat)
    requires Invariant(s) && Step(s, Go(i)).Some?
    ensures Invariant(Step(s, Go(i)).value)
  {
    hide RunOk, ContextOk, CallOk, CallStep, Waits;
    var m := CallStep(i, s.calls[i], s.sh);
    CallStepKeeps(i, s.calls[i], s.sh);
    forall j | j in s.calls && j != i ensures CallOk(j, s.calls[j], m.sh) {
      OthersKeep(i, j, s.calls[j], s.sh, m.sh);
    }
    var s' := Step(s, Go(i)).value;
    forall o | Waits(s'.calls, InThread(o)) ensures Waits(s.calls, InThread(o)) {
      WaitsBefore(s, i, o);
    }
  }

  /** A step of a call makes no thread wait. */
  lemma WaitsBefore(s: State, i: nat, o: nat)
    requires Step(s, Go(i)).Some? && Waits(Step(s, Go(i)).value.calls, InThread(o))
    ensures Waits(s.calls, InThread(o))
  {
    hide CallStep;
    var s' := Step(s, Go(i)).value;
    if s.calls[i].pc.Returned? { ReturnedIsFinal(i, s.calls[i], s.sh); }
    var j :| j in s'.calls && s'.calls[j].from == InThread(o) && !s'.calls[j].pc.Returned?;
    assert j in s.calls && s.calls[j].from == InThread(o) && !s.calls[j].pc.Returned?;
  }

  lemma ReturnedIsFinal(i: nat, c: Call, s: Shared)
    requires c.pc.Returned?
    ensures CallStep(i, c, s).Blocked?
  {}

  // ---------------------------------------------------------------- other threads keep it

  /** What another thread's step may change. */
  predicate OthersFrame(s: Shared, s': Shared) {
    && s' == s.(lock := s'.lock, others := s'.others)
    && (s'.lock == s.lock || (s.lock.Free? && s'.lock.ByOther?) || (s.lock.ByOther? && s'.lock.Free?))
  }

  lemma RunUnderOthers(s: Shared, s': Shared)
    requires OthersFrame(s, s') && RunOk(s) && ContextOk(s)
    ensures RunOk(s') && ContextOk(s')
  {}

  lemma CallUnderOthers(i: nat, c: Call, s: Shared, s': Shared)
    requires OthersFrame(s, s') && CallOk(i, c, s)
    requires s'.lock != s.lock && s.lock.ByOther? && c.from == InThread(s.lock.o) ==> c.pc.Returned?
    ensures CallOk(i, c, s')
  {}

  lemma OthersKeepShared(s: State, sh: Shared)
    requires Invariant(s) && OthersFrame(s.sh, sh) && HasOk(sh) && AloneOk(State(s.calls, sh)) && OneWait(State(s.calls, sh))
    requires sh.lock != s.sh.lock && s.sh.lock.ByOther? ==> !Waits(s.calls, InThread(s.sh.lock.o))
    ensures Invariant(State(s.calls, sh))
  {
    hide RunOk, ContextOk, HasOk, CallOk, AloneOk, OneWait;
    RunUnderOthers(s.sh, sh);
    forall i | i in s.calls ensures CallOk(i, s.calls[i], sh) {
      CallUnderOthers(i, s.calls[i], s.sh, sh);
    }
  }

  /** What the steps of another thread keep for the threads. */
  predicate ThreadsKept(s: State, s': State) {
    && HasOk(s'.sh) && AloneOk(s') && OneWait(s') && OthersFrame(s.sh, s'.sh)
    && (s'.sh.lock != s.sh.lock && s.sh.lock.ByOther? ==> !Waits(s.calls, InThread(s.sh.lock.o)))
  }

  lemma SeekKeepsThreads(s: State, o: nat, l: Lock)
    requires HasOk(s.sh) && AloneOk(s) && OneWait(s) && Step(s, Seek(o, l)).Some?
    ensures ThreadsKept(s, Step(s, Seek(o, l)).value)
  {
    hide RunStep, CallStep, Waits;
  }

  lemma OwnersOnly(s: Shared, wants: map<nat, Lock>)
    ensures forall l :: OwnerOf(s.(others := s.others.(wants := wants)), l) == OwnerOf(s, l)
    ensures HasOk(s) ==> HasOk(s.(others := s.others.(wants := wants)))
  {}

  lemma GrantKeepsThreads(s: State, o: nat)
    requires HasOk(s.sh) && AloneOk(s) && OneWait(s) && Step(s, Grant(o)).Some?
    ensures ThreadsKept(s, Step(s, Grant(o)).value)
  {
    hide RunStep, CallStep, Waits;
    TakenIs(s.sh.(others := s.sh.others.(wants := s.sh.others.wants - {o})), o, s.sh.others.wants[o]);
    hide Taken;
  }

  lemma TakenIs(s: Shared, o: nat, l: Lock)
    requires HasOk(s) && OwnerOf(s, l) == Free
    ensures var s' := Taken(s, o, l);
      && HasOk(s') && s' == s.(lock := s'.lock, others := s'.others) && s'.others.wants == s.others.wants
      && s'.lock == (if l.Context? then ByOther(o) else s.lock)
      && (forall x :: OwnerOf(s', x) == if x == l then ByOther(o) else OwnerOf(s, x))
  {}

  lemma GiveKeepsThreads(s: State, o: nat, l: Lock)
    requires HasOk(s.sh) && AloneOk(s) && OneWait(s) && Step(s, Give(o, l)).Some?
    ensures ThreadsKept(s, Step(s, Give(o, l)).value)
  {
    hide RunStep, CallStep, Waits;
  }

  lemma OthersKeepAll(s: State, l: Label)
    requires Invariant(s) && (l.Seek? || l.Grant? || l.Give?) && Step(s, l).Some?
    ensures Invariant(Step(s, l).value)
  {
    match l {
      case Seek(o, x) => SeekKeepsThreads(s, o, x);
      case Grant(o) => GrantKeepsThreads(s, o);
      case Give(o, x) => GiveKeepsThreads(s, o, x);
    }
    hide RunOk, ContextOk, HasOk, CallOk, AloneOk, OneWait, OthersFrame, RunStep, CallStep;
    OthersKeepShared(s, Step(s, l).value.sh);
  }

  lemma InvokeKeeps(s: State, i: nat, from: From)
    requires Invariant(s) && Step(s, Invoke(i, from)).Some?
    ensures Invariant(Step(s, Invoke(i, from)).value)
  {
    hide RunStep, CallStep;
  }

  lemma StepKeeps(s: State, l: Label)
    requires Invariant(s) && Step(s, l).Some?
    ensures Invariant(Step(s, l).value)
  {
    hide Invariant;
    match l
    case RunOn(choice) => RunOnKeeps(s, choice);
    case Go(i) => GoKeeps(s, i);
    case Invoke(i, from) => InvokeKeeps(s, i, from);
    case _ => OthersKeepAll(s, l);
  }

  lemma {:induction false} RunKeepsInvariant(states: seq<State>, labels: seq<Label>, k: nat)
    requires IsRun(states, labels) && k < |states|
    ensures Invariant(states[k])
  {
    hide Step;
    if k > 0 {
      RunKeepsInvariant(states, labels, k - 1);
      assert Step(states[k - 1], labels[k - 1]) == Some(states[k]);
      hide Invariant;
      StepKeeps(states[k - 1], labels[k - 1]);
    }
  }

  // ---------------------------------------------------------------- what it gives

  /** The run task is past its last sleep: it will find appTerminateFlag or is already leaving. */
  predicate Awake(s: Shared) {
    (s.term || s.tearing) && !s.run.NoTask? && !s.run.Sleep? && !s.run.Asleep?
  }

  lemma LoopStaysAwake(s: Shared, s': Shared, go: bool)
    requires RunFlags(s) && LoopStep(s, go) == Some(s') && StretchOf(s.run) == Looping && s.term
    requires !s.run.Sleep? && !s.run.Asleep?
    ensures Awake(s')
  {
    match s.run
    case Setup => return;
    case Report => return;
    case LoopTop => return;
    case LockPass => return;
    case Pass => return;
    case Check => return;
    case Wake => return;
    case _ =>
  }

  lemma ReconnectStaysAwake(s: Shared, s': Shared)
    requires RunFlags(s) && ReconnectStep(s) == Some(s') && StretchOf(s.run) == Reconnect && s.term
    ensures Awake(s')
  {
    match s.run
    case SetRec => return;
    case CheckRec => return;
    case BailClear => return;
    case UnlockRec => return;
    case Connecting => return;
    case ClearRec => return;
    case Relock => return;
    case Recheck => return;
    case _ =>
  }

  lemma ExitStaysAwake(s: Shared, s': Shared)
    requires RunFlags(s) && ExitStep(s) == Some(s') && StretchOf(s.run) == Ending && (s.term || s.tearing)
    ensures Awake(s')
  {
    match s.run
    case Exit => return;
    case Mark => return;
    case Unmark => return;
    case RunTear(d) => TearIs(d, ByRun, OnRun, s); hide TearStep; return;
    case Done => return;
    case Suspending => return;
    case _ =>
  }

  lemma OuterStaysAwake(s: Shared, go: bool)
    requires RunOk(s) && Awake(s) && OuterStep(s, go).Some?
    ensures Awake(OuterStep(s, go).value)
  {
    var s' := OuterStep(s, go).value;
    hide LoopStep, ReconnectStep, ExitStep;
    match StretchOf(s.run)
    case Looping => LoopStaysAwake(s, s', go);
    case Reconnect => ReconnectStaysAwake(s, s');
    case Ending => ExitStaysAwake(s, s');
    case Absent =>
  }

  lemma InnerStaysAwake(s: Shared, s': Shared)
    requires InnerFrame(s, s') && Awake(s)
    ensures Awake(s')
  {}

  lemma BackIs(s: Shared)
    ensures var b := Back(s); b == s.(lock := b.lock, inner := None, others := b.others)
  {}

  lemma RunStaysAwake(s: Shared, choice: Choice)
    requires RunOk(s) && ContextOk(s) && Awake(s) && RunStep(s, choice).Some?
    ensures Awake(RunStep(s, choice).value)
  {
    if Inside(s) {
      InnerIs(s, choice.needs);
      InnerStaysAwake(s, InnerStep(s, choice.needs).value);
      hide RunOk, ContextOk, InnerStep, OuterStep, InnerFrame;
    } else {
      BackKeeps(s);
      BackIs(s);
      hide RunOk, ContextOk, Back;
      OuterStaysAwake(Back(s), choice.go);
      hide OuterStep;
    }
  }

  lemma StepStaysAwake(s: State, l: Label)
    requires Invariant(s) && Awake(s.sh) && Step(s, l).Some?
    ensures Awake(Step(s, l).value.sh)
  {
    hide RunOk, ContextOk, CallOk, RunStep, CallStep;
    match l
    case RunOn(choice) => RunStaysAwake(s.sh, choice); hide Awake;
    case Go(i) => CallStepKeeps(i, s.calls[i], s.sh);
    case _ =>
  }

  /** In every run: once wakeCleanupLoop has returned TRUE to a call that raised the flag, the cleanup
      loop is not asleep and never will be again, wherever it was, mid-reconnect included. */
  lemma {:induction false} NeverSleepsAgain(states: seq<State>, labels: seq<Label>, i: nat, j: nat, k: nat)
    requires IsRun(states, labels) && j <= k < |states|
    requires i in states[j].calls && Woke(states[j].calls[i].pc)
    ensures Awake(states[k].sh)
    decreases k
  {
    hide Step, Init;
    if j == k {
      RunKeepsInvariant(states, labels, k);
      assert CallOk(i, states[k].calls[i], states[k].sh);
    } else {
      NeverSleepsAgain(states, labels, i, j, k - 1);
      RunKeepsInvariant(states, labels, k - 1);
      assert Step(states[k - 1], labels[k - 1]) == Some(states[k]);
      hide IsRun;
      StepStaysAwake(states[k - 1], labels[k - 1]);
    }
  }

  predicate InTeardown(s: State, who: Owner) {
    match who
    case ByRun => s.sh.run.RunTear?
    case ByCall(i) => i in s.calls && s.calls[i].pc.CallTear?
    case _ => false
  }

  /** In every run at most one thread is inside app_webrtc_teardown, the context is freed at most once,
      and whoever waits there for a reconnect to drain finds none in flight. */
  lemma OneTeardown(states: seq<State>, labels: seq<Label>, k: nat, who: Owner, other: Owner)
    requires IsRun(states, labels) && k < |states|
    ensures InTeardown(states[k], who) && InTeardown(states[k], other) ==> who == other
    ensures states[k].sh.freed <= 1 && (states[k].sh.freed == 1 <==> !states[k].sh.context)
    ensures InTeardown(states[k], who) ==> !states[k].sh.reconnect
  {
    RunKeepsInvariant(states, labels, k);
    hide IsRun;
    var s := states[k];
    if who.ByCall? && who.i in s.calls { assert CallOk(who.i, s.calls[who.i], s.sh); }
    if other.ByCall? && other.i in s.calls { assert CallOk(other.i, s.calls[other.i], s.sh); }
  }

  /** In every run a terminate call that is about to use the context finds it there, before the run
      task's teardown has begun and with nobody else's under way. */
  lemma UsesLiveContext(states: seq<State>, labels: seq<Label>, k: nat, i: nat, who: Owner)
    requires IsRun(states, labels) && k < |states| && i in states[k].calls
    ensures var s := states[k]; var t := s.calls[i].pc;
      && (Uses(t) || Guarded(t, s.sh) ==> s.sh.context && !Leaving(s.sh.run) && !InTeardown(s, who))
      && (t.CallTear? && TearUses(t.d) ==> s.sh.context)
  {
    RunKeepsInvariant(states, labels, k);
    hide IsRun;
    var s := states[k];
    assert CallOk(i, s.calls[i], s.sh);
    if who.ByCall? && who.i in s.calls { assert CallOk(who.i, s.calls[who.i], s.sh); }
  }

  /** The same move of a call, in a state where the context holds other flags and another lock. */
  predicate SameMove(m: CallMove, m': CallMove, s': Shared) {
    if m.Blocked? then m'.Blocked?
    else m' == To(m.pc, m.sh.(lock := s'.lock, term := s'.term, reconnect := s'.reconnect))
  }

  lemma OpeningIgnores(i: nat, from: From, t: CallPc, s: Shared, s': Shared)
    requires s' == s.(lock := s'.lock, term := s'.term, reconnect := s'.reconnect)
    requires PartOf(t) == Opening
    ensures SameMove(OpeningStep(i, from, t, s), OpeningStep(i, from, t, s'), s')
  {}

  lemma RaisingIgnores(i: nat, from: From, t: CallPc, s: Shared, s': Shared)
    requires s' == s.(lock := s'.lock, term := s'.term, reconnect := s'.reconnect)
    requires PartOf(t) == Raising && !t.Abort? && (t.Raise? ==> s.tearing || !s.context)
    ensures SameMove(RaisingStep(i, from, t, s), RaisingStep(i, from, t, s'), s')
  {}

  lemma WakingIgnores(i: nat, from: From, t: CallPc, s: Shared, s': Shared)
    requires s' == s.(lock := s'.lock, term := s'.term, reconnect := s'.reconnect)
    requires PartOf(t) == Waking && !t.WakeHeld? && !t.Broadcast? && (t.TryWake? ==> s.tearing || !s.context)
    ensures SameMove(WakingStep(i, from, t, s), WakingStep(i, from, t, s'), s')
  {}

  lemma ClosingIgnores(i: nat, from: From, t: CallPc, s: Shared, s': Shared)
    requires s' == s.(lock := s'.lock, term := s'.term, reconnect := s'.reconnect)
    requires PartOf(t) == Closing
    ensures SameMove(ClosingStep(i, from, t, s), ClosingStep(i, from, t, s'), s')
  {}

  lemma OwnIgnores(i: nat, from: From, t: CallPc, s: Shared, s': Shared)
    requires s' == s.(lock := s'.lock, term := s'.term, reconnect := s'.reconnect)
    requires PartOf(t) == Own && !t.CallTear?
    ensures SameMove(OwnStep(i, from, t, s), OwnStep(i, from, t, s'), s')
  {}

  /** A call outside its own teardown that is not at such a point does not look at what the context
      holds. */
  lemma OthersIgnoreContext(i: nat, c: Call, s: Shared, s': Shared)
    requires !Uses(c.pc) && !c.pc.CallTear? && !Guarded(c.pc, s)
    requires s' == s.(lock := s'.lock, term := s'.term, reconnect := s'.reconnect)
    ensures SameMove(CallStep(i, c, s), CallStep(i, c, s'), s')
  {
    hide OpeningStep, RaisingStep, WakingStep, ClosingStep, OwnStep, SameMove;
    match PartOf(c.pc)
    case Opening => OpeningIgnores(i, c.from, c.pc, s, s');
    case Raising => RaisingIgnores(i, c.from, c.pc, s, s');
    case Waking => WakingIgnores(i, c.from, c.pc, s, s');
    case Closing => ClosingIgnores(i, c.from, c.pc, s, s');
    case Own => OwnIgnores(i, c.from, c.pc, s, s');
  }

  // ---------------------------------------------------------------- no new work

  /** Where the run task stands with no pass over the sessions and no connect ahead, if it sees the flag. */
  predicate Winding(r: RunPc) {
    || r.SetRec? || r.CheckRec? || r.BailClear? || r.Recheck? || r.Check? || r.Sleep? || r.Asleep? || r.Wake?
    || r.UnlockTop? || r.LoopTop? || r.BailUnlock? || StretchOf(r) == Ending
  }

  /** The flag is up and the run task sees it before it begins anything. */
  predicate WindsDown(s: Shared) { s.term && Winding(s.run) }

  lemma LoopWinds(s: Shared, s': Shared, go: bool)
    requires LoopStep(s, go) == Some(s') && s.term
    requires s.run.LoopTop? || s.run.Check? || s.run.Sleep? || s.run.Asleep? || s.run.Wake? || s.run.UnlockTop?
    ensures WindsDown(s')
  {
    match s.run
    case LoopTop => return;
    case Check => return;
    case Sleep => return;
    case Asleep => return;
    case Wake => return;
    case UnlockTop => return;
    case _ =>
  }

  lemma ReconnectWinds(s: Shared, s': Shared)
    requires ReconnectStep(s) == Some(s') && s.term
    requires s.run.SetRec? || s.run.CheckRec? || s.run.BailClear? || s.run.Recheck? || s.run.BailUnlock?
    ensures WindsDown(s')
  {
    match s.run
    case SetRec => return;
    case CheckRec => return;
    case BailClear => return;
    case Recheck => return;
    case _ =>
  }

  lemma ExitWinds(s: Shared, s': Shared)
    requires ExitStep(s) == Some(s') && s.term
    requires s.run.Exit? || s.run.Mark? || s.run.Unmark? || s.run.RunTear? || s.run.Done? || s.run.Suspending?
    ensures WindsDown(s')
  {
    match s.run
    case Exit => return;
    case Mark => return;
    case Unmark => return;
    case RunTear(d) => TearIs(d, ByRun, OnRun, s); hide TearStep; return;
    case Done => return;
    case _ =>
  }

  lemma RunWinds(s: Shared, choice: Choice)
    requires RunOk(s) && ContextOk(s) && WindsDown(s) && RunStep(s, choice).Some?
    ensures WindsDown(RunStep(s, choice).value)
  {
    if Inside(s) {
      InnerIs(s, choice.needs);
      hide RunOk, ContextOk, InnerStep, OuterStep;
    } else {
      BackIs(s);
      var b, s' := Back(s), OuterStep(Back(s), choice.go).value;
      hide RunOk, ContextOk, Back, LoopStep, ReconnectStep, ExitStep;
      match StretchOf(b.run)
      case Looping => LoopWinds(b, s', choice.go);
      case Reconnect => ReconnectWinds(b, s');
      case Ending => ExitWinds(b, s');
      case Absent =>
    }
  }

  lemma StepWinds(s: State, l: Label)
    requires Invariant(s) && WindsDown(s.sh) && Step(s, l).Some?
    ensures WindsDown(Step(s, l).value.sh)
  {
    hide RunOk, ContextOk, HasOk, CallOk, AloneOk, OneWait, RunStep, CallStep;
    match l
    case RunOn(choice) => RunWinds(s.sh, choice); hide WindsDown;
    case Go(i) => CallStepKeeps(i, s.calls[i], s.sh);
    case _ =>
  }

  /** In every run: with the flag up and no pass or connect begun, the run task begins none again. */
  lemma {:induction false} NothingBegunAgain(states: seq<State>, labels: seq<Label>, j: nat, k: nat)
    requires IsRun(states, labels) && j <= k < |states| && WindsDown(states[j].sh)
    ensures WindsDown(states[k].sh) && !states[k].sh.run.Pass? && !states[k].sh.run.Connecting?
    decreases k
  {
    hide Step, Init, Invariant;
    if j < k {
      NothingBegunAgain(states, labels, j, k - 1);
      RunKeepsInvariant(states, labels, k - 1);
      assert Step(states[k - 1], labels[k - 1]) == Some(states[k]);
      hide WindsDown;
      StepWinds(states[k - 1], labels[k - 1]);
    }
  }

  // ---------------------------------------------------------------- what a call leaves behind

  /** The call has found the run task alive and gone on to wait for it. */
  predicate Awaits(t: CallPc) {
    || t.Wait? || t.LockWake? || t.TryWake? || t.WakeHeld? || t.Broadcast? || t.UnlockWake?
    || t.Lock3? || t.Reap3? || t.Unlock3?
  }

  /** The call has torn down itself, as far as the context. */
  predicate TornDown(t: CallPc) { t == CallTear(Reset) || Uninitialized(t) }

  /** ... to the end. */
  predicate Uninitialized(t: CallPc) { t.LockOwn? || t.ClearBusy? || t.UnlockBusy? }

  /** What is gone stays gone: a step never brings back the handle, the context or the initialised flag, and a
      run task that has torn down has reset the last. */
  predicate Falls(s: Shared, s': Shared) {
    && (s'.handle ==> s.handle) && (s'.context ==> s.context) && (s'.initialized ==> s.initialized) && (s.term ==> s'.term)
    && (s'.run.NoTask? ==> s.run.NoTask?)
    && (TaskTidy(s) ==> TaskTidy(s'))
  }

  predicate TaskTidy(s: Shared) {
    && (s.run.Done? || s.done ==> !s.initialized)
    && (s.run.Done? || s.done || (s.run.RunTear? && !s.run.d.Enter? && !s.run.d.Flag?) ==> s.term)
  }

  predicate CallTidy(t: CallPc, s: Shared) {
    && (t.Unlock3? ==> !s.handle)
    && (TornDown(t) ==> !s.context)
    && (Uninitialized(t) ==> !s.initialized)
  }

  ghost predicate Tidy(s: State) { TaskTidy(s.sh) && forall i | i in s.calls :: CallTidy(s.calls[i].pc, s.sh) }

  lemma TearFalls(d: Tear, who: Owner, from: From, s: Shared)
    requires !TearStep(d, who, from, s).Held?
    ensures var m := TearStep(d, who, from, s);
      && (m.sh.context ==> s.context) && (m.sh.initialized ==> s.initialized) && (s.term || d.Flag? ==> m.sh.term)
      && (d.Enter? && s.context ==> m.At? && m.d.Flag?)
      && (if m.At? then m.d == Reset ==> !m.sh.context else !m.sh.initialized && (d == Reset && m.sh.context == s.context))
  {
    match d
    case Enter => return;
    case Flag => return;
    case Drain => return;
    case Disconnect => return;
    case Sessions => return;
    case SessionsHeld => return;
    case Detach => return;
    case Clients => return;
    case Again => return;
    case AgainHeld => return;
    case DetachAgain => return;
    case Hands => return;
    case HandsHeld => return;
    case FreeContext => return;
    case _ =>
  }

  lemma ExitFalls(s: Shared, s': Shared)
    requires RunFlags(s) && ContextOk(s) && ExitStep(s) == Some(s') && StretchOf(s.run) == Ending
    ensures Falls(s, s')
  {
    match s.run
    case Exit => return;
    case Mark => return;
    case Unmark => return;
    case RunTear(d) => TearFalls(d, ByRun, OnRun, s); TearFrames(d, ByRun, OnRun, s); hide TearStep; return;
    case Done => return;
    case Suspending => return;
    case _ =>
  }

  lemma ReconnectFalls(s: Shared, s': Shared)
    requires RunFlags(s) && ReconnectStep(s) == Some(s') && StretchOf(s.run) == Reconnect
    ensures Falls(s, s')
  {
    match s.run
    case SetRec => return;
    case CheckRec => return;
    case BailClear => return;
    case UnlockRec => return;
    case Connecting => return;
    case ClearRec => return;
    case Relock => return;
    case Recheck => return;
    case _ =>
  }

  lemma LoopFalls(s: Shared, s': Shared, go: bool)
    requires RunFlags(s) && LoopStep(s, go) == Some(s') && StretchOf(s.run) == Looping
    ensures Falls(s, s')
  {
    match s.run
    case Setup => return;
    case Report => return;
    case LoopTop => return;
    case LockPass => return;
    case Pass => return;
    case Check => return;
    case Sleep => return;
    case Asleep => return;
    case Wake => return;
    case _ =>
  }

  lemma OuterFalls(s: Shared, go: bool)
    requires RunOk(s) && ContextOk(s) && OuterStep(s, go).Some?
    ensures Falls(s, OuterStep(s, go).value)
  {
    var s' := OuterStep(s, go).value;
    hide LoopStep, ReconnectStep, ExitStep, Falls;
    match StretchOf(s.run)
    case Looping => LoopFalls(s, s', go);
    case Reconnect => ReconnectFalls(s, s');
    case Ending => ExitFalls(s, s');
    case Absent =>
  }

  lemma RunFalls(s: Shared, choice: Choice)
    requires RunOk(s) && ContextOk(s) && RunStep(s, choice).Some?
    ensures Falls(s, RunStep(s, choice).value)
  {
    if Inside(s) {
      InnerIs(s, choice.needs);
      hide RunOk, ContextOk, InnerStep, OuterStep;
    } else {
      BackKeeps(s);
      BackIs(s);
      OuterFalls(Back(s), choice.go);
      hide RunOk, ContextOk, Back, OuterStep;
    }
  }

  /** A step of a call leaves it in order, and keeps what is gone. */
  predicate TidyMove(s: Shared, m: CallMove) { m.To? && Falls(s, m.sh) && CallTidy(m.pc, m.sh) }

  lemma OpeningTidy(i: nat, from: From, t: CallPc, s: Shared)
    requires CallTidy(t, s) && OpeningStep(i, from, t, s).To? && PartOf(t) == Opening
    ensures TidyMove(s, OpeningStep(i, from, t, s))
  {}

  lemma RaisingTidy(i: nat, from: From, t: CallPc, s: Shared)
    requires CallTidy(t, s) && RaisingStep(i, from, t, s).To? && PartOf(t) == Raising
    ensures TidyMove(s, RaisingStep(i, from, t, s))
  {}

  lemma WakingTidy(i: nat, from: From, t: CallPc, s: Shared)
    requires CallTidy(t, s) && WakingStep(i, from, t, s).To? && PartOf(t) == Waking
    ensures TidyMove(s, WakingStep(i, from, t, s))
  {}

  lemma ClosingTidy(i: nat, from: From, t: CallPc, s: Shared)
    requires CallKnows(t, s) && CallTidy(t, s) && ClosingStep(i, from, t, s).To? && PartOf(t) == Closing
    ensures TidyMove(s, ClosingStep(i, from, t, s))
  {}

  lemma OwnTidy(i: nat, from: From, t: CallPc, s: Shared)
    requires CallTidy(t, s) && OwnStep(i, from, t, s).To? && PartOf(t) == Own
    ensures TidyMove(s, OwnStep(i, from, t, s))
  {
    match t
    case UnlockOwn => return;
    case CallTear(d) => TearFalls(d, ByCall(i), from, s); TearFrames(d, ByCall(i), from, s); hide TearStep; return;
    case LockOwn => return;
    case ClearBusy => return;
    case _ =>
  }

  lemma CallStepTidy(i: nat, c: Call, s: Shared)
    requires CallKnows(c.pc, s) && CallTidy(c.pc, s) && CallStep(i, c, s).To?
    ensures TidyMove(s, CallStep(i, c, s))
  {
    hide CallKnows, CallTidy, TidyMove, OpeningStep, RaisingStep, WakingStep, ClosingStep, OwnStep;
    match PartOf(c.pc)
    case Opening => OpeningTidy(i, c.from, c.pc, s);
    case Raising => RaisingTidy(i, c.from, c.pc, s);
    case Waking => WakingTidy(i, c.from, c.pc, s);
    case Closing => ClosingTidy(i, c.from, c.pc, s);
    case Own => OwnTidy(i, c.from, c.pc, s);
  }

  lemma StepKeepsTidy(s: State, l: Label)
    requires Invariant(s) && Tidy(s) && Step(s, l).Some?
    ensures Tidy(Step(s, l).value) && Falls(s.sh, Step(s, l).value.sh)
  {
    hide RunOk, ContextOk, HasOk, AloneOk, OneWait, RunStep, CallStep;
    match l
    case RunOn(choice) => RunFalls(s.sh, choice);
    case Go(i) =>
      assert CallOk(i, s.calls[i], s.sh);
      CallStepTidy(i, s.calls[i], s.sh);
    case _ =>
  }

  lemma {:induction false} RunKeepsTidy(states: seq<State>, labels: seq<Label>, k: nat)
    requires IsRun(states, labels) && k < |states|
    ensures Tidy(states[k])
  {
    hide Step, Invariant;
    if k > 0 {
      RunKeepsTidy(states, labels, k - 1);
      RunKeepsInvariant(states, labels, k - 1);
      hide Tidy;
      assert Step(states[k - 1], labels[k - 1]) == Some(states[k]);
      StepKeepsTidy(states[k - 1], labels[k - 1]);
    }
  }

  /** A call that awaits the run task goes on to do so, or returns with the task deleted. */
  predicate AwaitsOrDone(s: State, i: nat) {
    i in s.calls && (Awaits(s.calls[i].pc) || (s.calls[i].pc.Returned? && !s.sh.handle && !s.sh.run.NoTask?))
  }

  lemma AwaitsOn(i: nat, c: Call, s: Shared)
    requires CallOk(i, c, s) && CallTidy(c.pc, s) && Awaits(c.pc) && CallStep(i, c, s).To?
    ensures var m := CallStep(i, c, s); Awaits(m.pc) || (m.pc.Returned? && !m.sh.handle && !m.sh.run.NoTask?)
  {
    match PartOf(c.pc)
    case Waking => return;
    case Closing => return;
    case _ =>
  }

  lemma StepAwaitsOn(s: State, l: Label, i: nat)
    requires Invariant(s) && Tidy(s) && AwaitsOrDone(s, i) && Step(s, l).Some?
    ensures AwaitsOrDone(Step(s, l).value, i)
  {
    StepKeepsTidy(s, l);
    if l == Go(i) {
      if s.calls[i].pc.Returned? { ReturnedIsFinal(i, s.calls[i], s.sh); }
      assert CallOk(i, s.calls[i], s.sh) && CallTidy(s.calls[i].pc, s.sh);
      if Awaits(s.calls[i].pc) { AwaitsOn(i, s.calls[i], s.sh); }
      hide Invariant, CallStep, Falls, Awaits, Tidy;
    } else {
      NoTaskStays(s, l);
      hide Invariant, RunStep, CallStep, Awaits, Tidy;
    }
  }

  lemma NoTaskStays(s: State, l: Label)
    requires Invariant(s) && Step(s, l).Some?
    ensures Step(s, l).value.sh.run.NoTask? ==> s.sh.run.NoTask?
  {
    hide RunOk, ContextOk, HasOk, CallOk, AloneOk, OneWait, RunStep, CallStep;
    match l
    case RunOn(choice) => RunStepKeeps(s.sh, choice);
    case Go(i) => CallStepKeeps(i, s.calls[i], s.sh);
    case _ =>
  }

  lemma {:induction false} RunAwaitsOn(states: seq<State>, labels: seq<Label>, j: nat, k: nat, i: nat)
    requires IsRun(states, labels) && j <= k < |states| && AwaitsOrDone(states[j], i)
    ensures AwaitsOrDone(states[k], i)
    decreases k
  {
    hide Step, Init, AwaitsOrDone;
    if j < k {
      RunAwaitsOn(states, labels, j, k - 1, i);
      RunKeepsInvariant(states, labels, k - 1);
      RunKeepsTidy(states, labels, k - 1);
      hide Invariant, Tidy;
      assert Step(states[k - 1], labels[k - 1]) == Some(states[k]);
      StepAwaitsOn(states[k - 1], labels[k - 1], i);
    }
  }

  /** In every run, when a call that has waited for the run task returns: the task has torn everything down,
      is suspended and deleted, the context has been freed once, and the application is no longer
      initialised. */
  lemma AwaitedIsGone(states: seq<State>, labels: seq<Label>, j: nat, k: nat, i: nat)
    requires IsRun(states, labels) && j <= k < |states| && i in states[j].calls && Awaits(states[j].calls[i].pc)
    requires i in states[k].calls && states[k].calls[i].pc.Returned?
    ensures var s := states[k].sh; s.run == Parked && !s.handle && !s.context && s.freed == 1 && !s.initialized
  {
    RunAwaitsOn(states, labels, j, k, i);
    RunKeepsInvariant(states, labels, k);
    RunKeepsTidy(states, labels, k);
    hide IsRun;
  }

  /** The run task is deleted by a call that holds gRunTaskLock, and only when it is suspended for good. */
  lemma DeletedWhenParked(s: State, l: Label)
    requires Invariant(s) && Step(s, l).Some? && s.sh.handle && !Step(s, l).value.sh.handle
    ensures s.sh.run == Parked && l.Go? && s.sh.g == ByCall(l.i)
  {
    hide ContextOk, HasOk, AloneOk, OneWait, RunStep, CallStep;
    if l.Go? {
      assert CallOk(l.i, s.calls[l.i], s.sh);
      ReapsParked(l.i, s.calls[l.i], s.sh);
      return;
    }
    OnlyCallsDelete(s, l);
    hide Step, Invariant;
  }

  lemma OnlyCallsDelete(s: State, l: Label)
    requires Invariant(s) && Step(s, l).Some? && !l.Go?
    ensures Step(s, l).value.sh.handle == s.sh.handle
  {
    hide RunOk, ContextOk, HasOk, CallOk, AloneOk, OneWait, RunStep, Waits, OwnerOf;
    if l.RunOn? { RunStepKeeps(s.sh, l.choice); }
  }

  /** A call that looks for a finished run task, on its way in or out, has deleted it when it goes on. */
  lemma FinishedIsDeleted(s: State, i: nat)
    requires Invariant(s) && i in s.calls && (s.calls[i].pc.Reap1? || s.calls[i].pc.Reap3?)
    requires s.sh.done && Step(s, Go(i)).Some?
    ensures !Step(s, Go(i)).value.sh.handle
  {}

  lemma ReapsParked(i: nat, c: Call, s: Shared)
    requires RunFlags(s) && CallLocks(i, c, s) && CallStep(i, c, s).To? && s.handle && !CallStep(i, c, s).sh.handle
    ensures s.run == Parked && s.g == ByCall(i)
  {
    if c.pc.Reap1? || c.pc.Reap3? { return; }
    OnlyReapDeletes(i, c, s);
    hide CallStep, RunFlags, CallLocks;
  }

  lemma OnlyReapDeletes(i: nat, c: Call, s: Shared)
    requires CallStep(i, c, s).To? && !c.pc.Reap1? && !c.pc.Reap3?
    ensures CallStep(i, c, s).sh.handle == s.handle
  {
    match PartOf(c.pc)
    case Opening => hide RaisingStep, WakingStep, ClosingStep, OwnStep; return;
    case Raising => hide OpeningStep, WakingStep, ClosingStep, OwnStep; return;
    case Waking => WakingKeepsHandle(i, c.from, c.pc, s); hide WakingStep; return;
    case Closing => hide OpeningStep, RaisingStep, WakingStep, OwnStep; return;
    case Own => OwnKeepsHandle(i, c.from, c.pc, s); hide OwnStep;
  }

  lemma WakingKeepsHandle(i: nat, from: From, t: CallPc, s: Shared)
    requires WakingStep(i, from, t, s).To?
    requires t.Wait? || t.LockWake? || t.TryWake? || t.WakeHeld? || t.Broadcast? || t.UnlockWake?
    ensures WakingStep(i, from, t, s).sh.handle == s.handle
  {}

  lemma OwnKeepsHandle(i: nat, from: From, t: CallPc, s: Shared)
    requires OwnStep(i, from, t, s).To?
    requires t.UnlockOwn? || t.CallTear? || t.LockOwn? || t.ClearBusy? || t.UnlockBusy?
    ensures OwnStep(i, from, t, s).sh.handle == s.handle
  {
    if t.CallTear? { TearKeepsHandle(t.d, ByCall(i), from, s); }
    hide TearStep;
  }

  lemma TearKeepsHandle(d: Tear, who: Owner, from: From, s: Shared)
    ensures var m := TearStep(d, who, from, s); !m.Held? ==> m.sh.handle == s.handle
  {}

  /** A call that tears down itself goes on to do so, or returns with everything torn down. */
  predicate TearsOrDone(s: State, i: nat) {
    && i in s.calls && !s.sh.handle
    && (Owns(s.calls[i].pc) || (!s.sh.context && !s.sh.initialized && (s.calls[i].pc.UnlockBusy? || s.calls[i].pc.Returned?)))
  }

  lemma TearsOn(i: nat, c: Call, s: Shared)
    requires CallTidy(c.pc, s) && (Owns(c.pc) || c.pc.UnlockBusy?) && CallStep(i, c, s).To?
    ensures var m := CallStep(i, c, s);
      Owns(m.pc) || (!m.sh.context && !m.sh.initialized && (m.pc.UnlockBusy? || m.pc.Returned?))
  {
    hide TearStep;
  }

  lemma StepTearsOn(s: State, l: Label, i: nat)
    requires Invariant(s) && Tidy(s) && TearsOrDone(s, i) && Step(s, l).Some?
    ensures TearsOrDone(Step(s, l).value, i)
  {
    StepKeepsTidy(s, l);
    if l == Go(i) {
      if s.calls[i].pc.Returned? { ReturnedIsFinal(i, s.calls[i], s.sh); }
      assert CallTidy(s.calls[i].pc, s.sh);
      TearsOn(i, s.calls[i], s.sh);
    }
    hide Invariant, RunStep, CallStep, Owns, Tidy;
  }

  lemma {:induction false} RunTearsOn(states: seq<State>, labels: seq<Label>, j: nat, k: nat, i: nat)
    requires IsRun(states, labels) && j <= k < |states| && TearsOrDone(states[j], i)
    ensures TearsOrDone(states[k], i)
    decreases k
  {
    hide Step, Init, TearsOrDone;
    if j < k {
      RunTearsOn(states, labels, j, k - 1, i);
      RunKeepsInvariant(states, labels, k - 1);
      RunKeepsTidy(states, labels, k - 1);
      hide Invariant, Tidy;
      assert Step(states[k - 1], labels[k - 1]) == Some(states[k]);
      StepTearsOn(states[k - 1], labels[k - 1], i);
    }
  }

  /** In every run, when a call that tears down itself, because there is no run task, returns: the context has
      been freed once and the application is no longer initialised. */
  lemma TornDownByCall(states: seq<State>, labels: seq<Label>, j: nat, k: nat, i: nat)
    requires IsRun(states, labels) && j <= k < |states| && i in states[j].calls && Owns(states[j].calls[i].pc)
    requires i in states[k].calls && states[k].calls[i].pc.Returned?
    ensures var s := states[k].sh; !s.handle && !s.context && s.freed == 1 && !s.initialized
  {
    RunKeepsInvariant(states, labels, j);
    assert CallOk(i, states[j].calls[i], states[j].sh);
    RunTearsOn(states, labels, j, k, i);
    RunKeepsInvariant(states, labels, k);
    hide IsRun;
  }

  /** In every run a call is turned away only while another one is tearing down. */
  lemma RefusedBeside(states: seq<State>, labels: seq<Label>, k: nat, i: nat) returns (j: nat)
    requires IsRun(states, labels) && k < |states| && i in states[k].calls && states[k].calls[i].pc.Refuse?
    ensures j != i && j in states[k].calls && Owns(states[k].calls[j].pc)
  {
    RunKeepsInvariant(states, labels, k);
    hide IsRun;
    var s := states[k];
    assert CallOk(i, s.calls[i], s.sh);
    j := s.sh.busy.i;
    assert CallOk(j, s.calls[j], s.sh);
  }

  // ---------------------------------------------------------------- the order of a teardown

  /** The steps of a teardown where there is a context. */
  const WHOLE := [Enter, Flag, Drain, Disconnect, Sessions, SessionsHeld, Detach, Clients, Again, AgainHeld, DetachAgain,
                  Hands, HandsHeld, FreeContext, Reset]

  function Place(d: Tear): (n: nat)
    ensures n < |WHOLE| && WHOLE[n] == d
  {
    match d
    case Enter => 0 case Flag => 1 case Drain => 2 case Disconnect => 3 case Sessions => 4 case SessionsHeld => 5
    case Detach => 6 case Clients => 7 case Again => 8 case AgainHeld => 9 case DetachAgain => 10 case Hands => 11
    case HandsHeld => 12 case FreeContext => 13 case Reset => 14
  }

  lemma TearPlaces(d: Tear, who: Owner, from: From, s: Shared)
    ensures var m := TearStep(d, who, from, s);
      && (m.At? ==> Place(m.d) == (if d.Enter? && !s.context then 14 else Place(d) + 1))
      && (m.Over? ==> d.Reset?)
      && (!m.Held? && !d.Enter? ==> (s.term || d.Flag? ==> m.sh.term))
  {}

  /** What the run task has done of its teardown where it stands. */
  function TornBy(r: RunPc): seq<Tear> {
    match r
    case RunTear(d) => WHOLE[..Place(d)]
    case Done => WHOLE
    case Suspending => WHOLE
    case Parked => WHOLE
    case _ => []
  }

  /** The step of its teardown that the run task does, calls of its surroundings counted where they end. */
  function Tears(s: State, l: Label): seq<Tear> {
    if l.RunOn? && s.sh.run.RunTear? && !Inside(s.sh) then [s.sh.run.d] else []
  }

  lemma ExitTears(s: Shared, s': Shared)
    requires RunOk(s) && ContextOk(s) && ExitStep(s) == Some(s') && StretchOf(s.run) == Ending
    ensures TornBy(s'.run) == TornBy(s.run) + if s.run.RunTear? then [s.run.d] else []
  {
    match s.run
    case Exit => assert WHOLE[..0] == []; return;
    case Mark => return;
    case Unmark => assert WHOLE[..0] == []; return;
    case RunTear(d) => TearPlaces(d, ByRun, OnRun, s); hide TearStep; return;
    case Done => return;
    case Suspending => return;
    case _ =>
  }

  lemma EarlyTears(r: RunPc)
    requires Early(r)
    ensures TornBy(r) == []
  {}

  lemma OuterTears(s: Shared, go: bool)
    requires RunOk(s) && ContextOk(s) && OuterStep(s, go).Some?
    ensures TornBy(OuterStep(s, go).value.run) == TornBy(s.run) + if s.run.RunTear? then [s.run.d] else []
  {
    var s' := OuterStep(s, go).value;
    OuterOnward(s, go);
    hide RunOk, ContextOk, ExitStep, ReconnectStep, LoopStep, Early, TornBy, Onward;
    match StretchOf(s.run)
    case Ending => ExitTears(s, s');
    case Reconnect => EarlyStretch(s.run); EarlyTears(s.run); EarlyTears(s'.run);
    case Looping => EarlyStretch(s.run); EarlyTears(s.run); EarlyTears(s'.run);
    case Absent =>
  }

  lemma RunTears(s: State, choice: Choice)
    requires Invariant(s) && Step(s, RunOn(choice)).Some?
    ensures TornBy(Step(s, RunOn(choice)).value.sh.run) == TornBy(s.sh.run) + Tears(s, RunOn(choice))
  {
    if Inside(s.sh) {
      InnerIs(s.sh, choice.needs);
      hide Invariant, InnerStep, OuterStep, TornBy;
    } else {
      BackKeeps(s.sh);
      BackIs(s.sh);
      OuterTears(Back(s.sh), choice.go);
      hide Invariant, Back, OuterStep, TornBy;
    }
  }

  lemma StepTears(s: State, l: Label)
    requires Invariant(s) && Step(s, l).Some?
    ensures TornBy(Step(s, l).value.sh.run) == TornBy(s.sh.run) + Tears(s, l)
  {
    match l
    case RunOn(choice) => RunTears(s, choice); hide Step, Invariant;
    case Go(i) =>
      assert CallOk(i, s.calls[i], s.sh);
      CallStepKeeps(i, s.calls[i], s.sh);
      hide CallStep, Invariant, RunOk, ContextOk, CallOk;
    case _ => hide Invariant;
  }

  /** In every run the run task tears down in this order, each step once: it disconnects the signaling client,
      unpublishes and detaches the sessions before the clients go, and gives everyone a last chance at the lock
      before the context goes. */
  lemma {:induction false} TearsInOrder(states: seq<State>, labels: seq<Label>, k: nat)
    requires IsRun(states, labels) && k < |states|
    ensures History(states, labels, k, Tears) == TornBy(states[k].sh.run)
  {
    hide Step, Invariant, TornBy, Tears;
    if k == 0 {
      NothingTorn(states[0]);
    } else {
      TearsInOrder(states, labels, k - 1);
      RunKeepsInvariant(states, labels, k - 1);
      assert Step(states[k - 1], labels[k - 1]) == Some(states[k]);
      hide IsRun;
      StepTears(states[k - 1], labels[k - 1]);
    }
  }

  lemma NothingTorn(s: State)
    requires Init(s)
    ensures TornBy(s.sh.run) == []
  {}

  /** What call i has done of a teardown of its own: there is a context to tear down, or there is none. */
  ghost predicate TornByCall(t: CallPc, torn: seq<Tear>) {
    if t.CallTear? then torn == WHOLE[..Place(t.d)] || (t.d == Reset && torn == [Enter])
    else if Uninitialized(t) then torn == WHOLE || torn == [Enter, Reset]
    else t.Returned? || torn == []
  }

  /** The step of its teardown that call i does. */
  function TearsOf(i: nat): (State, Label) -> seq<Tear> {
    (s: State, l: Label) => if l == Go(i) && i in s.calls && s.calls[i].pc.CallTear? then [s.calls[i].pc.d] else []
  }

  lemma CallTears(i: nat, c: Call, s: Shared, torn: seq<Tear>)
    requires TornByCall(c.pc, torn) && CallStep(i, c, s).To?
    ensures TornByCall(CallStep(i, c, s).pc, torn + if c.pc.CallTear? then [c.pc.d] else [])
  {
    if c.pc.CallTear? { TearPlaces(c.pc.d, ByCall(i), c.from, s); }
    hide TearStep;
    match PartOf(c.pc)
    case Opening => return;
    case Raising => return;
    case Waking => return;
    case Closing => return;
    case Own => assert WHOLE[..0] == [] && WHOLE[..1] == [Enter]; return;
  }

  ghost predicate TornByOne(s: State, i: nat, torn: seq<Tear>) {
    if i in s.calls then TornByCall(s.calls[i].pc, torn) else torn == []
  }

  lemma StepTearsOf(s: State, l: Label, i: nat, torn: seq<Tear>)
    requires TornByOne(s, i, torn) && Step(s, l).Some?
    ensures TornByOne(Step(s, l).value, i, torn + TearsOf(i)(s, l))
  {
    assert torn + [] == torn;
    if l == Go(i) { CallTears(i, s.calls[i], s.sh, torn); }
    hide CallStep, RunStep;
  }

  /** In every run a call that tears down does it in the same order, each step once, or finds that there is no
      context. */
  lemma {:induction false} CallTearsInOrder(states: seq<State>, labels: seq<Label>, k: nat, i: nat)
    requires IsRun(states, labels) && k < |states|
    ensures TornByOne(states[k], i, History(states, labels, k, TearsOf(i)))
  {
    hide Step, TornByCall, TearsOf;
    if k > 0 {
      CallTearsInOrder(states, labels, k - 1, i);
      assert Step(states[k - 1], labels[k - 1]) == Some(states[k]);
      hide IsRun, TornByOne;
      StepTearsOf(states[k - 1], labels[k - 1], i, History(states, labels, k - 1, TearsOf(i)));
    }
  }

  // ---------------------------------------------------------------- where the run task is heading

  /** The loop sleeps, or is about to, with the flag up. */
  predicate Dozing(s: Shared) { s.term && (s.run.Sleep? || s.run.Asleep?) }

  /** The run task may still have to wait for l: the context's lock until it has given it back for the last
      time, the list's until it has detached the sessions for the last time, the others as long as it calls
      its surroundings, the last call under way being as far as it is. */
  predicate MayNeed(s: Shared, l: Lock) {
    RunMayNeed(s.run, l) && (LastCall(s) && !l.Context? && !l.List? ==> l in s.inner.value.todo)
  }

  /** Inside the last call of its surroundings. */
  predicate LastCall(s: Shared) { s.run == RunTear(Clients) && s.inner.Some? }

  predicate RunMayNeed(r: RunPc, l: Lock) {
    match r
    case NoTask => false case Done => false case Suspending => false case Parked => false
    case RunTear(d) => TearMayNeed(d, l)
    case _ => true
  }

  predicate TearMayNeed(d: Tear, l: Lock) {
    match d
    case FreeContext => false case Reset => false
    case Hands => l.Context? case HandsHeld => l.Context?
    case Again => l.Context? || l.List? case AgainHeld => l.Context? || l.List? case DetachAgain => l.Context? || l.List?
    case _ => true
  }

  /** The run task will not stay in its loop: it will see the flag, or is leaving or gone. */
  predicate Up(s: Shared) { s.term || s.tearing || s.run.Report? || s.run.Exit? || s.run.Mark? || s.run.NoTask? }

  /** How far the run task is from having torn everything down, once the flag is up. */
  function Rank(r: RunPc): nat {
    match r
    case Setup => 43 case Sleep => 42 case Asleep => 41 case Wake => 40 case UnlockTop => 39 case LoopTop => 38
    case LockPass => 37 case Pass => 36 case SetRec => 35 case CheckRec => 34 case UnlockRec => 33 case Connecting => 32
    case ClearRec => 31 case Relock => 30 case Recheck => 29 case Check => 28 case BailClear => 27 case BailUnlock => 26
    case Report => 25 case Exit => 24 case Mark => 23 case Unmark => 22 case RunTear(d) => 4 + TearRank(d)
    case Done => 2 case Suspending => 1 case Parked => 0 case NoTask => 0
  }

  lemma RankBound(r: RunPc)
    ensures Rank(r) < 100
  {}

  function TearRank(d: Tear): nat {
    match d
    case Enter => 15 case Flag => 14 case Drain => 13 case Disconnect => 12 case Sessions => 11 case SessionsHeld => 10
    case Detach => 9 case Clients => 8 case Again => 7 case AgainHeld => 6 case DetachAgain => 5 case Hands => 4
    case HandsHeld => 3 case FreeContext => 2 case Reset => 1
  }

  lemma TearNearer(d: Tear, who: Owner, from: From, s: Shared)
    ensures var m := TearStep(d, who, from, s); m.At? ==> TearRank(m.d) < TearRank(d)
  {}

  /** What a step of the run task, from s to s', brings it nearer to. */
  predicate Onward(s: Shared, s': Shared) {
    && (Dozing(s') ==> Dozing(s))
    && (Up(s) ==> Up(s') && Rank(s'.run) < Rank(s.run))
  }

  /** Before the teardown the run task may need every lock. */
  predicate Early(r: RunPc) { !r.NoTask? && !r.RunTear? && !r.Done? && !r.Suspending? && !r.Parked? }

  lemma ExitOnward(s: Shared, s': Shared)
    requires RunOk(s) && ContextOk(s) && ExitStep(s) == Some(s') && StretchOf(s.run) == Ending
    ensures Onward(s, s')
  {
    match s.run
    case Exit => return;
    case Mark => return;
    case Unmark => return;
    case RunTear(d) => TearNearer(d, ByRun, OnRun, s); return;
    case Done => return;
    case Suspending => return;
    case _ =>
  }

  lemma ReconnectOnward(s: Shared, s': Shared)
    requires RunOk(s) && ContextOk(s) && ReconnectStep(s) == Some(s') && StretchOf(s.run) == Reconnect
    ensures Onward(s, s') && Early(s'.run)
  {
    hide RunLocks, ContextOk;
    match s.run
    case SetRec => return;
    case CheckRec => return;
    case BailClear => return;
    case UnlockRec => return;
    case Connecting => return;
    case ClearRec => return;
    case Relock => return;
    case Recheck => return;
    case _ =>
  }

  lemma LoopOnward(s: Shared, s': Shared, go: bool)
    requires RunOk(s) && ContextOk(s) && LoopStep(s, go) == Some(s') && StretchOf(s.run) == Looping
    ensures Onward(s, s') && Early(s'.run)
  {
    hide RunLocks, ContextOk;
    match s.run
    case Setup => return;
    case Report => return;
    case LoopTop => return;
    case LockPass => return;
    case Pass => return;
    case Check => return;
    case Sleep => return;
    case Asleep => return;
    case Wake => return;
    case _ =>
  }

  /** How far the run task is from its end, calls that would raise the flag included. */
  function Left(s: Shared): nat { if Up(s) then 2 * Rank(s.run) + (if s.inner.None? then 1 else 0) else 1000 }

  /** The locks that the call of its surroundings has still to take. */
  function Todo(s: Shared): nat { if s.inner.Some? then |s.inner.value.todo| else 0 }

  lemma OuterOnward(s: Shared, go: bool)
    requires RunOk(s) && ContextOk(s) && OuterStep(s, go).Some?
    ensures Onward(s, OuterStep(s, go).value)
    ensures StretchOf(s.run) == Looping || StretchOf(s.run) == Reconnect ==> Early(OuterStep(s, go).value.run)
  {
    var s' := OuterStep(s, go).value;
    hide RunOk, ContextOk, ExitStep, ReconnectStep, LoopStep, Onward, Early;
    match StretchOf(s.run)
    case Ending => ExitOnward(s, s');
    case Reconnect => ReconnectOnward(s, s');
    case Looping => LoopOnward(s, s', go);
    case Absent =>
  }

  /** With the flag up every step of the run task, and of its surroundings when it calls them, brings it
      nearer the end of its teardown, whatever they choose; and it does not fall asleep again. */
  lemma RunNearsEnd(s: Shared, choice: Choice)
    requires RunOk(s) && ContextOk(s) && HasOk(s) && RunStep(s, choice).Some?
    ensures var s' := RunStep(s, choice).value;
      && (Dozing(s') ==> Dozing(s))
      && (Up(s) ==> Up(s') && (Left(s') < Left(s) || (Left(s') == Left(s) && Todo(s') < Todo(s))))
  {
    if Inside(s) {
      InnerNears(s, choice.needs);
      hide InnerStep, OuterStep, Rank, Todo;
    } else {
      BackKeeps(s);
      OuterOnward(Back(s), choice.go);
      OuterKeeps(Back(s), choice.go);
      BackUp(s);
      hide RunOk, ContextOk, OuterStep, Rank, Back, Up, Dozing;
    }
  }

  lemma BackUp(s: Shared)
    ensures Up(Back(s)) == Up(s) && Dozing(Back(s)) == Dozing(s)
  {}

  lemma InnerNears(s: Shared, needs: seq<Lock>)
    requires RunLocks(s) && InnerStep(s, needs).Some?
    ensures var s' := InnerStep(s, needs).value;
      && s'.run == s.run && Up(s') == Up(s) && Dozing(s') == Dozing(s)
      && (if s.inner.None? then s'.inner.Some? else s'.inner.Some? && Todo(s') < Todo(s))
  {
    InnerIs(s, needs);
    InnerTodo(s, needs);
    hide InnerStep, RunLocks;
  }

  lemma TakeNextTodo(s: Shared, l: Lock, rest: Inner)
    ensures var s' := TakeNext(s, l, rest);
      s'.run == s.run && s'.context == s.context && s'.inner.Some? && s'.inner.value.todo == rest.todo
  {
    if OwnerOf(s, l) == ByRun { return; }
    if l.Context? { return; }
  }

  lemma InnerTodo(s: Shared, needs: seq<Lock>)
    requires InnerStep(s, needs).Some?
    ensures var s' := InnerStep(s, needs).value;
      && s'.run == s.run && s'.context == s.context && s'.inner.Some?
      && (s.inner.None? ==> s'.inner.value.todo == needs)
      && (s.inner.Some? ==> s.inner.value.todo != [] && s'.inner.value.todo == s.inner.value.todo[1..])
      && (s.inner.Some? ==> !OwnerOf(s, s.inner.value.todo[0]).ByOther?)
  {
    if s.inner.Some? {
      TakeNextTodo(s, s.inner.value.todo[0], s.inner.value.(todo := s.inner.value.todo[1..]));
    }
    hide TakeNext, OwnerOf;
  }

  /** What another thread has, and the surroundings take where they are called, the run task goes on to
      need; and it never comes to need a lock again. */
  predicate Needs(s: Shared, s': Shared, needs: seq<Lock>, l: Lock) {
    && (MayNeed(s', l) ==> MayNeed(s, l))
    && (MayNeed(s, l) && OwnerOf(s, l).ByOther? && l in needs ==> MayNeed(s', l))
  }

  lemma TearNeeds(d: Tear, s: Shared, l: Lock)
    requires RunOk(s) && ContextOk(s) && s.run == RunTear(d)
    ensures var m := TearStep(d, ByRun, OnRun, s);
      && (m.At? && TearMayNeed(m.d, l) ==> TearMayNeed(d, l))
      && (TearMayNeed(d, l) && OwnerOf(s, l).ByOther? && !m.Held? ==>
            m.At? && (TearMayNeed(m.d, l) || (d.Clients? && !l.Context? && !l.List?)))
  {
    assert d.Enter? ==> s.context;
    hide ContextOk, RunFlags;
    match d
    case Enter => return;
    case Flag => return;
    case Drain => return;
    case Disconnect => return;
    case Sessions => return;
    case SessionsHeld => return;
    case Detach => return;
    case Clients => return;
    case Again => return;
    case AgainHeld => return;
    case DetachAgain => return;
    case Hands => return;
    case HandsHeld => return;
    case FreeContext => return;
    case _ =>
  }

  lemma ExitNeeds(s: Shared, s': Shared, l: Lock)
    requires RunOk(s) && ContextOk(s) && ExitStep(s) == Some(s') && StretchOf(s.run) == Ending
    ensures RunMayNeed(s'.run, l) ==> RunMayNeed(s.run, l)
    ensures RunMayNeed(s.run, l) && OwnerOf(s, l).ByOther? ==>
      RunMayNeed(s'.run, l) || (s.run == RunTear(Clients) && !l.Context? && !l.List?)
  {
    hide OwnerOf;
    match s.run
    case Exit => return;
    case Mark => return;
    case Unmark => return;
    case RunTear(d) => TearNeeds(d, s, l); hide TearStep, RunOk, ContextOk, TearMayNeed; return;
    case Done => return;
    case Suspending => return;
    case _ =>
  }

  lemma EarlyNeeds(r: RunPc, l: Lock)
    requires Early(r)
    ensures RunMayNeed(r, l)
  {}

  lemma EarlyStretch(r: RunPc)
    requires StretchOf(r) == Looping || StretchOf(r) == Reconnect
    ensures Early(r)
  {}

  lemma OuterNeeds(s: Shared, go: bool, l: Lock)
    requires RunOk(s) && ContextOk(s) && OuterStep(s, go).Some?
    ensures var s' := OuterStep(s, go).value;
      && (RunMayNeed(s'.run, l) ==> RunMayNeed(s.run, l))
      && (RunMayNeed(s.run, l) && OwnerOf(s, l).ByOther? ==>
            RunMayNeed(s'.run, l) || (s.run == RunTear(Clients) && !l.Context? && !l.List?))
  {
    var s' := OuterStep(s, go).value;
    OuterOnward(s, go);
    hide RunOk, ContextOk, ExitStep, ReconnectStep, LoopStep, RunMayNeed, Early, Onward, OwnerOf;
    match StretchOf(s.run)
    case Ending => ExitNeeds(s, s', l);
    case Reconnect => EarlyStretch(s.run); EarlyNeeds(s.run, l); EarlyNeeds(s'.run, l);
    case Looping => EarlyStretch(s.run); EarlyNeeds(s.run, l); EarlyNeeds(s'.run, l);
    case Absent =>
  }

  lemma InnerNeeds(s: Shared, needs: seq<Lock>, l: Lock)
    requires InnerStep(s, needs).Some?
    ensures Needs(s, InnerStep(s, needs).value, needs, l)
  {
    InnerTodo(s, needs);
    if s.inner.Some? { assert s.inner.value.todo == [s.inner.value.todo[0]] + s.inner.value.todo[1..]; }
    hide RunMayNeed, InnerStep, OwnerOf;
  }

  lemma RunNeeds(s: Shared, choice: Choice, l: Lock)
    requires RunOk(s) && ContextOk(s) && HasOk(s) && RunStep(s, choice).Some?
    ensures Needs(s, RunStep(s, choice).value, choice.needs, l)
  {
    if Inside(s) {
      InnerNeeds(s, choice.needs, l);
      hide InnerStep, OuterStep, Needs;
    } else {
      BackKeeps(s);
      OuterNeeds(Back(s), choice.go, l);
      OuterKeeps(Back(s), choice.go);
      hide RunOk, ContextOk, OuterStep, RunMayNeed, Back;
    }
  }

  // ---------------------------------------------------------------- no wake-up is lost

  /** The call has raised the flag and is still to wake the loop. */
  predicate Rouses(t: CallPc) {
    || t.Abort? || t.Unlock2? || t == Wait(false) || t.LockWake? || t.TryWake? || t.WakeHeld? || t.Broadcast?
    || t == UnlockWake(false)
  }

  ghost predicate Roused(s: State) { Dozing(s.sh) ==> exists i | i in s.calls :: Rouses(s.calls[i].pc) }

  lemma OpeningRouses(i: nat, from: From, t: CallPc, s: Shared)
    requires OpeningStep(i, from, t, s).To? && PartOf(t) == Opening && Dozing(OpeningStep(i, from, t, s).sh)
    ensures Dozing(s)
  {}

  lemma RaisingRouses(i: nat, from: From, t: CallPc, s: Shared)
    requires CallOk(i, Call(from, t), s) && RaisingStep(i, from, t, s).To? && PartOf(t) == Raising
    requires Dozing(RaisingStep(i, from, t, s).sh)
    ensures Rouses(RaisingStep(i, from, t, s).pc) || (Dozing(s) && !Rouses(t))
  {}

  lemma WakingRouses(i: nat, from: From, t: CallPc, s: Shared)
    requires RunOk(s) && ContextOk(s) && CallOk(i, Call(from, t), s) && WakingStep(i, from, t, s).To? && PartOf(t) == Waking
    requires Dozing(WakingStep(i, from, t, s).sh)
    ensures Rouses(WakingStep(i, from, t, s).pc) || (Dozing(s) && !Rouses(t))
  {}

  lemma CallStepRouses(i: nat, c: Call, s: Shared)
    requires RunOk(s) && ContextOk(s) && CallOk(i, c, s) && CallStep(i, c, s).To? && Dozing(CallStep(i, c, s).sh)
    ensures Rouses(CallStep(i, c, s).pc) || (Dozing(s) && !Rouses(c.pc))
  {
    hide OpeningStep, RaisingStep, WakingStep, ClosingStep, OwnStep;
    match PartOf(c.pc)
    case Opening => OpeningRouses(i, c.from, c.pc, s);
    case Raising => RaisingRouses(i, c.from, c.pc, s);
    case Waking => WakingRouses(i, c.from, c.pc, s);
    case Closing =>
      if c.pc.Returned? { ReturnedIsFinal(i, c, s); }
      ClosingKeeps(i, c.from, c.pc, s);
    case Own => OwnKeeps(i, c.from, c.pc, s);
  }

  lemma StepKeepsRoused(s: State, l: Label)
    requires Invariant(s) && Roused(s) && Step(s, l).Some?
    ensures Roused(Step(s, l).value)
  {
    hide RunOk, ContextOk, CallOk, RunStep, CallStep, Dozing, Rouses;
    var s' := Step(s, l).value;
    match l
    case RunOn(choice) => if Dozing(s'.sh) { RunNearsEnd(s.sh, choice); }
    case Go(i) =>
      if Dozing(s'.sh) {
        CallStepRouses(i, s.calls[i], s.sh);
        if !Rouses(s'.calls[i].pc) {
          var j :| j in s.calls && Rouses(s.calls[j].pc);
          assert s'.calls[j] == s.calls[j];
        } else {
          assert i in s'.calls;
        }
      }
    case _ => OthersKeepRoused(s, l);
  }

  lemma OthersKeepRoused(s: State, l: Label)
    requires Roused(s) && !l.RunOn? && !l.Go? && Step(s, l).Some?
    ensures Roused(Step(s, l).value)
  {
    hide RunStep, CallStep, Rouses;
    var s' := Step(s, l).value;
    if Dozing(s'.sh) {
      var j :| j in s.calls && Rouses(s.calls[j].pc);
      assert s'.calls[j] == s.calls[j];
    }
  }

  /** In every run: while the loop sleeps with the flag up some call is still to wake it. */
  lemma {:induction false} RunRouses(states: seq<State>, labels: seq<Label>, k: nat)
    requires IsRun(states, labels) && k < |states|
    ensures Roused(states[k])
  {
    hide Step, Roused;
    if k == 0 {
      NoneDozes(states[0]);
    } else {
      RunRouses(states, labels, k - 1);
      RunKeepsInvariant(states, labels, k - 1);
      assert Step(states[k - 1], labels[k - 1]) == Some(states[k]);
      hide Invariant;
      StepKeepsRoused(states[k - 1], labels[k - 1]);
    }
  }

  lemma NoneDozes(s: State)
    requires Init(s)
    ensures Roused(s)
  {}

  // ---------------------------------------------------------------- who can never come to an end

  predicate OwnerIn(s: Shared, l: Lock, T: set<nat>) { OwnerOf(s, l).ByOther? && OwnerOf(s, l).o in T }

  /** The run task has lock w while it calls its surroundings, which will take locks of T or can do so before
      it gives w back. */
  predicate HeldUp(s: Shared, T: set<nat>, w: Lock) {
    && OwnerOf(s, w) == ByRun && CallsOut(s.run)
    && (s.inner.None? || (exists y | y in s.inner.value.todo :: OwnerIn(s, y, T)) || (s.run.Pass? && w.Context?))
  }

  /** The threads T are stuck with the run task: it may need a lock that one of them has, and each of them
      waits, in a terminate call for the run task, for a lock that one of them has, or for one that the run
      task has while they hold it up. */
  predicate Stuck(s: State, T: set<nat>, l: Lock) {
    && MayNeed(s.sh, l) && OwnerIn(s.sh, l, T)
    && forall o | o in T ::
      || Waits(s.calls, InThread(o))
      || (o in s.sh.others.wants && (OwnerIn(s.sh, s.sh.others.wants[o], T) || HeldUp(s.sh, T, s.sh.others.wants[o])))
  }

  ghost predicate Hung(s: State) { exists T, l :: Stuck(s, T, l) }

  lemma CallStaysStuck(i: nat, c: Call, s: Shared, l: Lock)
    requires RunOk(s) && ContextOk(s) && CallOk(i, c, s) && CallStep(i, c, s).To?
    requires c.from.InThread? && !c.pc.Returned? && MayNeed(s, l)
    ensures !CallStep(i, c, s).pc.Returned?
  {
    assert s.handle && s.initialized && !s.done by { AliveNeeds(s, l); }
    hide RunOk, ContextOk, CallLocks, MayNeed;
  }

  lemma AliveNeeds(s: Shared, l: Lock)
    requires RunFlags(s) && MayNeed(s, l)
    ensures s.handle && s.initialized && !s.done
  {}

  /** What a step of call i leaves of what is waited for. */
  lemma CallKeepsNeeds(i: nat, s: Shared, s': Shared, l: Lock)
    requires CallFrame(i, s, s')
    ensures MayNeed(s', l) == MayNeed(s, l)
    ensures OwnerOf(s', l).ByOther? || OwnerOf(s, l).ByOther? ==> OwnerOf(s', l) == OwnerOf(s, l)
    ensures OwnerOf(s', l).ByRun? || OwnerOf(s, l).ByRun? ==> OwnerOf(s', l) == OwnerOf(s, l)
    ensures s'.inner == s.inner && (s'.run == s.run || (!CallsOut(s.run) && !CallsOut(s'.run)))
  {}

  lemma CallKeepsHeldUp(i: nat, s: Shared, s': Shared, T: set<nat>, w: Lock)
    requires CallFrame(i, s, s')
    ensures HeldUp(s', T, w) == HeldUp(s, T, w)
  {
    CallKeepsNeeds(i, s, s', w);
    forall y ensures OwnerIn(s', y, T) == OwnerIn(s, y, T) { CallKeepsNeeds(i, s, s', y); }
    hide CallFrame, CallsOut, OwnerOf;
  }

  lemma InnerStaysHeldUp(s: Shared, needs: seq<Lock>, T: set<nat>, l: Lock, w: Lock)
    requires InnerStep(s, needs).Some? && OwnerIn(s, l, T) && l in needs && HeldUp(s, T, w)
    ensures HeldUp(InnerStep(s, needs).value, T, w)
  {
    var s' := InnerStep(s, needs).value;
    InnerSame(s, needs);
    InnerOwns(s, needs, w);
    InnerTodo(s, needs);
    if s.inner.None? {
      assert OwnerIn(s', l, T);
    } else if y :| y in s.inner.value.todo && OwnerIn(s, y, T) {
      assert OwnerIn(s', y, T);
    }
    hide InnerStep, OwnerOf, CallsOut;
  }

  lemma TakeNextOwns(s: Shared, l: Lock, rest: Inner, w: Lock)
    requires CanTake(s, l)
    ensures OwnerOf(s, w) == ByRun ==> OwnerOf(TakeNext(s, l, rest), w) == ByRun
    ensures OwnerOf(TakeNext(s, l, rest), w) == ByRun ==> OwnerOf(s, w) == ByRun || OwnerOf(s, w) == Free
  {
    if OwnerOf(s, l) == ByRun { return; }
    if l.Context? { return; }
  }

  /** The run task keeps what it has. */
  lemma InnerOwns(s: Shared, needs: seq<Lock>, w: Lock)
    requires InnerStep(s, needs).Some?
    ensures OwnerOf(s, w) == ByRun ==> OwnerOf(InnerStep(s, needs).value, w) == ByRun
    ensures OwnerOf(InnerStep(s, needs).value, w) == ByRun ==> OwnerOf(s, w) == ByRun || OwnerOf(s, w) == Free
  {
    if s.inner.Some? {
      TakeNextOwns(s, s.inner.value.todo[0], s.inner.value.(todo := s.inner.value.todo[1..]), w);
    }
    hide TakeNext;
  }

  /** Where the run task is through with a call, only the context's lock stays with it, until the next. */
  lemma OuterStaysHeldUp(s: Shared, T: set<nat>, w: Lock)
    requires RunOk(s) && !Inside(s) && HeldUp(s, T, w) && OuterStep(Back(s), false).Some?
    ensures HeldUp(OuterStep(Back(s), false).value, T, w)
  {
    assert s.run.Pass? && w.Context?;
    hide RunFlags;
  }

  lemma RunStaysHeldUp(s: Shared, choice: Choice, T: set<nat>, l: Lock, w: Lock)
    requires RunOk(s) && RunStep(s, choice).Some? && OwnerIn(s, l, T) && l in choice.needs && !choice.go && HeldUp(s, T, w)
    ensures HeldUp(RunStep(s, choice).value, T, w)
  {
    if Inside(s) {
      InnerStaysHeldUp(s, choice.needs, T, l, w);
      hide InnerStep, OuterStep, HeldUp;
    } else {
      OuterStaysHeldUp(s, T, w);
      hide InnerStep, OuterStep, HeldUp;
    }
  }

  lemma RunStaysStuck(s: State, choice: Choice, T: set<nat>, l: Lock)
    requires Invariant(s) && Stuck(s, T, l) && Step(s, RunOn(choice)).Some? && l in choice.needs && !choice.go
    ensures Stuck(Step(s, RunOn(choice)).value, T, l)
  {
    hide RunOk, ContextOk, HasOk, CallOk, RunStep, Waits, MayNeed, HeldUp;
    RunNeeds(s.sh, choice, l);
    RunStepKeeps(s.sh, choice);
    forall o | o in T && o in s.sh.others.wants && HeldUp(s.sh, T, s.sh.others.wants[o])
      ensures HeldUp(RunStep(s.sh, choice).value, T, s.sh.others.wants[o])
    {
      RunStaysHeldUp(s.sh, choice, T, l, s.sh.others.wants[o]);
    }
  }

  lemma GoStaysStuck(s: State, i: nat, T: set<nat>, l: Lock)
    requires Invariant(s) && Stuck(s, T, l) && Step(s, Go(i)).Some?
    ensures Stuck(Step(s, Go(i)).value, T, l)
  {
    hide RunOk, ContextOk, HasOk, CallOk, CallStep, MayNeed, HeldUp, CallFrame;
    var s' := Step(s, Go(i)).value;
    CallStepKeeps(i, s.calls[i], s.sh);
    CallKeepsNeeds(i, s.sh, s'.sh, l);
    forall o | o in T
      ensures Waits(s.calls, InThread(o)) ==> Waits(s'.calls, InThread(o))
      ensures o in s.sh.others.wants && OwnerIn(s.sh, s.sh.others.wants[o], T) ==>
        o in s'.sh.others.wants && OwnerIn(s'.sh, s'.sh.others.wants[o], T)
      ensures o in s.sh.others.wants && HeldUp(s.sh, T, s.sh.others.wants[o]) ==>
        o in s'.sh.others.wants && HeldUp(s'.sh, T, s'.sh.others.wants[o])
    {
      if Waits(s.calls, InThread(o)) { StillWaits(s, i, o, l); }
      if o in s.sh.others.wants {
        CallKeepsNeeds(i, s.sh, s'.sh, s.sh.others.wants[o]);
        CallKeepsHeldUp(i, s.sh, s'.sh, T, s.sh.others.wants[o]);
        SameWants(i, s.sh, s'.sh);
      }
    }
    SameWants(i, s.sh, s'.sh);
  }

  lemma SameWants(i: nat, s: Shared, s': Shared)
    requires CallFrame(i, s, s')
    ensures s'.others == s.others
  {}

  /** While the run task may need anything no call from another thread returns. */
  lemma StillWaits(s: State, i: nat, o: nat, l: Lock)
    requires Invariant(s) && Step(s, Go(i)).Some? && Waits(s.calls, InThread(o)) && MayNeed(s.sh, l)
    ensures Waits(Step(s, Go(i)).value.calls, InThread(o))
  {
    hide RunOk, ContextOk, CallOk, CallStep, MayNeed;
    var s' := Step(s, Go(i)).value;
    var j :| j in s.calls && s.calls[j].from == InThread(o) && !s.calls[j].pc.Returned?;
    if i == j { CallStaysStuck(i, s.calls[i], s.sh, l); }
    assert s'.calls[j].from == InThread(o) && !s'.calls[j].pc.Returned?;
  }

  /** A thread of T has no step. */
  lemma StuckStops(s: State, T: set<nat>, l: Lock, o: nat)
    requires OneWait(s) && Stuck(s, T, l) && o in T
    ensures !Running(s, o) && !Granted(s.sh, o)
  {
    hide Waits, MayNeed;
  }

  /** What the step of another thread changes of the owners. */
  lemma OthersKeepHeldUp(s: Shared, s': Shared, T: set<nat>, w: Lock)
    requires HeldUp(s, T, w) && s'.run == s.run && s'.inner == s.inner
    requires OwnerOf(s', w) == OwnerOf(s, w) && forall y | OwnerIn(s, y, T) :: OwnerIn(s', y, T)
    ensures HeldUp(s', T, w)
  {
    hide OwnerOf, OwnerIn, CallsOut;
  }

  /** A step after which the threads of T have and want what they did, and the run task has what it had. */
  lemma OthersStayStuck(s: State, s': State, T: set<nat>, x: Lock)
    requires Stuck(s, T, x) && s'.calls == s.calls && s'.sh.run == s.sh.run && s'.sh.inner == s.sh.inner
    requires forall o | o in T && o in s.sh.others.wants ::
      o in s'.sh.others.wants && s'.sh.others.wants[o] == s.sh.others.wants[o]
    requires forall y | OwnerIn(s.sh, y, T) :: OwnerIn(s'.sh, y, T)
    requires forall y | OwnerOf(s.sh, y) == ByRun :: OwnerOf(s'.sh, y) == ByRun
    ensures Stuck(s', T, x)
  {
    forall o | o in T && o in s.sh.others.wants && HeldUp(s.sh, T, s.sh.others.wants[o])
      ensures HeldUp(s'.sh, T, s.sh.others.wants[o])
    {
      OthersKeepHeldUp(s.sh, s'.sh, T, s.sh.others.wants[o]);
    }
    hide HeldUp, OwnerIn, Waits, RunMayNeed, OwnerOf;
  }

  lemma SeekStaysStuck(s: State, o: nat, l: Lock, T: set<nat>, x: Lock)
    requires OneWait(s) && Stuck(s, T, x) && Step(s, Seek(o, l)).Some?
    ensures Stuck(Step(s, Seek(o, l)).value, T, x)
  {
    if o in T { StuckStops(s, T, x, o); }
    hide RunStep, CallStep, Waits, MayNeed, HeldUp, Stuck;
    OthersStayStuck(s, Step(s, Seek(o, l)).value, T, x);
  }

  lemma GrantStaysStuck(s: State, o: nat, T: set<nat>, x: Lock)
    requires OneWait(s) && HasOk(s.sh) && Stuck(s, T, x) && Step(s, Grant(o)).Some?
    ensures Stuck(Step(s, Grant(o)).value, T, x)
  {
    if o in T { StuckStops(s, T, x, o); }
    assert OwnerOf(s.sh, s.sh.others.wants[o]) == Free;
    hide RunStep, CallStep, Waits, MayNeed, HeldUp, Stuck, OwnerOf, Granted;
    OwnersOnly(s.sh, s.sh.others.wants - {o});
    TakenIs(s.sh.(others := s.sh.others.(wants := s.sh.others.wants - {o})), o, s.sh.others.wants[o]);
    hide Taken, HasOk;
    OthersStayStuck(s, Step(s, Grant(o)).value, T, x);
  }

  lemma GivenIs(s: Shared, l: Lock)
    requires OwnerOf(s, l).ByOther? && Context !in s.others.has
    ensures var s' := Given(s, l);
      && s' == s.(lock := s'.lock, others := s'.others) && s'.others.wants == s.others.wants
      && (forall x :: OwnerOf(s', x) == if x == l then Free else OwnerOf(s, x))
  {
    if l.Context? { return; }
    assert Given(s, l).others.has == s.others.has - {l};
  }

  lemma GiveStaysStuck(s: State, o: nat, l: Lock, T: set<nat>, x: Lock)
    requires OneWait(s) && HasOk(s.sh) && Stuck(s, T, x) && Step(s, Give(o, l)).Some?
    ensures Stuck(Step(s, Give(o, l)).value, T, x)
  {
    if o in T { StuckStops(s, T, x, o); }
    hide RunStep, CallStep, Waits, MayNeed, HeldUp, Stuck;
    GivenIs(s.sh, l);
    hide Given;
    OthersStayStuck(s, Step(s, Give(o, l)).value, T, x);
  }

  lemma StaysStuck(s: State, l: Label, T: set<nat>, x: Lock)
    requires Invariant(s) && Stuck(s, T, x) && Step(s, l).Some? && (l.RunOn? ==> x in l.choice.needs && !l.choice.go)
    ensures Stuck(Step(s, l).value, T, x)
  {
    assert OneWait(s) && HasOk(s.sh);
    hide Invariant, Stuck, OneWait, HasOk;
    match l
    case RunOn(choice) => RunStaysStuck(s, choice, T, x);
    case Go(i) => GoStaysStuck(s, i, T, x);
    case Invoke(i, from) => InvokeStaysStuck(s, i, from, T, x);
    case Seek(o, y) => SeekStaysStuck(s, o, y, T, x);
    case Grant(o) => GrantStaysStuck(s, o, T, x);
    case Give(o, y) => GiveStaysStuck(s, o, y, T, x);
  }

  lemma InvokeStaysStuck(s: State, i: nat, from: From, T: set<nat>, x: Lock)
    requires Stuck(s, T, x) && Step(s, Invoke(i, from)).Some?
    ensures Stuck(Step(s, Invoke(i, from)).value, T, x)
  {
    hide MayNeed, HeldUp, OwnerIn;
    var s' := Step(s, Invoke(i, from)).value;
    forall o | Waits(s.calls, InThread(o)) ensures Waits(s'.calls, InThread(o)) {
      var j :| j in s.calls && s.calls[j].from == InThread(o) && !s.calls[j].pc.Returned?;
      assert s'.calls[j] == s.calls[j];
    }
  }

  // ---------------------------------------------------------------- who keeps clear of it

  /** No other thread is about to get a lock. */
  predicate NoneGranted(s: Shared) { forall o | o in s.others.wants :: !Granted(s, o) }

  /** The run task calls its surroundings with the context's lock. */
  predicate CallsLocked(s: Shared) { s.lock == ByRun && (s.run.Pass? || s.run.Check?) }

  /** It comes to such a place from one pass over the sessions, or by taking the lock while it is free. */
  predicate NearCallsLocked(s: Shared) { (s.run.Pass? && s.lock == ByRun) || (s.run.LockPass? && s.lock == Free) }

  lemma LoopCallsLocked(s: Shared, s': Shared, go: bool)
    requires LoopStep(s, go) == Some(s') && CallsLocked(s')
    requires s.run.Setup? || s.run.Report? || s.run.LoopTop? || s.run.LockPass? || s.run.Pass?
      || s.run.Check? || s.run.Sleep? || s.run.Asleep? || s.run.Wake? || s.run.UnlockTop?
    ensures NearCallsLocked(s)
  {
    match s.run
    case Setup => return;
    case Report => return;
    case LoopTop => return;
    case LockPass => return;
    case Pass => return;
    case Check => return;
    case Sleep => return;
    case Asleep => return;
    case Wake => return;
    case _ =>
  }

  lemma ReconnectCallsLocked(s: Shared, s': Shared)
    requires RunFlags(s) && Up(s) && ReconnectStep(s) == Some(s') && StretchOf(s.run) == Reconnect
    ensures !CallsLocked(s')
  {
    match s.run
    case SetRec => return;
    case CheckRec => return;
    case BailClear => return;
    case UnlockRec => return;
    case Connecting => return;
    case ClearRec => return;
    case Relock => return;
    case Recheck => return;
    case _ =>
  }

  lemma ExitCallsLocked(s: Shared, s': Shared)
    requires ExitStep(s) == Some(s')
    requires s.run.Exit? || s.run.Mark? || s.run.Unmark? || s.run.RunTear? || s.run.Done? || s.run.Suspending?
    ensures !CallsLocked(s')
  {
    hide TearStep;
    match s.run
    case Exit => return;
    case Mark => return;
    case Unmark => return;
    case RunTear(_) => return;
    case Done => return;
    case _ =>
  }

  lemma OuterCallsLocked(s: Shared, go: bool)
    requires RunOk(s) && Up(s) && s.inner.None? && OuterStep(s, go).Some? && CallsLocked(OuterStep(s, go).value)
    ensures NearCallsLocked(s)
  {
    var s' := OuterStep(s, go).value;
    hide LoopStep, ReconnectStep, ExitStep, RunLocks, CallsLocked, NearCallsLocked;
    match StretchOf(s.run)
    case Looping => LoopCallsLocked(s, s', go);
    case Reconnect => ReconnectCallsLocked(s, s');
    case Ending => ExitCallsLocked(s, s');
    case Absent =>
  }

  lemma BackCallsLocked(s: Shared)
    requires RunOk(s) && ContextOk(s) && NearCallsLocked(Back(s))
    ensures (s.run.Pass? && s.lock == ByRun) || (s.lock == Free && s.context)
  {}

  /** Whoever waits for a lock that the run task comes to have could get it before. */
  predicate WasHeldUp(s: Shared, T: set<nat>, w: Lock) {
    HeldUp(s, T, w) || (OwnerOf(s, w) == Free && (w.Context? ==> s.context))
  }

  lemma OuterWasHeldUp(s: Shared, go: bool, T: set<nat>, w: Lock)
    requires RunOk(s) && ContextOk(s) && HasOk(s) && Up(s) && OuterStep(Back(s), go).Some?
    requires HeldUp(OuterStep(Back(s), go).value, T, w)
    ensures WasHeldUp(s, T, w)
  {
    var b, s' := Back(s), OuterStep(Back(s), go).value;
    BackKeeps(s);
    OuterKeeps(b, go);
    BackHas(s);
    BackUp(s);
    OuterLocks(b, s', w);
    BackCallsLocked(s);
    assert NearCallsLocked(b) by { OuterCallsLocked(b, go); }
    hide RunOk, ContextOk, HasOk, OuterStep, Back, RunFrame, SameOthers, Up;
  }

  /** Outside the calls of its surroundings the run task has no lock but the context's. */
  lemma OuterLocks(b: Shared, s': Shared, w: Lock)
    requires HasOk(b) && b.inner.None? && s'.others == b.others && RunLocks(s')
    requires OwnerOf(s', w) == ByRun && CallsOut(s'.run) && s'.inner.None?
    ensures w.Context? && CallsLocked(s')
  {}

  lemma InnerWasHeldUp(s: Shared, needs: seq<Lock>, T: set<nat>, w: Lock)
    requires RunFlags(s) && ContextOk(s) && CallsOut(s.run)
    requires InnerStep(s, needs).Some? && HeldUp(InnerStep(s, needs).value, T, w)
    ensures WasHeldUp(s, T, w)
  {
    var s' := InnerStep(s, needs).value;
    InnerSame(s, needs);
    InnerOwns(s, needs, w);
    InnerTodo(s, needs);
    CallsOutContext(s);
    forall y | OwnerIn(s', y, T) ensures OwnerIn(s, y, T) {}
    hide InnerStep, OwnerOf, OwnerIn, CallsOut, SameOthers, RunFlags, ContextOk;
  }

  lemma CallsOutContext(s: Shared)
    requires RunFlags(s) && ContextOk(s) && CallsOut(s.run)
    ensures s.context
  {}

  lemma RunWasHeldUp(s: Shared, choice: Choice, T: set<nat>, w: Lock)
    requires RunOk(s) && ContextOk(s) && HasOk(s) && Up(s) && RunStep(s, choice).Some?
    requires HeldUp(RunStep(s, choice).value, T, w)
    ensures WasHeldUp(s, T, w)
  {
    if Inside(s) {
      InnerWasHeldUp(s, choice.needs, T, w);
    } else {
      OuterWasHeldUp(s, choice.go, T, w);
    }
    hide InnerStep, OuterStep, HeldUp;
  }

  lemma RunKeepsSafe(s: State, choice: Choice, T: set<nat>, l: Lock)
    requires Invariant(s) && Up(s.sh) && NoneGranted(s.sh) && Step(s, RunOn(choice)).Some?
    requires Stuck(Step(s, RunOn(choice)).value, T, l)
    ensures Stuck(s, T, l)
  {
    hide RunOk, ContextOk, HasOk, CallOk, RunStep, Waits, MayNeed, HeldUp;
    RunNeeds(s.sh, choice, l);
    RunStepKeeps(s.sh, choice);
    var sh := RunStep(s.sh, choice).value;
    forall o | o in T && o in s.sh.others.wants && HeldUp(sh, T, s.sh.others.wants[o])
      ensures HeldUp(s.sh, T, s.sh.others.wants[o])
    {
      RunWasHeldUp(s.sh, choice, T, s.sh.others.wants[o]);
      assert !Granted(s.sh, o);
    }
  }

  lemma GoKeepsSafe(s: State, i: nat, T: set<nat>, l: Lock)
    requires Invariant(s) && Step(s, Go(i)).Some? && Stuck(Step(s, Go(i)).value, T, l)
    ensures Stuck(s, T, l)
  {
    hide RunOk, ContextOk, HasOk, CallOk, CallStep, MayNeed, HeldUp, CallFrame;
    var s' := Step(s, Go(i)).value;
    CallStepKeeps(i, s.calls[i], s.sh);
    CallKeepsNeeds(i, s.sh, s'.sh, l);
    SameWants(i, s.sh, s'.sh);
    forall o | o in T
      ensures Waits(s'.calls, InThread(o)) ==> Waits(s.calls, InThread(o))
      ensures o in s.sh.others.wants && OwnerIn(s'.sh, s.sh.others.wants[o], T) ==> OwnerIn(s.sh, s.sh.others.wants[o], T)
      ensures o in s.sh.others.wants && HeldUp(s'.sh, T, s.sh.others.wants[o]) ==> HeldUp(s.sh, T, s.sh.others.wants[o])
    {
      if Waits(s'.calls, InThread(o)) { WaitsBefore(s, i, o); }
      if o in s.sh.others.wants {
        CallKeepsNeeds(i, s.sh, s'.sh, s.sh.others.wants[o]);
        CallKeepsHeldUp(i, s.sh, s'.sh, T, s.sh.others.wants[o]);
      }
    }
  }

  lemma GrantKeepsSafe(s: State, o: nat, T: set<nat>, l: Lock)
    requires OneWait(s) && HasOk(s.sh) && Step(s, Grant(o)).Some? && Stuck(Step(s, Grant(o)).value, T, l)
    ensures Stuck(s, T, l)
  {
    hide RunStep, CallStep, Waits, MayNeed, HeldUp;
    var s' := Step(s, Grant(o)).value;
    TakenIs(s.sh.(others := s.sh.others.(wants := s.sh.others.wants - {o})), o, s.sh.others.wants[o]);
    hide Taken;
    assert o !in T;
    hide Stuck;
    OthersStayStuck(s', s, T, l);
  }

  lemma GiveKeepsSafe(s: State, o: nat, x: Lock, T: set<nat>, l: Lock)
    requires OneWait(s) && HasOk(s.sh) && Step(s, Give(o, x)).Some? && Stuck(Step(s, Give(o, x)).value, T, l)
    ensures Stuck(s, T, l)
  {
    hide RunStep, CallStep, Waits, MayNeed, HeldUp, Stuck;
    var s' := Step(s, Give(o, x)).value;
    GivenIs(s.sh, x);
    hide Given;
    OthersStayStuck(s', s, T, l);
  }

  /** What brings the end nearer does not make a state hang: the run task moves only where no other thread
      can have the lock it waits for. */
  lemma StaysSafe(s: State, l: Label)
    requires Invariant(s) && !Hung(s) && Step(s, l).Some?
    requires l.Go? || l.Grant? || l.Give? || (l.RunOn? && Up(s.sh) && NoneGranted(s.sh))
    ensures !Hung(Step(s, l).value)
  {
    if Hung(Step(s, l).value) {
      var T, x :| Stuck(Step(s, l).value, T, x);
      assert OneWait(s) && HasOk(s.sh);
      hide Invariant, Stuck, OneWait, HasOk, Step;
      match l
      case RunOn(choice) => RunKeepsSafe(s, choice, T, x);
      case Go(i) => GoKeepsSafe(s, i, T, x);
      case Grant(o) => GrantKeepsSafe(s, o, T, x);
      case Give(o, y) => GiveKeepsSafe(s, o, y, T, x);
    }
  }

  // ---------------------------------------------------------------- every other state comes to an end

  /** No run task is left and every terminate call has returned. */
  predicate Settled(s: State) { Gone(s.sh.run) && forall i | i in s.calls :: s.calls[i].pc.Returned? }

  /** The flag is up, or some call is still to see to that. */
  predicate Asked(s: State) { Up(s.sh) || exists i | i in s.calls :: !s.calls[i].pc.Returned? }

  /** How far a call is from returning, if it waits only for an awake run task to be done. */
  function CallRank(t: CallPc, asleep: bool): nat {
    match t
    case Called => 40 case Lock1 => 39 case Reap1 => 38 case Decide => 37 case UnlockAlive => 36 case Lock2 => 35
    case Raise => 34 case Abort => 33 case Unlock2 => 32 case UnlockWake(woken) => if asleep && !woken then 31 else 11
    case Wait(woken) => if asleep && !woken then 30 else 10 case LockWake => 29 case TryWake => 28 case WakeHeld => 27
    case Broadcast => 26 case UnlockOwn => 31 case CallTear(d) => 15 + TearRank(d) case LockOwn => 14
    case ClearBusy => 13 case UnlockBusy => 12 case Lock3 => 4 case Reap3 => 3 case Unlock3 => 2 case Refuse => 1
    case Returned => 0
  }

  function Ranking(asleep: bool): Call -> nat { (c: Call) => CallRank(c.pc, asleep) }

  /** How much other threads have in their hands, or ask for. */
  function HeldByOthers(s: Shared): nat { 2 * |s.others.wants| + |s.others.has| + if s.lock.ByOther? then 1 else 0 }

  /** How much the calls and the other threads have left to do. */
  ghost function Load(s: State): nat { Sum(s.calls, Ranking(s.sh.run.Asleep?)) + HeldByOthers(s.sh) }

  /** Nearer to its end by what the run task has left, then by the locks its surroundings take, then by the rest. */
  ghost predicate Nearer(s': State, s: State) {
    || Left(s'.sh) < Left(s.sh)
    || (Left(s'.sh) == Left(s.sh) && (Todo(s'.sh) < Todo(s.sh) || (Todo(s'.sh) == Todo(s.sh) && Load(s') < Load(s))))
  }

  /** The next step of the call is possible and of use. */
  predicate Ready(from: From, t: CallPc, s: Shared) {
    match t
    case Returned => false
    case Lock1 => s.g.Free? case Lock2 => s.g.Free? case LockWake => s.g.Free? case Lock3 => s.g.Free? case LockOwn => s.g.Free?
    case Reap1 => !s.run.Suspending? case Reap3 => !s.run.Suspending?
    case Wait(woken) => s.done || (!woken && s.run.Asleep?)
    case TryWake => s.run.Asleep? ==> Lockable(s, from)
    case CallTear(d) => !TearStep(d, Free, from, s).Held?
    case _ => true
  }

  /** What a step of a call is of use for. */
  predicate Useful(t: CallPc, s: Shared, m: CallMove) {
    && m.To? && (Up(s) ==> Up(m.sh)) && (Up(m.sh) || !m.pc.Returned?)
    && (Left(m.sh) < Left(s) || (m.sh.run == s.run && m.sh.inner == s.inner && Left(m.sh) == Left(s)
                                 && CallRank(m.pc, s.run.Asleep?) < CallRank(t, s.run.Asleep?)))
  }

  lemma OpeningUseful(i: nat, from: From, t: CallPc, s: Shared)
    requires RunOk(s) && ContextOk(s) && CallOk(i, Call(from, t), s) && Ready(from, t, s) && PartOf(t) == Opening
    ensures Useful(t, s, OpeningStep(i, from, t, s))
  {
    hide Rank, RunLocks, ContextOk, CallLocks, FromOk;
    match t
    case Called => return;
    case Lock1 => return;
    case Reap1 => return;
    case Decide => return;
    case _ =>
  }

  lemma RaisingUseful(i: nat, from: From, t: CallPc, s: Shared)
    requires RunOk(s) && ContextOk(s) && CallOk(i, Call(from, t), s) && Ready(from, t, s) && PartOf(t) == Raising
    ensures Useful(t, s, RaisingStep(i, from, t, s))
  {
    RankBound(s.run);
    hide Rank, RunLocks, ContextOk, CallLocks, FromOk;
    match t
    case UnlockAlive => return;
    case Lock2 => return;
    case Raise => return;
    case Abort => return;
    case _ =>
  }

  lemma WakingUseful(i: nat, from: From, t: CallPc, s: Shared)
    requires RunOk(s) && ContextOk(s) && CallOk(i, Call(from, t), s) && Ready(from, t, s) && PartOf(t) == Waking
    ensures Useful(t, s, WakingStep(i, from, t, s))
  {
    if t.Broadcast? || t.WakeHeld? { HeldUseful(i, from, t, s); } else { PollUseful(i, from, t, s); }
    hide RunOk, ContextOk, CallOk, Ready, Useful, WakingStep;
  }

  lemma HeldUseful(i: nat, from: From, t: CallPc, s: Shared)
    requires RunOk(s) && ContextOk(s) && CallOk(i, Call(from, t), s) && (t.WakeHeld? || t.Broadcast?)
    ensures Useful(t, s, WakingStep(i, from, t, s))
  {
    hide RunLocks, ContextOk, CallLocks, FromOk;
    if t.WakeHeld? { hide Rank; return; }
  }

  lemma PollUseful(i: nat, from: From, t: CallPc, s: Shared)
    requires RunOk(s) && CallOk(i, Call(from, t), s) && Ready(from, t, s)
    requires t.Wait? || t.LockWake? || t.TryWake? || t.UnlockWake?
    ensures Useful(t, s, WakingStep(i, from, t, s))
  {
    hide RunLocks, CallLocks, FromOk, Rank;
    match t
    case Wait(_) => return;
    case LockWake => return;
    case TryWake => return;
    case _ =>
  }

  lemma ClosingUseful(i: nat, from: From, t: CallPc, s: Shared)
    requires RunOk(s) && ContextOk(s) && CallOk(i, Call(from, t), s) && Ready(from, t, s) && PartOf(t) == Closing
    ensures Useful(t, s, ClosingStep(i, from, t, s))
  {
    hide Rank, RunLocks, ContextOk, CallLocks, FromOk;
    match t
    case Lock3 => return;
    case Reap3 => return;
    case Unlock3 => return;
    case _ =>
  }

  /** Whether a teardown goes on does not depend on who does it, but for the thread. */
  lemma HeldOrNot(d: Tear, who: Owner, who': Owner, from: From, s: Shared)
    ensures TearStep(d, who, from, s).Held? <==> TearStep(d, who', from, s).Held?
  {}

  lemma OwnUseful(i: nat, from: From, t: CallPc, s: Shared)
    requires RunOk(s) && ContextOk(s) && CallOk(i, Call(from, t), s) && Ready(from, t, s) && PartOf(t) == Own
    ensures Useful(t, s, OwnStep(i, from, t, s))
  {
    hide Rank, RunLocks, ContextOk, CallLocks, FromOk;
    match t
    case UnlockOwn => return;
    case CallTear(d) =>
      HeldOrNot(d, ByCall(i), Free, from, s);
      TearIs(d, ByCall(i), from, s);
      TearNearer(d, ByCall(i), from, s);
      hide TearStep, TearRank;
      return;
    case LockOwn => return;
    case ClearBusy => return;
    case _ =>
  }

  lemma ReadyIsUseful(i: nat, c: Call, s: Shared)
    requires RunOk(s) && ContextOk(s) && CallOk(i, c, s) && Ready(c.from, c.pc, s)
    ensures Useful(c.pc, s, CallStep(i, c, s))
  {
    hide RunOk, ContextOk, CallOk, Ready, Useful, OpeningStep, RaisingStep, WakingStep, ClosingStep, OwnStep;
    match PartOf(c.pc)
    case Opening => OpeningUseful(i, c.from, c.pc, s);
    case Raising => RaisingUseful(i, c.from, c.pc, s);
    case Waking => WakingUseful(i, c.from, c.pc, s);
    case Closing => ClosingUseful(i, c.from, c.pc, s);
    case Own => OwnUseful(i, c.from, c.pc, s);
  }

  /** The step leads on to the end: one of the run task as its surroundings choose, of a call, or of
      another thread that gets a lock or gives it back. */
  ghost predicate LeadsOn(s: State, l: Label, choice: Choice) {
    && (l == RunOn(choice) || l.Go? || l.Grant? || l.Give?) && (l.RunOn? ==> Up(s.sh) && NoneGranted(s.sh))
    && Step(s, l).Some? && Nearer(Step(s, l).value, s) && Asked(Step(s, l).value)
  }

  lemma GoLeadsOn(s: State, i: nat, choice: Choice)
    requires Invariant(s) && i in s.calls && Ready(s.calls[i].from, s.calls[i].pc, s.sh)
    ensures LeadsOn(s, Go(i), choice)
  {
    hide RunOk, ContextOk, HasOk, CallOk, CallStep, Ready, Left, CallRank, Up, AloneOk, OneWait;
    var c, m := s.calls[i], CallStep(i, s.calls[i], s.sh);
    ReadyIsUseful(i, c, s.sh);
    CallStepKeeps(i, c, s.sh);
    var s' := Step(s, Go(i)).value;
    SumAfter(s.calls, i, c.(pc := m.pc), Ranking(s.sh.run.Asleep?));
    assert s'.calls[i].pc == m.pc;
    CallKeepsHeld(i, s.sh, s'.sh);
    hide CallFrame, HeldByOthers;
  }

  lemma CallKeepsHeld(i: nat, s: Shared, s': Shared)
    requires CallFrame(i, s, s')
    ensures HeldByOthers(s') == HeldByOthers(s)
  {}

  /** A step of another thread that leaves fewer locks in the hands of others, or asked for, leads on. */
  lemma FewerLeadOn(s: State, l: Label, choice: Choice)
    requires (l.Grant? || l.Give?) && Step(s, l).Some? && Asked(s)
    requires var s' := Step(s, l).value;
      s'.calls == s.calls && OthersFrame(s.sh, s'.sh) && HeldByOthers(s'.sh) < HeldByOthers(s.sh)
    ensures LeadsOn(s, l, choice)
  {
    hide CallRank, Rank, Step, HeldByOthers, NoneGranted;
  }

  lemma GrantLeadsOn(s: State, o: nat, choice: Choice)
    requires Granted(s.sh, o) && HasOk(s.sh) && Asked(s)
    ensures LeadsOn(s, Grant(o), choice)
  {
    GrantLowers(s.sh, o);
    hide HeldByOthers, HasOk, Asked, LeadsOn, RunStep, CallStep;
    FewerLeadOn(s, Grant(o), choice);
  }

  lemma OneLess<K, V>(m: map<K, V>, k: K)
    requires k in m
    ensures |m - {k}| == |m| - 1
  {
    assert m.Keys == (m - {k}).Keys + {k};
  }

  lemma OneMore<K, V>(m: map<K, V>, k: K, v: V)
    requires k !in m
    ensures |m[k := v]| == |m| + 1
  {
    assert m[k := v].Keys == m.Keys + {k};
  }

  lemma GrantLowers(s: Shared, o: nat)
    requires Granted(s, o) && HasOk(s)
    ensures var s' := Taken(s.(others := s.others.(wants := s.others.wants - {o})), o, s.others.wants[o]);
      HeldByOthers(s') < HeldByOthers(s)
  {
    var l := s.others.wants[o];
    OneLess(s.others.wants, o);
    TakenAdds(s.(others := s.others.(wants := s.others.wants - {o})), o, l);
    hide OwnerOf, HasOk, Taken;
  }

  lemma TakenAdds(s: Shared, o: nat, l: Lock)
    requires OwnerOf(s, l) == Free && HasOk(s)
    ensures HeldByOthers(Taken(s, o, l)) == HeldByOthers(s) + 1
  {
    if l.Context? { return; }
    OneMore(s.others.has, l, ByOther(o));
  }

  lemma GiveLowers(s: Shared, l: Lock)
    requires OwnerOf(s, l).ByOther?
    ensures HeldByOthers(Given(s, l)) < HeldByOthers(s)
  {
    if !l.Context? { OneLess(s.others.has, l); }
  }

  lemma GiveLeadsOn(s: State, o: nat, l: Lock, choice: Choice)
    requires Running(s, o) && OwnerOf(s.sh, l) == ByOther(o) && Asked(s)
    ensures LeadsOn(s, Give(o, l), choice)
  {
    GiveLowers(s.sh, l);
    hide HeldByOthers, Asked, LeadsOn, RunStep, CallStep, Waits;
    FewerLeadOn(s, Give(o, l), choice);
  }

  lemma RunLeadsOn(s: State, choice: Choice)
    requires Invariant(s) && Up(s.sh) && NoneGranted(s.sh) && !Waits(s.calls, OnRun) && RunStep(s.sh, choice).Some?
    ensures LeadsOn(s, RunOn(choice), choice)
  {
    hide RunOk, ContextOk, HasOk, CallOk, RunStep, Left, Todo, Load, Up, AloneOk, OneWait, NoneGranted;
    RunNearsEnd(s.sh, choice);
  }

  /** No other thread can get a lock or give one back. */
  ghost predicate Tied(s: State) {
    NoneGranted(s.sh) && forall l :: OwnerOf(s.sh, l).ByOther? ==> !Running(s, OwnerOf(s.sh, l).o)
  }

  lemma OthersLeadOn(s: State, choice: Choice) returns (l: Label)
    requires Invariant(s) && Asked(s) && !Tied(s)
    ensures LeadsOn(s, l, choice)
  {
    hide RunOk, ContextOk, HasOk, CallOk, AloneOk, OneWait, Asked, LeadsOn, Granted, Running, Step, OwnerOf;
    if o :| o in s.sh.others.wants && Granted(s.sh, o) {
      GrantLeadsOn(s, o, choice);
      return Grant(o);
    }
    var x :| OwnerOf(s.sh, x).ByOther? && Running(s, OwnerOf(s.sh, x).o);
    GiveLeadsOn(s, OwnerOf(s.sh, x).o, x, choice);
    return Give(OwnerOf(s.sh, x).o, x);
  }

  /** The other threads that have a lock. */
  function Holders(s: Shared): set<nat> {
    (set l | l in s.others.has && s.others.has[l].ByOther? :: s.others.has[l].o) + if s.lock.ByOther? then {s.lock.o} else {}
  }

  lemma HoldersIn(s: Shared, l: Lock)
    requires OwnerOf(s, l).ByOther?
    ensures OwnerIn(s, l, Holders(s))
  {}

  lemma HoldersHave(s: Shared, o: nat) returns (l: Lock)
    requires o in Holders(s) && HasOk(s)
    ensures OwnerOf(s, l) == ByOther(o)
  {
    if s.lock == ByOther(o) { return Context; }
    l :| l in s.others.has && s.others.has[l] == ByOther(o);
  }

  /** The run task has no lock, or waits in a call of its surroundings for one that another thread has. */
  predicate RunBlocked(s: Shared) {
    || (s.lock != ByRun && s.inner.None?)
    || (CallsOut(s.run) && s.inner.Some? && s.inner.value.todo != [] && OwnerOf(s, s.inner.value.todo[0]).ByOther?)
  }

  /** ... and then holds up whoever waits for a lock of its own. */
  lemma BlockedHoldsUp(s: Shared, w: Lock)
    requires RunBlocked(s) && HasOk(s) && OwnerOf(s, w) == ByRun
    ensures HeldUp(s, Holders(s), w)
  {
    HoldersIn(s, s.inner.value.todo[0]);
  }

  lemma WantsBlocked(s: Shared, o: nat)
    requires RunBlocked(s) && HasOk(s) && s.context && !s.lock.ByCall? && o in s.others.wants && !Granted(s, o)
    ensures OwnerIn(s, s.others.wants[o], Holders(s)) || HeldUp(s, Holders(s), s.others.wants[o])
  {
    var w := s.others.wants[o];
    if OwnerOf(s, w).ByOther? { HoldersIn(s, w); }
    if OwnerOf(s, w).ByRun? { BlockedHoldsUp(s, w); }
  }

  /** If nobody else can go on and the run task may need what another thread has, the state hangs. */
  lemma TiedHangs(s: State, l: Lock)
    requires HasOk(s.sh) && Tied(s) && MayNeed(s.sh, l) && OwnerOf(s.sh, l).ByOther?
    requires !s.sh.lock.ByCall? && RunBlocked(s.sh) && s.sh.context
    ensures Hung(s)
  {
    var T := Holders(s.sh);
    HoldersIn(s.sh, l);
    hide Waits, HasOk, MayNeed, HeldUp, RunBlocked, Holders, OwnerIn, Granted;
    forall o | o in T
      ensures Waits(s.calls, InThread(o)) || (o in s.sh.others.wants &&
        (OwnerIn(s.sh, s.sh.others.wants[o], T) || HeldUp(s.sh, T, s.sh.others.wants[o])))
    {
      var x := HoldersHave(s.sh, o);
      assert !Running(s, o);
      if !Waits(s.calls, InThread(o)) { WantsBlocked(s.sh, o); }
    }
    hide OwnerOf;
    assert Stuck(s, T, l);
  }

  /** A call that has the context's lock has gRunTaskLock as well, or tears down. */
  lemma LockHolder(s: State)
    requires Invariant(s)
    ensures s.sh.lock.ByCall? ==> var t := s.calls[s.sh.lock.i].pc;
      (t.WakeHeld? && s.sh.g == s.sh.lock) || (t.CallTear? && TearHolds(t.d) && s.sh.busy == s.sh.lock && !s.sh.handle)
  {
    if s.sh.lock.ByCall? { assert CallOk(s.sh.lock.i, s.calls[s.sh.lock.i], s.sh); }
  }

  /** Where the loop sleeps the context's lock can be tried: nobody has it for good. */
  lemma TrySucceeds(s: State, i: nat)
    requires Invariant(s) && Tied(s) && !Hung(s) && s.sh.run.Asleep?
    requires s.sh.g == ByCall(i) && s.calls[i].pc.TryWake?
    ensures Lockable(s.sh, s.calls[i].from)
  {
    LockHolder(s);
    if s.sh.lock.ByOther? { TiedHangs(s, Context); }
  }

  /** Whoever holds gRunTaskLock gives it back, because it only tries the context's lock. */
  lemma HolderLeadsOn(s: State, choice: Choice) returns (l: Label)
    requires Invariant(s) && Tied(s) && s.sh.g.ByCall? && !s.sh.run.Suspending? && !Hung(s)
    ensures LeadsOn(s, l, choice)
  {
    var i := s.sh.g.i;
    var c := s.calls[i];
    hide LeadsOn, Hung, Tied;
    assert CallOk(i, c, s.sh);
    if c.pc.TryWake? && s.sh.run.Asleep? { TrySucceeds(s, i); }
    HolderReady(c, s.sh);
    GoLeadsOn(s, i, choice);
    return Go(i);
  }

  lemma HolderReady(c: Call, s: Shared)
    requires CallHoldsG(c.pc) && !s.run.Suspending? && (c.pc.TryWake? && s.run.Asleep? ==> Lockable(s, c.from))
    ensures Ready(c.from, c.pc, s)
  {}

  /** With gRunTaskLock free a call that is neither polling nor tearing down can go on. */
  lemma CallReady(i: nat, c: Call, s: Shared)
    requires RunOk(s) && CallOk(i, c, s) && s.g.Free? && !c.pc.Returned? && !c.pc.CallTear?
    requires c.pc.Wait? ==> s.done || (c.pc == Wait(false) && s.run.Asleep?)
    ensures Ready(c.from, c.pc, s)
  {}

  lemma CallLeadsOn(s: State, i: nat, choice: Choice)
    requires Invariant(s) && s.sh.g.Free? && i in s.calls && !s.calls[i].pc.Returned? && !s.calls[i].pc.CallTear?
    requires s.calls[i].pc.Wait? ==> s.sh.done || (s.calls[i].pc == Wait(false) && s.sh.run.Asleep?)
    ensures LeadsOn(s, Go(i), choice)
  {
    hide RunOk, CallOk, Ready, LeadsOn, Step;
    assert CallOk(i, s.calls[i], s.sh);
    CallReady(i, s.calls[i], s.sh);
    GoLeadsOn(s, i, choice);
  }

  /** A call that knows of no flag yet is not waiting. */
  lemma UnraisedCall(i: nat, c: Call, s: Shared)
    requires RunOk(s) && CallOk(i, c, s) && !Up(s)
    ensures !c.pc.Wait? && !c.pc.CallTear?
  {}

  lemma NestedInRun(i: nat, c: Call, s: Shared)
    requires CallOk(i, c, s) && c.from.OnRun? && !c.pc.Returned?
    ensures !c.pc.Wait? && !c.pc.CallTear? && !s.run.Suspending? && !RunHoldsG(s.run)
  {}

  lemma RousingCall(i: nat, c: Call, s: Shared)
    requires RunOk(s) && CallOk(i, c, s) && Rouses(c.pc)
    ensures !c.pc.Returned? && !c.pc.CallTear? && (c.pc.Wait? ==> c.pc == Wait(false))
  {}

  /** Inside a call of its surroundings the run task waits only for the next lock. */
  lemma InnerWaits(s: Shared, needs: seq<Lock>)
    requires Inside(s) && InnerStep(s, needs).None?
    ensures s.inner.Some? && s.inner.value.todo != []
    ensures OwnerOf(s, s.inner.value.todo[0]) != Free && OwnerOf(s, s.inner.value.todo[0]) != ByRun
  {}

  lemma InnerMayNeed(s: Shared)
    requires Inside(s) && s.inner.Some?
    ensures MayNeed(s, s.inner.value.todo[0])
  {}

  /** Elsewhere it has no lock, and waits for the context's or the list's. */
  lemma OuterWaits(s: Shared, go: bool) returns (l: Lock)
    requires RunOk(s) && ContextOk(s) && HasOk(s) && OuterStep(s, go).None? && s.inner.None?
    requires s.g.Free? && !Gone(s.run) && !s.run.Asleep?
    ensures MayNeed(s, l) && !OwnerOf(s, l).Free? && s.lock != ByRun && !OwnerOf(s, l).ByRun? && s.context
  {
    l := if s.run.RunTear? && (s.run.d.Detach? || s.run.d.DetachAgain?) then List else Context;
    match s.run
    case LockPass => return;
    case Wake => return;
    case Relock => return;
    case Exit => return;
    case RunTear(_) => return;
    case _ =>
  }

  /** A call of its surroundings that is through with its locks can end. */
  lemma OuterReady(s: Shared, go: bool)
    requires CallsOut(s.run)
    ensures OuterStep(Back(s), go).Some?
  {
    assert Back(s).run == s.run by { hide OwnerOf; }
    OutReady(Back(s), go);
    hide OuterStep, Back;
  }

  lemma OutReady(s: Shared, go: bool)
    requires CallsOut(s.run)
    ensures OuterStep(s, go).Some?
  {
    match s.run
    case Setup => return;
    case Report => return;
    case Pass => return;
    case Check => return;
    case Connecting => return;
    case RunTear(_) => return;
    case _ =>
  }

  /** Where the run task does not go on it waits for a lock that it may need. */
  lemma RunWaits(s: Shared, choice: Choice) returns (l: Lock)
    requires RunOk(s) && ContextOk(s) && HasOk(s) && RunStep(s, choice).None? && s.g.Free? && !Gone(s.run) && !s.run.Asleep?
    ensures MayNeed(s, l) && !OwnerOf(s, l).Free? && !OwnerOf(s, l).ByRun? && s.context
    ensures OwnerOf(s, l).ByOther? ==> RunBlocked(s)
  {
    if Inside(s) {
      InnerWaits(s, choice.needs);
      InnerMayNeed(s);
      CallsOutContext(s);
      hide InnerStep, OuterStep, MayNeed, OwnerOf, RunOk, ContextOk, HasOk;
      return s.inner.value.todo[0];
    }
    if CallsOut(s.run) { OuterReady(s, choice.go); }
    assert s.inner.None? && Back(s) == s;
    l := OuterWaits(s, choice.go);
    hide OuterStep, MayNeed, OwnerOf, ContextOk, HasOk;
  }

  lemma CallHasLock(s: Shared, l: Lock)
    requires HasOk(s) && OwnerOf(s, l) != Free && OwnerOf(s, l) != ByRun && !OwnerOf(s, l).ByOther?
    ensures s.lock.ByCall?
  {}

  lemma RunGoesOn(s: State, choice: Choice)
    requires Invariant(s) && Tied(s) && !Hung(s) && s.sh.g.Free? && !Gone(s.sh.run) && !s.sh.run.Asleep?
    ensures RunStep(s.sh, choice).Some?
  {
    if RunStep(s.sh, choice).None? {
      var l := RunWaits(s.sh, choice);
      LockHolder(s);
      assert !s.sh.lock.ByCall?;
      hide RunStep, MayNeed, Tied, Hung, RunBlocked, RunOk, ContextOk, CallOk;
      if !OwnerOf(s.sh, l).ByOther? { CallHasLock(s.sh, l); }
      TiedHangs(s, l);
    }
  }

  /** Without a run task a call that tears down can go on. */
  lemma TearingReady(s: State, i: nat)
    requires Invariant(s) && Tied(s) && Gone(s.sh.run) && i in s.calls && s.calls[i].pc.CallTear?
    ensures Ready(s.calls[i].from, s.calls[i].pc, s.sh)
  {
    assert CallOk(i, s.calls[i], s.sh);
    LockHolder(s);
    assert OwnerOf(s.sh, Context) == s.sh.lock;
    ListHolder(s.sh);
  }

  lemma ListHolder(s: Shared)
    requires HasOk(s) && s.inner.None?
    ensures OwnerOf(s, List).Free? || OwnerOf(s, List).ByOther?
  {}

  lemma AloneLeadsOn(s: State, i: nat, choice: Choice)
    requires Invariant(s) && Tied(s) && s.sh.g.Free? && Gone(s.sh.run) && i in s.calls && !s.calls[i].pc.Returned?
    ensures LeadsOn(s, Go(i), choice)
  {
    hide LeadsOn, Step, Tied, Ready;
    assert CallOk(i, s.calls[i], s.sh);
    if s.calls[i].pc.CallTear? {
      TearingReady(s, i);
      GoLeadsOn(s, i, choice);
    } else {
      CallLeadsOn(s, i, choice);
    }
  }

  /** In a state that does not hang some step leads on, whatever the surroundings choose. */
  lemma SomeStepLeadsOn(s: State, choice: Choice) returns (l: Label)
    requires Invariant(s) && Roused(s) && Asked(s) && !Hung(s) && !Settled(s)
    ensures LeadsOn(s, l, choice)
  {
    hide LeadsOn, Step, RunStep, ContextOk, Tied, Hung;
    if !Tied(s) {
      l := OthersLeadOn(s, choice);
      return;
    }
    if Up(s.sh) && !Waits(s.calls, OnRun) && RunStep(s.sh, choice).Some? {
      TiedIs(s);
      RunLeadsOn(s, choice);
      return RunOn(choice);
    }
    RestMoves(s, choice);
    if s.sh.g.ByCall? {
      l := HolderLeadsOn(s, choice);
    } else if !Up(s.sh) {
      var i :| i in s.calls && !s.calls[i].pc.Returned?;
      UnraisedCall(i, s.calls[i], s.sh);
      CallLeadsOn(s, i, choice);
      l := Go(i);
    } else if Waits(s.calls, OnRun) {
      var i :| i in s.calls && s.calls[i].from == OnRun && !s.calls[i].pc.Returned?;
      NestedInRun(i, s.calls[i], s.sh);
      CallLeadsOn(s, i, choice);
      l := Go(i);
    } else if Gone(s.sh.run) {
      var i :| i in s.calls && !s.calls[i].pc.Returned?;
      AloneLeadsOn(s, i, choice);
      l := Go(i);
    } else {
      SleeperWaits(s, choice);
      var i :| i in s.calls && Rouses(s.calls[i].pc);
      RousingCall(i, s.calls[i], s.sh);
      CallLeadsOn(s, i, choice);
      l := Go(i);
    }
  }

  lemma TiedIs(s: State)
    requires Tied(s)
    ensures NoneGranted(s.sh)
  {}

  /** The only thing the run task then waits for is a broadcast. */
  lemma SleeperWaits(s: State, choice: Choice)
    requires Invariant(s) && Tied(s) && !Hung(s) && s.sh.g.Free? && !Gone(s.sh.run) && Up(s.sh) && RunStep(s.sh, choice).None?
    ensures s.sh.run.Asleep? && s.sh.term
  {
    hide RunStep, Tied, Hung;
    if !s.sh.run.Asleep? { RunGoesOn(s, choice); }
  }

  /** Where the run task cannot go on, it does not hold gRunTaskLock and is not about to park. */
  lemma RestMoves(s: State, choice: Choice)
    requires Invariant(s) && !(Up(s.sh) && !Waits(s.calls, OnRun) && RunStep(s.sh, choice).Some?)
    ensures !s.sh.run.Suspending? && !s.sh.g.ByRun? && !s.sh.g.ByOther?
  {
    hide ContextOk;
    if Waits(s.calls, OnRun) {
      var i :| i in s.calls && s.calls[i].from == OnRun && !s.calls[i].pc.Returned?;
      NestedInRun(i, s.calls[i], s.sh);
    }
  }

  /** The surroundings of the run task choose so. */
  ghost predicate Follows(labels: seq<Label>, choices: nat -> Choice) {
    forall k | 0 <= k < |labels| && labels[k].RunOn? :: labels[k].choice == choices(k)
  }

  function Later(choices: nat -> Choice): nat -> Choice { (k: nat) => choices(k + 1) }

  /** Some continuation gets rid of the run task and returns every call, if its surroundings choose so. */
  ghost predicate CanSettle(s: State, choices: nat -> Choice) {
    exists states, labels ::
      IsPath(states, labels) && states[0] == s && Settled(states[|labels|]) && Follows(labels, choices)
  }

  /** From every such state, by steps that the run task, the calls and the other threads can take, with no
      other call made and no lock asked for, and whatever the surroundings of the run task choose: if they
      never choose to, not even the cleanup loop's period ends. */
  lemma Settles(s: State, choices: nat -> Choice) returns (states: seq<State>, labels: seq<Label>)
    requires Invariant(s) && Roused(s) && Asked(s) && !Hung(s)
    ensures IsPath(states, labels) && states[0] == s && Settled(states[|labels|]) && Follows(labels, choices)
    ensures forall l | l in labels :: l.RunOn? || l.Go? || l.Grant? || l.Give?
    decreases Left(s.sh), Todo(s.sh), Load(s)
  {
    hide Invariant, Roused, Asked, Hung, Step, Left, Todo, Load, NoneGranted, Up;
    if Settled(s) {
      return [s], [];
    }
    hide Settled;
    var l := SomeStepLeadsOn(s, choices(0));
    var s' := Step(s, l).value;
    StepKeeps(s, l);
    StepKeepsRoused(s, l);
    StaysSafe(s, l);
    var states', labels' := Settles(s', Later(choices));
    states, labels := [s] + states', [l] + labels';
    forall k | 0 <= k < |labels|
      ensures Step(states[k], labels[k]) == Some(states[k + 1])
      ensures labels[k].RunOn? ==> labels[k].choice == choices(k)
    {
      if k > 0 { assert labels[k] == labels'[k - 1] && Step(states'[k - 1], labels'[k - 1]) == Some(states'[k]); }
    }
  }

  /** The end can be reached whatever the surroundings of the run task choose. */
  ghost predicate AlwaysSettles(s: State) { forall choices: nat -> Choice :: CanSettle(s, choices) }

  lemma {:induction false} PathStaysStuck(states: seq<State>, labels: seq<Label>, T: set<nat>, l: Lock, k: nat)
    requires IsPath(states, labels) && Invariant(states[0]) && Stuck(states[0], T, l) && k < |states|
    requires forall m | 0 <= m < |labels| && labels[m].RunOn? :: l in labels[m].choice.needs && !labels[m].choice.go
    ensures Invariant(states[k]) && Stuck(states[k], T, l)
  {
    hide Step, Stuck, Invariant;
    if k > 0 {
      PathStaysStuck(states, labels, T, l, k - 1);
      assert Step(states[k - 1], labels[k - 1]) == Some(states[k]);
      StepKeeps(states[k - 1], labels[k - 1]);
      StaysStuck(states[k - 1], labels[k - 1], T, l);
    }
  }

  /** Surroundings that take l wherever they are called. */
  function Always(l: Lock): nat -> Choice { (k: nat) => Choice(false, [l]) }

  lemma StuckNeverSettles(s: State, T: set<nat>, l: Lock)
    requires Invariant(s) && Stuck(s, T, l)
    ensures !CanSettle(s, Always(l))
  {
    if CanSettle(s, Always(l)) {
      var states, labels :| IsPath(states, labels) && states[0] == s && Settled(states[|labels|]) && Follows(labels, Always(l));
      hide Invariant, IsPath;
      PathStaysStuck(states, labels, T, l, |labels|);
    }
  }

  /** In every run, once termination has been asked for: whatever the surroundings of the run task choose,
      it can be brought to its end and every terminate call to its return, if and only if there are no
      threads that are stuck with it. */
  lemma SettlesIfAndOnlyIf(states: seq<State>, labels: seq<Label>, k: nat)
    requires IsRun(states, labels) && k < |states| && Asked(states[k])
    ensures AlwaysSettles(states[k]) <==> !Hung(states[k])
  {
    RunKeepsInvariant(states, labels, k);
    RunRouses(states, labels, k);
    hide Invariant, Roused, Asked, IsRun, IsPath, Follows, Stuck, Settled;
    var s := states[k];
    if T, l :| Stuck(s, T, l) {
      StuckNeverSettles(s, T, l);
    } else {
      forall choices: nat -> Choice ensures CanSettle(s, choices) {
        var path, steps := Settles(s, choices);
      }
    }
  }

  // ---------------------------------------------------------------- what a caller can check

  /** A thread off the run task calls with lock x in its hands. */
  predicate CallsHolding(s: State, l: Label, x: Lock) {
    l.Invoke? && l.from.InThread? && OwnerOf(s.sh, x) == ByOther(l.from.o)
  }

  /** Thread o has lock x and waits for a terminate call. */
  predicate WaitsHolding(s: State, o: nat, x: Lock) { Waits(s.calls, InThread(o)) && OwnerOf(s.sh, x) == ByOther(o) }

  lemma WaitsHoldingHangs(s: State, o: nat, x: Lock)
    requires WaitsHolding(s, o, x) && MayNeed(s.sh, x)
    ensures Hung(s)
  {
    hide MayNeed, Waits;
    assert Stuck(s, {o}, x);
  }

  /** A lock that may be needed after a step may have been needed before it. */
  lemma NeededBefore(s: State, l: Label, x: Lock)
    requires Invariant(s) && Step(s, l).Some? && MayNeed(Step(s, l).value.sh, x)
    ensures MayNeed(s.sh, x)
  {
    hide RunOk, ContextOk, HasOk, CallOk, AloneOk, OneWait, RunStep, CallStep, MayNeed;
    match l
    case RunOn(choice) => RunNeeds(s.sh, choice, x);
    case Go(i) =>
      CallStepKeeps(i, s.calls[i], s.sh);
      CallKeepsNeeds(i, s.sh, Step(s, l).value.sh, x);
      hide CallFrame;
    case _ => OthersKeepNeeds(s, l, x);
  }

  lemma OthersKeepNeeds(s: State, l: Label, x: Lock)
    requires (l.Seek? || l.Grant? || l.Give? || l.Invoke?) && Step(s, l).Some?
    ensures MayNeed(Step(s, l).value.sh, x) == MayNeed(s.sh, x)
  {
    OthersKeepRun(s, l);
    hide Step, RunMayNeed;
  }

  lemma OthersKeepRun(s: State, l: Label)
    requires (l.Seek? || l.Grant? || l.Give? || l.Invoke?) && Step(s, l).Some?
    ensures Step(s, l).value.sh.run == s.sh.run && Step(s, l).value.sh.inner == s.sh.inner
  {
    hide RunStep, CallStep, Running, Waits, OwnerOf, CanInvoke, CanStop, Taken, Given;
    match l
    case Seek(_, _) => return;
    case Grant(o) => TakenKeepsRun(s.sh.(others := s.sh.others.(wants := s.sh.others.wants - {o})), o, s.sh.others.wants[o]);
    case Give(_, x) => GivenKeepsRun(s.sh, x);
    case Invoke(_, _) => return;
  }

  lemma TakenKeepsRun(s: Shared, o: nat, l: Lock)
    ensures Taken(s, o, l).run == s.run && Taken(s, o, l).inner == s.inner
  {}

  lemma GivenKeepsRun(s: Shared, l: Lock)
    ensures Given(s, l).run == s.run && Given(s, l).inner == s.inner
  {}

  /** As long as the run task may need anything the thread goes on to wait with its lock. */
  lemma StaysHolding(s: State, l: Label, o: nat, x: Lock)
    requires Invariant(s) && Step(s, l).Some? && WaitsHolding(s, o, x) && MayNeed(s.sh, x)
    ensures WaitsHolding(Step(s, l).value, o, x)
  {
    assert OneWait(s);
    match l
    case RunOn(choice) => RunKeepsHolding(s, choice, o, x);
    case Go(i) =>
      hide CallStep, MayNeed, CallOk, RunOk, ContextOk, HasOk;
      StillWaits(s, i, o, x);
      CallStepKeeps(i, s.calls[i], s.sh);
      CallKeepsNeeds(i, s.sh, Step(s, l).value.sh, x);
      hide CallFrame;
    case Invoke(i, from) => InvokeKeepsHolding(s, i, from, o, x);
    case _ => OthersKeepHolding(s, l, o, x);
  }

  lemma RunKeepsHolding(s: State, choice: Choice, o: nat, x: Lock)
    requires Invariant(s) && Step(s, RunOn(choice)).Some? && WaitsHolding(s, o, x)
    ensures WaitsHolding(Step(s, RunOn(choice)).value, o, x)
  {
    hide RunOk, ContextOk, HasOk, CallOk, RunStep, Waits, OwnerOf;
    RunStepKeeps(s.sh, choice);
  }

  /** Other threads do nothing to a thread that waits. */
  lemma OthersKeepHolding(s: State, l: Label, o: nat, x: Lock)
    requires HasOk(s.sh) && Step(s, l).Some? && (l.Seek? || l.Grant? || l.Give?)
    ensures WaitsHolding(s, o, x) ==> WaitsHolding(Step(s, l).value, o, x)
    ensures WaitsHolding(Step(s, l).value, o, x) ==> WaitsHolding(s, o, x) || (l.Grant? && l.o == o)
  {
    hide Waits, RunStep, CallStep;
    match l
    case Seek(p, y) => return;
    case Grant(p) =>
      TakenIs(s.sh.(others := s.sh.others.(wants := s.sh.others.wants - {p})), p, s.sh.others.wants[p]);
      hide Taken;
    case Give(p, y) => GivenIs(s.sh, y); hide Given;
    case _ =>
  }

  lemma InvokeKeepsHolding(s: State, i: nat, from: From, o: nat, x: Lock)
    requires Step(s, Invoke(i, from)).Some? && WaitsHolding(s, o, x)
    ensures WaitsHolding(Step(s, Invoke(i, from)).value, o, x)
  {
    var j :| j in s.calls && s.calls[j].from == InThread(o) && !s.calls[j].pc.Returned?;
    assert Step(s, Invoke(i, from)).value.calls[j] == s.calls[j];
  }

  lemma {:induction false} PathKeepsHolding(states: seq<State>, labels: seq<Label>, j: nat, k: nat, o: nat, x: Lock)
    requires IsRun(states, labels) && j <= k < |states| && WaitsHolding(states[j], o, x) && MayNeed(states[k].sh, x)
    ensures WaitsHolding(states[k], o, x)
    decreases k
  {
    hide Step, Init, WaitsHolding, MayNeed;
    if j < k {
      RunKeepsInvariant(states, labels, k - 1);
      hide Invariant;
      assert Step(states[k - 1], labels[k - 1]) == Some(states[k]);
      NeededBefore(states[k - 1], labels[k - 1], x);
      PathKeepsHolding(states, labels, j, k - 1, o, x);
      StaysHolding(states[k - 1], labels[k - 1], o, x);
    }
  }

  /** In every run a call made off the run task by a thread that has a lock keeps the termination from being
      completed in all surroundings, as long as the run task may need that lock. */
  lemma HoldingCallHangs(states: seq<State>, labels: seq<Label>, m: nat, k: nat, x: Lock)
    requires IsRun(states, labels) && m < k < |states| && CallsHolding(states[m], labels[m], x)
    requires MayNeed(states[k].sh, x)
    ensures Hung(states[k])
  {
    assert Step(states[m], labels[m]) == Some(states[m + 1]);
    var o := labels[m].from.o;
    assert states[m + 1].calls[labels[m].i] == Call(InThread(o), Called);
    hide IsRun, Step, MayNeed;
    assert WaitsHolding(states[m + 1], o, x);
    PathKeepsHolding(states, labels, m + 1, k, o, x);
    WaitsHoldingHangs(states[k], o, x);
  }

  /** Thread o has no lock. */
  ghost predicate EmptyHanded(s: Shared, o: nat) { forall l :: OwnerOf(s, l) != ByOther(o) }

  /** No other thread asks for a lock while it has one. */
  ghost predicate OneAtATime(states: seq<State>, labels: seq<Label>) {
    |states| > |labels| && forall m | 0 <= m < |labels| && labels[m].Seek? :: EmptyHanded(states[m].sh, labels[m].o)
  }

  ghost predicate AskersEmpty(s: Shared) { forall o | o in s.others.wants :: EmptyHanded(s, o) }

  lemma StepKeepsAskers(s: State, l: Label)
    requires Invariant(s) && AskersEmpty(s.sh) && Step(s, l).Some? && (l.Seek? ==> EmptyHanded(s.sh, l.o))
    ensures AskersEmpty(Step(s, l).value.sh)
  {
    assert HasOk(s.sh);
    match l
    case RunOn(choice) => RunKeepsAskersOn(s, choice);
    case Go(i) => GoKeepsAskers(s, i);
    case Invoke(_, _) => hide Invariant, CanInvoke, AskersEmpty;
    case _ => OthersKeepAskers(s, l); hide Invariant;
  }

  lemma RunKeepsAskersOn(s: State, choice: Choice)
    requires Invariant(s) && AskersEmpty(s.sh) && Step(s, RunOn(choice)).Some?
    ensures AskersEmpty(Step(s, RunOn(choice)).value.sh)
  {
    hide RunOk, ContextOk, HasOk, CallOk, RunStep, Waits, OwnerOf;
    RunStepKeeps(s.sh, choice);
  }

  lemma GoKeepsAskers(s: State, i: nat)
    requires Invariant(s) && AskersEmpty(s.sh) && Step(s, Go(i)).Some?
    ensures AskersEmpty(Step(s, Go(i)).value.sh)
  {
    hide RunOk, ContextOk, HasOk, CallOk, CallStep, Waits, OwnerOf, CallFrame;
    var s' := Step(s, Go(i)).value.sh;
    CallStepKeeps(i, s.calls[i], s.sh);
    SameWants(i, s.sh, s');
    forall o, l ensures OwnerOf(s', l) == ByOther(o) ==> OwnerOf(s.sh, l) == ByOther(o) { CallKeepsNeeds(i, s.sh, s', l); }
  }

  lemma OthersKeepAskers(s: State, l: Label)
    requires HasOk(s.sh) && AskersEmpty(s.sh) && Step(s, l).Some?
    requires (l.Seek? && EmptyHanded(s.sh, l.o)) || l.Grant? || l.Give?
    ensures AskersEmpty(Step(s, l).value.sh)
  {
    hide RunStep, CallStep, Waits, OwnerOf;
    match l
    case Seek(o, x) => OwnersOnly(s.sh, s.sh.others.wants[o := x]); return;
    case Grant(o) =>
      OwnersOnly(s.sh, s.sh.others.wants - {o});
      TakenIs(s.sh.(others := s.sh.others.(wants := s.sh.others.wants - {o})), o, s.sh.others.wants[o]);
      hide Taken, HasOk;
      return;
    case Give(_, x) => GivenIs(s.sh, x); hide Given, HasOk; return;
    case _ =>
  }

  lemma {:induction false} RunKeepsAskers(states: seq<State>, labels: seq<Label>, k: nat)
    requires IsRun(states, labels) && OneAtATime(states, labels) && k < |states|
    ensures AskersEmpty(states[k].sh)
  {
    hide Step, AskersEmpty, EmptyHanded;
    if k == 0 {
      NobodyAsks(states[0]);
    } else {
      RunKeepsAskers(states, labels, k - 1);
      RunKeepsInvariant(states, labels, k - 1);
      hide Invariant;
      assert Step(states[k - 1], labels[k - 1]) == Some(states[k]);
      StepKeepsAskers(states[k - 1], labels[k - 1]);
    }
  }

  lemma NobodyAsks(s: State)
    requires Init(s)
    ensures AskersEmpty(s.sh)
  {}

  /** A thread that waits for a terminate call with a lock had it when it made the call. */
  lemma {:induction false} CameHolding(states: seq<State>, labels: seq<Label>, k: nat, o: nat, x: Lock) returns (m: nat)
    requires IsRun(states, labels) && k < |states| && WaitsHolding(states[k], o, x)
    ensures m < k && CallsHolding(states[m], labels[m], x)
  {
    hide Step, Init, Invariant, WaitsHolding, CallsHolding;
    if k == 0 {
      NobodyHolds(states[0], o, x);
    } else if WaitsHolding(states[k - 1], o, x) {
      m := CameHolding(states, labels, k - 1, o, x);
    } else {
      m := k - 1;
      RunKeepsInvariant(states, labels, m);
      assert Step(states[m], labels[m]) == Some(states[m + 1]);
      BeginsHolding(states[m], labels[m], o, x);
    }
  }

  lemma NobodyHolds(s: State, o: nat, x: Lock)
    requires Init(s)
    ensures !WaitsHolding(s, o, x)
  {}

  lemma BeginsHolding(s: State, l: Label, o: nat, x: Lock)
    requires Invariant(s) && Step(s, l).Some? && !WaitsHolding(s, o, x) && WaitsHolding(Step(s, l).value, o, x)
    ensures CallsHolding(s, l, x)
  {
    assert OneWait(s) && HasOk(s.sh);
    match l
    case RunOn(choice) => RunBegins(s, choice, o, x);
    case Go(i) => GoBegins(s, i, o, x);
    case Invoke(i, from) => InvokeBegins(s, i, from, o);
    case _ =>
      OthersKeepHolding(s, l, o, x);
      hide Invariant, HasOk, Waits, RunStep, CallStep;
  }

  lemma RunBegins(s: State, choice: Choice, o: nat, x: Lock)
    requires Invariant(s) && Step(s, RunOn(choice)).Some? && WaitsHolding(Step(s, RunOn(choice)).value, o, x)
    ensures WaitsHolding(s, o, x)
  {
    hide RunOk, ContextOk, HasOk, CallOk, RunStep, Waits, OwnerOf;
    RunStepKeeps(s.sh, choice);
  }

  lemma GoBegins(s: State, i: nat, o: nat, x: Lock)
    requires Invariant(s) && Step(s, Go(i)).Some? && WaitsHolding(Step(s, Go(i)).value, o, x)
    ensures WaitsHolding(s, o, x)
  {
    hide CallStep, CallOk, RunOk, ContextOk, HasOk, MayNeed, AloneOk;
    WaitsBefore(s, i, o);
    CallStepKeeps(i, s.calls[i], s.sh);
    CallKeepsNeeds(i, s.sh, Step(s, Go(i)).value.sh, x);
    hide CallFrame, Waits;
  }

  lemma InvokeBegins(s: State, i: nat, from: From, o: nat)
    requires Step(s, Invoke(i, from)).Some? && !Waits(s.calls, InThread(o))
    requires Waits(Step(s, Invoke(i, from)).value.calls, InThread(o))
    ensures from == InThread(o)
  {
    var s' := Step(s, Invoke(i, from)).value;
    var j :| j in s'.calls && s'.calls[j].from == InThread(o) && !s'.calls[j].pc.Returned?;
  }

  /** In every run in which no other thread asks for a lock while it has one: there are threads that are stuck
      with the run task if and only if one of them has made a terminate call with a lock in its hands which
      the run task may still need. */
  lemma HungIfAndOnlyIf(states: seq<State>, labels: seq<Label>, k: nat)
    requires IsRun(states, labels) && OneAtATime(states, labels) && k < |states|
    ensures Hung(states[k]) <==>
      exists m, x :: 0 <= m < k && CallsHolding(states[m], labels[m], x) && MayNeed(states[k].sh, x)
  {
    RunKeepsAskers(states, labels, k);
    var s := states[k];
    hide OneAtATime, MayNeed, Waits;
    if T, x :| Stuck(s, T, x) {
      var o := OwnerOf(s.sh, x).o;
      assert !EmptyHanded(s.sh, o);
      var m := CameHolding(states, labels, k, o, x);
    }
    if m, x :| 0 <= m < k && CallsHolding(states[m], labels[m], x) && MayNeed(s.sh, x) {
      HoldingCallHangs(states, labels, m, k, x);
    }
  }

  /** So in such a run the termination can be brought to its end in all surroundings if and only if no call
      was made off the run task by a thread with a lock in its hands which the run task may still need. */
  lemma TerminatesIfAndOnlyIf(states: seq<State>, labels: seq<Label>, k: nat)
    requires IsRun(states, labels) && OneAtATime(states, labels) && k < |states| && Asked(states[k])
    ensures AlwaysSettles(states[k]) <==>
      forall m, x | 0 <= m < k && CallsHolding(states[m], labels[m], x) :: !MayNeed(states[k].sh, x)
  {
    HungIfAndOnlyIf(states, labels, k);
    SettlesIfAndOnlyIf(states, labels, k);
    hide IsRun, OneAtATime, Hung, AlwaysSettles, CallsHolding, MayNeed;
  }

  // ---------------------------------------------------------------- the cases behind the condition

  /** A started application: no flag is up and nobody has a lock. */
  function Started(run: RunPc): Shared {
    Shared(Free, Free, false, false, false, false, Free, true, true, true, 0, run, None, Others(map[], map[]))
  }

  const ON := Choice(true, [])
  const OFF := Choice(false, [])

  lemma Extend(states: seq<State>, labels: seq<Label>, l: Label, s: State) returns (states': seq<State>, labels': seq<Label>)
    requires IsRun(states, labels) && Step(states[|labels|], l) == Some(s)
    ensures IsRun(states', labels') && labels' == labels + [l] && states' == states + [s]
  {
    hide Step, Init;
    states', labels' := states + [s], labels + [l];
    forall k | 0 <= k < |labels'| ensures Step(states'[k], labels'[k]) == Some(states'[k + 1]) {
      if k < |labels| { assert Step(states[k], labels[k]) == Some(states[k + 1]); }
    }
  }

  /** A step of the only call, made in thread from. */
  lemma GoAlone(states: seq<State>, labels: seq<Label>, from: From, t: CallPc, sh: Shared, t': CallPc, sh': Shared)
    returns (states': seq<State>, labels': seq<Label>)
    requires IsRun(states, labels) && states[|labels|] == State(map[0 := Call(from, t)], sh)
    requires CallStep(0, Call(from, t), sh) == To(t', sh')
    ensures IsRun(states', labels') && labels <= labels' && states <= states'
    ensures states'[|labels'|] == State(map[0 := Call(from, t')], sh')
  {
    hide CallStep, Init;
    assert map[0 := Call(from, t)][0 := Call(from, t')] == map[0 := Call(from, t')];
    states', labels' := Extend(states, labels, Go(0), State(map[0 := Call(from, t')], sh'));
  }

  /** A step of the run task beside it. */
  lemma RunBeside(states: seq<State>, labels: seq<Label>, from: From, t: CallPc, sh: Shared, sh': Shared)
    returns (states': seq<State>, labels': seq<Label>)
    requires IsRun(states, labels) && states[|labels|] == State(map[0 := Call(from, t)], sh) && !from.OnRun?
    requires RunStep(sh, OFF) == Some(sh')
    ensures IsRun(states', labels') && labels <= labels' && states <= states'
    ensures states'[|labels'|] == State(map[0 := Call(from, t)], sh')
  {
    hide RunStep, Init;
    states', labels' := Extend(states, labels, RunOn(OFF), State(map[0 := Call(from, t)], sh'));
  }

  /** The call's steps up to where it raises the flag, and to where it is about to wake the loop. */
  lemma CallToRaise(states: seq<State>, labels: seq<Label>, from: From, sh: Shared)
    returns (states': seq<State>, labels': seq<Label>)
    requires IsRun(states, labels) && states[|labels|] == State(map[0 := Call(from, Called)], sh)
    requires sh == Started(sh.run).(lock := sh.lock, reconnect := sh.reconnect, others := sh.others)
    ensures IsRun(states', labels') && labels <= labels' && states <= states'
    ensures states'[|labels'|] == State(map[0 := Call(from, Raise)], sh.(g := ByCall(0)))
  {
    hide IsRun;
    var held := sh.(g := ByCall(0));
    states', labels' := GoAlone(states, labels, from, Called, sh, Lock1, sh);
    states', labels' := GoAlone(states', labels', from, Lock1, sh, Reap1, held);
    states', labels' := GoAlone(states', labels', from, Reap1, held, Decide, held);
    states', labels' := GoAlone(states', labels', from, Decide, held, UnlockAlive, held);
    states', labels' := GoAlone(states', labels', from, UnlockAlive, held, Lock2, sh);
    states', labels' := GoAlone(states', labels', from, Lock2, sh, Raise, held);
  }

  lemma CallToTryWake(states: seq<State>, labels: seq<Label>, from: From, sh: Shared)
    returns (states': seq<State>, labels': seq<Label>)
    requires IsRun(states, labels) && states[|labels|] == State(map[0 := Call(from, Called)], sh) && !from.OnRun?
    requires sh == Started(sh.run).(lock := sh.lock, reconnect := sh.reconnect, others := sh.others)
    ensures IsRun(states', labels') && labels <= labels' && states <= states'
    ensures states'[|labels'|] == State(map[0 := Call(from, TryWake)], sh.(g := ByCall(0), term := true))
  {
    hide IsRun;
    var held, up, both := sh.(g := ByCall(0)), sh.(term := true), sh.(g := ByCall(0), term := true);
    states', labels' := CallToRaise(states, labels, from, sh);
    states', labels' := GoAlone(states', labels', from, Raise, held, Abort, both);
    states', labels' := GoAlone(states', labels', from, Abort, both, Unlock2, both);
    states', labels' := GoAlone(states', labels', from, Unlock2, both, Wait(false), up);
    states', labels' := GoAlone(states', labels', from, Wait(false), up, LockWake, up);
    states', labels' := GoAlone(states', labels', from, LockWake, up, TryWake, both);
  }

  /** ... and on to where it only polls, having had the context's lock free or in its own thread's hands. */
  lemma CallToPoll(states: seq<State>, labels: seq<Label>, from: From, sh: Shared)
    returns (states': seq<State>, labels': seq<Label>)
    requires IsRun(states, labels) && states[|labels|] == State(map[0 := Call(from, Called)], sh) && !from.OnRun?
    requires sh == Started(sh.run).(lock := sh.lock, reconnect := sh.reconnect, others := sh.others) && Lockable(sh, from) && !sh.run.Asleep?
    ensures IsRun(states', labels') && labels <= labels' && states <= states'
    ensures states'[|labels'|] == State(map[0 := Call(from, Wait(true))], sh.(term := true))
  {
    hide IsRun;
    var both := sh.(g := ByCall(0), term := true);
    var locked := both.(lock := Locked(both, ByCall(0)));
    states', labels' := CallToTryWake(states, labels, from, sh);
    states', labels' := GoAlone(states', labels', from, TryWake, both, WakeHeld, locked);
    states', labels' := GoAlone(states', labels', from, WakeHeld, locked, Broadcast, both);
    states', labels' := GoAlone(states', labels', from, Broadcast, both, UnlockWake(true), both);
    states', labels' := GoAlone(states', labels', from, UnlockWake(true), both, Wait(true), sh.(term := true));
  }

  /** A call of the surroundings that takes no lock: it begins and it ends. */
  function Calling(sh: Shared): Shared { sh.(inner := Some(Inner([], false))) }

  lemma ComesBack(sh: Shared)
    requires sh.inner.None? && HasOk(sh)
    ensures Back(Calling(sh)) == sh
  {
    assert (map l | l in sh.others.has && sh.others.has[l] != ByRun :: sh.others.has[l]) == sh.others.has;
  }

  /** A run up to a call that thread 0 makes with lock x in its hands. */
  lemma CallWith(x: Lock) returns (states: seq<State>, labels: seq<Label>)
    ensures IsRun(states, labels) && |labels| == 5 && CallsHolding(states[4], labels[4], x)
    ensures states[5] == State(map[0 := Call(InThread(0), Called)], Taken(Started(LoopTop), 0, x))
  {
    states, labels := [State(map[], Started(Setup))], [];
    ComesBack(Started(Setup));
    states, labels := Extend(states, labels, RunOn(ON), State(map[], Calling(Started(Setup))));
    states, labels := Extend(states, labels, RunOn(ON), State(map[], Started(LoopTop)));
    var asked := Started(LoopTop).(others := Others(map[], map[0 := x]));
    states, labels := Extend(states, labels, Seek(0, x), State(map[], asked));
    assert map[0 := x] - {0} == map[];
    states, labels := Extend(states, labels, Grant(0), State(map[], Taken(Started(LoopTop), 0, x)));
    states, labels := Extend(states, labels, Invoke(0, InThread(0)),
      State(map[0 := Call(InThread(0), Called)], Taken(Started(LoopTop), 0, x)));
  }

  /** The run task tears down beside the call. */
  lemma RunToDisconnect(states: seq<State>, labels: seq<Label>, from: From, sh: Shared)
    returns (states': seq<State>, labels': seq<Label>)
    requires IsRun(states, labels) && states[|labels|] == State(map[0 := Call(from, Wait(true))], sh) && !from.OnRun?
    requires sh == Started(LoopTop).(lock := sh.lock, others := sh.others, term := true)
    ensures IsRun(states', labels') && labels <= labels' && states <= states'
    ensures states'[|labels'|] == State(map[0 := Call(from, Wait(true))], sh.(run := RunTear(Disconnect), tearing := true))
  {
    hide IsRun;
    var t, up := Wait(true), sh.(tearing := true);
    states', labels' := RunBeside(states, labels, from, t, sh, sh.(run := Exit));
    states', labels' := RunBeside(states', labels', from, t, sh.(run := Exit), sh.(run := Mark, g := ByRun));
    states', labels' := RunBeside(states', labels', from, t, sh.(run := Mark, g := ByRun), up.(run := Unmark, g := ByRun));
    states', labels' := RunBeside(states', labels', from, t, up.(run := Unmark, g := ByRun), up.(run := RunTear(Enter)));
    states', labels' := RunBeside(states', labels', from, t, up.(run := RunTear(Enter)), up.(run := RunTear(Flag)));
    states', labels' := RunBeside(states', labels', from, t, up.(run := RunTear(Flag)), up.(run := RunTear(Drain)));
    states', labels' := RunBeside(states', labels', from, t, up.(run := RunTear(Drain)), up.(run := RunTear(Disconnect)));
  }

  /** Call 0 of thread 0, which has lock x, polls, and the run task tears down. */
  function PollingAt(x: Lock, d: Tear): State {
    State(map[0 := Call(InThread(0), Wait(true))],
          Taken(Started(LoopTop), 0, x).(run := RunTear(d), term := true, tearing := true))
  }

  /** A run up to there. */
  lemma PollWith(x: Lock) returns (states: seq<State>, labels: seq<Label>)
    ensures IsRun(states, labels) && |labels| > 4 && CallsHolding(states[4], labels[4], x)
    ensures states[|labels|] == PollingAt(x, Disconnect)
  {
    states, labels := CallWith(x);
    var sh := Taken(Started(LoopTop), 0, x);
    states, labels := CallToPoll(states, labels, InThread(0), sh);
    states, labels := RunToDisconnect(states, labels, InThread(0), sh.(term := true));
  }

  /** The run task inside a call of the signaling client's that goes on to take x. */
  function Reporting(x: Lock): State {
    PollingAt(x, Disconnect).(sh := PollingAt(x, Disconnect).sh.(inner := Some(Inner([x], false))))
  }

  /** A run that hangs, for any lock x: an event callback, with gEventCallbackLock in its thread's hands, calls
      app_webrtc_terminate, and the signaling client reports on the run task's thread that it is disconnected,
      which takes that lock. Not a step is left but further calls and further requests for locks. */
  lemma CallbackExample(x: Lock) returns (states: seq<State>, labels: seq<Label>)
    ensures IsRun(states, labels) && |labels| > 4 && CallsHolding(states[4], labels[4], x)
    ensures states[|labels|] == Reporting(x)
    ensures forall l: Label | !l.Invoke? && !l.Seek? :: Step(Reporting(x), l).None?
  {
    states, labels := PollWith(x);
    states, labels := Extend(states, labels, RunOn(Choice(false, [x])), Reporting(x));
    forall l: Label | !l.Invoke? && !l.Seek? ensures Step(Reporting(x), l).None? {
      ReportingStops(x, l);
    }
  }

  lemma ReportingStops(x: Lock, l: Label)
    requires !l.Invoke? && !l.Seek?
    ensures Step(Reporting(x), l).None?
  {
    assert Reporting(x).calls[0].from == InThread(0);
    assert OwnerOf(Reporting(x).sh, x) == ByOther(0);
  }

  /** The run task after a call that took no lock. */
  lemma PollPastDisconnect(x: Lock) returns (states: seq<State>, labels: seq<Label>)
    ensures IsRun(states, labels) && |labels| > 4 && CallsHolding(states[4], labels[4], x)
    ensures states[|labels|] == PollingAt(x, Sessions)
  {
    states, labels := PollWith(x);
    var t, sh := Wait(true), PollingAt(x, Disconnect).sh;
    ComesBack(sh);
    states, labels := RunBeside(states, labels, InThread(0), t, sh, Calling(sh));
    states, labels := RunBeside(states, labels, InThread(0), t, Calling(sh), PollingAt(x, Sessions).sh);
  }

  /** The same with a lock that the run task takes itself on its way: the context's, or in bridge mode the
      session list's, in the hands of the thread that calls. */
  lemma LockedCallExample(x: Lock) returns (states: seq<State>, labels: seq<Label>)
    requires x.Context? || x.List?
    ensures IsRun(states, labels) && |labels| > 4 && CallsHolding(states[4], labels[4], x)
    ensures states[|labels|] == PollingAt(x, if x.List? then Detach else Sessions)
    ensures forall l: Label | !l.Invoke? && !l.Seek? :: Step(PollingAt(x, if x.List? then Detach else Sessions), l).None?
  {
    states, labels := PollPastDisconnect(x);
    if x.List? {
      var t, held := Wait(true), PollingAt(x, SessionsHeld).sh.(lock := ByRun);
      states, labels := RunBeside(states, labels, InThread(0), t, PollingAt(x, Sessions).sh, held);
      states, labels := RunBeside(states, labels, InThread(0), t, held, PollingAt(x, Detach).sh);
    }
    forall l: Label | !l.Invoke? && !l.Seek? ensures Step(PollingAt(x, if x.List? then Detach else Sessions), l).None? {
      PollingStops(x, l);
    }
  }

  lemma PollingStops(x: Lock, l: Label)
    requires !l.Invoke? && !l.Seek? && (x.Context? || x.List?)
    ensures Step(PollingAt(x, if x.List? then Detach else Sessions), l).None?
  {
    var s := PollingAt(x, if x.List? then Detach else Sessions);
    assert s.calls[0].from == InThread(0);
    assert OwnerOf(s.sh, x) == ByOther(0);
  }

  /** The run task has the context's lock and is inside a terminate call, which waits for gRunTaskLock;
      call 0 has that and is about to try the context's lock. */
  function Crossed(): State {
    State(map[0 := Call(Alone, TryWake), 1 := Call(OnRun, Lock1)],
          Started(Pass).(lock := ByRun, g := ByCall(0), term := true))
  }

  lemma CrossedMoves(l: Label)
    requires !l.Invoke? && !l.Seek? && l != Go(0)
    ensures Step(Crossed(), l).None?
  {
    if l.RunOn? { assert Crossed().calls[1].from == OnRun; }
  }

  /** A run up to a pass over the sessions. */
  lemma ToPass() returns (states: seq<State>, labels: seq<Label>)
    ensures IsRun(states, labels) && states[|labels|] == State(map[], Started(Pass).(lock := ByRun))
  {
    states, labels := [State(map[], Started(Setup))], [];
    ComesBack(Started(Setup));
    states, labels := Extend(states, labels, RunOn(ON), State(map[], Calling(Started(Setup))));
    states, labels := Extend(states, labels, RunOn(ON), State(map[], Started(LoopTop)));
    states, labels := Extend(states, labels, RunOn(ON), State(map[], Started(LockPass)));
    states, labels := Extend(states, labels, RunOn(ON), State(map[], Started(Pass).(lock := ByRun)));
  }

  /** A run that would hang if wakeCleanupLoop did not just try the context's lock: only the call that
      tries can go on, and it does by giving up. */
  lemma TryLockExample() returns (states: seq<State>, labels: seq<Label>)
    ensures IsRun(states, labels) && states[|labels|] == Crossed()
    ensures forall l: Label | !l.Invoke? && !l.Seek? && l != Go(0) :: Step(Crossed(), l).None?
    ensures CallStep(0, Call(Alone, TryWake), Crossed().sh) == To(UnlockWake(false), Crossed().sh)
  {
    states, labels := ToPass();
    var sh := Started(Pass).(lock := ByRun);
    states, labels := Extend(states, labels, Invoke(0, Alone), State(map[0 := Call(Alone, Called)], sh));
    states, labels := CallToTryWake(states, labels, Alone, sh);
    var up := sh.(g := ByCall(0), term := true);
    var calls := map[0 := Call(Alone, TryWake), 1 := Call(OnRun, Called)];
    assert calls == map[0 := Call(Alone, TryWake)][1 := Call(OnRun, Called)];
    states, labels := Extend(states, labels, Invoke(1, OnRun), State(calls, up));
    assert calls[1 := Call(OnRun, Lock1)] == Crossed().calls;
    states, labels := Extend(states, labels, Go(1), Crossed());
    forall l: Label | !l.Invoke? && !l.Seek? && l != Go(0) ensures Step(Crossed(), l).None? { CrossedMoves(l); }
  }

  // ---------------------------------------------------------------- whole lives

  /** A step of the run task beside calls of which it waits for none. */
  lemma RunAmong(states: seq<State>, labels: seq<Label>, calls: map<nat, Call>, sh: Shared, choice: Choice, sh': Shared)
    returns (states': seq<State>, labels': seq<Label>)
    requires IsRun(states, labels) && states[|labels|] == State(calls, sh) && !Waits(calls, OnRun)
    requires RunStep(sh, choice) == Some(sh')
    ensures IsRun(states', labels') && labels <= labels' && states <= states' && states'[|labels'|] == State(calls, sh')
  {
    hide RunStep, Init, Waits;
    states', labels' := Extend(states, labels, RunOn(choice), State(calls, sh'));
  }

  /** A call of the surroundings that takes no lock, and what the run task does behind it. */
  lemma CallAmong(states: seq<State>, labels: seq<Label>, calls: map<nat, Call>, sh: Shared, choice: Choice, sh': Shared)
    returns (states': seq<State>, labels': seq<Label>)
    requires IsRun(states, labels) && states[|labels|] == State(calls, sh) && !Waits(calls, OnRun)
    requires CallsOut(sh.run) && sh.inner.None? && HasOk(sh) && choice.needs == [] && OuterStep(sh, choice.go) == Some(sh')
    ensures IsRun(states', labels') && labels <= labels' && states <= states' && states'[|labels'|] == State(calls, sh')
  {
    hide IsRun, OuterStep, Waits;
    ComesBack(sh);
    states', labels' := RunAmong(states, labels, calls, sh, choice, Calling(sh));
    states', labels' := RunAmong(states', labels', calls, Calling(sh), choice, sh');
  }

  /** What the run task leaves behind. */
  function Ended(run: RunPc): Shared {
    Started(run).(term := true, tearing := true, context := false, initialized := false, freed := 1)
  }

  /** A step of its teardown. */
  lemma TearAmong(states: seq<State>, labels: seq<Label>, calls: map<nat, Call>, sh: Shared, d: Tear, sh': Shared)
    returns (states': seq<State>, labels': seq<Label>)
    requires IsRun(states, labels) && states[|labels|] == State(calls, sh) && !Waits(calls, OnRun)
    requires sh.run == RunTear(d) && sh.inner.None? && HasOk(sh) && sh'.run.RunTear?
    requires TearStep(d, ByRun, OnRun, sh).At? && TearStep(d, ByRun, OnRun, sh).d == sh'.run.d
    requires TearStep(d, ByRun, OnRun, sh).sh.(run := sh'.run) == sh'
    ensures IsRun(states', labels') && labels <= labels' && states <= states' && states'[|labels'|] == State(calls, sh')
  {
    hide IsRun, Waits, TearStep, HasOk;
    assert OuterStep(sh, false) == Some(sh');
    if CallsOut(sh.run) {
      states', labels' := CallAmong(states, labels, calls, sh, OFF, sh');
    } else {
      states', labels' := RunAmong(states, labels, calls, sh, OFF, sh');
    }
  }

  /** Where it tears down undisturbed. */
  function Tearing(d: Tear, lock: Owner): Shared { Started(RunTear(d)).(term := true, tearing := true, lock := lock) }

  lemma LeavesLoop(states: seq<State>, labels: seq<Label>, calls: map<nat, Call>, term: bool)
    returns (states': seq<State>, labels': seq<Label>)
    requires IsRun(states, labels) && states[|labels|] == State(calls, Started(Exit).(term := term)) && !Waits(calls, OnRun)
    ensures IsRun(states', labels') && labels <= labels' && states <= states'
    ensures states'[|labels'|] == State(calls, Started(RunTear(Enter)).(term := term, tearing := true))
  {
    hide IsRun, Waits;
    var s := Started(Exit).(term := term);
    var t := s.(tearing := true);
    states', labels' := RunAmong(states, labels, calls, s, OFF, s.(run := Mark, g := ByRun));
    states', labels' := RunAmong(states', labels', calls, s.(run := Mark, g := ByRun), OFF, t.(run := Unmark, g := ByRun));
    states', labels' := RunAmong(states', labels', calls, t.(run := Unmark, g := ByRun), OFF, t.(run := RunTear(Enter)));
  }

  lemma BeginsTeardown(states: seq<State>, labels: seq<Label>, calls: map<nat, Call>, term: bool)
    returns (states': seq<State>, labels': seq<Label>)
    requires IsRun(states, labels) && states[|labels|] == State(calls, Started(Exit).(term := term)) && !Waits(calls, OnRun)
    ensures IsRun(states', labels') && labels <= labels' && states <= states' && states'[|labels'|] == State(calls, Tearing(Drain, Free))
  {
    states', labels' := LeavesLoop(states, labels, calls, term);
    hide IsRun, Waits;
    var t := Started(Exit).(term := term, tearing := true);
    states', labels' := TearAmong(states', labels', calls, t.(run := RunTear(Enter)), Enter, t.(run := RunTear(Flag)));
    states', labels' := TearAmong(states', labels', calls, t.(run := RunTear(Flag)), Flag, Tearing(Drain, Free));
  }

  /** Its teardown up to where the sessions are detached, */
  lemma TearsToDetach(states: seq<State>, labels: seq<Label>, calls: map<nat, Call>, term: bool)
    returns (states': seq<State>, labels': seq<Label>)
    requires IsRun(states, labels) && states[|labels|] == State(calls, Started(Exit).(term := term)) && !Waits(calls, OnRun)
    ensures IsRun(states', labels') && labels <= labels' && states <= states' && states'[|labels'|] == State(calls, Tearing(Detach, Free))
  {
    states', labels' := BeginsTeardown(states, labels, calls, term);
    hide IsRun, Waits;
    states', labels' := TearAmong(states', labels', calls, Tearing(Drain, Free), Drain, Tearing(Disconnect, Free));
    states', labels' := TearAmong(states', labels', calls, Tearing(Disconnect, Free), Disconnect, Tearing(Sessions, Free));
    states', labels' := TearAmong(states', labels', calls, Tearing(Sessions, Free), Sessions, Tearing(SessionsHeld, ByRun));
    states', labels' := TearAmong(states', labels', calls, Tearing(SessionsHeld, ByRun), SessionsHeld, Tearing(Detach, Free));
  }

  /** ... to where everyone has a last chance at the lock, */
  lemma TearsToHands(states: seq<State>, labels: seq<Label>, calls: map<nat, Call>)
    returns (states': seq<State>, labels': seq<Label>)
    requires IsRun(states, labels) && !Waits(calls, OnRun) && states[|labels|] == State(calls, Tearing(Detach, Free))
    ensures IsRun(states', labels') && labels <= labels' && states <= states' && states'[|labels'|] == State(calls, Tearing(Hands, Free))
  {
    hide IsRun, Waits;
    states', labels' := TearAmong(states, labels, calls, Tearing(Detach, Free), Detach, Tearing(Clients, Free));
    states', labels' := TearAmong(states', labels', calls, Tearing(Clients, Free), Clients, Tearing(Again, Free));
    states', labels' := TearAmong(states', labels', calls, Tearing(Again, Free), Again, Tearing(AgainHeld, ByRun));
    states', labels' := TearAmong(states', labels', calls, Tearing(AgainHeld, ByRun), AgainHeld, Tearing(DetachAgain, Free));
    states', labels' := TearAmong(states', labels', calls, Tearing(DetachAgain, Free), DetachAgain, Tearing(Hands, Free));
  }

  /** ... to where the context is gone, */
  lemma TearsToReset(states: seq<State>, labels: seq<Label>, calls: map<nat, Call>)
    returns (states': seq<State>, labels': seq<Label>)
    requires IsRun(states, labels) && !Waits(calls, OnRun) && states[|labels|] == State(calls, Tearing(Hands, Free))
    ensures IsRun(states', labels') && labels <= labels' && states <= states'
    ensures states'[|labels'|] == State(calls, Ended(RunTear(Reset)).(initialized := true))
  {
    hide IsRun, Waits;
    states', labels' := TearAmong(states, labels, calls, Tearing(Hands, Free), Hands, Tearing(HandsHeld, ByRun));
    states', labels' := TearAmong(states', labels', calls, Tearing(HandsHeld, ByRun), HandsHeld, Tearing(FreeContext, Free));
    states', labels' :=
      TearAmong(states', labels', calls, Tearing(FreeContext, Free), FreeContext, Ended(RunTear(Reset)).(initialized := true));
  }

  /** ... and on to where it is suspended. */
  lemma TearsToPark(states: seq<State>, labels: seq<Label>, calls: map<nat, Call>, term: bool)
    returns (states': seq<State>, labels': seq<Label>)
    requires IsRun(states, labels) && !Waits(calls, OnRun) && states[|labels|] == State(calls, Started(Exit).(term := term))
    ensures IsRun(states', labels') && labels <= labels' && states <= states'
    ensures states'[|labels'|] == State(calls, Ended(Parked).(done := true))
  {
    hide IsRun, Waits, Started, Ended, Tearing;
    states', labels' := TearsToDetach(states, labels, calls, term);
    states', labels' := TearsToHands(states', labels', calls);
    states', labels' := TearsToReset(states', labels', calls);
    states', labels' := ResetToPark(states', labels', calls);
  }

  lemma ResetToPark(states: seq<State>, labels: seq<Label>, calls: map<nat, Call>)
    returns (states': seq<State>, labels': seq<Label>)
    requires IsRun(states, labels) && !Waits(calls, OnRun)
    requires states[|labels|] == State(calls, Ended(RunTear(Reset)).(initialized := true))
    ensures IsRun(states', labels') && labels <= labels' && states <= states'
    ensures states'[|labels'|] == State(calls, Ended(Parked).(done := true))
  {
    hide IsRun, Waits;
    states', labels' := RunAmong(states, labels, calls, Ended(RunTear(Reset)).(initialized := true), OFF, Ended(Done));
    states', labels' := RunAmong(states', labels', calls, Ended(Done), OFF, Ended(Suspending).(done := true));
    states', labels' := RunAmong(states', labels', calls, Ended(Suspending).(done := true), OFF, Ended(Parked).(done := true));
  }

  /** A run in which the clients cannot be made or connected: the run task reports it, tears down and parks, and
      nobody has asked for that. */
  lemma FailedStartExample() returns (states: seq<State>, labels: seq<Label>, k: nat)
    ensures IsRun(states, labels) && k < |labels| && states[k].sh == Started(Report)
    ensures states[|labels|] == State(map[], Ended(Parked).(done := true))
  {
    states, labels := [State(map[], Started(Setup))], [];
    states, labels := CallAmong(states, labels, map[], Started(Setup), OFF, Started(Report));
    k := |labels|;
    states, labels := RunAmong(states, labels, map[], Started(Report), OFF, Calling(Started(Report)));
    ComesBack(Started(Report));
    states, labels := RunAmong(states, labels, map[], Calling(Started(Report)), OFF, Started(Exit));
    states, labels := TearsToPark(states, labels, map[], false);
  }

  /** A pass that finds nothing to do, a sleep that its period ends, and a pass that reconnects. */
  lemma ToConnecting() returns (states: seq<State>, labels: seq<Label>)
    ensures IsRun(states, labels) && states[|labels|] == State(map[], Started(Connecting).(reconnect := true))
  {
    states, labels := ToPass();
    states, labels := PassToSleep(states, labels);
    states, labels := SleepToPass(states, labels);
    hide IsRun;
    var held, s := Started(Pass).(lock := ByRun), Started(Connecting).(reconnect := true);
    states, labels := CallAmong(states, labels, map[], held, ON, held.(run := SetRec));
    states, labels := RunAmong(states, labels, map[], held.(run := SetRec), ON, s.(run := CheckRec, lock := ByRun));
    states, labels := RunAmong(states, labels, map[], s.(run := CheckRec, lock := ByRun), ON, s.(run := UnlockRec, lock := ByRun));
    states, labels := RunAmong(states, labels, map[], s.(run := UnlockRec, lock := ByRun), ON, s);
  }

  lemma SleepToPass(states: seq<State>, labels: seq<Label>) returns (states': seq<State>, labels': seq<Label>)
    requires IsRun(states, labels) && states[|labels|] == State(map[], Started(Asleep))
    ensures IsRun(states', labels') && states'[|labels'|] == State(map[], Started(Pass).(lock := ByRun))
  {
    hide IsRun;
    var s := Started(Asleep);
    states', labels' := RunAmong(states, labels, map[], s, ON, s.(run := Wake));
    states', labels' := RunAmong(states', labels', map[], s.(run := Wake), ON, s.(run := UnlockTop, lock := ByRun));
    states', labels' := RunAmong(states', labels', map[], s.(run := UnlockTop, lock := ByRun), ON, s.(run := LoopTop));
    states', labels' := RunAmong(states', labels', map[], s.(run := LoopTop), ON, s.(run := LockPass));
    states', labels' := RunAmong(states', labels', map[], s.(run := LockPass), ON, Started(Pass).(lock := ByRun));
  }

  lemma PassToSleep(states: seq<State>, labels: seq<Label>) returns (states': seq<State>, labels': seq<Label>)
    requires IsRun(states, labels) && states[|labels|] == State(map[], Started(Pass).(lock := ByRun))
    ensures IsRun(states', labels') && states'[|labels'|] == State(map[], Started(Asleep))
  {
    hide IsRun;
    var held := Started(Pass).(lock := ByRun);
    states', labels' := CallAmong(states, labels, map[], held, OFF, held.(run := Check));
    states', labels' := CallAmong(states', labels', map[], held.(run := Check), OFF, held.(run := Sleep));
    states', labels' := RunAmong(states', labels', map[], held.(run := Sleep), OFF, Started(Asleep));
  }

  /** A run in which a terminate call comes while the run task reconnects: it waits for the connect, the run task
      sees the flag and tears down, and the call deletes it and returns. */
  lemma ReconnectExample() returns (states: seq<State>, labels: seq<Label>)
    ensures IsRun(states, labels)
    ensures states[|labels|] == State(map[0 := Call(Alone, Returned)], Ended(Parked).(done := true, handle := false))
  {
    states, labels := ToConnecting();
    var s := Started(Connecting).(reconnect := true);
    states, labels := Extend(states, labels, Invoke(0, Alone), State(map[0 := Call(Alone, Called)], s));
    states, labels := CallToPoll(states, labels, Alone, s);
    hide IsRun;
    states, labels := BailsOut(states, labels);
    states, labels := TearsToPark(states, labels, map[0 := Call(Alone, Wait(true))], true);
    states, labels := CallReaps(states, labels);
  }

  lemma CallReaps(states: seq<State>, labels: seq<Label>) returns (states': seq<State>, labels': seq<Label>)
    requires IsRun(states, labels)
    requires states[|labels|] == State(map[0 := Call(Alone, Wait(true))], Ended(Parked).(done := true))
    ensures IsRun(states', labels')
    ensures states'[|labels'|] == State(map[0 := Call(Alone, Returned)], Ended(Parked).(done := true, handle := false))
  {
    hide IsRun;
    var p := Ended(Parked).(done := true);
    var held := p.(g := ByCall(0), handle := false);
    states', labels' := GoAlone(states, labels, Alone, Wait(true), p, Lock3, p);
    states', labels' := GoAlone(states', labels', Alone, Lock3, p, Reap3, p.(g := ByCall(0)));
    states', labels' := GoAlone(states', labels', Alone, Reap3, p.(g := ByCall(0)), Unlock3, held);
    states', labels' := GoAlone(states', labels', Alone, Unlock3, held, Returned, p.(handle := false));
  }

  lemma BailsOut(states: seq<State>, labels: seq<Label>) returns (states': seq<State>, labels': seq<Label>)
    requires IsRun(states, labels)
    requires states[|labels|] == State(map[0 := Call(Alone, Wait(true))], Started(Connecting).(reconnect := true, term := true))
    ensures IsRun(states', labels') && states'[|labels'|] == State(map[0 := Call(Alone, Wait(true))], Started(Exit).(term := true))
  {
    hide IsRun;
    var calls := map[0 := Call(Alone, Wait(true))];
    assert !Waits(calls, OnRun);
    var s := Started(Connecting).(term := true);
    states', labels' := CallAmong(states, labels, calls, s.(reconnect := true), OFF, s.(run := ClearRec, reconnect := true));
    states', labels' := RunAmong(states', labels', calls, s.(run := ClearRec, reconnect := true), OFF, s.(run := Relock));
    states', labels' := RunAmong(states', labels', calls, s.(run := Relock), OFF, s.(run := Recheck, lock := ByRun));
    states', labels' := RunAmong(states', labels', calls, s.(run := Recheck, lock := ByRun), OFF, s.(run := BailUnlock, lock := ByRun));
    states', labels' := RunAmong(states', labels', calls, s.(run := BailUnlock, lock := ByRun), OFF, s.(run := Exit));
  }
}
