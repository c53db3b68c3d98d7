/** The locking and waking of components/esp_webrtc_utils/src/message_queue.c in the chip build: any
    number of writers, polling readers and waiting readers, interleaved step by step. The wake token is
    a binary semaphore, which loses a give while it is set. */
module MessageQueueWake {
  import opened Common
  import opened MessageQueue

  /** What a thread has called. */
  datatype Job = Write(x: Item, front: bool) | Poll | WaitFor | Purge

  /** Where it stands. */
  datatype Pc =
    | Idle
    | Want(job: Job)      // lock
    | Inside(job: Job)    // the body under the lock
    | Give                // give the wake token
    | Leave               // unlock
    | Release             // a waiting reader found nothing: unlock
    | Take                // take the wake token, or time out
    | Took                // has consumed the token: lock, then check again
    | TimedOut            // lock, then check again

  /** wake is the token; handed lists what readers got and accepted what writers got in, in order. */
  datatype Shared = Shared(q: Model, wake: bool, locked: bool, handed: seq<Item>, accepted: seq<Item>)

  datatype State = State(threads: map<nat, Pc>, sh: Shared)

  /** How the queue was set up. */
  datatype Config = Config(depth: nat, policy: Policy, droppable: Option<Item -> bool>)

  ghost predicate ConfigOk(c: Config) { c.depth > 0 }

  datatype Move = Blocked | To(pc: Pc, sh: Shared)

  /** The body of a call under the lock; giveUp says that the reader's time has run out. */
  function Body(c: Config, job: Job, s: Shared, giveUp: bool): Move
    requires ConfigOk(c)
  {
    match job
    case Write(x, front) =>
      if x.data == 0 || x.len <= 0 then To(Leave, s)
      else
        var r := Added(s.q, x, front, c.depth, c.policy, c.droppable);
        if r.status == Ok then To(Give, s.(q := r.model, accepted := s.accepted + [x])) else To(Leave, s)
    case Poll => if s.q.queued == [] then To(Leave, s) else To(Leave, Taken(s))
    case WaitFor =>
      if s.q.queued == [] then To(if giveUp then Leave else Release, s)
      else To(if |s.q.queued| > 1 then Give else Leave, Taken(s))
    case Purge => To(Leave, s.(q := Purged(s.q)))
  }

  /** The head handed to a reader. */
  function Taken(s: Shared): Shared
    requires s.q.queued != []
  {
    s.(q := s.q.(queued := s.q.queued[1..]), handed := s.handed + [s.q.queued[0]])
  }

  function Next(c: Config, pc: Pc, s: Shared, giveUp: bool): Move
    requires ConfigOk(c)
  {
    match pc
    case Idle => Blocked
    case Want(job) => if s.locked then Blocked else To(Inside(job), s.(locked := true))
    case Inside(job) => Body(c, job, s, giveUp)
    case Give => To(Leave, s.(wake := true))
    case Leave => To(Idle, s.(locked := false))
    case Release => To(Take, s.(locked := false))
    case Take => if giveUp then To(TimedOut, s) else if s.wake then To(Took, s.(wake := false)) else Blocked
    case Took => if s.locked then Blocked else To(Inside(WaitFor), s.(locked := true))
    case TimedOut => if s.locked then Blocked else To(Inside(WaitFor), s.(locked := true))
  }

  /** Thread i takes its next step, or, being idle or new, calls job. */
  datatype Label = Go(i: nat, giveUp: bool) | Call(i: nat, job: Job)

  function Step(c: Config, s: State, l: Label): Option<State>
    requires ConfigOk(c)
  {
    match l
    case Go(i, giveUp) =>
      if i !in s.threads then None
      else
        var m := Next(c, s.threads[i], s.sh, giveUp);
        if m.Blocked? then None else Some(State(s.threads[i := m.pc], m.sh))
    case Call(i, job) =>
      if i in s.threads && !s.threads[i].Idle? then None else Some(s.(threads := s.threads[i := Want(job)]))
  }

  predicate Init(s: State) { s == State(map[], Shared(Model([], []), false, false, [], [])) }

  ghost predicate IsRun(c: Config, states: seq<State>, labels: seq<Label>) {
    && ConfigOk(c) && |states| == |labels| + 1
    && Init(states[0])
    && forall k | 0 <= k < |labels| :: Step(c, states[k], labels[k]) == Some(states[k + 1])
  }

  // ---------------------------------------------------------------- no reader sleeps beside a message

  predicate Holds(pc: Pc) { pc.Inside? || pc.Give? || pc.Leave? || pc.Release? }

  /** The thread will look at the queue again, or signal, before anyone needs the token. */
  predicate Sees(pc: Pc) { pc.Took? || pc == Inside(WaitFor) || pc.Give? }

  /** The lock is held by one thread; if a message is queued the token is set or some thread sees it. */
  ghost predicate Covered(s: State) {
    && (forall i, j | i in s.threads && j in s.threads && Holds(s.threads[i]) && Holds(s.threads[j]) :: i == j)
    && (s.sh.locked <==> exists i | i in s.threads :: Holds(s.threads[i]))
    && (s.sh.q.queued != [] ==> s.sh.wake || exists i | i in s.threads :: Sees(s.threads[i]))
    && (forall i | i in s.threads && s.threads[i].Release? :: s.sh.q.queued == [])
  }

  /** What a step of a thread does. */
  lemma NextIs(c: Config, pc: Pc, s: Shared, giveUp: bool)
    requires ConfigOk(c) && Next(c, pc, s, giveUp).To?
    ensures var m := Next(c, pc, s, giveUp);
      && (Holds(m.pc) && !Holds(pc) ==> !s.locked && m.sh.locked)
      && (Holds(pc) && !Holds(m.pc) ==> !m.sh.locked)
      && (Holds(pc) == Holds(m.pc) ==> m.sh.locked == s.locked)
      && (m.sh.q != s.q ==> pc.Inside?)
      && (m.sh.q.queued != [] && !m.sh.wake && !Sees(m.pc) ==> s.q.queued != [] && !s.wake && !Sees(pc))
      && (m.pc.Release? ==> m.sh.q.queued == [])
  {}

  lemma GoKeeps(c: Config, s: State, i: nat, giveUp: bool)
    requires ConfigOk(c) && Covered(s) && Step(c, s, Go(i, giveUp)).Some?
    ensures Covered(Step(c, s, Go(i, giveUp)).value)
  {
    NextIs(c, s.threads[i], s.sh, giveUp);
    hide Next, Holds, Sees;
    var s' := Step(c, s, Go(i, giveUp)).value;
    assert forall j | j in s.threads && j != i :: s'.threads[j] == s.threads[j];
    if s.sh.locked {
      var j :| j in s.threads && Holds(s.threads[j]);
      assert s'.sh.locked ==> Holds(s'.threads[j]);
    }
    assert Holds(s'.threads[i]) ==> s'.sh.locked;
    if s.sh.q.queued != [] && !s.sh.wake {
      var j :| j in s.threads && Sees(s.threads[j]);
      assert j == i || Sees(s'.threads[j]);
    }
  }

  lemma StepKeeps(c: Config, s: State, l: Label)
    requires ConfigOk(c) && Covered(s) && Step(c, s, l).Some?
    ensures Covered(Step(c, s, l).value)
  {
    match l
    case Go(i, giveUp) => GoKeeps(c, s, i, giveUp); hide Covered;
    case Call(i, job) =>
      var s' := Step(c, s, l).value;
      assert forall j | j in s.threads && (Holds(s.threads[j]) || Sees(s.threads[j])) :: s'.threads[j] == s.threads[j];
      hide Holds, Sees;
      if s.sh.locked {
        var j :| j in s.threads && Holds(s.threads[j]);
        assert Holds(s'.threads[j]);
      }
      if s.sh.q.queued != [] && !s.sh.wake {
        var j :| j in s.threads && Sees(s.threads[j]);
        assert Sees(s'.threads[j]);
      }
      IdleHoldsNothing(job);
  }

  lemma IdleHoldsNothing(job: Job)
    ensures !Holds(Want(job)) && !Sees(Want(job)) && !Holds(Idle) && !Sees(Idle)
  {}

  lemma {:induction false} RunCovered(c: Config, states: seq<State>, labels: seq<Label>, k: nat)
    requires IsRun(c, states, labels) && k < |states|
    ensures Covered(states[k])
  {
    hide Step;
    if k > 0 {
      RunCovered(c, states, labels, k - 1);
      assert Step(c, states[k - 1], labels[k - 1]) == Some(states[k]);
      hide Covered;
      StepKeeps(c, states[k - 1], labels[k - 1]);
    }
  }

  /** The state after the given steps, None if one of them is not possible. */
  function Steps(c: Config, s: State, labels: seq<Label>): Option<State>
    requires ConfigOk(c)
    decreases |labels|
  {
    if labels == [] then Some(s)
    else
      var s' := Step(c, s, labels[0]);
      if s'.None? then None else Steps(c, s'.value, labels[1..])
  }

  /** In every run, when the lock is free, a message is queued and a reader is waiting for the token,
      then either that reader can take the token or another has taken it and not looked yet; and
      whichever it is gets the oldest message by its own next steps, which nobody holds up. */
  lemma NoReaderSleepsBesideMessage(c: Config, states: seq<State>, labels: seq<Label>, k: nat, r: nat) returns (i: nat, via: seq<Label>)
    requires IsRun(c, states, labels) && k < |states|
    requires r in states[k].threads && states[k].threads[r] == Take
    requires !states[k].sh.locked && states[k].sh.q.queued != []
    ensures i in states[k].threads && if states[k].sh.wake then i == r else states[k].threads[i] == Took
    ensures |via| <= 3 && forall l | l in via :: l == Go(i, false)
    ensures var s' := Steps(c, states[k], via);
      s'.Some? && s'.value.sh.handed == states[k].sh.handed + [states[k].sh.q.queued[0]]
  {
    RunCovered(c, states, labels, k);
    hide IsRun;
    var s := states[k];
    if s.sh.wake {
      i := r;
      var s' := Step(c, s, Go(i, false)).value;
      TookGets(c, s', i);
      hide Step;
      var rest := [Go(i, false), Go(i, false)];
      via := [Go(i, false)] + rest;
      assert via[1..] == rest;
    } else {
      i :| i in s.threads && Sees(s.threads[i]);
      TookGets(c, s, i);
      hide Step;
      via := [Go(i, false), Go(i, false)];
    }
  }

  /** A reader that has consumed the token while the lock is free gets the head in two steps. */
  lemma TookGets(c: Config, s: State, i: nat)
    requires ConfigOk(c) && i in s.threads && s.threads[i] == Took && !s.sh.locked && s.sh.q.queued != []
    ensures var s' := Steps(c, s, [Go(i, false), Go(i, false)]);
      s'.Some? && s'.value.sh.handed == s.sh.handed + [s.sh.q.queued[0]]
  {
    var s1 := Step(c, s, Go(i, false)).value;
    var s2 := Step(c, s1, Go(i, false)).value;
    assert Steps(c, s2, []) == Some(s2);
    assert [Go(i, false), Go(i, false)][1..] == [Go(i, false)] && [Go(i, false)][1..] == [];
    hide Step;
    assert Steps(c, s1, [Go(i, false)]) == Some(s2);
  }

  // ---------------------------------------------------------------- conservation

  /** Every message accepted is queued, handed to a reader or freed, and nothing else is. */
  ghost predicate Conserved(s: Shared) {
    multiset(s.accepted) == multiset(s.q.queued) + multiset(s.handed) + multiset(s.q.freed)
  }

  lemma RoomConserves(m: Model, depth: nat, policy: Policy, droppable: Option<Item -> bool>)
    requires depth > 0
    ensures var room := Room(m, depth, policy, droppable);
      room.Some? ==>
        multiset(room.value.queued) + multiset(room.value.freed) == multiset(m.queued) + multiset(m.freed)
  {
    if |m.queued| >= depth {
      var v := Victim(m.queued, droppable);
      hide Victim;
      var rest, gone := m.queued[..v] + m.queued[v + 1..], m.queued[v];
      assert m.queued == m.queued[..v] + [gone] + m.queued[v + 1..];
      assert multiset(m.queued) == multiset(rest) + multiset{gone};
      assert multiset(m.freed + [gone]) == multiset(m.freed) + multiset{gone};
    }
  }

  lemma AddedConserves(m: Model, x: Item, front: bool, depth: nat, policy: Policy, droppable: Option<Item -> bool>)
    requires depth > 0
    ensures var r := Added(m, x, front, depth, policy, droppable);
      && (r.status != Ok ==> r.model == m)
      && (r.status == Ok ==>
            multiset(r.model.queued) + multiset(r.model.freed) == multiset(m.queued) + multiset(m.freed) + multiset{x})
  {
    var room := Room(m, depth, policy, droppable);
    RoomConserves(m, depth, policy, droppable);
    hide Room;
    if room.Some? {
      var q := room.value.queued;
      assert multiset([x] + q) == multiset{x} + multiset(q) && multiset(q + [x]) == multiset(q) + multiset{x};
    }
  }

  lemma WriteConserves(c: Config, x: Item, front: bool, s: Shared)
    requires ConfigOk(c) && Conserved(s)
    ensures Conserved(Body(c, Write(x, front), s, false).sh)
  {
    AddedConserves(s.q, x, front, c.depth, c.policy, c.droppable);
    var r := Added(s.q, x, front, c.depth, c.policy, c.droppable).model;
    hide Added;
    assert multiset(s.accepted + [x]) == multiset(s.accepted) + multiset{x};
    OneMore(multiset(s.accepted), multiset(s.q.queued), multiset(s.handed), multiset(s.q.freed), x,
      multiset(r.queued), multiset(r.freed));
  }

  lemma OneMore(a: multiset<Item>, q: multiset<Item>, h: multiset<Item>, f: multiset<Item>, x: Item,
                q': multiset<Item>, f': multiset<Item>)
    requires a == q + h + f
    ensures q' + f' == q + f + multiset{x} ==> a + multiset{x} == q' + h + f'
  {
    if q' + f' == q + f + multiset{x} {
      assert q' + h + f' == (q' + f') + h;
    }
  }

  lemma PurgeConserves(s: Shared)
    requires Conserved(s)
    ensures Conserved(s.(q := Purged(s.q)))
  {}

  lemma NextConserves(c: Config, pc: Pc, s: Shared, giveUp: bool)
    requires ConfigOk(c) && Next(c, pc, s, giveUp).To? && Conserved(s)
    ensures Conserved(Next(c, pc, s, giveUp).sh)
  {
    if pc.Inside? {
      if pc.job.Write? {
        WriteConserves(c, pc.job.x, pc.job.front, s);
      } else if pc.job.Purge? {
        PurgeConserves(s);
      } else if s.q.queued != [] {
        TakenConserves(s);
      }
      hide Conserved, Taken, Purged, Added;
    }
  }

  lemma TakenConserves(s: Shared)
    requires Conserved(s) && s.q.queued != []
    ensures Conserved(Taken(s))
  {
    var x := s.q.queued[0];
    assert s.q.queued == [x] + s.q.queued[1..];
    assert multiset(s.handed + [x]) == multiset(s.handed) + multiset{x};
  }

  lemma {:induction false} RunConserves(c: Config, states: seq<State>, labels: seq<Label>, k: nat)
    requires IsRun(c, states, labels) && k < |states|
    ensures Conserved(states[k].sh)
  {
    if k > 0 {
      RunConserves(c, states, labels, k - 1);
      var s, l := states[k - 1], labels[k - 1];
      assert Step(c, s, l) == Some(states[k]);
      hide IsRun, Conserved, Next;
      if l.Go? { NextConserves(c, s.threads[l.i], s.sh, l.giveUp); }
    }
  }

  /** A call that neither jumps the queue nor purges it. */
  predicate InOrder(l: Label) { l.Call? ==> !l.job.Purge? && (l.job.Write? ==> !l.job.front) }

  predicate JobInOrder(pc: Pc) { pc.Want? || pc.Inside? ==> InOrder(Call(0, pc.job)) }

  ghost predicate Fifo(s: State) {
    s.sh.accepted == s.sh.handed + s.sh.q.queued && forall i | i in s.threads :: JobInOrder(s.threads[i])
  }

  lemma NextFifo(c: Config, pc: Pc, s: Shared, giveUp: bool)
    requires ConfigOk(c) && c.policy == RejectNew && Next(c, pc, s, giveUp).To? && JobInOrder(pc)
    requires s.accepted == s.handed + s.q.queued
    ensures var m := Next(c, pc, s, giveUp);
      JobInOrder(m.pc) && m.sh.accepted == m.sh.handed + m.sh.q.queued
  {}

  /** With new messages refused when it is full and none put in front or purged, the queue hands the
      accepted messages out in the order they came, whoever writes and reads. */
  lemma {:induction false} RunFifo(c: Config, states: seq<State>, labels: seq<Label>, k: nat)
    requires IsRun(c, states, labels) && k < |states|
    requires c.policy == RejectNew && forall l | l in labels :: InOrder(l)
    ensures Fifo(states[k])
  {
    if k > 0 {
      RunFifo(c, states, labels, k - 1);
      var s, l := states[k - 1], labels[k - 1];
      assert Step(c, s, l) == Some(states[k]);
      assert l in labels;
      hide IsRun, Next;
      if l.Go? { NextFifo(c, s.threads[l.i], s.sh, l.giveUp); }
      hide JobInOrder;
      assert forall i | i in s.threads :: JobInOrder(s.threads[i]);
    }
  }

  // ---------------------------------------------------------------- order when messages are dropped

  /** s is t with some of its messages left out. */
  predicate LeftOf(s: seq<Item>, t: seq<Item>) {
    s == [] || (t != [] &&
      ((s[|s| - 1] == t[|t| - 1] && LeftOf(s[..|s| - 1], t[..|t| - 1])) || LeftOf(s, t[..|t| - 1])))
  }

  lemma LeftOfSnoc(s: seq<Item>, t: seq<Item>, x: Item)
    requires LeftOf(s, t)
    ensures LeftOf(s + [x], t + [x])
  {
    assert (s + [x])[..|s|] == s && (t + [x])[..|t|] == t;
  }

  /** Leaving out one more message. */
  lemma {:induction false} LeftOfWithout(s: seq<Item>, t: seq<Item>, i: nat)
    requires LeftOf(s, t) && i < |s|
    ensures LeftOf(s[..i] + s[i + 1..], t)
    decreases |t|
  {
    var r, init := s[..i] + s[i + 1..], t[..|t| - 1];
    if s[|s| - 1] == t[|t| - 1] && LeftOf(s[..|s| - 1], init) {
      if i == |s| - 1 {
        assert r == s[..|s| - 1];
        Weaken(r, t);
      } else {
        LeftOfWithout(s[..|s| - 1], init, i);
        assert r[..|r| - 1] == s[..|s| - 1][..i] + s[..|s| - 1][i + 1..];
      }
    } else {
      LeftOfWithout(s, init, i);
      Weaken(r, t);
    }
  }

  lemma Weaken(s: seq<Item>, t: seq<Item>)
    requires t != [] && LeftOf(s, t[..|t| - 1])
    ensures LeftOf(s, t)
  {}

  /** Leaving out all behind the first n. */
  lemma {:induction false} LeftOfTake(s: seq<Item>, t: seq<Item>, n: nat)
    requires LeftOf(s, t) && n <= |s|
    ensures LeftOf(s[..n], t)
    decreases |s|
  {
    if n < |s| {
      LeftOfWithout(s, t, |s| - 1);
      assert s[..|s| - 1] + s[|s|..] == s[..|s| - 1];
      LeftOfTake(s[..|s| - 1], t, n);
      assert s[..|s| - 1][..n] == s[..n];
    } else {
      assert s[..n] == s;
    }
  }

  /** A call that does not put its message in front. */
  predicate Behind(job: Job) { job.Write? ==> !job.front }

  predicate PcBehind(pc: Pc) { pc.Want? || pc.Inside? ==> Behind(pc.job) }

  ghost predicate Ordered(s: Shared) { LeftOf(s.handed + s.q.queued, s.accepted) }

  lemma WithoutBehind(h: seq<Item>, q: seq<Item>, v: nat)
    requires v < |q|
    ensures (h + q)[..|h| + v] + (h + q)[|h| + v + 1..] == h + (q[..v] + q[v + 1..])
  {}

  lemma RoomOrders(c: Config, m: Model, h: seq<Item>, t: seq<Item>)
    requires ConfigOk(c) && LeftOf(h + m.queued, t)
    ensures var room := Room(m, c.depth, c.policy, c.droppable); room.Some? ==> LeftOf(h + room.value.queued, t)
  {
    var q := m.queued;
    if |q| >= c.depth {
      hide LeftOf, Victim;
      var v := Victim(q, c.droppable);
      LeftOfWithout(h + q, t, |h| + v);
      WithoutBehind(h, q, v);
    }
  }

  lemma WriteOrders(c: Config, x: Item, s: Shared)
    requires ConfigOk(c) && Ordered(s)
    ensures Ordered(Body(c, Write(x, false), s, false).sh)
  {
    var h, q, t := s.handed, s.q.queued, s.accepted;
    var room := Room(s.q, c.depth, c.policy, c.droppable);
    if x.data == 0 || x.len <= 0 || room.None? { return; }
    var q' := room.value.queued;
    RoomOrders(c, s.q, h, t);
    hide LeftOf, Room;
    LeftOfSnoc(h + q', t, x);
    assert h + (q' + [x]) == h + q' + [x];
  }

  lemma NextOrders(c: Config, pc: Pc, s: Shared, giveUp: bool)
    requires ConfigOk(c) && Next(c, pc, s, giveUp).To? && Ordered(s) && PcBehind(pc)
    ensures Ordered(Next(c, pc, s, giveUp).sh) && PcBehind(Next(c, pc, s, giveUp).pc)
  {
    if pc.Inside? && pc.job.Write? {
      WriteOrders(c, pc.job.x, s);
      hide Ordered, Added;
    } else if pc.Inside? && pc.job.Purge? {
      LeftOfTake(s.handed + s.q.queued, s.accepted, |s.handed|);
      assert (s.handed + s.q.queued)[..|s.handed|] == s.handed + [];
    } else if pc.Inside? && s.q.queued != [] {
      assert s.handed + [s.q.queued[0]] + s.q.queued[1..] == s.handed + s.q.queued;
    }
  }

  /** In every run, with either policy, with messages dropped and purged and however many threads write
      and read: without additions in front the messages handed out are some of those accepted, in the
      order in which they were, and so are those still queued behind them. */
  lemma {:induction false} RunInOrder(c: Config, states: seq<State>, labels: seq<Label>, k: nat)
    requires IsRun(c, states, labels) && k < |states|
    requires forall l | l in labels && l.Call? :: Behind(l.job)
    ensures LeftOf(states[k].sh.handed + states[k].sh.q.queued, states[k].sh.accepted)
    ensures forall i | i in states[k].threads :: PcBehind(states[k].threads[i])
  {
    if k > 0 {
      RunInOrder(c, states, labels, k - 1);
      var s, l := states[k - 1], labels[k - 1];
      assert Step(c, s, l) == Some(states[k]);
      assert l in labels;
      hide IsRun, Next, LeftOf;
      if l.Go? { NextOrders(c, s.threads[l.i], s.sh, l.giveUp); }
    }
  }

  // ---------------------------------------------------------------- what becomes of a call

  /** Under the lock: a valid message gets in if there is room or the oldest may go, at its end of the queue; a
      reader gets the oldest message if there is one, and signals if more are left; a purge frees all. */
  lemma BodyDoes(c: Config, job: Job, s: Shared, giveUp: bool)
    requires ConfigOk(c)
    ensures Body(c, job, s, giveUp).To?
    ensures var m := Body(c, job, s, giveUp);
      match job
      case Write(x, front) =>
        if x.data != 0 && x.len > 0 && (|s.q.queued| < c.depth || c.policy.DropOldest?) then
          && m.pc == Give && m.sh.accepted == s.accepted + [x] && m.sh.handed == s.handed
          && m.sh.q.queued[if front then 0 else |m.sh.q.queued| - 1] == x
          && (|s.q.queued| < c.depth ==> m.sh.q.freed == s.q.freed)
        else m == To(Leave, s)
      case Purge => m == To(Leave, s.(q := Model([], s.q.freed + s.q.queued)))
      case _ =>
        if s.q.queued == [] then m.sh == s && m.pc == (if job.WaitFor? && !giveUp then Release else Leave)
        else
          && m.sh == s.(q := Model(s.q.queued[1..], s.q.freed), handed := s.handed + [s.q.queued[0]])
          && m.pc == (if job.WaitFor? && |s.q.queued| > 1 then Give else Leave)
  {
    if job.Write? { AddedIfAndOnlyIf(s.q, job.x, job.front, c.depth, c.policy, c.droppable); }
    hide Added;
  }

  /** The calls of thread i. */
  function CallsOf(i: nat): (State, Label) -> seq<Job> {
    (s: State, l: Label) => if l.Call? && l.i == i then [l.job] else []
  }

  /** The calls that thread i does under the lock; a waiting reader that finds nothing does not give up before
      its time has run out. */
  function DoneOf(i: nat): (State, Label) -> seq<Job> {
    (s: State, l: Label) =>
      if l.Go? && l.i == i && i in s.threads && s.threads[i].Inside?
         && !(s.threads[i].job.WaitFor? && s.sh.q.queued == [] && !l.giveUp)
      then [s.threads[i].job] else []
  }

  /** The call thread i has still to do. */
  function ToDo(s: State, i: nat): seq<Job> {
    if i !in s.threads then []
    else
      match s.threads[i]
      case Want(job) => [job]
      case Inside(job) => [job]
      case Release => [WaitFor]
      case Take => [WaitFor]
      case Took => [WaitFor]
      case TimedOut => [WaitFor]
      case _ => []
  }

  lemma GoDoes(c: Config, s: State, i: nat, giveUp: bool)
    requires ConfigOk(c) && Step(c, s, Go(i, giveUp)).Some?
    ensures ToDo(s, i) == DoneOf(i)(s, Go(i, giveUp)) + ToDo(Step(c, s, Go(i, giveUp)).value, i)
  {
    if s.threads[i].Inside? {
      BodyDoes(c, s.threads[i].job, s.sh, giveUp);
      hide Body;
    }
  }

  lemma StepDoes(c: Config, s: State, l: Label, i: nat)
    requires ConfigOk(c) && Step(c, s, l).Some?
    ensures ToDo(s, i) + CallsOf(i)(s, l) == DoneOf(i)(s, l) + ToDo(Step(c, s, l).value, i)
  {
    if l.Go? && l.i == i {
      GoDoes(c, s, i, l.giveUp);
      hide Next, ToDo;
    } else {
      hide Next;
    }
  }

  /** In every run each thread does all its calls under the lock, once and in order, but for one it is at: no
      writer is lost, and no waiting reader gives up but beside an empty queue. */
  lemma {:induction false} CallsAreDone(c: Config, states: seq<State>, labels: seq<Label>, k: nat, i: nat)
    requires IsRun(c, states, labels) && k < |states|
    ensures History(states, labels, k, CallsOf(i)) == History(states, labels, k, DoneOf(i)) + ToDo(states[k], i)
  {
    hide Step, ToDo, CallsOf, DoneOf;
    if k == 0 {
      NothingToDo(states[0], i);
    } else {
      CallsAreDone(c, states, labels, k - 1, i);
      var s, l := states[k - 1], labels[k - 1];
      assert Step(c, s, l) == Some(states[k]);
      hide IsRun;
      StepDoes(c, s, l, i);
      var calls, done := History(states, labels, k - 1, CallsOf(i)), History(states, labels, k - 1, DoneOf(i));
      assert calls + CallsOf(i)(s, l) == done + (ToDo(s, i) + CallsOf(i)(s, l));
    }
  }

  lemma NothingToDo(s: State, i: nat)
    requires Init(s)
    ensures ToDo(s, i) == []
  {}
}
