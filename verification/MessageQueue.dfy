/** The bounded message queue of components/esp_webrtc_utils/src/message_queue.c: its operations on the
    slot array, each one critical section of the queue's lock, against a sequence. */
module MessageQueue {
  import opened Common

  datatype Status = Ok | InvalidArg | InvalidState | NoMem | NotFound

  datatype Policy = DropOldest | RejectNew

  /** A message: the caller's buffer, 0 for NULL, and its length. */
  datatype Item = Item(data: nat, len: int)

  const EMPTY := Item(0, 0)

  // ---------------------------------------------------------------- the sequence it stands for

  /** The messages queued, oldest first, and those freed by the queue so far. */
  datatype Model = Model(queued: seq<Item>, freed: seq<Item>)

  datatype Outcome = Outcome(model: Model, status: Status)

  /** The first droppable message, or |q| if there is none. */
  function FirstDroppable(q: seq<Item>, droppable: Item -> bool): (i: nat)
    ensures i <= |q| && (i < |q| ==> droppable(q[i]))
    ensures forall j | 0 <= j < i :: !droppable(q[j])
  {
    if q == [] || droppable(q[0]) then 0 else 1 + FirstDroppable(q[1..], droppable)
  }

  /** The message that goes when the queue is full: the oldest droppable one, else the oldest. */
  function Victim(q: seq<Item>, droppable: Option<Item -> bool>): (i: nat)
    requires q != []
    ensures i < |q|
  {
    if droppable.None? then 0
    else
      var i := FirstDroppable(q, droppable.value);
      if i < |q| then i else 0
  }

  /** Room for one more message in a queue of the given depth, None when it refuses new ones. */
  function Room(m: Model, depth: nat, policy: Policy, droppable: Option<Item -> bool>): Option<Model>
    requires depth > 0
  {
    if |m.queued| < depth then Some(m)
    else if policy.RejectNew? then None
    else
      var v := Victim(m.queued, droppable);
      Some(Model(m.queued[..v] + m.queued[v + 1..], m.freed + [m.queued[v]]))
  }

  function Added(m: Model, x: Item, front: bool, depth: nat, policy: Policy, droppable: Option<Item -> bool>): Outcome
    requires depth > 0
  {
    var room := Room(m, depth, policy, droppable);
    if room.None? then Outcome(m, NoMem)
    else if front then Outcome(room.value.(queued := [x] + room.value.queued), Ok)
    else Outcome(room.value.(queued := room.value.queued + [x]), Ok)
  }

  function Purged(m: Model): Model { Model([], m.freed + m.queued) }

  // ---------------------------------------------------------------- the slots

  class Queue {
    var messages: array<Item>
    var depth: nat
    var count: nat
    var policy: Policy
    var droppable: Option<Item -> bool>
    /** Whether the lock exists, that is, the queue has been initialised. */
    var ready: bool
    /** What free_item has been called with, in order. */
    ghost var freed: seq<Item>

    ghost predicate Valid()
      reads this
    {
      if ready then messages.Length == depth > 0 && count <= depth else count == 0
    }

    ghost function Meaning(): Model
      reads this, messages
      requires Valid()
    {
      if ready then Model(messages[..count], freed) else Model([], freed)
    }

    /** Storage of a queue that has not been initialised. */
    constructor ()
      ensures Valid() && !ready && freed == []
    {
      messages := new Item[0];
      depth, count, policy, droppable, ready := 0, 0, DropOldest, None, false;
      freed := [];
    }

    /** message_queue_init_with_config; slotsOk and lockOk say that its allocations succeed. A repeat only
        purges. */
    method Init(depth: int, policy: Policy, slotsOk: bool, lockOk: bool) returns (status: Status)
      requires Valid()
      modifies this, messages
      ensures Valid() && (messages == old(messages) || fresh(messages))
      ensures status ==
        if depth <= 0 then InvalidArg else if old(ready) || (slotsOk && lockOk) then Ok else NoMem
      ensures status != Ok ==> ready == old(ready) && Meaning() == old(Meaning())
      ensures status == Ok ==> ready && Meaning() == Purged(old(Meaning()))
      ensures status == Ok && !old(ready) ==> this.depth == depth && this.policy == policy
      ensures old(ready) ==> this.depth == old(this.depth) && this.policy == old(this.policy)
    {
      if depth <= 0 { return InvalidArg; }
      if ready {
        status := Cleanup();
        return;
      }
      if !slotsOk || !lockOk { return NoMem; }
      messages := new Item[depth](_ => EMPTY);
      ready, this.depth, this.policy, count := true, depth, policy, 0;
      assert Meaning().freed == old(Meaning()).freed + [];
      status := Ok;
    }

    method FreeItem(x: Item)
      modifies this`freed
      ensures freed == old(freed) + [x]
    {
      freed := freed + [x];
    }

    /** message_queue_cleanup. */
    method Cleanup() returns (status: Status)
      requires Valid()
      modifies this`count, this`freed, messages
      ensures Valid() && status == Ok && Meaning() == Purged(old(Meaning()))
    {
      if !ready {
        count := 0;
        assert freed == freed + [];
        return Ok;
      }
      ghost var queued := messages[..count];
      var i := 0;
      while i < count
        invariant i <= count == old(count) && Valid() && queued == old(messages[..count])
        invariant freed == old(freed) + queued[..i]
        invariant messages[i..count] == queued[i..]
      {
        assert messages[i] == messages[i..count][0] == queued[i];
        FreeItem(messages[i]);
        messages[i] := messages[i].(data := 0);
        i := i + 1;
      }
      count := 0;
      status := Ok;
    }

    /** drop_index: the oldest droppable message, else the oldest. */
    method DropIndex() returns (victim: nat)
      requires Valid() && ready && count > 0
      ensures victim == Victim(messages[..count], droppable)
    {
      ghost var q := messages[..count];
      if droppable.Some? {
        var i := 0;
        while i < count
          invariant i <= count && FirstDroppable(q, droppable.value) >= i
        {
          if droppable.value(messages[i]) { return i; }
          i := i + 1;
        }
      }
      victim := 0;
    }

    /** Moves the messages after the victim down. */
    method ShiftDown(victim: nat)
      requires victim < messages.Length == depth
      modifies messages
      ensures messages[..depth - 1] == old(messages[..victim] + messages[victim + 1..])
    {
      var i := victim;
      while i < depth - 1
        invariant victim <= i <= depth - 1
        invariant forall j | 0 <= j < i :: messages[j] == old(messages[if j < victim then j else j + 1])
        invariant forall j | i < j < depth :: messages[j] == old(messages[j])
      {
        messages[i] := messages[i + 1];
        i := i + 1;
      }
    }

    /** make_room. */
    method MakeRoom() returns (room: bool)
      requires Valid() && ready
      modifies this`count, this`freed, messages
      ensures Valid()
      ensures var r := Room(old(Meaning()), depth, policy, droppable);
        room == r.Some? && Meaning() == if room then r.value else old(Meaning())
      ensures room ==> count < depth
    {
      if count < depth { return true; }
      if policy.RejectNew? { return false; }
      var victim := DropIndex();
      FreeItem(messages[victim]);
      ShiftDown(victim);
      count := count - 1;
      assert messages[..count] == old(messages[..victim] + messages[victim + 1..count]);
      room := true;
    }

    /** message_queue_add. */
    method Add(x: Item) returns (status: Status)
      requires Valid()
      modifies this`count, this`freed, messages
      ensures Valid()
      ensures Outcome(Meaning(), status) ==
        if x.data == 0 || x.len <= 0 then Outcome(old(Meaning()), InvalidArg)
        else if !ready then Outcome(old(Meaning()), InvalidState)
        else Added(old(Meaning()), x, false, depth, policy, droppable)
    {
      if x.data == 0 || x.len <= 0 { return InvalidArg; }
      if !ready { return InvalidState; }
      var room := MakeRoom();
      if !room { return NoMem; }
      messages[count] := x;
      count := count + 1;
      status := Ok;
    }

    /** message_queue_add_front. */
    method AddFront(x: Item) returns (status: Status)
      requires Valid()
      modifies this`count, this`freed, messages
      ensures Valid()
      ensures Outcome(Meaning(), status) ==
        if x.data == 0 || x.len <= 0 || !ready then Outcome(old(Meaning()), InvalidArg)
        else Added(old(Meaning()), x, true, depth, policy, droppable)
    {
      if x.data == 0 || x.len <= 0 || !ready { return InvalidArg; }
      var room := MakeRoom();
      if !room { return NoMem; }
      ghost var q := messages[..count];
      ShiftUp();
      messages[0] := x;
      count := count + 1;
      assert messages[..count] == [x] + q;
      status := Ok;
    }

    /** Moves every message up by one slot. */
    method ShiftUp()
      requires count < messages.Length
      modifies messages
      ensures messages[1..count + 1] == old(messages[..count])
    {
      var i: int := count;
      while i > 0
        invariant 0 <= i <= count < messages.Length
        invariant forall j | 0 <= j < i :: messages[j] == old(messages[j])
        invariant forall j | i < j <= count :: messages[j] == old(messages[j - 1])
      {
        messages[i] := messages[i - 1];
        i := i - 1;
      }
    }

    /** take_head. */
    method TakeHead() returns (x: Item)
      requires Valid() && ready && count > 0
      modifies this`count, messages
      ensures Valid()
      ensures x == old(Meaning()).queued[0]
      ensures Meaning() == old(Meaning()).(queued := old(Meaning()).queued[1..])
    {
      x := messages[0];
      var i := 0;
      while i < count - 1
        invariant i <= count - 1 && Valid()
        invariant forall j | 0 <= j < i :: messages[j] == old(messages[j + 1])
        invariant forall j | i < j < count :: messages[j] == old(messages[j])
        modifies messages
      {
        messages[i] := messages[i + 1];
        i := i + 1;
      }
      messages[count - 1] := EMPTY;
      count := count - 1;
    }

    /** message_queue_get_next. */
    method GetNext() returns (status: Status, x: Item)
      requires Valid()
      modifies this`count, messages
      ensures Valid()
      ensures status == if !ready then InvalidState else if old(Meaning()).queued == [] then NotFound else Ok
      ensures status == Ok ==> x == old(Meaning()).queued[0]
      ensures status == Ok ==> Meaning() == old(Meaning()).(queued := old(Meaning()).queued[1..])
      ensures status != Ok ==> x == EMPTY && Meaning() == old(Meaning())
    {
      if !ready { return InvalidState, EMPTY; }
      if count == 0 { return NotFound, EMPTY; }
      x := TakeHead();
      status := Ok;
    }
  }

  // ---------------------------------------------------------------- what an add on a full queue drops

  /** Adding to a full queue that drops the oldest frees one message and keeps the others in order: a
      droppable one with none before it, or, only if none is droppable, the oldest. */
  lemma FullAddDropsOldest(m: Model, x: Item, front: bool, depth: nat, droppable: Option<Item -> bool>) returns (v: nat)
    requires |m.queued| == depth > 0
    ensures v < depth
    ensures var r := Added(m, x, front, depth, DropOldest, droppable);
      var rest := m.queued[..v] + m.queued[v + 1..];
      && r.status == Ok && r.model.freed == m.freed + [m.queued[v]]
      && r.model.queued == if front then [x] + rest else rest + [x]
    ensures droppable.Some? && (exists y | y in m.queued :: droppable.value(y)) ==>
      droppable.value(m.queued[v]) && forall j | 0 <= j < v :: !droppable.value(m.queued[j])
    ensures (droppable.None? || forall y | y in m.queued :: !droppable.value(y)) ==> v == 0
  {
    v := Victim(m.queued, droppable);
  }

  /** A message is added if and only if there is room or the oldest may go; where there is room none goes, and
      where it is refused nothing changes. */
  lemma AddedIfAndOnlyIf(m: Model, x: Item, front: bool, depth: nat, policy: Policy, droppable: Option<Item -> bool>)
    requires depth > 0
    ensures var r := Added(m, x, front, depth, policy, droppable);
      && (r.status == Ok <==> |m.queued| < depth || policy.DropOldest?)
      && (r.status != Ok ==> r == Outcome(m, NoMem))
      && (|m.queued| < depth ==> r.model == Model(if front then [x] + m.queued else m.queued + [x], m.freed))
      && (r.status == Ok ==> r.model.queued[if front then 0 else |r.model.queued| - 1] == x)
      && (|m.queued| <= depth && r.status == Ok ==> |r.model.queued| == if |m.queued| < depth then |m.queued| + 1 else depth)
  {}
}
