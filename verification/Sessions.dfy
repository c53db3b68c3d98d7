/** The session tables of components/app_webrtc/src/app_webrtc.c: the hash table keyed by the CRC of
    the peer id, the compact session array, and the queues of candidates that came before an offer.
    Each method is one critical section of sampleConfigurationObjLock. */
module Sessions {
  import opened Common
  import Crc32

  datatype Status = Ok | InvalidArg | InvalidOperation | Internal | NoMemory

  datatype Kind = Offer | Candidate

  datatype Message = Message(kind: Kind, peer: seq<bv8>, payload: seq<bv8>)

  const MAX_PAYLOAD := 24 * 1024
  /** 20 seconds in units of 100 ns. */
  const PENDING_LIFETIME := 20 * 10_000_000

  /** The key of a client in the hash table. */
  datatype Hash = Hash(crc: bv32)

  function Key(peer: seq<bv8>): Hash { Hash(Crc32.Crc(0, peer)) }

  // ---------------------------------------------------------------- what the tables mean

  /** A live session: the messages its peer connection has accepted, oldest first. */
  datatype Peer = Peer(peerId: seq<bv8>, terminated: bool, sent: seq<Message>)

  /** A queue of candidates for a client without a session. */
  datatype Pending = Pending(hash: Hash, created: nat, messages: seq<Message>)

  datatype View = View(peers: map<Hash, Peer>, pending: seq<Pending>)

  /** The answers of the calls a handler makes: whether the client exists, a found session has its
      handle, create_session, calloc, send_message and hashTablePut succeed; which of the queued
      candidates send_message refuses first; and the time. */
  datatype Env = Env(clientReady: bool, handle: bool, createOk: bool, allocOk: bool, sendOk: bool,
                     refused: Option<nat>, putOk: bool, now: nat)

  datatype Outcome = Outcome(view: View, status: Status)

  function IndexOf(q: seq<Pending>, k: Hash): (i: nat)
    ensures i <= |q| && (i < |q| ==> q[i].hash == k)
    ensures forall j | 0 <= j < i :: q[j].hash != k
  {
    if q == [] then 0 else if q[0].hash == k then 0 else 1 + IndexOf(q[1..], k)
  }

  /** The candidates waiting for client k. */
  function Waiting(q: seq<Pending>, k: Hash): seq<Message> {
    var i := IndexOf(q, k);
    if i < |q| then q[i].messages else []
  }

  function Without(q: seq<Pending>, k: Hash): seq<Pending> {
    var i := IndexOf(q, k);
    if i < |q| then q[..i] + q[i + 1..] else q
  }

  function Queued(q: seq<Pending>, k: Hash, m: Message, now: nat): seq<Pending> {
    var i := IndexOf(q, k);
    if i < |q| then q[i := q[i].(messages := q[i].messages + [m])]
    else q + [Pending(k, now, [m])]
  }

  predicate Expired(p: Pending, now: nat) { p.created + PENDING_LIFETIME < now }

  function Unexpired(q: seq<Pending>, now: nat): seq<Pending> {
    if q == [] then [] else (if Expired(q[0], now) then [] else [q[0]]) + Unexpired(q[1..], now)
  }

  /** Whether the interface refuses one of the queued candidates. */
  predicate Refuses(refused: Option<nat>, messages: seq<Message>) { refused.Some? && refused.value < |messages| }

  /** An offer: renegotiate with a live session, or replace a terminated one, or start a new one. */
  function OfferSpec(v: View, capacity: nat, m: Message, e: Env): Outcome {
    var k := Key(m.peer);
    if k in v.peers && !v.peers[k].terminated then
      if !e.handle then Outcome(v, InvalidOperation)
      else if !e.sendOk then Outcome(v, Internal)
      else Outcome(v.(peers := v.peers[k := v.peers[k].(sent := v.peers[k].sent + [m])]), Ok)
    else StartSpec(v.(peers := v.peers - {k}), capacity, m, e)
  }

  function StartSpec(v: View, capacity: nat, m: Message, e: Env): Outcome {
    var k := Key(m.peer);
    if |v.peers| >= capacity then Outcome(v.(pending := Without(v.pending, k)), Ok)
    else if !e.clientReady then Outcome(v, InvalidOperation)
    else if !e.createOk then Outcome(v, Internal)
    else if !e.allocOk then Outcome(v, NoMemory)
    else AdmitSpec(v, m, e)
  }

  function AdmitSpec(v: View, m: Message, e: Env): Outcome {
    var k := Key(m.peer);
    var taken := v.(pending := Without(v.pending, k));
    if !e.sendOk then Outcome(v, Internal)
    else if Refuses(e.refused, Waiting(v.pending, k)) then Outcome(taken, Internal)
    else if !e.putOk then Outcome(taken, NoMemory)
    else Outcome(taken.(peers := v.peers[k := Peer(m.peer, false, [m] + Waiting(v.pending, k))]), Ok)
  }

  /** A candidate: to the client's session, or into its queue. */
  function CandidateSpec(v: View, m: Message, e: Env): Outcome {
    var k := Key(m.peer);
    if |m.payload| > MAX_PAYLOAD then Outcome(v, InvalidArg)
    else if k in v.peers then
      if !e.sendOk then Outcome(v, Internal)
      else Outcome(v.(peers := v.peers[k := v.peers[k].(sent := v.peers[k].sent + [m])]), Ok)
    else if IndexOf(v.pending, k) == |v.pending| && !e.allocOk then Outcome(v, NoMemory)
    else Outcome(v.(pending := Queued(v.pending, k, m, e.now)), Ok)
  }

  /** An offer of our own: reuse the client's session or start one. */
  function TriggerSpec(v: View, capacity: nat, peer: seq<bv8>, e: Env): Outcome {
    if Key(peer) in v.peers then Outcome(v, Ok)
    else if |v.peers| >= capacity || !e.clientReady then Outcome(v, InvalidOperation)
    else if !e.createOk then Outcome(v, Internal)
    else if !e.allocOk then Outcome(v, NoMemory)
    else Outcome(v.(peers := v.peers[Key(peer) := Peer(peer, false, [])]), Ok)
  }

  /** At most one queue per client, holding candidates of that client only. */
  ghost predicate PendingOk(q: seq<Pending>) {
    && (forall i, j | 0 <= i < j < |q| :: q[i].hash != q[j].hash)
    && (forall i | 0 <= i < |q| :: QueueOk(q[i]))
  }

  ghost predicate QueueOk(p: Pending) {
    forall m | m in p.messages :: m.kind.Candidate? && Key(m.peer) == p.hash
  }

  // ---------------------------------------------------------------- the tables

  /** A session. freed records that it has been given back. */
  class Session {
    const peerId: seq<bv8>
    var terminated: bool
    var sent: seq<Message>
    ghost var freed: bool

    constructor (peer: seq<bv8>)
      ensures peerId == peer && !terminated && sent == [] && !freed
    {
      peerId := peer;
      terminated := false;
      sent := [];
      freed := false;
    }
  }

  /** Table and array hold the same sessions, one for each key. */
  ghost predicate Agree(live: seq<Session>, table: map<Hash, Session>) {
    && (forall i, j | 0 <= i < j < |live| :: live[i] != live[j])
    && (forall s | s in live :: Key(s.peerId) in table && table[Key(s.peerId)] == s)
    && (forall k | k in table :: table[k] in live && Key(table[k].peerId) == k)
  }

  /** live without s, in whatever order. */
  ghost predicate Removed(live: seq<Session>, s: Session, rest: seq<Session>) {
    && (forall i, j | 0 <= i < j < |rest| :: rest[i] != rest[j])
    && s !in rest && (forall t | t in rest :: t in live) && (forall t | t in live && t != s :: t in rest)
  }

  lemma AgreeWithout(live: seq<Session>, table: map<Hash, Session>, s: Session, rest: seq<Session>)
    requires Agree(live, table) && s in live && Removed(live, s, rest)
    ensures Agree(rest, table - {Key(s.peerId)})
  {}

  lemma AgreeWith(live: seq<Session>, table: map<Hash, Session>, s: Session)
    requires Agree(live, table) && Key(s.peerId) !in table
    ensures Agree(live + [s], table[Key(s.peerId) := s])
  {
    hide Key;
    assert forall t :: t in live + [s] <==> t in live || t == s;
  }

  lemma RemovedAt(live: seq<Session>, i: nat)
    requires i < |live| && forall x, y | 0 <= x < y < |live| :: live[x] != live[y]
    ensures Removed(live, live[i], live[..i] + live[i + 1..])
  {}

  lemma AgreeDistinct(live: seq<Session>, table: map<Hash, Session>)
    requires Agree(live, table)
    ensures forall x, y | 0 <= x < y < |live| :: live[x] != live[y]
  {}

  /** There are as many of them in the one as in the other. */
  lemma {:induction false} AgreeCount(live: seq<Session>, table: map<Hash, Session>)
    requires Agree(live, table)
    ensures |live| == |table|
  {
    hide Key;
    if live == [] {
      assert table == map[];
    } else {
      var s, rest := live[|live| - 1], live[..|live| - 1];
      assert Removed(live, s, rest);
      AgreeWithout(live, table, s, rest);
      AgreeCount(rest, table - {Key(s.peerId)});
      assert table.Keys == (table - {Key(s.peerId)}).Keys + {Key(s.peerId)};
    }
  }

  class Context {
    const list: array<Session?>
    var count: nat
    var table: map<Hash, Session>
    var pending: seq<Pending>
    /** The sessions in the first count entries of list. */
    ghost var live: seq<Session>
    /** Every session ever made. */
    ghost var created: set<Session>

    ghost predicate ListOk()
      reads this, list
    {
      count == |live| <= list.Length && forall i | 0 <= i < count :: list[i] == live[i]
    }

    /** The listed sessions are those that have not been freed. */
    ghost predicate Owned()
      reads this, created
    {
      && (forall s | s in live :: s in created)
      && (forall s | s in created :: s.freed <==> s !in live)
    }

    ghost predicate Valid()
      reads this, list, created
      ensures Valid() ==> AllKnown()
    {
      hide Key, PendingOk;
      ListOk() && Owned() && Agree(live, table) && PendingOk(pending)
    }

    ghost function Meaning(): (v: View)
      reads this, created
      requires AllKnown()
      ensures v.pending == pending && v.peers.Keys == table.Keys
    {
      View(map k | k in table :: Peer(table[k].peerId, table[k].terminated, table[k].sent), pending)
    }

    constructor (capacity: nat)
      ensures Valid() && fresh(list) && list.Length == capacity && Meaning() == View(map[], []) && created == {}
    {
      list := new Session?[capacity](_ => null);
      count := 0;
      table := map[];
      pending := [];
      live := [];
      created := {};
    }

    method FreeSession(s: Session)
      requires s in created && !s.freed
      modifies s`terminated, s`freed
      ensures s.freed
    {
      s.terminated := true;
      s.freed := true;
    }

    /** A session found in the table is listed, live, and found under no other key. */
    lemma Found(k: Hash)
      requires Owned() && Agree(live, table) && k in table
      ensures table[k] in live && table[k] in created && !table[k].freed && Key(table[k].peerId) == k
      ensures forall j | j in table && j != k :: table[j] != table[k]
      ensures forall j | j in table :: table[j] in created
    {}

    ghost predicate AllKnown()
      reads this
    {
      forall k | k in table :: table[k] in created && table[k] in live
    }

    /** The array has as many live entries as there are sessions. */
    lemma CountIsPeers()
      requires Valid()
      ensures count == |Meaning().peers| && forall k :: k in Meaning().peers <==> k in table
    {
      hide Key, PendingOk;
      AgreeCount(live, table);
      assert Meaning().peers.Keys == table.Keys;
    }

    lemma AllFound()
      requires Agree(live, table) && forall s | s in live :: s in created
      ensures AllKnown()
      ensures forall s | s in live :: Key(s.peerId) in table && table[Key(s.peerId)] == s
    {}

    /** hashTableRemove fails when the key is missing. */
    method TableRemove(k: Hash) returns (ok: bool)
      modifies this`table
      ensures ok <==> k in old(table)
      ensures table == old(table) - {k}
    {
      ok := k in table;
      table := table - {k};
    }

    /** Takes s out of the array by moving the last entry into its place. */
    method RemoveBySwap(s: Session)
      requires ListOk() && s in live
      requires forall i, j | 0 <= i < j < count :: live[i] != live[j]
      modifies this`count, this`live, list
      ensures ListOk() && Removed(old(live), s, live)
    {
      var idx := 0;
      while idx < count && list[idx] != s
        invariant 0 <= idx <= count && s !in live[..idx]
      {
        idx := idx + 1;
      }
      count := count - 1;
      list[idx] := list[count];
      live := live[idx := live[count]][..count];
      forall t | t in old(live) && t != s ensures t in live {
        var j :| 0 <= j <= count && old(live)[j] == t;
        assert live[if j == count then idx else j] == t;
      }
    }

    /** Takes entry i out of the array by moving the later ones down. */
    method RemoveByShift(i: nat)
      requires ListOk() && i < count
      modifies this`count, this`live, list
      ensures ListOk() && live == old(live[..i] + live[i + 1..])
    {
      var j := i;
      while j < count - 1
        invariant i <= j <= count - 1 && count == |live| <= list.Length && live == old(live)
        invariant forall x | 0 <= x < j :: list[x] == live[if x < i then x else x + 1]
        invariant forall x | j < x < count :: list[x] == live[x]
      {
        list[j] := list[j + 1];
        j := j + 1;
      }
      count := count - 1;
      live := live[..i] + live[i + 1..];
    }

    /** Adds s at the end of the array. */
    method Append(s: Session)
      requires ListOk() && count < list.Length
      modifies this`count, this`live, list
      ensures ListOk() && live == old(live) + [s]
    {
      list[count] := s;
      count := count + 1;
      live := live + [s];
    }

    /** Gives up session s: out of the table, out of the array, freed. */
    method Replace(k: Hash, s: Session) returns (ok: bool)
      requires Valid() && k in table && table[k] == s
      modifies this`table, this`count, this`live, list, s`terminated, s`freed
      ensures Valid() && ok
      ensures Meaning() == old(Meaning()).(peers := old(Meaning()).peers - {k})
    {
      hide Key;
      ok := TableRemove(k);
      RemoveBySwap(s);
      FreeSession(s);
      AgreeWithout(old(live), old(table), s, live);
    }

    /** The tables are right but for s, a session that is not listed. */
    ghost predicate ValidBut(s: Session)
      reads this, list, created
    {
      && ListOk() && Agree(live, table) && PendingOk(pending)
      && s in created && s !in live && !s.freed
      && (forall t | t in live :: t in created)
      && (forall t | t in created && t != s :: t.freed <==> t !in live)
    }

    /** Makes a session that is not listed yet. */
    method NewSession(peer: seq<bv8>) returns (s: Session)
      requires Valid()
      modifies this`created
      ensures fresh(s) && s.peerId == peer && !s.terminated && s.sent == []
      ensures ValidBut(s) && created == old(created) + {s}
      ensures AllKnown() && Meaning() == old(Meaning())
    {
      hide Key, PendingOk, Agree;
      AllFound();
      s := new Session(peer);
      created := created + {s};
      assert forall k | k in table :: table[k] in old(created);
    }

    /** Frees a session that is not listed. */
    method Discard(s: Session)
      requires ValidBut(s) && AllKnown()
      modifies s`terminated, s`freed
      ensures Valid() && Meaning() == old(Meaning())
    {
      hide Key, PendingOk, Agree;
      FreeSession(s);
      AllFound();
    }

    /** Publishes session s. */
    method Publish(s: Session)
      requires ValidBut(s) && AllKnown() && count < list.Length && Key(s.peerId) !in table
      modifies this`table, this`count, this`live, list
      ensures Valid()
      ensures Meaning() == old(Meaning()).(peers :=
        old(Meaning()).peers[Key(s.peerId) := Peer(s.peerId, s.terminated, s.sent)])
    {
      hide Key, PendingOk, Agree;
      table := table[Key(s.peerId) := s];
      Append(s);
      AgreeWith(old(live), old(table), s);
      AllFound();
    }

    /** getPendingMessageQueueForHash, with remove set. */
    method TakePending(k: Hash) returns (queue: Option<Pending>)
      requires PendingOk(pending)
      modifies this`pending
      ensures pending == Without(old(pending), k) && PendingOk(pending)
      ensures (if queue.Some? then queue.value.messages else []) == Waiting(old(pending), k)
      ensures queue.Some? ==> forall m | m in queue.value.messages :: m.kind.Candidate?
    {
      WithoutKeeps(pending, k);
      hide PendingOk;
      var i := FindPending(k);
      if i == |pending| { return None; }
      queue := Some(pending[i]);
      pending := pending[..i] + pending[i + 1..];
    }

    /** The search both uses of it begin with. */
    method FindPending(k: Hash) returns (i: nat)
      ensures i == IndexOf(pending, k)
    {
      i := 0;
      while i < |pending| && pending[i].hash != k
        invariant i <= |pending| && i + IndexOf(pending[i..], k) == IndexOf(pending, k)
      {
        assert pending[i..][1..] == pending[i + 1..];
        i := i + 1;
      }
    }

    /** submitPendingIceCandidate: hands the candidates of a queue to the session, oldest first. */
    method Submit(s: Session, messages: seq<Message>, refused: Option<nat>) returns (ok: bool)
      requires forall m | m in messages :: m.kind.Candidate?
      modifies s`sent
      ensures ok <==> !Refuses(refused, messages)
      ensures ok ==> s.sent == old(s.sent) + messages
    {
      var queue, n := messages, 0;
      while queue != []
        invariant n <= |messages| && queue == messages[n..]
        invariant s.sent == old(s.sent) + messages[..n]
        invariant refused.Some? ==> refused.value >= n
        decreases |queue|
      {
        var m := queue[0];
        queue := queue[1..];
        if m.kind.Candidate? {
          if refused == Some(n) { return false; }
          s.sent := s.sent + [m];
        }
        n := n + 1;
      }
      ok := true;
    }

    /** Hands s the offer and the candidates waiting for its client. */
    method Introduce(s: Session, m: Message, e: Env) returns (status: Status)
      requires ValidBut(s) && AllKnown() && s.sent == []
      modifies this`pending, s`sent
      ensures ValidBut(s) && AllKnown()
      ensures Meaning() == if !e.sendOk then old(Meaning()) else old(Meaning()).(pending := Without(old(pending), Key(m.peer)))
      ensures status == if !e.sendOk || Refuses(e.refused, Waiting(old(pending), Key(m.peer))) then Internal else Ok
      ensures status == Ok ==> s.sent == [m] + Waiting(old(pending), Key(m.peer))
    {
      hide Key, PendingOk, Agree, IndexOf, Waiting, Without;
      AllFound();
      if !e.sendOk { return Internal; }
      s.sent := s.sent + [m];
      var queue := TakePending(Key(m.peer));
      if queue.Some? {
        var ok := Submit(s, queue.value.messages, e.refused);
        if !ok { return Internal; }
      }
      return Ok;
    }

    /** signalingMessageReceived, for an offer. */
    method OnOffer(m: Message, e: Env) returns (status: Status)
      requires Valid() && m.kind.Offer?
      modifies this`table, this`count, this`live, this`pending, this`created, list, created
      ensures Valid() && fresh(created - old(created))
      ensures Outcome(Meaning(), status) == OfferSpec(old(Meaning()), list.Length, m, e)
    {
      hide Key, StartSpec;
      var k := Key(m.peer);
      if k in table {
        var s := table[k];
        if !s.terminated {
          if !e.handle { return InvalidOperation; }
          if !e.sendOk { return Internal; }
          Deliver(k, table[k], m);
          return Ok;
        }
        var ok := Replace(k, s);
        if !ok { return Internal; }
      }
      assert Meaning() == old(Meaning()).(peers := old(Meaning()).peers - {k});
      status := StartSession(m, e);
    }

    /** Frees the queue of client k, if there is one. */
    method DropPending(k: Hash)
      requires Valid()
      modifies this`pending
      ensures Valid() && Meaning() == old(Meaning()).(pending := Without(old(pending), k))
    {
      hide Key, PendingOk, Agree, Without;
      var queue := TakePending(k);
    }

    /** ... where no session of the client is left. */
    method StartSession(m: Message, e: Env) returns (status: Status)
      requires Valid() && m.kind.Offer? && Key(m.peer) !in table
      modifies this`table, this`count, this`live, this`pending, this`created, list
      ensures Valid() && fresh(created - old(created))
      ensures Outcome(Meaning(), status) == StartSpec(old(Meaning()), list.Length, m, e)
    {
      CountIsPeers();
      hide Key, PendingOk, Agree, Waiting, Without, Refuses, Valid, ValidBut, AdmitSpec;
      if count >= list.Length {
        DropPending(Key(m.peer));
        return Ok;
      }
      if !e.clientReady { return InvalidOperation; }
      if !e.createOk { return Internal; }
      if !e.allocOk { return NoMemory; }
      status := Admit(m, e);
    }

    /** ... and everything up to the new session's own allocation has succeeded. */
    method Admit(m: Message, e: Env) returns (status: Status)
      requires Valid() && Key(m.peer) !in table && count < list.Length
      modifies this`table, this`count, this`live, this`pending, this`created, list
      ensures Valid() && fresh(created - old(created))
      ensures Outcome(Meaning(), status) == AdmitSpec(old(Meaning()), m, e)
    {
      hide Key, PendingOk, Agree, Waiting, Without, Refuses, Valid, ValidBut, ListOk, Meaning;
      var s := NewSession(m.peer);
      status := Introduce(s, m, e);
      if status == Ok && !e.putOk { status := NoMemory; }
      if status != Ok {
        Discard(s);
        return;
      }
      Publish(s);
    }

    /** Hands m to s, the session of client k. */
    method Deliver(k: Hash, s: Session, m: Message)
      requires Valid() && k in table && table[k] == s
      modifies s`sent
      ensures Valid()
      ensures Meaning() == old(Meaning()).(peers :=
        old(Meaning()).peers[k := old(Meaning()).peers[k].(sent := old(Meaning()).peers[k].sent + [m])])
    {
      hide Key, PendingOk, Agree;
      Found(k);
      s.sent := s.sent + [m];
    }

    /** signalingMessageReceived, for a candidate. */
    method OnCandidate(m: Message, e: Env) returns (status: Status)
      requires Valid() && m.kind.Candidate?
      modifies this`pending, created
      ensures Valid()
      ensures Outcome(Meaning(), status) == CandidateSpec(old(Meaning()), m, e)
    {
      hide Key, PendingOk, Agree, IndexOf;
      var k := Key(m.peer);
      if |m.payload| > MAX_PAYLOAD { return InvalidArg; }
      if k in table {
        if !e.sendOk { return Internal; }
        Deliver(k, table[k], m);
        return Ok;
      }
      QueuedKeeps(pending, k, m, e.now);
      var i := FindPending(k);
      if i == |pending| {
        if !e.allocOk { return NoMemory; }
        pending := pending + [Pending(k, e.now, [])];
      }
      pending := pending[i := pending[i].(messages := pending[i].messages + [m])];
      assert pending == Queued(old(pending), k, m, e.now) by {
        assert [] + [m] == [m];
      }
      status := Ok;
    }

    /** The session part of app_webrtc_trigger_offer; hashTablePut succeeds. */
    method TriggerOffer(peer: seq<bv8>, e: Env) returns (status: Status)
      requires Valid()
      modifies this`table, this`count, this`live, this`created, list
      ensures Valid() && fresh(created - old(created))
      ensures Outcome(Meaning(), status) == TriggerSpec(old(Meaning()), list.Length, peer, e)
    {
      hide Key, PendingOk, Agree;
      AllFound();
      CountIsPeers();
      if Key(peer) in table { return Ok; }
      if count >= list.Length { return InvalidOperation; }
      if !e.clientReady { return InvalidOperation; }
      if !e.createOk { return Internal; }
      if !e.allocOk { return NoMemory; }
      var s := NewSession(peer);
      Publish(s);
      status := Ok;
    }

    /** Gives up entry i: out of the table, out of the array, freed. */
    method Reap(i: nat, s: Session) returns (aborted: bool)
      requires Valid() && i < count && list[i] == s
      modifies this`table, this`count, this`live, list, s`terminated, s`freed
      ensures Valid() && !aborted
      ensures Key(s.peerId) in old(table)
      ensures Meaning() == old(Meaning()).(peers := old(Meaning()).peers - {Key(s.peerId)})
    {
      hide Key, PendingOk;
      AgreeDistinct(live, table);
      var k := Key(s.peerId);
      assert live[i] == s;
      var ok := TableRemove(k);
      if !ok { return true; }
      RemoveByShift(i);
      RemovedAt(old(live), i);
      AgreeWithout(old(live), old(table), s, live);
      FreeSession(s);
      return false;
    }

    /** One pass of sessionCleanupWait over the array: gives up the first terminated session.
        aborted says that hashTableRemove failed, which ends the loop for good. */
    method CleanupPass() returns (aborted: bool, gone: Option<Hash>)
      requires Valid()
      modifies this`table, this`count, this`live, list, created
      ensures Valid() && !aborted
      ensures gone.None? ==> Meaning() == old(Meaning()) && forall k | k in Meaning().peers :: !Meaning().peers[k].terminated
      ensures gone.Some? ==> gone.value in old(Meaning()).peers && old(Meaning()).peers[gone.value].terminated
      ensures gone.Some? ==> Meaning() == old(Meaning()).(peers := old(Meaning()).peers - {gone.value})
    {
      hide Key, PendingOk, Agree;
      AllFound();
      var i := 0;
      while i < count
        invariant i <= count && Valid() && Meaning() == old(Meaning()) && live == old(live)
        invariant forall j | 0 <= j < i :: !live[j].terminated
      {
        var s := list[i];
        if s.terminated {
          aborted := Reap(i, s);
          return aborted, Some(Key(s.peerId));
        }
        i := i + 1;
      }
      return false, None;
    }

    /** app_webrtc_close_all_sessions marks every session. */
    method CloseAll()
      requires Valid()
      modifies created
      ensures Valid()
      ensures Meaning() == old(Meaning()).(peers := map k | k in old(Meaning()).peers :: old(Meaning()).peers[k].(terminated := true))
    {
      hide Key;
      var i := 0;
      while i < count
        invariant i <= count && Valid() && table == old(table)
        invariant forall j | 0 <= j < i :: live[j].terminated
        invariant forall s | s in live :: s.sent == old(s.sent)
      {
        list[i].terminated := true;
        i := i + 1;
      }
    }

    /** freeAllAppWebRTCSessions: unpublish them all, then free them. */
    method FreeAll()
      requires Valid()
      modifies this`table, this`count, this`live, list, created
      ensures Valid() && count == 0 && Meaning() == old(Meaning()).(peers := map[])
      ensures forall s | s in created :: s.freed
    {
      hide Key;
      table := map[];
      var sessions, n := list[..count], count;
      ghost var all := live;
      var i := 0;
      while i < n
        invariant i <= n <= list.Length && sessions == old(list[..count])
        modifies list
      {
        list[i] := null;
        i := i + 1;
      }
      count := 0;
      live := [];
      i := 0;
      while i < n
        invariant i <= n == |sessions| == |all|
        invariant forall s | s in created :: s.freed <==> s !in all[i..]
        modifies created
      {
        FreeSession(sessions[i]);
        i := i + 1;
      }
    }

    /** removeExpiredMessageQueues: dequeues each queue once and puts back those not expired. */
    method RemoveExpired(now: nat)
      requires Valid()
      modifies this`pending
      ensures Valid()
      ensures Meaning() == old(Meaning()).(pending := Unexpired(old(pending), now))
    {
      hide Key, PendingOk, Agree, Unexpired, Expired;
      UnexpiredNone(now);
      var n, i := |pending|, 0;
      while i < n
        invariant i <= n == |old(pending)|
        invariant pending == old(pending)[i..] + Unexpired(old(pending)[..i], now)
        modifies this`pending
      {
        var p := pending[0];
        pending := pending[1..];
        UnexpiredLast(old(pending)[..i + 1], now);
        assert old(pending)[..i + 1][..i] == old(pending)[..i];
        if !Expired(p, now) {
          pending := pending + [p];
        }
        i := i + 1;
      }
      assert old(pending)[..n] == old(pending);
      assert pending == Unexpired(old(pending), now);
      UnexpiredKeeps(old(pending), now);
    }
  }

  // ---------------------------------------------------------------- the pending queues

  lemma WithoutKeeps(q: seq<Pending>, k: Hash)
    requires PendingOk(q)
    ensures PendingOk(Without(q, k))
    ensures IndexOf(q, k) < |q| ==> forall m | m in q[IndexOf(q, k)].messages :: m.kind.Candidate?
  {}

  lemma QueuedKeeps(q: seq<Pending>, k: Hash, m: Message, now: nat)
    requires PendingOk(q) && m.kind.Candidate? && Key(m.peer) == k
    ensures PendingOk(Queued(q, k, m, now))
  {}

  lemma UnexpiredNone(now: nat)
    ensures Unexpired([], now) == []
  {}

  lemma {:induction false} UnexpiredLast(q: seq<Pending>, now: nat)
    requires q != []
    ensures var n := |q| - 1; Unexpired(q, now) == Unexpired(q[..n], now) + (if Expired(q[n], now) then [] else [q[n]])
  {
    if |q| > 1 {
      UnexpiredLast(q[1..], now);
      assert q[1..][..|q| - 2] == q[..|q| - 1][1..];
    }
  }

  /** The expiry pass keeps exactly the queues that have not expired. */
  lemma {:induction false} UnexpiredIs(q: seq<Pending>, now: nat)
    ensures forall p :: p in Unexpired(q, now) <==> p in q && !Expired(p, now)
  {
    if q != [] {
      UnexpiredIs(q[1..], now);
      assert q == [q[0]] + q[1..];
    }
  }

  lemma PendingCons(p: Pending, q: seq<Pending>, rest: seq<Pending>)
    requires PendingOk([p] + q) && PendingOk(rest) && forall r | r in rest :: r in q
    ensures PendingOk([p] + rest) && PendingOk(q)
  {
    hide Key;
    var all := [p] + q;
    hide QueueOk;
    forall i | 0 <= i < |q| ensures q[i] == all[i + 1] && q[i].hash != p.hash {
      assert all[0] == p;
    }
    forall i | 0 <= i < |rest| ensures rest[i].hash != p.hash {
      assert rest[i] in q;
    }
    assert all[0] == p;
  }

  lemma {:induction false} UnexpiredKeeps(q: seq<Pending>, now: nat)
    ensures PendingOk(q) ==> PendingOk(Unexpired(q, now))
  {
    if q != [] && PendingOk(q) {
      UnexpiredKeeps(q[1..], now);
      UnexpiredIs(q[1..], now);
      assert q == [q[0]] + q[1..];
      PendingCons(q[0], q[1..], []);
      PendingCons(q[0], q[1..], Unexpired(q[1..], now));
      hide PendingOk, Expired;
    }
  }

  // ---------------------------------------------------------------- every run

  /** What can happen to the tables: the critical sections above, with ends of connections between. */
  datatype Op =
    | AnOffer(m: Message, e: Env)
    | ACandidate(m: Message, e: Env)
    | ATrigger(peer: seq<bv8>, e: Env)
    | AReap(k: Hash)
    | AnEnd(k: Hash)
    | AClose
    | AnExpiry(now: nat)

  function Apply(v: View, capacity: nat, op: Op): View {
    match op
    case AnOffer(m, e) => OfferSpec(v, capacity, m, e).view
    case ACandidate(m, e) => CandidateSpec(v, m, e).view
    case ATrigger(peer, e) => TriggerSpec(v, capacity, peer, e).view
    case AReap(k) => if k in v.peers && v.peers[k].terminated then v.(peers := v.peers - {k}) else v
    case AnEnd(k) => if k in v.peers then v.(peers := v.peers[k := v.peers[k].(terminated := true)]) else v
    case AClose => v.(peers := map k | k in v.peers :: v.peers[k].(terminated := true))
    case AnExpiry(now) => v.(pending := Unexpired(v.pending, now))
  }

  function Run(v: View, capacity: nat, ops: seq<Op>): View {
    if ops == [] then v else Apply(Run(v, capacity, ops[..|ops| - 1]), capacity, ops[|ops| - 1])
  }

  /** The message of client k that op takes in, if any; an offer refused at the limit on sessions is not,
      although its status is Ok. */
  function Taken(v: View, capacity: nat, op: Op, k: Hash): seq<Message> {
    match op
    case AnOffer(m, e) =>
      var r := OfferSpec(v, capacity, m, e);
      if Key(m.peer) == k && r.status == Ok && k in r.view.peers then [m] else []
    case ACandidate(m, e) => if Key(m.peer) == k && CandidateSpec(v, m, e).status == Ok then [m] else []
    case _ => []
  }

  function Heard(v: View, capacity: nat, ops: seq<Op>, k: Hash): seq<Message> {
    if ops == [] then []
    else
      var before := ops[..|ops| - 1];
      Heard(v, capacity, before, k) + Taken(Run(v, capacity, before), capacity, ops[|ops| - 1], k)
  }

  /** op gives up what there is for client k: it ends or replaces its session, drops candidates that
      wait for it, or makes a session on our own initiative. */
  predicate Disturbs(v: View, capacity: nat, op: Op, k: Hash) {
    match op
    case AnOffer(m, e) => Key(m.peer) == k &&
      if k in v.peers then v.peers[k].terminated
      else
        var r := OfferSpec(v, capacity, m, e).view;
        k !in r.peers && Waiting(r.pending, k) != Waiting(v.pending, k)
    case ACandidate(_, _) => false
    case ATrigger(peer, _) => Key(peer) == k && k !in v.peers
    case AReap(j) => j == k
    case AnEnd(_) => false
    case AClose => false
    case AnExpiry(now) => IndexOf(v.pending, k) < |v.pending| && Expired(v.pending[IndexOf(v.pending, k)], now)
  }

  predicate Undisturbed(v: View, capacity: nat, ops: seq<Op>, k: Hash) {
    ops == [] ||
    (Undisturbed(v, capacity, ops[..|ops| - 1], k)
      && !Disturbs(Run(v, capacity, ops[..|ops| - 1]), capacity, ops[|ops| - 1], k))
  }

  function FirstOffer(h: seq<Message>): (p: nat)
    ensures p <= |h| && (p < |h| ==> h[p].kind.Offer?)
    ensures forall j | 0 <= j < p :: h[j].kind.Candidate?
  {
    if h == [] || h[0].kind.Offer? then 0 else 1 + FirstOffer(h[1..])
  }

  /** h with entry p moved to the front. */
  function ToFront(h: seq<Message>, p: nat): seq<Message>
    requires p < |h|
  {
    [h[p]] + h[..p] + h[p + 1..]
  }

  function OfferFirst(h: seq<Message>): seq<Message> {
    var p := FirstOffer(h);
    if p < |h| then ToFront(h, p) else h
  }

  lemma ToFrontSnoc(h: seq<Message>, p: nat, m: Message)
    requires p < |h|
    ensures ToFront(h + [m], p) == ToFront(h, p) + [m]
  {}

  lemma ToFrontLast(h: seq<Message>, m: Message)
    ensures ToFront(h + [m], |h|) == [m] + h
  {}

  lemma FirstOfferIs(h: seq<Message>, p: nat)
    requires p <= |h| && (p < |h| ==> h[p].kind.Offer?) && forall j | 0 <= j < p :: h[j].kind.Candidate?
    ensures FirstOffer(h) == p
  {}

  lemma FirstOfferSnoc(h: seq<Message>, m: Message)
    ensures FirstOffer(h + [m]) == if FirstOffer(h) == |h| && m.kind.Candidate? then |h| + 1 else FirstOffer(h)
  {
    var p, t := FirstOffer(h), h + [m];
    assert forall j | 0 <= j < |h| :: t[j] == h[j];
    FirstOfferIs(t, if p == |h| && m.kind.Candidate? then |h| + 1 else p);
  }

  lemma OfferFirstSnoc(h: seq<Message>, m: Message)
    ensures OfferFirst(h + [m]) ==
      if FirstOffer(h) < |h| then OfferFirst(h) + [m] else if m.kind.Offer? then [m] + h else h + [m]
  {
    FirstOfferSnoc(h, m);
    hide FirstOffer, ToFront;
    if FirstOffer(h) < |h| {
      ToFrontSnoc(h, FirstOffer(h), m);
    } else if m.kind.Offer? {
      ToFrontLast(h, m);
    }
  }

  /** What client k has sent and the tables still hold is h: handed to its session, the offer first and
      then the candidates as they came, or waiting. */
  ghost predicate Keeps(v: View, k: Hash, h: seq<Message>) {
    && PendingOk(v.pending)
    && (k in v.peers <==> FirstOffer(h) < |h|)
    && (if k in v.peers then v.peers[k].sent == OfferFirst(h) && Waiting(v.pending, k) == [] else Waiting(v.pending, k) == h)
  }

  /** Without drops the one queue of j. */
  lemma WithoutIs(q: seq<Pending>, j: Hash)
    requires PendingOk(q)
    ensures forall p | p in Without(q, j) :: p in q && p.hash != j
    ensures forall p | p in q && p.hash != j :: p in Without(q, j)
  {}

  lemma WaitingWithout(q: seq<Pending>, j: Hash, k: Hash)
    requires PendingOk(q)
    ensures Waiting(Without(q, j), k) == if j == k then [] else Waiting(q, k)
  {
    WithoutKeeps(q, j);
    WithoutIs(q, j);
    hide Without, PendingOk;
    SameQueueSameWaiting(Without(q, j), q, k, j);
  }

  lemma SameQueueSameWaiting(r: seq<Pending>, q: seq<Pending>, k: Hash, j: Hash)
    requires PendingOk(q) && PendingOk(r)
    requires forall p | p in r :: p in q && p.hash != j
    requires forall p | p in q && p.hash != j :: p in r
    ensures Waiting(r, k) == if j == k then [] else Waiting(q, k)
  {}

  /** Queues are found wherever they are. */
  lemma WaitingIs(q: seq<Pending>, k: Hash)
    requires PendingOk(q)
    ensures forall i | 0 <= i < |q| && q[i].hash == k :: Waiting(q, k) == q[i].messages
    ensures (forall i | 0 <= i < |q| :: q[i].hash != k) ==> Waiting(q, k) == []
  {}

  lemma WaitingQueued(q: seq<Pending>, j: Hash, m: Message, now: nat, k: Hash)
    requires PendingOk(q) && m.kind.Candidate? && Key(m.peer) == j
    ensures Waiting(Queued(q, j, m, now), k) == if j == k then Waiting(q, k) + [m] else Waiting(q, k)
  {
    hide Key;
    QueuedKeeps(q, j, m, now);
    WaitingIs(q, k);
    WaitingIs(q, j);
    var r, i, x := Queued(q, j, m, now), IndexOf(q, j), IndexOf(q, k);
    WaitingIs(r, k);
    hide IndexOf;
    if j == k {
      assert r[i].hash == k && [] + [m] == [m];
    } else if x < |q| {
      assert r[x].hash == k && r[x].messages == q[x].messages;
    } else {
      assert forall y | 0 <= y < |r| :: r[y].hash == j || (y < |q| && r[y] == q[y]);
    }
  }

  lemma WaitingUnexpired(q: seq<Pending>, now: nat, k: Hash)
    requires PendingOk(q) && (IndexOf(q, k) < |q| ==> !Expired(q[IndexOf(q, k)], now))
    ensures Waiting(Unexpired(q, now), k) == Waiting(q, k)
  {
    hide Key;
    UnexpiredKeeps(q, now);
    UnexpiredIs(q, now);
    var r := Unexpired(q, now);
    WaitingIs(q, k);
    WaitingIs(r, k);
    forall i | 0 <= i < |r| ensures r[i] in q { assert r[i] in r; }
    var i := IndexOf(q, k);
    if i < |q| {
      assert q[i] in r;
    }
  }

  predicate OpOk(op: Op) { (op.AnOffer? ==> op.m.kind.Offer?) && (op.ACandidate? ==> op.m.kind.Candidate?) }

  /** What an offer does for the other clients. */
  lemma OfferOther(v: View, capacity: nat, m: Message, e: Env, k: Hash)
    requires Key(m.peer) != k
    ensures var r := OfferSpec(v, capacity, m, e).view;
      && (k in r.peers <==> k in v.peers) && (k in r.peers ==> r.peers[k] == v.peers[k])
      && (r.pending == v.pending || r.pending == Without(v.pending, Key(m.peer)))
  {
    hide Key, Waiting, Without, Refuses;
  }

  /** ... and for its own, unless it gives something up. */
  lemma OfferOwn(v: View, capacity: nat, m: Message, e: Env, k: Hash)
    requires Key(m.peer) == k && !Disturbs(v, capacity, AnOffer(m, e), k)
    ensures var r := OfferSpec(v, capacity, m, e);
      if k in v.peers then
        && r.view.pending == v.pending && k in r.view.peers
        && r.view.peers[k].sent == v.peers[k].sent + (if r.status == Ok then [m] else [])
      else if k in r.view.peers then
        && r.status == Ok && r.view.pending == Without(v.pending, k)
        && r.view.peers[k].sent == [m] + Waiting(v.pending, k)
      else
        && (r.view.pending == v.pending || r.view.pending == Without(v.pending, k))
        && Waiting(r.view.pending, k) == Waiting(v.pending, k)
  {}

  lemma OfferKeeps(v: View, capacity: nat, m: Message, e: Env, k: Hash, h: seq<Message>)
    requires Keeps(v, k, h) && m.kind.Offer? && !Disturbs(v, capacity, AnOffer(m, e), k)
    ensures Keeps(OfferSpec(v, capacity, m, e).view, k, h + Taken(v, capacity, AnOffer(m, e), k))
  {
    hide Key, FirstOffer, OfferFirst, Waiting, Without, PendingOk, OfferSpec, Disturbs;
    FirstOfferSnoc(h, m);
    OfferFirstSnoc(h, m);
    WithoutKeeps(v.pending, Key(m.peer));
    WaitingWithout(v.pending, Key(m.peer), k);
    assert h + [] == h;
    if Key(m.peer) == k { OfferOwn(v, capacity, m, e, k); } else { OfferOther(v, capacity, m, e, k); }
  }

  lemma CandidateIs(v: View, m: Message, e: Env, k: Hash)
    ensures var r := CandidateSpec(v, m, e);
      && (r.view.pending == v.pending || (r.view.pending == Queued(v.pending, Key(m.peer), m, e.now) && r.status == Ok && Key(m.peer) !in v.peers))
      && (k in r.view.peers <==> k in v.peers)
      && (k in v.peers ==> r.view.peers[k].sent == v.peers[k].sent + (if Key(m.peer) == k && r.status == Ok then [m] else []))
      && (r.status == Ok && Key(m.peer) == k && k !in v.peers ==> r.view.pending == Queued(v.pending, k, m, e.now))
  {}

  lemma CandidateKeeps(v: View, capacity: nat, m: Message, e: Env, k: Hash, h: seq<Message>)
    requires Keeps(v, k, h) && m.kind.Candidate?
    ensures Keeps(CandidateSpec(v, m, e).view, k, h + Taken(v, capacity, ACandidate(m, e), k))
  {
    FirstOfferSnoc(h, m);
    OfferFirstSnoc(h, m);
    QueuedKeeps(v.pending, Key(m.peer), m, e.now);
    WaitingQueued(v.pending, Key(m.peer), m, e.now, k);
    CandidateIs(v, m, e, k);
    hide Key, FirstOffer, OfferFirst, Waiting, Queued, PendingOk, CandidateSpec;
    assert h + [] == h;
  }

  lemma ExpiryKeeps(v: View, now: nat, k: Hash, h: seq<Message>)
    requires Keeps(v, k, h) && (IndexOf(v.pending, k) < |v.pending| ==> !Expired(v.pending[IndexOf(v.pending, k)], now))
    ensures Keeps(v.(pending := Unexpired(v.pending, now)), k, h)
  {
    UnexpiredKeeps(v.pending, now);
    WaitingUnexpired(v.pending, now, k);
    hide Key, PendingOk, Waiting, FirstOffer, OfferFirst, Unexpired, IndexOf;
  }

  /** Operations that leave the queues and the messages of k alone. */
  lemma QuietKeeps(v: View, v': View, k: Hash, h: seq<Message>)
    requires Keeps(v, k, h) && v'.pending == v.pending && (k in v'.peers <==> k in v.peers)
    requires k in v.peers ==> v'.peers[k].sent == v.peers[k].sent
    ensures Keeps(v', k, h)
  {}

  lemma OpKeeps(v: View, capacity: nat, op: Op, k: Hash, h: seq<Message>)
    requires Keeps(v, k, h) && OpOk(op) && !Disturbs(v, capacity, op, k)
    ensures Keeps(Apply(v, capacity, op), k, h + Taken(v, capacity, op, k))
  {
    hide Keeps, OfferSpec, CandidateSpec, Key, Unexpired;
    assert h + [] == h;
    match op
    case AnOffer(m, e) => OfferKeeps(v, capacity, m, e, k, h);
    case ACandidate(m, e) => CandidateKeeps(v, capacity, m, e, k, h);
    case AnExpiry(now) => ExpiryKeeps(v, now, k, h);
    case _ => QuietKeeps(v, Apply(v, capacity, op), k, h);
  }

  /** In every run, whatever the other clients do: as long as nothing gives up what there is for client
      k, each message taken from it is kept exactly once. Its session has the first accepted offer,
      then every candidate that came before it and everything taken since, in the order they came;
      before there is a session the candidates wait in that order. */
  lemma {:induction false} Delivered(v: View, capacity: nat, ops: seq<Op>, k: Hash)
    requires PendingOk(v.pending) && k !in v.peers && Waiting(v.pending, k) == []
    requires forall op | op in ops :: OpOk(op)
    requires Undisturbed(v, capacity, ops, k)
    ensures Keeps(Run(v, capacity, ops), k, Heard(v, capacity, ops, k))
  {
    if ops != [] {
      var before := ops[..|ops| - 1];
      Delivered(v, capacity, before, k);
      hide Keeps, Apply, Taken, Disturbs, OpOk;
      OpKeeps(Run(v, capacity, before), capacity, ops[|ops| - 1], k, Heard(v, capacity, before, k));
    } else {
      hide Key, PendingOk, Waiting, FirstOffer, OfferFirst;
      NothingHeard();
    }
  }

  lemma NothingHeard()
    ensures FirstOffer([]) == 0 && OfferFirst([]) == []
  {}

  /** In every run the sessions never outgrow the array, each is under the key of its own peer id, and
      no client has two queues. */
  lemma {:induction false} RunKeepsTables(v: View, capacity: nat, ops: seq<Op>)
    requires TablesOk(v, capacity) && forall op | op in ops :: OpOk(op)
    ensures TablesOk(Run(v, capacity, ops), capacity)
  {
    if ops != [] {
      var before, op := Run(v, capacity, ops[..|ops| - 1]), ops[|ops| - 1];
      RunKeepsTables(v, capacity, ops[..|ops| - 1]);
      hide Run;
      ApplyKeepsTables(before, capacity, op);
      hide Apply, TablesOk;
    }
  }

  ghost predicate TablesOk(v: View, capacity: nat) {
    |v.peers| <= capacity && PendingOk(v.pending) && forall k | k in v.peers :: Key(v.peers[k].peerId) == k
  }

  lemma StartKeepsTables(v: View, capacity: nat, m: Message, e: Env)
    requires TablesOk(v, capacity) && Key(m.peer) !in v.peers
    ensures TablesOk(StartSpec(v, capacity, m, e).view, capacity)
  {
    hide Key, PendingOk, Without, Waiting, Refuses;
    var k := Key(m.peer);
    WithoutKeeps(v.pending, k);
    assert v.peers - {k} == v.peers;
    Grown(v.peers, k, Peer(m.peer, false, [m] + Waiting(v.pending, k)));
  }

  lemma OfferKeepsTables(v: View, capacity: nat, m: Message, e: Env)
    requires TablesOk(v, capacity)
    ensures TablesOk(OfferSpec(v, capacity, m, e).view, capacity)
  {
    hide Key, PendingOk, StartSpec;
    var k := Key(m.peer);
    Smaller(v.peers, k);
    if k in v.peers && !v.peers[k].terminated {
      Grown(v.peers, k, v.peers[k].(sent := v.peers[k].sent + [m]));
    } else {
      StartKeepsTables(v.(peers := v.peers - {k}), capacity, m, e);
    }
  }

  lemma CandidateKeepsTables(v: View, capacity: nat, m: Message, e: Env)
    requires TablesOk(v, capacity) && m.kind.Candidate?
    ensures TablesOk(CandidateSpec(v, m, e).view, capacity)
  {
    hide Key, PendingOk, Queued, IndexOf;
    var k := Key(m.peer);
    QueuedKeeps(v.pending, k, m, e.now);
    if k in v.peers { Grown(v.peers, k, v.peers[k].(sent := v.peers[k].sent + [m])); }
  }

  lemma OwnKeepsTables(v: View, capacity: nat, op: Op)
    requires TablesOk(v, capacity) && !op.AnOffer? && !op.ACandidate?
    ensures TablesOk(Apply(v, capacity, op), capacity)
  {
    hide Key, PendingOk, Unexpired, OfferSpec, CandidateSpec;
    match op
    case ATrigger(peer, e) => Grown(v.peers, Key(peer), Peer(peer, false, []));
    case AReap(k) => Smaller(v.peers, k);
    case AnEnd(k) => if k in v.peers { Grown(v.peers, k, v.peers[k].(terminated := true)); }
    case AClose => assert Apply(v, capacity, op).peers.Keys == v.peers.Keys;
    case AnExpiry(now) => UnexpiredKeeps(v.pending, now);
  }

  lemma ApplyKeepsTables(v: View, capacity: nat, op: Op)
    requires TablesOk(v, capacity) && OpOk(op)
    ensures TablesOk(Apply(v, capacity, op), capacity)
  {
    hide TablesOk, OfferSpec, CandidateSpec, Key;
    match op
    case AnOffer(m, e) => OfferKeepsTables(v, capacity, m, e);
    case ACandidate(m, e) => CandidateKeepsTables(v, capacity, m, e);
    case _ => OwnKeepsTables(v, capacity, op);
  }

  lemma Smaller(peers: map<Hash, Peer>, k: Hash)
    ensures |peers - {k}| == if k in peers then |peers| - 1 else |peers|
  {}

  lemma Grown(peers: map<Hash, Peer>, k: Hash, p: Peer)
    ensures |peers[k := p]| == if k in peers then |peers| else |peers| + 1
  {}

  // ---------------------------------------------------------------- what is taken

  /** The client has a session that has not ended. */
  predicate Live(v: View, k: Hash) { k in v.peers && !v.peers[k].terminated }

  /** All the calls that make a session, and hand it the offer and these candidates, succeed. */
  predicate AllWell(e: Env, messages: seq<Message>) {
    e.clientReady && e.createOk && e.allocOk && e.sendOk && e.putOk && (e.refused.None? || e.refused.value >= |messages|)
  }

  /** The queues of all other clients are as they were. */
  ghost predicate OthersWait(v: View, v': View, k: Hash) {
    forall j | j != k :: Waiting(v'.pending, j) == Waiting(v.pending, j)
  }

  lemma OthersWithout(v: View, v': View, k: Hash)
    requires PendingOk(v.pending) && (v'.pending == v.pending || v'.pending == Without(v.pending, k))
    ensures OthersWait(v, v', k)
  {
    forall j | j != k ensures Waiting(v'.pending, j) == Waiting(v.pending, j) { WaitingWithout(v.pending, k, j); }
  }

  /** A client without a session gets one. */
  lemma StartAccepted(v: View, capacity: nat, m: Message, e: Env)
    requires PendingOk(v.pending) && Key(m.peer) !in v.peers
    ensures var k, r := Key(m.peer), StartSpec(v, capacity, m, e);
      && (k in r.view.peers ==> r.status == Ok && !r.view.peers[k].terminated)
      && (k in r.view.peers <==> |v.peers| < capacity && AllWell(e, Waiting(v.pending, k)))
      && (k in r.view.peers ==> r.view.peers[k] == Peer(m.peer, false, [m] + Waiting(v.pending, k)) && Waiting(r.view.pending, k) == [])
      && r.view.peers - {k} == v.peers && OthersWait(v, r.view, k)
  {
    var k, r := Key(m.peer), StartSpec(v, capacity, m, e);
    WaitingWithout(v.pending, k, k);
    OthersWithout(v, r.view, k);
    hide Key, PendingOk, Waiting, Without, OthersWait;
    assert v.peers - {k} == v.peers;
  }

  /** An offer leaves its client with a live session and succeeds if and only if the client has one and the
      interface takes the offer, or other clients' sessions, ended ones included, leave room in the array and
      all calls succeed. Then the session has been handed the offer last, or first with the candidates that
      waited behind it; the queue is gone, and no other client is affected. */
  lemma OfferAccepted(v: View, capacity: nat, m: Message, e: Env)
    requires PendingOk(v.pending)
    ensures var k, r := Key(m.peer), OfferSpec(v, capacity, m, e);
      && (r.status == Ok && Live(r.view, k) <==>
            if Live(v, k) then e.handle && e.sendOk
            else |v.peers - {k}| < capacity && AllWell(e, Waiting(v.pending, k)))
      && (r.status == Ok && Live(r.view, k) ==>
            if Live(v, k) then
              r.view.peers[k] == v.peers[k].(sent := v.peers[k].sent + [m]) && Waiting(r.view.pending, k) == Waiting(v.pending, k)
            else
              r.view.peers[k] == Peer(m.peer, false, [m] + Waiting(v.pending, k)) && Waiting(r.view.pending, k) == [])
      && r.view.peers - {k} == v.peers - {k} && OthersWait(v, r.view, k)
  {
    var k := Key(m.peer);
    if !Live(v, k) { StartAccepted(v.(peers := v.peers - {k}), capacity, m, e); }
    hide Key, PendingOk, Waiting, StartSpec, AllWell;
  }

  /** An offer that finds the array full of other clients' sessions makes none, whatever the calls answer: it
      drops the candidates that waited and what was left of an ended session, and reports no error. */
  lemma OfferAtLimit(v: View, capacity: nat, m: Message, e: Env)
    requires PendingOk(v.pending) && !Live(v, Key(m.peer)) && |v.peers - {Key(m.peer)}| >= capacity
    ensures var k, r := Key(m.peer), OfferSpec(v, capacity, m, e);
      r.status == Ok && r.view.peers == v.peers - {k} && Waiting(r.view.pending, k) == [] && OthersWait(v, r.view, k)
  {
    var k, r := Key(m.peer), OfferSpec(v, capacity, m, e);
    hide Key, PendingOk, Waiting, Without;
    WaitingWithout(v.pending, k, k);
    OthersWithout(v, r.view, k);
  }

  /** An offer of our own succeeds if and only if the client has a session or there is room for one and it can be
      made; otherwise nothing changes. */
  lemma TriggerAccepted(v: View, capacity: nat, peer: seq<bv8>, e: Env)
    ensures var k, r := Key(peer), TriggerSpec(v, capacity, peer, e);
      && (r.status == Ok <==> k in v.peers || (|v.peers| < capacity && e.clientReady && e.createOk && e.allocOk))
      && r.view == if k in v.peers || r.status != Ok then v else v.(peers := v.peers[k := Peer(peer, false, [])])
  {
    hide Key;
  }

  /** A candidate is taken if and only if it has at most 24 KB and its session takes it or, where there is none,
      its client has a queue or gets one; it is then the session's or the queue's last. Otherwise nothing
      changes. */
  lemma CandidateAccepted(v: View, m: Message, e: Env)
    requires PendingOk(v.pending) && m.kind.Candidate?
    ensures var k, r := Key(m.peer), CandidateSpec(v, m, e);
      && (r.status == Ok <==>
            && |m.payload| <= 24576
            && if k in v.peers then e.sendOk else e.allocOk || exists p :: p in v.pending && p.hash == k)
      && (if r.status != Ok then r.view == v
          else if k in v.peers then r.view == v.(peers := v.peers[k := v.peers[k].(sent := v.peers[k].sent + [m])])
          else
            && r.view.peers == v.peers && Waiting(r.view.pending, k) == Waiting(v.pending, k) + [m]
            && OthersWait(v, r.view, k))
  {
    var k := Key(m.peer);
    hide Key, PendingOk, Waiting, Queued;
    WaitingQueued(v.pending, k, m, e.now, k);
    forall j | j != k ensures Waiting(Queued(v.pending, k, m, e.now), j) == Waiting(v.pending, j) {
      WaitingQueued(v.pending, k, m, e.now, j);
    }
    if IndexOf(v.pending, k) < |v.pending| { assert v.pending[IndexOf(v.pending, k)] in v.pending; }
  }

  /** A queue is given up if and only if its age is above 20 seconds. */
  lemma ExpiryIs(q: seq<Pending>, now: nat)
    ensures forall p :: p in Unexpired(q, now) <==> p in q && now <= p.created + 200_000_000
  {
    UnexpiredIs(q, now);
  }

  lemma OfferKeepsLive(v: View, capacity: nat, m: Message, e: Env, k: Hash)
    requires Live(v, k)
    ensures var r := OfferSpec(v, capacity, m, e).view; Live(r, k) && v.peers[k].sent <= r.peers[k].sent
  {
    if Key(m.peer) != k { OfferOther(v, capacity, m, e, k); }
    hide Key, StartSpec;
  }

  lemma OpKeepsLive(v: View, capacity: nat, op: Op, k: Hash)
    requires Live(v, k) && op != AnEnd(k) && !op.AClose?
    ensures var v' := Apply(v, capacity, op); Live(v', k) && v.peers[k].sent <= v'.peers[k].sent
  {
    hide Key, OfferSpec, Unexpired, Queued, IndexOf;
    if op.AnOffer? { OfferKeepsLive(v, capacity, op.m, op.e, k); }
  }

  /** In every run a live session stays, with what it has been handed, until its connection ends or all sessions
      are closed: no other client, no limit and no clean-up takes it away. */
  lemma {:induction false} LiveStays(v: View, capacity: nat, ops: seq<Op>, k: Hash)
    requires Live(v, k) && AnEnd(k) !in ops && AClose !in ops
    ensures var v' := Run(v, capacity, ops); Live(v', k) && v.peers[k].sent <= v'.peers[k].sent
  {
    if ops != [] {
      LiveStays(v, capacity, ops[..|ops| - 1], k);
      OpKeepsLive(Run(v, capacity, ops[..|ops| - 1]), capacity, ops[|ops| - 1], k);
      hide Apply, Live;
    }
  }
}
