/** What the modules share: optional values, bytes, and counting threads. */
module Common {

  datatype Option<T> = None | Some(value: T)

  type Byte = b: int | 0 <= b < 256

  /** The threads of m for which p holds. */
  function Who<A>(m: map<nat, A>, p: A -> bool): set<nat> { set i | i in m && p(m[i]) }

  /** Of a lock with owner o, who may have taken it while it was free or given it back. */
  predicate OwnerMoves<O(==)>(o: O, o': O, free: O, who: O) {
    o' == o || (o == free && o' == who) || (o == who && o' == free)
  }

  /** 1 for true, 0 for false. */
  function Bit(b: bool): nat { if b then 1 else 0 }

  lemma CountAfter<A>(m: map<nat, A>, i: nat, a: A, p: A -> bool)
    requires i in m
    ensures |Who(m[i := a], p)| == |Who(m, p)| - Bit(p(m[i])) + Bit(p(a))
  {
    var rest := Who(m, p) - {i};
    assert Who(m, p) == if p(m[i]) then rest + {i} else rest;
    assert Who(m[i := a], p) == if p(a) then rest + {i} else rest;
  }

  lemma CountAdd<A>(m: map<nat, A>, i: nat, a: A, p: A -> bool)
    requires i !in m && !p(a)
    ensures Who(m[i := a], p) == Who(m, p)
  {}

  /** The sum of f over the threads of m, taken in any order (SumAt). */
  ghost function Sum<A>(m: map<nat, A>, f: A -> nat): nat
    decreases m.Keys
  {
    if m == map[] then 0
    else
      var i :| i in m;
      f(m[i]) + Sum(m - {i}, f)
  }

  lemma {:induction false} SumAt<A>(m: map<nat, A>, i: nat, f: A -> nat)
    requires i in m
    ensures Sum(m, f) == f(m[i]) + Sum(m - {i}, f)
    decreases m.Keys
  {
    var j :| j in m && Sum(m, f) == f(m[j]) + Sum(m - {j}, f);
    if i != j {
      SumAt(m - {j}, i, f);
      SumAt(m - {i}, j, f);
      assert m - {i} - {j} == m - {j} - {i};
    }
  }

  lemma SumAfter<A>(m: map<nat, A>, i: nat, a: A, f: A -> nat)
    requires i in m
    ensures Sum(m[i := a], f) == Sum(m, f) - f(m[i]) + f(a)
  {
    SumAt(m, i, f);
    SumAt(m[i := a], i, f);
    assert m[i := a] - {i} == m - {i};
  }

  /** What the first k steps of a run add up to, each step giving what the event says of the state it is
      taken in and its label. */
  ghost function History<S, L, E>(states: seq<S>, labels: seq<L>, k: nat, event: (S, L) -> seq<E>): seq<E>
    requires k <= |labels| && k <= |states|
  {
    if k == 0 then [] else History(states, labels, k - 1, event) + event(states[k - 1], labels[k - 1])
  }
}
