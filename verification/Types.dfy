// Values shared by every part of the model.
module Types {
  datatype Option<+T> = None | Some(value: T)

  type JobId = nat      // a well-formed UUID, as a 128-bit number
  type WorkerId = nat
  type ActorId = nat    // names one in-flight execution, scheduler pass or request
  type Lease = nat      // gen_random_uuid(): every draw is new, so draws are numbered

  // What a Redis list can hold: a job id, or text that is not a UUID.
  datatype Entry = Id(job: JobId) | Malformed(text: string)

  datatype Status = Queued | Running | Retrying | Succeeded | Failed | Dead

  // A finished run, or the empty one, is a sequence of actions; the last one is on the outside.
  datatype Run<A> = Start | Then(prior: Run<A>, last: A)

  function Join<A>(r: Run<A>, t: Run<A>): Run<A> {
    match t
    case Start => r
    case Then(t', a) => Then(Join(r, t'), a)
  }
}

// Redis lists and sorted sets as values. Index 0 is Redis LEFT (the head), the last index is RIGHT (the tail).
module Lists {
  import opened Types

  ghost predicate NoDup<T(!new)>(l: seq<T>) {
    forall i, j :: 0 <= i < j < |l| ==> l[i] != l[j]
  }

  // LREM key 1 e: drops the occurrence nearest the head.
  function RemoveFirst(l: seq<Entry>, e: Entry): (r: seq<Entry>)
    ensures e in l ==> |r| == |l| - 1
    ensures e !in l ==> r == l
  {
    if l == [] then []
    else if l[0] == e then l[1..]
    else [l[0]] + RemoveFirst(l[1..], e)
  }

  // LREM key -1 e: drops the occurrence nearest the tail.
  function RemoveLast(l: seq<Entry>, e: Entry): (r: seq<Entry>)
    ensures e in l ==> |r| == |l| - 1
    ensures e !in l ==> r == l
  {
    if l == [] then []
    else if l[|l| - 1] == e then l[..|l| - 1]
    else
      assert l == l[..|l| - 1] + [l[|l| - 1]];
      RemoveLast(l[..|l| - 1], e) + [l[|l| - 1]]
  }

  // The occurrence nearest the head, and the one nearest the tail.
  predicate IsFirstAt(l: seq<Entry>, e: Entry, i: int) { 0 <= i < |l| && l[i] == e && e !in l[..i] }

  predicate IsLastAt(l: seq<Entry>, e: Entry, i: int) { 0 <= i < |l| && l[i] == e && e !in l[i + 1..] }

  // Exactly that occurrence goes, and everything else keeps its order.
  lemma {:induction false} RemoveFirstAt(l: seq<Entry>, e: Entry, i: nat)
    requires IsFirstAt(l, e, i)
    ensures RemoveFirst(l, e) == l[..i] + l[i + 1..]
  {
    if i > 0 {
      assert l[0] in l[..i];
      assert l[1..][..i - 1] == l[1..i] && l[..i] == [l[0]] + l[1..i];
      RemoveFirstAt(l[1..], e, i - 1);
    }
  }

  lemma {:induction false} RemoveLastAt(l: seq<Entry>, e: Entry, i: nat)
    requires IsLastAt(l, e, i)
    ensures RemoveLast(l, e) == l[..i] + l[i + 1..]
  {
    var k := |l| - 1;
    if i < k {
      assert l[k] in l[i + 1..];
      assert l[..k][i + 1..] == l[i + 1..k] && l[i + 1..] == l[i + 1..k] + [l[k]];
      RemoveLastAt(l[..k], e, i);
    }
  }

  lemma {:induction false} LastExists(l: seq<Entry>, e: Entry) returns (i: nat)
    requires e in l
    ensures IsLastAt(l, e, i)
  {
    i := |l| - 1;
    if l[i] != e {
      var front := l[..i];
      assert e in front;
      var j := LastExists(front, e);
      assert l[j + 1..] == front[j + 1..] + [l[i]];
      i := j;
    }
  }

  // At most one occurrence of e.
  ghost predicate Once(l: seq<Entry>, e: Entry) {
    forall i, j :: 0 <= i < |l| && 0 <= j < |l| && l[i] == e && l[j] == e ==> i == j
  }

  // LMOVE ... RIGHT ..., and LINDEX -1 followed by LREM -1: the tail goes.
  lemma DropTail(l: seq<Entry>, e: Entry)
    requires |l| > 0 && Once(l, e)
    ensures Once(l[..|l| - 1], e)
    ensures e in l[..|l| - 1] <==> e in l && l[|l| - 1] != e
  {
    if e in l && l[|l| - 1] != e {
      var i :| 0 <= i < |l| && l[i] == e;
      assert l[..|l| - 1][i] == e;
    }
  }

  lemma PushHead(l: seq<Entry>, x: Entry, e: Entry)
    requires Once(l, e) && (x == e ==> e !in l)
    ensures Once([x] + l, e)
    ensures e in [x] + l <==> e in l || x == e
  {
    assert forall i :: 0 < i < |[x] + l| ==> ([x] + l)[i] == l[i - 1];
  }

  lemma PushTail(l: seq<Entry>, x: Entry, e: Entry)
    requires Once(l, e) && (x == e ==> e !in l)
    ensures Once(l + [x], e)
    ensures e in l + [x] <==> e in l || x == e
  {}

  lemma {:induction false} RemoveFirstFrom(l: seq<Entry>, x: Entry, e: Entry)
    requires Once(l, e)
    ensures Once(RemoveFirst(l, x), e)
    ensures e in RemoveFirst(l, x) <==> e in l && x != e
  {
    if |l| > 0 {
      var rest := l[1..];
      assert e in l <==> e == l[0] || e in rest;
      assert Once(rest, e) by { assert forall i :: 0 <= i < |rest| ==> rest[i] == l[i + 1]; }
      assert l[0] == e ==> e !in rest by { assert forall i :: 0 <= i < |rest| ==> rest[i] == l[i + 1]; }
      if l[0] != x {
        RemoveFirstFrom(rest, x, e);
        PushHead(RemoveFirst(rest, x), l[0], e);
      }
    }
  }

  // What LMOVE ... RIGHT RIGHT, repeated until the list is empty, appends to its target.
  function Reverse<T>(l: seq<T>): (r: seq<T>)
    ensures |r| == |l|
    ensures forall i :: 0 <= i < |l| ==> r[i] == l[|l| - 1 - i]
  {
    if |l| == 0 then [] else [l[|l| - 1]] + Reverse(l[..|l| - 1])
  }

  lemma SubsetSize<T>(a: set<T>, b: set<T>)
    requires a <= b
    ensures |a| <= |b|
  {
    assert b == a + (b - a);
  }

  lemma CountCons<T>(x: T, l: seq<T>, y: T)
    ensures multiset([x] + l)[y] == multiset(l)[y] + if x == y then 1 else 0
  {}

  // The answer to "the n members of `scores` with the lowest score, lowest first":
  // ZRANGEBYSCORE ... LIMIT 0 n, and SELECT ... ORDER BY created_at LIMIT n. Ties come in any order.
  ghost predicate IsLowest(scores: map<JobId, int>, n: nat, picked: seq<JobId>) {
    && NoDup(picked)
    && |picked| <= n
    && (forall id :: id in picked ==> id in scores)
    && (forall i, j :: 0 <= i < j < |picked| ==> scores[picked[i]] <= scores[picked[j]])
    && (forall id :: id in scores && id !in picked ==>
         |picked| == n && forall p :: p in picked ==> scores[p] <= scores[id])
  }

  ghost predicate IsMinimum(scores: map<JobId, int>, m: JobId) {
    m in scores && forall id :: id in scores ==> scores[m] <= scores[id]
  }

  lemma {:induction false} MinimumExists(scores: map<JobId, int>) returns (m: JobId)
    requires scores != map[]
    ensures IsMinimum(scores, m)
    decreases |scores|
  {
    var first :| first in scores;
    var rest := scores - {first};
    assert scores.Keys == rest.Keys + {first};
    m := first;
    if |rest| > 0 {
      var m' := MinimumExists(rest);
      assert scores[m'] == rest[m'];
      if scores[m'] < scores[first] { m := m'; }
    }
    forall id | id in scores ensures scores[m] <= scores[id] {
      if id != first { assert id in rest && rest[id] == scores[id]; }
    }
  }

  // Such an answer always exists, and it is empty only when there is nothing to pick.
  lemma {:induction false} LowestExists(scores: map<JobId, int>, n: nat) returns (picked: seq<JobId>)
    ensures IsLowest(scores, n, picked)
    ensures 0 < n && scores != map[] ==> picked != []
    decreases n
  {
    if n == 0 || scores == map[] {
      picked := [];
    } else {
      var m := MinimumExists(scores);
      var rest := LowestExists(scores - {m}, n - 1);
      picked := [m] + rest;
      assert forall id :: id in picked <==> id == m || id in rest;
    }
  }
}
