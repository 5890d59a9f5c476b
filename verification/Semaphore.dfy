// The counting semaphore that caps how many jobs one worker process runs at once.
module Semaphores {
  import opened Types

  type Waiter = nat   // one call of acquire()

  // What the two private fields hold, for a given capacity.
  datatype Slots = Slots(capacity: nat, available: nat, waiting: seq<Waiter>)

  // acquire(): a free permit is taken at once, otherwise the caller parks at the end of the line.
  function Acquired(s: Slots, w: Waiter): (r: (Slots, bool)) {
    if s.available > 0 then (s.(available := s.available - 1), true)
    else (s.(waiting := s.waiting + [w]), false)
  }

  // release(): the permit goes to the first in line, or back to the pool - never above capacity.
  function Released(s: Slots): (r: (Slots, Option<Waiter>)) {
    if |s.waiting| > 0 then (s.(waiting := s.waiting[1..]), Some(s.waiting[0]))
    else (s.(available := if s.available < s.capacity then s.available + 1 else s.available), None)
  }

  function InFlight(s: Slots): int { s.capacity - s.available }

  class Semaphore {
    const capacity: nat
    var available: nat
    var waiting: seq<Waiter>

    ghost predicate Valid()
      reads this
    {
      1 <= capacity && available <= capacity && (|waiting| > 0 ==> available == 0)
    }

    function Contents(): Slots
      reads this
    {
      Slots(capacity, available, waiting)
    }

    constructor (n: nat)
      requires n >= 1
      ensures Valid() && Contents() == Slots(n, n, [])
    {
      capacity := n;
      available := n;
      waiting := [];
    }

    // The source's constructor throws on a capacity below one; here that is null.
    static method Create(n: int) returns (s: Semaphore?)
      ensures n < 1 ==> s == null
      ensures n >= 1 ==> s != null && fresh(s) && s.Valid() && s.Contents() == Slots(n, n, [])
    {
      s := null;
      if n >= 1 { s := new Semaphore(n); }
    }

    // `now` says whether the promise is resolved already.
    method Acquire(w: Waiter) returns (now: bool)
      requires Valid()
      modifies this
      ensures Valid()
      ensures (Contents(), now) == Acquired(old(Contents()), w)
    {
      if available > 0 {
        available := available - 1;
        return true;
      }
      waiting := waiting + [w];
      return false;
    }

    // `next` is the waiter whose promise resolves.
    method Release() returns (next: Option<Waiter>)
      requires Valid()
      modifies this
      ensures Valid()
      ensures (Contents(), next) == Released(old(Contents()))
    {
      if |waiting| > 0 {
        next := Some(waiting[0]);
        waiting := waiting[1..];
        return;
      }
      next := None;
      if available < capacity { available := available + 1; }
    }
  }

  // ---- Balanced use ----

  // Everybody who ever called acquire, in order; who has been served, in order; how many have released.
  datatype Ledger = Ledger(slots: Slots, arrivals: seq<Waiter>, served: seq<Waiter>, returned: nat)

  datatype Use = Arrive(w: Waiter) | Leave

  // Only a holder releases.
  predicate Balanced(l: Ledger, u: Use) { u.Arrive? || l.returned < |l.served| }

  function Used(l: Ledger, u: Use): Ledger {
    match u
    case Arrive(w) =>
      var (s, now) := Acquired(l.slots, w);
      l.(slots := s, arrivals := l.arrivals + [w], served := if now then l.served + [w] else l.served)
    case Leave =>
      var (s, next) := Released(l.slots);
      l.(slots := s, returned := l.returned + 1, served := if next.Some? then l.served + [next.value] else l.served)
  }

  predicate BalancedUse(l: Ledger, uses: Run<Use>) {
    match uses
    case Start => true
    case Then(r, u) => BalancedUse(l, r) && Balanced(UsedUp(l, r), u)
  }

  function UsedUp(l: Ledger, uses: Run<Use>): Ledger {
    match uses
    case Start => l
    case Then(r, u) => Used(UsedUp(l, r), u)
  }

  // Main result: under balanced use, holders plus free permits are always the capacity, somebody waits only when no
  // permit is free, and callers are served strictly in the order in which they arrived.
  lemma {:induction false} ServedInOrder(capacity: nat, uses: Run<Use>)
    requires capacity >= 1 && BalancedUse(Ledger(Slots(capacity, capacity, []), [], [], 0), uses)
    ensures var l := UsedUp(Ledger(Slots(capacity, capacity, []), [], [], 0), uses);
      && l.slots.capacity == capacity && l.slots.available <= capacity
      && l.returned <= |l.served| && |l.served| - l.returned + l.slots.available == capacity
      && InFlight(l.slots) == |l.served| - l.returned
      && (|l.slots.waiting| > 0 ==> l.slots.available == 0)
      && l.served + l.slots.waiting == l.arrivals
  {
    match uses
    case Start =>
    case Then(r, u) =>
      ServedInOrder(capacity, r);
      var l := UsedUp(Ledger(Slots(capacity, capacity, []), [], [], 0), r);
      if u.Leave? && |l.slots.waiting| > 0 {
        assert l.slots.waiting == [l.slots.waiting[0]] + l.slots.waiting[1..];
      }
  }
}
