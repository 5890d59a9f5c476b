// The recovery loops as they run when nothing else touches the lists meanwhile: reapWorker, reapDead, sweepOrphans,
// recoverOwnProcessing and promoteDue, on mutable stores, each proved against a function of the stores it found.
module Recovery {
  import opened Types
  import opened Lists
  import opened Database
  import opened System

  class Postgres {
    var db: Db
    constructor (initial: Db)
      ensures db == initial
    {
      db := initial;
    }
  }

  class Redis {
    var pending: seq<Entry>
    var processing: map<WorkerId, seq<Entry>>
    var delayed: map<JobId, int>
    var alive: set<WorkerId>

    constructor ()
      ensures pending == [] && processing == map[] && delayed == map[] && alive == {}
    {
      pending, processing, delayed, alive := [], map[], map[], {};
    }

    function List(w: WorkerId): seq<Entry>
      reads this
    {
      if w in processing then processing[w] else []
    }

    // LREM processing:w -1 e
    method LremLast(w: WorkerId, e: Entry)
      modifies this`processing
      ensures e !in old(List(w)) ==> List(w) == old(List(w))
      ensures e in old(List(w)) ==>
        exists i :: IsLastAt(old(List(w)), e, i) && List(w) == old(List(w))[..i] + old(List(w))[i + 1..]
      ensures |old(List(w))| > 0 && old(List(w))[|old(List(w))| - 1] == e ==> List(w) == old(List(w))[..|old(List(w))| - 1]
      ensures processing == old(processing)[w := List(w)]
    {
      ghost var l := List(w);
      processing := processing[w := RemoveLast(List(w), e)];
      if |l| > 0 && l[|l| - 1] == e {
        RemoveLastAt(l, e, |l| - 1);
        assert IsLastAt(l, e, |l| - 1) && List(w) == l[..|l| - 1] + l[|l| - 1 + 1..];
      } else if e in l {
        var i := LastExists(l, e);
        RemoveLastAt(l, e, i);
      }
    }

    // LMOVE processing:w pending RIGHT RIGHT
    method LmoveRightRight(w: WorkerId) returns (moved: bool)
      modifies this`processing, this`pending
      ensures moved == (|old(List(w))| > 0)
      ensures !moved ==> processing == old(processing) && pending == old(pending)
      ensures moved ==> processing == old(processing)[w := old(List(w))[..|old(List(w))| - 1]]
      ensures moved ==> pending == old(pending) + [old(List(w))[|old(List(w))| - 1]]
    {
      var l := List(w);
      moved := |l| > 0;
      if moved {
        processing := processing[w := l[..|l| - 1]];
        pending := pending + [l[|l| - 1]];
      }
    }
  }

  // ---- reapWorker ----

  // What is left to do, or was done, on one dead worker's list.
  datatype Reaping = Reaping(db: Db, pending: seq<Entry>, reaped: nat)

  // The verdict on one entry.
  function Judge(db: Db, e: Entry): ReapPc {
    if e.Id? then ReapDecision(e.job, Find(db, e.job)) else Removing(e)
  }

  // The loop as a fold over the list, tail first.
  function ReapFold(db: Db, l: seq<Entry>, pending: seq<Entry>): Reaping
    decreases |l|
  {
    if |l| == 0 then Reaping(db, pending, 0)
    else
      var e := l[|l| - 1];
      var r := ReapFold(JudgedDb(db, e), l[..|l| - 1], JudgedPending(db, e, pending));
      r.(reaped := r.reaped + if Judge(db, e).Removing? then 0 else 1)
  }

  // The rows and the pending list after one entry.
  function JudgedDb(db: Db, e: Entry): Db {
    var v := Judge(db, e);
    if v.Burying? then SetStatus(db, v.job, Dead) else if v.Requeueing? then SetStatus(db, v.job, Queued) else db
  }

  function JudgedPending(db: Db, e: Entry, pending: seq<Entry>): seq<Entry> {
    if Judge(db, e).Requeueing? then pending + [e] else pending
  }

  // One iteration: what the three branches do, and that they do what the fold does next.
  method ReapEntry(redis: Redis, pg: Postgres, w: WorkerId, e: Entry) returns (counted: bool)
    requires |redis.List(w)| > 0 && e == redis.List(w)[|redis.List(w)| - 1]
    modifies redis`processing, redis`pending, pg`db
    ensures w in redis.processing && redis.processing == old(redis.processing)[w := old(redis.List(w))[..|old(redis.List(w))| - 1]]
    ensures var v := Judge(old(pg.db), e);
      && counted == !v.Removing?
      && pg.db == JudgedDb(old(pg.db), e) && redis.pending == JudgedPending(old(pg.db), e, old(redis.pending))
  {
    counted := false;
    if !e.Id? {
      redis.LremLast(w, e);
      return;
    }
    var row := Find(pg.db, e.job);
    if row.None? || Terminal(row.value.status) || row.value.status == Retrying {
      redis.LremLast(w, e);
      return;
    }
    counted := true;
    if row.value.attempts >= row.value.maxAttempts {
      pg.db := SetStatus(pg.db, e.job, Dead);
      redis.LremLast(w, e);
      return;
    }
    pg.db := SetStatus(pg.db, e.job, Queued);
    var moved := redis.LmoveRightRight(w);
  }

  method ReapWorker(redis: Redis, pg: Postgres, w: WorkerId) returns (reaped: nat)
    modifies redis`processing, redis`pending, pg`db
    ensures var f := ReapFold(old(pg.db), old(redis.List(w)), old(redis.pending));
      pg.db == f.db && redis.pending == f.pending && reaped == f.reaped
    ensures redis.List(w) == []
    ensures forall v :: v != w ==> (v in redis.processing <==> v in old(redis.processing)) && redis.List(v) == old(redis.List(v))
  {
    reaped := 0;
    ghost var goal := ReapFold(pg.db, redis.List(w), redis.pending);
    while true
      invariant var f := ReapFold(pg.db, redis.List(w), redis.pending);
        f.(reaped := reaped + f.reaped) == goal
      invariant forall v :: v != w ==> (v in redis.processing <==> v in old(redis.processing)) && redis.List(v) == old(redis.List(v))
      decreases |redis.List(w)|
    {
      var l := redis.List(w);
      if |l| == 0 { break; }
      var counted := ReapEntry(redis, pg, w, l[|l| - 1]);
      if counted { reaped := reaped + 1; }
    }
  }

  // ---- What the fold amounts to, repeated and malformed entries included ----

  // Still claimable or running, with an attempt left: this goes back to pending.
  predicate Recoverable(db: Db, e: Entry) {
    e.Id? && e.job in db.rows && (db.rows[e.job].status == Queued || db.rows[e.job].status == Running)
    && db.rows[e.job].attempts < db.rows[e.job].maxAttempts
  }

  // The same, but out of attempts: this is buried.
  predicate Exhausted(db: Db, id: JobId) {
    id in db.rows && (db.rows[id].status == Queued || db.rows[id].status == Running)
    && db.rows[id].attempts >= db.rows[id].maxAttempts
  }

  function Kept(db: Db, l: seq<Entry>): seq<Entry> {
    if |l| == 0 then []
    else (if Recoverable(db, l[0]) then [l[0]] else []) + Kept(db, l[1..])
  }

  function ExhaustedIn(db: Db, l: seq<Entry>): set<JobId> {
    set e | e in l && e.Id? && Exhausted(db, e.job) :: e.job
  }

  // A row afterwards: queued if it was recoverable, dead if it was out of attempts, untouched otherwise.
  function Settled(db: Db, l: seq<Entry>, id: JobId): Row
    requires id in db.rows
  {
    var row := db.rows[id];
    if Id(id) in l && Recoverable(db, Id(id)) then row.(status := Queued)
    else if Id(id) in l && Exhausted(db, id) then row.(status := Dead)
    else row
  }

  // Each recoverable entry as often as it is listed, and no other; KeptSplits says that they keep their order.
  lemma {:induction false} KeptCounts(db: Db, l: seq<Entry>, e: Entry)
    ensures multiset(Kept(db, l))[e] == if Recoverable(db, e) then multiset(l)[e] else 0
  {
    if |l| > 0 {
      KeptCounts(db, l[1..], e);
      assert l == [l[0]] + l[1..];
      CountCons(l[0], l[1..], e);
      CountCons(l[0], Kept(db, l[1..]), e);
      assert !Recoverable(db, l[0]) ==> Kept(db, l) == Kept(db, l[1..]);
      assert Recoverable(db, l[0]) ==> Kept(db, l) == [l[0]] + Kept(db, l[1..]);
      hide Kept, Recoverable;
    }
  }

  lemma {:induction false} KeptSplits(db: Db, l: seq<Entry>, k: seq<Entry>)
    ensures Kept(db, l + k) == Kept(db, l) + Kept(db, k)
  {
    if |l| == 0 {
      assert l + k == k;
    } else {
      assert (l + k)[1..] == l[1..] + k;
      KeptSplits(db, l[1..], k);
    }
  }

  lemma {:induction false} KeptSame(db: Db, db': Db, l: seq<Entry>)
    requires forall e :: Recoverable(db', e) == Recoverable(db, e)
    ensures Kept(db', l) == Kept(db, l)
  {
    if |l| > 0 { KeptSame(db, db', l[1..]); }
  }

  lemma JudgedKeepsOthers(db: Db, e: Entry)
    ensures forall x :: Recoverable(JudgedDb(db, e), x) == Recoverable(db, x)
    ensures Judge(db, e).Requeueing? <==> Recoverable(db, e)
    ensures Judge(db, e).Burying? <==> e.Id? && Exhausted(db, e.job)
  {}

  lemma ExhaustedSnoc(db: Db, l: seq<Entry>)
    requires |l| > 0
    ensures |ExhaustedIn(db, l)| ==
      |ExhaustedIn(JudgedDb(db, l[|l| - 1]), l[..|l| - 1])| + (if Judge(db, l[|l| - 1]).Burying? then 1 else 0)
  {
    var e, rest := l[|l| - 1], l[..|l| - 1];
    var db' := JudgedDb(db, e);
    assert forall x :: x in l <==> x in rest || x == e;
    if Judge(db, e).Burying? {
      assert e.job !in ExhaustedIn(db', rest);
      assert ExhaustedIn(db, l) == ExhaustedIn(db', rest) + {e.job};
    } else {
      assert ExhaustedIn(db, l) == ExhaustedIn(db', rest);
    }
  }

  lemma SettledSnoc(db: Db, l: seq<Entry>, id: JobId)
    requires |l| > 0 && id in db.rows
    ensures id in JudgedDb(db, l[|l| - 1]).rows
    ensures Settled(JudgedDb(db, l[|l| - 1]), l[..|l| - 1], id) == Settled(db, l, id)
  {
    var e, rest := l[|l| - 1], l[..|l| - 1];
    assert Id(id) in l <==> Id(id) in rest || Id(id) == e;
  }

  lemma KeptTail(db: Db, l: seq<Entry>, pending: seq<Entry>)
    requires |l| > 0
    ensures var e := l[|l| - 1]; var rest := Reverse(l[..|l| - 1]);
      && JudgedPending(db, e, pending) + Kept(JudgedDb(db, e), rest) == pending + Kept(db, Reverse(l))
      && |Kept(db, Reverse(l))| == |Kept(JudgedDb(db, e), rest)| + if Judge(db, e).Requeueing? then 1 else 0
  {
    var e, rest := l[|l| - 1], Reverse(l[..|l| - 1]);
    JudgedKeepsOthers(db, e);
    KeptSame(db, JudgedDb(db, e), rest);
    hide JudgedDb, Judge, Recoverable;
    assert Reverse(l)[0] == e && Reverse(l)[1..] == rest;
  }

  lemma {:induction false} ReapFoldQueue(db: Db, l: seq<Entry>, pending: seq<Entry>)
    ensures var f := ReapFold(db, l, pending);
      && f.pending == pending + Kept(db, Reverse(l))
      && f.reaped == |Kept(db, Reverse(l))| + |ExhaustedIn(db, l)|
    decreases |l|
  {
    if |l| > 0 {
      var e := l[|l| - 1];
      ReapFoldQueue(JudgedDb(db, e), l[..|l| - 1], JudgedPending(db, e, pending));
      KeptTail(db, l, pending);
      ExhaustedSnoc(db, l);
      hide JudgedDb, JudgedPending, Judge, Kept, Recoverable, Exhausted, ExhaustedIn, Reverse;
    } else {
      assert ExhaustedIn(db, l) == {};
    }
  }

  lemma {:induction false} ReapFoldRows(db: Db, l: seq<Entry>, pending: seq<Entry>)
    ensures var f := ReapFold(db, l, pending);
      && f.db.effects == db.effects && f.db.nextLease == db.nextLease && f.db.rows.Keys == db.rows.Keys
      && (forall id :: id in db.rows ==> f.db.rows[id] == Settled(db, l, id))
    decreases |l|
  {
    if |l| > 0 {
      var e, rest := l[|l| - 1], l[..|l| - 1];
      ReapFoldRows(JudgedDb(db, e), rest, JudgedPending(db, e, pending));
      forall id | id in db.rows ensures ReapFold(db, l, pending).db.rows[id] == Settled(db, l, id) {
        SettledSnoc(db, l, id);
      }
    }
  }

  // Main result: pending grows at its tail by the recoverable entries, the list's tail
  // first; recoverable rows are queued, exhausted ones dead, all others - and every attempt count, lease and key -
  // as they were; and the result counts the requeued entries and the buried jobs.
  lemma {:induction false} ReapFoldExact(db: Db, l: seq<Entry>, pending: seq<Entry>)
    ensures var f := ReapFold(db, l, pending);
      && f.pending == pending + Kept(db, Reverse(l))
      && f.reaped == |Kept(db, Reverse(l))| + |ExhaustedIn(db, l)|
      && f.db.effects == db.effects && f.db.nextLease == db.nextLease && f.db.rows.Keys == db.rows.Keys
      && (forall id :: id in db.rows ==> f.db.rows[id] == Settled(db, l, id))
  {
    ReapFoldQueue(db, l, pending);
    ReapFoldRows(db, l, pending);
  }

  // ---- recoverOwnProcessing ----

  // while (LMOVE processing pending RIGHT RIGHT) !== null
  method MoveAll(redis: Redis, w: WorkerId) returns (moved: nat)
    modifies redis`processing, redis`pending
    ensures redis.pending == old(redis.pending) + Reverse(old(redis.List(w)))
    ensures redis.List(w) == [] && moved == |old(redis.List(w))|
    ensures forall v :: v != w ==> redis.List(v) == old(redis.List(v))
  {
    moved := 0;
    while true
      invariant redis.pending + Reverse(redis.List(w)) == old(redis.pending) + Reverse(old(redis.List(w)))
      invariant moved + |redis.List(w)| == |old(redis.List(w))|
      invariant forall v :: v != w ==> redis.List(v) == old(redis.List(v))
      decreases |redis.List(w)|
    {
      ghost var l, p := redis.List(w), redis.pending;
      var more := redis.LmoveRightRight(w);
      if !more {
        assert redis.pending + Reverse(l) == redis.pending;
        break;
      }
      assert redis.List(w) == l[..|l| - 1];
      assert p + Reverse(l) == redis.pending + Reverse(redis.List(w));
      moved := moved + 1;
    }
  }

  // `occupied` is the last answer to EXISTS worker:w:alive, after the wait.
  method RecoverOwnProcessing(redis: Redis, pg: Postgres, w: WorkerId, occupied: bool) returns (moved: nat)
    modifies redis`processing, redis`pending, pg`db
    ensures occupied ==> pg.db == old(pg.db) && redis.pending == old(redis.pending) && redis.processing == old(redis.processing)
    ensures !occupied ==>
      (pg.db, redis.List(w), redis.pending) == ByWorker(old(pg.db), old(redis.List(w)), old(redis.pending))
    ensures moved == |redis.pending| - |old(redis.pending)|
    ensures forall v :: v != w ==> redis.List(v) == old(redis.List(v))
  {
    moved := 0;
    if occupied { return; }
    var stranded := JobsIn(redis.List(w));
    if |stranded| == 0 { return; }
    pg.db := RestoreRunning(pg.db, stranded);
    moved := MoveAll(redis, w);
  }

  lemma {:induction false} KeptAll(db: Db, l: seq<Entry>)
    ensures |Kept(db, l)| <= |l|
    ensures Kept(db, l) == l <==> forall e :: e in l ==> Recoverable(db, e)
  {
    if |l| > 0 {
      KeptAll(db, l[1..]);
      assert forall e :: e in l <==> e == l[0] || e in l[1..];
      if Recoverable(db, l[0]) {
        assert l == [l[0]] + l[1..];
      } else {
        assert |Kept(db, l)| < |l|;
      }
    }
  }

  // What each path leaves behind: the rows, the worker's list and pending.
  function ByWorker(db: Db, l: seq<Entry>, pending: seq<Entry>): (Db, seq<Entry>, seq<Entry>) {
    if |JobsIn(l)| == 0 then (db, l, pending) else (RestoreRunning(db, JobsIn(l)), [], pending + Reverse(l))
  }

  function ByReaper(db: Db, l: seq<Entry>, pending: seq<Entry>): (Db, seq<Entry>, seq<Entry>) {
    var f := ReapFold(db, l, pending);
    (f.db, [], f.pending)
  }

  // Main result: a restarted worker and the reaper leave the same rows, the same list and the same pending queue
  // if and only if every listed entry is an id whose row is queued or running with an attempt left.
  lemma TwoPathsAgree(db: Db, l: seq<Entry>, pending: seq<Entry>)
    ensures ByWorker(db, l, pending) == ByReaper(db, l, pending) <==> forall e :: e in l ==> Recoverable(db, e)
  {
    ReapFoldExact(db, l, pending);
    KeptAll(db, Reverse(l));
    ReversedMembers(l);
    if forall e :: e in l ==> Recoverable(db, e) {
      AgreeOnRecoverable(db, l, pending);
    } else if |JobsIn(l)| > 0 {
      assert (pending + Reverse(l))[|pending|..] == Reverse(l);
      assert (pending + Kept(db, Reverse(l)))[|pending|..] == Kept(db, Reverse(l));
    } else {
      assert |l| > 0;
    }
  }

  lemma ReversedMembers(l: seq<Entry>)
    ensures forall e :: e in Reverse(l) <==> e in l
  {
    forall e | e in l ensures e in Reverse(l) {
      var i :| 0 <= i < |l| && l[i] == e;
      assert Reverse(l)[|l| - 1 - i] == e;
    }
  }

  lemma AgreeOnRecoverable(db: Db, l: seq<Entry>, pending: seq<Entry>)
    requires forall e :: e in l ==> Recoverable(db, e)
    ensures ByWorker(db, l, pending) == ByReaper(db, l, pending)
  {
    ReapFoldExact(db, l, pending);
    KeptAll(db, Reverse(l));
    ReversedMembers(l);
    var f := ReapFold(db, l, pending);
    if |l| == 0 {
      assert JobsIn(l) == {};
      assert f.pending == pending;
    } else {
      assert l[0] in l && l[0].job in JobsIn(l);
      SameRows(db, l, f.db);
    }
  }

  lemma SameRows(db: Db, l: seq<Entry>, after: Db)
    requires forall e :: e in l ==> Recoverable(db, e)
    requires after.effects == db.effects && after.nextLease == db.nextLease && after.rows.Keys == db.rows.Keys
    requires forall id :: id in db.rows ==> after.rows[id] == Settled(db, l, id)
    ensures RestoreRunning(db, JobsIn(l)) == after
  {
    forall id | id in db.rows ensures RestoreRunning(db, JobsIn(l)).rows[id] == after.rows[id] {
      assert id in JobsIn(l) <==> Id(id) in l;
    }
    assert RestoreRunning(db, JobsIn(l)).rows == after.rows;
  }

  // ---- reapDead ----

  // What becomes of a worker's list.
  function ListAfter(alive: set<WorkerId>, keys: seq<WorkerId>, w: WorkerId, l: seq<Entry>): seq<Entry> {
    if w in keys && w !in alive then [] else l
  }

  // What a reaper pass may have done to a row.
  predicate ReapedRow(before: Row, after: Row) {
    && after.attempts == before.attempts && after.maxAttempts == before.maxAttempts
    && (after.status != before.status ==>
         (before.status == Queued || before.status == Running)
         && after.status == (if before.attempts < before.maxAttempts then Queued else Dead))
  }

  ghost predicate ReapedRows(before: Db, after: Db) {
    && after.effects == before.effects && after.rows.Keys == before.rows.Keys
    && forall id :: id in before.rows ==> ReapedRow(before.rows[id], after.rows[id])
  }

  lemma FoldReapsRows(before: Db, db: Db, l: seq<Entry>, pending: seq<Entry>)
    requires ReapedRows(before, db)
    ensures var f := ReapFold(db, l, pending);
      ReapedRows(before, f.db) && pending <= f.pending && |f.pending| - |pending| <= f.reaped
  {
    ReapFoldExact(db, l, pending);
    var f := ReapFold(db, l, pending);
    forall id | id in before.rows ensures ReapedRow(before.rows[id], f.db.rows[id]) {
      assert ReapedRow(before.rows[id], db.rows[id]);
    }
  }

  function Listed(m: map<WorkerId, seq<Entry>>, w: WorkerId): seq<Entry> { if w in m then m[w] else [] }

  // The scanned lists without a heartbeat as one list, the first one scanned at its tail.
  function AllListed(alive: set<WorkerId>, keys: seq<WorkerId>, m: map<WorkerId, seq<Entry>>): seq<Entry> {
    if |keys| == 0 then []
    else
      var w, before := keys[|keys| - 1], keys[..|keys| - 1];
      ListAfterwards(alive, before, w, m) + AllListed(alive, before, m)
  }

  // What a list still holds when its turn comes: nothing if its worker is alive or its key came up before.
  function ListAfterwards(alive: set<WorkerId>, before: seq<WorkerId>, w: WorkerId, m: map<WorkerId, seq<Entry>>): seq<Entry> {
    if w in alive then [] else ListAfter(alive, before, w, Listed(m, w))
  }

  // Emptying one list after another is emptying them as one.
  lemma {:induction false} FoldsCompose(db: Db, l: seq<Entry>, k: seq<Entry>, pending: seq<Entry>)
    ensures var f := ReapFold(db, l, pending); var g := ReapFold(f.db, k, f.pending);
      ReapFold(db, k + l, pending) == g.(reaped := f.reaped + g.reaped)
    decreases |l|
  {
    if |l| == 0 {
      assert k + l == k;
    } else {
      var e, rest := l[|l| - 1], l[..|l| - 1];
      assert (k + l)[|k + l| - 1] == e && (k + l)[..|k + l| - 1] == k + rest;
      FoldsCompose(JudgedDb(db, e), rest, k, JudgedPending(db, e, pending));
    }
  }

  lemma NextKey(alive: set<WorkerId>, keys: seq<WorkerId>, i: nat, m: map<WorkerId, seq<Entry>>, db: Db, pending: seq<Entry>)
    requires i < |keys|
    ensures forall w :: w in keys[..i + 1] <==> w in keys[..i] || w == keys[i]
    ensures var f := ReapFold(db, AllListed(alive, keys[..i], m), pending);
      var g := ReapFold(f.db, ListAfterwards(alive, keys[..i], keys[i], m), f.pending);
      ReapFold(db, AllListed(alive, keys[..i + 1], m), pending) == g.(reaped := f.reaped + g.reaped)
        && (keys[i] in alive ==> g == f.(reaped := 0))
  {
    assert keys[..i + 1][..i] == keys[..i] && keys[..i + 1][i] == keys[i];
    FoldsCompose(db, AllListed(alive, keys[..i], m), ListAfterwards(alive, keys[..i], keys[i], m), pending);
  }

  // `keys` is what the scan for processing:* found. Lists of live workers are passed over; all others are emptied as
  // one list would be; what that does to rows, pending and count is ReapFoldExact's and DeadListsArePushed's.
  method ReapDead(redis: Redis, pg: Postgres, keys: seq<WorkerId>) returns (reaped: nat)
    modifies redis`processing, redis`pending, pg`db
    ensures forall w :: redis.List(w) == if w in keys && w !in redis.alive then [] else old(redis.List(w))
    ensures var f := ReapFold(old(pg.db), AllListed(redis.alive, keys, old(redis.processing)), old(redis.pending));
      pg.db == f.db && redis.pending == f.pending && reaped == f.reaped
    ensures old(redis.pending) <= redis.pending && |redis.pending| - |old(redis.pending)| <= reaped
    ensures ReapedRows(old(pg.db), pg.db)
  {
    ghost var m := redis.processing;
    assert ReapedRows(pg.db, pg.db);
    FoldReapsRows(pg.db, pg.db, AllListed(redis.alive, keys, m), redis.pending);
    reaped := ReapLists(redis, pg, keys);
    hide ReapFold, AllListed, Recoverable, ReapedRows, IsQueued;
  }

  // The loop over the keys.
  method ReapLists(redis: Redis, pg: Postgres, keys: seq<WorkerId>) returns (reaped: nat)
    modifies redis`processing, redis`pending, pg`db
    ensures forall w :: redis.List(w) == ListAfter(redis.alive, keys, w, old(redis.List(w)))
    ensures Reaping(pg.db, redis.pending, reaped)
      == ReapFold(old(pg.db), AllListed(redis.alive, keys, old(redis.processing)), old(redis.pending))
  {
    reaped := 0;
    ghost var m := redis.processing;
    for i := 0 to |keys|
      invariant forall w :: redis.List(w) == ListAfter(redis.alive, keys[..i], w, Listed(m, w))
      invariant Reaping(pg.db, redis.pending, reaped)
        == ReapFold(old(pg.db), AllListed(redis.alive, keys[..i], m), old(redis.pending))
    {
      NextKey(redis.alive, keys, i, m, old(pg.db), old(redis.pending));
      if keys[i] !in redis.alive {
        var n := ReapWorker(redis, pg, keys[i]);
        reaped := reaped + n;
      }
    }
    assert keys[..|keys|] == keys;
  }

  predicate IsQueued(db: Db, e: Entry) { e.Id? && e.job in db.rows && db.rows[e.job].status == Queued }

  lemma DeadListsArePushed(db: Db, alive: set<WorkerId>, keys: seq<WorkerId>, m: map<WorkerId, seq<Entry>>, pending: seq<Entry>)
    ensures var f := ReapFold(db, AllListed(alive, keys, m), pending);
      forall w, e :: w in keys && w !in alive && e in Listed(m, w) && Recoverable(db, e) ==> e in f.pending && IsQueued(f.db, e)
  {
    forall w, e | w in keys && w !in alive && e in Listed(m, w) && Recoverable(db, e)
      ensures var f := ReapFold(db, AllListed(alive, keys, m), pending); e in f.pending && IsQueued(f.db, e)
    {
      AllAreListed(alive, keys, m, w, e);
      RecoverableArePushed(db, AllListed(alive, keys, m), pending, e);
    }
  }

  lemma {:induction false} AllAreListed(alive: set<WorkerId>, keys: seq<WorkerId>, m: map<WorkerId, seq<Entry>>, w: WorkerId, e: Entry)
    requires w in keys && w !in alive && e in Listed(m, w)
    ensures e in AllListed(alive, keys, m)
  {
    var k := |keys| - 1;
    if w in keys[..k] { AllAreListed(alive, keys[..k], m, w, e); } else { assert keys[k] == w; }
  }

  lemma RecoverableArePushed(db: Db, l: seq<Entry>, pending: seq<Entry>, e: Entry)
    requires e in l && Recoverable(db, e)
    ensures var f := ReapFold(db, l, pending); e in f.pending && IsQueued(f.db, e)
  {
    ReapFoldExact(db, l, pending);
    ReversedMembers(l);
    KeptCounts(db, Reverse(l), e);
  }

  // ---- sweepOrphans ----

  method IdsHeldByRedis(redis: Redis, keys: seq<WorkerId>) returns (held: set<Entry>)
    ensures forall e :: e in held <==>
      e in redis.pending || exists w :: w in keys && w in redis.processing && e in redis.processing[w]
  {
    held := set e | e in redis.pending;
    for i := 0 to |keys|
      invariant forall e :: e in held <==>
        e in redis.pending || exists w :: w in keys[..i] && w in redis.processing && e in redis.processing[w]
    {
      ghost var before := held;
      held := held + set e | e in redis.List(keys[i]);
      assert forall w :: w in keys[..i + 1] <==> w in keys[..i] || w == keys[i];
      forall e ensures e in held <==>
        e in redis.pending || exists w :: w in keys[..i + 1] && w in redis.processing && e in redis.processing[w]
      {
        assert e in held <==> e in before || e in redis.List(keys[i]);
      }
    }
    assert keys[..|keys|] == keys;
  }

  // The candidates that are in no list, in the order of the SELECT.
  function Lost(held: set<Entry>, candidates: seq<JobId>): seq<Entry> {
    if |candidates| == 0 then []
    else (if Id(candidates[0]) in held then [] else [Id(candidates[0])]) + Lost(held, candidates[1..])
  }

  lemma {:induction false} LostSnoc(held: set<Entry>, cs: seq<JobId>, id: JobId)
    ensures Lost(held, cs + [id]) == Lost(held, cs) + (if Id(id) in held then [] else [Id(id)])
  {
    if |cs| > 0 {
      assert (cs + [id])[1..] == cs[1..] + [id];
      LostSnoc(held, cs[1..], id);
    }
  }

  // As often as the SELECT named it, if no list holds it, and otherwise not at all.
  lemma {:induction false} LostExactly(held: set<Entry>, cs: seq<JobId>, e: Entry)
    ensures multiset(Lost(held, cs))[e] == if e.Id? && e !in held then multiset(cs)[e.job] else 0
  {
    if |cs| > 0 {
      LostExactly(held, cs[1..], e);
      assert cs == [cs[0]] + cs[1..];
      CountCons(Id(cs[0]), Lost(held, cs[1..]), e);
      if e.Id? { CountCons(cs[0], cs[1..], e.job); }
      assert Id(cs[0]) in held ==> Lost(held, cs) == Lost(held, cs[1..]);
      assert Id(cs[0]) !in held ==> Lost(held, cs) == [Id(cs[0])] + Lost(held, cs[1..]);
      hide Lost;
    }
  }

  // A pass leaves what was pending where it is, and behind it, at the tail, pushes each candidate that neither pending nor
  // a scanned list held when it looked, in order, as often as the SELECT named it, and no other.
  method SweepOrphans(redis: Redis, candidates: seq<JobId>, keys: seq<WorkerId>) returns (requeued: nat)
    modifies redis`pending
    ensures exists held: set<Entry> :: redis.pending == old(redis.pending) + Lost(held, candidates)
    ensures requeued == |redis.pending| - |old(redis.pending)|
    ensures forall id :: id in candidates && Id(id) in old(redis.pending) ==>
      multiset(redis.pending)[Id(id)] == multiset(old(redis.pending))[Id(id)]
    ensures forall id, w :: id in candidates && w in keys && w in redis.processing && Id(id) in redis.processing[w] ==>
      multiset(redis.pending)[Id(id)] == multiset(old(redis.pending))[Id(id)]
    ensures forall id :: (&& id in candidates && Id(id) !in old(redis.pending)
                          && forall w :: w in keys && w in redis.processing ==> Id(id) !in redis.processing[w]) ==>
      multiset(redis.pending)[Id(id)] == multiset(candidates)[id]
    ensures forall e: Entry :: !(e.Id? && e.job in candidates) ==> multiset(redis.pending)[e] == multiset(old(redis.pending))[e]
  {
    requeued := 0;
    if |candidates| == 0 {
      assert redis.pending == redis.pending + Lost({}, candidates);
      return;
    }
    var held := IdsHeldByRedis(redis, keys);
    SweptExactly(redis.pending, held, candidates);
    requeued := PushLost(redis, candidates, held);
    hide Lost;
  }

  // The loop over the candidates.
  method PushLost(redis: Redis, candidates: seq<JobId>, held: set<Entry>) returns (requeued: nat)
    modifies redis`pending
    ensures redis.pending == old(redis.pending) + Lost(held, candidates) && requeued == |Lost(held, candidates)|
  {
    requeued := 0;
    for i := 0 to |candidates|
      invariant redis.pending == old(redis.pending) + Lost(held, candidates[..i])
      invariant requeued == |Lost(held, candidates[..i])|
    {
      LostSnoc(held, candidates[..i], candidates[i]);
      assert candidates[..i + 1] == candidates[..i] + [candidates[i]];
      if Id(candidates[i]) !in held {
        redis.pending := redis.pending + [Id(candidates[i])];
        requeued := requeued + 1;
      }
    }
    assert candidates[..|candidates|] == candidates;
  }

  lemma SweptExactly(before: seq<Entry>, held: set<Entry>, cs: seq<JobId>)
    ensures forall e: Entry ::
      multiset(before + Lost(held, cs))[e] == multiset(before)[e] + if e.Id? && e !in held then multiset(cs)[e.job] else 0
  {
    forall e: Entry ensures multiset(before + Lost(held, cs))[e] ==
      multiset(before)[e] + if e.Id? && e !in held then multiset(cs)[e.job] else 0
    {
      LostExactly(held, cs, e);
      hide Lost;
    }
  }

  // ---- promoteDue ----

  function Ids(l: seq<JobId>): seq<Entry> {
    if |l| == 0 then [] else [Id(l[0])] + Ids(l[1..])
  }

  lemma {:induction false} IdsSnoc(l: seq<JobId>, id: JobId)
    ensures Ids(l + [id]) == Ids(l) + [Id(id)]
  {
    if |l| > 0 {
      assert (l + [id])[1..] == l[1..] + [id];
      IdsSnoc(l[1..], id);
    }
  }

  lemma ReverseSnoc(l: seq<Entry>, e: Entry)
    ensures Reverse(l + [e]) == [e] + Reverse(l)
  {
    assert (l + [e])[..|l|] == l;
  }

  // The rows after promoting some ids: queued, each of them.
  ghost predicate PromotedRows(before: Db, after: Db, ids: seq<JobId>) {
    && after.effects == before.effects && after.nextLease == before.nextLease && after.rows.Keys == before.rows.Keys
    && forall id :: id in before.rows ==>
         after.rows[id] == (if id in ids then before.rows[id].(status := Queued) else before.rows[id])
  }

  lemma PromotedSnoc(before: Db, after: Db, ids: seq<JobId>, id: JobId)
    requires PromotedRows(before, after, ids)
    ensures PromotedRows(before, SetStatus(after, id, Queued), ids + [id])
  {
    assert forall x :: x in ids + [id] <==> x in ids || x == id;
  }

  // ZREM is the claim; then UPDATE, then LPUSH.
  method PromoteOne(redis: Redis, pg: Postgres, id: JobId) returns (claimed: bool)
    modifies redis`delayed, redis`pending, pg`db
    ensures claimed == (id in old(redis.delayed))
    ensures redis.delayed == old(redis.delayed) - {id}
    ensures claimed ==> pg.db == SetStatus(old(pg.db), id, Queued) && redis.pending == [Id(id)] + old(redis.pending)
    ensures !claimed ==> pg.db == old(pg.db) && redis.pending == old(redis.pending)
  {
    claimed := id in redis.delayed;
    redis.delayed := redis.delayed - {id};
    if !claimed { return; }
    pg.db := SetStatus(pg.db, id, Queued);
    redis.pending := [Id(id)] + redis.pending;
  }

  function Without(m: map<JobId, int>, ids: seq<JobId>): map<JobId, int> {
    map id | id in m && id !in ids :: m[id]
  }

  // What a pass has done once it is through with the ids in `done`.
  ghost predicate PassedOver(db: Db, pending: seq<Entry>, delayed: map<JobId, int>, done: seq<JobId>,
                             db': Db, pending': seq<Entry>, delayed': map<JobId, int>) {
    && delayed' == Without(delayed, done)
    && pending' == Reverse(Ids(done)) + pending
    && PromotedRows(db, db', done)
  }

  lemma PassStep(db: Db, pending: seq<Entry>, delayed: map<JobId, int>, done: seq<JobId>,
                 db': Db, pending': seq<Entry>, delayed': map<JobId, int>, id: JobId)
    requires PassedOver(db, pending, delayed, done, db', pending', delayed')
    ensures PassedOver(db, pending, delayed, done + [id], SetStatus(db', id, Queued), [Id(id)] + pending', delayed' - {id})
  {
    PromotedSnoc(db, db', done, id);
    IdsSnoc(done, id);
    ReverseSnoc(Ids(done), Id(id));
    WithoutOne(delayed, done, id);
    hide PromotedRows, Reverse, Ids, SetStatus, Without;
    assert [Id(id)] + (Reverse(Ids(done)) + pending) == Reverse(Ids(done + [id])) + pending;
  }

  lemma WithoutOne(delayed: map<JobId, int>, done: seq<JobId>, id: JobId)
    ensures Without(delayed, done) - {id} == Without(delayed, done + [id])
  {
    assert forall x :: x in done + [id] <==> x in done || x == id;
  }

  // `due` is the answer of ZRANGEBYSCORE delayed 0 now LIMIT 0 100. An undisturbed pass takes exactly that batch out,
  // queues its rows, and puts it at pending's head, in front of all that was pending, the later due the farther from
  // the tail.
  method PromoteDue(redis: Redis, pg: Postgres, now: int, due: seq<JobId>) returns (promoted: nat)
    requires IsLowest(DueBy(redis.delayed, now), BATCH, due)
    modifies redis`delayed, redis`pending, pg`db
    ensures promoted == |due|
    ensures forall id :: id in due ==> id in old(redis.delayed) && 0 <= old(redis.delayed)[id] <= now
    ensures forall id :: id in old(redis.delayed) && 0 <= old(redis.delayed)[id] <= now && id !in due ==>
      |due| == 100 && forall p :: p in due ==> old(redis.delayed)[p] <= old(redis.delayed)[id]
    ensures redis.delayed.Keys == old(redis.delayed).Keys - set id | id in due
    ensures forall id :: id in redis.delayed ==> redis.delayed[id] == old(redis.delayed)[id]
    ensures redis.pending == Reverse(Ids(due)) + old(redis.pending)
    ensures PromotedRows(old(pg.db), pg.db, due)
    ensures EarliestNearestTail(old(redis.delayed), due, old(redis.pending), redis.pending)
  {
    EarliestDueFirst(redis.delayed, now, due, redis.pending);
    BatchIsDue(redis.delayed, now, due);
    promoted := PromoteEach(redis, pg, due);
    hide Reverse, Ids, IsLowest, DueBy, EarliestNearestTail, PromotedRows;
  }

  // The loop over the batch.
  method PromoteEach(redis: Redis, pg: Postgres, due: seq<JobId>) returns (promoted: nat)
    requires NoDup(due) && forall id :: id in due ==> id in redis.delayed
    modifies redis`delayed, redis`pending, pg`db
    ensures promoted == |due|
    ensures PassedOver(old(pg.db), old(redis.pending), old(redis.delayed), due, pg.db, redis.pending, redis.delayed)
  {
    promoted := 0;
    ghost var db, pending, delayed := pg.db, redis.pending, redis.delayed;
    assert Without(delayed, []) == delayed;
    for i := 0 to |due|
      invariant promoted == i
      invariant PassedOver(db, pending, delayed, due[..i], pg.db, redis.pending, redis.delayed)
    {
      assert due[..i + 1] == due[..i] + [due[i]];
      assert due[i] in due && due[i] !in due[..i];
      PassStep(db, pending, delayed, due[..i], pg.db, redis.pending, redis.delayed, due[i]);
      var claimed := PromoteOne(redis, pg, due[i]);
      if claimed { promoted := promoted + 1; }
    }
    assert due[..|due|] == due;
  }

  lemma BatchIsDue(delayed: map<JobId, int>, now: int, due: seq<JobId>)
    requires IsLowest(DueBy(delayed, now), BATCH, due)
    ensures forall id :: id in due ==> id in delayed && 0 <= delayed[id] <= now
    ensures forall id :: id in delayed && 0 <= delayed[id] <= now && id !in due ==>
      |due| == 100 && forall p :: p in due ==> delayed[p] <= delayed[id]
  {
    assert forall id :: id in delayed && 0 <= delayed[id] <= now ==> id in DueBy(delayed, now);
  }

  // BLMOVE takes from the tail, the last index: everything that was pending goes first, and of two promoted jobs the
  // one that was due earlier.
  ghost predicate EarliestNearestTail(delayed: map<JobId, int>, due: seq<JobId>, before: seq<Entry>, after: seq<Entry>) {
    && |after| == |due| + |before| && after[|due|..] == before
    && (forall a :: a in due ==> a in delayed && Id(a) in after[..|due|])
    && (forall i, j :: 0 <= i < |due| && 0 <= j < |due| && DueBefore(delayed, after[i], after[j]) ==> j < i)
  }

  predicate DueBefore(delayed: map<JobId, int>, x: Entry, y: Entry) {
    x.Id? && y.Id? && x.job in delayed && y.job in delayed && delayed[x.job] < delayed[y.job]
  }

  // Main result: the order of a batch by due time, and pushing it one by one at the head, add up to earliest due first.
  lemma {:induction false} EarliestDueFirst(delayed: map<JobId, int>, now: int, due: seq<JobId>, before: seq<Entry>)
    requires IsLowest(DueBy(delayed, now), BATCH, due)
    ensures EarliestNearestTail(delayed, due, before, Reverse(Ids(due)) + before)
  {
    var n, after := |due|, Reverse(Ids(due)) + before;
    BatchAt(due, before);
    hide Reverse, Ids;
    forall a | a in due ensures a in delayed && Id(a) in after[..n] {
      var i :| 0 <= i < n && due[i] == a;
      assert after[..n][n - 1 - i] == Id(a);
    }
    forall i, j | 0 <= i < n && 0 <= j < n && DueBefore(delayed, after[i], after[j]) ensures j < i {
      assert due[n - 1 - i] in due && due[n - 1 - j] in due;
    }
  }

  lemma BatchAt(due: seq<JobId>, before: seq<Entry>)
    ensures var after := Reverse(Ids(due)) + before;
      && |after| == |due| + |before| && after[|due|..] == before
      && forall i :: 0 <= i < |due| ==> after[i] == Id(due[|due| - 1 - i])
  {
    forall i | 0 <= i < |due| ensures |Ids(due)| == |due| && Ids(due)[i] == Id(due[i]) { IdsAt(due, i); }
  }

  lemma {:induction false} IdsAt(due: seq<JobId>, i: nat)
    requires i < |due|
    ensures |Ids(due)| == |due| && Ids(due)[i] == Id(due[i])
  {
    if i > 0 { IdsAt(due[1..], i - 1); } else if |due| > 1 { IdsAt(due[1..], 0); }
  }
}
