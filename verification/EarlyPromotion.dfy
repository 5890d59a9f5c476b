// ZREM gives a retry to one scheduler only, but not necessarily to one that may have it: this module exhibits a run in
// which a scheduler with an old batch promotes a retry long before it is due.
module EarlyPromotion {
  import opened Types
  import opened Lists
  import opened Database
  import opened System
  import opened Duplicates
  import opened DueTimes

  // The run leads from s to u, and scheduler 0 last read at `now`.
  ghost predicate Led(s: State, r: Run<Action>, u: State, now: Option<int>) { Leads(s, r, u) && LastRead(r, 0) == now }

  lemma DoWorker(s: State, r: Run<Action>, u: State, now: Option<int>, a: WorkerAction) returns (q: Run<Action>, v: State)
    requires Led(s, r, u, now) && WorkerEnabled(u, a)
    ensures v == WorkerNext(u, a) && Led(s, q, v, now)
  {
    q, v := Then(r, Worker(a)), WorkerNext(u, a);
  }

  lemma DoPromote(s: State, r: Run<Action>, u: State, now: Option<int>, a: PromoteAction) returns (q: Run<Action>, v: State)
    requires Led(s, r, u, now) && PromoteEnabled(u, a)
    ensures v == PromoteNext(u, a) && Led(s, q, v, if a.PromoteRead? && a.p == 0 then Some(a.now) else now)
  {
    q, v := Then(r, Promoter(a)), PromoteNext(u, a);
  }

  lemma DoApi(s: State, r: Run<Action>, u: State, a: ApiAction) returns (q: Run<Action>, v: State)
    requires Led(s, r, u, None) && ApiEnabled(u, a)
    ensures v == ApiNext(u, a) && Led(s, q, v, None)
  {
    q, v := Then(r, Api(a)), ApiNext(u, a);
  }

  // The job's row and entries, and the schedulers' batches.
  ghost predicate Stands(s: State, row: Row, pending: seq<Entry>, delayed: map<JobId, int>, promotions: map<ActorId, Promotion>) {
    && s.db.rows == map[JOB := row] && s.pending == pending && s.delayed == delayed && s.promotions == promotions
    && s.fencing && s.execs == map[] && |Processing(s, 1)| == 0
  }

  function JobRow(st: Status, n: nat, lease: Option<Lease>): Row { Row(st, n, DEFAULT_MAX_ATTEMPTS, lease, None, 0) }

  lemma Inserted() returns (r: Run<Action>, v: State)
    ensures Led(EmptySystem(true), r, v, None) && Stands(v, JobRow(Queued, 0, None), [Id(JOB)], map[], map[])
  {
    r, v := DoApi(EmptySystem(true), Start, EmptySystem(true), SubmitInsert(0, JOB, None, 0));
    assert v.submits == map[0 := Submit(None, ToPush(JOB))];
    r, v := DoApi(EmptySystem(true), r, v, SubmitPush(0));
  }

  // The same, while execution 10 of worker 1 has the job.
  ghost predicate Works(s: State, row: Row, delayed: map<JobId, int>, promotions: map<ActorId, Promotion>, pc: Pc) {
    && s.db.rows == map[JOB := row] && s.pending == [] && s.delayed == delayed && s.promotions == promotions
    && s.fencing && s.execs == map[10 := Exec(1, Id(JOB), pc)] && Processing(s, 1) == [Id(JOB)]
  }

  lemma TakesIt(s: State, r: Run<Action>, u: State, now: Option<int>, row: Row, delayed: map<JobId, int>,
                promotions: map<ActorId, Promotion>) returns (q: Run<Action>, v: State)
    requires Led(s, r, u, now) && Stands(u, row, [Id(JOB)], delayed, promotions)
    ensures Led(s, q, v, now) && Works(v, row, delayed, promotions, Selecting) && v.db == u.db
  {
    hide Led;
    q, v := DoWorker(s, r, u, now, Take(1, 10));
  }

  lemma Selects(s: State, r: Run<Action>, u: State, now: Option<int>, row: Row, delayed: map<JobId, int>,
                promotions: map<ActorId, Promotion>) returns (q: Run<Action>, v: State)
    requires Led(s, r, u, now) && Works(u, row, delayed, promotions, Selecting)
    ensures Led(s, q, v, now) && Works(v, row, delayed, promotions, Claiming(row.maxAttempts)) && v.db == u.db
  {
    hide Led;
    q, v := DoWorker(s, r, u, now, SelectRow(10));
  }

  lemma Claims(s: State, r: Run<Action>, u: State, now: Option<int>, n: nat, was: Option<Lease>, delayed: map<JobId, int>,
               promotions: map<ActorId, Promotion>) returns (q: Run<Action>, v: State)
    requires Led(s, r, u, now) && Works(u, JobRow(Queued, n, was), delayed, promotions, Claiming(DEFAULT_MAX_ATTEMPTS))
    ensures var lease := u.db.nextLease;
      Led(s, q, v, now) && Works(v, JobRow(Running, n + 1, Some(lease)), delayed, promotions,
                                 Handling(lease, n + 1, DEFAULT_MAX_ATTEMPTS))
  {
    hide Led;
    q, v := DoWorker(s, r, u, now, WorkerAction.Claim(10));
  }

  lemma Throws(s: State, r: Run<Action>, u: State, now: Option<int>, row: Row, lease: Lease, n: nat,
               delayed: map<JobId, int>, promotions: map<ActorId, Promotion>) returns (q: Run<Action>, v: State)
    requires Led(s, r, u, now) && Works(u, row, delayed, promotions, Handling(lease, n, DEFAULT_MAX_ATTEMPTS))
    ensures Led(s, q, v, now) && Works(v, row, delayed, promotions, Failing(lease, n, DEFAULT_MAX_ATTEMPTS))
  {
    hide Led;
    q, v := DoWorker(s, r, u, now, Throw(10));
  }

  lemma Resolves(s: State, r: Run<Action>, u: State, now: Option<int>, lease: Lease, n: nat,
                 delayed: map<JobId, int>, promotions: map<ActorId, Promotion>) returns (q: Run<Action>, v: State)
    requires Led(s, r, u, now) && n < DEFAULT_MAX_ATTEMPTS
    requires Works(u, JobRow(Running, n, Some(lease)), delayed, promotions, Failing(lease, n, DEFAULT_MAX_ATTEMPTS))
    ensures Led(s, q, v, now) && Works(v, JobRow(Retrying, n, Some(lease)), delayed, promotions, Parking)
  {
    hide Led;
    q, v := DoWorker(s, r, u, now, Resolve(10));
  }

  lemma ParksIt(s: State, r: Run<Action>, u: State, now: Option<int>, row: Row, delayed: map<JobId, int>,
                promotions: map<ActorId, Promotion>, due: nat) returns (q: Run<Action>, v: State)
    requires Led(s, r, u, now) && Works(u, row, delayed, promotions, Parking)
    ensures Led(s, q, v, now) && Works(v, row, delayed[JOB := due], promotions, Releasing)
  {
    hide Led;
    q, v := DoWorker(s, r, u, now, Zadd(10, due));
  }

  lemma ReleasesIt(s: State, r: Run<Action>, u: State, now: Option<int>, row: Row, delayed: map<JobId, int>,
                   promotions: map<ActorId, Promotion>) returns (q: Run<Action>, v: State)
    requires Led(s, r, u, now) && Works(u, row, delayed, promotions, Releasing)
    ensures Led(s, q, v, now) && Stands(v, row, [], delayed, promotions)
  {
    hide Led;
    assert RemoveFirst([Id(JOB)], Id(JOB)) == [];
    q, v := DoWorker(s, r, u, now, Release(10));
    assert v.execs == map[];
  }

  // Worker 1 runs the job; its handler throws, and the retry is parked until `due`.
  lemma RunsAndParks(s: State, r: Run<Action>, u: State, now: Option<int>, n: nat, was: Option<Lease>,
                     promotions: map<ActorId, Promotion>, due: nat) returns (q: Run<Action>, v: State)
    requires Led(s, r, u, now) && Stands(u, JobRow(Queued, n, was), [Id(JOB)], map[], promotions) && n + 1 < DEFAULT_MAX_ATTEMPTS
    ensures Led(s, q, v, now)
    ensures Stands(v, JobRow(Retrying, n + 1, Some(u.db.nextLease)), [], map[JOB := due], promotions)
  {
    hide Led, Stands, Works;
    var lease := u.db.nextLease;
    q, v := TakesIt(s, r, u, now, JobRow(Queued, n, was), map[], promotions);
    q, v := Selects(s, q, v, now, JobRow(Queued, n, was), map[], promotions);
    q, v := Claims(s, q, v, now, n, was, map[], promotions);
    q, v := Throws(s, q, v, now, JobRow(Running, n + 1, Some(lease)), lease, n + 1, map[], promotions);
    q, v := Resolves(s, q, v, now, lease, n + 1, map[], promotions);
    q, v := ParksIt(s, q, v, now, JobRow(Retrying, n + 1, Some(lease)), map[], promotions, due);
    assert map[][JOB := due as int] == map[JOB := due as int];
    q, v := ReleasesIt(s, q, v, now, JobRow(Retrying, n + 1, Some(lease)), map[JOB := due], promotions);
  }

  lemma OnlyOneDue()
    ensures IsLowest(DueBy(map[JOB := 5], 5), BATCH, [JOB])
  {
    assert DueBy(map[JOB := 5], 5) == map[JOB := 5];
  }

  // A scheduler reads the retry that is due at 5.
  lemma Reads(s: State, r: Run<Action>, u: State, now: Option<int>, row: Row, promotions: map<ActorId, Promotion>, p: ActorId)
    returns (q: Run<Action>, v: State)
    requires Led(s, r, u, now) && Stands(u, row, [], map[JOB := 5], promotions) && p !in promotions
    ensures Led(s, q, v, if p == 0 then Some(5) else now)
    ensures Stands(v, row, [], map[JOB := 5], promotions[p := Promotion([JOB], Hand.Empty)])
  {
    OnlyOneDue();
    hide Led, IsLowest, DueBy;
    q, v := DoPromote(s, r, u, now, PromoteRead(p, 5, [JOB]));
  }

  // Scheduler 1 promotes it.
  lemma SecondPromotes(s: State, r: Run<Action>, u: State, now: Option<int>, n: nat, lease: Option<Lease>) returns (q: Run<Action>, v: State)
    requires Led(s, r, u, now) && Stands(u, JobRow(Retrying, n, lease), [], map[JOB := 5],
                                      map[0 := Promotion([JOB], Hand.Empty), 1 := Promotion([JOB], Hand.Empty)])
    ensures Led(s, q, v, now)
    ensures Stands(v, JobRow(Queued, n, lease), [Id(JOB)], map[],
                   map[0 := Promotion([JOB], Hand.Empty), 1 := Promotion([], Hand.Empty)])
  {
    hide Led;
    q, v := DoPromote(s, r, u, now, PromoteClaim(1));
    assert [JOB][1..] == [];
    assert v.promotions == map[0 := Promotion([JOB], Hand.Empty), 1 := Promotion([], Claimed(JOB))];
    assert v.delayed == map[];
    q, v := DoPromote(s, q, v, now, PromoteUpdate(1));
    assert v.promotions == map[0 := Promotion([JOB], Hand.Empty), 1 := Promotion([], Requeued(JOB))];
    assert v.db.rows == map[JOB := JobRow(Queued, n, lease)];
    q, v := DoPromote(s, q, v, now, PromotePush(1));
    assert v.promotions == map[0 := Promotion([JOB], Hand.Empty), 1 := Promotion([], Hand.Empty)];
  }

  // Main result: scheduler 0 read at time 5; the retry it is about to take out is due at 1000.
  lemma {:induction false} PromotedEarly() returns (r: Run<Action>)
    ensures Valid(EmptySystem(true), r)
    ensures var b := After(EmptySystem(true), r);
      && PromoteEnabled(b, PromoteClaim(0)) && b.promotions[0].due[0] == JOB
      && JOB in b.delayed && b.delayed[JOB] == 1000 && LastRead(r, 0) == Some(5)
  {
    var s := EmptySystem(true);
    var v: State;
    hide Stands, Led;
    r, v := Inserted();
    var lease := Some(v.db.nextLease);
    r, v := RunsAndParks(s, r, v, None, 0, None, map[], 5);
    r, v := Reads(s, r, v, None, JobRow(Retrying, 1, lease), map[], 0);
    r, v := Reads(s, r, v, Some(5), JobRow(Retrying, 1, lease), map[0 := Promotion([JOB], Hand.Empty)], 1);
    assert map[0 := Promotion([JOB], Hand.Empty)][1 := Promotion([JOB], Hand.Empty)]
      == map[0 := Promotion([JOB], Hand.Empty), 1 := Promotion([JOB], Hand.Empty)];
    r, v := SecondPromotes(s, r, v, Some(5), 1, lease);
    var batches := map[0 := Promotion([JOB], Hand.Empty), 1 := Promotion([], Hand.Empty)];
    var again := Some(v.db.nextLease);
    r, v := RunsAndParks(s, r, v, Some(5), 1, lease, batches, 1000);
    Shown(s, r, v, JobRow(Retrying, 2, again), batches);
  }

  lemma Shown(s: State, r: Run<Action>, v: State, row: Row, promotions: map<ActorId, Promotion>)
    requires Led(s, r, v, Some(5)) && Stands(v, row, [], map[JOB := 1000], promotions)
    requires 0 in promotions && promotions[0] == Promotion([JOB], Hand.Empty)
    ensures var b := After(s, r);
      && Valid(s, r) && PromoteEnabled(b, PromoteClaim(0)) && b.promotions[0].due[0] == JOB
      && JOB in b.delayed && b.delayed[JOB] == 1000 && LastRead(r, 0) == Some(5)
  {}
}
