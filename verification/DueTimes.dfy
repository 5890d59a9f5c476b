// Retries and their due times, in every run of the free system: a scheduler reads only what is due, and takes out early
// only what was parked again after it read.
module DueTimes {
  import opened Types
  import opened System

  // The step parks the job until `due`.
  predicate Zadds(s: State, a: Action, id: JobId) {
    a.Worker? && a.worker.Zadd? && a.worker.e in s.execs && s.execs[a.worker.e].entry == Id(id)
  }

  // The due time the job was last parked with.
  ghost function LastZadd(s: State, r: Run<Action>, id: JobId): Option<int> {
    match r
    case Start => None
    case Then(r', a) => if Zadds(After(s, r'), a, id) then Some(a.worker.due) else LastZadd(s, r', id)
  }

  // The time of scheduler p's last read, and whether the job was parked since.
  ghost function LastRead(r: Run<Action>, p: ActorId): Option<int> {
    match r
    case Start => None
    case Then(r', a) =>
      if a.Promoter? && a.promote.PromoteRead? && a.promote.p == p then Some(a.promote.now) else LastRead(r', p)
  }

  ghost predicate ParkedSince(s: State, r: Run<Action>, p: ActorId, id: JobId) {
    match r
    case Start => false
    case Then(r', a) =>
      if a.Promoter? && a.promote.PromoteRead? && a.promote.p == p then false
      else Zadds(After(s, r'), a, id) || ParkedSince(s, r', p, id)
  }

  // ---- What steps do to the delayed set and the batches ----

  lemma WorkerParks(s: State, a: WorkerAction, id: JobId)
    requires WorkerEnabled(s, a)
    ensures var t := WorkerNext(s, a);
      && t.promotions == s.promotions
      && (Zadds(s, Worker(a), id) ==> id in t.delayed && t.delayed[id] == a.due && a.due >= 0)
      && (!Zadds(s, Worker(a), id) ==> SameScore(s.delayed, t.delayed, id))
  {}

  predicate SameScore(m: map<JobId, int>, m': map<JobId, int>, id: JobId) {
    (id in m' <==> id in m) && (id in m ==> m'[id] == m[id])
  }

  lemma RecoveryParks(s: State, a: RecoveryAction)
    requires RecoveryEnabled(s, a)
    ensures RecoveryNext(s, a).delayed == s.delayed && RecoveryNext(s, a).promotions == s.promotions
  {}

  lemma ReapParks(s: State, a: ReapAction)
    requires ReapEnabled(s, a)
    ensures ReapNext(s, a).delayed == s.delayed && ReapNext(s, a).promotions == s.promotions
  {}

  lemma SweepParks(s: State, a: SweepAction)
    requires SweepEnabled(s, a)
    ensures SweepNext(s, a).delayed == s.delayed && SweepNext(s, a).promotions == s.promotions
  {}

  lemma ApiParks(s: State, a: ApiAction)
    requires ApiEnabled(s, a)
    ensures ApiNext(s, a).delayed == s.delayed && ApiNext(s, a).promotions == s.promotions
  {}

  lemma OthersPark(s: State, a: Action)
    requires Enabled(s, a) && !a.Worker? && !a.Promoter?
    ensures Next(s, a).delayed == s.delayed && Next(s, a).promotions == s.promotions
  {
    hide RecoveryNext, ReapNext, SweepNext, ApiNext;
    match a
    case Recover(x) => RecoveryParks(s, x);
    case Reaper(x) => ReapParks(s, x);
    case Sweeper(x) => SweepParks(s, x);
    case Api(x) => ApiParks(s, x);
  }

  // A promotion step only takes out of the set.
  lemma PromoteParks(s: State, a: PromoteAction, id: JobId)
    requires PromoteEnabled(s, a)
    ensures id in PromoteNext(s, a).delayed ==> SameScore(s.delayed, PromoteNext(s, a).delayed, id)
  {}

  // ---- Scores are due times ----

  // Main result: the score under which a job waits is the due time it was last parked with.
  lemma {:induction false} ScoresAreDueTimes(s: State, r: Run<Action>, id: JobId)
    requires s.delayed == map[] && Valid(s, r) && id in After(s, r).delayed
    ensures LastZadd(s, r, id) == Some(After(s, r).delayed[id]) && After(s, r).delayed[id] >= 0
  {
    match r
    case Start =>
    case Then(r', a) =>
      var b := After(s, r');
      if a.Worker? {
        WorkerParks(b, a.worker, id);
      } else if a.Promoter? {
        PromoteParks(b, a.promote, id);
      } else {
        OthersPark(b, a);
      }
      hide Next, Enabled, WorkerNext, PromoteNext;
      if !Zadds(b, a, id) { ScoresAreDueTimes(s, r', id); }
  }

  // Main result: a scheduler reads a batch of jobs whose due time has come; one that is due and left out has a full batch
  // of jobs due no later before it.
  lemma {:induction false} BatchIsDue(s: State, r: Run<Action>, p: ActorId, now: int, due: seq<JobId>, id: JobId)
    requires s.delayed == map[] && Valid(s, r) && PromoteEnabled(After(s, r), PromoteRead(p, now, due))
    ensures id in due ==> LastZadd(s, r, id).Some? && 0 <= LastZadd(s, r, id).value <= now
    ensures id in After(s, r).delayed && LastZadd(s, r, id).Some? && LastZadd(s, r, id).value <= now && id !in due ==>
      |due| == 100 && forall j :: j in due ==>
        j in After(s, r).delayed && After(s, r).delayed[j] <= LastZadd(s, r, id).value
  {
    var delayed := After(s, r).delayed;
    if id in delayed { ScoresAreDueTimes(s, r, id); }
    assert id in delayed && 0 <= delayed[id] <= now ==> id in DueBy(delayed, now);
  }

  // ---- Nothing is promoted early, unless it was parked again ----

  // What scheduler p has read and not tried yet is due by its clock, if it is still the same parking.
  ghost predicate ReadWasDue(s: State, r: Run<Action>, p: ActorId, id: JobId) {
    var b := After(s, r);
    p in b.promotions && id in b.promotions[p].due && id in b.delayed && !ParkedSince(s, r, p, id) ==>
      LastRead(r, p).Some? && b.delayed[id] <= LastRead(r, p).value
  }

  lemma PromoteReads(s: State, a: PromoteAction, p: ActorId, id: JobId)
    requires PromoteEnabled(s, a)
    ensures var t := PromoteNext(s, a);
      p in t.promotions && id in t.promotions[p].due && id in t.delayed ==>
        if a.PromoteRead? && a.p == p then t.delayed[id] <= a.now
        else p in s.promotions && id in s.promotions[p].due && id in s.delayed && t.delayed[id] == s.delayed[id]
  {
    var t := PromoteNext(s, a);
    if a.PromoteClaim? && a.p == p && id in t.promotions[p].due { assert id in s.promotions[p].due; }
  }

  lemma {:induction false} ReadsWereDue(s: State, r: Run<Action>, p: ActorId, id: JobId)
    requires s.promotions == map[] && Valid(s, r)
    ensures ReadWasDue(s, r, p, id)
  {
    match r
    case Start =>
    case Then(r', a) =>
      ReadsWereDue(s, r', p, id);
      var b := After(s, r');
      if a.Worker? {
        WorkerParks(b, a.worker, id);
      } else if a.Promoter? {
        PromoteReads(b, a.promote, p, id);
      } else {
        OthersPark(b, a);
      }
      hide Next, Enabled, WorkerNext, PromoteNext, Zadds;
  }

  // Main result: a job that a scheduler takes out of the set was due when it read the set - unless the job was parked
  // again since, as another scheduler's promotion in between makes possible.
  lemma {:induction false} EarlyOnlyIfParkedAgain(s: State, r: Run<Action>, p: ActorId)
    requires s.promotions == map[] && Valid(s, r) && PromoteEnabled(After(s, r), PromoteClaim(p))
    ensures var b := After(s, r); var id := b.promotions[p].due[0];
      id in b.delayed ==> ParkedSince(s, r, p, id) || (LastRead(r, p).Some? && b.delayed[id] <= LastRead(r, p).value)
  {
    ReadsWereDue(s, r, p, After(s, r).promotions[p].due[0]);
  }
}
