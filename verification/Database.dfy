// Postgres: the jobs and job_effects tables, and every SQL statement that writes them.
// One function is one statement (or, for SettleRow, one transaction); a boolean result says whether a row matched.
module Database {
  import opened Types

  // max_attempts INT NOT NULL DEFAULT 5
  const DEFAULT_MAX_ATTEMPTS: nat := 5

  datatype Row = Row(
    status: Status,
    attempts: nat,
    maxAttempts: nat,
    lease: Option<Lease>,
    key: Option<string>,
    createdAt: int
  )

  // One job_effects row. `claim` is not a column: it remembers which claim the row came from.
  datatype Effect = Effect(job: JobId, worker: WorkerId, claim: Lease)

  datatype Db = Db(rows: map<JobId, Row>, effects: seq<Effect>, nextLease: Lease)

  predicate Terminal(st: Status) { st == Succeeded || st == Failed || st == Dead }

  function SetStatus(db: Db, id: JobId, st: Status): Db {
    if id in db.rows then db.(rows := db.rows[id := db.rows[id].(status := st)]) else db
  }

  // The rows a given idempotency key is already attached to. NULL keys never conflict.
  ghost predicate KeyTaken(db: Db, key: Option<string>) {
    key.Some? && exists id :: id in db.rows && db.rows[id].key == key
  }

  ghost predicate Holder(db: Db, key: Option<string>, id: JobId) {
    key.Some? && id in db.rows && db.rows[id].key == key
  }

  // INSERT INTO jobs ... ON CONFLICT (idempotency_key) DO NOTHING
  ghost function InsertRow(db: Db, id: JobId, key: Option<string>, createdAt: int): (Db, bool) {
    if KeyTaken(db, key) then (db, false)
    else (db.(rows := db.rows[id := Row(Queued, 0, DEFAULT_MAX_ATTEMPTS, None, key, createdAt)]), true)
  }

  predicate Claimable(db: Db, id: JobId) {
    id in db.rows && (db.rows[id].status == Queued || db.rows[id].status == Retrying)
  }

  // UPDATE ... SET status = 'running', attempts = attempts + 1, lease_id = gen_random_uuid()
  //  WHERE id = $1 AND status IN ('queued', 'retrying')
  function ClaimRow(db: Db, id: JobId): (Db, bool) {
    if Claimable(db, id) then
      var row := db.rows[id];
      (Db(db.rows[id := row.(status := Running, attempts := row.attempts + 1, lease := Some(db.nextLease))],
          db.effects, db.nextLease + 1), true)
    else (db, false)
  }

  // The guard every later write of an execution carries: lease_id = $2, or no guard with FENCING=off.
  predicate LeaseHeld(db: Db, fencing: bool, id: JobId, lease: Lease) {
    id in db.rows && (fencing ==> db.rows[id].lease == Some(lease))
  }

  // BEGIN; UPDATE ... SET status = 'succeeded'; INSERT INTO job_effects; COMMIT - or ROLLBACK when no row matched
  function SettleRow(db: Db, fencing: bool, id: JobId, lease: Lease, worker: WorkerId): Db {
    if LeaseHeld(db, fencing, id, lease) then
      SetStatus(db, id, Succeeded).(effects := db.effects + [Effect(id, worker, lease)])
    else db
  }

  // UPDATE ... SET status = 'dead' / 'retrying', each guarded by the lease
  function FencedStatus(db: Db, fencing: bool, id: JobId, lease: Lease, st: Status): (Db, bool) {
    if LeaseHeld(db, fencing, id, lease) then (SetStatus(db, id, st), true) else (db, false)
  }

  // UPDATE ... SET status = 'queued' WHERE id = ANY($1) AND status = 'running'
  function RestoreRunning(db: Db, ids: set<JobId>): Db {
    db.(rows := map id | id in db.rows ::
      if id in ids && db.rows[id].status == Running then db.rows[id].(status := Queued) else db.rows[id])
  }

  // UPDATE ... SET status = 'queued', attempts = 0 WHERE id = $1 AND status = 'dead'
  function ReplayRow(db: Db, id: JobId): (Db, bool) {
    if id in db.rows && db.rows[id].status == Dead then
      (db.(rows := db.rows[id := db.rows[id].(status := Queued, attempts := 0)]), true)
    else (db, false)
  }

  // SELECT COUNT(*) FROM job_effects WHERE job_id = id
  function EffectCount(effects: seq<Effect>, id: JobId): nat {
    if |effects| == 0 then 0
    else EffectCount(effects[..|effects| - 1], id) + (if effects[|effects| - 1].job == id then 1 else 0)
  }

  lemma EffectCountAppend(effects: seq<Effect>, x: Effect, id: JobId)
    ensures EffectCount(effects + [x], id) == EffectCount(effects, id) + (if x.job == id then 1 else 0)
  {
    assert (effects + [x])[..|effects|] == effects;
  }
}
