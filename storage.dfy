/** The directory and session store: the four tables in memory, queried by
    exact-match filters in insertion order, with serial ids and the two
    uniqueness constraints (worker phone, session id) of the schema.

    The pure functions on `Db` say what each query returns and what each
    write leaves behind; class `Store` is the mutable store whose methods
    perform those writes in place. */
module Storage {
  import opened Wrappers
  import opened Schema
  import JsText

  /** The whole database: the tables in insertion order and the next value of
      each serial column. */
  datatype Db = Db(
    workers: seq<Worker>,
    jobs: seq<Job>,
    matches: seq<Match>,
    sessions: seq<UssdSession>,
    nextWorkerId: int,
    nextJobId: int,
    nextMatchId: int,
    nextSessionId: int)

  /** Fresh tables: serial columns start at 1. */
  const EmptyDb := Db([], [], [], [], 1, 1, 1, 1)

  // ---------------------------------------------------------------------
  // Query building blocks

  /** `SELECT ... WHERE keep(row)`, in table order. */
  function Filter<T>(s: seq<T>, keep: T -> bool): (r: seq<T>)
    ensures |r| <= |s|
    ensures forall x :: x in r ==> x in s && keep(x)
    ensures forall i :: 0 <= i < |s| && keep(s[i]) ==> s[i] in r
  {
    if s == [] then []
    else (if keep(s[0]) then [s[0]] else []) + Filter(s[1..], keep)
  }

  /** Filtering a concatenation filters each part, so table order is kept. */
  lemma {:induction false} FilterAppend<T>(a: seq<T>, b: seq<T>, keep: T -> bool)
    ensures Filter(a + b, keep) == Filter(a, keep) + Filter(b, keep)
  {
    if a == [] {
      assert a + b == b;
    } else {
      assert (a + b)[0] == a[0];
      assert (a + b)[1..] == a[1..] + b;
      FilterAppend(a[1..], b, keep);
      var head := if keep(a[0]) then [a[0]] else [];
      assert Filter(a + b, keep) == head + Filter(a[1..] + b, keep);
      assert Filter(a, keep) == head + Filter(a[1..], keep);
    }
  }

  ghost function KeptIndices<T>(s: seq<T>, keep: T -> bool): set<int> {
    set i | 0 <= i < |s| && keep(s[i])
  }

  lemma FilterSingle<T>(x: T, keep: T -> bool)
    ensures Filter([x], keep) == if keep(x) then [x] else []
  {
    assert [x][1..] == [];
  }

  /** The indices kept in a non-empty table: those of all rows but the last,
      and the last one when it is kept. */
  lemma KeptIndicesSnoc<T>(s: seq<T>, keep: T -> bool)
    requires s != []
    ensures var n := |s| - 1;
      KeptIndices(s, keep) == KeptIndices(s[..n], keep) + (if keep(s[n]) then {n} else {})
  {
    var n := |s| - 1;
    forall i
      ensures i in KeptIndices(s, keep) <==> i in KeptIndices(s[..n], keep) + (if keep(s[n]) then {n} else {})
    {
      if 0 <= i < n {
        assert s[i] == s[..n][i];
      }
    }
  }

  /** A filter returns as many rows as there are rows satisfying it. */
  lemma {:induction false} FilterCount<T>(s: seq<T>, keep: T -> bool)
    ensures |Filter(s, keep)| == |KeptIndices(s, keep)|
  {
    if s != [] {
      var n := |s| - 1;
      var front := s[..n];
      assert s == front + [s[n]];
      FilterAppend(front, [s[n]], keep);
      FilterSingle(s[n], keep);
      FilterCount(front, keep);
      KeptIndicesSnoc(s, keep);
      var before := KeptIndices(front, keep);
      assert n !in before;
      var last: set<int> := if keep(s[n]) then {n} else {};
      assert |before + last| == |before| + |last|;
    }
  }

  /** `.limit(n)` */
  function Take<T>(s: seq<T>, n: nat): (r: seq<T>)
    ensures |r| == if |s| < n then |s| else n
    ensures r == s[..|r|]
  {
    if |s| < n then s else s[..n]
  }

  /** `result[0]` of a filter: the first row satisfying `keep`, if any. */
  function First<T>(s: seq<T>, keep: T -> bool): (r: Option<T>)
    ensures r.None? <==> forall i :: 0 <= i < |s| ==> !keep(s[i])
    ensures r.Some? ==> exists i :: (0 <= i < |s| && s[i] == r.value && keep(s[i])
                                     && forall j :: 0 <= j < i ==> !keep(s[j]))
  {
    if s == [] then None
    else if keep(s[0]) then Some(s[0])
    else
      var r := First(s[1..], keep);
      assert r.Some? ==> exists i :: (1 <= i < |s| && s[i] == r.value && keep(s[i])
                                      && forall j :: 1 <= j < i ==> !keep(s[j])) by {
        if r.Some? {
          var i :| 0 <= i < |s| - 1 && s[1..][i] == r.value && keep(s[1..][i])
            && forall j :: 0 <= j < i ==> !keep(s[1..][j]);
          assert forall j :: 1 <= j < i + 1 ==> s[j] == s[1..][j - 1];
        }
      }
      r
  }

  /** Rewriting every row by `f` in a way `keep` cannot see rewrites the
      first row kept in the same way. */
  lemma {:induction false} FirstOfRewritten<T>(a: seq<T>, b: seq<T>, keep: T -> bool, f: T -> T)
    requires |a| == |b| && forall j :: 0 <= j < |a| ==> b[j] == f(a[j])
    requires forall x :: keep(f(x)) == keep(x)
    ensures First(b, keep) == match First(a, keep) case None => None case Some(x) => Some(f(x))
  {
    if a != [] {
      assert b[0] == f(a[0]);
      if !keep(a[0]) {
        assert forall j :: 0 <= j < |a| - 1 ==> b[1..][j] == f(a[1..][j]) by {
          forall j | 0 <= j < |a| - 1
            ensures b[1..][j] == f(a[1..][j])
          {
            assert b[1..][j] == b[j + 1] && a[1..][j] == a[j + 1];
          }
        }
        FirstOfRewritten(a[1..], b[1..], keep, f);
      }
    }
  }

  // ---------------------------------------------------------------------
  // Workers

  /** The filter of `getWorkerCount` and `findMatchingWorkers`. */
  predicate Eligible(w: Worker, skill: string, location: string) {
    w.skill == skill && w.location == location && w.isAvailable
  }

  function EligibleWorkers(ws: seq<Worker>, skill: string, location: string): seq<Worker> {
    Filter(ws, (w: Worker) => Eligible(w, skill, location))
  }

  /** `getWorkerCount`: the length of the eligible-workers query. */
  function WorkerCount(ws: seq<Worker>, skill: string, location: string): nat {
    |EligibleWorkers(ws, skill, location)|
  }

  /** `findMatchingWorkers` */
  function MatchingWorkers(ws: seq<Worker>, skill: string, location: string, limit: nat): seq<Worker> {
    Take(EligibleWorkers(ws, skill, location), limit)
  }

  /** The count is the number of rows with exactly that skill and location that are available. */
  lemma WorkerCountIsNumberEligible(ws: seq<Worker>, skill: string, location: string)
    ensures WorkerCount(ws, skill, location)
         == |set i | 0 <= i < |ws| && ws[i].skill == skill && ws[i].location == location && ws[i].isAvailable|
  {
    var keep := (w: Worker) => Eligible(w, skill, location);
    FilterCount(ws, keep);
    assert KeptIndices(ws, keep)
        == set i | 0 <= i < |ws| && ws[i].skill == skill && ws[i].location == location && ws[i].isAvailable;
  }

  /** Adding a worker changes a count only when it has that skill, that
      location and is available. */
  lemma WorkerCountAfterAdding(ws: seq<Worker>, w: Worker, skill: string, location: string)
    ensures WorkerCount(ws + [w], skill, location)
         == WorkerCount(ws, skill, location) + (if Eligible(w, skill, location) then 1 else 0)
  {
    FilterAppend(ws, [w], (x: Worker) => Eligible(x, skill, location));
    assert [w][1..] == [];
  }

  /** `findMatchingWorkers` returns eligible rows only, in table order, as many
      as the count allows up to the limit. */
  lemma MatchingWorkersSpec(ws: seq<Worker>, skill: string, location: string, limit: nat)
    ensures var r := MatchingWorkers(ws, skill, location, limit);
      && |r| == (if WorkerCount(ws, skill, location) < limit then WorkerCount(ws, skill, location) else limit)
      && (forall w :: w in r ==> w in ws && Eligible(w, skill, location))
      && r == EligibleWorkers(ws, skill, location)[..|r|]
  {
  }

  function WorkerById(ws: seq<Worker>, id: int): Option<Worker> {
    First(ws, (w: Worker) => w.id == id)
  }

  /** Under the primary key, the lookup of a worker's id finds that worker. */
  lemma WorkerByIdOfMember(ws: seq<Worker>, w: Worker)
    requires UniqueWorkerIds(ws) && w in ws
    ensures WorkerById(ws, w.id) == Some(w)
  {
    var p :| 0 <= p < |ws| && ws[p] == w;
    var found := WorkerById(ws, w.id);
    var i :| 0 <= i < |ws| && ws[i] == found.value && ws[i].id == w.id && forall j :: 0 <= j < i ==> ws[j].id != w.id;
    assert forall q :: 0 <= q < |ws| && ws[q].id == w.id ==> q == p;
  }

  function WorkerByPhone(ws: seq<Worker>, phone: string): Option<Worker> {
    First(ws, (w: Worker) => w.phone == phone)
  }

  /** The database's messages for a violated unique constraint and for an
      integer column given a value out of range. */
  const DUPLICATE_PHONE := "duplicate key value violates unique constraint \"workers_phone_unique\""
  const DUPLICATE_SESSION := "duplicate key value violates unique constraint \"ussd_sessions_session_id_unique\""
  const OUT_OF_RANGE := "value is out of range for type integer"

  /** `createWorker`: the unique constraint on `phone` rejects a second row
      with the same phone; otherwise one row is appended with a fresh id. */
  function AddWorker(db: Db, w: NewWorker, now: Date): (out: (Result<Worker>, Db))
    ensures out.0.Err? <==> exists i :: 0 <= i < |db.workers| && db.workers[i].phone == w.phone
    ensures out.0.Err? ==> out.1 == db
    ensures out.0.Ok? ==> var row := out.0.value;
      && row == WorkerRow(db.nextWorkerId, w, now)
      && out.1 == db.(workers := db.workers + [row], nextWorkerId := db.nextWorkerId + 1)
  {
    if WorkerByPhone(db.workers, w.phone).Some? then
      (Err(DUPLICATE_PHONE), db)
    else
      var row := WorkerRow(db.nextWorkerId, w, now);
      (Ok(row), db.(workers := db.workers + [row], nextWorkerId := db.nextWorkerId + 1))
  }

  function WorkerNotFound(id: int): string {
    "Worker with ID " + JsText.IntToString(id) + " not found"
  }

  /** `UPDATE workers SET skill WHERE id`: every row with that id gets the new
      skill; an update that touches no row throws. */
  function SkillUpdated(db: Db, id: int, skill: string): (out: (Result<Worker>, Db))
    ensures out.0.Err? <==> forall i :: 0 <= i < |db.workers| ==> db.workers[i].id != id
    ensures out.0.Err? ==> out.1 == db
    ensures out.0.Ok? ==> out.0.value.id == id && out.0.value.skill == skill && out.0.value in out.1.workers
    ensures out.1 == db.(workers := out.1.workers) && |out.1.workers| == |db.workers|
    ensures out.0.Ok? ==> forall i :: 0 <= i < |db.workers| ==>
      out.1.workers[i] == if db.workers[i].id == id then db.workers[i].(skill := skill) else db.workers[i]
  {
    match WorkerById(db.workers, id)
    case None => (Err(WorkerNotFound(id)), db)
    case Some(w) =>
      var ws := seq(|db.workers|, i requires 0 <= i < |db.workers| =>
        if db.workers[i].id == id then db.workers[i].(skill := skill) else db.workers[i]);
      assert w.(skill := skill) in ws by {
        var i :| 0 <= i < |db.workers| && db.workers[i] == w && w.id == id;
        assert ws[i] == w.(skill := skill);
      }
      (Ok(w.(skill := skill)), db.(workers := ws))
  }

  /** `UPDATE workers SET location WHERE id`, as for the skill. */
  function LocationUpdated(db: Db, id: int, location: string): (out: (Result<Worker>, Db))
    ensures out.0.Err? <==> forall i :: 0 <= i < |db.workers| ==> db.workers[i].id != id
    ensures out.0.Err? ==> out.1 == db
    ensures out.0.Ok? ==> out.0.value.id == id && out.0.value.location == location && out.0.value in out.1.workers
    ensures out.1 == db.(workers := out.1.workers) && |out.1.workers| == |db.workers|
    ensures out.0.Ok? ==> forall i :: 0 <= i < |db.workers| ==>
      out.1.workers[i] == if db.workers[i].id == id then db.workers[i].(location := location) else db.workers[i]
  {
    match WorkerById(db.workers, id)
    case None => (Err(WorkerNotFound(id)), db)
    case Some(w) =>
      var ws := seq(|db.workers|, i requires 0 <= i < |db.workers| =>
        if db.workers[i].id == id then db.workers[i].(location := location) else db.workers[i]);
      assert w.(location := location) in ws by {
        var i :| 0 <= i < |db.workers| && db.workers[i] == w && w.id == id;
        assert ws[i] == w.(location := location);
      }
      (Ok(w.(location := location)), db.(workers := ws))
  }

  // ---------------------------------------------------------------------
  // Jobs

  function JobById(js: seq<Job>, id: int): Option<Job> {
    First(js, (j: Job) => j.id == id)
  }

  function ActiveJobs(js: seq<Job>): (r: seq<Job>)
    ensures forall j :: j in r <==> j in js && j.isActive
  {
    Filter(js, (j: Job) => j.isActive)
  }

  /** `createJob`: an `integer` column rejects a daily rate outside 32 bits. */
  function AddJob(db: Db, j: NewJob, now: Date): (out: (Result<Job>, Db))
    ensures out.0.Err? <==> !FitsInt4(j.dailyRate)
    ensures out.0.Err? ==> out.1 == db
    ensures out.0.Ok? ==> var row := out.0.value;
      && row == JobRow(db.nextJobId, j, now)
      && out.1 == db.(jobs := db.jobs + [row], nextJobId := db.nextJobId + 1)
  {
    if !FitsInt4(j.dailyRate) then (Err(OUT_OF_RANGE), db)
    else
      var row := JobRow(db.nextJobId, j, now);
      (Ok(row), db.(jobs := db.jobs + [row], nextJobId := db.nextJobId + 1))
  }

  // ---------------------------------------------------------------------
  // Matches

  /** `createMatch`: `jobId` and `workerId` are plain integer columns, so
      the insert itself checks nothing. */
  function AddMatch(db: Db, m: NewMatch): (out: (Match, Db))
    ensures out.0 == MatchRow(db.nextMatchId, m)
    ensures out.1 == db.(matches := db.matches + [out.0], nextMatchId := db.nextMatchId + 1)
  {
    var row := MatchRow(db.nextMatchId, m);
    (row, db.(matches := db.matches + [row], nextMatchId := db.nextMatchId + 1))
  }

  function MatchesForJob(ms: seq<Match>, jobId: int): (r: seq<Match>)
    ensures forall m :: m in r <==> m in ms && m.jobId == jobId
  {
    Filter(ms, (m: Match) => m.jobId == jobId)
  }

  function MatchesForWorker(ms: seq<Match>, workerId: int): (r: seq<Match>)
    ensures forall m :: m in r <==> m in ms && m.workerId == workerId
  {
    Filter(ms, (m: Match) => m.workerId == workerId)
  }

  function MatchById(ms: seq<Match>, id: int): Option<Match> {
    First(ms, (m: Match) => m.id == id)
  }

  datatype Details = Details(pairing: Match, worker: Worker, job: Job)

  /** `getMatchWithDetails`: the match joined with its worker and its job;
      nothing when any of the three is missing. */
  function MatchDetails(db: Db, id: int): (r: Option<Details>)
    ensures r.None? <==> (|| MatchById(db.matches, id).None?
                          || WorkerById(db.workers, MatchById(db.matches, id).value.workerId).None?
                          || JobById(db.jobs, MatchById(db.matches, id).value.jobId).None?)
    ensures r.Some? ==> && r.value.pairing.id == id && r.value.pairing in db.matches
                        && r.value.worker.id == r.value.pairing.workerId && r.value.worker in db.workers
                        && r.value.job.id == r.value.pairing.jobId && r.value.job in db.jobs
  {
    match MatchById(db.matches, id)
    case None => None
    case Some(m) =>
      match (WorkerById(db.workers, m.workerId), JobById(db.jobs, m.jobId))
      case (Some(w), Some(j)) => Some(Details(m, w, j))
      case _ => None
  }

  /** `updateMatchNotification`: sets the two notification columns of every
      row with that id and nothing else; no such row throws. */
  function NotificationUpdated(db: Db, id: int, sent: bool, time: Date): (out: (Result<Match>, Db))
    ensures out.0.Err? <==> forall i :: 0 <= i < |db.matches| ==> db.matches[i].id != id
    ensures out.0.Err? ==> out.1 == db
    ensures out.0.Ok? ==> out.0.value.id == id && out.0.value.notificationSent == sent
                          && out.0.value.notificationTime == Some(time)
    ensures out.1 == db.(matches := out.1.matches) && |out.1.matches| == |db.matches|
    ensures out.0.Ok? ==> forall i :: 0 <= i < |db.matches| ==>
      out.1.matches[i] == if db.matches[i].id == id
                          then db.matches[i].(notificationSent := sent, notificationTime := Some(time))
                          else db.matches[i]
  {
    match MatchById(db.matches, id)
    case None => (Err("Match with ID " + JsText.IntToString(id) + " not found"), db)
    case Some(m) =>
      var ms := seq(|db.matches|, i requires 0 <= i < |db.matches| =>
        if db.matches[i].id == id
        then db.matches[i].(notificationSent := sent, notificationTime := Some(time))
        else db.matches[i]);
      (Ok(m.(notificationSent := sent, notificationTime := Some(time))), db.(matches := ms))
  }

  // ---------------------------------------------------------------------
  // Dialog sessions

  function SessionById(ss: seq<UssdSession>, sessionId: string): Option<UssdSession> {
    First(ss, (s: UssdSession) => s.sessionId == sessionId)
  }

  /** `createUssdSession`: the unique constraint on `session_id` rejects a
      second row with the same session id. */
  function AddSession(db: Db, sessionId: string, phone: string, step: string, data: SessionData, now: Date)
    : (out: (Result<UssdSession>, Db))
    ensures out.0.Err? <==> exists i :: 0 <= i < |db.sessions| && db.sessions[i].sessionId == sessionId
    ensures out.0.Err? ==> out.1 == db
    ensures out.0.Ok? ==> var row := out.0.value;
      && row == UssdSession(db.nextSessionId, sessionId, phone, step, data, now)
      && out.1 == db.(sessions := db.sessions + [row], nextSessionId := db.nextSessionId + 1)
  {
    if SessionById(db.sessions, sessionId).Some? then
      (Err(DUPLICATE_SESSION), db)
    else
      var row := UssdSession(db.nextSessionId, sessionId, phone, step, data, now);
      (Ok(row), db.(sessions := db.sessions + [row], nextSessionId := db.nextSessionId + 1))
  }

  /** A session appended under a fresh id is the one found for that id. */
  lemma FoundAfterAppend(ss: seq<UssdSession>, row: UssdSession, sid: string)
    requires SessionById(ss, sid).None? && row.sessionId == sid
    ensures SessionById(ss + [row], sid) == Some(row)
  {
    var all := ss + [row];
    assert all[|ss|] == row;
    assert forall i :: 0 <= i < |ss| ==> all[i] == ss[i];
  }

  /** `updateUssdSession`: throws when no session has that id; otherwise sets
      `step` and `data` of that session and changes nothing else. */
  function SessionUpdated(db: Db, sessionId: string, step: string, data: SessionData)
    : (out: (Result<UssdSession>, Db))
    ensures out.0.Err? <==> forall i :: 0 <= i < |db.sessions| ==> db.sessions[i].sessionId != sessionId
    ensures out.0.Err? ==> out.1 == db
    ensures out.0.Ok? ==> out.0.value.sessionId == sessionId && out.0.value.step == step && out.0.value.data == data
    ensures out.1 == db.(sessions := out.1.sessions) && |out.1.sessions| == |db.sessions|
    ensures out.0.Ok? ==> forall i :: 0 <= i < |db.sessions| ==>
      out.1.sessions[i] == if db.sessions[i].sessionId == sessionId
                           then db.sessions[i].(step := step, data := data)
                           else db.sessions[i]
  {
    match SessionById(db.sessions, sessionId)
    case None => (Err("Session with ID " + sessionId + " not found"), db)
    case Some(s) =>
      var ss := seq(|db.sessions|, i requires 0 <= i < |db.sessions| =>
        if db.sessions[i].sessionId == sessionId then db.sessions[i].(step := step, data := data)
        else db.sessions[i]);
      (Ok(s.(step := step, data := data)), db.(sessions := ss))
  }

  /** After an update the session is found with its new step and data. */
  lemma FoundAfterSessionUpdate(db: Db, sid: string, step: string, data: SessionData)
    requires SessionById(db.sessions, sid).Some?
    ensures SessionById(SessionUpdated(db, sid, step, data).1.sessions, sid)
         == Some(SessionById(db.sessions, sid).value.(step := step, data := data))
  {
    var f := (x: UssdSession) => if x.sessionId == sid then x.(step := step, data := data) else x;
    FirstOfRewritten(db.sessions, SessionUpdated(db, sid, step, data).1.sessions,
                     (s: UssdSession) => s.sessionId == sid, f);
  }

  // ---------------------------------------------------------------------
  // Seed data

  const SeedWorkers: seq<NewWorker> := [
    NewWorker("David Odhiambo", "0711222333", "Mason", "Pipeline", Some(true)),
    NewWorker("John Mwangi", "0722333444", "Carpenter", "Pipeline", Some(true)),
    NewWorker("James Kimani", "0733444555", "Electrician", "Gikambura", Some(true))
  ]

  const SeedJob := NewJob("0799888777", "Electrician", "Gikambura", 1500, "1 day",
                          Some("Need wiring installation for a new kitchen."), Some(true))

  /** `seedData`: on an empty worker table, three workers and one job, each
      insert in turn (a failing insert stops the sequence); otherwise nothing. */
  function Seeded(db: Db, now: Date): Db {
    if |db.workers| != 0 then db
    else
      var (r1, db1) := AddWorker(db, SeedWorkers[0], now);
      if r1.Err? then db1 else
      var (r2, db2) := AddWorker(db1, SeedWorkers[1], now);
      if r2.Err? then db2 else
      var (r3, db3) := AddWorker(db2, SeedWorkers[2], now);
      if r3.Err? then db3 else
      AddJob(db3, SeedJob, now).1
  }

  /** Seeding an empty worker table adds exactly the three sample workers with
      consecutive ids and the one sample job; seeding a non-empty one is a no-op. */
  lemma SeedSpec(db: Db, now: Date)
    ensures |db.workers| != 0 ==> Seeded(db, now) == db
    ensures |db.workers| == 0 ==> var id := db.nextWorkerId;
      && Seeded(db, now).workers == [WorkerRow(id, SeedWorkers[0], now),
                                     WorkerRow(id + 1, SeedWorkers[1], now),
                                     WorkerRow(id + 2, SeedWorkers[2], now)]
      && Seeded(db, now).jobs == db.jobs + [JobRow(db.nextJobId, SeedJob, now)]
      && Seeded(db, now).matches == db.matches && Seeded(db, now).sessions == db.sessions
  {
    if |db.workers| == 0 {
      var w0, w1, w2 := SeedWorkers[0], SeedWorkers[1], SeedWorkers[2];
      var id := db.nextWorkerId;
      assert w0.phone != w1.phone && w0.phone != w2.phone && w1.phone != w2.phone;
      var db1 := AddWorker(db, w0, now).1;
      assert db1 == db.(workers := [WorkerRow(id, w0, now)], nextWorkerId := id + 1);
      var db2 := AddWorker(db1, w1, now).1;
      assert db2 == db.(workers := db1.workers + [WorkerRow(id + 1, w1, now)], nextWorkerId := id + 2);
      var db3 := AddWorker(db2, w2, now).1;
      assert db3 == db.(workers := db2.workers + [WorkerRow(id + 2, w2, now)], nextWorkerId := id + 3);
      assert FitsInt4(SeedJob.dailyRate);
      assert Seeded(db, now) == AddJob(db3, SeedJob, now).1;
    }
  }

  // ---------------------------------------------------------------------
  // Invariants the constraints and serial columns maintain

  predicate UniquePhones(ws: seq<Worker>) {
    forall i, j :: 0 <= i < j < |ws| ==> ws[i].phone != ws[j].phone
  }

  /** The primary key of `workers`. */
  predicate UniqueWorkerIds(ws: seq<Worker>) {
    forall i, j :: 0 <= i < j < |ws| ==> ws[i].id != ws[j].id
  }

  predicate UniqueSessionIds(ss: seq<UssdSession>) {
    forall i, j :: 0 <= i < j < |ss| ==> ss[i].sessionId != ss[j].sessionId
  }

  /** Every id handed out so far is below the next serial value. */
  predicate IdsBelowSerials(db: Db) {
    && (forall i :: 0 <= i < |db.workers| ==> db.workers[i].id < db.nextWorkerId)
    && (forall i :: 0 <= i < |db.jobs| ==> db.jobs[i].id < db.nextJobId)
    && (forall i :: 0 <= i < |db.matches| ==> db.matches[i].id < db.nextMatchId)
    && (forall i :: 0 <= i < |db.sessions| ==> db.sessions[i].id < db.nextSessionId)
  }

  predicate Valid(db: Db) {
    UniquePhones(db.workers) && UniqueWorkerIds(db.workers) && UniqueSessionIds(db.sessions) && IdsBelowSerials(db)
  }

  lemma EmptyDbValid()
    ensures Valid(EmptyDb)
  {
  }

  // Each write keeps phones, worker ids and session ids unique and ids below the serials.

  lemma AddWorkerPreservesValid(db: Db, w: NewWorker, now: Date)
    requires Valid(db)
    ensures Valid(AddWorker(db, w, now).1)
  {
    var out := AddWorker(db, w, now);
    if out.0.Ok? {
      var ws := out.1.workers;
      assert forall i :: 0 <= i < |db.workers| ==> ws[i] == db.workers[i];
      assert ws[|db.workers|].phone == w.phone && ws[|db.workers|].id == db.nextWorkerId;
    }
  }

  lemma AddJobPreservesValid(db: Db, j: NewJob, now: Date)
    requires Valid(db)
    ensures Valid(AddJob(db, j, now).1)
  {
  }

  lemma AddMatchPreservesValid(db: Db, m: NewMatch)
    requires Valid(db)
    ensures Valid(AddMatch(db, m).1)
  {
  }

  lemma AddSessionPreservesValid(db: Db, sessionId: string, phone: string, step: string, data: SessionData, now: Date)
    requires Valid(db)
    ensures Valid(AddSession(db, sessionId, phone, step, data, now).1)
  {
    var out := AddSession(db, sessionId, phone, step, data, now);
    if out.0.Ok? {
      var ss := out.1.sessions;
      assert forall i :: 0 <= i < |db.sessions| ==> ss[i] == db.sessions[i];
      assert ss[|db.sessions|].sessionId == sessionId;
    }
  }

  /** Rewriting worker rows without touching their phones or ids keeps the invariant. */
  lemma SameKeysPreservesValid(a: Db, b: Db)
    requires Valid(a)
    requires b == a.(workers := b.workers) && |b.workers| == |a.workers|
    requires forall i :: 0 <= i < |a.workers| ==> b.workers[i].phone == a.workers[i].phone && b.workers[i].id == a.workers[i].id
    ensures Valid(b)
  {
    assert UniquePhones(b.workers) by {
      forall i, j | 0 <= i < j < |b.workers|
        ensures b.workers[i].phone != b.workers[j].phone
      {
        assert a.workers[i].phone != a.workers[j].phone;
      }
    }
    assert UniqueWorkerIds(b.workers) by {
      forall i, j | 0 <= i < j < |b.workers|
        ensures b.workers[i].id != b.workers[j].id
      {
        assert a.workers[i].id != a.workers[j].id;
      }
    }
    assert forall i :: 0 <= i < |b.workers| ==> b.workers[i].id < b.nextWorkerId by {
      forall i | 0 <= i < |b.workers|
        ensures b.workers[i].id < b.nextWorkerId
      {
        assert a.workers[i].id < a.nextWorkerId;
      }
    }
  }

  lemma SkillUpdatedPreservesValid(db: Db, id: int, skill: string)
    requires Valid(db)
    ensures Valid(SkillUpdated(db, id, skill).1)
  {
    var out := SkillUpdated(db, id, skill);
    assert forall i :: 0 <= i < |db.workers| ==>
      out.1.workers[i].phone == db.workers[i].phone && out.1.workers[i].id == db.workers[i].id;
    SameKeysPreservesValid(db, out.1);
  }

  lemma LocationUpdatedPreservesValid(db: Db, id: int, location: string)
    requires Valid(db)
    ensures Valid(LocationUpdated(db, id, location).1)
  {
    var out := LocationUpdated(db, id, location);
    assert forall i :: 0 <= i < |db.workers| ==>
      out.1.workers[i].phone == db.workers[i].phone && out.1.workers[i].id == db.workers[i].id;
    SameKeysPreservesValid(db, out.1);
  }

  lemma NotificationUpdatedPreservesValid(db: Db, id: int, sent: bool, time: Date)
    requires Valid(db)
    ensures Valid(NotificationUpdated(db, id, sent, time).1)
  {
    var out := NotificationUpdated(db, id, sent, time);
    assert forall i :: 0 <= i < |db.matches| ==> out.1.matches[i].id == db.matches[i].id;
  }

  lemma SessionUpdatedPreservesValid(db: Db, sessionId: string, step: string, data: SessionData)
    requires Valid(db)
    ensures Valid(SessionUpdated(db, sessionId, step, data).1)
  {
    var out := SessionUpdated(db, sessionId, step, data);
    assert forall i :: 0 <= i < |db.sessions| ==>
      out.1.sessions[i].sessionId == db.sessions[i].sessionId && out.1.sessions[i].id == db.sessions[i].id;
  }

  lemma SeededPreservesValid(db: Db, now: Date)
    requires Valid(db)
    ensures Valid(Seeded(db, now))
  {
    if |db.workers| == 0 {
      var (r1, db1) := AddWorker(db, SeedWorkers[0], now);
      AddWorkerPreservesValid(db, SeedWorkers[0], now);
      var (r2, db2) := AddWorker(db1, SeedWorkers[1], now);
      AddWorkerPreservesValid(db1, SeedWorkers[1], now);
      var (r3, db3) := AddWorker(db2, SeedWorkers[2], now);
      AddWorkerPreservesValid(db2, SeedWorkers[2], now);
      AddJobPreservesValid(db3, SeedJob, now);
    }
  }

  // ---------------------------------------------------------------------
  // The mutable store

  class Store {
    var workers: seq<Worker>
    var jobs: seq<Job>
    var matches: seq<Match>
    var sessions: seq<UssdSession>
    var nextWorkerId: int
    var nextJobId: int
    var nextMatchId: int
    var nextSessionId: int

    /** The tables as a value. */
    function State(): Db
      reads this
    {
      Db(workers, jobs, matches, sessions, nextWorkerId, nextJobId, nextMatchId, nextSessionId)
    }

    constructor ()
      ensures State() == EmptyDb
    {
      workers, jobs, matches, sessions := [], [], [], [];
      nextWorkerId, nextJobId, nextMatchId, nextSessionId := 1, 1, 1, 1;
    }

    method GetWorker(id: int) returns (r: Option<Worker>)
      ensures r == WorkerById(workers, id)
      ensures r.Some? ==> r.value in workers && r.value.id == id
      ensures r.None? <==> forall i :: 0 <= i < |workers| ==> workers[i].id != id
    {
      r := WorkerById(workers, id);
    }

    /** The first worker with that phone, if any. */
    method GetWorkerByPhone(phone: string) returns (r: Option<Worker>)
      ensures r == WorkerByPhone(workers, phone)
      ensures r.None? <==> forall i :: 0 <= i < |workers| ==> workers[i].phone != phone
      ensures r.Some? ==> exists i :: (0 <= i < |workers| && workers[i] == r.value && r.value.phone == phone
                                       && forall j :: 0 <= j < i ==> workers[j].phone != phone)
    {
      r := WorkerByPhone(workers, phone);
    }

    method CreateWorker(w: NewWorker, now: Date) returns (r: Result<Worker>)
      modifies this
      ensures (r, State()) == AddWorker(old(State()), w, now)
    {
      var existing := GetWorkerByPhone(w.phone);
      if existing.Some? {
        r := Err(DUPLICATE_PHONE);
        return;
      }
      var row := WorkerRow(nextWorkerId, w, now);
      workers := workers + [row];
      nextWorkerId := nextWorkerId + 1;
      r := Ok(row);
    }

    method GetWorkerCount(skill: string, location: string) returns (count: nat)
      ensures count == WorkerCount(workers, skill, location)
      ensures count <= |workers|
    {
      var result := EligibleWorkers(workers, skill, location);
      count := |result|;
    }

    method FindMatchingWorkers(skill: string, location: string, limit: nat) returns (r: seq<Worker>)
      ensures r == MatchingWorkers(workers, skill, location, limit)
      ensures |r| == if WorkerCount(workers, skill, location) < limit then WorkerCount(workers, skill, location) else limit
      ensures forall w :: w in r ==> w in workers && Eligible(w, skill, location)
    {
      r := Take(EligibleWorkers(workers, skill, location), limit);
    }

    method UpdateWorkerSkill(id: int, skill: string) returns (r: Result<Worker>)
      modifies this
      ensures (r, State()) == SkillUpdated(old(State()), id, skill)
    {
      var found := WorkerById(workers, id);
      if found.None? {
        r := Err(WorkerNotFound(id));
        return;
      }
      ghost var spec := SkillUpdated(State(), id, skill);
      var ws := workers;
      workers := seq(|ws|, i requires 0 <= i < |ws| =>
        if ws[i].id == id then ws[i].(skill := skill) else ws[i]);
      assert workers == spec.1.workers;
      r := Ok(found.value.(skill := skill));
    }

    method UpdateWorkerLocation(id: int, location: string) returns (r: Result<Worker>)
      modifies this
      ensures (r, State()) == LocationUpdated(old(State()), id, location)
    {
      var found := WorkerById(workers, id);
      if found.None? {
        r := Err(WorkerNotFound(id));
        return;
      }
      ghost var spec := LocationUpdated(State(), id, location);
      var ws := workers;
      workers := seq(|ws|, i requires 0 <= i < |ws| =>
        if ws[i].id == id then ws[i].(location := location) else ws[i]);
      assert workers == spec.1.workers;
      r := Ok(found.value.(location := location));
    }

    method GetJob(id: int) returns (r: Option<Job>)
      ensures r == JobById(jobs, id)
      ensures r.Some? ==> r.value in jobs && r.value.id == id
      ensures r.None? <==> forall i :: 0 <= i < |jobs| ==> jobs[i].id != id
    {
      r := JobById(jobs, id);
    }

    method CreateJob(j: NewJob, now: Date) returns (r: Result<Job>)
      modifies this
      ensures (r, State()) == AddJob(old(State()), j, now)
    {
      if !FitsInt4(j.dailyRate) {
        r := Err(OUT_OF_RANGE);
        return;
      }
      var row := JobRow(nextJobId, j, now);
      jobs := jobs + [row];
      nextJobId := nextJobId + 1;
      r := Ok(row);
    }

    method GetActiveJobs() returns (r: seq<Job>)
      ensures r == ActiveJobs(jobs)
      ensures forall j :: j in r <==> j in jobs && j.isActive
    {
      r := ActiveJobs(jobs);
    }

    method CreateMatch(m: NewMatch) returns (r: Match)
      modifies this
      ensures (r, State()) == AddMatch(old(State()), m)
    {
      r := MatchRow(nextMatchId, m);
      matches := matches + [r];
      nextMatchId := nextMatchId + 1;
    }

    method GetMatchesByJobId(jobId: int) returns (r: seq<Match>)
      ensures r == MatchesForJob(matches, jobId)
      ensures forall m :: m in r <==> m in matches && m.jobId == jobId
    {
      r := MatchesForJob(matches, jobId);
    }

    method GetMatchesByWorkerId(workerId: int) returns (r: seq<Match>)
      ensures r == MatchesForWorker(matches, workerId)
      ensures forall m :: m in r <==> m in matches && m.workerId == workerId
    {
      r := MatchesForWorker(matches, workerId);
    }

    method GetMatchWithDetails(id: int) returns (r: Option<Details>)
      ensures r == MatchDetails(State(), id)
      ensures r.Some? ==> r.value.pairing in matches && r.value.worker in workers && r.value.job in jobs
    {
      var found := MatchById(matches, id);
      if found.None? {
        return None;
      }
      var m := found.value;
      var w := GetWorker(m.workerId);
      var j := GetJob(m.jobId);
      if w.None? || j.None? {
        return None;
      }
      r := Some(Details(m, w.value, j.value));
    }

    method UpdateMatchNotification(id: int, sent: bool, time: Date) returns (r: Result<Match>)
      modifies this
      ensures (r, State()) == NotificationUpdated(old(State()), id, sent, time)
    {
      var found := MatchById(matches, id);
      if found.None? {
        r := Err("Match with ID " + JsText.IntToString(id) + " not found");
        return;
      }
      ghost var spec := NotificationUpdated(State(), id, sent, time);
      var ms := matches;
      matches := seq(|ms|, i requires 0 <= i < |ms| =>
        if ms[i].id == id then ms[i].(notificationSent := sent, notificationTime := Some(time)) else ms[i]);
      assert matches == spec.1.matches;
      r := Ok(found.value.(notificationSent := sent, notificationTime := Some(time)));
    }

    method GetUssdSession(sessionId: string) returns (r: Option<UssdSession>)
      ensures r == SessionById(sessions, sessionId)
      ensures r.Some? ==> r.value in sessions && r.value.sessionId == sessionId
      ensures r.None? <==> forall i :: 0 <= i < |sessions| ==> sessions[i].sessionId != sessionId
    {
      r := SessionById(sessions, sessionId);
    }

    method CreateUssdSession(sessionId: string, phone: string, step: string, data: SessionData, now: Date)
      returns (r: Result<UssdSession>)
      modifies this
      ensures (r, State()) == AddSession(old(State()), sessionId, phone, step, data, now)
    {
      var existing := GetUssdSession(sessionId);
      if existing.Some? {
        r := Err(DUPLICATE_SESSION);
        return;
      }
      var row := UssdSession(nextSessionId, sessionId, phone, step, data, now);
      sessions := sessions + [row];
      nextSessionId := nextSessionId + 1;
      r := Ok(row);
    }

    method UpdateUssdSession(sessionId: string, step: string, data: SessionData) returns (r: Result<UssdSession>)
      modifies this
      ensures (r, State()) == SessionUpdated(old(State()), sessionId, step, data)
    {
      var session := GetUssdSession(sessionId);
      if session.None? {
        r := Err("Session with ID " + sessionId + " not found");
        return;
      }
      ghost var spec := SessionUpdated(State(), sessionId, step, data);
      var ss := sessions;
      sessions := seq(|ss|, i requires 0 <= i < |ss| =>
        if ss[i].sessionId == sessionId then ss[i].(step := step, data := data) else ss[i]);
      assert sessions == spec.1.sessions;
      r := Ok(session.value.(step := step, data := data));
    }

    /** Inserts the sample rows when there are no workers; stops at the first
        insert that throws. */
    method SeedData(now: Date)
      modifies this
      ensures State() == Seeded(old(State()), now)
    {
      if |workers| != 0 {
        return;
      }
      var r1 := CreateWorker(SeedWorkers[0], now);
      if r1.Err? { return; }
      var r2 := CreateWorker(SeedWorkers[1], now);
      if r2.Err? { return; }
      var r3 := CreateWorker(SeedWorkers[2], now);
      if r3.Err? { return; }
      var j := CreateJob(SeedJob, now);
    }
  }
}
