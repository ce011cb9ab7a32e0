/** The HTTP handlers of the API: each takes the request's parsed fields and
    answers with a status and a body. Request validation by the insert
    schemas is abstracted to its outcome: the payload as a record, or `None`
    when it does not parse.

    The pure functions give each handler's answer and effect; class `Api`
    runs them on the store, the dialog service and the notifier. */
module Routes {
  import opened Wrappers
  import opened Schema
  import opened Storage
  import opened JsText
  import opened Dialog
  import opened Notification
  import opened DialogLaws

  /** The JSON or text bodies the handlers send. */
  datatype Payload =
    | Message(message: string)
    | Failure(message: string, error: Option<string>)
    | CountOf(count: nat)
    | WorkerRecord(worker: Worker)
    | JobCreated(job: Job, matchedWorkers: nat)
    | Plain(text: string)

  datatype Response = Response(status: int, body: Payload)

  /** JavaScript truthiness of an optional string parameter. */
  predicate Truthy(p: Option<string>) {
    p.Some? && p.value != ""
  }

  /** `a || b` */
  function Or(a: Option<string>, b: Option<string>): Option<string> {
    if Truthy(a) then a else b
  }

  // ---------------------------------------------------------------------
  // GET /workers/count

  function CountWorkers(db: Db, skill: Option<string>, location: Option<string>): Response {
    if !Truthy(skill) || !Truthy(location) then Response(400, Message("Skill and location are required"))
    else Response(200, CountOf(WorkerCount(db.workers, skill.value, location.value)))
  }

  /** A missing or empty parameter is refused; otherwise the count is the
      number of available workers with exactly that skill and location. */
  lemma CountWorkersSpec(db: Db, skill: Option<string>, location: Option<string>)
    ensures CountWorkers(db, skill, location).status == 400 <==> !Truthy(skill) || !Truthy(location)
    ensures Truthy(skill) && Truthy(location) ==>
      var ws := db.workers;
      CountWorkers(db, skill, location)
        == Response(200, CountOf(|set i | 0 <= i < |ws| && ws[i].skill == skill.value
                                   && ws[i].location == location.value && ws[i].isAvailable|))
  {
    if Truthy(skill) && Truthy(location) {
      WorkerCountIsNumberEligible(db.workers, skill.value, location.value);
    }
  }

  // ---------------------------------------------------------------------
  // POST /workers/register

  function Register(db: Db, body: Option<NewWorker>, now: Date): (Response, Db) {
    match body
    case None => (Response(400, Message("Invalid worker data")), db)
    case Some(w) =>
      if WorkerByPhone(db.workers, w.phone).Some? then (Response(409, Message("Phone number already registered")), db)
      else
        var (c, db1) := AddWorker(db, w, now);
        if c.Err? then (Response(500, Message("Failed to register worker")), db1)
        else (Response(201, WorkerRecord(c.value)), db1)
  }

  /** An invalid payload is refused and a registered phone conflicts, both
      writing nothing; otherwise exactly one worker is added, with the
      schema's defaults, and the phone then finds it. */
  lemma RegisterSpec(db: Db, body: Option<NewWorker>, now: Date)
    ensures body.None? ==> Register(db, body, now) == (Response(400, Message("Invalid worker data")), db)
    ensures body.Some? ==>
      var w := body.value;
      var (r, db1) := Register(db, body, now);
      && (r.status == 409 <==> exists i :: 0 <= i < |db.workers| && db.workers[i].phone == w.phone)
      && (r.status == 409 ==> db1 == db)
      && (r.status != 409 ==>
            var row := WorkerRow(db.nextWorkerId, w, now);
            && r == Response(201, WorkerRecord(row))
            && db1.workers == db.workers + [row]
            && db1 == db.(workers := db1.workers, nextWorkerId := db.nextWorkerId + 1)
            && WorkerByPhone(db1.workers, w.phone) == Some(row))
  {
    if body.Some? {
      var w := body.value;
      if WorkerByPhone(db.workers, w.phone).None? {
        var row := WorkerRow(db.nextWorkerId, w, now);
        assert (db.workers + [row])[|db.workers|] == row;
      }
    }
  }

  // ---------------------------------------------------------------------
  // POST /jobs

  /** The match recorded for a job and a matched worker, before any SMS. */
  function MatchFor(jobId: int, w: Worker, now: Date): NewMatch {
    NewMatch(jobId, w.id, Some(false), Some(now), Some(false))
  }

  /** The rows `CreateMatches` appends, one per worker, in worker order. */
  function MatchRows(first: int, jobId: int, ws: seq<Worker>, now: Date): (rows: seq<Match>)
    ensures |rows| == |ws|
  {
    seq(|ws|, k requires 0 <= k < |ws| => MatchRow(first + k, MatchFor(jobId, ws[k], now)))
  }

  /** The database once the rows for `ws` are appended. */
  function Matched(db: Db, jobId: int, ws: seq<Worker>, now: Date): Db {
    db.(matches := db.matches + MatchRows(db.nextMatchId, jobId, ws, now),
        nextMatchId := db.nextMatchId + |ws|)
  }

  /** `n` consecutive ids from `first`. */
  function NewIds(first: int, n: nat): (ids: seq<int>)
    ensures |ids| == n
  {
    seq(n, k requires 0 <= k < n => first + k)
  }

  /** One match per worker, in worker order, as the handler's loop creates
      them: the rows are appended with consecutive fresh ids. */
  function CreateMatches(db: Db, jobId: int, ws: seq<Worker>, now: Date): (out: (Db, seq<int>))
    ensures out == (Matched(db, jobId, ws, now), NewIds(db.nextMatchId, |ws|))
    decreases |ws|
  {
    if ws == [] then
      assert db.matches + [] == db.matches;
      (db, [])
    else
      var front := ws[..|ws| - 1];
      var (db1, ids) := CreateMatches(db, jobId, front, now);
      var (m, db2) := AddMatch(db1, MatchFor(jobId, ws[|ws| - 1], now));
      assert MatchRows(db.nextMatchId, jobId, ws, now)
          == MatchRows(db.nextMatchId, jobId, front, now) + [m];
      AppendAssoc(db.matches, MatchRows(db.nextMatchId, jobId, front, now), [m]);
      assert NewIds(db.nextMatchId, |ws|) == ids + [m.id];
      (db2, ids + [m.id])
  }

  /** One match per worker, then the batch of notifications on their ids:
      the database after both and the messages sent. */
  function MatchAndText(db: Db, jobId: int, ws: seq<Worker>, gateway: Sms -> SendResult, now: Date): (Db, seq<Sms>) {
    var batch := SendAll(Matched(db, jobId, ws, now), NewIds(db.nextMatchId, |ws|), gateway, now);
    (batch.1, batch.2)
  }

  function PostJob(db: Db, body: Option<NewJob>, gateway: Sms -> SendResult, now: Date): (Response, Db, seq<Sms>) {
    match body
    case None => (Response(400, Message("Invalid job data")), db, [])
    case Some(j) =>
      var (c, db1) := AddJob(db, j, now);
      match c
      case Err(_) => (Response(500, Message("Failed to create job")), db1, [])
      case Ok(job) =>
        var ws := MatchingWorkers(db1.workers, job.skillRequired, job.location, 3);
        var (db3, sent) := if |ws| > 0 then MatchAndText(db1, job.id, ws, gateway, now) else (db1, []);
        (Response(201, JobCreated(job, |ws|)), db3, sent)
  }

  /** An invalid payload is refused, and a rate outside the column's range
      fails, both writing and sending nothing. */
  lemma PostJobRefuses(db: Db, body: Option<NewJob>, gateway: Sms -> SendResult, now: Date)
    requires body.None? || !FitsInt4(body.value.dailyRate)
    ensures var (r, db1, sent) := PostJob(db, body, gateway, now);
      && r.status == (if body.None? then 400 else 500)
      && db1 == db && sent == []
  {
  }

  /** The answer does not depend on what the gateway reports. */
  lemma PostJobIgnoresGateway(db: Db, body: Option<NewJob>, g1: Sms -> SendResult, g2: Sms -> SendResult, now: Date)
    ensures PostJob(db, body, g1, now).0 == PostJob(db, body, g2, now).0
  {
  }

  lemma FilterAll<T>(s: seq<T>, keep: T -> bool)
    requires forall i :: 0 <= i < |s| ==> keep(s[i])
    ensures Filter(s, keep) == s
    decreases |s|
  {
    if s != [] {
      FilterAll(s[1..], keep);
    }
  }

  /** A lookup by id finds the first row carrying it. */
  lemma MatchByIdAt(ms: seq<Match>, p: nat, id: int)
    requires p < |ms| && ms[p].id == id
    requires forall j :: 0 <= j < p ==> ms[j].id != id
    ensures MatchById(ms, id) == Some(ms[p])
  {
    var m := MatchById(ms, id);
    var i :| 0 <= i < |ms| && ms[i] == m.value && m.value.id == id && forall j :: 0 <= j < i ==> ms[j].id != id;
    assert i == p;
  }

  /** The ids handed out are above every existing id and
      increase along the new rows. */
  lemma CreatedMatchFresh(db: Db, jobId: int, ws: seq<Worker>, now: Date, k: nat)
    requires forall i :: 0 <= i < |db.matches| ==> db.matches[i].id < db.nextMatchId
    requires k < |ws|
    ensures var ms := db.matches + MatchRows(db.nextMatchId, jobId, ws, now);
      && ms[|db.matches| + k] == MatchRow(db.nextMatchId + k, MatchFor(jobId, ws[k], now))
      && forall j :: 0 <= j < |db.matches| + k ==> ms[j].id != db.nextMatchId + k
  {
    var ms := db.matches + MatchRows(db.nextMatchId, jobId, ws, now);
    var n := |db.matches|;
    forall j | 0 <= j < n + k
      ensures ms[j].id != db.nextMatchId + k
    {
      if j < n {
        assert ms[j] == db.matches[j];
      } else {
        assert ms[j] == MatchRow(db.nextMatchId + (j - n), MatchFor(jobId, ws[j - n], now));
      }
    }
  }

  /** The `k`-th new row is the match for the `k`-th worker, with the `k`-th new id. */
  lemma CreatedRowAt(db: Db, jobId: int, ws: seq<Worker>, now: Date, k: nat)
    requires k < |ws|
    ensures Matched(db, jobId, ws, now).matches[|db.matches| + k]
         == MatchRow(db.nextMatchId + k, MatchFor(jobId, ws[k], now))
  {
    var rows := MatchRows(db.nextMatchId, jobId, ws, now);
    assert (db.matches + rows)[|db.matches| + k] == rows[k];
  }

  /** A match whose worker and job are both present is linked. */
  lemma LinkedWhenPresent(db: Db, id: int, m: Match, w: Worker, job: Job)
    requires MatchById(db.matches, id) == Some(m)
    requires w in db.workers && m.workerId == w.id
    requires job in db.jobs && m.jobId == job.id
    ensures Linked(db, id).Some?
  {
    assert WorkerById(db.workers, m.workerId).Some?;
    assert JobById(db.jobs, m.jobId).Some?;
  }

  /** Each new match has its match, worker and job present: its id is new,
      so the lookup finds the new row. */
  lemma CreatedMatchLinked(db: Db, job: Job, ws: seq<Worker>, now: Date, id: int)
    requires forall i :: 0 <= i < |db.matches| ==> db.matches[i].id < db.nextMatchId
    requires job in db.jobs
    requires forall w :: w in ws ==> w in db.workers
    requires db.nextMatchId <= id < db.nextMatchId + |ws|
    ensures Linked(Matched(db, job.id, ws, now), id).Some?
  {
    var w := ws[id - db.nextMatchId];
    CreatedMatchFound(db, job.id, ws, now, id);
    assert w in ws;
    LinkedWhenPresent(Matched(db, job.id, ws, now), id, MatchRow(id, MatchFor(job.id, w, now)), w, job);
  }

  /** The lookup of a new id finds the row made for its worker. */
  lemma CreatedMatchFound(db: Db, jobId: int, ws: seq<Worker>, now: Date, id: int)
    requires forall i :: 0 <= i < |db.matches| ==> db.matches[i].id < db.nextMatchId
    requires db.nextMatchId <= id < db.nextMatchId + |ws|
    ensures MatchById(Matched(db, jobId, ws, now).matches, id)
         == Some(MatchRow(id, MatchFor(jobId, ws[id - db.nextMatchId], now)))
  {
    var k := id - db.nextMatchId;
    assert db.nextMatchId + k == id;
    var ms := Matched(db, jobId, ws, now).matches;
    assert ms == db.matches + MatchRows(db.nextMatchId, jobId, ws, now);
    CreatedMatchFresh(db, jobId, ws, now, k);
    MatchByIdAt(ms, |db.matches| + k, id);
  }

  /** `rows` are the matches created for the workers `ws`, in order, with
      consecutive ids from `first`, for this job and not yet answered. */
  predicate NewMatches(rows: seq<Match>, first: int, jobId: int, ws: seq<Worker>) {
    && |rows| == |ws|
    && forall k :: 0 <= k < |ws| ==>
         && rows[k].id == first + k
         && rows[k].jobId == jobId
         && rows[k].workerId == ws[k].id
         && !rows[k].workerResponded
  }

  /** Texting the new matches keeps the other tables and the rows that
      were there before. */
  lemma MatchAndTextKeepsEarlierRows(db: Db, jobId: int, ws: seq<Worker>, gateway: Sms -> SendResult, now: Date)
    requires forall i :: 0 <= i < |db.matches| ==> db.matches[i].id < db.nextMatchId
    ensures var db3 := MatchAndText(db, jobId, ws, gateway, now).0;
      && db3 == db.(matches := db3.matches, nextMatchId := db.nextMatchId + |ws|)
      && |db3.matches| == |db.matches| + |ws|
      && db3.matches[..|db.matches|] == db.matches
  {
    var db2, ids := Matched(db, jobId, ws, now), NewIds(db.nextMatchId, |ws|);
    var db3 := SendAll(db2, ids, gateway, now).1;
    SendAllOnlyNotifies(db2, ids, gateway, now);
    SendAllKeepsOthers(db2, ids, gateway, now);
    forall i | 0 <= i < |db.matches|
      ensures db3.matches[i] == db.matches[i]
    {
      assert db2.matches[i] == db.matches[i];
      assert forall k :: 0 <= k < |ids| ==> ids[k] != db.matches[i].id;
      assert db.matches[i].id !in ids;
    }
  }

  /** Texting the new matches keeps their job, worker and answer columns. */
  lemma MatchAndTextNewRow(db: Db, jobId: int, ws: seq<Worker>, gateway: Sms -> SendResult, now: Date, k: nat)
    requires k < |ws|
    ensures var db3 := MatchAndText(db, jobId, ws, gateway, now).0;
      && |db3.matches| == |db.matches| + |ws|
      && var rows := db3.matches[|db.matches|..];
      && rows[k].id == db.nextMatchId + k
      && rows[k].jobId == jobId
      && rows[k].workerId == ws[k].id
      && !rows[k].workerResponded
  {
    var db2, ids := Matched(db, jobId, ws, now), NewIds(db.nextMatchId, |ws|);
    SendAllOnlyNotifies(db2, ids, gateway, now);
    CreatedRowAt(db, jobId, ws, now, k);
  }

  lemma MatchAndTextNewRows(db: Db, jobId: int, ws: seq<Worker>, gateway: Sms -> SendResult, now: Date)
    ensures var db3 := MatchAndText(db, jobId, ws, gateway, now).0;
      && |db.matches| <= |db3.matches|
      && NewMatches(db3.matches[|db.matches|..], db.nextMatchId, jobId, ws)
  {
    var db3 := MatchAndText(db, jobId, ws, gateway, now).0;
    assert |db3.matches| == |db.matches| + |ws| by {
      SendAllOnlyNotifies(Matched(db, jobId, ws, now), NewIds(db.nextMatchId, |ws|), gateway, now);
    }
    var rows := db3.matches[|db.matches|..];
    forall k | 0 <= k < |ws|
      ensures && rows[k].id == db.nextMatchId + k
              && rows[k].jobId == jobId
              && rows[k].workerId == ws[k].id
              && !rows[k].workerResponded
    {
      MatchAndTextNewRow(db, jobId, ws, gateway, now, k);
    }
  }

  /** Every new match is texted once. */
  lemma MatchAndTextTextsEach(db: Db, job: Job, ws: seq<Worker>, gateway: Sms -> SendResult, now: Date)
    requires forall i :: 0 <= i < |db.matches| ==> db.matches[i].id < db.nextMatchId
    requires job in db.jobs
    requires forall w :: w in ws ==> w in db.workers
    ensures |MatchAndText(db, job.id, ws, gateway, now).1| == |ws|
  {
    var db2, ids := Matched(db, job.id, ws, now), NewIds(db.nextMatchId, |ws|);
    NewMatchesLinked(db, job, ws, now);
    forall k | 0 <= k < |ids|
      ensures Linked(db2, ids[k]).Some?
    {
      assert ids[k] == db.nextMatchId + k;
    }
    NotifiableAll(db2, ids);
    SendAllMessageCount(db2, ids, gateway, now);
  }

  /** Every new id finds its match, worker and job. */
  lemma NewMatchesLinked(db: Db, job: Job, ws: seq<Worker>, now: Date)
    requires forall i :: 0 <= i < |db.matches| ==> db.matches[i].id < db.nextMatchId
    requires job in db.jobs
    requires forall w :: w in ws ==> w in db.workers
    ensures forall id :: db.nextMatchId <= id < db.nextMatchId + |ws| ==> Linked(Matched(db, job.id, ws, now), id).Some?
  {
    forall id | db.nextMatchId <= id < db.nextMatchId + |ws|
      ensures Linked(Matched(db, job.id, ws, now), id).Some?
    {
      CreatedMatchLinked(db, job, ws, now, id);
    }
  }

  /** The answer to a valid job: created, with the number of workers matched,
      at most three. */
  lemma PostJobAnswers(db: Db, j: NewJob, gateway: Sms -> SendResult, now: Date)
    requires FitsInt4(j.dailyRate)
    ensures var r := PostJob(db, Some(j), gateway, now).0;
      var ws := MatchingWorkers(db.workers, j.skillRequired, j.location, 3);
      && r == Response(201, JobCreated(JobRow(db.nextJobId, j, now), |ws|))
      && |ws| == (if WorkerCount(db.workers, j.skillRequired, j.location) < 3
                  then WorkerCount(db.workers, j.skillRequired, j.location) else 3)
  {
    MatchingWorkersSpec(db.workers, j.skillRequired, j.location, 3);
  }

  /** A new job's id is above every other, so its lookup finds it. */
  lemma NewJobFound(db: Db, j: NewJob, now: Date)
    requires forall i :: 0 <= i < |db.jobs| ==> db.jobs[i].id < db.nextJobId
    ensures var job := JobRow(db.nextJobId, j, now);
      JobById(db.jobs + [job], job.id) == Some(job)
  {
    var job := JobRow(db.nextJobId, j, now);
    var js := db.jobs + [job];
    var found := JobById(js, job.id);
    assert js[|db.jobs|] == job;
    assert forall q :: 0 <= q < |db.jobs| ==> js[q].id != job.id;
  }

  /** Texting the new matches marks the new row of worker `k` notified
      exactly when the gateway accepts the alert for the job sent to that
      worker's normalised number, and its notification time is the
      request's `now`. */
  lemma MatchAndTextMarks(db: Db, job: Job, ws: seq<Worker>, gateway: Sms -> SendResult, now: Date, k: nat)
    requires forall i :: 0 <= i < |db.matches| ==> db.matches[i].id < db.nextMatchId
    requires JobById(db.jobs, job.id) == Some(job)
    requires k < |ws| && WorkerById(db.workers, ws[k].id) == Some(ws[k])
    ensures var db3 := MatchAndText(db, job.id, ws, gateway, now).0;
      && |db3.matches| == |db.matches| + |ws|
      && db3.matches[|db.matches| + k].notificationSent
         == gateway(Alert(ws[k], job)).success
      && db3.matches[|db.matches| + k].notificationTime == Some(now)
  {
    MatchAndTextIsBatch(db, job.id, ws, gateway, now);
    BatchMarksRow(db, job, ws, gateway, now, k, |db.matches| + k, db.nextMatchId + k,
                  MatchRow(db.nextMatchId + k, MatchFor(job.id, ws[k], now)), MatchAndText(db, job.id, ws, gateway, now).0);
  }

  /** The batch send over the new ids, which leaves `db3`, marks the new
      row `m` of worker `k`, at index `i` under id `x`, by the gateway's
      answer to its alert. */
  lemma {:induction false} BatchMarksRow(db: Db, job: Job, ws: seq<Worker>, gateway: Sms -> SendResult, now: Date,
                                         k: nat, i: int, x: int, m: Match, db3: Db)
    requires forall i :: 0 <= i < |db.matches| ==> db.matches[i].id < db.nextMatchId
    requires JobById(db.jobs, job.id) == Some(job)
    requires k < |ws| && WorkerById(db.workers, ws[k].id) == Some(ws[k])
    requires i == |db.matches| + k && x == db.nextMatchId + k && m == MatchRow(x, MatchFor(job.id, ws[k], now))
    requires db3 == SendAll(Matched(db, job.id, ws, now), NewIds(db.nextMatchId, |ws|), gateway, now).1
    ensures |db3.matches| == |db.matches| + |ws|
    ensures db3.matches[|db.matches| + k].notificationSent == gateway(Alert(ws[k], job)).success
    ensures db3.matches[|db.matches| + k].notificationTime == Some(now)
  {
    NewRowMarkable(db, job, ws, now, k, i, x, m);
    MarkedRow(Matched(db, job.id, ws, now), NewIds(db.nextMatchId, |ws|), i, x, m, ws[k], job, gateway, now);
    SameRow(db3, db, k, i);
  }

  /** Row `i` of `db3` is row `|db.matches| + k`, read under either name. */
  lemma SameRow(db3: Db, db: Db, k: int, i: int)
    requires i == |db.matches| + k && 0 <= i < |db3.matches|
    ensures db3.matches[i] == db3.matches[|db.matches| + k]
  {
  }

  /** The new row `m` of worker `k`, at index `i` under id `x`, is one the
      batch that follows can mark. */
  lemma {:induction false} NewRowMarkable(db: Db, job: Job, ws: seq<Worker>, now: Date, k: nat, i: int, x: int, m: Match)
    requires forall i :: 0 <= i < |db.matches| ==> db.matches[i].id < db.nextMatchId
    requires JobById(db.jobs, job.id) == Some(job)
    requires k < |ws| && WorkerById(db.workers, ws[k].id) == Some(ws[k])
    requires i == |db.matches| + k && x == db.nextMatchId + k && m == MatchRow(x, MatchFor(job.id, ws[k], now))
    ensures Markable(Matched(db, job.id, ws, now), NewIds(db.nextMatchId, |ws|), i, x, m, ws[k], job, now)
  {
    NewIdsDistinct(db.nextMatchId, |ws|, k, x);
    NewRowFacts(db, job, ws, now, k, i, x, m);
  }

  /** The new row `m` of worker `k`, at index `i` under id `x`: where it
      sits, what it holds, and that its id, worker and job are found. */
  lemma {:induction false} NewRowFacts(db: Db, job: Job, ws: seq<Worker>, now: Date, k: nat, i: int, x: int, m: Match)
    requires forall i :: 0 <= i < |db.matches| ==> db.matches[i].id < db.nextMatchId
    requires JobById(db.jobs, job.id) == Some(job)
    requires k < |ws| && WorkerById(db.workers, ws[k].id) == Some(ws[k])
    requires i == |db.matches| + k && x == db.nextMatchId + k && m == MatchRow(x, MatchFor(job.id, ws[k], now))
    ensures var db2 := Matched(db, job.id, ws, now);
      && 0 <= i < |db2.matches| && db2.matches[i] == m
      && m.id == x && !m.notificationSent && m.notificationTime == Some(now)
      && MatchById(db2.matches, x) == Some(m)
      && WorkerById(db2.workers, m.workerId) == Some(ws[k])
      && JobById(db2.jobs, m.jobId) == Some(job)
  {
    CreatedRowAtIndex(db, job.id, ws, now, k, i, x);
    CreatedMatchFound(db, job.id, ws, now, x);
    SameWorker(ws, db, k, x);
    assert Matched(db, job.id, ws, now).workers == db.workers && Matched(db, job.id, ws, now).jobs == db.jobs;
  }

  /** `CreatedRowAt` for the index `i` and id `x` of the `k`-th new row. */
  lemma CreatedRowAtIndex(db: Db, jobId: int, ws: seq<Worker>, now: Date, k: nat, i: int, x: int)
    requires k < |ws| && i == |db.matches| + k && x == db.nextMatchId + k
    ensures 0 <= i < |Matched(db, jobId, ws, now).matches|
    ensures Matched(db, jobId, ws, now).matches[i] == MatchRow(x, MatchFor(jobId, ws[k], now))
  {
    var rows := MatchRows(db.nextMatchId, jobId, ws, now);
    assert (db.matches + rows)[i] == rows[k];
  }

  /** The worker of id `x`, the `k`-th new id, is the `k`-th worker. */
  lemma SameWorker(ws: seq<Worker>, db: Db, k: int, x: int)
    requires x == db.nextMatchId + k && 0 <= k < |ws|
    ensures ws[x - db.nextMatchId] == ws[k]
  {
  }

  /** The database after matching and texting is the one the batch send
      leaves behind. */
  lemma MatchAndTextIsBatch(db: Db, jobId: int, ws: seq<Worker>, gateway: Sms -> SendResult, now: Date)
    ensures MatchAndText(db, jobId, ws, gateway, now).0
         == SendAll(Matched(db, jobId, ws, now), NewIds(db.nextMatchId, |ws|), gateway, now).1
  {
  }

  /** The lookup of the `k`-th new id finds the row made for the `k`-th worker. */
  lemma NewRowFound(db: Db, jobId: int, ws: seq<Worker>, now: Date, k: nat)
    requires forall i :: 0 <= i < |db.matches| ==> db.matches[i].id < db.nextMatchId
    requires k < |ws|
    ensures MatchById(Matched(db, jobId, ws, now).matches, db.nextMatchId + k)
         == Some(MatchRow(db.nextMatchId + k, MatchFor(jobId, ws[k], now)))
  {
    CreatedMatchFresh(db, jobId, ws, now, k);
    MatchByIdAt(Matched(db, jobId, ws, now).matches, |db.matches| + k, db.nextMatchId + k);
  }

  /** Consecutive ids are distinct, and the `k`-th is `x`, which is `first + k`. */
  lemma NewIdsDistinct(first: int, n: nat, k: nat, x: int)
    requires k < n && x == first + k
    ensures var ids := NewIds(first, n);
      && ids[k] == x && x in ids
      && forall p, q :: 0 <= p < q < |ids| ==> ids[p] != ids[q]
  {
    var ids := NewIds(first, n);
    forall p, q | 0 <= p < q < |ids|
      ensures ids[p] != ids[q]
    {
      assert ids[p] == first + p && ids[q] == first + q;
    }
  }

  /** The new row of worker `k` is found with that worker and the job. */
  lemma NewRowDetails(db: Db, job: Job, ws: seq<Worker>, now: Date, k: nat)
    requires forall i :: 0 <= i < |db.matches| ==> db.matches[i].id < db.nextMatchId
    requires JobById(db.jobs, job.id) == Some(job)
    requires k < |ws| && WorkerById(db.workers, ws[k].id) == Some(ws[k])
    ensures MatchDetails(Matched(db, job.id, ws, now), db.nextMatchId + k)
         == Some(Details(MatchRow(db.nextMatchId + k, MatchFor(job.id, ws[k], now)), ws[k], job))
  {
    NewRowFound(db, job.id, ws, now, k);
    assert Matched(db, job.id, ws, now).workers == db.workers && Matched(db, job.id, ws, now).jobs == db.jobs;
  }

  /** Texting the new matches marks each one by its own outcome. */
  lemma MatchAndTextMarksAll(db: Db, job: Job, ws: seq<Worker>, gateway: Sms -> SendResult, now: Date)
    requires forall i :: 0 <= i < |db.matches| ==> db.matches[i].id < db.nextMatchId
    requires JobById(db.jobs, job.id) == Some(job)
    requires forall w :: w in ws ==> WorkerById(db.workers, w.id) == Some(w)
    ensures var db3 := MatchAndText(db, job.id, ws, gateway, now).0;
      var n := |db.matches|;
      && |db3.matches| == n + |ws|
      && forall k :: 0 <= k < |ws| ==>
           && db3.matches[n + k].notificationSent
              == gateway(Alert(ws[k], job)).success
           && db3.matches[n + k].notificationTime == Some(now)
  {
    if ws == [] {
      MatchAndTextKeepsEarlierRows(db, job.id, ws, gateway, now);
    } else {
      assert ws[0] in ws;
      MatchAndTextMarks(db, job, ws, gateway, now, 0);
    }
    forall k | 0 <= k < |ws|
      ensures && MatchAndText(db, job.id, ws, gateway, now).0.matches[|db.matches| + k].notificationSent
                 == gateway(Alert(ws[k], job)).success
              && MatchAndText(db, job.id, ws, gateway, now).0.matches[|db.matches| + k].notificationTime == Some(now)
    {
      assert ws[k] in ws;
      MatchAndTextMarks(db, job, ws, gateway, now, k);
    }
  }

  /** `MatchAndTextMarksAll` stated on the database
      `db3` texting leaves behind and the number `n` of earlier rows. */
  lemma {:induction false} BatchMarksAll(db: Db, job: Job, ws: seq<Worker>, gateway: Sms -> SendResult, now: Date,
                                         n: int, db3: Db)
    requires forall i :: 0 <= i < |db.matches| ==> db.matches[i].id < db.nextMatchId
    requires JobById(db.jobs, job.id) == Some(job)
    requires forall w :: w in ws ==> WorkerById(db.workers, w.id) == Some(w)
    requires n == |db.matches|
    requires db3 == MatchAndText(db, job.id, ws, gateway, now).0
    ensures |db3.matches| == n + |ws|
    ensures forall k :: 0 <= k < |ws| ==>
              && db3.matches[n + k].notificationSent == gateway(Alert(ws[k], job)).success
              && db3.matches[n + k].notificationTime == Some(now)
  {
    MatchAndTextIsBatch(db, job.id, ws, gateway, now);
    MatchAndTextKeepsEarlierRows(db, job.id, ws, gateway, now);
    forall k | 0 <= k < |ws|
      ensures && db3.matches[n + k].notificationSent == gateway(Alert(ws[k], job)).success
              && db3.matches[n + k].notificationTime == Some(now)
    {
      assert ws[k] in ws;
      BatchMarksRow(db, job, ws, gateway, now, k, n + k, db.nextMatchId + k,
                    MatchRow(db.nextMatchId + k, MatchFor(job.id, ws[k], now)), db3);
      ShiftedRow(db3, db, n, k);
    }
  }

  /** Row `n + k` of `db3` is row `|db.matches| + k` when `n` counts the rows of `db`. */
  lemma ShiftedRow(db3: Db, db: Db, n: int, k: int)
    requires n == |db.matches| && 0 <= n + k < |db3.matches|
    ensures db3.matches[n + k] == db3.matches[|db.matches| + k]
  {
  }

  /** After a valid job, every new match is marked notified exactly when the
      gateway accepts the alert for the job sent to its worker's normalised
      number, and its notification time is the request's `now`. */
  lemma {:induction false} PostJobMarksByOutcome(db: Db, j: NewJob, gateway: Sms -> SendResult, now: Date)
    requires Valid(db) && FitsInt4(j.dailyRate)
    ensures var db3 := PostJob(db, Some(j), gateway, now).1;
      var job := JobRow(db.nextJobId, j, now);
      var ws := MatchingWorkers(db.workers, j.skillRequired, j.location, 3);
      var n := |db.matches|;
      && |db3.matches| == n + |ws|
      && forall k :: 0 <= k < |ws| ==>
           && db3.matches[n + k].notificationSent
              == gateway(Alert(ws[k], job)).success
           && db3.matches[n + k].notificationTime == Some(now)
  {
    var job := JobRow(db.nextJobId, j, now);
    var db1 := db.(jobs := db.jobs + [job], nextJobId := db.nextJobId + 1);
    var ws := MatchingWorkers(db.workers, j.skillRequired, j.location, 3);
    if |ws| > 0 {
      var db3 := PostJob(db, Some(j), gateway, now).1;
      PostJobTexts(db, j, gateway, now, job, db1, ws, db3);
      NewJobBatchReady(db, j, now, job, db1, ws);
      BatchMarksAll(db1, job, ws, gateway, now, |db.matches|, db3);
    } else {
      PostJobIsMatchAndText(db, j, gateway, now, job, db1, ws);
    }
  }

  /** When somebody matched, the database a valid job leaves behind is the
      one texting its matches leaves behind. */
  lemma {:induction false} PostJobTexts(db: Db, j: NewJob, gateway: Sms -> SendResult, now: Date,
                                        job: Job, db1: Db, ws: seq<Worker>, db3: Db)
    requires FitsInt4(j.dailyRate)
    requires job == JobRow(db.nextJobId, j, now)
    requires db1 == db.(jobs := db.jobs + [job], nextJobId := db.nextJobId + 1)
    requires ws == MatchingWorkers(db.workers, j.skillRequired, j.location, 3) && |ws| > 0
    requires db3 == PostJob(db, Some(j), gateway, now).1
    ensures db3 == MatchAndText(db1, job.id, ws, gateway, now).0
  {
    PostJobIsMatchAndText(db, j, gateway, now, job, db1, ws);
  }

  /** The database a valid job leaves behind is the one texting its matches
      leaves behind, or the one with just the job row when nobody matched. */
  lemma {:induction false} PostJobIsMatchAndText(db: Db, j: NewJob, gateway: Sms -> SendResult, now: Date,
                                                 job: Job, db1: Db, ws: seq<Worker>)
    requires FitsInt4(j.dailyRate)
    requires job == JobRow(db.nextJobId, j, now)
    requires db1 == db.(jobs := db.jobs + [job], nextJobId := db.nextJobId + 1)
    requires ws == MatchingWorkers(db.workers, j.skillRequired, j.location, 3)
    ensures PostJob(db, Some(j), gateway, now).1
            == if |ws| > 0 then MatchAndText(db1, job.id, ws, gateway, now).0 else db1
  {
  }

  /** After the job row is added, the matched workers and the new job are
      found by id and the earlier match ids stay below the next one. */
  lemma {:induction false} NewJobBatchReady(db: Db, j: NewJob, now: Date, job: Job, db1: Db, ws: seq<Worker>)
    requires Valid(db)
    requires job == JobRow(db.nextJobId, j, now)
    requires db1 == db.(jobs := db.jobs + [job], nextJobId := db.nextJobId + 1)
    requires ws == MatchingWorkers(db.workers, j.skillRequired, j.location, 3)
    ensures forall i :: 0 <= i < |db1.matches| ==> db1.matches[i].id < db1.nextMatchId
    ensures JobById(db1.jobs, job.id) == Some(job)
    ensures forall w :: w in ws ==> WorkerById(db1.workers, w.id) == Some(w)
  {
    assert IdsBelowSerials(db);
    MatchingWorkersSpec(db.workers, j.skillRequired, j.location, 3);
    NewJobFound(db, j, now);
    forall w | w in ws
      ensures WorkerById(db1.workers, w.id) == Some(w)
    {
      WorkerByIdOfMember(db.workers, w);
    }
  }

  /** What a valid job writes and sends: the job row, one unanswered match
      per matched worker after the existing ones, and one message each. */
  lemma PostJobStores(db: Db, j: NewJob, gateway: Sms -> SendResult, now: Date)
    requires forall i :: 0 <= i < |db.matches| ==> db.matches[i].id < db.nextMatchId
    requires FitsInt4(j.dailyRate)
    ensures var (_, db3, sent) := PostJob(db, Some(j), gateway, now);
      var job := JobRow(db.nextJobId, j, now);
      var ws := MatchingWorkers(db.workers, j.skillRequired, j.location, 3);
      var n := |db.matches|;
      && db3.workers == db.workers && db3.jobs == db.jobs + [job] && db3.sessions == db.sessions
      && |db3.matches| == n + |ws|
      && db3.matches[..n] == db.matches
      && NewMatches(db3.matches[n..], db.nextMatchId, job.id, ws)
      && |sent| == |ws|
  {
    var db1 := AddJob(db, j, now).1;
    var job := JobRow(db.nextJobId, j, now);
    var ws := MatchingWorkers(db.workers, j.skillRequired, j.location, 3);
    assert db1 == db.(jobs := db.jobs + [job], nextJobId := db.nextJobId + 1);
    if |ws| > 0 {
      assert job in db1.jobs;
      MatchingWorkersSpec(db.workers, j.skillRequired, j.location, 3);
      MatchAndTextKeepsEarlierRows(db1, job.id, ws, gateway, now);
      MatchAndTextNewRows(db1, job.id, ws, gateway, now);
      MatchAndTextTextsEach(db1, job, ws, gateway, now);
    }
  }

  /** A valid job is stored once with the schema's defaults; at most three
      workers, the first eligible ones in table order, are matched, one new
      match each, unanswered, for this job. Every one of them is texted
      once, and the answer reports how many were matched. */
  lemma PostJobCreates(db: Db, j: NewJob, gateway: Sms -> SendResult, now: Date)
    requires Valid(db) && FitsInt4(j.dailyRate)
    ensures var (r, db3, sent) := PostJob(db, Some(j), gateway, now);
      var job := JobRow(db.nextJobId, j, now);
      var ws := MatchingWorkers(db.workers, j.skillRequired, j.location, 3);
      var n := |db.matches|;
      && r == Response(201, JobCreated(job, |ws|))
      && |ws| == (if WorkerCount(db.workers, j.skillRequired, j.location) < 3
                  then WorkerCount(db.workers, j.skillRequired, j.location) else 3)
      && db3.workers == db.workers && db3.jobs == db.jobs + [job] && db3.sessions == db.sessions
      && |db3.matches| == n + |ws|
      && db3.matches[..n] == db.matches
      && NewMatches(db3.matches[n..], db.nextMatchId, job.id, ws)
      && |sent| == |ws|
  {
    assert IdsBelowSerials(db);
    PostJobAnswers(db, j, gateway, now);
    PostJobStores(db, j, gateway, now);
  }

  // ---------------------------------------------------------------------
  // POST /ussd

  /** The fields read from the request body or its query string. */
  datatype UssdFields = UssdFields(
    sessionId: Option<string>,
    phoneNumber: Option<string>,
    text: Option<string>,
    ussdString: Option<string>)

  /** `body.text || query.text || ""`, with the body's `ussdString` when that is empty. */
  function UssdText(body: UssdFields, query: UssdFields): string {
    var t := Or(Or(body.text, query.text), Some("")).value;
    if t == "" && Truthy(body.ussdString) then body.ussdString.value else t
  }

  const MISSING_PARAMS := "Session ID and phone number are required"

  function Ussd(db: Db, body: UssdFields, query: UssdFields, now: Date): (Response, Db) {
    var sid := Or(body.sessionId, query.sessionId);
    var phone := Or(body.phoneNumber, query.phoneNumber);
    if !Truthy(sid) || !Truthy(phone) then (Response(200, Plain(End(MISSING_PARAMS))), db)
    else
      var (o, db1) := Handle(db, sid.value, phone.value, UssdText(body, query), now);
      // an exception escaping the dialog becomes the error screen
      (Response(200, Plain(match o case Answer(s) => Text(s) case Thrown(_) => Text(ErrorScreen))), db1)
  }

  /** The text is the first non-empty of the body's `text`, the query's
      `text` and the body's `ussdString`, else empty. */
  lemma UssdTextSpec(body: UssdFields, query: UssdFields)
    ensures UssdText(body, query)
         == if Truthy(body.text) then body.text.value
            else if Truthy(query.text) then query.text.value
            else if Truthy(body.ussdString) then body.ussdString.value
            else ""
  {
  }

  /** Every answer is a 200 text starting with `CON ` or `END `; without an
      id and a phone it is final and writes nothing; otherwise it is the
      dialog's answer, its exceptions turned into the error screen. */
  lemma UssdSpec(db: Db, body: UssdFields, query: UssdFields, now: Date)
    ensures var (r, db1) := Ussd(db, body, query, now);
      && r.status == 200 && r.body.Plain? && IsScreen(r.body.text)
      && var sid := Or(body.sessionId, query.sessionId);
         var phone := Or(body.phoneNumber, query.phoneNumber);
         if !Truthy(sid) || !Truthy(phone) then r.body.text[..4] == "END " && db1 == db
         else
           var (o, db2) := Handle(db, sid.value, phone.value, UssdText(body, query), now);
           && db1 == db2
           && r.body.text == (if o.Thrown? then Text(ErrorScreen) else Text(o.screen))
  {
  }

  // ---------------------------------------------------------------------
  // POST /notifications/job-match/:matchId

  function NotifyMatch(db: Db, param: string, gateway: Sms -> SendResult, now: Date): (Response, Db, seq<Sms>) {
    match ParseInt(param)
    case None => (Response(400, Message("Invalid match ID")), db, [])
    case Some(id) =>
      // an id outside the `integer` column's range makes the lookup throw,
      // and the handler's catch answers 500
      if !FitsInt4(id) then (Response(500, Message("Failed to send SMS notification")), db, [])
      else if MatchDetails(db, id).None? then (Response(404, Message("Match not found or missing related data")), db, [])
      else
        var (r, db1, sent) := Send(db, id, gateway, now);
        if !r.success then (Response(500, Failure("Failed to send SMS notification", r.error)), db1, sent)
        else (Response(200, Message("SMS notification sent successfully")), db1, sent)
  }

  /** A non-numeric id is refused, an id out of the column's range fails
      and a missing match is not found, all three writing and sending
      nothing; otherwise exactly one SMS goes out, the answer is 200 exactly
      when the gateway reports success, and only then is the match marked
      notified. */
  lemma NotifyMatchSpec(db: Db, param: string, gateway: Sms -> SendResult, now: Date)
    ensures var (r, db1, sent) := NotifyMatch(db, param, gateway, now);
      && (r.status == 400 <==> ParseInt(param).None?)
      && (ParseInt(param).Some? ==>
            var id := ParseInt(param).value;
            && (!FitsInt4(id) ==> r == Response(500, Message("Failed to send SMS notification")) && db1 == db && sent == [])
            && (r.status == 404 <==> FitsInt4(id) && MatchDetails(db, id).None?)
            && (FitsInt4(id) && MatchDetails(db, id).Some? ==>
                  var d := MatchDetails(db, id).value;
                  var sms := Sms(NormalizePhone(d.worker.phone), JobMatchSms(d.job));
                  && sent == [sms]
                  && (r.status == 200 <==> gateway(sms).success)
                  && (r.status != 200 ==> r.status == 500 && db1 == db)
                  && (r.status == 200 ==>
                        (MatchById(db1.matches, id)
                         == Some(d.pairing.(notificationSent := true, notificationTime := Some(now)))))))
      && (r.status == 400 || r.status == 404 ==> db1 == db && sent == [])
  {
    if ParseInt(param).Some? {
      var id := ParseInt(param).value;
      if FitsInt4(id) && MatchDetails(db, id).Some? {
        SendWithDetails(db, id, gateway, now);
        if Send(db, id, gateway, now).0.success {
          SendMarksOnSuccess(db, id, gateway, now);
        }
      }
    }
  }

  // ---------------------------------------------------------------------
  // The store's invariant across the handlers

  lemma RegisterPreservesValid(db: Db, body: Option<NewWorker>, now: Date)
    requires Valid(db)
    ensures Valid(Register(db, body, now).1)
  {
    if body.Some? {
      AddWorkerPreservesValid(db, body.value, now);
    }
  }

  /** Appending the rows for the workers keeps ids below the serial. */
  lemma MatchedPreservesValid(db: Db, jobId: int, ws: seq<Worker>, now: Date)
    requires Valid(db)
    ensures Valid(Matched(db, jobId, ws, now))
  {
    var db2 := Matched(db, jobId, ws, now);
    var n := |db.matches|;
    forall i | 0 <= i < |db2.matches|
      ensures db2.matches[i].id < db2.nextMatchId
    {
      if i < n {
        assert db2.matches[i] == db.matches[i];
      } else {
        assert db2.matches[i] == MatchRow(db.nextMatchId + (i - n), MatchFor(jobId, ws[i - n], now));
      }
    }
  }

  lemma PostJobPreservesValid(db: Db, body: Option<NewJob>, gateway: Sms -> SendResult, now: Date)
    requires Valid(db)
    ensures Valid(PostJob(db, body, gateway, now).1)
  {
    if body.Some? && FitsInt4(body.value.dailyRate) {
      var j := body.value;
      AddJobPreservesValid(db, j, now);
      var (c, db1) := AddJob(db, j, now);
      var job := c.value;
      var ws := MatchingWorkers(db1.workers, job.skillRequired, job.location, 3);
      MatchedPreservesValid(db1, job.id, ws, now);
      SendAllPreservesValid(Matched(db1, job.id, ws, now), NewIds(db1.nextMatchId, |ws|), gateway, now);
    }
  }

  lemma UssdPreservesValid(db: Db, body: UssdFields, query: UssdFields, now: Date)
    requires Valid(db)
    ensures Valid(Ussd(db, body, query, now).1)
  {
    var sid := Or(body.sessionId, query.sessionId);
    var phone := Or(body.phoneNumber, query.phoneNumber);
    if Truthy(sid) && Truthy(phone) {
      HandlePreservesValid(db, sid.value, phone.value, UssdText(body, query), now);
    }
  }

  lemma NotifyMatchPreservesValid(db: Db, param: string, gateway: Sms -> SendResult, now: Date)
    requires Valid(db)
    ensures Valid(NotifyMatch(db, param, gateway, now).1)
  {
    match ParseInt(param)
    case None =>
    case Some(id) =>
      if FitsInt4(id) && MatchDetails(db, id).Some? {
        SendOnlyNotifies(db, id, gateway, now);
        OnlyNotificationsPreservesValid(db, Send(db, id, gateway, now).1);
        assert NotifyMatch(db, param, gateway, now).1 == Send(db, id, gateway, now).1;
      }
  }

  // ---------------------------------------------------------------------
  // The handlers on the running services

  class Api {
    const store: Store
    const ussd: UssdService
    const notifier: NotificationService

    /** The dialog and the notifier work on the API's store. */
    predicate Wired() {
      ussd.store == store && notifier.store == store
    }

    constructor(store: Store, gateway: Sms -> SendResult)
      ensures Wired() && this.store == store && notifier.gateway == gateway && notifier.outbox == []
    {
      this.store := store;
      ussd := new UssdService(store);
      notifier := new NotificationService(store, gateway);
    }

    method GetWorkersCount(skill: Option<string>, location: Option<string>) returns (r: Response)
      ensures r == CountWorkers(store.State(), skill, location)
    {
      if !Truthy(skill) || !Truthy(location) {
        return Response(400, Message("Skill and location are required"));
      }
      var count := store.GetWorkerCount(skill.value, location.value);
      r := Response(200, CountOf(count));
    }

    method RegisterWorker(body: Option<NewWorker>, now: Date) returns (r: Response)
      modifies store
      ensures (r, store.State()) == Register(old(store.State()), body, now)
    {
      if body.None? {
        return Response(400, Message("Invalid worker data"));
      }
      var existing := store.GetWorkerByPhone(body.value.phone);
      if existing.Some? {
        return Response(409, Message("Phone number already registered"));
      }
      var worker := store.CreateWorker(body.value, now);
      if worker.Err? {
        return Response(500, Message("Failed to register worker"));
      }
      r := Response(201, WorkerRecord(worker.value));
    }

    /** The notifications go out one after another (the handler starts them
        together and waits for all; the gateway's answers do not depend on
        the order). */
    method PostJobs(body: Option<NewJob>, now: Date) returns (r: Response)
      requires Wired()
      modifies store, notifier
      ensures var (res, db1, sent) := PostJob(old(store.State()), body, notifier.gateway, now);
        r == res && store.State() == db1 && notifier.outbox == old(notifier.outbox) + sent
    {
      if body.None? {
        return Response(400, Message("Invalid job data"));
      }
      var created := store.CreateJob(body.value, now);
      if created.Err? {
        return Response(500, Message("Failed to create job"));
      }
      var job := created.value;
      var workers := store.FindMatchingWorkers(job.skillRequired, job.location, 3);
      if |workers| > 0 {
        MatchAndNotify(job.id, workers, now);
      }
      r := Response(201, JobCreated(job, |workers|));
    }

    /** One match per worker, then one bulk send of the new matches. */
    method MatchAndNotify(jobId: int, workers: seq<Worker>, now: Date)
      requires Wired()
      modifies store, notifier
      ensures var (db3, sent) := MatchAndText(old(store.State()), jobId, workers, notifier.gateway, now);
        store.State() == db3 && notifier.outbox == old(notifier.outbox) + sent
    {
      ghost var db1 := store.State();
      var matchIds := [];
      var i := 0;
      while i < |workers|
        invariant 0 <= i <= |workers|
        invariant (store.State(), matchIds) == CreateMatches(db1, jobId, workers[..i], now)
        invariant notifier.outbox == old(notifier.outbox)
      {
        assert workers[..i + 1][..i] == workers[..i];
        var m := store.CreateMatch(MatchFor(jobId, workers[i], now));
        matchIds := matchIds + [m.id];
        i := i + 1;
      }
      assert workers[..i] == workers;
      var _ := notifier.SendBulkJobMatchSms(matchIds, now);
    }

    method PostUssd(body: UssdFields, query: UssdFields, now: Date) returns (r: Response)
      requires Wired()
      modifies store
      ensures (r, store.State()) == Ussd(old(store.State()), body, query, now)
    {
      var sid := Or(body.sessionId, query.sessionId);
      var phone := Or(body.phoneNumber, query.phoneNumber);
      var text := Or(Or(body.text, query.text), Some("")).value;
      if text == "" && Truthy(body.ussdString) {
        text := body.ussdString.value;
      }
      if !Truthy(sid) || !Truthy(phone) {
        return Response(200, Plain(End(MISSING_PARAMS)));
      }
      var response := ussd.HandleUssdRequest(sid.value, phone.value, text, now);
      if response.Err? {
        return Response(200, Plain(Text(ErrorScreen)));
      }
      r := Response(200, Plain(response.value));
    }

    method NotifyJobMatch(param: string, now: Date) returns (r: Response)
      requires Wired()
      modifies store, notifier
      ensures var (res, db1, sent) := NotifyMatch(old(store.State()), param, notifier.gateway, now);
        r == res && store.State() == db1 && notifier.outbox == old(notifier.outbox) + sent
    {
      var matchId := ParseInt(param);
      if matchId.None? {
        return Response(400, Message("Invalid match ID"));
      }
      if !FitsInt4(matchId.value) {
        return Response(500, Message("Failed to send SMS notification"));
      }
      var details := store.GetMatchWithDetails(matchId.value);
      if details.None? {
        return Response(404, Message("Match not found or missing related data"));
      }
      var result := notifier.SendJobMatchSms(matchId.value, now);
      if !result.success {
        return Response(500, Failure("Failed to send SMS notification", result.error));
      }
      r := Response(200, Message("SMS notification sent successfully"));
    }
  }
}
