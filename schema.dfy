/** The record shapes of the four tables (workers, jobs, matches,
    ussd_sessions), the defaults the database fills in on insert, and the
    fixed lists of skills, locations and durations. */
module Schema {
  import opened Wrappers

  /** Timestamps are opaque: a `Date` is the text the application shows for
      it (what `toLocaleDateString` would render). */
  type Date = string

  /** A row of `workers`; `phone` is unique in the table. */
  datatype Worker = Worker(
    id: int,
    name: string,
    phone: string,
    skill: string,
    location: string,
    isAvailable: bool,
    registeredAt: Date)

  /** What an insert into `workers` supplies; `isAvailable` may be omitted. */
  datatype NewWorker = NewWorker(
    name: string,
    phone: string,
    skill: string,
    location: string,
    isAvailable: Option<bool>)

  /** A row of `jobs`; `additionalNotes` is nullable. */
  datatype Job = Job(
    id: int,
    contactPhone: string,
    skillRequired: string,
    location: string,
    dailyRate: int,
    projectDuration: string,
    additionalNotes: Option<string>,
    createdAt: Date,
    isActive: bool)

  datatype NewJob = NewJob(
    contactPhone: string,
    skillRequired: string,
    location: string,
    dailyRate: int,
    projectDuration: string,
    additionalNotes: Option<string>,
    isActive: Option<bool>)

  /** A row of `matches`: one proposed pairing of a job with a worker. */
  datatype Match = Match(
    id: int,
    jobId: int,
    workerId: int,
    notificationSent: bool,
    notificationTime: Option<Date>,
    workerResponded: bool)

  datatype NewMatch = NewMatch(
    jobId: int,
    workerId: int,
    notificationSent: Option<bool>,
    notificationTime: Option<Date>,
    workerResponded: Option<bool>)

  /** The step data a dialog carries between requests (stored as JSON text
      by the source; here as a record of its three possible keys). */
  datatype SessionData = SessionData(name: Option<string>, skill: Option<string>, workerId: Option<int>)

  /** `{}` */
  const NoData := SessionData(None, None, None)

  /** A row of `ussd_sessions`; `sessionId` is unique and `step` is free text. */
  datatype UssdSession = UssdSession(
    id: int,
    sessionId: string,
    phoneNumber: string,
    step: string,
    data: SessionData,
    createdAt: Date)

  /** `daily_rate` is a Postgres `integer`. */
  const Int4Min: int := -0x8000_0000
  const Int4Max: int := 0x7FFF_FFFF

  predicate FitsInt4(x: int) {
    Int4Min <= x <= Int4Max
  }

  // Rows as the database stores them: serial id, defaults for omitted columns.

  function WorkerRow(id: int, w: NewWorker, now: Date): Worker {
    Worker(id, w.name, w.phone, w.skill, w.location, w.isAvailable.GetOr(true), now)
  }

  function JobRow(id: int, j: NewJob, now: Date): Job {
    Job(id, j.contactPhone, j.skillRequired, j.location, j.dailyRate, j.projectDuration,
        j.additionalNotes, now, j.isActive.GetOr(true))
  }

  function MatchRow(id: int, m: NewMatch): Match {
    Match(id, m.jobId, m.workerId, m.notificationSent.GetOr(false), m.notificationTime,
          m.workerResponded.GetOr(false))
  }

  /** Omitted columns take the schema's defaults: workers are available, jobs
      active, matches unsent and unanswered with no notification time. */
  lemma InsertDefaults(id: int, now: Date, name: string, phone: string, skill: string, location: string,
                       contact: string, rate: int, duration: string, jobId: int, workerId: int)
    ensures WorkerRow(id, NewWorker(name, phone, skill, location, None), now).isAvailable
    ensures JobRow(id, NewJob(contact, skill, location, rate, duration, None, None), now).isActive
    ensures JobRow(id, NewJob(contact, skill, location, rate, duration, None, None), now).additionalNotes.None?
    ensures var m := MatchRow(id, NewMatch(jobId, workerId, None, None, None));
      !m.notificationSent && !m.workerResponded && m.notificationTime.None?
  {
  }

  const SKILLS: seq<string> := [
    "Mason",
    "Carpenter",
    "Electrician",
    "Plumber",
    "Painter",
    "Welder",
    "General Labor"
  ]

  const LOCATIONS: seq<string> := [
    "Pipeline",
    "Gikambura",
    "Kawangware",
    "Kasarani",
    "Rongai",
    "Kitengela"
  ]

  const DURATIONS: seq<string> := [
    "1 day",
    "2-3 days",
    "1 week",
    "2 weeks",
    "1 month",
    "3+ months"
  ]

  predicate Distinct(s: seq<string>) {
    forall i, j :: 0 <= i < j < |s| ==> s[i] != s[j]
  }

  /** Seven distinct skills, six distinct locations, six distinct durations. */
  lemma ConstantsShape()
    ensures |SKILLS| == 7 && Distinct(SKILLS)
    ensures |LOCATIONS| == 6 && Distinct(LOCATIONS)
    ensures |DURATIONS| == 6 && Distinct(DURATIONS)
  {
  }
}
