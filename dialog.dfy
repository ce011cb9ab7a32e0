/** The USSD worker dialog. Every request carries the session id, the
    caller's phone and the whole `*`-joined input history; the server keeps
    the dialog's step and data in the session table and answers with a
    `CON ` (continue) or `END ` (final) screen.

    `Handle` is the transition function on the database value; method
    `HandleUssdRequest` performs the same request step by step on a `Store`. */
module Dialog {
  import opened Wrappers
  import opened Schema
  import opened Storage
  import opened JsText

  /** The dialog steps. `ViewJobs` is declared but no transition enters it. */
  datatype UssdState =
    | MainMenu | RegisterName | RegisterSkill | SelectLocation
    | UpdateProfileMenu | UpdateSkill | UpdateLocation | ViewJobs

  /** The text stored in the session's `step` column for each step. */
  function StepName(s: UssdState): string {
    match s
    case MainMenu => "main_menu"
    case RegisterName => "register_name"
    case RegisterSkill => "register_skill"
    case SelectLocation => "select_location"
    case UpdateProfileMenu => "update_profile_menu"
    case UpdateSkill => "update_skill"
    case UpdateLocation => "update_location"
    case ViewJobs => "view_jobs"
  }

  lemma StepNamesDistinct(a: UssdState, b: UssdState)
    ensures StepName(a) == StepName(b) <==> a == b
  {
  }

  /** What a request ends with: the screen text, or an exception that escapes
      the handler (only the insert before the `try` can raise one). */
  datatype Outcome = Answer(screen: Screen) | Thrown(error: string)

  // ---------------------------------------------------------------------
  // Screens

  /** The screens the dialog can answer with; `Text` renders each one. */
  datatype Screen =
    | Welcome | InvalidOption | EnterName | NotRegistered
    | NoMatches | JobOpportunity(job: Job) | MatchList(recent: seq<Job>)
    | UpdateMenu | InvalidUpdateOption
    | SkillMenu | InvalidSkillChoice | LocationMenu | InvalidLocationChoice
    | NewSkillMenu | NewLocationMenu
    | AlreadyRegistered | RegistrationDone(name: string, phone: string, skill: string, location: string)
    | SkillChanged(skill: string) | SkillUpdateFailed
    | LocationChanged(location: string) | LocationUpdateFailed
    | ErrorScreen

  /** The screens that close the dialog (`END`); all others ask for more input (`CON`). */
  predicate Final(s: Screen) {
    || s.NotRegistered? || s.NoMatches? || s.JobOpportunity? || s.MatchList?
    || s.AlreadyRegistered? || s.RegistrationDone? || s.SkillChanged? || s.SkillUpdateFailed?
    || s.LocationChanged? || s.LocationUpdateFailed? || s.ErrorScreen?
  }

  /** A screen the gateway accepts: it starts with `CON ` or `END `. */
  predicate IsScreen(t: string) {
    |t| >= 4 && (t[..4] == "CON " || t[..4] == "END ")
  }

  /** A screen that asks for more input. */
  function Con(body: string): (t: string)
    ensures IsScreen(t) && t[..4] == "CON " && t[4..] == body
  {
    "CON " + body
  }

  /** A screen that closes the dialog. */
  function End(body: string): (t: string)
    ensures IsScreen(t) && t[..4] == "END " && t[4..] == body
  {
    "END " + body
  }

  const MAIN_OPTIONS := "1. Register as a Worker\n2. View Available Job Matches\n3. Update Profile"
  const UPDATE_OPTIONS := "1. Skill\n2. Location\n3. Back to Main Menu"
  const LIST_HEADER := "Your available job matches:\n\n"
  const LIST_FOOTER := "Dial *384*15667# and select option 2 to view again."

  /** The text the gateway receives for each screen: `END ` before the final
      screens, `CON ` before the others. */
  function Text(s: Screen): (t: string)
    ensures IsScreen(t)
    ensures t[..4] == "END " <==> Final(s)
  {
    if Final(s) then End(Body(s)) else Con(Body(s))
  }

  /** The screen text after its `CON `/`END ` prefix. */
  function Body(s: Screen): string {
    match s
    case Welcome => "Welcome to Yaya - Construction Jobs\nChoose an option:\n" + MAIN_OPTIONS
    case InvalidOption => "Invalid option. Please choose:\n" + MAIN_OPTIONS
    case EnterName => "Enter your full name:"
    case NotRegistered => "You are not registered yet. Please register first."
    case NoMatches => "No job matches found. We'll notify you when new matching jobs are available."
    case JobOpportunity(j) => JobDetail(j)
    case MatchList(recent) => LIST_HEADER + Entries(recent) + LIST_FOOTER
    case UpdateMenu => "Update Profile\nWhat would you like to update?\n" + UPDATE_OPTIONS
    case InvalidUpdateOption => "Invalid option. Please choose:\n" + UPDATE_OPTIONS
    case SkillMenu => "Select your skill:\n" + NumberedList(SKILLS)
    case InvalidSkillChoice => "Invalid selection. Please select a skill:\n" + NumberedList(SKILLS)
    case LocationMenu => "Select your location:\n" + NumberedList(LOCATIONS)
    case InvalidLocationChoice => "Invalid selection. Please select a location:\n" + NumberedList(LOCATIONS)
    case NewSkillMenu => "Select your new skill:\n" + NumberedList(SKILLS)
    case NewLocationMenu => "Select your new location:\n" + NumberedList(LOCATIONS)
    case AlreadyRegistered => "You are already registered."
    case RegistrationDone(name, phone, skill, location) =>
      "Registration successful!\n\nYour profile:\nName: " + name + "\nPhone: " + phone
      + "\nSkill: " + skill + "\nLocation: " + location
      + "\n\nYou will receive SMS notifications when matching jobs are posted. Dial *384*15667# to check your job matches at any time."
    case SkillChanged(skill) =>
      "Your skill has been updated to: " + skill + "\n\nYou will now receive job matches for " + skill + " jobs."
    case SkillUpdateFailed => "Failed to update your skill. Please try again later."
    case LocationChanged(location) =>
      "Your location has been updated to: " + location
      + "\n\nYou will now receive job matches for jobs in " + location + "."
    case LocationUpdateFailed => "Failed to update your location. Please try again later."
    case ErrorScreen => "An error occurred. Please try again later."
  }

  // ---------------------------------------------------------------------
  // Input decoding

  /** The final `*`-separated segment of the history. */
  function LastInput(text: string): string {
    Last(Split(text, '*'))
  }

  /** `parseInt(input) - 1` when it indexes a list of `count` entries. */
  function Choice(input: string, count: nat): (r: Option<nat>)
    ensures r.Some? ==> r.value < count
  {
    match ParseInt(input)
    case None => None
    case Some(v) => if 1 <= v <= count then Some(v - 1) else None
  }

  /** An entry is selected by typing its number, also after leading white
      space or a `+` sign, and with anything after the digits that does not
      start with another digit. */
  lemma ChoiceSelectsTypedEntry(k: nat, count: nat, w: string, sign: string, rest: string)
    requires k < count
    requires forall i :: 0 <= i < |w| ==> IsWhite(w[i])
    requires sign == "" || sign == "+"
    requires rest == [] || !('0' <= rest[0] <= '9')
    ensures Choice(w + sign + NatToString(k + 1) + rest, count) == Some(k)
  {
    ParseIntOfPadded(w, sign, k + 1, rest);
  }

  /** Text that does not start with a digit, a sign or white space selects nothing. */
  lemma ChoiceRejectsWords(input: string, count: nat)
    requires input != [] && !IsWhite(input[0]) && input[0] != '-' && input[0] != '+'
    requires !('0' <= input[0] <= '9')
    ensures Choice(input, count).None?
  {
    TrimStartKeeps(input);
    assert !StartsHex(input);
    assert DigitValue(input[0], 10).None?;
  }

  /** The last input and the final segment: it has no `*`, it ends the
      history, and it is the whole history when the history has no `*`. */
  lemma LastInputIsFinalSegment(text: string)
    ensures var l := LastInput(text);
      && '*' !in l && |l| <= |text| && l == text[|text| - |l|..]
      && (|l| < |text| ==> text[|text| - |l| - 1] == '*')
      && ('*' !in text ==> l == text)
  {
    LastPartIsSuffix(text, '*');
    if '*' !in text {
      SplitWithoutSeparator(text, '*');
    }
  }

  // ---------------------------------------------------------------------
  // Job screens

  function RateText(rate: int): string {
    if rate == 0 then "Rate not specified" else "KSh " + IntToString(rate) + "/day"
  }

  function DurationText(duration: string): string {
    if duration == "" then "Not specified" else duration
  }

  function DetailsText(notes: Option<string>): string {
    match notes
    case Some(n) => if n == "" then "" else "\nDetails: " + n
    case None => ""
  }

  /** The body of the screen for a single matching job. */
  function JobDetail(j: Job): string {
    "JOB OPPORTUNITY\n\nSkill: " + j.skillRequired + "\nLocation: " + j.location
    + "\nPayment: " + RateText(j.dailyRate) + "\nDuration: " + DurationText(j.projectDuration)
    + DetailsText(j.additionalNotes) + "\nPosted: " + j.createdAt
    + "\n\nTo apply, call: " + j.contactPhone + "\n\nReply YES to +254700000000 if interested."
  }

  /** The active jobs for the worker's skill and location, in table order. */
  function JobsFor(js: seq<Job>, w: Worker): (r: seq<Job>)
    ensures forall j :: j in r <==> j in js && j.skillRequired == w.skill && j.location == w.location && j.isActive
  {
    Filter(js, (j: Job) => j.skillRequired == w.skill && j.location == w.location && j.isActive)
  }

  function Reverse<T>(s: seq<T>): (r: seq<T>)
    ensures |r| == |s| && forall i :: 0 <= i < |s| ==> r[i] == s[|s| - 1 - i]
  {
    if s == [] then [] else Reverse(s[1..]) + [s[0]]
  }

  /** `slice(-3).reverse()`: the newest three, newest first. */
  function Recent(js: seq<Job>): (r: seq<Job>)
    ensures |r| == if |js| < 3 then |js| else 3
    ensures forall i :: 0 <= i < |r| ==> r[i] == js[|js| - 1 - i]
  {
    Reverse(if |js| < 3 then js else js[|js| - 3..])
  }

  /** The four lines of the `i`-th (zero-based) entry of the job list. */
  function Entry(i: nat, j: Job): string {
    NatToString(i + 1) + ". " + j.skillRequired + " in " + j.location + "\n"
    + "   Pay: KSh " + IntToString(j.dailyRate) + "/day, " + j.projectDuration + "\n"
    + "   Call: " + j.contactPhone + "\n"
    + "   Posted: " + j.createdAt + "\n\n"
  }

  /** The entries of a list, numbered from 1. */
  function Entries(js: seq<Job>): string
    decreases |js|
  {
    if js == [] then "" else Entries(js[..|js| - 1]) + Entry(|js| - 1, js[|js| - 1])
  }

  /** The answer to "view job matches" for the matching jobs. */
  function JobsScreen(matching: seq<Job>): Screen {
    if |matching| == 0 then NoMatches
    else if |matching| == 1 then JobOpportunity(matching[0])
    else MatchList(Recent(matching))
  }

  /** The list opens with the newest job as entry 1. */
  lemma {:induction false} EntriesStartWithFirst(js: seq<Job>)
    requires |js| >= 1
    ensures StartsWith(Entries(js), Entry(0, js[0]))
  {
    var front := js[..|js| - 1];
    var e := Entry(0, js[0]);
    assert Entries(js) == Entries(front) + Entry(|js| - 1, js[|js| - 1]);
    if |js| == 1 {
      assert front == [];
      assert Entries(js) == e;
      assert Entries(js)[..|e|] == e;
    } else {
      EntriesStartWithFirst(front);
      assert front[0] == js[0];
      StartsWithAppend(Entries(front), Entry(|js| - 1, js[|js| - 1]), e);
    }
  }

  lemma EndStartsWith(h: string, p: string, s: string, t: string)
    requires StartsWith(s, p)
    ensures StartsWith(End(h + s + t), End(h + p))
  {
    assert End(h + s + t) == End(h + p) + s[|p|..] + t;
  }

  /** The job list opens with the newest job as entry 1. */
  lemma MatchListOpensWithFirst(recent: seq<Job>)
    requires |recent| >= 1
    ensures StartsWith(Text(MatchList(recent)), End(LIST_HEADER + Entry(0, recent[0])))
  {
    EntriesStartWithFirst(recent);
    EndStartsWith(LIST_HEADER, Entry(0, recent[0]), Entries(recent), LIST_FOOTER);
  }

  /** Viewing matches closes the dialog; several matches list the newest
      three, newest first, the newest numbered 1. */
  lemma JobsScreenSpec(matching: seq<Job>)
    ensures Final(JobsScreen(matching))
    ensures |matching| == 0 ==> JobsScreen(matching) == NoMatches
    ensures |matching| == 1 ==> JobsScreen(matching) == JobOpportunity(matching[0])
    ensures |matching| > 1 ==> var r := Recent(matching);
      && JobsScreen(matching) == MatchList(r)
      && |r| == (if |matching| < 3 then |matching| else 3)
      && r[0] == matching[|matching| - 1]
      && StartsWith(Text(JobsScreen(matching)), End(LIST_HEADER + Entry(0, r[0])))
  {
    if |matching| > 1 {
      MatchListOpensWithFirst(Recent(matching));
    }
  }

  // ---------------------------------------------------------------------
  // The transition function

  /** Writes the session's next step and data, then answers `reply`; a
      failed write is an exception inside the handler's `try`. */
  function Persist(db: Db, sid: string, next: UssdState, data: SessionData, reply: Screen)
    : (out: (Result<Screen>, Db))
  {
    var (u, db1) := SessionUpdated(db, sid, StepName(next), data);
    (if u.Err? then Err(u.message) else Ok(reply), db1)
  }

  function MainMenuStep(db: Db, sid: string, phone: string, text: string, data: SessionData)
    : (Result<Screen>, Db)
  {
    if text == "1" then Persist(db, sid, RegisterName, data, EnterName)
    else if text == "2" then
      match WorkerByPhone(db.workers, phone)
      case None => (Ok(NotRegistered), db)
      case Some(w) => (Ok(JobsScreen(JobsFor(db.jobs, w))), db)
    else if text == "3" then
      match WorkerByPhone(db.workers, phone)
      case None => (Ok(NotRegistered), db)
      case Some(w) => Persist(db, sid, UpdateProfileMenu, SessionData(None, None, Some(w.id)), UpdateMenu)
    else (Ok(InvalidOption), db)
  }

  /** The name is the second segment when there is one, else the last input. */
  function NameFrom(text: string): string {
    var parts := Split(text, '*');
    if |parts| > 1 then parts[1] else Last(parts)
  }

  function RegisterNameStep(db: Db, sid: string, text: string, data: SessionData): (Result<Screen>, Db) {
    Persist(db, sid, RegisterSkill, data.(name := Some(NameFrom(text))), SkillMenu)
  }

  function RegisterSkillStep(db: Db, sid: string, input: string, data: SessionData): (Result<Screen>, Db) {
    match Choice(input, |SKILLS|)
    case None => (Ok(InvalidSkillChoice), db)
    case Some(k) => Persist(db, sid, SelectLocation, data.(skill := Some(SKILLS[k])), LocationMenu)
  }

  /** The insert a complete registration makes. */
  function Applicant(name: string, phone: string, skill: string, location: string): NewWorker {
    NewWorker(name, phone, skill, location, Some(true))
  }

  const NOT_NULL_VIOLATION := "null value in column violates not-null constraint"

  function SelectLocationStep(db: Db, sid: string, phone: string, input: string, data: SessionData, now: Date)
    : (Result<Screen>, Db)
  {
    match Choice(input, |LOCATIONS|)
    case None => (Ok(InvalidLocationChoice), db)
    case Some(k) =>
      var location := LOCATIONS[k];
      if WorkerByPhone(db.workers, phone).Some? then (Ok(AlreadyRegistered), db)
      else
        match (data.name, data.skill)
        case (Some(name), Some(skill)) =>
          var (c, db1) := AddWorker(db, Applicant(name, phone, skill, location), now);
          (match c
           case Err(e) => (Err(e), db1)
           case Ok(_) => Persist(db1, sid, MainMenu, NoData, RegistrationDone(name, phone, skill, location)))
        case _ => (Err(NOT_NULL_VIOLATION), db)
  }

  function UpdateProfileMenuStep(db: Db, sid: string, input: string, data: SessionData): (Result<Screen>, Db) {
    if input == "1" then Persist(db, sid, UpdateSkill, data, NewSkillMenu)
    else if input == "2" then Persist(db, sid, UpdateLocation, data, NewLocationMenu)
    else if input == "3" then Persist(db, sid, MainMenu, NoData, Welcome)
    else (Ok(InvalidUpdateOption), db)
  }

  const MISSING_WORKER_ID := "Worker with ID undefined not found"

  /** The inner `try`: the worker update and the session reset; either
      failing gives `failed`. */
  function ApplyUpdate(db: Db, sid: string, updated: (Result<Worker>, Db), done: Screen, failed: Screen)
    : (Result<Screen>, Db)
  {
    var (w, db1) := updated;
    if w.Err? then (Ok(failed), db1)
    else
      var (u, db2) := SessionUpdated(db1, sid, StepName(MainMenu), NoData);
      (Ok(if u.Err? then failed else done), db2)
  }

  function UpdateSkillStep(db: Db, sid: string, input: string, data: SessionData): (Result<Screen>, Db) {
    match Choice(input, |SKILLS|)
    case None => (Ok(InvalidSkillChoice), db)
    case Some(k) =>
      var skill := SKILLS[k];
      var updated := match data.workerId
        case None => (Err(MISSING_WORKER_ID), db)
        case Some(id) => SkillUpdated(db, id, skill);
      ApplyUpdate(db, sid, updated, SkillChanged(skill), SkillUpdateFailed)
  }

  function UpdateLocationStep(db: Db, sid: string, input: string, data: SessionData): (Result<Screen>, Db) {
    match Choice(input, |LOCATIONS|)
    case None => (Ok(InvalidLocationChoice), db)
    case Some(k) =>
      var location := LOCATIONS[k];
      var updated := match data.workerId
        case None => (Err(MISSING_WORKER_ID), db)
        case Some(id) => LocationUpdated(db, id, location);
      ApplyUpdate(db, sid, updated, LocationChanged(location), LocationUpdateFailed)
  }

  /** The step a stored step name selects, when the handler has a branch for it. */
  function Handled(step: string): (r: Option<UssdState>)
    ensures r.Some? ==> r.value != ViewJobs && StepName(r.value) == step
    ensures r.None? ==> forall st :: st != ViewJobs ==> StepName(st) != step
  {
    if step == StepName(MainMenu) then Some(MainMenu)
    else if step == StepName(RegisterName) then Some(RegisterName)
    else if step == StepName(RegisterSkill) then Some(RegisterSkill)
    else if step == StepName(SelectLocation) then Some(SelectLocation)
    else if step == StepName(UpdateProfileMenu) then Some(UpdateProfileMenu)
    else if step == StepName(UpdateSkill) then Some(UpdateSkill)
    else if step == StepName(UpdateLocation) then Some(UpdateLocation)
    else None
  }

  /** The body of the `try`, for a session at a given step. */
  function Step(db: Db, sid: string, phone: string, text: string, session: UssdSession, now: Date)
    : (Result<Screen>, Db)
  {
    var input := LastInput(text);
    var data := session.data;
    match Handled(session.step)
    case Some(MainMenu) => MainMenuStep(db, sid, phone, text, data)
    case Some(RegisterName) => RegisterNameStep(db, sid, text, data)
    case Some(RegisterSkill) => RegisterSkillStep(db, sid, input, data)
    case Some(SelectLocation) => SelectLocationStep(db, sid, phone, input, data, now)
    case Some(UpdateProfileMenu) => UpdateProfileMenuStep(db, sid, input, data)
    case Some(UpdateSkill) => UpdateSkillStep(db, sid, input, data)
    case Some(UpdateLocation) => UpdateLocationStep(db, sid, input, data)
    case _ => Persist(db, sid, MainMenu, NoData, Welcome)
  }

  /** The session for the request: the stored one, or a new one at the main menu. */
  function OpenSession(db: Db, sid: string, phone: string, now: Date): (out: (UssdSession, Db))
    ensures out.0.sessionId == sid
    ensures SessionById(out.1.sessions, sid) == Some(out.0)
    ensures SessionById(db.sessions, sid).Some? ==> out == (SessionById(db.sessions, sid).value, db)
    ensures SessionById(db.sessions, sid).None? ==>
      && out.0 == UssdSession(db.nextSessionId, sid, phone, StepName(MainMenu), NoData, now)
      && out.1 == AddSession(db, sid, phone, StepName(MainMenu), NoData, now).1
  {
    match SessionById(db.sessions, sid)
    case Some(s) => (s, db)
    case None =>
      var (c, db1) := AddSession(db, sid, phone, StepName(MainMenu), NoData, now);
      FoundAfterAppend(db.sessions, c.value, sid);
      (c.value, db1)
  }

  /** The outer `catch`: an exception inside the `try` becomes the error screen. */
  function Finish(step: (Result<Screen>, Db)): (Outcome, Db) {
    (Answer(if step.0.Err? then ErrorScreen else step.0.value), step.1)
  }

  /** One request: `(answer, new database)`. */
  function Handle(db: Db, sid: string, phone: string, text: string, now: Date): (Outcome, Db) {
    if text == "" then
      var (c, db1) := AddSession(db, sid, phone, StepName(MainMenu), NoData, now);
      (if c.Err? then Thrown(c.message) else Answer(Welcome), db1)
    else
      var (session, db1) := OpenSession(db, sid, phone, now);
      Finish(Step(db1, sid, phone, text, session, now))
  }

  // ---------------------------------------------------------------------
  // The handler, step by step on a store

  /** A step's result as the handler sees it: the screen text, or the
      exception raised inside the `try`. */
  function Shown(res: Result<Screen>): Result<string> {
    match res
    case Ok(s) => Ok(Text(s))
    case Err(e) => Err(e)
  }

  /** What the handler returns: the screen text, or the exception it lets escape. */
  function Rendered(o: Outcome): Result<string> {
    match o
    case Answer(s) => Ok(Text(s))
    case Thrown(e) => Err(e)
  }

  /** The list of several matching jobs, built entry by entry. */
  method FormatJobList(recent: seq<Job>) returns (text: string)
    ensures text == Text(MatchList(recent))
  {
    text := "END " + LIST_HEADER;
    ghost var head := text;
    var i := 0;
    while i < |recent|
      invariant 0 <= i <= |recent|
      invariant text == head + Entries(recent[..i])
    {
      EntriesSnoc(recent, i);
      AppendAssoc(head, Entries(recent[..i]), Entry(i, recent[i]));
      text := text + Entry(i, recent[i]);
      i := i + 1;
    }
    assert recent[..i] == recent;
    text := text + LIST_FOOTER;
    MatchListText(recent);
  }

  lemma EntriesSnoc(js: seq<Job>, i: nat)
    requires i < |js|
    ensures Entries(js[..i + 1]) == Entries(js[..i]) + Entry(i, js[i])
  {
    assert js[..i + 1][..i] == js[..i];
  }

  lemma MatchListText(recent: seq<Job>)
    ensures Text(MatchList(recent)) == "END " + LIST_HEADER + Entries(recent) + LIST_FOOTER
  {
    var e := Entries(recent);
    var b := LIST_HEADER + e + LIST_FOOTER;
    assert Final(MatchList(recent));
    assert Body(MatchList(recent)) == b;
    assert Text(MatchList(recent)) == "END " + b;
    AppendAssoc("END ", LIST_HEADER + e, LIST_FOOTER);
    AppendAssoc("END ", LIST_HEADER, e);
  }

  /** The USSD service over a store: each request reads and writes the
      session and worker tables in the order the handler does. */
  class UssdService {
    const store: Store

    constructor(store: Store)
      ensures this.store == store
    {
      this.store := store;
    }

    method PersistStep(sid: string, next: UssdState, data: SessionData, reply: Screen) returns (r: Result<string>)
      modifies store
      ensures (r, store.State()) == (Shown(Persist(old(store.State()), sid, next, data, reply).0),
                                     Persist(old(store.State()), sid, next, data, reply).1)
    {
      var u := store.UpdateUssdSession(sid, StepName(next), data);
      if u.Err? {
        r := Err(u.message);
      } else {
        r := Ok(Text(reply));
      }
    }

    method OnMainMenu(sid: string, phone: string, text: string, data: SessionData) returns (r: Result<string>)
      modifies store
      ensures (r, store.State()) == (Shown(MainMenuStep(old(store.State()), sid, phone, text, data).0),
                                     MainMenuStep(old(store.State()), sid, phone, text, data).1)
    {
      if text == "1" {
        r := PersistStep(sid, RegisterName, data, EnterName);
      } else if text == "2" || text == "3" {
        var worker := store.GetWorkerByPhone(phone);
        if worker.None? {
          r := Ok(Text(NotRegistered));
        } else if text == "2" {
          var matching := JobsFor(store.jobs, worker.value);
          if |matching| == 0 {
            r := Ok(Text(NoMatches));
          } else if |matching| == 1 {
            r := Ok(Text(JobOpportunity(matching[0])));
          } else {
            var list := FormatJobList(Recent(matching));
            r := Ok(list);
          }
        } else {
          r := PersistStep(sid, UpdateProfileMenu, SessionData(None, None, Some(worker.value.id)), UpdateMenu);
        }
      } else {
        r := Ok(Text(InvalidOption));
      }
    }

    method OnRegisterName(sid: string, text: string, data: SessionData) returns (r: Result<string>)
      modifies store
      ensures (r, store.State()) == (Shown(RegisterNameStep(old(store.State()), sid, text, data).0),
                                     RegisterNameStep(old(store.State()), sid, text, data).1)
    {
      var parts := Split(text, '*');
      var name := if |parts| > 1 then parts[1] else Last(parts);
      var d := data.(name := Some(name));
      r := PersistStep(sid, RegisterSkill, d, SkillMenu);
    }

    method OnRegisterSkill(sid: string, input: string, data: SessionData) returns (r: Result<string>)
      modifies store
      ensures (r, store.State()) == (Shown(RegisterSkillStep(old(store.State()), sid, input, data).0),
                                     RegisterSkillStep(old(store.State()), sid, input, data).1)
    {
      var choice := Choice(input, |SKILLS|);
      if choice.None? {
        return Ok(Text(InvalidSkillChoice));
      }
      var d := data.(skill := Some(SKILLS[choice.value]));
      r := PersistStep(sid, SelectLocation, d, LocationMenu);
    }

    method OnSelectLocation(sid: string, phone: string, input: string, data: SessionData, now: Date)
      returns (r: Result<string>)
      modifies store
      ensures (r, store.State()) == (Shown(SelectLocationStep(old(store.State()), sid, phone, input, data, now).0),
                                     SelectLocationStep(old(store.State()), sid, phone, input, data, now).1)
    {
      var choice := Choice(input, |LOCATIONS|);
      if choice.None? {
        return Ok(Text(InvalidLocationChoice));
      }
      var location := LOCATIONS[choice.value];
      var existing := store.GetWorkerByPhone(phone);
      if existing.Some? {
        return Ok(Text(AlreadyRegistered));
      }
      if data.name.None? || data.skill.None? {
        return Err(NOT_NULL_VIOLATION);
      }
      var name, skill := data.name.value, data.skill.value;
      var created := store.CreateWorker(Applicant(name, phone, skill, location), now);
      r := PersistStep(sid, MainMenu, NoData, RegistrationDone(name, phone, skill, location));
    }

    method OnUpdateProfileMenu(sid: string, input: string, data: SessionData) returns (r: Result<string>)
      modifies store
      ensures (r, store.State()) == (Shown(UpdateProfileMenuStep(old(store.State()), sid, input, data).0),
                                     UpdateProfileMenuStep(old(store.State()), sid, input, data).1)
    {
      if input == "1" {
        r := PersistStep(sid, UpdateSkill, data, NewSkillMenu);
      } else if input == "2" {
        r := PersistStep(sid, UpdateLocation, data, NewLocationMenu);
      } else if input == "3" {
        r := PersistStep(sid, MainMenu, NoData, Welcome);
      } else {
        r := Ok(Text(InvalidUpdateOption));
      }
    }

    /** The inner `try` of the two update steps. */
    method Reset(sid: string, updated: Result<Worker>, done: Screen, failed: Screen) returns (r: Result<string>)
      modifies store
      ensures (r, store.State()) == (Shown(ApplyUpdate(old(store.State()), sid, (updated, old(store.State())), done, failed).0),
                                     ApplyUpdate(old(store.State()), sid, (updated, old(store.State())), done, failed).1)
    {
      if updated.Err? {
        return Ok(Text(failed));
      }
      var u := store.UpdateUssdSession(sid, StepName(MainMenu), NoData);
      r := Ok(Text(if u.Err? then failed else done));
    }

    method OnUpdateSkill(sid: string, input: string, data: SessionData) returns (r: Result<string>)
      modifies store
      ensures (r, store.State()) == (Shown(UpdateSkillStep(old(store.State()), sid, input, data).0),
                                     UpdateSkillStep(old(store.State()), sid, input, data).1)
    {
      var choice := Choice(input, |SKILLS|);
      if choice.None? {
        return Ok(Text(InvalidSkillChoice));
      }
      var skill := SKILLS[choice.value];
      var updated: Result<Worker>;
      if data.workerId.None? {
        updated := Err(MISSING_WORKER_ID);
      } else {
        updated := store.UpdateWorkerSkill(data.workerId.value, skill);
      }
      r := Reset(sid, updated, SkillChanged(skill), SkillUpdateFailed);
    }

    method OnUpdateLocation(sid: string, input: string, data: SessionData) returns (r: Result<string>)
      modifies store
      ensures (r, store.State()) == (Shown(UpdateLocationStep(old(store.State()), sid, input, data).0),
                                     UpdateLocationStep(old(store.State()), sid, input, data).1)
    {
      var choice := Choice(input, |LOCATIONS|);
      if choice.None? {
        return Ok(Text(InvalidLocationChoice));
      }
      var location := LOCATIONS[choice.value];
      var updated: Result<Worker>;
      if data.workerId.None? {
        updated := Err(MISSING_WORKER_ID);
      } else {
        updated := store.UpdateWorkerLocation(data.workerId.value, location);
      }
      r := Reset(sid, updated, LocationChanged(location), LocationUpdateFailed);
    }

    /** The stored session, or a new one at the main menu. */
    method OpenUssdSession(sid: string, phone: string, now: Date) returns (session: UssdSession)
      modifies store
      ensures (session, store.State()) == OpenSession(old(store.State()), sid, phone, now)
    {
      var found := store.GetUssdSession(sid);
      if found.Some? {
        session := found.value;
      } else {
        var created := store.CreateUssdSession(sid, phone, StepName(MainMenu), NoData, now);
        session := created.value;
      }
    }

    /** The body of the `try`: the branch the stored step selects. */
    method Dispatch(sid: string, phone: string, text: string, session: UssdSession, now: Date)
      returns (r: Result<string>)
      modifies store
      ensures (r, store.State()) == (Shown(Step(old(store.State()), sid, phone, text, session, now).0),
                                     Step(old(store.State()), sid, phone, text, session, now).1)
    {
      var data := session.data;
      var input := LastInput(text);
      match Handled(session.step)
      case Some(MainMenu) =>
        r := OnMainMenu(sid, phone, text, data);
      case Some(RegisterName) =>
        r := OnRegisterName(sid, text, data);
      case Some(RegisterSkill) =>
        r := OnRegisterSkill(sid, input, data);
      case Some(SelectLocation) =>
        r := OnSelectLocation(sid, phone, input, data, now);
      case Some(UpdateProfileMenu) =>
        r := OnUpdateProfileMenu(sid, input, data);
      case Some(UpdateSkill) =>
        r := OnUpdateSkill(sid, input, data);
      case Some(UpdateLocation) =>
        r := OnUpdateLocation(sid, input, data);
      case _ =>
        r := PersistStep(sid, MainMenu, NoData, Welcome);
    }

    /** One request: the text sent back, or the exception that escapes. */
    method HandleUssdRequest(sid: string, phone: string, text: string, now: Date) returns (r: Result<string>)
      modifies store
      ensures (r, store.State()) == (Rendered(Handle(old(store.State()), sid, phone, text, now).0),
                                     Handle(old(store.State()), sid, phone, text, now).1)
    {
      if text == "" {
        var c := store.CreateUssdSession(sid, phone, StepName(MainMenu), NoData, now);
        if c.Err? {
          return Err(c.message);
        }
        return Ok(Text(Welcome));
      }
      var session := OpenUssdSession(sid, phone, now);
      var result := Dispatch(sid, phone, text, session, now);
      r := if result.Err? then Ok(Text(ErrorScreen)) else result;
    }
  }
}
