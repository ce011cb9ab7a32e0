/** What one request of the USSD dialog does, step by step, and what a whole
    registration dialog does. */
module DialogLaws {
  import opened Wrappers
  import opened Schema
  import opened Storage
  import opened JsText
  import opened Dialog

  /** The session stored for `sid` is at step `st`. */
  predicate AtStep(db: Db, sid: string, st: UssdState) {
    SessionById(db.sessions, sid).Some? && SessionById(db.sessions, sid).value.step == StepName(st)
  }

  /** The session for `sid` is stored, at step `st` with `data`. */
  predicate StoredAt(db: Db, sid: string, st: UssdState, data: SessionData) {
    AtStep(db, sid, st) && SessionById(db.sessions, sid).value.data == data
  }

  /** The database after only the session for `sid` moved to `st` with `data`. */
  function Moved(db: Db, sid: string, st: UssdState, data: SessionData): Db {
    SessionUpdated(db, sid, StepName(st), data).1
  }

  lemma MovedSpec(db: Db, sid: string, st: UssdState, data: SessionData)
    requires SessionById(db.sessions, sid).Some?
    ensures StoredAt(Moved(db, sid, st, data), sid, st, data)
    ensures Moved(db, sid, st, data) == db.(sessions := Moved(db, sid, st, data).sessions)
  {
    FoundAfterSessionUpdate(db, sid, StepName(st), data);
  }

  /** A stored session at a step the handler knows selects that step's branch. */
  lemma HandledAt(db: Db, sid: string, st: UssdState)
    requires AtStep(db, sid, st) && st != ViewJobs
    ensures Handled(SessionById(db.sessions, sid).value.step) == Some(st)
  {
    var r := Handled(SessionById(db.sessions, sid).value.step);
    if r.Some? {
      StepNamesDistinct(r.value, st);
    }
  }

  /** Text for a stored session runs that session's step. */
  lemma HandleStored(db: Db, sid: string, phone: string, text: string, now: Date)
    requires text != "" && SessionById(db.sessions, sid).Some?
    ensures Handle(db, sid, phone, text, now)
         == Finish(Step(db, sid, phone, text, SessionById(db.sessions, sid).value, now))
  {
  }

  /** Text for a session at the main menu runs that step alone. */
  lemma HandleMainMenu(db: Db, sid: string, phone: string, text: string, now: Date)
    requires text != "" && AtStep(db, sid, MainMenu)
    ensures Handle(db, sid, phone, text, now)
         == Finish(MainMenuStep(db, sid, phone, text, SessionById(db.sessions, sid).value.data))
  {
    HandleStored(db, sid, phone, text, now);
    HandledAt(db, sid, MainMenu);
    StepAtMainMenu(db, sid, phone, text, SessionById(db.sessions, sid).value, now);
  }

  lemma StepAtMainMenu(db: Db, sid: string, phone: string, text: string, s: UssdSession, now: Date)
    requires Handled(s.step) == Some(MainMenu)
    ensures Step(db, sid, phone, text, s, now) == MainMenuStep(db, sid, phone, text, s.data)
  {
  }

  /** Text for a session at the name step runs that step alone. */
  lemma HandleRegisterName(db: Db, sid: string, phone: string, text: string, now: Date)
    requires text != "" && AtStep(db, sid, RegisterName)
    ensures Handle(db, sid, phone, text, now)
         == Finish(RegisterNameStep(db, sid, text, SessionById(db.sessions, sid).value.data))
  {
    HandleStored(db, sid, phone, text, now);
    HandledAt(db, sid, RegisterName);
    StepAtRegisterName(db, sid, phone, text, SessionById(db.sessions, sid).value, now);
  }

  lemma StepAtRegisterName(db: Db, sid: string, phone: string, text: string, s: UssdSession, now: Date)
    requires Handled(s.step) == Some(RegisterName)
    ensures Step(db, sid, phone, text, s, now) == RegisterNameStep(db, sid, text, s.data)
  {
  }

  /** Text for a session at the skill step runs that step alone. */
  lemma HandleRegisterSkill(db: Db, sid: string, phone: string, text: string, now: Date)
    requires text != "" && AtStep(db, sid, RegisterSkill)
    ensures Handle(db, sid, phone, text, now)
         == Finish(RegisterSkillStep(db, sid, LastInput(text), SessionById(db.sessions, sid).value.data))
  {
    HandleStored(db, sid, phone, text, now);
    HandledAt(db, sid, RegisterSkill);
    StepAtRegisterSkill(db, sid, phone, text, SessionById(db.sessions, sid).value, now);
  }

  lemma StepAtRegisterSkill(db: Db, sid: string, phone: string, text: string, s: UssdSession, now: Date)
    requires Handled(s.step) == Some(RegisterSkill)
    ensures Step(db, sid, phone, text, s, now) == RegisterSkillStep(db, sid, LastInput(text), s.data)
  {
  }

  /** Text for a session at the location step runs that step alone. */
  lemma HandleSelectLocation(db: Db, sid: string, phone: string, text: string, now: Date)
    requires text != "" && AtStep(db, sid, SelectLocation)
    ensures Handle(db, sid, phone, text, now)
         == Finish(SelectLocationStep(db, sid, phone, LastInput(text), SessionById(db.sessions, sid).value.data, now))
  {
    HandleStored(db, sid, phone, text, now);
    HandledAt(db, sid, SelectLocation);
    StepAtSelectLocation(db, sid, phone, text, SessionById(db.sessions, sid).value, now);
  }

  lemma StepAtSelectLocation(db: Db, sid: string, phone: string, text: string, s: UssdSession, now: Date)
    requires Handled(s.step) == Some(SelectLocation)
    ensures Step(db, sid, phone, text, s, now) == SelectLocationStep(db, sid, phone, LastInput(text), s.data, now)
  {
  }

  /** Text for a session at the update-profile menu runs that step alone. */
  lemma HandleUpdateProfileMenu(db: Db, sid: string, phone: string, text: string, now: Date)
    requires text != "" && AtStep(db, sid, UpdateProfileMenu)
    ensures Handle(db, sid, phone, text, now)
         == Finish(UpdateProfileMenuStep(db, sid, LastInput(text), SessionById(db.sessions, sid).value.data))
  {
    HandleStored(db, sid, phone, text, now);
    HandledAt(db, sid, UpdateProfileMenu);
    StepAtUpdateProfileMenu(db, sid, phone, text, SessionById(db.sessions, sid).value, now);
  }

  lemma StepAtUpdateProfileMenu(db: Db, sid: string, phone: string, text: string, s: UssdSession, now: Date)
    requires Handled(s.step) == Some(UpdateProfileMenu)
    ensures Step(db, sid, phone, text, s, now) == UpdateProfileMenuStep(db, sid, LastInput(text), s.data)
  {
  }

  /** Text for a session at the new-skill step runs that step alone. */
  lemma HandleUpdateSkill(db: Db, sid: string, phone: string, text: string, now: Date)
    requires text != "" && AtStep(db, sid, UpdateSkill)
    ensures Handle(db, sid, phone, text, now)
         == Finish(UpdateSkillStep(db, sid, LastInput(text), SessionById(db.sessions, sid).value.data))
  {
    HandleStored(db, sid, phone, text, now);
    HandledAt(db, sid, UpdateSkill);
    StepAtUpdateSkill(db, sid, phone, text, SessionById(db.sessions, sid).value, now);
  }

  lemma StepAtUpdateSkill(db: Db, sid: string, phone: string, text: string, s: UssdSession, now: Date)
    requires Handled(s.step) == Some(UpdateSkill)
    ensures Step(db, sid, phone, text, s, now) == UpdateSkillStep(db, sid, LastInput(text), s.data)
  {
  }

  /** Text for a session at the new-location step runs that step alone. */
  lemma HandleUpdateLocation(db: Db, sid: string, phone: string, text: string, now: Date)
    requires text != "" && AtStep(db, sid, UpdateLocation)
    ensures Handle(db, sid, phone, text, now)
         == Finish(UpdateLocationStep(db, sid, LastInput(text), SessionById(db.sessions, sid).value.data))
  {
    HandleStored(db, sid, phone, text, now);
    HandledAt(db, sid, UpdateLocation);
    StepAtUpdateLocation(db, sid, phone, text, SessionById(db.sessions, sid).value, now);
  }

  lemma StepAtUpdateLocation(db: Db, sid: string, phone: string, text: string, s: UssdSession, now: Date)
    requires Handled(s.step) == Some(UpdateLocation)
    ensures Step(db, sid, phone, text, s, now) == UpdateLocationStep(db, sid, LastInput(text), s.data)
  {
  }

  // ---------------------------------------------------------------------
  // Opening a dialog

  /** A new dialog (empty text, no session yet) stores a main-menu session
      with empty data and shows the welcome menu. */
  lemma EmptyTextOpensDialog(db: Db, sid: string, phone: string, now: Date)
    requires SessionById(db.sessions, sid).None?
    ensures var row := UssdSession(db.nextSessionId, sid, phone, StepName(MainMenu), NoData, now);
      && Handle(db, sid, phone, "", now)
         == (Answer(Welcome), db.(sessions := db.sessions + [row], nextSessionId := db.nextSessionId + 1))
      && StoredAt(Handle(db, sid, phone, "", now).1, sid, MainMenu, NoData)
  {
    var row := UssdSession(db.nextSessionId, sid, phone, StepName(MainMenu), NoData, now);
    FoundAfterAppend(db.sessions, row, sid);
  }

  /** Empty text for a session that already exists: the insert before the
      `try` violates the unique session id, so the request throws and nothing
      is written, whatever step the session is at. */
  lemma EmptyTextOnOpenDialogThrows(db: Db, sid: string, phone: string, now: Date)
    requires SessionById(db.sessions, sid).Some?
    ensures Handle(db, sid, phone, "", now).0.Thrown?
    ensures Handle(db, sid, phone, "", now).1 == db
  {
    var s := SessionById(db.sessions, sid).value;
    assert exists i :: 0 <= i < |db.sessions| && db.sessions[i] == s && s.sessionId == sid;
  }

  /** Non-empty text for an unknown session is handled at the main menu of a
      freshly stored session. */
  lemma UnknownSessionStartsAtMainMenu(db: Db, sid: string, phone: string, text: string, now: Date)
    requires text != "" && SessionById(db.sessions, sid).None?
    ensures Handle(db, sid, phone, text, now)
         == Finish(MainMenuStep(AddSession(db, sid, phone, StepName(MainMenu), NoData, now).1, sid, phone, text, NoData))
  {
  }

  // ---------------------------------------------------------------------
  // Main menu

  /** The main menu compares the whole history: anything but exactly `1`,
      `2` or `3` (in particular any history with a `*`) re-prompts and writes
      nothing. */
  lemma MainMenuComparesWholeText(db: Db, sid: string, phone: string, text: string, now: Date)
    requires AtStep(db, sid, MainMenu)
    requires text != "" && text != "1" && text != "2" && text != "3"
    ensures Handle(db, sid, phone, text, now) == (Answer(InvalidOption), db)
  {
    HandleMainMenu(db, sid, phone, text, now);
  }

  lemma MainMenuRegister(db: Db, sid: string, phone: string, now: Date)
    requires SessionById(db.sessions, sid).Some? && AtStep(db, sid, MainMenu)
    ensures var data := SessionById(db.sessions, sid).value.data;
      && Handle(db, sid, phone, "1", now) == (Answer(EnterName), Moved(db, sid, RegisterName, data))
      && StoredAt(Handle(db, sid, phone, "1", now).1, sid, RegisterName, data)
  {
    HandleMainMenu(db, sid, phone, "1", now);
    MovedSpec(db, sid, RegisterName, SessionById(db.sessions, sid).value.data);
  }

  /** Options 2 and 3 need a registered phone; otherwise nothing is written. */
  lemma MainMenuNotRegistered(db: Db, sid: string, phone: string, text: string, now: Date)
    requires AtStep(db, sid, MainMenu) && (text == "2" || text == "3")
    requires WorkerByPhone(db.workers, phone).None?
    ensures Handle(db, sid, phone, text, now) == (Answer(NotRegistered), db)
  {
    HandleMainMenu(db, sid, phone, text, now);
  }

  /** Option 2 shows the active jobs for the worker's skill and location and writes nothing. */
  lemma MainMenuViewJobs(db: Db, sid: string, phone: string, now: Date)
    requires AtStep(db, sid, MainMenu) && WorkerByPhone(db.workers, phone).Some?
    ensures var w := WorkerByPhone(db.workers, phone).value;
      Handle(db, sid, phone, "2", now) == (Answer(JobsScreen(JobsFor(db.jobs, w))), db)
  {
    HandleMainMenu(db, sid, phone, "2", now);
  }

  /** Option 3 carries the worker's id into the update-profile menu. */
  lemma MainMenuUpdateProfile(db: Db, sid: string, phone: string, now: Date)
    requires AtStep(db, sid, MainMenu) && WorkerByPhone(db.workers, phone).Some?
    ensures var data := SessionData(None, None, Some(WorkerByPhone(db.workers, phone).value.id));
      && Handle(db, sid, phone, "3", now) == (Answer(UpdateMenu), Moved(db, sid, UpdateProfileMenu, data))
      && StoredAt(Handle(db, sid, phone, "3", now).1, sid, UpdateProfileMenu, data)
  {
    HandleMainMenu(db, sid, phone, "3", now);
    MovedSpec(db, sid, UpdateProfileMenu, SessionData(None, None, Some(WorkerByPhone(db.workers, phone).value.id)));
  }

  // ---------------------------------------------------------------------
  // Registration

  /** The name is the second segment of a history with several, else the
      whole (single-segment) text. */
  lemma {:induction false} NameFromHistory(first: string, name: string, text: string)
    requires '*' !in first && '*' !in name
    ensures NameFrom(first + "*" + name) == name
    ensures '*' !in text ==> NameFrom(text) == text
  {
    SplitWithoutSeparator(first, '*');
    SplitAppend(first, '*', name);
    assert first + "*" + name == first + ['*'] + name;
    if '*' !in text {
      SplitWithoutSeparator(text, '*');
    }
  }

  /** A name typed with a `*` in it keeps only what precedes its first `*`:
      the gateway's history splits there. */
  lemma NameCutAtStar(before: string, after: string)
    requires '*' !in before
    ensures NameFrom("1*" + before + "*" + after) == before
  {
    var name := before + "*" + after;
    assert "1*" + before + "*" + after == "1" + ['*'] + name;
    SplitFirstPart("1", '*', name);
    SplitFirstPart(before, '*', after);
  }

  /** The name step stores the name (other data kept) and offers the skills. */
  lemma RegisterNameStores(db: Db, sid: string, phone: string, text: string, now: Date)
    requires text != "" && AtStep(db, sid, RegisterName)
    ensures var data := SessionById(db.sessions, sid).value.data.(name := Some(NameFrom(text)));
      && Handle(db, sid, phone, text, now) == (Answer(SkillMenu), Moved(db, sid, RegisterSkill, data))
      && StoredAt(Handle(db, sid, phone, text, now).1, sid, RegisterSkill, data)
  {
    HandleRegisterName(db, sid, phone, text, now);
    MovedSpec(db, sid, RegisterSkill, SessionById(db.sessions, sid).value.data.(name := Some(NameFrom(text))));
  }

  /** A valid skill number is stored and the locations are offered. */
  lemma RegisterSkillStores(db: Db, sid: string, phone: string, text: string, now: Date)
    requires text != "" && AtStep(db, sid, RegisterSkill)
    requires Choice(LastInput(text), |SKILLS|).Some?
    ensures var k := Choice(LastInput(text), |SKILLS|).value;
      var data := SessionById(db.sessions, sid).value.data.(skill := Some(SKILLS[k]));
      && Handle(db, sid, phone, text, now) == (Answer(LocationMenu), Moved(db, sid, SelectLocation, data))
      && StoredAt(Handle(db, sid, phone, text, now).1, sid, SelectLocation, data)
  {
    HandleRegisterSkill(db, sid, phone, text, now);
    var k := Choice(LastInput(text), |SKILLS|).value;
    MovedSpec(db, sid, SelectLocation, SessionById(db.sessions, sid).value.data.(skill := Some(SKILLS[k])));
  }

  /** At the two skill selection steps an input that is not a list number
      re-prompts and changes neither the session nor the workers. */
  lemma InvalidSkillChangesNothing(db: Db, sid: string, phone: string, text: string, now: Date)
    requires text != ""
    requires AtStep(db, sid, RegisterSkill) || AtStep(db, sid, UpdateSkill)
    requires Choice(LastInput(text), |SKILLS|).None?
    ensures Handle(db, sid, phone, text, now) == (Answer(InvalidSkillChoice), db)
  {
    if AtStep(db, sid, RegisterSkill) {
      HandleRegisterSkill(db, sid, phone, text, now);
    } else {
      HandleUpdateSkill(db, sid, phone, text, now);
    }
  }

  /** At the two location selection steps an input that is not a list number
      re-prompts and changes neither the session nor the workers. */
  lemma InvalidLocationChangesNothing(db: Db, sid: string, phone: string, text: string, now: Date)
    requires text != ""
    requires AtStep(db, sid, SelectLocation) || AtStep(db, sid, UpdateLocation)
    requires Choice(LastInput(text), |LOCATIONS|).None?
    ensures Handle(db, sid, phone, text, now) == (Answer(InvalidLocationChoice), db)
  {
    if AtStep(db, sid, SelectLocation) {
      HandleSelectLocation(db, sid, phone, text, now);
    } else {
      HandleUpdateLocation(db, sid, phone, text, now);
    }
  }

  /** A complete registration creates exactly one worker, available, with the
      session's name and skill, the caller's phone and the chosen location;
      then resets the session and echoes the profile. */
  lemma SelectLocationRegisters(db: Db, sid: string, phone: string, text: string, now: Date,
                                name: string, skill: string)
    requires text != "" && AtStep(db, sid, SelectLocation)
    requires SessionById(db.sessions, sid).value.data.name == Some(name)
    requires SessionById(db.sessions, sid).value.data.skill == Some(skill)
    requires Choice(LastInput(text), |LOCATIONS|).Some?
    requires WorkerByPhone(db.workers, phone).None?
    ensures var location := LOCATIONS[Choice(LastInput(text), |LOCATIONS|).value];
      var out := Handle(db, sid, phone, text, now);
      && out.0 == Answer(RegistrationDone(name, phone, skill, location))
      && out.1.workers == db.workers + [Worker(db.nextWorkerId, name, phone, skill, location, true, now)]
      && out.1.jobs == db.jobs && out.1.matches == db.matches
      && StoredAt(out.1, sid, MainMenu, NoData)
  {
    HandleSelectLocation(db, sid, phone, text, now);
    var s := SessionById(db.sessions, sid).value;
    RegistrationStep(db, sid, phone, LastInput(text), s.data, now, name, skill);
  }

  lemma RegistrationStep(db: Db, sid: string, phone: string, input: string, data: SessionData, now: Date,
                         name: string, skill: string)
    requires SessionById(db.sessions, sid).Some?
    requires data.name == Some(name) && data.skill == Some(skill)
    requires Choice(input, |LOCATIONS|).Some? && WorkerByPhone(db.workers, phone).None?
    ensures var location := LOCATIONS[Choice(input, |LOCATIONS|).value];
      var out := SelectLocationStep(db, sid, phone, input, data, now);
      && out.0 == Ok(RegistrationDone(name, phone, skill, location))
      && out.1.workers == db.workers + [Worker(db.nextWorkerId, name, phone, skill, location, true, now)]
      && out.1.jobs == db.jobs && out.1.matches == db.matches
      && StoredAt(out.1, sid, MainMenu, NoData)
  {
    var location := LOCATIONS[Choice(input, |LOCATIONS|).value];
    var (c, db1) := AddWorker(db, Applicant(name, phone, skill, location), now);
    assert c.Ok?;
    assert SessionById(db1.sessions, sid) == SessionById(db.sessions, sid);
    MovedSpec(db1, sid, MainMenu, NoData);
  }

  /** A phone that already has a worker is not registered twice. */
  lemma SelectLocationAlreadyRegistered(db: Db, sid: string, phone: string, text: string, now: Date)
    requires text != "" && AtStep(db, sid, SelectLocation)
    requires Choice(LastInput(text), |LOCATIONS|).Some?
    requires WorkerByPhone(db.workers, phone).Some?
    ensures Handle(db, sid, phone, text, now) == (Answer(AlreadyRegistered), db)
  {
    HandleSelectLocation(db, sid, phone, text, now);
  }

  /** Without a stored name or skill the insert violates NOT NULL: the error
      screen, and nothing is written. */
  lemma SelectLocationWithoutProfile(db: Db, sid: string, phone: string, text: string, now: Date)
    requires text != "" && AtStep(db, sid, SelectLocation)
    requires Choice(LastInput(text), |LOCATIONS|).Some?
    requires WorkerByPhone(db.workers, phone).None?
    requires SessionById(db.sessions, sid).value.data.name.None? || SessionById(db.sessions, sid).value.data.skill.None?
    ensures Handle(db, sid, phone, text, now) == (Answer(ErrorScreen), db)
  {
    HandleSelectLocation(db, sid, phone, text, now);
  }

  // ---------------------------------------------------------------------
  // Profile updates

  lemma UpdateProfileMenuMoves(db: Db, sid: string, phone: string, text: string, now: Date)
    requires text != "" && AtStep(db, sid, UpdateProfileMenu)
    ensures var data := SessionById(db.sessions, sid).value.data;
      && (LastInput(text) == "1" ==> Handle(db, sid, phone, text, now) == (Answer(NewSkillMenu), Moved(db, sid, UpdateSkill, data)))
      && (LastInput(text) == "2" ==> Handle(db, sid, phone, text, now) == (Answer(NewLocationMenu), Moved(db, sid, UpdateLocation, data)))
      && (LastInput(text) == "3" ==> Handle(db, sid, phone, text, now) == (Answer(Welcome), Moved(db, sid, MainMenu, NoData)))
      && (LastInput(text) !in {"1", "2", "3"} ==> Handle(db, sid, phone, text, now) == (Answer(InvalidUpdateOption), db))
  {
    HandleUpdateProfileMenu(db, sid, phone, text, now);
  }

  /** "Back to main menu" leaves the dialog stuck: the gateway keeps sending
      the whole history, which now has a `*`, and the main menu compares the
      whole text, so every following choice is rejected. */
  lemma BackToMainMenuStrands(db: Db, sid: string, phone: string, text: string, next: string, now: Date)
    requires AtStep(db, sid, UpdateProfileMenu) && text != "" && LastInput(text) == "3"
    ensures var db1 := Handle(db, sid, phone, text, now).1;
      && AtStep(db1, sid, MainMenu)
      && Handle(db1, sid, phone, text + "*" + next, now) == (Answer(InvalidOption), db1)
  {
    HandleUpdateProfileMenu(db, sid, phone, text, now);
    MovedSpec(db, sid, MainMenu, NoData);
    var db1 := Moved(db, sid, MainMenu, NoData);
    assert Handle(db, sid, phone, text, now).1 == db1;
    var t := text + "*" + next;
    assert |t| > 1;
    MainMenuComparesWholeText(db1, sid, phone, t, now);
  }


  /** A valid new skill changes only that worker's skill, resets the session
      and confirms; a missing worker gives the failure screen and writes nothing. */
  lemma UpdateSkillApplies(db: Db, sid: string, phone: string, text: string, now: Date)
    requires text != "" && AtStep(db, sid, UpdateSkill)
    requires Choice(LastInput(text), |SKILLS|).Some?
    ensures var skill := SKILLS[Choice(LastInput(text), |SKILLS|).value];
      var id := SessionById(db.sessions, sid).value.data.workerId;
      var out := Handle(db, sid, phone, text, now);
      && (id.Some? && WorkerById(db.workers, id.value).Some? ==>
           && out.0 == Answer(SkillChanged(skill))
           && out.1.workers == SkillUpdated(db, id.value, skill).1.workers
           && out.1.jobs == db.jobs && out.1.matches == db.matches
           && StoredAt(out.1, sid, MainMenu, NoData))
      && (id.None? || WorkerById(db.workers, id.value).None? ==> out == (Answer(SkillUpdateFailed), db))
  {
    HandleUpdateSkill(db, sid, phone, text, now);
    UpdateSkillStepApplies(db, sid, LastInput(text), SessionById(db.sessions, sid).value.data);
  }

  lemma UpdateSkillStepApplies(db: Db, sid: string, input: string, data: SessionData)
    requires SessionById(db.sessions, sid).Some? && Choice(input, |SKILLS|).Some?
    ensures var skill := SKILLS[Choice(input, |SKILLS|).value];
      var id := data.workerId;
      var out := UpdateSkillStep(db, sid, input, data);
      && (id.Some? && WorkerById(db.workers, id.value).Some? ==>
           && out.0 == Ok(SkillChanged(skill))
           && out.1.workers == SkillUpdated(db, id.value, skill).1.workers
           && out.1.jobs == db.jobs && out.1.matches == db.matches
           && StoredAt(out.1, sid, MainMenu, NoData))
      && (id.None? || WorkerById(db.workers, id.value).None? ==> out == (Ok(SkillUpdateFailed), db))
  {
    var skill := SKILLS[Choice(input, |SKILLS|).value];
    var id := data.workerId;
    if id.Some? && WorkerById(db.workers, id.value).Some? {
      var db1 := SkillUpdated(db, id.value, skill).1;
      assert SessionById(db1.sessions, sid) == SessionById(db.sessions, sid);
      MovedSpec(db1, sid, MainMenu, NoData);
    }
  }

  lemma UpdateLocationApplies(db: Db, sid: string, phone: string, text: string, now: Date)
    requires text != "" && AtStep(db, sid, UpdateLocation)
    requires Choice(LastInput(text), |LOCATIONS|).Some?
    ensures var location := LOCATIONS[Choice(LastInput(text), |LOCATIONS|).value];
      var id := SessionById(db.sessions, sid).value.data.workerId;
      var out := Handle(db, sid, phone, text, now);
      && (id.Some? && WorkerById(db.workers, id.value).Some? ==>
           && out.0 == Answer(LocationChanged(location))
           && out.1.workers == LocationUpdated(db, id.value, location).1.workers
           && out.1.jobs == db.jobs && out.1.matches == db.matches
           && StoredAt(out.1, sid, MainMenu, NoData))
      && (id.None? || WorkerById(db.workers, id.value).None? ==> out == (Answer(LocationUpdateFailed), db))
  {
    HandleUpdateLocation(db, sid, phone, text, now);
    var s := SessionById(db.sessions, sid).value;
    UpdateLocationStepApplies(db, sid, LastInput(text), s.data);
  }

  lemma UpdateLocationStepApplies(db: Db, sid: string, input: string, data: SessionData)
    requires SessionById(db.sessions, sid).Some? && Choice(input, |LOCATIONS|).Some?
    ensures var location := LOCATIONS[Choice(input, |LOCATIONS|).value];
      var id := data.workerId;
      var out := UpdateLocationStep(db, sid, input, data);
      && (id.Some? && WorkerById(db.workers, id.value).Some? ==>
           && out.0 == Ok(LocationChanged(location))
           && out.1.workers == LocationUpdated(db, id.value, location).1.workers
           && out.1.jobs == db.jobs && out.1.matches == db.matches
           && StoredAt(out.1, sid, MainMenu, NoData))
      && (id.None? || WorkerById(db.workers, id.value).None? ==> out == (Ok(LocationUpdateFailed), db))
  {
    var location := LOCATIONS[Choice(input, |LOCATIONS|).value];
    var id := data.workerId;
    if id.Some? && WorkerById(db.workers, id.value).Some? {
      var db1 := LocationUpdated(db, id.value, location).1;
      assert SessionById(db1.sessions, sid) == SessionById(db.sessions, sid);
      MovedSpec(db1, sid, MainMenu, NoData);
    }
  }

  /** A stored step the handler does not know (including `view_jobs`) resets
      the session to the main menu and shows the welcome menu. */
  lemma UnknownStepResets(db: Db, sid: string, phone: string, text: string, now: Date)
    requires text != "" && SessionById(db.sessions, sid).Some?
    requires forall st :: st != ViewJobs ==> !AtStep(db, sid, st)
    ensures Handle(db, sid, phone, text, now) == (Answer(Welcome), Moved(db, sid, MainMenu, NoData))
    ensures StoredAt(Handle(db, sid, phone, text, now).1, sid, MainMenu, NoData)
  {
    HandleStored(db, sid, phone, text, now);
    var r := Handled(SessionById(db.sessions, sid).value.step);
    if r.Some? {
      assert AtStep(db, sid, r.value);
    }
    MovedSpec(db, sid, MainMenu, NoData);
  }

  // ---------------------------------------------------------------------
  // A whole dialog

  /** The requests of one session, each on the database the previous one
      left: the screens shown, in order, and the final database. */
  function Run(db: Db, sid: string, phone: string, texts: seq<string>, now: Date): (r: (seq<Outcome>, Db))
    ensures |r.0| == |texts|
    decreases |texts|
  {
    if texts == [] then ([], db)
    else
      var (o, db1) := Handle(db, sid, phone, texts[0], now);
      var (os, db2) := Run(db1, sid, phone, texts[1..], now);
      ([o] + os, db2)
  }

  /** The histories a gateway sends while a caller registers: the dialog
      opens, option 1, then the name, the skill number and the location
      number, each appended after a `*`. */
  function RegistrationTexts(name: string, skill: nat, location: nat): seq<string> {
    var withName := "1*" + name;
    var withSkill := withName + "*" + NatToString(skill + 1);
    ["", "1", withName, withSkill, withSkill + "*" + NatToString(location + 1)]
  }

  /** The number typed last is the last input of the history. */
  lemma LastInputIsTypedNumber(history: string, n: nat)
    ensures LastInput(history + "*" + NatToString(n)) == NatToString(n)
  {
    assert '*' !in NatToString(n);
    SplitAppend(history, '*', NatToString(n));
  }

  /** Typing a name without `*` after option 1 stores it and offers the skills. */
  lemma RegistrationNameStep(db: Db, sid: string, phone: string, name: string, now: Date)
    requires StoredAt(db, sid, RegisterName, NoData) && '*' !in name
    ensures var out := Handle(db, sid, phone, "1*" + name, now);
      && out.0 == Answer(SkillMenu)
      && out.1 == db.(sessions := out.1.sessions)
      && StoredAt(out.1, sid, RegisterSkill, NoData.(name := Some(name)))
  {
    assert "1*" + name == "1" + "*" + name;
    NameFromHistory("1", name, "1*" + name);
    RegisterNameStores(db, sid, phone, "1*" + name, now);
    MovedSpec(db, sid, RegisterSkill, NoData.(name := Some(name)));
  }

  /** Typing a skill's number stores the skill and offers the locations. */
  lemma RegistrationSkillStep(db: Db, sid: string, phone: string, history: string, name: string, skill: nat, now: Date)
    requires StoredAt(db, sid, RegisterSkill, NoData.(name := Some(name))) && skill < |SKILLS|
    ensures var out := Handle(db, sid, phone, history + "*" + NatToString(skill + 1), now);
      && out.0 == Answer(LocationMenu)
      && out.1 == db.(sessions := out.1.sessions)
      && StoredAt(out.1, sid, SelectLocation, SessionData(Some(name), Some(SKILLS[skill]), None))
  {
    var text := history + "*" + NatToString(skill + 1);
    assert Choice(LastInput(text), |SKILLS|) == Some(skill) by {
      LastInputIsTypedNumber(history, skill + 1);
      TypedNumberSelects(skill, |SKILLS|);
    }
    RegisterSkillStores(db, sid, phone, text, now);
    MovedSpec(db, sid, SelectLocation, SessionData(Some(name), Some(SKILLS[skill]), None));
  }

  /** Typing a location's number registers the caller. */
  lemma RegistrationLocationStep(db: Db, sid: string, phone: string, history: string, name: string, skill: nat,
                                 location: nat, now: Date)
    requires skill < |SKILLS| && location < |LOCATIONS| && WorkerByPhone(db.workers, phone).None?
    requires StoredAt(db, sid, SelectLocation, SessionData(Some(name), Some(SKILLS[skill]), None))
    ensures var out := Handle(db, sid, phone, history + "*" + NatToString(location + 1), now);
      && out.0 == Answer(RegistrationDone(name, phone, SKILLS[skill], LOCATIONS[location]))
      && out.1.workers == db.workers + [Worker(db.nextWorkerId, name, phone, SKILLS[skill], LOCATIONS[location], true, now)]
      && out.1.jobs == db.jobs && out.1.matches == db.matches
      && StoredAt(out.1, sid, MainMenu, NoData)
  {
    var text := history + "*" + NatToString(location + 1);
    assert Choice(LastInput(text), |LOCATIONS|) == Some(location) by {
      LastInputIsTypedNumber(history, location + 1);
      TypedNumberSelects(location, |LOCATIONS|);
    }
    SelectLocationRegisters(db, sid, phone, text, now, name, SKILLS[skill]);
  }

  lemma TypedNumberSelects(k: nat, count: nat)
    requires k < count
    ensures Choice(NatToString(k + 1), count) == Some(k)
  {
    var s := NatToString(k + 1);
    assert [] + [] + s + [] == s;
    ChoiceSelectsTypedEntry(k, count, [], [], []);
  }

  /** A caller with an unregistered phone who opens a new dialog, picks
      option 1, types a name without `*` and then valid skill and location
      numbers sees the welcome menu, the name prompt, the skill menu, the
      location menu and the confirmation, in that order. At the end exactly
      one worker, available, with that name, phone, skill and location, has
      been added, jobs and matches are as they were, and the session is back
      at the main menu with empty data. */
  lemma RegistrationDialog(db: Db, sid: string, phone: string, name: string, skill: nat, location: nat, now: Date)
    requires SessionById(db.sessions, sid).None? && WorkerByPhone(db.workers, phone).None?
    requires '*' !in name && skill < |SKILLS| && location < |LOCATIONS|
    ensures var run := Run(db, sid, phone, RegistrationTexts(name, skill, location), now);
      && run.0 == [Answer(Welcome), Answer(EnterName), Answer(SkillMenu), Answer(LocationMenu),
                   Answer(RegistrationDone(name, phone, SKILLS[skill], LOCATIONS[location]))]
      && run.1.workers == db.workers + [Worker(db.nextWorkerId, name, phone, SKILLS[skill], LOCATIONS[location], true, now)]
      && run.1.jobs == db.jobs && run.1.matches == db.matches
      && StoredAt(run.1, sid, MainMenu, NoData)
  {
    var texts := RegistrationTexts(name, skill, location);
    var (o1, db1) := Handle(db, sid, phone, texts[0], now);
    EmptyTextOpensDialog(db, sid, phone, now);
    var (o2, db2) := Handle(db1, sid, phone, texts[1], now);
    MainMenuRegister(db1, sid, phone, now);
    MovedSpec(db1, sid, RegisterName, NoData);
    var (o3, db3) := Handle(db2, sid, phone, texts[2], now);
    RegistrationNameStep(db2, sid, phone, name, now);
    var (o4, db4) := Handle(db3, sid, phone, texts[3], now);
    RegistrationSkillStep(db3, sid, phone, texts[2], name, skill, now);
    var (o5, db5) := Handle(db4, sid, phone, texts[4], now);
    RegistrationLocationStep(db4, sid, phone, texts[3], name, skill, location, now);
    RunsOfFive(db, sid, phone, texts, now, o1, db1, o2, db2, o3, db3, o4, db4, o5, db5);
  }

  /** A dialog is its first request, then the rest on the database it left. */
  lemma RunFirst(db: Db, sid: string, phone: string, texts: seq<string>, now: Date)
    requires texts != []
    ensures var first := Handle(db, sid, phone, texts[0], now);
      var rest := Run(first.1, sid, phone, texts[1..], now);
      Run(db, sid, phone, texts, now) == ([first.0] + rest.0, rest.1)
  {
  }

  /** Five requests in a row. */
  lemma RunsOfFive(db0: Db, sid: string, phone: string, texts: seq<string>, now: Date,
                   o1: Outcome, db1: Db, o2: Outcome, db2: Db, o3: Outcome, db3: Db,
                   o4: Outcome, db4: Db, o5: Outcome, db5: Db)
    requires |texts| == 5
    requires Handle(db0, sid, phone, texts[0], now) == (o1, db1)
    requires Handle(db1, sid, phone, texts[1], now) == (o2, db2)
    requires Handle(db2, sid, phone, texts[2], now) == (o3, db3)
    requires Handle(db3, sid, phone, texts[3], now) == (o4, db4)
    requires Handle(db4, sid, phone, texts[4], now) == (o5, db5)
    ensures Run(db0, sid, phone, texts, now) == ([o1, o2, o3, o4, o5], db5)
  {
    var t1, t2, t3, t4 := texts[1..], texts[2..], texts[3..], texts[4..];
    assert t1[1..] == t2 && t2[1..] == t3 && t3[1..] == t4 && t4[1..] == [];
    assert Run(db5, sid, phone, t4[1..], now) == ([], db5);
    RunFirst(db4, sid, phone, t4, now);
    RunFirst(db3, sid, phone, t3, now);
    RunFirst(db2, sid, phone, t2, now);
    RunFirst(db1, sid, phone, t1, now);
    RunFirst(db0, sid, phone, texts, now);
    FiveScreens(o1, o2, o3, o4, o5);
  }

  lemma FiveScreens(o1: Outcome, o2: Outcome, o3: Outcome, o4: Outcome, o5: Outcome)
    ensures [o1] + ([o2] + ([o3] + ([o4] + ([o5] + [])))) == [o1, o2, o3, o4, o5]
  {
  }

  // ---------------------------------------------------------------------
  // Every request

  /** Only empty text on an existing session escapes as an exception; every
      other request is answered with a screen (an error inside the `try`
      becomes the error screen). */
  lemma OnlyReopeningThrows(db: Db, sid: string, phone: string, text: string, now: Date)
    ensures Handle(db, sid, phone, text, now).0.Thrown? <==> text == "" && SessionById(db.sessions, sid).Some?
  {
    if text == "" && SessionById(db.sessions, sid).Some? {
      EmptyTextOnOpenDialogThrows(db, sid, phone, now);
    }
  }

  lemma PersistPreservesValid(db: Db, sid: string, next: UssdState, data: SessionData, reply: Screen)
    requires Valid(db)
    ensures Valid(Persist(db, sid, next, data, reply).1)
  {
    SessionUpdatedPreservesValid(db, sid, StepName(next), data);
  }

  lemma MainMenuStepPreservesValid(db: Db, sid: string, phone: string, text: string, data: SessionData)
    requires Valid(db)
    ensures Valid(MainMenuStep(db, sid, phone, text, data).1)
  {
    if text == "1" {
      PersistPreservesValid(db, sid, RegisterName, data, EnterName);
    } else if text == "3" && WorkerByPhone(db.workers, phone).Some? {
      PersistPreservesValid(db, sid, UpdateProfileMenu,
        SessionData(None, None, Some(WorkerByPhone(db.workers, phone).value.id)), UpdateMenu);
    }
  }

  lemma RegisterSkillStepPreservesValid(db: Db, sid: string, input: string, data: SessionData)
    requires Valid(db)
    ensures Valid(RegisterSkillStep(db, sid, input, data).1)
  {
    if Choice(input, |SKILLS|).Some? {
      var k := Choice(input, |SKILLS|).value;
      PersistPreservesValid(db, sid, SelectLocation, data.(skill := Some(SKILLS[k])), LocationMenu);
    }
  }

  /** The database the location step leaves: the registration's two
      writes, or no write at all. */
  lemma SelectLocationStepWrites(db: Db, sid: string, phone: string, input: string, data: SessionData, now: Date)
    ensures var out := SelectLocationStep(db, sid, phone, input, data, now).1;
      if Choice(input, |LOCATIONS|).Some? && WorkerByPhone(db.workers, phone).None? && data.name.Some? && data.skill.Some? then
        var location := LOCATIONS[Choice(input, |LOCATIONS|).value];
        var added := AddWorker(db, Applicant(data.name.value, phone, data.skill.value, location), now);
        out == if added.0.Err? then added.1
               else Persist(added.1, sid, MainMenu, NoData, RegistrationDone(data.name.value, phone, data.skill.value, location)).1
      else out == db
  {
  }

  lemma SelectLocationStepPreservesValid(db: Db, sid: string, phone: string, input: string, data: SessionData, now: Date)
    requires Valid(db)
    ensures Valid(SelectLocationStep(db, sid, phone, input, data, now).1)
  {
    SelectLocationStepWrites(db, sid, phone, input, data, now);
    if Choice(input, |LOCATIONS|).Some? && WorkerByPhone(db.workers, phone).None? && data.name.Some? && data.skill.Some? {
      var location := LOCATIONS[Choice(input, |LOCATIONS|).value];
      var nw := Applicant(data.name.value, phone, data.skill.value, location);
      AddWorkerPreservesValid(db, nw, now);
      PersistPreservesValid(AddWorker(db, nw, now).1, sid, MainMenu, NoData,
        RegistrationDone(data.name.value, phone, data.skill.value, location));
    }
  }

  lemma UpdateProfileMenuStepPreservesValid(db: Db, sid: string, input: string, data: SessionData)
    requires Valid(db)
    ensures Valid(UpdateProfileMenuStep(db, sid, input, data).1)
  {
    if input == "1" {
      PersistPreservesValid(db, sid, UpdateSkill, data, NewSkillMenu);
    } else if input == "2" {
      PersistPreservesValid(db, sid, UpdateLocation, data, NewLocationMenu);
    } else if input == "3" {
      PersistPreservesValid(db, sid, MainMenu, NoData, Welcome);
    }
  }

  lemma ApplyUpdatePreservesValid(db: Db, sid: string, updated: (Result<Worker>, Db), done: Screen, failed: Screen)
    requires Valid(updated.1)
    ensures Valid(ApplyUpdate(db, sid, updated, done, failed).1)
  {
    SessionUpdatedPreservesValid(updated.1, sid, StepName(MainMenu), NoData);
  }

  lemma UpdateSkillStepPreservesValid(db: Db, sid: string, input: string, data: SessionData)
    requires Valid(db)
    ensures Valid(UpdateSkillStep(db, sid, input, data).1)
  {
    if Choice(input, |SKILLS|).Some? {
      var skill := SKILLS[Choice(input, |SKILLS|).value];
      var updated := match data.workerId
        case None => (Err(MISSING_WORKER_ID), db)
        case Some(id) => SkillUpdated(db, id, skill);
      if data.workerId.Some? {
        SkillUpdatedPreservesValid(db, data.workerId.value, skill);
      }
      ApplyUpdatePreservesValid(db, sid, updated, SkillChanged(skill), SkillUpdateFailed);
    }
  }

  lemma UpdateLocationStepPreservesValid(db: Db, sid: string, input: string, data: SessionData)
    requires Valid(db)
    ensures Valid(UpdateLocationStep(db, sid, input, data).1)
  {
    if Choice(input, |LOCATIONS|).Some? {
      var location := LOCATIONS[Choice(input, |LOCATIONS|).value];
      var updated := match data.workerId
        case None => (Err(MISSING_WORKER_ID), db)
        case Some(id) => LocationUpdated(db, id, location);
      if data.workerId.Some? {
        LocationUpdatedPreservesValid(db, data.workerId.value, location);
      }
      ApplyUpdatePreservesValid(db, sid, updated, LocationChanged(location), LocationUpdateFailed);
    }
  }

  lemma StepPreservesValid(db: Db, sid: string, phone: string, text: string, session: UssdSession, now: Date)
    requires Valid(db)
    ensures Valid(Step(db, sid, phone, text, session, now).1)
  {
    var input := LastInput(text);
    var data := session.data;
    match Handled(session.step)
    case Some(MainMenu) =>
      MainMenuStepPreservesValid(db, sid, phone, text, data);
    case Some(RegisterName) =>
      PersistPreservesValid(db, sid, RegisterSkill, data.(name := Some(NameFrom(text))), SkillMenu);
    case Some(RegisterSkill) =>
      RegisterSkillStepPreservesValid(db, sid, input, data);
    case Some(SelectLocation) =>
      SelectLocationStepPreservesValid(db, sid, phone, input, data, now);
    case Some(UpdateProfileMenu) =>
      UpdateProfileMenuStepPreservesValid(db, sid, input, data);
    case Some(UpdateSkill) =>
      UpdateSkillStepPreservesValid(db, sid, input, data);
    case Some(UpdateLocation) =>
      UpdateLocationStepPreservesValid(db, sid, input, data);
    case _ =>
      PersistPreservesValid(db, sid, MainMenu, NoData, Welcome);
  }


  /** No request breaks the phone and session-id constraints or the serials. */
  lemma HandlePreservesValid(db: Db, sid: string, phone: string, text: string, now: Date)
    requires Valid(db)
    ensures Valid(Handle(db, sid, phone, text, now).1)
  {
    AddSessionPreservesValid(db, sid, phone, StepName(MainMenu), NoData, now);
    if text != "" {
      var (session, db1) := OpenSession(db, sid, phone, now);
      StepPreservesValid(db1, sid, phone, text, session, now);
    }
  }
}
