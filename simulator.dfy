/** The browser's USSD simulator: a six-step registration dialog kept in the
    page's state. A press of "Send" reads the typed input, moves between the
    steps, and at the confirmation step posts the registration to the API;
    the answer of that request is a parameter here.

    `Press` is the step function on a value of the page's state; the class
    `UssdSimulator` holds the same fields and its methods are proved to
    update them as `Press` and `Reset` say. */
module Simulator {
  import opened Wrappers
  import opened JsText
  import opened ClientUtils

  /** What the display shows. */
  datatype Display =
    | Welcome
    | EnterName
    | NoActiveJobs
    | InvalidMain
    | EmptyName
    | SkillMenu
    | InvalidSkill
    | LocationMenu
    | InvalidLocation
    | Confirm(name: string, skill: string, location: string)
    | InvalidConfirm(name: string, skill: string, location: string)
    | Registered
    | RegistrationFailed(message: string)
    | NetworkFailure
    | Cancelled
    | InvalidBack

  const MAIN_CHOICES := "1. Register as a worker\n2. Check job status\n\nReply with option number"

  function ConfirmText(name: string, skill: string, location: string): string {
    "Confirm registration:\nName: " + name + "\nSkill: " + skill + "\nLocation: " + location
      + "\n\n1. Confirm\n2. Cancel"
  }

  /** The text on the simulated handset. */
  function Text(d: Display): string {
    match d
    case Welcome => "Welcome to yaya! Worker Registration\n\n" + MAIN_CHOICES
    case EnterName => "Enter your full name:"
    case NoActiveJobs => "No active jobs found for your number.\n\n0. Back to main menu"
    case InvalidMain => "Invalid option.\n\n" + MAIN_CHOICES
    case EmptyName => "Name cannot be empty. Enter your full name:"
    case SkillMenu => "Select your skill:\n\n" + NumberedList(CLIENT_SKILLS) + "\n\n0. Back"
    case InvalidSkill => "Invalid option. Select your skill:\n\n" + NumberedList(CLIENT_SKILLS) + "\n\n0. Back"
    case LocationMenu => "Select your location:\n\n" + NumberedList(CLIENT_LOCATIONS) + "\n\n0. Back"
    case InvalidLocation => "Invalid option. Select your location:\n\n" + NumberedList(CLIENT_LOCATIONS) + "\n\n0. Back"
    case Confirm(n, s, l) => ConfirmText(n, s, l)
    case InvalidConfirm(n, s, l) => "Invalid option. " + ConfirmText(n, s, l)
    case Registered =>
      "Registration successful! You will receive SMS notifications when jobs matching your skills are available in your area."
    case RegistrationFailed(m) => "Registration failed: " + m
    case NetworkFailure => "Registration failed due to a network error. Please try again."
    case Cancelled => "Registration cancelled."
    case InvalidBack => "Invalid option.\n\n0. Back to main menu"
  }

  /** The body posted to `/api/workers/register`. */
  datatype Registration = Registration(name: string, phone: string, skill: string, location: string, isAvailable: bool)

  /** How the registration request ends: an `ok` answer, an error answer
      with its message, or a network failure. */
  datatype Reply = Accepted | Rejected(message: string) | Unreachable

  /** The page's state. */
  datatype Page = Page(
    step: int,
    sessionId: string,
    phoneNumber: string,
    name: string,
    skill: string,
    location: string,
    userInput: string,
    ussdDisplay: Display)

  const DEFAULT_PHONE := "0712345678"

  function SessionIdAt(now: nat): string {
    "sim_" + NatToString(now)
  }

  /** The page as first shown. */
  function Initial(now: nat): Page {
    Page(0, SessionIdAt(now), DEFAULT_PHONE, "", "", "", "", Welcome)
  }

  /** `resetSimulator`: back to the first step with the fields cleared and a
      new session id; the phone number is kept. */
  function Reset(p: Page, now: nat): Page {
    p.(step := 0, sessionId := SessionIdAt(now), name := "", skill := "", location := "",
       userInput := "", ussdDisplay := Welcome)
  }

  /** The index typed at a menu of `count` entries: `parseInt(input)` in
      `1..count`. */
  function Picked(input: string, count: nat): (r: Option<nat>)
    ensures r.Some? ==> 0 < r.value <= count
  {
    match ParseInt(input)
    case Some(k) => if 0 < k <= count then Some(k as nat) else None
    case None => None
  }

  /** Step 0, the first menu. */
  function MainAnswer(p: Page): Page {
    if p.userInput == "1" then p.(ussdDisplay := EnterName, step := 1)
    else if p.userInput == "2" then p.(ussdDisplay := NoActiveJobs, step := 5)
    else p.(ussdDisplay := InvalidMain)
  }

  /** Step 1, the name. */
  function NameAnswer(p: Page): Page {
    if |Trim(p.userInput)| > 0 then p.(name := p.userInput, ussdDisplay := SkillMenu, step := 2)
    else p.(ussdDisplay := EmptyName)
  }

  /** Step 2, the skill menu. */
  function SkillAnswer(p: Page): Page {
    if p.userInput == "0" then p.(ussdDisplay := EnterName, step := 1)
    else match Picked(p.userInput, |CLIENT_SKILLS|)
      case Some(k) => p.(skill := CLIENT_SKILLS[k - 1], ussdDisplay := LocationMenu, step := 3)
      case None => p.(ussdDisplay := InvalidSkill)
  }

  /** Step 3, the location menu. */
  function LocationAnswer(p: Page): Page {
    if p.userInput == "0" then p.(ussdDisplay := SkillMenu, step := 2)
    else match Picked(p.userInput, |CLIENT_LOCATIONS|)
      case Some(k) =>
        var l := CLIENT_LOCATIONS[k - 1];
        p.(location := l, ussdDisplay := Confirm(p.name, p.skill, l), step := 4)
      case None => p.(ussdDisplay := InvalidLocation)
  }

  /** What the display shows once the registration request has ended. */
  function Outcome(reply: Reply): Display {
    match reply
    case Accepted => Registered
    case Rejected(m) => RegistrationFailed(m)
    case Unreachable => NetworkFailure
  }

  /** Step 4, the confirmation: `1` posts the collected answers. */
  function ConfirmAnswer(p: Page, reply: Reply): (Page, Option<Registration>) {
    if p.userInput == "1" then
      (p.(ussdDisplay := Outcome(reply)), Some(Registration(p.name, p.phoneNumber, p.skill, p.location, true)))
    else if p.userInput == "2" then (p.(ussdDisplay := Cancelled), None)
    else (p.(ussdDisplay := InvalidConfirm(p.name, p.skill, p.location)), None)
  }

  /** Step 5, the job status. */
  function BackAnswer(p: Page): Page {
    if p.userInput == "0" then p.(ussdDisplay := Welcome, step := 0)
    else p.(ussdDisplay := InvalidBack)
  }

  /** One press of "Send" before the typed input is cleared: the new page
      and the registration posted, if any. */
  function Answer(p: Page, reply: Reply): (Page, Option<Registration>) {
    if p.step == 0 then (MainAnswer(p), None)
    else if p.step == 1 then (NameAnswer(p), None)
    else if p.step == 2 then (SkillAnswer(p), None)
    else if p.step == 3 then (LocationAnswer(p), None)
    else if p.step == 4 then ConfirmAnswer(p, reply)
    else if p.step == 5 then (BackAnswer(p), None)
    else (p, None)
  }

  /** `handleUssdRequest`: the answer, then the input box cleared. */
  function Press(p: Page, reply: Reply): (Page, Option<Registration>) {
    var a := Answer(p, reply);
    (a.0.(userInput := ""), a.1)
  }

  // ---------------------------------------------------------------------
  // What the step machine guarantees

  /** A press never leaves the six steps, clears the input box, and keeps
      the session id and the phone number. */
  lemma PressStaysInSteps(p: Page, reply: Reply)
    requires 0 <= p.step <= 5
    ensures var q := Press(p, reply).0;
      && 0 <= q.step <= 5
      && q.userInput == ""
      && q.sessionId == p.sessionId && q.phoneNumber == p.phoneNumber
  {
  }

  /** Only a confirmation at step 4 posts a registration, and it carries the
      collected name, skill and location, the page's phone, and availability. */
  lemma PressPostsOnlyOnConfirm(p: Page, reply: Reply)
    ensures var sent := Press(p, reply).1;
      && (sent.Some? <==> p.step == 4 && p.userInput == "1")
      && (sent.Some? ==> sent.value == Registration(p.name, p.phoneNumber, p.skill, p.location, true))
  {
  }

  /** Step 0: `1` starts registration, `2` shows the job status, anything
      else is refused in place. */
  lemma MainStep(p: Page, reply: Reply)
    requires p.step == 0
    ensures var q := Press(p, reply).0;
      && (p.userInput == "1" ==> q.step == 1 && q.ussdDisplay == EnterName)
      && (p.userInput == "2" ==> q.step == 5 && q.ussdDisplay == NoActiveJobs)
      && (p.userInput != "1" && p.userInput != "2" ==>
            q == p.(userInput := "", ussdDisplay := InvalidMain))
  {
  }

  /** Step 1: a name that is not blank is kept as typed, untrimmed; a blank
      one is refused in place. */
  lemma NameStep(p: Page, reply: Reply)
    requires p.step == 1
    ensures var q := Press(p, reply).0;
      && (Trim(p.userInput) != "" ==>
            q == p.(name := p.userInput, step := 2, userInput := "", ussdDisplay := SkillMenu))
      && (Trim(p.userInput) == "" ==> q == p.(userInput := "", ussdDisplay := EmptyName))
  {
  }

  /** Step 2: `0` goes back to the name; a listed index picks that skill and
      asks for the location; anything else is refused in place. */
  lemma SkillStep(p: Page, reply: Reply)
    requires p.step == 2
    ensures var q := Press(p, reply).0;
      var k := ParseInt(p.userInput);
      && (p.userInput == "0" ==> q.step == 1 && q.ussdDisplay == EnterName && q.skill == p.skill)
      && (p.userInput != "0" && k.Some? && 1 <= k.value <= |CLIENT_SKILLS| ==>
            q == p.(skill := CLIENT_SKILLS[k.value - 1], step := 3, userInput := "", ussdDisplay := LocationMenu))
      && (p.userInput != "0" && !(k.Some? && 1 <= k.value <= |CLIENT_SKILLS|) ==>
            q == p.(userInput := "", ussdDisplay := InvalidSkill))
  {
  }

  /** Step 3: `0` goes back to the skills; a listed index picks that
      location and shows the collected answers for confirmation; anything
      else is refused in place. */
  lemma LocationStep(p: Page, reply: Reply)
    requires p.step == 3
    ensures var q := Press(p, reply).0;
      var k := ParseInt(p.userInput);
      && (p.userInput == "0" ==> q.step == 2 && q.ussdDisplay == SkillMenu && q.location == p.location)
      && (p.userInput != "0" && k.Some? && 1 <= k.value <= |CLIENT_LOCATIONS| ==>
            var l := CLIENT_LOCATIONS[k.value - 1];
            q == p.(location := l, step := 4, userInput := "", ussdDisplay := Confirm(p.name, p.skill, l)))
      && (p.userInput != "0" && !(k.Some? && 1 <= k.value <= |CLIENT_LOCATIONS|) ==>
            q == p.(userInput := "", ussdDisplay := InvalidLocation))
  {
    assert Press(p, reply).0 == LocationAnswer(p).(userInput := "");
    var k := ParseInt(p.userInput);
    if p.userInput != "0" && k.Some? && 1 <= k.value <= |CLIENT_LOCATIONS| {
      LocationPicked(p, k.value);
    }
  }

  /** A listed index typed at step 3 picks that location. */
  lemma LocationPicked(p: Page, k: int)
    requires p.userInput != "0" && ParseInt(p.userInput) == Some(k) && 1 <= k <= |CLIENT_LOCATIONS|
    ensures var l := CLIENT_LOCATIONS[k - 1];
      LocationAnswer(p) == p.(location := l, ussdDisplay := Confirm(p.name, p.skill, l), step := 4)
  {
    assert Picked(p.userInput, |CLIENT_LOCATIONS|) == Some(k as nat);
  }

  /** Step 4: the page stays at the confirmation whatever is typed; `1`
      shows how the request ended, `2` shows the cancellation, anything else
      asks again. */
  lemma ConfirmStep(p: Page, reply: Reply)
    requires p.step == 4
    ensures var q := Press(p, reply).0;
      && q == p.(userInput := "", ussdDisplay := q.ussdDisplay)
      && (p.userInput == "1" ==>
            q.ussdDisplay == Outcome(reply))
      && (p.userInput == "2" ==> q.ussdDisplay == Cancelled)
      && (p.userInput != "1" && p.userInput != "2" ==>
            q.ussdDisplay == InvalidConfirm(p.name, p.skill, p.location))
  {
  }

  /** Step 5: `0` returns to the first menu; anything else is refused in place. */
  lemma BackStep(p: Page, reply: Reply)
    requires p.step == 5
    ensures var q := Press(p, reply).0;
      && (p.userInput == "0" ==> q == p.(step := 0, userInput := "", ussdDisplay := Welcome))
      && (p.userInput != "0" ==> q == p.(userInput := "", ussdDisplay := InvalidBack))
  {
  }

  /** What the page has collected by each step: a name that is not blank
      from step 2 on, a listed skill from step 3 on and a listed location at
      step 4 (step 5 is reached from the first menu and collects nothing). */
  predicate Collected(p: Page) {
    && 0 <= p.step <= 5
    && (2 <= p.step <= 4 ==> Trim(p.name) != "")
    && (3 <= p.step <= 4 ==> p.skill in CLIENT_SKILLS)
    && (p.step == 4 ==> p.location in CLIENT_LOCATIONS)
  }

  lemma InitialCollected(now: nat)
    ensures Collected(Initial(now))
  {
  }

  lemma ResetCollected(p: Page, now: nat)
    ensures Collected(Reset(p, now))
  {
  }

  lemma SkillAnswerCollected(p: Page)
    requires Collected(p) && p.step == 2
    ensures Collected(SkillAnswer(p))
  {
    var k := Picked(p.userInput, |CLIENT_SKILLS|);
    if p.userInput != "0" && k.Some? {
      assert CLIENT_SKILLS[k.value - 1] in CLIENT_SKILLS;
    }
  }

  lemma LocationAnswerCollected(p: Page)
    requires Collected(p) && p.step == 3
    ensures Collected(LocationAnswer(p))
  {
    var k := Picked(p.userInput, |CLIENT_LOCATIONS|);
    if p.userInput != "0" && k.Some? {
      assert CLIENT_LOCATIONS[k.value - 1] in CLIENT_LOCATIONS;
    }
  }

  lemma PressKeepsCollected(p: Page, reply: Reply)
    requires Collected(p)
    ensures Collected(Press(p, reply).0)
  {
    var q := Press(p, reply).0;
    if p.step == 0 {
      assert q == MainAnswer(p).(userInput := "");
    } else if p.step == 1 {
      assert q == NameAnswer(p).(userInput := "");
    } else if p.step == 2 {
      SkillAnswerCollected(p);
      assert q == SkillAnswer(p).(userInput := "");
    } else if p.step == 3 {
      LocationAnswerCollected(p);
      assert q == LocationAnswer(p).(userInput := "");
    } else if p.step == 4 {
      assert q == ConfirmAnswer(p, reply).0.(userInput := "");
    } else {
      assert q == BackAnswer(p).(userInput := "");
    }
  }

  /** So every registration the simulator posts names a listed skill and a
      listed location, and a name that is not blank. */
  lemma PostedRegistrationIsComplete(p: Page, reply: Reply)
    requires Collected(p)
    requires Press(p, reply).1.Some?
    ensures var r := Press(p, reply).1.value;
      && Trim(r.name) != "" && r.skill in CLIENT_SKILLS && r.location in CLIENT_LOCATIONS && r.isAvailable
  {
    PressPostsOnlyOnConfirm(p, reply);
  }

  // ---------------------------------------------------------------------
  // The page's state as a component

  class UssdSimulator {
    var step: int
    var sessionId: string
    var phoneNumber: string
    var name: string
    var skill: string
    var location: string
    var userInput: string
    var ussdDisplay: Display

    function State(): Page
      reads this
    {
      Page(step, sessionId, phoneNumber, name, skill, location, userInput, ussdDisplay)
    }

    constructor(now: nat)
      ensures State() == Initial(now)
    {
      step := 0;
      sessionId := SessionIdAt(now);
      phoneNumber := DEFAULT_PHONE;
      name := "";
      skill := "";
      location := "";
      userInput := "";
      ussdDisplay := Welcome;
    }

    /** Typing in the input box. */
    method SetUserInput(text: string)
      modifies this
      ensures State() == old(State()).(userInput := text)
    {
      userInput := text;
    }

    /** Editing the phone number box. */
    method SetPhoneNumber(text: string)
      modifies this
      ensures State() == old(State()).(phoneNumber := text)
    {
      phoneNumber := text;
    }

    /** `resetSimulator`. */
    method ResetSimulator(now: nat)
      modifies this
      ensures State() == Reset(old(State()), now)
    {
      step := 0;
      sessionId := SessionIdAt(now);
      name := "";
      skill := "";
      location := "";
      userInput := "";
      ussdDisplay := Welcome;
    }

    /** `handleUssdRequest`; `reply` is how the registration request ends
        when one is posted. */
    method HandleUssdRequest(reply: Reply) returns (sent: Option<Registration>)
      modifies this
      ensures (State(), sent) == Press(old(State()), reply)
    {
      sent := None;
      if step == 0 {
        MainMenu();
      } else if step == 1 {
        EnterFullName();
      } else if step == 2 {
        SelectSkill();
      } else if step == 3 {
        SelectLocation();
      } else if step == 4 {
        sent := ConfirmRegistration(reply);
      } else if step == 5 {
        JobStatus();
      }
      userInput := "";
    }

    method MainMenu()
      modifies this
      ensures State() == MainAnswer(old(State()))
    {
      if userInput == "1" {
        ussdDisplay := EnterName;
        step := 1;
      } else if userInput == "2" {
        ussdDisplay := NoActiveJobs;
        step := 5;
      } else {
        ussdDisplay := InvalidMain;
      }
    }

    method EnterFullName()
      modifies this
      ensures State() == NameAnswer(old(State()))
    {
      if |Trim(userInput)| > 0 {
        name := userInput;
        ussdDisplay := SkillMenu;
        step := 2;
      } else {
        ussdDisplay := EmptyName;
      }
    }

    method SelectSkill()
      modifies this
      ensures State() == SkillAnswer(old(State()))
    {
      if userInput == "0" {
        ussdDisplay := EnterName;
        step := 1;
      } else {
        match Picked(userInput, |CLIENT_SKILLS|)
        case Some(k) =>
          skill := CLIENT_SKILLS[k - 1];
          ussdDisplay := LocationMenu;
          step := 3;
        case None =>
          ussdDisplay := InvalidSkill;
      }
    }

    method SelectLocation()
      modifies this
      ensures State() == LocationAnswer(old(State()))
    {
      if userInput == "0" {
        ussdDisplay := SkillMenu;
        step := 2;
      } else {
        match Picked(userInput, |CLIENT_LOCATIONS|)
        case Some(k) =>
          location := CLIENT_LOCATIONS[k - 1];
          ussdDisplay := Confirm(name, skill, location);
          step := 4;
        case None =>
          ussdDisplay := InvalidLocation;
      }
    }

    method ConfirmRegistration(reply: Reply) returns (sent: Option<Registration>)
      modifies this
      ensures (State(), sent) == ConfirmAnswer(old(State()), reply)
    {
      sent := None;
      if userInput == "1" {
        sent := Some(Registration(name, phoneNumber, skill, location, true));
        match reply
        case Accepted => ussdDisplay := Registered;
        case Rejected(m) => ussdDisplay := RegistrationFailed(m);
        case Unreachable => ussdDisplay := NetworkFailure;
      } else if userInput == "2" {
        ussdDisplay := Cancelled;
      } else {
        ussdDisplay := InvalidConfirm(name, skill, location);
      }
    }

    method JobStatus()
      modifies this
      ensures State() == BackAnswer(old(State()))
    {
      if userInput == "0" {
        ussdDisplay := Welcome;
        step := 0;
      } else {
        ussdDisplay := InvalidBack;
      }
    }
  }
}
