/** The client's helpers: the menu constants it shows, the display form and
    validation of Kenyan phone numbers, and the availability hint shown on
    the contractor page. */
module ClientUtils {
  import opened Schema
  import opened JsText

  // ---------------------------------------------------------------------
  // Menu constants (the client keeps its own copies)

  const CLIENT_SKILLS: seq<string> :=
    ["Mason", "Carpenter", "Electrician", "Plumber", "Painter", "Welder", "General Labor"]

  const CLIENT_LOCATIONS: seq<string> :=
    ["Pipeline", "Gikambura", "Kawangware", "Kasarani", "Rongai", "Kitengela"]

  const CLIENT_DURATIONS: seq<string> :=
    ["1 day", "2-3 days", "1 week", "2 weeks", "1 month", "3+ months"]

  /** The client offers exactly the server's choices, in the same order, so
      an index picked in the browser names the same entry on the server. */
  lemma ClientConstantsAgree()
    ensures CLIENT_SKILLS == SKILLS
    ensures CLIENT_LOCATIONS == LOCATIONS
    ensures CLIENT_DURATIONS == DURATIONS
  {
  }

  // ---------------------------------------------------------------------
  // Phone numbers

  /** `formatPhoneNumber`: the international prefix `+254` becomes the local
      `0`; an empty string stays empty and anything else is kept. */
  function FormatPhoneNumber(phone: string): string {
    if phone == "" then ""
    else if StartsWith(phone, "+254") then "0" + phone[4..]
    else phone
  }

  lemma FormatPhoneNumberSpec(phone: string)
    ensures phone == "" ==> FormatPhoneNumber(phone) == ""
    ensures forall r :: phone == "+254" + r ==> FormatPhoneNumber(phone) == "0" + r
    ensures !StartsWith(phone, "+254") ==> FormatPhoneNumber(phone) == phone
  {
    forall r | phone == "+254" + r
      ensures FormatPhoneNumber(phone) == "0" + r
    {
      assert phone[..4] == "+254" && phone[4..] == r;
    }
  }

  /** Formatting twice is formatting once: the result never carries the
      international prefix unless it was returned unchanged. */
  lemma FormatPhoneNumberIdempotent(phone: string)
    ensures FormatPhoneNumber(FormatPhoneNumber(phone)) == FormatPhoneNumber(phone)
  {
    var f := FormatPhoneNumber(phone);
    if StartsWith(phone, "+254") {
      assert f[0] == '0';
      assert !StartsWith(f, "+254");
    }
  }

  predicate IsDigit(c: char) {
    '0' <= c <= '9'
  }

  /** The subscriber part of a Kenyan number: `1` or `7`, then eight digits. */
  predicate Subscriber(s: string) {
    && |s| == 9
    && (s[0] == '1' || s[0] == '7')
    && forall i :: 1 <= i < 9 ==> IsDigit(s[i])
  }

  /** `validatePhoneNumber`: the pattern `^(0|\+254|254)?[17][0-9]{8}$`,
      matched by hand. The subscriber part has a fixed length, so the length
      of the whole string decides which prefix it must carry. */
  function ValidatePhoneNumber(phone: string): bool {
    if |phone| == 9 then Subscriber(phone)
    else if |phone| == 10 then phone[0] == '0' && Subscriber(phone[1..])
    else if |phone| == 12 then phone[..3] == "254" && Subscriber(phone[3..])
    else if |phone| == 13 then phone[..4] == "+254" && Subscriber(phone[4..])
    else false
  }

  /** The alternatives of the optional prefix group, the empty one first. */
  const PREFIXES: seq<string> := ["", "0", "+254", "254"]

  /** What the pattern accepts: some alternative of the prefix group, then a
      subscriber part that runs to the end. */
  predicate MatchesPattern(phone: string) {
    exists i :: 0 <= i < |PREFIXES| && StartsWith(phone, PREFIXES[i]) && Subscriber(phone[|PREFIXES[i]|..])
  }

  /** The hand-written check accepts exactly what the pattern accepts. */
  lemma ValidatePhoneNumberIsPattern(phone: string)
    ensures ValidatePhoneNumber(phone) <==> MatchesPattern(phone)
  {
    if ValidatePhoneNumber(phone) {
      var i := if |phone| == 9 then 0 else if |phone| == 10 then 1 else if |phone| == 13 then 2 else 3;
      assert StartsWith(phone, PREFIXES[i]) && Subscriber(phone[|PREFIXES[i]|..]);
    }
    if MatchesPattern(phone) {
      var i :| 0 <= i < |PREFIXES| && StartsWith(phone, PREFIXES[i]) && Subscriber(phone[|PREFIXES[i]|..]);
      assert |phone| == |PREFIXES[i]| + 9;
      if i == 0 {
        assert phone[0..] == phone;
      }
    }
  }

  /** A valid number stays valid in its display form, which then carries
      no international prefix. */
  lemma FormatKeepsValid(phone: string)
    requires ValidatePhoneNumber(phone)
    ensures ValidatePhoneNumber(FormatPhoneNumber(phone))
    ensures !StartsWith(FormatPhoneNumber(phone), "+254")
  {
    var f := FormatPhoneNumber(phone);
    if StartsWith(phone, "+254") {
      assert |phone| == 13;
      assert f[1..] == phone[4..];
    } else {
      assert f == phone;
      if |phone| == 9 {
        assert phone[0] != '+';
      }
    }
  }

  // ---------------------------------------------------------------------
  // The availability hint

  const NONE := "No "
  const NONE_TAIL := "s currently registered"
  const ONE := "1"
  const ONE_TAIL := " available"
  const MANY_TAIL := "s available"
  const IN := " in "

  /** `getWorkerAvailabilityMessage`. */
  function AvailabilityMessage(skill: string, location: string, count: int): string {
    if skill == "" || location == "" then ""
    else if count == 0 then NONE + skill + NONE_TAIL + IN + location
    else if count == 1 then ONE + " " + skill + ONE_TAIL + IN + location
    else IntToString(count) + " " + skill + MANY_TAIL + IN + location
  }

  /** Rendered numbers contain no space. */
  lemma IntToStringHasNoSpace(i: int)
    ensures ' ' !in IntToString(i)
  {
    var s := IntToString(i);
    var m: nat := if i < 0 then -i else i;
    assert forall k :: 0 <= k < |NatToString(m)| ==> NatToString(m)[k] != ' ';
    if i < 0 {
      assert s == "-" + NatToString(m);
      assert forall k :: 0 <= k < |s| ==> s[k] != ' ';
    }
  }

  /** Two texts that start with a word without spaces followed by a space
      agree on that word. */
  lemma FirstWord(a: string, r: string, b: string, q: string)
    requires ' ' !in a && ' ' !in b
    requires a + " " + r == b + " " + q
    ensures a == b
  {
    var s := a + " " + r;
    assert s[|a|] == ' ';
    assert (b + " " + q)[|b|] == ' ';
    assert forall k :: 0 <= k < |a| ==> s[k] == a[k];
    assert forall k :: 0 <= k < |b| ==> s[k] == b[k];
    assert a == s[..|a|];
  }

  /** The hint is empty exactly when the skill or the location is missing,
      and otherwise ends with the location. */
  lemma AvailabilityMessageEmpty(skill: string, location: string, count: int)
    ensures AvailabilityMessage(skill, location, count) == "" <==> skill == "" || location == ""
    ensures AvailabilityMessage(skill, location, count) != "" ==>
      var m := AvailabilityMessage(skill, location, count);
      var tail := IN + location;
      |tail| <= |m| && m[|m| - |tail|..] == tail
  {
    if skill != "" && location != "" {
      var m := AvailabilityMessage(skill, location, count);
      var tail := IN + location;
      var head := if count == 0 then NONE + skill + NONE_TAIL
                  else if count == 1 then ONE + " " + skill + ONE_TAIL
                  else IntToString(count) + " " + skill + MANY_TAIL;
      AppendAssoc(head, IN, location);
      assert m == head + tail;
      assert m[|head|..] == tail;
    }
  }

  /** Different counts give different texts: no workers, one worker and
      several workers read differently, and the number shown is the count. */
  lemma AvailabilityMessageDistinct(skill: string, location: string, c1: int, c2: int)
    requires skill != "" && location != ""
    requires AvailabilityMessage(skill, location, c1) == AvailabilityMessage(skill, location, c2)
    ensures c1 == c2
  {
    if c1 != 0 && c2 != 0 {
      WordCount(skill, location, c1);
      WordCount(skill, location, c2);
      var r1 := if c1 == 1 then skill + ONE_TAIL + IN + location else skill + MANY_TAIL + IN + location;
      var r2 := if c2 == 1 then skill + ONE_TAIL + IN + location else skill + MANY_TAIL + IN + location;
      FirstWord(Shown(c1), r1, Shown(c2), r2);
      ParseIntOfIntToString(c1);
      ParseIntOfIntToString(c2);
    } else if c1 != c2 {
      var other := if c1 == 0 then c2 else c1;
      WordCount(skill, location, other);
      IntToStringHead(other);
      NoneHead(skill, location);
    }
  }

  /** The number as the hint writes it. */
  function Shown(count: int): string {
    if count == 1 then ONE else IntToString(count)
  }

  lemma NoneHead(skill: string, location: string)
    requires skill != "" && location != ""
    ensures AvailabilityMessage(skill, location, 0)[0] == 'N'
  {
    assert AvailabilityMessage(skill, location, 0)[0] == NONE[0];
  }

  lemma IntToStringHead(i: int)
    ensures IntToString(i)[0] == '-' || '0' <= IntToString(i)[0] <= '9'
  {
  }

  /** A hint for a non-zero count starts with the number and a space. */
  lemma WordCount(skill: string, location: string, count: int)
    requires skill != "" && location != "" && count != 0
    ensures Shown(count) == IntToString(count)
    ensures ' ' !in Shown(count)
    ensures AvailabilityMessage(skill, location, count)[0] == Shown(count)[0]
    ensures AvailabilityMessage(skill, location, count)
         == Shown(count) + " " + (if count == 1 then skill + ONE_TAIL + IN + location
                                  else skill + MANY_TAIL + IN + location)
  {
    IntToStringHasNoSpace(count);
    assert IntToString(1) == "1";
    var t := if count == 1 then ONE_TAIL else MANY_TAIL;
    var head := Shown(count);
    assert AvailabilityMessage(skill, location, count) == head + " " + skill + t + IN + location;
    Regroup(head, skill, t, location);
  }

  /** The hint's pieces, grouped as number, space and the rest. */
  lemma Regroup(head: string, skill: string, t: string, location: string)
    requires |head| >= 1
    ensures head + " " + skill + t + IN + location == head + " " + (skill + t + IN + location)
    ensures (head + " " + skill + t + IN + location)[0] == head[0]
  {
    AppendAssoc(head + " " + skill, t, IN);
    AppendAssoc(head + " " + skill + t, IN, location);
    AppendAssoc(head + " ", skill, t + IN + location);
    AppendAssoc(skill, t, IN + location);
    AppendAssoc(skill + t, IN, location);
  }

  const AVAILABLE_COLOR := "text-green-500"
  const EMPTY_COLOR := "text-blue-400"

  /** `getWorkerAvailabilityColor`. */
  function AvailabilityColor(count: int): string {
    if count == 0 then EMPTY_COLOR
    else if count > 0 then AVAILABLE_COLOR
    else EMPTY_COLOR
  }

  /** Green exactly when some worker is available, blue otherwise. */
  lemma AvailabilityColorSpec(count: int)
    ensures AvailabilityColor(count) == AVAILABLE_COLOR <==> count > 0
    ensures AvailabilityColor(count) == EMPTY_COLOR <==> count <= 0
  {
  }
}
