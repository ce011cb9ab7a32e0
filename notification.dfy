/** The job-match notifier: for a match it texts the worker the job's
    details through the SMS gateway and, when the gateway reports success,
    marks the match as notified. The gateway is an abstract function from a
    message to the report it gives back.

    `Send` and `SendAll` are the pure effect of one notification and of a
    batch on the database; class `NotificationService` performs them on a
    `Store`, keeping the messages it handed to the gateway in `outbox`. */
module Notification {
  import opened Wrappers
  import opened Schema
  import opened Storage
  import opened JsText

  // ---------------------------------------------------------------------
  // The phone number and the message

  /** The number in international form: trimmed, `+` put in front when it is
      not there, then every white space character deleted. */
  function NormalizePhone(phone: string): string {
    var t := Trim(phone);
    RemoveWhite(if StartsWith(t, "+") then t else "+" + t)
  }

  lemma TrimStartsDark(s: string)
    ensures Trim(s) == [] || !IsWhite(Trim(s)[0])
  {
    var t := TrimStart(s);
    if Trim(s) != [] {
      assert Trim(s)[0] == t[0];
    }
  }

  /** Deleting white space from a `+`-prefixed text keeps the `+` first. */
  lemma RemoveWhitePlus(t: string)
    ensures RemoveWhite("+" + t) == "+" + RemoveWhite(t)
  {
    assert ("+" + t)[1..] == t;
  }

  /** A normalised number starts with `+` and has no white space. */
  lemma NormalizePhoneShape(phone: string)
    ensures StartsWith(NormalizePhone(phone), "+")
    ensures NoWhite(NormalizePhone(phone))
  {
    var t := Trim(phone);
    TrimStartsDark(phone);
    if StartsWith(t, "+") {
      assert t == "+" + t[1..];
      RemoveWhitePlus(t[1..]);
    } else {
      RemoveWhitePlus(t);
    }
  }

  /** Normalising twice is normalising once. */
  lemma NormalizePhoneIdempotent(phone: string)
    ensures NormalizePhone(NormalizePhone(phone)) == NormalizePhone(phone)
  {
    var r := NormalizePhone(phone);
    NormalizePhoneShape(phone);
    TrimOfNoWhite(r);
  }

  lemma {:induction false} RemoveWhiteAppend(a: string, b: string)
    ensures RemoveWhite(a + b) == RemoveWhite(a) + RemoveWhite(b)
  {
    if a == [] {
      assert a + b == b;
    } else {
      assert (a + b)[0] == a[0];
      assert (a + b)[1..] == a[1..] + b;
      RemoveWhiteAppend(a[1..], b);
    }
  }

  lemma {:induction false} RemoveWhiteOfTrimStart(s: string)
    ensures RemoveWhite(TrimStart(s)) == RemoveWhite(s)
  {
    if s != [] && IsWhite(s[0]) {
      RemoveWhiteOfTrimStart(s[1..]);
    }
  }

  lemma {:induction false} RemoveWhiteOfTrimEnd(s: string)
    ensures RemoveWhite(TrimEnd(s)) == RemoveWhite(s)
  {
    if s != [] && IsWhite(s[|s| - 1]) {
      var front := s[..|s| - 1];
      assert s == front + [s[|s| - 1]];
      RemoveWhiteAppend(front, [s[|s| - 1]]);
      assert RemoveWhite([s[|s| - 1]]) == [];
      RemoveWhiteOfTrimEnd(front);
    }
  }

  /** Trimming deletes only white space. */
  lemma RemoveWhiteOfTrim(s: string)
    ensures RemoveWhite(Trim(s)) == RemoveWhite(s)
  {
    RemoveWhiteOfTrimStart(s);
    RemoveWhiteOfTrimEnd(TrimStart(s));
  }

  /** Deleting white space from a text that starts dark keeps its first
      character first. */
  lemma RemoveWhiteKeepsDarkStart(t: string)
    requires t == [] || !IsWhite(t[0])
    ensures StartsWith(RemoveWhite(t), "+") <==> StartsWith(t, "+")
  {
    if t != [] {
      assert t == [t[0]] + t[1..];
      RemoveWhiteAppend([t[0]], t[1..]);
      assert RemoveWhite([t[0]]) == [t[0]];
      assert RemoveWhite(t)[0] == t[0];
    }
  }

  /** The number is the caller's non-white characters, with a `+` added in
      front exactly when they do not already start with one. */
  lemma NormalizePhoneKeepsDigits(phone: string)
    ensures var d := RemoveWhite(phone);
      NormalizePhone(phone) == if StartsWith(d, "+") then d else "+" + d
  {
    var t := Trim(phone);
    assert RemoveWhite(t) == RemoveWhite(phone) by {
      RemoveWhiteOfTrim(phone);
    }
    assert StartsWith(RemoveWhite(t), "+") <==> StartsWith(t, "+") by {
      TrimStartsDark(phone);
      RemoveWhiteKeepsDarkStart(t);
    }
    if !StartsWith(t, "+") {
      RemoveWhitePlus(t);
    }
  }

  /** `job.additionalNotes || 'N/A'`: absent and empty notes both read `N/A`. */
  function NotesShown(notes: Option<string>): string {
    match notes
    case Some(n) => if n == "" then "N/A" else n
    case None => "N/A"
  }

  /** The text of the job alert. */
  function JobMatchSms(j: Job): string {
    "Job alert: " + j.skillRequired + " needed in " + j.location
    + ". Pay: KSh " + IntToString(j.dailyRate) + "/day, Duration: " + j.projectDuration
    + " days. Details: " + NotesShown(j.additionalNotes)
    + ". Call " + j.contactPhone + " to apply. By Yaya Labor."
  }

  /** The alert names the job's skill and location first; other job columns
      than the six it shows do not change it, and empty notes read as no notes. */
  lemma JobMatchSmsSpec(j: Job, id: int, createdAt: Date, active: bool)
    ensures StartsWith(JobMatchSms(j), "Job alert: " + j.skillRequired + " needed in " + j.location)
    ensures JobMatchSms(j.(id := id, createdAt := createdAt, isActive := active)) == JobMatchSms(j)
    ensures JobMatchSms(j.(additionalNotes := Some(""))) == JobMatchSms(j.(additionalNotes := None))
  {
    var h := "Job alert: " + j.skillRequired + " needed in " + j.location;
    var rest := ". Pay: KSh " + IntToString(j.dailyRate) + "/day, Duration: " + j.projectDuration
      + " days. Details: " + NotesShown(j.additionalNotes)
      + ". Call " + j.contactPhone + " to apply. By Yaya Labor.";
    assert JobMatchSms(j) == h + rest;
  }

  // ---------------------------------------------------------------------
  // One notification

  /** One message handed to the gateway. */
  datatype Sms = Sms(to: string, text: string)

  /** What the gateway (or the notifier) reports. */
  datatype SendResult = SendResult(success: bool, error: Option<string>)

  /** `updateMatchNotificationStatus`: marks the match notified now when its
      details can still be read; a failing write is swallowed. */
  function MarkSent(db: Db, id: int, now: Date): Db {
    match MatchDetails(db, id)
    case None => db
    case Some(_) => NotificationUpdated(db, id, true, now).1
  }

  function MatchNotFound(id: int): string {
    "Match with ID " + IntToString(id) + " not found or missing related data"
  }

  /** The job alert for a job, addressed to a worker's normalised number. */
  function Alert(w: Worker, j: Job): Sms {
    Sms(NormalizePhone(w.phone), JobMatchSms(j))
  }

  /** `sendJobMatchSMS`: the report, the database after it, and the messages sent. */
  function Send(db: Db, id: int, gateway: Sms -> SendResult, now: Date): (SendResult, Db, seq<Sms>) {
    match MatchDetails(db, id)
    case None =>
      (SendResult(false, Some(MatchNotFound(id))), db, [])
    case Some(d) =>
      var sms := Alert(d.worker, d.job);
      var res := gateway(sms);
      (res, if res.success then MarkSent(db, id, now) else db, [sms])
  }

  /** Rewriting the notification columns of the matches with one id keeps the
      lookup of every id: the same row, with the new columns where the id is
      the one rewritten. */
  lemma MatchByIdAfterNotification(db: Db, id: int, time: Date, x: int)
    requires NotificationUpdated(db, id, true, time).0.Ok?
    ensures var ms := NotificationUpdated(db, id, true, time).1.matches;
      MatchById(ms, x) == match MatchById(db.matches, x)
        case None => None
        case Some(m) => Some(if x == id then m.(notificationSent := true, notificationTime := Some(time)) else m)
  {
    var f := (m: Match) => if m.id == id then m.(notificationSent := true, notificationTime := Some(time)) else m;
    FirstOfRewritten(db.matches, NotificationUpdated(db, id, true, time).1.matches, (m: Match) => m.id == x, f);
  }

  /** What a notification reads of a match: its worker and its job. */
  function Linked(db: Db, id: int): Option<(Worker, Job)> {
    match MatchDetails(db, id)
    case None => None
    case Some(d) => Some((d.worker, d.job))
  }

  /** Marking a match notified leaves every match's worker and job in place. */
  lemma MarkSentKeepsLinks(db: Db, id: int, now: Date, x: int)
    ensures Linked(MarkSent(db, id, now), x) == Linked(db, x)
  {
    if MatchDetails(db, id).Some? && NotificationUpdated(db, id, true, now).0.Ok? {
      MatchByIdAfterNotification(db, id, now, x);
    }
  }

  /** A notification reads only the match's worker and job. */
  lemma SendReadsLinks(a: Db, b: Db, id: int, gateway: Sms -> SendResult, now: Date)
    requires Linked(a, id) == Linked(b, id)
    ensures Send(a, id, gateway, now).0 == Send(b, id, gateway, now).0
    ensures Send(a, id, gateway, now).2 == Send(b, id, gateway, now).2
  {
  }

  /** A notification leaves every match's worker and job in place. */
  lemma SendKeepsLinks(db: Db, id: int, gateway: Sms -> SendResult, now: Date, x: int)
    ensures Linked(Send(db, id, gateway, now).1, x) == Linked(db, x)
  {
    MarkSentKeepsLinks(db, id, now, x);
  }

  /** A match, worker or job that is missing: failure, nothing sent, nothing written. */
  lemma SendWithoutDetails(db: Db, id: int, gateway: Sms -> SendResult, now: Date)
    requires MatchDetails(db, id).None?
    ensures !Send(db, id, gateway, now).0.success
    ensures Send(db, id, gateway, now).1 == db
    ensures Send(db, id, gateway, now).2 == []
  {
  }

  /** Otherwise exactly one message, the alert for the job, to the worker's
      normalised number; the report is the gateway's; on failure nothing is
      written. */
  lemma SendWithDetails(db: Db, id: int, gateway: Sms -> SendResult, now: Date)
    requires MatchDetails(db, id).Some?
    ensures var d := MatchDetails(db, id).value;
      var sms := Sms(NormalizePhone(d.worker.phone), JobMatchSms(d.job));
      && Send(db, id, gateway, now).2 == [sms]
      && Send(db, id, gateway, now).0 == gateway(sms)
      && (!gateway(sms).success ==> Send(db, id, gateway, now).1 == db)
  {
  }

  /** A notification whose details are found reports the gateway's answer
      to the alert for their job sent to their worker. */
  lemma SendReportsGateway(db: Db, id: int, m: Match, w: Worker, j: Job, gateway: Sms -> SendResult, now: Date)
    requires MatchDetails(db, id) == Some(Details(m, w, j))
    ensures Send(db, id, gateway, now).0 == gateway(Alert(w, j))
  {
  }

  /** The whole effect of a notification whose details are found, for the
      alert those details give. */
  lemma SendOutcome(db: Db, id: int, gateway: Sms -> SendResult, now: Date, sms: Sms)
    requires MatchDetails(db, id).Some?
    requires sms == Sms(NormalizePhone(MatchDetails(db, id).value.worker.phone), JobMatchSms(MatchDetails(db, id).value.job))
    ensures Send(db, id, gateway, now) == (gateway(sms), if gateway(sms).success then MarkSent(db, id, now) else db, [sms])
  {
  }

  /** On success the match is marked notified at `now`, and no other match,
      worker, job or session changes. */
  lemma SendMarksOnSuccess(db: Db, id: int, gateway: Sms -> SendResult, now: Date)
    requires MatchDetails(db, id).Some?
    requires Send(db, id, gateway, now).0.success
    ensures var d := MatchDetails(db, id).value;
      var db1 := Send(db, id, gateway, now).1;
      && db1 == db.(matches := db1.matches)
      && MatchById(db1.matches, id) == Some(d.pairing.(notificationSent := true, notificationTime := Some(now)))
      && |db1.matches| == |db.matches|
      && forall i :: 0 <= i < |db.matches| && db.matches[i].id != id ==> db1.matches[i] == db.matches[i]
  {
    SendIsUpdate(db, id, gateway, now);
    MatchByIdAfterNotification(db, id, now, id);
  }

  /** A successful notification writes what `updateMatchNotificationStatus` writes. */
  lemma SendIsUpdate(db: Db, id: int, gateway: Sms -> SendResult, now: Date)
    requires MatchDetails(db, id).Some?
    requires Send(db, id, gateway, now).0.success
    ensures NotificationUpdated(db, id, true, now).0.Ok?
    ensures Send(db, id, gateway, now).1 == NotificationUpdated(db, id, true, now).1
  {
    assert MatchById(db.matches, id).Some?;
  }

  // ---------------------------------------------------------------------
  // A batch

  /** One line of the batch report. */
  datatype BulkEntry = BulkEntry(matchId: int, success: bool, error: Option<string>)

  function Entry(id: int, r: SendResult): BulkEntry {
    BulkEntry(id, r.success, r.error)
  }

  /** `sendBulkJobMatchSMS`: the ids notified one after another, each on the
      database the previous ones left. */
  function SendAll(db: Db, ids: seq<int>, gateway: Sms -> SendResult, now: Date): (out: (seq<BulkEntry>, Db, seq<Sms>))
    ensures |out.0| == |ids|
    decreases |ids|
  {
    if ids == [] then ([], db, [])
    else
      var (rs, db1, sent) := SendAll(db, ids[..|ids| - 1], gateway, now);
      var (r, db2, s) := Send(db1, ids[|ids| - 1], gateway, now);
      var entries := rs + [Entry(ids[|ids| - 1], r)];
      assert forall k :: 0 <= k < |ids| - 1 ==> entries[k] == rs[k] && ids[..|ids| - 1][k] == ids[k];
      (entries, db2, sent + s)
  }

  /** The report lines of a batch come in the order of its ids. */
  lemma {:induction false} SendAllInOrder(db: Db, ids: seq<int>, gateway: Sms -> SendResult, now: Date)
    ensures var out := SendAll(db, ids, gateway, now);
      forall k :: 0 <= k < |ids| ==> out.0[k].matchId == ids[k]
    decreases |ids|
  {
    if ids != [] {
      var front := ids[..|ids| - 1];
      SendAllInOrder(db, front, gateway, now);
      var rs := SendAll(db, front, gateway, now).0;
      var es := SendAll(db, ids, gateway, now).0;
      SendAllLastEntry(db, ids, gateway, now);
      EntriesInOrder(rs, es, front, ids);
    }
  }

  /** Report lines in the order of `front`, followed by one for the last id,
      are in the order of `ids`. */
  lemma EntriesInOrder(rs: seq<BulkEntry>, es: seq<BulkEntry>, front: seq<int>, ids: seq<int>)
    requires ids != [] && front == ids[..|ids| - 1] && |rs| == |front|
    requires |es| == |ids| && es == rs + [es[|ids| - 1]] && es[|ids| - 1].matchId == ids[|ids| - 1]
    requires forall k :: 0 <= k < |front| ==> rs[k].matchId == front[k]
    ensures forall k :: 0 <= k < |ids| ==> es[k].matchId == ids[k]
  {
    forall k | 0 <= k < |ids|
      ensures es[k].matchId == ids[k]
    {
      if k < |front| {
        assert es[k] == rs[k] && front[k] == ids[k];
      }
    }
  }

  /** A batch reports on its earlier ids and then on its last one. */
  lemma SendAllLastEntry(db: Db, ids: seq<int>, gateway: Sms -> SendResult, now: Date)
    requires ids != []
    ensures var es := SendAll(db, ids, gateway, now).0;
      && es == SendAll(db, ids[..|ids| - 1], gateway, now).0 + [es[|ids| - 1]]
      && es[|ids| - 1].matchId == ids[|ids| - 1]
  {
  }

  /** One report line per id, in order, each what a lone notification of that
      id on the original database would report: an earlier failure changes
      nothing for the later ids. */
  lemma {:induction false} SendAllIndependent(db: Db, ids: seq<int>, gateway: Sms -> SendResult, now: Date)
    ensures var out := SendAll(db, ids, gateway, now);
      && (forall k :: 0 <= k < |ids| ==> out.0[k] == Entry(ids[k], Send(db, ids[k], gateway, now).0))
      && (forall x :: Linked(out.1, x) == Linked(db, x))
    decreases |ids|
  {
    if ids != [] {
      var front := ids[..|ids| - 1];
      var last := ids[|ids| - 1];
      SendAllIndependent(db, front, gateway, now);
      SendAllInOrder(db, front, gateway, now);
      SendAllInOrder(db, ids, gateway, now);
      var (rs, db1, sent) := SendAll(db, front, gateway, now);
      SendReadsLinks(db1, db, last, gateway, now);
      forall x
        ensures Linked(SendAll(db, ids, gateway, now).1, x) == Linked(db, x)
      {
        SendKeepsLinks(db1, last, gateway, now, x);
      }
      var out := SendAll(db, ids, gateway, now);
      forall k | 0 <= k < |ids|
        ensures out.0[k] == Entry(ids[k], Send(db, ids[k], gateway, now).0)
      {
        if k < |front| {
          assert out.0[k] == rs[k] && front[k] == ids[k];
        }
      }
    }
  }

  lemma SendMessageCount(db: Db, id: int, gateway: Sms -> SendResult, now: Date)
    ensures |Send(db, id, gateway, now).2| == if Linked(db, id).Some? then 1 else 0
  {
  }

  /** The ids whose match, worker and job all exist, in order. */
  function Notifiable(db: Db, ids: seq<int>): seq<int> {
    Filter(ids, (x: int) => Linked(db, x).Some?)
  }

  lemma NotifiableSnoc(db: Db, ids: seq<int>)
    requires ids != []
    ensures var last := ids[|ids| - 1];
      |Notifiable(db, ids)| == |Notifiable(db, ids[..|ids| - 1])| + (if Linked(db, last).Some? then 1 else 0)
  {
    var keep := (x: int) => Linked(db, x).Some?;
    var front, last := ids[..|ids| - 1], ids[|ids| - 1];
    assert ids == front + [last];
    FilterAppend(front, [last], keep);
    FilterSingle(last, keep);
  }

  /** The batch hands the gateway one message per id whose details exist,
      and none for the others. */
  lemma {:induction false} SendAllMessageCount(db: Db, ids: seq<int>, gateway: Sms -> SendResult, now: Date)
    ensures |SendAll(db, ids, gateway, now).2| == |Notifiable(db, ids)|
    decreases |ids|
  {
    if ids != [] {
      var front := ids[..|ids| - 1];
      var last := ids[|ids| - 1];
      var db1 := SendAll(db, front, gateway, now).1;
      SendAllMessageCount(db, front, gateway, now);
      assert Linked(db1, last) == Linked(db, last) by {
        SendAllIndependent(db, front, gateway, now);
      }
      SendMessageCount(db1, last, gateway, now);
      assert |SendAll(db, ids, gateway, now).2|
          == |SendAll(db, front, gateway, now).2| + |Send(db1, last, gateway, now).2|;
      NotifiableSnoc(db, ids);
    }
  }

  /** When every id is linked, the batch texts each of them. */
  lemma {:induction false} NotifiableAll(db: Db, ids: seq<int>)
    requires forall k :: 0 <= k < |ids| ==> Linked(db, ids[k]).Some?
    ensures |Notifiable(db, ids)| == |ids|
    decreases |ids|
  {
    if ids != [] {
      NotifiableAll(db, ids[..|ids| - 1]);
      NotifiableSnoc(db, ids);
    }
  }

  /** `n` is `m` with at most its notification columns rewritten. */
  predicate SameMatch(m: Match, n: Match) {
    n.id == m.id && n.jobId == m.jobId && n.workerId == m.workerId && n.workerResponded == m.workerResponded
  }

  /** `b` differs from `a` at most in the notification columns of the matches. */
  predicate OnlyNotifications(a: Db, b: Db) {
    && b == a.(matches := b.matches)
    && |b.matches| == |a.matches|
    && forall i :: 0 <= i < |a.matches| ==> SameMatch(a.matches[i], b.matches[i])
  }

  lemma OnlyNotificationsTrans(a: Db, b: Db, c: Db)
    requires OnlyNotifications(a, b) && OnlyNotifications(b, c)
    ensures OnlyNotifications(a, c)
  {
  }

  /** A notification writes nothing but notification columns. */
  lemma SendOnlyNotifies(db: Db, id: int, gateway: Sms -> SendResult, now: Date)
    ensures OnlyNotifications(db, Send(db, id, gateway, now).1)
  {
    if MatchDetails(db, id).Some? && Send(db, id, gateway, now).0.success {
      SendIsUpdate(db, id, gateway, now);
      MarkingOnlyNotifies(db, id, now);
    }
  }

  lemma MarkingOnlyNotifies(db: Db, id: int, now: Date)
    ensures OnlyNotifications(db, NotificationUpdated(db, id, true, now).1)
  {
    var out := NotificationUpdated(db, id, true, now);
    if out.0.Ok? {
      forall i | 0 <= i < |db.matches|
        ensures SameMatch(db.matches[i], out.1.matches[i])
      {
      }
    }
  }

  /** Nor does a batch of them. */
  lemma {:induction false} SendAllOnlyNotifies(db: Db, ids: seq<int>, gateway: Sms -> SendResult, now: Date)
    ensures OnlyNotifications(db, SendAll(db, ids, gateway, now).1)
    decreases |ids|
  {
    if ids == [] {
      assert SendAll(db, ids, gateway, now).1 == db;
    } else {
      var front := ids[..|ids| - 1];
      var db1 := SendAll(db, front, gateway, now).1;
      SendAllOnlyNotifies(db, front, gateway, now);
      SendOnlyNotifies(db1, ids[|ids| - 1], gateway, now);
      OnlyNotificationsTrans(db, db1, SendAll(db, ids, gateway, now).1);
    }
  }

  /** A notification leaves the rows of every other id as they were. */
  lemma SendKeepsOthers(db: Db, id: int, gateway: Sms -> SendResult, now: Date, i: int)
    requires 0 <= i < |db.matches| && db.matches[i].id != id
    ensures |Send(db, id, gateway, now).1.matches| == |db.matches|
    ensures Send(db, id, gateway, now).1.matches[i] == db.matches[i]
  {
    if MatchDetails(db, id).Some? {
      assert MatchById(db.matches, id).Some?;
      var m := MatchById(db.matches, id).value;
      var p :| 0 <= p < |db.matches| && db.matches[p] == m && m.id == id;
      assert NotificationUpdated(db, id, true, now).0.Ok?;
    }
  }

  /** A batch rewrites only the rows of the ids it is given. */
  lemma {:induction false} SendAllKeepsOthers(db: Db, ids: seq<int>, gateway: Sms -> SendResult, now: Date)
    ensures var db2 := SendAll(db, ids, gateway, now).1;
      && |db2.matches| == |db.matches|
      && forall i :: 0 <= i < |db.matches| && db.matches[i].id !in ids ==> db2.matches[i] == db.matches[i]
    decreases |ids|
  {
    if ids == [] {
      assert SendAll(db, ids, gateway, now).1 == db;
    } else {
      var front, last := ids[..|ids| - 1], ids[|ids| - 1];
      var db1 := SendAll(db, front, gateway, now).1;
      var db2 := SendAll(db, ids, gateway, now).1;
      SendAllKeepsOthers(db, front, gateway, now);
      SendAllInOrder(db, front, gateway, now);
      SendAllInOrder(db, ids, gateway, now);
      SendOnlyNotifies(db1, last, gateway, now);
      assert db2 == Send(db1, last, gateway, now).1;
      forall i | 0 <= i < |db.matches| && db.matches[i].id !in ids
        ensures db2.matches[i] == db.matches[i]
      {
        assert ids == front + [last];
        assert db.matches[i].id !in front;
        SendKeepsOthers(db1, last, gateway, now, i);
      }
    }
  }

  /** In a batch of distinct ids, a row of one of them ends up marked notified
      at `now` exactly when a lone notification of its id on the original
      database would have succeeded, and as it was otherwise. */
  lemma {:induction false} SendAllRow(db: Db, ids: seq<int>, gateway: Sms -> SendResult, now: Date, i: int)
    requires 0 <= i < |db.matches| && db.matches[i].id in ids
    requires forall p, q :: 0 <= p < q < |ids| ==> ids[p] != ids[q]
    ensures var db2 := SendAll(db, ids, gateway, now).1;
      && |db2.matches| == |db.matches|
      && db2.matches[i] == if Send(db, db.matches[i].id, gateway, now).0.success
                           then db.matches[i].(notificationSent := true, notificationTime := Some(now))
                           else db.matches[i]
    decreases |ids|
  {
    var x := db.matches[i].id;
    var front, last := ids[..|ids| - 1], ids[|ids| - 1];
    var db1 := SendAll(db, front, gateway, now).1;
    SendAllInOrder(db, front, gateway, now);
    SendAllInOrder(db, ids, gateway, now);
    SendAllLast(db, ids, gateway, now);
    if last == x {
      SendAllBeforeLast(db, ids, gateway, now, i);
      SendRow(db1, x, gateway, now, i);
    } else {
      assert x in front by {
        assert ids == front + [last];
      }
      assert forall p, q :: 0 <= p < q < |front| ==> front[p] != front[q] by {
        forall p, q | 0 <= p < q < |front|
          ensures front[p] != front[q]
        {
          assert front[p] == ids[p] && front[q] == ids[q];
        }
      }
      SendAllRow(db, front, gateway, now, i);
      SendKeepsOthers(db1, last, gateway, now, i);
    }
  }

  /** A batch ends with the notification of its last id. */
  lemma SendAllLast(db: Db, ids: seq<int>, gateway: Sms -> SendResult, now: Date)
    requires ids != []
    ensures SendAll(db, ids, gateway, now).1
         == Send(SendAll(db, ids[..|ids| - 1], gateway, now).1, ids[|ids| - 1], gateway, now).1
  {
  }

  /** When a batch of distinct ids ends with a row's id, the ids before it
      leave that row as it was and do not change what its notification
      reports. */
  lemma SendAllBeforeLast(db: Db, ids: seq<int>, gateway: Sms -> SendResult, now: Date, i: int)
    requires ids != [] && 0 <= i < |db.matches| && db.matches[i].id == ids[|ids| - 1]
    requires forall p, q :: 0 <= p < q < |ids| ==> ids[p] != ids[q]
    ensures var db1 := SendAll(db, ids[..|ids| - 1], gateway, now).1;
      && |db1.matches| == |db.matches| && db1.matches[i] == db.matches[i]
      && Send(db1, db.matches[i].id, gateway, now).0 == Send(db, db.matches[i].id, gateway, now).0
  {
    var front, x := ids[..|ids| - 1], ids[|ids| - 1];
    assert x !in front by {
      forall p | 0 <= p < |front|
        ensures front[p] != x
      {
        assert front[p] == ids[p];
      }
    }
    var db1 := SendAll(db, front, gateway, now).1;
    SendAllKeepsOthers(db, front, gateway, now);
    SendAllIndependent(db, front, gateway, now);
    SendReadsLinks(db1, db, x, gateway, now);
  }

  /** The notification of a row's own id marks that row notified at `now`
      exactly when it succeeds. */
  lemma SendRow(db: Db, x: int, gateway: Sms -> SendResult, now: Date, i: int)
    requires 0 <= i < |db.matches| && db.matches[i].id == x
    ensures var db1 := Send(db, x, gateway, now).1;
      && |db1.matches| == |db.matches|
      && db1.matches[i] == if Send(db, x, gateway, now).0.success
                           then db.matches[i].(notificationSent := true, notificationTime := Some(now))
                           else db.matches[i]
  {
    if MatchDetails(db, x).Some? && Send(db, x, gateway, now).0.success {
      SendIsUpdate(db, x, gateway, now);
    }
  }

  /** Rewriting notification columns keeps the store's invariant. */
  lemma OnlyNotificationsPreservesValid(a: Db, b: Db)
    requires Valid(a) && OnlyNotifications(a, b)
    ensures Valid(b)
  {
    forall i | 0 <= i < |b.matches|
      ensures b.matches[i].id < b.nextMatchId
    {
      assert b.matches[i].id == a.matches[i].id;
    }
  }

  lemma SendAllPreservesValid(db: Db, ids: seq<int>, gateway: Sms -> SendResult, now: Date)
    requires Valid(db)
    ensures Valid(SendAll(db, ids, gateway, now).1)
  {
    SendAllOnlyNotifies(db, ids, gateway, now);
    OnlyNotificationsPreservesValid(db, SendAll(db, ids, gateway, now).1);
  }

  // ---------------------------------------------------------------------
  // The service on a store

  class NotificationService {
    const store: Store
    const gateway: Sms -> SendResult
    /** The messages handed to the gateway so far. */
    var outbox: seq<Sms>

    constructor(store: Store, gateway: Sms -> SendResult)
      ensures this.store == store && this.gateway == gateway && outbox == []
    {
      this.store := store;
      this.gateway := gateway;
      outbox := [];
    }

    method UpdateMatchNotificationStatus(matchId: int, now: Date)
      modifies store
      ensures store.State() == MarkSent(old(store.State()), matchId, now)
    {
      var details := store.GetMatchWithDetails(matchId);
      if details.Some? {
        var _ := store.UpdateMatchNotification(matchId, true, now);
      }
    }

    method SendJobMatchSms(matchId: int, now: Date) returns (r: SendResult)
      modifies this, store
      ensures var out := Send(old(store.State()), matchId, gateway, now);
        r == out.0 && store.State() == out.1 && outbox == old(outbox) + out.2
    {
      var details := store.GetMatchWithDetails(matchId);
      ghost var db := store.State();
      assert db == old(store.State());
      if details.None? {
        return SendResult(false, Some(MatchNotFound(matchId)));
      }
      var phone := Trim(details.value.worker.phone);
      if !StartsWith(phone, "+") {
        phone := "+" + phone;
      }
      phone := RemoveWhite(phone);
      assert phone == NormalizePhone(details.value.worker.phone);
      var sms := Sms(phone, JobMatchSms(details.value.job));
      SendOutcome(db, matchId, gateway, now, sms);
      r := gateway(sms);
      if r.success {
        UpdateMatchNotificationStatus(matchId, now);
      }
      outbox := outbox + [sms];
    }

    method SendBulkJobMatchSms(matchIds: seq<int>, now: Date) returns (results: seq<BulkEntry>)
      modifies this, store
      ensures var (rs, db1, sent) := SendAll(old(store.State()), matchIds, gateway, now);
        results == rs && store.State() == db1 && outbox == old(outbox) + sent
    {
      results := [];
      var i := 0;
      while i < |matchIds|
        invariant 0 <= i <= |matchIds|
        invariant var (rs, db1, sent) := SendAll(old(store.State()), matchIds[..i], gateway, now);
          results == rs && store.State() == db1 && outbox == old(outbox) + sent
      {
        ghost var before := outbox;
        assert matchIds[..i + 1][..i] == matchIds[..i];
        var r := SendJobMatchSms(matchIds[i], now);
        AppendAssoc(old(outbox), SendAll(old(store.State()), matchIds[..i], gateway, now).2,
                    Send(SendAll(old(store.State()), matchIds[..i], gateway, now).1, matchIds[i], gateway, now).2);
        results := results + [Entry(matchIds[i], r)];
        i := i + 1;
      }
      assert matchIds[..i] == matchIds;
    }
  }

  /** What a batch send needs to know of one row: it sits at `i` with the id
      `id`, which the batch names once; its id, worker and job are found; and
      it is unsent, stamped `now`. */
  predicate Markable(db: Db, ids: seq<int>, i: int, id: int, m: Match, w: Worker, j: Job, now: Date) {
    && 0 <= i < |db.matches| && db.matches[i] == m && m.id == id && id in ids
    && (forall p, q :: 0 <= p < q < |ids| ==> ids[p] != ids[q])
    && MatchById(db.matches, id) == Some(m)
    && WorkerById(db.workers, m.workerId) == Some(w) && JobById(db.jobs, m.jobId) == Some(j)
    && !m.notificationSent && m.notificationTime == Some(now)
  }

  /** In a batch of distinct ids, the unsent row of one of them, created at
      `now`, whose worker and job are found is marked by what the gateway
      answers to its alert. */
  lemma MarkedRow(db: Db, ids: seq<int>, i: int, id: int, m: Match, w: Worker, j: Job,
                  gateway: Sms -> SendResult, now: Date)
    requires Markable(db, ids, i, id, m, w, j, now)
    ensures |SendAll(db, ids, gateway, now).1.matches| == |db.matches|
    ensures SendAll(db, ids, gateway, now).1.matches[i].notificationSent == gateway(Alert(w, j)).success
    ensures SendAll(db, ids, gateway, now).1.matches[i].notificationTime == Some(now)
  {
    DetailsOfRow(db, id, m, w, j);
    SendReportsGateway(db, id, m, w, j, gateway, now);
    SendAllRow(db, ids, gateway, now, i);
  }

  /** A match whose worker and job are found joins with them. */
  lemma DetailsOfRow(db: Db, id: int, m: Match, w: Worker, j: Job)
    requires MatchById(db.matches, id) == Some(m)
    requires WorkerById(db.workers, m.workerId) == Some(w) && JobById(db.jobs, m.jobId) == Some(j)
    ensures MatchDetails(db, id) == Some(Details(m, w, j))
  {
  }
}
