/**
 * The capture session: choosing the context that hosts the date form,
 * classifying what one date's lookup produced, and the batch loop that
 * walks a list of dates, skips those already on disk, logs one entry per
 * date and reports progress.
 *
 * The browser and the remote portal are not modelled; what the portal does
 * for one date is an abstract `Remote` record, and login together with the
 * first navigation is an abstract outcome (`None` on success, the exception
 * message otherwise).
 */
module Scraper {
  import opened Wrappers
  import opened Calendar
  import opened Artifacts

  const MSG_SKIPPED: string := "이미 존재함"
  const MSG_CAPTURED: string := "캡처 완료"
  const MSG_NO_RECORD: string := "통행 기록 없음"
  const MSG_LOGIN_FAILED: string := "로그인 실패: "
  const BLANK_URL: string := "about:blank"

  // -----------------------------------------------------------------------
  // Locating the form

  /** What `query_selector("#sDate_view")` did in one context. */
  datatype Probe = Hit | Miss | Raises

  datatype FrameInfo = FrameInfo(url: string, probe: Probe)

  /** The context the date form is filled in. */
  datatype FormContext = MainPage | InFrame(index: nat)

  /** A frame the locator would pick: loaded, and holding the date field. */
  predicate HostsForm(f: FrameInfo) {
    f.url != BLANK_URL && f.probe == Hit
  }

  /**
   * The main page when it holds the date field; otherwise the first frame,
   * in order, that is not blank and holds it; otherwise the main page.
   * A lookup that raises counts as "not found".
   */
  method FindFormFrame(main: Probe, frames: seq<FrameInfo>) returns (ctx: FormContext)
    ensures main == Hit ==> ctx == MainPage
    ensures main != Hit && ctx.InFrame? ==>
      && ctx.index < |frames|
      && HostsForm(frames[ctx.index])
      && forall j :: 0 <= j < ctx.index ==> !HostsForm(frames[j])
    ensures main != Hit && ctx == MainPage ==>
      forall j :: 0 <= j < |frames| ==> !HostsForm(frames[j])
  {
    if main == Hit {
      return MainPage;
    }
    var i := 0;
    while i < |frames|
      invariant 0 <= i <= |frames|
      invariant forall j :: 0 <= j < i ==> !HostsForm(frames[j])
    {
      if frames[i].url != BLANK_URL {
        match frames[i].probe {
          case Hit => return InFrame(i);
          case Miss =>
          case Raises =>
        }
      }
      i := i + 1;
    }
    return MainPage;
  }

  // -----------------------------------------------------------------------
  // One date

  /**
   * What the portal does, stage by stage, when one date is looked up:
   * an exception message where a stage raises, `false` where an awaited
   * element or frame is absent.
   */
  datatype Remote = Remote(
    formError: Option<string>,        // filling the date fields or waiting for the lookup button raised
    resultsFrame: bool,               // the frame named if_main_post exists
    clickError: Option<string>,       // clicking the lookup button raised
    billAll: bool,                    // #billAll appeared within its timeout
    popupError: Option<string>,       // clicking #billAll, opening the pop-up or waiting for its content raised
    popupContent: bool,               // after that wait succeeded, the query found .popup_content
    closeError: Option<string>,       // closing the pop-up that has no content raised
    screenshotError: Option<string>)  // writing the element screenshot raised

  /** `capture_date`'s result: a file name, `None`, or a raised exception. */
  datatype Capture = Captured(filename: string) | NoReceipt | Raised(message: string)

  /**
   * The stages of `capture_date` in order: the first stage that raises
   * decides the result unless a missing frame or element has ended the
   * lookup before it; `None` where an element is missing.
   */
  function CaptureDate(remote: Remote, day: int): (c: Capture)
    requires InRange(day)
    ensures c.Captured? ==> c.filename == ArtifactName(day)
    ensures c.Captured? <==>
      && remote.formError.None? && remote.clickError.None?
      && remote.popupError.None? && remote.screenshotError.None?
      && remote.resultsFrame && remote.billAll && remote.popupContent
    ensures c.NoReceipt? ==> !remote.resultsFrame || !remote.billAll || !remote.popupContent
    ensures c.Raised? ==>
      Some(c.message) in {remote.formError, remote.clickError, remote.popupError, remote.closeError, remote.screenshotError}
    // filling the form comes first
    ensures remote.formError.Some? ==> c == Raised(remote.formError.value)
    ensures remote.formError.None? && !remote.resultsFrame ==> c.NoReceipt?
    // then the click, then the wait for #billAll
    ensures remote.formError.None? && remote.resultsFrame && remote.clickError.Some?
      ==> c == Raised(remote.clickError.value)
    ensures remote.formError.None? && remote.resultsFrame && remote.clickError.None? && !remote.billAll
      ==> c.NoReceipt?
    // then the pop-up and its content, then closing a pop-up without content
    ensures remote.formError.None? && remote.resultsFrame && remote.clickError.None? && remote.billAll
      && remote.popupError.Some?
      ==> c == Raised(remote.popupError.value)
    ensures remote.formError.None? && remote.resultsFrame && remote.clickError.None? && remote.billAll
      && remote.popupError.None? && !remote.popupContent
      ==> c == (if remote.closeError.Some? then Raised(remote.closeError.value) else NoReceipt)
    // finally the screenshot
    ensures remote.formError.None? && remote.resultsFrame && remote.clickError.None? && remote.billAll
      && remote.popupError.None? && remote.popupContent && remote.screenshotError.Some?
      ==> c == Raised(remote.screenshotError.value)
  {
    if remote.formError.Some? then Raised(remote.formError.value)
    else if !remote.resultsFrame then NoReceipt
    else if remote.clickError.Some? then Raised(remote.clickError.value)
    else if !remote.billAll then NoReceipt
    else if remote.popupError.Some? then Raised(remote.popupError.value)
    else if !remote.popupContent then
      (if remote.closeError.Some? then Raised(remote.closeError.value) else NoReceipt)
    else if remote.screenshotError.Some? then Raised(remote.screenshotError.value)
    else Captured(ArtifactName(day))
  }

  // -----------------------------------------------------------------------
  // The batch, as a function of the dates

  datatype Status = Success | Empty | Skipped | Error

  datatype LogEntry = LogEntry(date: string, status: Status, message: string)

  /** One call of the progress callback: (done, total, date). */
  datatype Progress = Progress(done: int, total: int, date: string)

  /** What the batch asks of the browser for a date: a capture, and after an error a re-navigation. */
  datatype BrowserCall = CaptureCall(day: int) | RecoveryCall(day: int)

  /** The log entry for `day`, given the names on disk just before it. */
  function EntryFor(day: int, names: set<string>, remote: Remote): (e: LogEntry)
    requires InRange(day)
    ensures e.date == FormatDay(day)
    ensures e.status == Skipped <==> ArtifactName(day) in names
    ensures e.status == Skipped ==> e.message == MSG_SKIPPED
    ensures ArtifactName(day) !in names ==>
      && (e.status == Success <==> CaptureDate(remote, day).Captured?)
      && (e.status == Empty <==> CaptureDate(remote, day).NoReceipt?)
      && (e.status == Success ==> e.message == MSG_CAPTURED)
      && (e.status == Empty ==> e.message == MSG_NO_RECORD)
      && (CaptureDate(remote, day).Raised? ==> e.status == Error && e.message == CaptureDate(remote, day).message)
  {
    if ArtifactName(day) in names then LogEntry(FormatDay(day), Skipped, MSG_SKIPPED)
    else match CaptureDate(remote, day)
      case Captured(_) => LogEntry(FormatDay(day), Success, MSG_CAPTURED)
      case NoReceipt => LogEntry(FormatDay(day), Empty, MSG_NO_RECORD)
      case Raised(msg) => LogEntry(FormatDay(day), Error, msg)
  }

  /** The names on disk after `day` is processed. */
  function NamesAfter(day: int, names: set<string>, remote: Remote): set<string>
    requires InRange(day)
  {
    if ArtifactName(day) !in names && CaptureDate(remote, day).Captured?
    then names + {ArtifactName(day)}
    else names
  }

  /** The browser calls made for `day`; `recover` says whether an error triggers re-navigation. */
  function CallsFor(day: int, names: set<string>, remote: Remote, recover: bool): seq<BrowserCall>
    requires InRange(day)
  {
    if ArtifactName(day) in names then []
    else if recover && CaptureDate(remote, day).Raised? then [CaptureCall(day), RecoveryCall(day)]
    else [CaptureCall(day)]
  }

  datatype RunState = RunState(log: seq<LogEntry>, names: set<string>, calls: seq<BrowserCall>)

  /** A fresh run: empty log, the names on disk, no browser calls. */
  function Start(names: set<string>): RunState {
    RunState([], names, [])
  }

  function Step(st: RunState, day: int, remote: Remote): RunState
    requires InRange(day)
  {
    RunState(
      st.log + [EntryFor(day, st.names, remote)],
      NamesAfter(day, st.names, remote),
      st.calls + CallsFor(day, st.names, remote, true))
  }

  predicate AllInRange(days: seq<int>) {
    forall i :: 0 <= i < |days| ==> InRange(days[i])
  }

  predicate Distinct(days: seq<int>) {
    forall i, j :: 0 <= i < j < |days| ==> days[i] != days[j]
  }

  /** The batch over `days`, one date after the other. */
  function Run(st: RunState, days: seq<int>, remote: int -> Remote): RunState
    requires AllInRange(days)
    decreases |days|
  {
    if days == [] then st
    else
      var last := days[|days| - 1];
      Step(Run(st, days[..|days| - 1], remote), last, remote(last))
  }

  /** Extending the dates by one runs one more step. */
  lemma RunSnoc(st: RunState, days: seq<int>, k: int, remote: int -> Remote)
    requires AllInRange(days) && 0 <= k < |days|
    ensures Run(st, days[..k + 1], remote) == Step(Run(st, days[..k], remote), days[k], remote(days[k]))
  {
    assert days[..k + 1][..k] == days[..k];
  }

  /** The progress calls of a batch over `days`: one per date, counting up to `total`. */
  function Reports(days: seq<int>, total: int): seq<Progress>
    requires AllInRange(days)
    decreases |days|
  {
    if days == [] then []
    else Reports(days[..|days| - 1], total) + [Progress(|days|, total, FormatDay(days[|days| - 1]))]
  }

  /** Extending the dates by one adds one progress call. */
  lemma ReportsSnoc(days: seq<int>, k: int, total: int)
    requires AllInRange(days) && 0 <= k < |days|
    ensures Reports(days[..k + 1], total) == Reports(days[..k], total) + [Progress(k + 1, total, FormatDay(days[k]))]
  {
    assert days[..k + 1][..k] == days[..k];
  }

  /** The i-th progress call reports i + 1 dates done out of `total`, the last being the i-th date. */
  lemma {:induction false} ReportsAt(days: seq<int>, total: int)
    requires AllInRange(days)
    ensures |Reports(days, total)| == |days|
    ensures forall i :: 0 <= i < |days| ==> Reports(days, total)[i] == Progress(i + 1, total, FormatDay(days[i]))
    decreases |days|
  {
    if days != [] {
      var init := days[..|days| - 1];
      ReportsAt(init, total);
      forall i | 0 <= i < |days|
        ensures Reports(days, total)[i] == Progress(i + 1, total, FormatDay(days[i]))
      {
        if i < |init| {
          assert days[i] == init[i];
        }
      }
    }
  }

  /** `[today - timedelta(days=i) for i in range(n)]`. */
  function Window(today: int, n: int): seq<int> {
    seq(if n > 0 then n else 0, i => today - i)
  }

  /** The window is today and the days before it, newest first, all within the calendar. */
  lemma WindowShape(today: int, n: int)
    requires InRange(today) && n <= today
    ensures var w := Window(today, n);
      && |w| == (if n > 0 then n else 0)
      && (forall i :: 0 <= i < |w| ==> w[i] == today - i)
      && AllInRange(w) && Distinct(w)
      && forall i, j :: 0 <= i < j < |w| ==> w[j] < w[i]
  {
  }

  // -----------------------------------------------------------------------
  // Properties of the batch

  /** A name that is not the artifact of any date of the batch is neither written nor removed. */
  lemma {:induction false} RunNamesOutside(names: set<string>, days: seq<int>, remote: int -> Remote, x: string)
    requires AllInRange(days)
    requires forall i :: 0 <= i < |days| ==> ArtifactName(days[i]) != x
    ensures x in Run(Start(names), days, remote).names <==> x in names
    decreases |days|
  {
    if days != [] {
      var k := |days| - 1;
      var p, last := days[..k], days[k];
      RunNamesOutside(names, p, remote, x);
      var rp := Run(Start(names), p, remote);
      assert Run(Start(names), days, remote).names == NamesAfter(last, rp.names, remote(last));
      NamesAfterOthers(last, rp.names, remote(last), x);
    }
  }

  /** Processing a date writes at most that date's artifact. */
  lemma NamesAfterOthers(day: int, names: set<string>, remote: Remote, x: string)
    requires InRange(day) && x != ArtifactName(day)
    ensures x in NamesAfter(day, names, remote) <==> x in names
  {
  }

  /** The browser is never asked about a date outside the batch. */
  lemma {:induction false} RunCallsOutside(names: set<string>, days: seq<int>, remote: int -> Remote, d: int)
    requires AllInRange(days)
    requires forall i :: 0 <= i < |days| ==> days[i] != d
    ensures CaptureCall(d) !in Run(Start(names), days, remote).calls
    ensures RecoveryCall(d) !in Run(Start(names), days, remote).calls
    decreases |days|
  {
    if days != [] {
      RunCallsOutside(names, days[..|days| - 1], remote, d);
    }
  }

  /** Distinct dates have distinct artifact names. */
  lemma OtherDaysOtherNames(days: seq<int>, d: int)
    requires AllInRange(days) && InRange(d)
    requires forall i :: 0 <= i < |days| ==> days[i] != d
    ensures forall i :: 0 <= i < |days| ==> ArtifactName(days[i]) != ArtifactName(d)
  {
    forall i | 0 <= i < |days|
      ensures ArtifactName(days[i]) != ArtifactName(d)
    {
      if ArtifactName(days[i]) == ArtifactName(d) {
        ArtifactNameInjective(days[i], d);
      }
    }
  }

  /** A date's entry depends on the directory only through its own artifact name. */
  lemma EntryByMembership(day: int, a: set<string>, b: set<string>, remote: Remote)
    requires InRange(day)
    requires ArtifactName(day) in a <==> ArtifactName(day) in b
    ensures EntryFor(day, a, remote) == EntryFor(day, b, remote)
    ensures NamesAfter(day, a, remote) - a == NamesAfter(day, b, remote) - b
    ensures CallsFor(day, a, remote, true) == CallsFor(day, b, remote, true)
  {
  }

  /** The directory before the batch decides every entry, since no two dates share a name. */
  lemma {:induction false} RunEntries(names: set<string>, days: seq<int>, remote: int -> Remote)
    requires AllInRange(days) && Distinct(days)
    ensures var r := Run(Start(names), days, remote);
      && |r.log| == |days|
      && forall i :: 0 <= i < |days| ==> r.log[i] == EntryFor(days[i], names, remote(days[i]))
    decreases |days|
  {
    if days != [] {
      var k := |days| - 1;
      var p, last := days[..k], days[k];
      RunEntries(names, p, remote);
      var rp := Run(Start(names), p, remote);
      OtherDaysOtherNames(p, last);
      RunNamesOutside(names, p, remote, ArtifactName(last));
      EntryByMembership(last, rp.names, names, remote(last));
      var log := Run(Start(names), days, remote).log;
      assert log == rp.log + [EntryFor(last, names, remote(last))];
      forall i | 0 <= i < |days|
        ensures log[i] == EntryFor(days[i], names, remote(days[i]))
      {
        if i < k {
          assert days[i] == p[i] && log[i] == rp.log[i];
        }
      }
    }
  }

  /** After the batch a date's artifact is on disk exactly when the date was skipped or captured. */
  lemma {:induction false} RunNames(names: set<string>, days: seq<int>, remote: int -> Remote)
    requires AllInRange(days) && Distinct(days)
    ensures forall i :: 0 <= i < |days| ==>
      (ArtifactName(days[i]) in Run(Start(names), days, remote).names <==>
       EntryFor(days[i], names, remote(days[i])).status in {Skipped, Success})
    decreases |days|
  {
    if days != [] {
      var k := |days| - 1;
      var p, last := days[..k], days[k];
      RunNames(names, p, remote);
      var rp := Run(Start(names), p, remote);
      var r := Run(Start(names), days, remote);
      assert r.names == NamesAfter(last, rp.names, remote(last));
      OtherDaysOtherNames(p, last);
      RunNamesOutside(names, p, remote, ArtifactName(last));
      forall i | 0 <= i < |days|
        ensures ArtifactName(days[i]) in r.names <==>
                EntryFor(days[i], names, remote(days[i])).status in {Skipped, Success}
      {
        if i < k {
          assert days[i] == p[i];
          NamesAfterOthers(last, rp.names, remote(last), ArtifactName(p[i]));
        } else {
          NamesAfterOwn(last, rp.names, remote(last));
          EntryByMembership(last, rp.names, names, remote(last));
        }
      }
    }
  }

  /** A date's own artifact is on disk after it exactly when it was skipped or captured. */
  lemma NamesAfterOwn(day: int, names: set<string>, remote: Remote)
    requires InRange(day)
    ensures ArtifactName(day) in NamesAfter(day, names, remote) <==>
            EntryFor(day, names, remote).status in {Skipped, Success}
  {
  }

  /** The browser is asked to capture exactly the dates not skipped, and to recover exactly after errors. */
  lemma {:induction false} RunCalls(names: set<string>, days: seq<int>, remote: int -> Remote)
    requires AllInRange(days) && Distinct(days)
    ensures var r := Run(Start(names), days, remote);
      forall i :: 0 <= i < |days| ==>
        && (CaptureCall(days[i]) in r.calls <==> EntryFor(days[i], names, remote(days[i])).status != Skipped)
        && (RecoveryCall(days[i]) in r.calls <==> EntryFor(days[i], names, remote(days[i])).status == Error)
    decreases |days|
  {
    if days != [] {
      var k := |days| - 1;
      var p, last := days[..k], days[k];
      RunCalls(names, p, remote);
      var rp := Run(Start(names), p, remote);
      var r := Run(Start(names), days, remote);
      OtherDaysOtherNames(p, last);
      RunNamesOutside(names, p, remote, ArtifactName(last));
      RunCallsOutside(names, p, remote, last);
      EntryByMembership(last, rp.names, names, remote(last));
      var extra := CallsFor(last, names, remote(last), true);
      assert r.calls == rp.calls + extra;
      forall i | 0 <= i < |days|
        ensures CaptureCall(days[i]) in r.calls <==> EntryFor(days[i], names, remote(days[i])).status != Skipped
        ensures RecoveryCall(days[i]) in r.calls <==> EntryFor(days[i], names, remote(days[i])).status == Error
      {
        var d := days[i];
        assert CaptureCall(d) in r.calls <==> CaptureCall(d) in rp.calls || CaptureCall(d) in extra;
        assert RecoveryCall(d) in r.calls <==> RecoveryCall(d) in rp.calls || RecoveryCall(d) in extra;
        if i < k {
          assert d == p[i] && d != last;
          CallsForOthers(last, names, remote(last), d);
        } else {
          CallsForOwn(last, names, remote(last));
        }
      }
    }
  }

  /** Processing a date makes no browser call about another date. */
  lemma CallsForOthers(day: int, names: set<string>, remote: Remote, d: int)
    requires InRange(day) && d != day
    ensures CaptureCall(d) !in CallsFor(day, names, remote, true)
    ensures RecoveryCall(d) !in CallsFor(day, names, remote, true)
  {
    var c := CallsFor(day, names, remote, true);
    assert forall x :: x in c ==> x.day == day;
  }

  /** A date's own calls: a capture unless skipped, a recovery exactly after an error. */
  lemma CallsForOwn(day: int, names: set<string>, remote: Remote)
    requires InRange(day)
    ensures CaptureCall(day) in CallsFor(day, names, remote, true) <==> EntryFor(day, names, remote).status != Skipped
    ensures RecoveryCall(day) in CallsFor(day, names, remote, true) <==> EntryFor(day, names, remote).status == Error
  {
  }

  /** Everything the batch records, in terms of the directory before it. */
  lemma RunLog(names: set<string>, days: seq<int>, remote: int -> Remote)
    requires AllInRange(days) && Distinct(days)
    ensures var r := Run(Start(names), days, remote);
      && |r.log| == |days|
      && (forall i :: 0 <= i < |days| ==> r.log[i] == EntryFor(days[i], names, remote(days[i])))
      && (forall i :: 0 <= i < |days| ==>
            (ArtifactName(days[i]) in r.names <==> r.log[i].status in {Skipped, Success}))
      && (forall i :: 0 <= i < |days| ==> (CaptureCall(days[i]) in r.calls <==> r.log[i].status != Skipped))
      && (forall i :: 0 <= i < |days| ==> (RecoveryCall(days[i]) in r.calls <==> r.log[i].status == Error))
  {
    RunEntries(names, days, remote);
    RunNames(names, days, remote);
    RunCalls(names, days, remote);
  }

  /**
   * Running a batch again over the same dates skips every date the first
   * run captured or skipped, without asking the browser about it.
   */
  lemma RerunSkipsCaptured(names: set<string>, days: seq<int>, first: int -> Remote, second: int -> Remote)
    requires AllInRange(days) && Distinct(days)
    ensures var r1 := Run(Start(names), days, first);
            var r2 := Run(Start(r1.names), days, second);
      && |r1.log| == |days| == |r2.log|
      && forall i :: 0 <= i < |days| && r1.log[i].status in {Success, Skipped} ==>
           && r2.log[i] == LogEntry(FormatDay(days[i]), Skipped, MSG_SKIPPED)
           && CaptureCall(days[i]) !in r2.calls
  {
    var r1 := Run(Start(names), days, first);
    RunLog(names, days, first);
    RunLog(r1.names, days, second);
  }

  // -----------------------------------------------------------------------
  // The session, with its module-global log and the screenshot directory

  class Scraper {
    /** The log of the most recent run. */
    var captureLogs: seq<LogEntry>
    const screenshots: ScreenshotDir

    constructor (dir: ScreenshotDir)
      ensures screenshots == dir && captureLogs == []
    {
      screenshots := dir;
      captureLogs := [];
    }

    /**
     * One iteration of the batch loop: skip a date whose artifact is already
     * on disk, otherwise capture it, log the outcome and, after an error,
     * return the browser to the start page. The new state is one `Step`.
     */
    method CaptureDay(day: int, remote: Remote, callsIn: seq<BrowserCall>) returns (calls: seq<BrowserCall>)
      requires InRange(day)
      modifies this, screenshots
      ensures RunState(captureLogs, screenshots.names, calls)
        == Step(RunState(old(captureLogs), old(screenshots.names), callsIn), day, remote)
    {
      var dateStr := FormatDay(day);
      var filename := ArtifactName(day);
      calls := callsIn;
      if filename in screenshots.names {
        captureLogs := captureLogs + [LogEntry(dateStr, Skipped, MSG_SKIPPED)];
        return;
      }
      var entry;
      calls := calls + [CaptureCall(day)];
      match CaptureDate(remote, day) {
        case Captured(f) =>
          screenshots.names := screenshots.names + {f};
          entry := LogEntry(dateStr, Success, MSG_CAPTURED);
        case NoReceipt =>
          entry := LogEntry(dateStr, Empty, MSG_NO_RECORD);
        case Raised(msg) =>
          entry := LogEntry(dateStr, Error, msg);
          calls := calls + [RecoveryCall(day)];
      }
      captureLogs := captureLogs + [entry];
    }

    /**
     * `capture_last_n_days`: after a login failure one error entry and
     * nothing else; otherwise one entry per date of the window, in order,
     * each decided by the directory as it was before the run, with one
     * progress call per date.
     */
    method CaptureLastNDays(n: int, today: int, login: Option<string>, remote: int -> Remote)
      returns (logs: seq<LogEntry>, progress: seq<Progress>, calls: seq<BrowserCall>)
      requires InRange(today) && n <= today
      modifies this, screenshots
      ensures captureLogs == logs
      ensures login.Some? ==>
        && logs == [LogEntry(FormatDay(today), Error, MSG_LOGIN_FAILED + login.value)]
        && progress == [] && calls == []
        && screenshots.names == old(screenshots.names)
      ensures login.None? ==>
        var r := Run(Start(old(screenshots.names)), Window(today, n), remote);
        logs == r.log && screenshots.names == r.names && calls == r.calls
      ensures login.None? ==> progress == Reports(Window(today, n), n)
    {
      captureLogs := [];
      var dates := Window(today, n);
      WindowShape(today, n);
      if login.Some? {
        captureLogs := captureLogs + [LogEntry(FormatDay(today), Error, MSG_LOGIN_FAILED + login.value)];
        return captureLogs, [], [];
      }
      ghost var start := Start(screenshots.names);
      progress, calls := [], [];
      var idx := 0;
      while idx < |dates|
        invariant 0 <= idx <= |dates|
        invariant Run(start, dates[..idx], remote) == RunState(captureLogs, screenshots.names, calls)
        invariant progress == Reports(dates[..idx], n)
      {
        var day := dates[idx];
        RunSnoc(start, dates, idx, remote);
        ReportsSnoc(dates, idx, n);
        calls := CaptureDay(day, remote(day), calls);
        progress := progress + [Progress(idx + 1, n, FormatDay(day))];
        idx := idx + 1;
      }
      assert dates[..idx] == dates;
      logs := captureLogs;
    }

    /**
     * `capture_single_date_standalone`: the same session for one date; the
     * progress callback fires once with (1, 1, date) whatever the outcome,
     * and an error is not followed by re-navigation.
     */
    method CaptureSingleDate(target: int, login: Option<string>, remote: Remote)
      returns (logs: seq<LogEntry>, progress: seq<Progress>, calls: seq<BrowserCall>)
      requires InRange(target)
      modifies this, screenshots
      ensures captureLogs == logs
      ensures login.Some? ==>
        && logs == [LogEntry(FormatDay(target), Error, MSG_LOGIN_FAILED + login.value)]
        && progress == [] && calls == []
        && screenshots.names == old(screenshots.names)
      ensures login.None? ==>
        && logs == [EntryFor(target, old(screenshots.names), remote)]
        && screenshots.names == NamesAfter(target, old(screenshots.names), remote)
        && calls == CallsFor(target, old(screenshots.names), remote, false)
        && progress == [Progress(1, 1, FormatDay(target))]
    {
      captureLogs := [];
      var dateStr := FormatDay(target);
      if login.Some? {
        captureLogs := captureLogs + [LogEntry(dateStr, Error, MSG_LOGIN_FAILED + login.value)];
        return captureLogs, [], [];
      }
      var filename := ArtifactName(target);
      calls := [];
      if filename in screenshots.names {
        captureLogs := captureLogs + [LogEntry(dateStr, Skipped, MSG_SKIPPED)];
      } else {
        calls := [CaptureCall(target)];
        match CaptureDate(remote, target) {
          case Captured(f) =>
            screenshots.names := screenshots.names + {f};
            captureLogs := captureLogs + [LogEntry(dateStr, Success, MSG_CAPTURED)];
          case NoReceipt =>
            captureLogs := captureLogs + [LogEntry(dateStr, Empty, MSG_NO_RECORD)];
          case Raised(msg) =>
            captureLogs := captureLogs + [LogEntry(dateStr, Error, msg)];
        }
      }
      progress := [Progress(1, 1, dateStr)];
      logs := captureLogs;
    }
  }
}
