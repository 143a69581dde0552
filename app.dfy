/**
 * The web application's state: the listing of the retention window shown
 * on the index page, and the registry of background jobs that the refresh
 * and single-date endpoints create and the status endpoint reads.
 *
 * A background job's progress callback is replayed from the trace the
 * capture returns, in order, before the job is marked finished; fresh job
 * identifiers are parameters.
 */
module App {
  import opened Wrappers
  import opened Calendar
  import opened Artifacts
  import opened Scraper
  import opened Scheduler

  // -----------------------------------------------------------------------
  // The listing

  /** One row of the listing: the date, the file name when it exists, and whether it exists. */
  datatype Listing = Listing(date: string, filename: Option<string>, onDisk: bool)

  /** The row for `day` given the names on disk. */
  function ListingFor(day: int, names: set<string>): (row: Listing)
    requires InRange(day)
    ensures row.date == FormatDay(day)
    ensures row.onDisk <==> ArtifactName(day) in names
    ensures row.filename.Some? <==> row.onDisk
    ensures row.filename.Some? ==> row.filename.value == ArtifactName(day)
  {
    var onDisk := ArtifactName(day) in names;
    Listing(FormatDay(day), if onDisk then Some(ArtifactName(day)) else None, onDisk)
  }

  /**
   * `_list_screenshots`: one row per day of the window, newest first. The
   * loop's cutoff test never stops it early, since every day of the window
   * is on or after the cutoff.
   */
  method ListScreenshots(dir: ScreenshotDir, today: int, retention: int) returns (rows: seq<Listing>)
    requires InRange(today) && InRange(today - (retention - 1))
    ensures var dates := Window(today, retention);
      && AllInRange(dates)
      && |rows| == |dates|
      && forall i :: 0 <= i < |rows| ==> rows[i] == ListingFor(dates[i], dir.names)
  {
    ghost var dates := Window(today, retention);
    WindowShape(today, retention);
    var cutoff := today - (retention - 1);
    rows := [];
    var i := 0;
    while i < retention
      invariant 0 <= i <= |dates|
      invariant |rows| == i
      invariant forall j :: 0 <= j < i ==> rows[j] == ListingFor(dates[j], dir.names)
    {
      var d := today - i;
      if d < cutoff {
        assert false;
        break;
      }
      var dateStr := FormatDay(d);
      var filename := PREFIX + dateStr + SUFFIX;
      var onDisk := filename in dir.names;
      var row := Listing(dateStr, if onDisk then Some(filename) else None, onDisk);
      assert d == dates[i] && row == ListingFor(d, dir.names);
      rows := rows + [row];
      i := i + 1;
    }
  }

  /**
   * After a refresh over the same window, a row shows a file exactly when
   * the refresh logged its date as skipped or captured, and the row's date
   * is the log entry's date.
   */
  lemma ListingAfterCapture(names: set<string>, today: int, retention: int, remote: int -> Remote)
    requires InRange(today) && retention <= today
    ensures var w := Window(today, retention);
      && AllInRange(w)
      && var r := Run(Start(names), w, remote);
      && |r.log| == |w|
      && forall i :: 0 <= i < |w| ==>
           && ListingFor(w[i], r.names).date == r.log[i].date
           && (ListingFor(w[i], r.names).onDisk <==> r.log[i].status in {Skipped, Success})
  {
    var w := Window(today, retention);
    WindowShape(today, retention);
    RunLog(names, w, remote);
  }

  /** Pruning at the scheduler's cutoff leaves every row of the listing as it was. */
  lemma ListingSurvivesPrune(names: set<string>, today: int, retention: int)
    requires InRange(today) && retention <= today
    ensures var w := Window(today, retention);
      && AllInRange(w)
      && forall i :: 0 <= i < |w| ==>
           ListingFor(w[i], names - Expired(names, today - retention, DATE_START)) == ListingFor(w[i], names)
  {
    WindowShape(today, retention);
    PruneKeepsWindow(names, today, retention);
  }

  /** A listed file name reads back, with the intended slice, as the row's own day. */
  lemma ListedFileParses(day: int, names: set<string>)
    requires InRange(day)
    ensures var row := ListingFor(day, names);
      row.filename.Some? ==>
        && MatchesGlob(row.filename.value)
        && ParseArtifactDate(row.filename.value) == Some(day)
        && ParseDay(row.date) == Some(day)
  {
    ParseArtifactName(day);
    ParseFormatDay(day);
  }

  // -----------------------------------------------------------------------
  // Background jobs

  /** A job's record: how many dates in all, how many done, the last date reported, and whether it ended. */
  datatype Job = Job(total: int, done: int, currentDate: string, finished: bool)

  /** What the status endpoint answers: the job, or the "not found" error. */
  datatype StatusReply = Found(job: Job) | NotFound

  /** What the single-date endpoint answers: the new job's id, or a date format error. */
  datatype CaptureReply = Accepted(jobId: string) | BadDate(error: string)

  const MSG_BAD_DATE: string := "날짜 형식 오류: "
  const MSG_BAD_DATE_HINT: string := " (YYYY-MM-DD 필요)"

  /** The error text for a date the single-date endpoint cannot read, quoting it as `repr` does for plain text. */
  function BadDateMessage(dateStr: string): (m: string)
    ensures |m| == |MSG_BAD_DATE| + |dateStr| + 2 + |MSG_BAD_DATE_HINT|
    ensures m[..|MSG_BAD_DATE|] == MSG_BAD_DATE
    ensures m[|MSG_BAD_DATE| + 1..|m| - |MSG_BAD_DATE_HINT| - 1] == dateStr
    ensures m[|MSG_BAD_DATE|] == '\'' && m[|m| - |MSG_BAD_DATE_HINT| - 1] == '\''
    ensures m[|m| - |MSG_BAD_DATE_HINT|..] == MSG_BAD_DATE_HINT
  {
    MSG_BAD_DATE + "'" + dateStr + "'" + MSG_BAD_DATE_HINT
  }

  /** A job after the progress calls `trace`, in order: each sets the done count and the current date. */
  function Replayed(job: Job, trace: seq<Progress>): Job
    decreases |trace|
  {
    if trace == [] then job
    else
      var p := trace[|trace| - 1];
      Replayed(job, trace[..|trace| - 1]).(done := p.done, currentDate := p.date)
  }

  /**
   * Replaying keeps the total and the finished flag; afterwards the job
   * shows the last call's count and date, or is unchanged if there was none.
   */
  lemma ReplayedFields(job: Job, trace: seq<Progress>)
    ensures var j := Replayed(job, trace);
      && j.total == job.total && j.finished == job.finished
      && (trace == [] ==> j == job)
      && (trace != [] ==> j.done == trace[|trace| - 1].done && j.currentDate == trace[|trace| - 1].date)
  {
  }

  /** Replaying a longer trace is replaying its prefix, then its next call. */
  lemma ReplayedSnoc(job: Job, trace: seq<Progress>, k: int)
    requires 0 <= k < |trace|
    ensures Replayed(job, trace[..k + 1]) == Replayed(job, trace[..k]).(done := trace[k].done, currentDate := trace[k].date)
  {
    assert trace[..k + 1][..k] == trace[..k];
  }

  /** The job table, `job_id -> job`. Entries are created and updated, never removed. */
  class JobRegistry {
    var jobs: map<string, Job>

    constructor ()
      ensures jobs == map[]
    {
      jobs := map[];
    }

    /** `api_status`: the job under `jobId`, or "not found". */
    function Status(jobId: string): (r: StatusReply)
      reads this
      ensures r.Found? <==> jobId in jobs
      ensures r.Found? ==> r.job == jobs[jobId]
    {
      if jobId in jobs then Found(jobs[jobId]) else NotFound
    }

    /** `api_refresh`'s bookkeeping: a new job over `retention` dates, none done yet. */
    method Refresh(jobId: string, retention: int) returns (reply: string)
      modifies this
      ensures reply == jobId
      ensures jobs == old(jobs)[jobId := Job(retention, 0, "", false)]
    {
      jobs := jobs[jobId := Job(retention, 0, "", false)];
      reply := jobId;
    }

    /**
     * `api_capture_single`'s bookkeeping: a date that does not read as
     * `YYYY-MM-DD` is refused and creates no job; otherwise a new job over
     * one date, with the text as given as its current date.
     */
    method CaptureSingle(jobId: string, dateStr: string) returns (reply: CaptureReply)
      modifies this
      ensures ParseDay(dateStr).None? ==> reply == BadDate(BadDateMessage(dateStr)) && jobs == old(jobs)
      ensures ParseDay(dateStr).Some? ==>
        reply == Accepted(jobId) && jobs == old(jobs)[jobId := Job(1, 0, dateStr, false)]
    {
      if ParseDay(dateStr).None? {
        return BadDate(BadDateMessage(dateStr));
      }
      jobs := jobs[jobId := Job(1, 0, dateStr, false)];
      reply := Accepted(jobId);
    }

    /** The progress callback: the job's done count and current date become the call's. */
    method OnProgress(jobId: string, p: Progress)
      requires jobId in jobs
      modifies this
      ensures jobs == old(jobs)[jobId := old(jobs)[jobId].(done := p.done, currentDate := p.date)]
    {
      jobs := jobs[jobId := jobs[jobId].(done := p.done, currentDate := p.date)];
    }

    /** The end of a background run: the job is marked finished. */
    method Finish(jobId: string)
      requires jobId in jobs
      modifies this
      ensures jobs == old(jobs)[jobId := old(jobs)[jobId].(finished := true)]
    {
      jobs := jobs[jobId := jobs[jobId].(finished := true)];
    }

    /** A background run seen from the registry: every progress call in order, then the end. */
    method RunJob(jobId: string, trace: seq<Progress>)
      requires jobId in jobs
      modifies this
      ensures jobs == old(jobs)[jobId := Replayed(old(jobs)[jobId], trace).(finished := true)]
    {
      var k := 0;
      while k < |trace|
        invariant 0 <= k <= |trace|
        invariant jobs == old(jobs)[jobId := Replayed(old(jobs)[jobId], trace[..k])]
      {
        ReplayedSnoc(old(jobs)[jobId], trace, k);
        OnProgress(jobId, trace[k]);
        k := k + 1;
      }
      assert trace[..k] == trace;
      Finish(jobId);
    }
  }

  // -----------------------------------------------------------------------
  // The endpoints with their background runs

  /**
   * `api_refresh` and the run it schedules: a new job, the capture of the
   * last `retention` days, its progress, then the end of the job.
   */
  method ApiRefresh(registry: JobRegistry, s: Scraper, jobId: string, today: int, retention: int,
                    login: Option<string>, remote: int -> Remote)
    returns (reply: string, logs: seq<LogEntry>, progress: seq<Progress>)
    requires InRange(today) && retention <= today
    modifies registry, s, s.screenshots
    ensures reply == jobId && s.captureLogs == logs
    ensures registry.jobs == old(registry.jobs)[jobId := Replayed(Job(retention, 0, "", false), progress).(finished := true)]
    ensures login.None? ==>
      var r := Run(Start(old(s.screenshots.names)), Window(today, retention), remote);
      && logs == r.log && s.screenshots.names == r.names
      && progress == Reports(Window(today, retention), retention)
    ensures login.Some? ==>
      && logs == [LogEntry(FormatDay(today), Error, MSG_LOGIN_FAILED + login.value)]
      && s.screenshots.names == old(s.screenshots.names) && progress == []
  {
    reply := registry.Refresh(jobId, retention);
    var calls;
    logs, progress, calls := s.CaptureLastNDays(retention, today, login, remote);
    registry.RunJob(jobId, progress);
  }

  /**
   * The run `api_capture_single` schedules for a job created for `dateStr`:
   * the capture of its day, its progress, then the end of the job.
   */
  method RunSingleJob(registry: JobRegistry, s: Scraper, jobId: string, dateStr: string, day: int,
                      login: Option<string>, remote: Remote)
    returns (logs: seq<LogEntry>)
    requires ParseDay(dateStr) == Some(day)
    requires jobId in registry.jobs && registry.jobs[jobId] == Job(1, 0, dateStr, false)
    modifies registry, s, s.screenshots
    ensures s.captureLogs == logs
    ensures login.None? ==>
      && logs == [EntryFor(day, old(s.screenshots.names), remote)]
      && s.screenshots.names == NamesAfter(day, old(s.screenshots.names), remote)
      && registry.jobs == old(registry.jobs)[jobId := Job(1, 1, dateStr, true)]
    ensures login.Some? ==>
      && logs == [LogEntry(dateStr, Error, MSG_LOGIN_FAILED + login.value)]
      && s.screenshots.names == old(s.screenshots.names)
      && registry.jobs == old(registry.jobs)[jobId := Job(1, 0, dateStr, true)]
  {
    FormatParseDay(dateStr);
    var progress, calls;
    logs, progress, calls := s.CaptureSingleDate(day, login, remote);
    registry.RunJob(jobId, progress);
  }

  /**
   * `api_capture_single` and the run it schedules: a refused date changes
   * nothing; otherwise a new job over that one date, then its run.
   */
  method ApiCaptureSingle(registry: JobRegistry, s: Scraper, jobId: string, dateStr: string,
                          login: Option<string>, remote: Remote)
    returns (reply: CaptureReply, logs: seq<LogEntry>)
    modifies registry, s, s.screenshots
    ensures reply.BadDate? <==> ParseDay(dateStr).None?
    ensures reply.BadDate? ==>
      && reply.error == BadDateMessage(dateStr) && logs == []
      && registry.jobs == old(registry.jobs)
      && s.captureLogs == old(s.captureLogs) && s.screenshots.names == old(s.screenshots.names)
    ensures reply.Accepted? ==>
      && reply.jobId == jobId && s.captureLogs == logs
      && registry.jobs == old(registry.jobs)[jobId := Job(1, if login.None? then 1 else 0, dateStr, true)]
    ensures reply.Accepted? && login.None? ==>
      var day := ParseDay(dateStr).value;
      && logs == [EntryFor(day, old(s.screenshots.names), remote)]
      && s.screenshots.names == NamesAfter(day, old(s.screenshots.names), remote)
    ensures reply.Accepted? && login.Some? ==>
      && logs == [LogEntry(dateStr, Error, MSG_LOGIN_FAILED + login.value)]
      && s.screenshots.names == old(s.screenshots.names)
  {
    reply := registry.CaptureSingle(jobId, dateStr);
    logs := [];
    if reply.BadDate? {
      return;
    }
    logs := RunSingleJob(registry, s, jobId, dateStr, ParseDay(dateStr).value, login, remote);
  }

  /**
   * A refresh whose login succeeds ends with every date done and the
   * oldest date of the window as the current one. (After a failed login
   * the trace is empty and `ReplayedFields` leaves the job at zero done.)
   */
  lemma RefreshJobCompletes(today: int, retention: int)
    requires InRange(today) && 0 < retention <= today
    ensures var trace := Reports(Window(today, retention), retention);
      Replayed(Job(retention, 0, "", false), trace).(finished := true)
        == Job(retention, retention, FormatDay(today - (retention - 1)), true)
  {
    var w := Window(today, retention);
    WindowShape(today, retention);
    ReportsAt(w, retention);
    ReplayedFields(Job(retention, 0, "", false), Reports(w, retention));
  }
}
