/**
 * The daily job: prune screenshots older than the retention window, then
 * capture the window again.
 *
 * Pruning reads each globbed name's date back by slicing the stem. As
 * written the slice starts one character too early and keeps the `(` of
 * the prefix, so no name ever parses and nothing is ever deleted
 * (`PruneAsWrittenKeepsAll`). `DeleteOldScreenshots` models the intended
 * slice, which starts just past the prefix.
 */
module Scheduler {
  import opened Wrappers
  import opened Calendar
  import opened Artifacts
  import opened Scraper

  /**
   * The names pruning removes when the date is sliced from index `start` of
   * the stem: globbed names whose slice parses to a day before `cutoff`.
   * A name that does not parse is kept.
   */
  function Expired(names: set<string>, cutoff: int, start: nat): (r: set<string>)
    ensures r <= names
    ensures forall name :: name in r ==> MatchesGlob(name)
  {
    set name | name in names && MatchesGlob(name)
      && ParseArtifactDateFrom(name, start).Some?
      && ParseArtifactDateFrom(name, start).value < cutoff
  }

  /** The directory after pruning as written, with the slice from index 4. */
  function PruneAsWritten(names: set<string>, cutoff: int): set<string> {
    names - Expired(names, cutoff, AS_WRITTEN_START)
  }

  /** Finding: as written, pruning removes nothing, however old the screenshots are. */
  lemma PruneAsWrittenKeepsAll(names: set<string>, cutoff: int)
    ensures PruneAsWritten(names, cutoff) == names
  {
    forall name | name in names && MatchesGlob(name)
      ensures ParseArtifactDateFrom(name, AS_WRITTEN_START).None?
    {
      AsWrittenNeverParses(name);
    }
  }

  /**
   * The concrete case: a screenshot whose day is before the cutoff reads
   * back as that day with the intended slice, yet pruning as written keeps it.
   */
  lemma PruneAsWrittenKeepsExpiredArtifact(names: set<string>, day: int, cutoff: int)
    requires InRange(day) && day < cutoff && ArtifactName(day) in names
    ensures ParseArtifactDate(ArtifactName(day)) == Some(day)
    ensures ArtifactName(day) in Expired(names, cutoff, DATE_START)
    ensures ArtifactName(day) in PruneAsWritten(names, cutoff)
  {
    ParseArtifactName(day);
    PruneAsWrittenKeepsAll(names, cutoff);
  }

  /**
   * `delete_old_screenshots` with the intended slice: every globbed name
   * whose date is before `today - retention` is unlinked, nothing else is.
   */
  method DeleteOldScreenshots(dir: ScreenshotDir, today: int, retention: int)
    requires InRange(today) && InRange(today - retention)
    modifies dir
    ensures dir.names == old(dir.names) - Expired(old(dir.names), today - retention, DATE_START)
  {
    var cutoff := today - retention;
    ghost var orig := dir.names;
    ghost var expired := Expired(orig, cutoff, DATE_START);
    var pending := set name | name in dir.names && MatchesGlob(name);
    while pending != {}
      invariant pending <= orig
      invariant forall name :: name in pending ==> MatchesGlob(name)
      invariant dir.names == orig - (expired - pending)
      decreases pending
    {
      var png :| png in pending;
      var datePart := SliceToLast(Stem(png), DATE_START);
      match ParseDay(datePart) {
        case Some(fileDate) =>
          if fileDate < cutoff {
            dir.names := dir.names - {png};
          }
        case None =>
      }
      pending := pending - {png};
    }
  }

  /** A day's screenshot is pruned exactly when it is on disk and older than the cutoff. */
  lemma ExpiredArtifact(names: set<string>, cutoff: int, day: int)
    requires InRange(day)
    ensures ArtifactName(day) in Expired(names, cutoff, DATE_START) <==> ArtifactName(day) in names && day < cutoff
  {
    ParseArtifactName(day);
  }

  /**
   * Everything pruned is a name of the shape `하이패스(` + the text of a day
   * before the cutoff + one more character + `.png`: other files are kept.
   * The character before `.png` is not checked.
   */
  lemma ExpiredShape(names: set<string>, cutoff: int, name: string)
    requires name in Expired(names, cutoff, DATE_START)
    ensures exists day: int, c: char ::
              InRange(day) && day < cutoff && name == PREFIX + FormatDay(day) + [c] + EXTENSION
  {
    var part := SliceToLast(Stem(name), DATE_START);
    var day := ParseDay(part).value;
    FormatParseDay(part);
    GlobbedNameParts(name);
  }

  /** No date of the capture window `retention` days back from `today` is pruned at `today - retention`. */
  lemma PruneKeepsWindow(names: set<string>, today: int, retention: int)
    requires InRange(today) && retention <= today
    ensures var w := Window(today, retention);
      forall i :: 0 <= i < |w| ==>
        && InRange(w[i])
        && (ArtifactName(w[i]) in names - Expired(names, today - retention, DATE_START) <==> ArtifactName(w[i]) in names)
  {
    var w := Window(today, retention);
    WindowShape(today, retention);
    forall i | 0 <= i < |w|
      ensures ArtifactName(w[i]) in names - Expired(names, today - retention, DATE_START) <==> ArtifactName(w[i]) in names
    {
      ExpiredArtifact(names, today - retention, w[i]);
    }
  }

  /** Pruning first does not change what the capture logs: it only removes dates outside the window. */
  lemma PruneThenCaptureLog(names: set<string>, today: int, retention: int, remote: int -> Remote)
    requires InRange(today) && retention <= today
    ensures var w := Window(today, retention);
      AllInRange(w) &&
      Run(Start(names - Expired(names, today - retention, DATE_START)), w, remote).log
        == Run(Start(names), w, remote).log
  {
    var w := Window(today, retention);
    var pruned := names - Expired(names, today - retention, DATE_START);
    WindowShape(today, retention);
    PruneKeepsWindow(names, today, retention);
    RunEntries(pruned, w, remote);
    RunEntries(names, w, remote);
    var a := Run(Start(pruned), w, remote).log;
    var b := Run(Start(names), w, remote).log;
    forall i | 0 <= i < |w|
      ensures a[i] == b[i]
    {
      EntryByMembership(w[i], pruned, names, remote(w[i]));
    }
  }

  /**
   * `scheduled_capture` with the intended prune: delete with the retention
   * as cutoff, then capture the last `retention` days, starting from the
   * pruned directory. With the prune as written the directory would be
   * left as it was (`PruneAsWrittenKeepsAll`).
   */
  method ScheduledCapture(s: Scraper, today: int, retention: int, login: Option<string>, remote: int -> Remote)
    returns (logs: seq<LogEntry>, progress: seq<Progress>, calls: seq<BrowserCall>)
    requires InRange(today) && InRange(today - retention)
    modifies s, s.screenshots
    ensures var pruned := old(s.screenshots.names) - Expired(old(s.screenshots.names), today - retention, DATE_START);
      && (login.Some? ==>
            && logs == [LogEntry(FormatDay(today), Error, MSG_LOGIN_FAILED + login.value)]
            && s.screenshots.names == pruned && progress == [] && calls == [])
      && (login.None? ==>
            var r := Run(Start(pruned), Window(today, retention), remote);
            logs == r.log && s.screenshots.names == r.names && calls == r.calls)
    ensures s.captureLogs == logs
  {
    DeleteOldScreenshots(s.screenshots, today, retention);
    logs, progress, calls := s.CaptureLastNDays(retention, today, login, remote);
  }
}
