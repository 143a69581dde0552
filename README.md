# HiPass receipts: a Dafny model of the capture core

HiPass receipts logs in to the Korean HiPass toll portal and walks a window
of recent dates. For each date it saves a screenshot of that day's toll
receipt as `하이패스(YYYY-MM-DD).png`, unless one is already on disk. Every
date gets one log entry, and a progress callback fires after each date.

A daily job is meant to delete screenshots older than the retention
window before it runs the capture over the window again. As written, the
deletion removes nothing (see "## Findings"). A small web front end does
three things:
- lists the window's days, with the screenshot where one exists;
- starts background refresh and single-date jobs;
- reports each job's progress from an in-memory registry.

This project models that core in Dafny and proves properties of it:

- `calendar.dfy` (module `Calendar`): the proleptic Gregorian calendar of
  Python's `datetime.date`, with days as ordinals. It renders a day as
  `YYYY-MM-DD` and parses it back the way `date.fromisoformat` does, with
  round trips proved both ways.
- `artifacts.dfy` (module `Artifacts`):
  - the screenshot file name;
  - the scheduler's glob and stem;
  - the scheduler's slice that reads a date back from a name;
  - the screenshot directory, a class holding the set of names on disk.
- `scraper.dfy` (module `Scraper`):
  - locating the date form;
  - classifying one date's lookup;
  - the batch loop and the single-date session, as methods of a `Scraper`
    class that owns the module-global log.

  The batch loop is proved against `Run`, a recursive specification over
  the dates. Lemmas about `Run` give:
  - the per-date log entries;
  - the files written;
  - the browser calls;
  - idempotence.
- `scheduler.dfy` (module `Scheduler`): the pruning of old screenshots, both
  as written and as intended, and the daily job's prune-then-capture order.
- `app.dfy` (module `App`):
  - the listing of the retention window;
  - the job registry, a class over a `map`;
  - the refresh, status and single-date endpoints, together with the
    background runs they schedule.

The browser and the portal are not modelled. What the portal does when one
date is looked up is a `Remote` record that says, stage by stage, whether
the stage raised and whether the awaited element appeared. Login together
with the first navigation is an `Option<string>`: `None` on success, and
otherwise the exception's text. The progress callback becomes the returned
sequence of `(done, total, date)` calls. Each browser request the batch
makes is traced as a `BrowserCall`. The current date, the retention setting
(14 by default, `backend/app/config.py:24`) and fresh job ids are
parameters.

## Model

| member | source | states |
|---|---|---|
| Calendar.ToOrdinal | backend/app/scheduler.py:21 | `date.toordinal()`: every valid date has an ordinal within the calendar's range. `Calendar.ToOrdinalBounds` places it within its year. |
| Calendar.FromOrdinal | backend/app/scraper.py:239 | Every ordinal in the calendar's range is a valid year, month and day (years 1 to 9999). |
| Calendar.ToFromOrdinal | backend/app/scraper.py:239 | The date that `fromordinal(o)` yields has ordinal `o`, so stepping back `i` days is subtracting `i`. |
| Calendar.FromToOrdinal | backend/app/scheduler.py:20-21 | Any valid date converted to its ordinal and back is the same date. |
| Calendar.ToOrdinalInjective | backend/app/scheduler.py:21 | Different dates have different ordinals, so comparing dates is comparing ordinals. |
| Calendar.YearOfSum | backend/app/scraper.py:239 | Counting days forward from January 1 lands on the year and day-of-year whose day counts add up to the count (proved by induction over the years). |
| Calendar.MonthOfSum | backend/app/scraper.py:259 | Counting days forward from the first of a month lands on the month and day whose day counts add up to the count (proved by induction over the months). |
| Calendar.Iso | backend/app/scraper.py:259 | `strftime("%Y-%m-%d")` of a valid date. It is specified by the round trips `Calendar.ParseIsoOfIso` and `Calendar.IsoOfParseIso`. |
| Calendar.ParseIso | backend/app/scheduler.py:20 | `date.fromisoformat` in its `YYYY-MM-DD` form: a string it accepts has that shape and names a valid date. `None` stands for `ValueError`. |
| Calendar.FormatDay | backend/app/scraper.py:259 | The `YYYY-MM-DD` text of a day ordinal. It is specified by `Calendar.ParseFormatDay`, `Calendar.FormatParseDay` and `Calendar.FormatDayInjective`. |
| Calendar.ParseIsoOfIso | backend/app/scraper.py:259 | `fromisoformat` reads the `%Y-%m-%d` text of any valid date back as that date. |
| Calendar.IsoOfParseIso | backend/app/main.py:114 | A string that `fromisoformat` accepts is exactly the `%Y-%m-%d` rendering of the date it yields. |
| Calendar.ParseDay | backend/app/main.py:113-116 | A string accepted as a date names a day within the calendar and is ten characters long. |
| Calendar.ParseFormatDay | backend/app/scheduler.py:20 | Parsing a day's text gives back that day. |
| Calendar.FormatParseDay | backend/app/main.py:114-119 | A string that parses is the text of the day it parses to, so the job's stored date text is the one the capture reports. |
| Calendar.FormatDayInjective | backend/app/scraper.py:259-260 | Different days have different texts. |
| Artifacts.ArtifactName | backend/app/scraper.py:155 | The name a day's screenshot is saved under. It is specified by `Artifacts.ArtifactNameMatchesGlob`, `Artifacts.ParseArtifactName` and `Artifacts.ArtifactNameInjective`. |
| Artifacts.MatchesGlob | backend/app/scheduler.py:15 | The names `glob("하이패스(*.png")` yields: the prefix, anything, then `.png`. |
| Artifacts.Stem | backend/app/scheduler.py:17 | `Path.stem` of a globbed name: the name is the stem followed by `.png`, and the stem still starts with the prefix. |
| Artifacts.SliceToLast | backend/app/scheduler.py:19 | `s[start:-1]`: the text is its first `start` characters, then the slice, then its last character. The slice is empty when `start` reaches the end. |
| Artifacts.ParseArtifactDateFrom | backend/app/scheduler.py:17-20 | The date pruning reads from a globbed name: the stem sliced from `start`, then `fromisoformat`. It is specified by `Artifacts.ParseArtifactName` (from 5) and `Artifacts.AsWrittenNeverParses` (from 4). |
| Artifacts.ArtifactNameMatchesGlob | backend/app/scraper.py:155 | Every screenshot name is one the scheduler's glob yields, and its stem is the prefix, the date and `)`. |
| Artifacts.GlobbedNameParts | backend/app/scheduler.py:15-19 | A globbed name is the prefix, the sliced text, one more character and `.png`. |
| Artifacts.ParseArtifactName | backend/app/scheduler.py:19-20 | With the slice starting just past the prefix, reading a screenshot's name gives back its day. |
| Artifacts.ArtifactNameInjective | backend/app/scraper.py:260 | Different days are saved under different file names. |
| Artifacts.AsWrittenNeverParses | backend/app/scheduler.py:19-20 | As written (`name[4:-1]`), the sliced text of every globbed name starts with `(`, so `fromisoformat` rejects it. |
| Artifacts.AsWrittenSliceOfArtifact | backend/app/scheduler.py:19 | On a screenshot's name the as-written slice is `(` followed by the date, and it does not parse. |
| Scraper.FindFormFrame | backend/app/scraper.py:87-105 | The main page when it holds the date field. Otherwise the first non-blank frame that holds it, and no earlier frame does. Otherwise the main page, and no frame holds it. A lookup that raises counts as absent. |
| Scraper.CaptureDate | backend/app/scraper.py:108-166 | A file is saved, under the day's name, exactly when no stage raises and the results frame, `#billAll` and the pop-up content all appear. The stages run in the source's order, and the first that raises or finds its frame or element missing decides the result. A missing results frame or `#billAll` gives `None`. Otherwise an exception from filling the form, clicking, opening the pop-up, waiting for its content or taking the screenshot is carried with its own message. Content that the query does not find after the wait succeeded gives `None`, unless closing that pop-up raises. |
| Scraper.EntryFor | backend/app/scraper.py:263-296 | A date's entry carries the date's text and is `skipped` exactly when its file is already on disk. Otherwise it is `success` exactly when the file was captured and `empty` exactly when the receipt was missing, each with its fixed message. An exception gives `error` with the exception's own text. |
| Scraper.NamesAfter | backend/app/scraper.py:263-303 | The directory after one date: the date's file is added when it was not on disk and the capture saved it. It is specified by `Scraper.RunNames` and `Scraper.RunNamesOutside`. |
| Scraper.CallsFor | backend/app/scraper.py:263-301 | The browser requests for one date: none when skipped, a capture otherwise, then a re-navigation after an exception in the batch. It is specified by `Scraper.RunCalls`. |
| Scraper.Step | backend/app/scraper.py:259-305 | One iteration of the batch loop on the log, the directory and the browser calls. `Scraper.Scraper.CaptureDay` is proved against it. |
| Scraper.Run | backend/app/scraper.py:258-305 | The batch over a list of dates, one `Step` after the other. `Scraper.Scraper.CaptureLastNDays` is proved against it, and `Scraper.RunLog` states what it records. |
| Scraper.Reports | backend/app/scraper.py:258-305 | The progress calls of the batch. It is specified by `Scraper.ReportsAt`. |
| Scraper.Window | backend/app/scraper.py:238-239 | `[today - timedelta(days=i) for i in range(n)]`. It is specified by `Scraper.WindowShape`. |
| Scraper.ReportsAt | backend/app/scraper.py:258-305 | The batch's i-th progress call is `(i + 1, n, date i)`, one per date, skipped dates included. |
| Scraper.WindowShape | backend/app/scraper.py:238-239 | The window is today and the `n - 1` days before it, newest first, distinct and within the calendar. |
| Scraper.RunEntries | backend/app/scraper.py:258-305 | One entry per date, in input order. Each entry is decided by the directory as it was before the batch, because no two dates share a file. |
| Scraper.RunNames | backend/app/scraper.py:263-303 | After the batch a date's file is on disk exactly when the date was skipped or captured. |
| Scraper.RunNamesOutside | backend/app/scraper.py:258-305 | The batch neither writes nor removes any file that is not a file of one of its dates. |
| Scraper.RunCalls | backend/app/scraper.py:274-301 | The browser is asked to capture exactly the dates not skipped, and to re-navigate exactly after the dates that ended in an error. |
| Scraper.RunCallsOutside | backend/app/scraper.py:258-305 | The browser is never asked about a date outside the batch. |
| Scraper.RunLog | backend/app/scraper.py:258-305 | Everything the batch records (entries, files, browser calls) in terms of the directory before it. |
| Scraper.RerunSkipsCaptured | backend/app/scraper.py:263-272 | Running the batch again over the same dates skips every date the first run captured or skipped, and does not ask the browser about it. |
| Scraper.Scraper.CaptureDay | backend/app/scraper.py:259-305 | One loop iteration changes the log, the directory and the browser calls by exactly one step of the specification. |
| Scraper.Scraper.CaptureLastNDays | backend/app/scraper.py:231-309 | A failed login gives one error entry dated today, with nothing captured and no progress. Otherwise the log, the files and the browser calls are those of the specification over the window, and the progress trace is one call per date. |
| Scraper.Scraper.CaptureSingleDate | backend/app/scraper.py:169-228 | A failed login gives one error entry with no progress. Otherwise there is one entry for the date, at most that date's file is written, there is no re-navigation after an error, and progress fires once with `(1, 1, date)`. |
| Scheduler.Expired | backend/app/scheduler.py:15-22 | The names pruning deletes when the date is sliced from `start`: only globbed names on disk whose slice parses to a day before the cutoff. |
| Scheduler.PruneAsWritten | backend/app/scheduler.py:13-24 | `delete_old_screenshots` as written, with the slice from index 4. It is specified by `Scheduler.PruneAsWrittenKeepsAll`. |
| Scheduler.PruneAsWrittenKeepsAll | backend/app/scheduler.py:13-24 | As written, pruning deletes nothing, whatever the directory holds and whatever the cutoff. |
| Scheduler.PruneAsWrittenKeepsExpiredArtifact | backend/app/scheduler.py:19-22 | Any screenshot on disk whose day is before the cutoff reads back as that day with the intended slice, and the intended prune deletes it. Pruning as written keeps it. |
| Scheduler.DeleteOldScreenshots | backend/app/scheduler.py:13-24 | With the intended slice, exactly the globbed names whose date is before today minus the retention are deleted. Unreadable names are kept. |
| Scheduler.ExpiredArtifact | backend/app/scheduler.py:19-22 | A day's screenshot is deleted exactly when it is on disk and the day is before the cutoff. |
| Scheduler.ExpiredShape | backend/app/scheduler.py:15-21 | Only names of the form prefix + a day before the cutoff + one character + `.png` are ever deleted. |
| Scheduler.PruneKeepsWindow | backend/app/scheduler.py:27-29 | Pruning at `today - retention` removes no screenshot of the `retention` days the capture then walks. |
| Scheduler.PruneThenCaptureLog | backend/app/scheduler.py:27-29 | Pruning before the capture leaves the capture's log exactly as it would have been without pruning. |
| Scheduler.ScheduledCapture | backend/app/scheduler.py:27-29 | The daily job with the corrected prune (slice from index 5). The capture runs on the pruned directory and produces the specification's log, files and browser calls for the window. After a failed login there is one error entry dated today, and the directory is the pruned one. As written the prune removes nothing (`Scheduler.PruneAsWrittenKeepsAll`), so the capture then starts from the unchanged directory. |
| App.ListingFor | backend/app/main.py:52-60 | One row of the listing: the day's text, and the file name exactly when that file is on disk. |
| App.ListScreenshots | backend/app/main.py:42-62 | One row per day of the window, newest first. The early stop at the cutoff never fires. |
| App.ListingAfterCapture | backend/app/main.py:53-60 | After a refresh over the same window, a row shows a file exactly when that date was logged as skipped or captured, and its date text is the log entry's. |
| App.ListingSurvivesPrune | backend/app/main.py:46-51 | Pruning at the scheduler's cutoff changes no row of the listing. |
| App.ListedFileParses | backend/app/main.py:52-59 | A listed file name, and the row's date text, both read back as the row's day. |
| App.BadDateMessage | backend/app/main.py:116 | The error is the fixed message, then the rejected text in single quotes, then the `(YYYY-MM-DD 필요)` hint. |
| App.Replayed | backend/app/main.py:89-91 | A job after a sequence of progress callbacks, in order. It is specified by `App.ReplayedFields`. |
| App.ReplayedFields | backend/app/main.py:89-91 | Progress calls leave a job's total and finished flag alone. The job then shows the last call's count and date, or is unchanged when there were none. |
| App.RefreshJobCompletes | backend/app/main.py:87-97 | A refresh whose login succeeds ends with `done == total == retention`, the window's oldest date current and the job finished. |
| App.JobRegistry.Status | backend/app/main.py:103-108 | The job is found exactly when its id is registered, and then it is the registered record. |
| App.JobRegistry.Refresh | backend/app/main.py:86-87 | A new job over `retention` dates with none done, no date and not finished. Other jobs are unchanged. |
| App.JobRegistry.CaptureSingle | backend/app/main.py:113-119 | An unreadable date is refused with the format error and creates no job. Otherwise a job over one date is created, carrying the text as given. |
| App.JobRegistry.OnProgress | backend/app/main.py:89-91 | A progress call sets the job's done count and current date, and nothing else. |
| App.JobRegistry.Finish | backend/app/main.py:97 | The end of a run marks the job finished, and nothing else. |
| App.JobRegistry.RunJob | backend/app/main.py:93-97 | A background run applies every progress call in order, then marks the job finished. |
| App.ApiRefresh | backend/app/main.py:84-100 | The endpoint answers the new job id. The job ends as the replay of the capture's progress trace, marked finished. After a successful login, the log and the directory are the capture specification's over the window. After a failed login, the log is one error entry dated today and the directory is unchanged. |
| App.RunSingleJob | backend/app/main.py:121-129 | After the single-date run, the job is finished and shows one of one done with the request's own date text. After a failed login it shows none done. The log and directory are those of the date's capture, or one error entry and an unchanged directory after a failed login. |
| App.ApiCaptureSingle | backend/app/main.py:111-132 | An unreadable date gets the format error and changes nothing. Otherwise the endpoint answers the job id. The job ends finished, with its done count set by whether the login succeeded. The log and the directory are those of the date's capture, or one error entry and an unchanged directory after a failed login. |

## Left out

- The browser automation itself is not modelled: Playwright, the login and navigation steps, timeouts and pop-up handling. What each stage does is an input (`Remote`, and the login outcome).
- Timestamps (`_now_iso`) on log entries are not modelled, because they come from the clock.
- `uuid4` job ids are parameters. The registry overwrites an id that is reused, as the dictionary assignment does.
- APScheduler's cron wiring (`start`, `stop`), the FastAPI routes that only serve files or templates (`index`, `health`, `api_screenshots`, `api_logs`), and `config.py`'s environment reading are not modelled. `backend/app/config.py` is context, not part of this model.
- Concurrency is not modelled. A background job's progress calls are applied after its capture returns, in the same order as the callbacks. No other job or request interleaves with them.
- Calendar bounds: `date - timedelta` raises `OverflowError` below 0001-01-01 and above 9999-12-31. The methods require the dates they compute to be in range instead of modelling that exception.
- `date.fromisoformat` is modelled as the strict `YYYY-MM-DD` form. The extra forms that Python 3.11 and later accept are not.
- `strftime("%Y")` is modelled as four zero-padded digits for all years 1 to 9999.
- App.BadDateMessage: quotes the text the way `repr` does only for strings without quotes or escapes. It does not choose double quotes or escape characters as `repr` does.
- Scraper.Scraper.CaptureLastNDays, Scraper.Scraper.CaptureSingleDate: the model assumes that starting Playwright, launching the browser, opening the page and closing the browser never raise (`backend/app/scraper.py:179-181`, `:187`, `:226`, `:241-243`, `:249`, `:307`). When one of them raises, the exception leaves the function: the log stays empty, or stays partly filled when the final `close` raises.
- ApiRefresh: after such a session failure, `backend/app/main.py:97` is never reached and the job is never marked finished. The model always finishes the job.
- RunSingleJob: after such a session failure, `backend/app/main.py:129` is never reached and the job is never marked finished. The model always finishes the job.
- Unlinking a file is not modelled as able to fail. The `except Exception` in pruning is modelled only for the date parse.
- Scraper.CaptureDate: does not model which context `_find_form_frame` picked, because the stages' outcomes are given per date. The locator is modelled on its own by `Scraper.FindFormFrame`.
- Scraper.Scraper.CaptureLastNDays: the per-date entries are stated through the `Run` specification. The entry-by-entry form is the lemma `Scraper.RunEntries`.
- The code calls the progress callback for skipped dates too (`backend/app/scraper.py:270-271`), so `Scraper.ReportsAt` counts one call per date.

## Findings

| source | as written | input that shows it | evidently intended | confidence | as-written member | corrected member |
|---|---|---|---|---|---|---|
| backend/app/scheduler.py:19 | `name[4:-1]` starts at the `(` that ends the five-character prefix `하이패스(`, so `date.fromisoformat` always raises and the `except` skips the file | `하이패스(2024-01-01).png` with a cutoff after 2024-01-01: the slice is `(2024-01-01`, which does not parse, and the file is kept | `name[5:-1]`, so that the date text is parsed and files older than the cutoff are deleted | high (not executed) | Scheduler.PruneAsWrittenKeepsAll | Scheduler.DeleteOldScreenshots |
