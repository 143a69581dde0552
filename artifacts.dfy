/**
 * The receipt screenshots on disk: the name a day's screenshot is written
 * under, the glob the scheduler lists them with, the way the scheduler reads
 * the date back out of a name, and the screenshot directory itself.
 */
module Artifacts {
  import opened Wrappers
  import opened Calendar

  /** The five code points before the date in an artifact name. */
  const PREFIX: string := "하이패스("
  const SUFFIX: string := ").png"
  const EXTENSION: string := ".png"

  /** Where the scheduler's slice starts as written (`name[4:-1]`). */
  const AS_WRITTEN_START: nat := 4
  /** Where the date actually starts in a stem: just past the prefix. */
  const DATE_START: nat := 5

  /** The file name a day's receipt is saved under. */
  function ArtifactName(day: int): (name: string)
    requires InRange(day)
  {
    PREFIX + FormatDay(day) + SUFFIX
  }

  /** Names the glob `하이패스(*.png` yields: the prefix, anything, `.png`. */
  predicate MatchesGlob(name: string) {
    && |name| >= |PREFIX| + |EXTENSION|
    && name[..|PREFIX|] == PREFIX
    && name[|name| - |EXTENSION|..] == EXTENSION
  }

  /** `Path.stem` of a name the glob yields: the name without `.png`. */
  function Stem(name: string): (stem: string)
    requires MatchesGlob(name)
    ensures name == stem + EXTENSION && stem[..|PREFIX|] == PREFIX
  {
    name[..|name| - |EXTENSION|]
  }

  /**
   * Python's `s[start:-1]`: what lies between the first `start` characters
   * and the last one, or nothing when `start` reaches past the end.
   */
  function SliceToLast(s: string, start: nat): (r: string)
    ensures start < |s| ==> |r| == |s| - 1 - start && s == s[..start] + r + [s[|s| - 1]]
    ensures |s| <= start ==> r == []
  {
    if start < |s| then s[start..|s| - 1] else []
  }

  /** The scheduler's reading of a globbed name: slice the stem from `start`, then `date.fromisoformat`. */
  function ParseArtifactDateFrom(name: string, start: nat): Option<int>
    requires MatchesGlob(name)
  {
    ParseDay(SliceToLast(Stem(name), start))
  }

  /** The reading as the scheduler writes it, from index 4. */
  function ParseArtifactDateAsWritten(name: string): Option<int>
    requires MatchesGlob(name)
  {
    ParseArtifactDateFrom(name, AS_WRITTEN_START)
  }

  /** The intended reading, from index 5, just past the prefix. */
  function ParseArtifactDate(name: string): Option<int>
    requires MatchesGlob(name)
  {
    ParseArtifactDateFrom(name, DATE_START)
  }

  /** Every artifact name is one the scheduler's glob yields, and its stem ends in `)`. */
  lemma ArtifactNameMatchesGlob(day: int)
    requires InRange(day)
    ensures MatchesGlob(ArtifactName(day))
    ensures Stem(ArtifactName(day)) == PREFIX + FormatDay(day) + ")"
  {
    var name := ArtifactName(day);
    assert name == (PREFIX + FormatDay(day) + ")") + EXTENSION;
  }

  /** A globbed name longer than the prefix and `.png` is the prefix, the slice, one more character and `.png`. */
  lemma GlobbedNameParts(name: string)
    requires MatchesGlob(name) && DATE_START < |Stem(name)|
    ensures var stem := Stem(name);
      name == PREFIX + SliceToLast(stem, DATE_START) + [stem[|stem| - 1]] + EXTENSION
  {
    var stem := Stem(name);
    assert stem == PREFIX + stem[DATE_START..|stem| - 1] + [stem[|stem| - 1]];
    assert name == stem + EXTENSION;
  }

  /** The intended reading of an artifact name gives back its day. */
  lemma ParseArtifactName(day: int)
    requires InRange(day)
    ensures MatchesGlob(ArtifactName(day))
    ensures ParseArtifactDate(ArtifactName(day)) == Some(day)
  {
    ArtifactNameMatchesGlob(day);
    var stem := Stem(ArtifactName(day));
    assert SliceToLast(stem, DATE_START) == FormatDay(day);
    ParseFormatDay(day);
  }

  /** Different days are saved under different names. */
  lemma ArtifactNameInjective(a: int, b: int)
    requires InRange(a) && InRange(b)
    requires ArtifactName(a) == ArtifactName(b)
    ensures a == b
  {
    ParseArtifactName(a);
    ParseArtifactName(b);
  }

  /**
   * As written, the slice keeps the `(` that ends the prefix, so what is
   * handed to `date.fromisoformat` never starts with a digit: no globbed
   * name ever yields a date.
   */
  lemma AsWrittenNeverParses(name: string)
    requires MatchesGlob(name)
    ensures ParseArtifactDateAsWritten(name) == None
  {
    var stem := Stem(name);
    assert stem[AS_WRITTEN_START] == PREFIX[AS_WRITTEN_START] == '(';
    var part := SliceToLast(stem, AS_WRITTEN_START);
    assert part != [] ==> part[0] == '(';
  }

  /** The concrete discrepancy: on an artifact name the slice is `(` followed by the date. */
  lemma AsWrittenSliceOfArtifact(day: int)
    requires InRange(day)
    ensures MatchesGlob(ArtifactName(day))
    ensures SliceToLast(Stem(ArtifactName(day)), AS_WRITTEN_START) == "(" + FormatDay(day)
    ensures ParseArtifactDateAsWritten(ArtifactName(day)) == None
  {
    ArtifactNameMatchesGlob(day);
    AsWrittenNeverParses(ArtifactName(day));
  }

  /** The screenshot directory, as the set of file names in it. */
  class ScreenshotDir {
    var names: set<string>

    constructor (initial: set<string>)
      ensures names == initial
    {
      names := initial;
    }
  }
}
