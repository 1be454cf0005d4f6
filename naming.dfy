/** File names and paths of `src/utils.ts`: `createFilename`, which numbers
    the files of one date within a batch through a mutable dictionary, and the
    components `createMediaPath` joins. Names and paths are kept as their
    parts; `FilenameText` and `PathComponents` render them as the source's
    template strings and `moment` formats do. */
module Naming {
  import opened Model
  import opened Text

  // ---------------------------------------------------------------------------
  // Rendering
  // ---------------------------------------------------------------------------

  /** `sentAt.format('MM-DD-YYYY')`. */
  function DateString(d: CalendarDate): (s: string)
    ensures |s| == 10
  {
    Pad2(d.month) + "-" + Pad2(d.day) + "-" + Pad4(d.year)
  }

  /** The date string is month, day and four-digit year, each zero padded and
      separated by dashes, and each field reads back as its value. */
  lemma DateStringFields(d: CalendarDate)
    ensures var s := DateString(d);
            && s[2] == '-' && s[5] == '-'
            && AllDigits(s[..2]) && ParseDigits(s[..2]) == d.month
            && AllDigits(s[3..5]) && ParseDigits(s[3..5]) == d.day
            && AllDigits(s[6..]) && ParseDigits(s[6..]) == d.year
  {
    var s := DateString(d);
    Pad2Digits(d.month);
    Pad2Digits(d.day);
    Pad4Digits(d.year);
    assert s[..2] == Pad2(d.month) && s[3..5] == Pad2(d.day) && s[6..] == Pad4(d.year);
  }

  /** Two dates share a date string only when they are the same date, so a
      dictionary keyed by the date counts exactly what one keyed by the date
      string counts. */
  lemma DateStringInjective(d1: CalendarDate, d2: CalendarDate)
    requires DateString(d1) == DateString(d2)
    ensures d1 == d2
  {
    DateStringFields(d1);
    DateStringFields(d2);
  }

  /** A month number. */
  type Month = m: nat | 1 <= m <= 12 witness 1

  /** `sentAt.format('MMM')` in the English locale. */
  function MonthAbbrev(month: Month): (s: string)
    ensures |s| == 3
  {
    ["Jan", "Feb", "Mar", "Apr", "May", "Jun", "Jul", "Aug", "Sep", "Oct", "Nov", "Dec"][month - 1]
  }

  /** The `hasDateDupe` part of a file name: empty for the first file of a
      date, `_` and the count in decimal after that. */
  function CountSuffix(count: nat): (s: string)
    ensures count <= 1 <==> s == []
  {
    if count > 1 then "_" + NatToString(count) else ""
  }

  /** For a count above one the suffix is `_` and the count in decimal. */
  lemma CountSuffixDigits(count: nat)
    requires count > 1
    ensures CountSuffix(count)[0] == '_'
    ensures AllDigits(CountSuffix(count)[1..]) && ParseDigits(CountSuffix(count)[1..]) == count
  {
    assert CountSuffix(count)[1..] == NatToString(count);
    ParseNatToString(count);
  }

  /** What `createFilename` builds a name from: the date, how many files of
      that date the batch has named so far, this one included, and the
      extension. */
  datatype Filename = Filename(date: CalendarDate, count: nat, ext: string)

  /** The name `createFilename` returns for `f`. */
  function FilenameText(f: Filename): (s: string)
    ensures |s| == 10 + |CountSuffix(f.count)| + |f.ext|
  {
    DateString(f.date) + CountSuffix(f.count) + f.ext
  }

  /** A name `createFilename` can return: the count is at least one and the
      extension starts with a dot, as ".jpeg" and ".mp4" do. */
  predicate Issued(f: Filename)
  {
    f.count >= 1 && |f.ext| > 0 && f.ext[0] == '.'
  }

  /** A file name is the date string, then the count suffix, then the
      extension. */
  lemma FilenameParts(f: Filename)
    ensures FilenameText(f)[..10] == DateString(f.date)
    ensures FilenameText(f)[10..] == CountSuffix(f.count) + f.ext
  {
    assert FilenameText(f) == DateString(f.date) + (CountSuffix(f.count) + f.ext);
  }

  /** The number of decimal digits at the start of `s`. */
  function LeadingDigits(s: string): (n: nat)
    ensures n <= |s| && AllDigits(s[..n])
    ensures n < |s| ==> !IsDigit(s[n])
  {
    if s != [] && IsDigit(s[0]) then
      var n := 1 + LeadingDigits(s[1..]);
      assert s[..n] == [s[0]] + s[1..][..n - 1];
      n
    else 0
  }

  lemma {:induction false} LeadingDigitsOf(a: string, e: string)
    requires AllDigits(a) && |e| > 0 && !IsDigit(e[0])
    ensures LeadingDigits(a + e) == |a|
  {
    if a == [] {
      assert a + e == e;
    } else {
      assert (a + e)[1..] == a[1..] + e;
      LeadingDigitsOf(a[1..], e);
    }
  }

  /** Reads the count back from the tail of a file name (what follows the
      date): `_n` followed by digits gives `n`, no suffix gives 1. */
  function SuffixCount(tail: string): nat
  {
    if |tail| >= 1 && tail[0] == '_' then
      var digits := tail[1..][..LeadingDigits(tail[1..])];
      ParseDigits(digits)
    else 1
  }

  /** A file name gives back the date, the count and the extension it was
      made from: the date string is its first ten characters, the count is
      read from the suffix and the extension is what follows the suffix. */
  lemma FilenameRoundTrip(f: Filename)
    requires Issued(f)
    ensures FilenameText(f)[..10] == DateString(f.date)
    ensures SuffixCount(FilenameText(f)[10..]) == f.count
    ensures FilenameText(f)[10 + |CountSuffix(f.count)|..] == f.ext
  {
    FilenameParts(f);
    var tail := FilenameText(f)[10..];
    if f.count > 1 {
      var digits := NatToString(f.count);
      ParseNatToString(f.count);
      assert tail[1..] == digits + f.ext;
      LeadingDigitsOf(digits, f.ext);
      assert tail[1..][..|digits|] == digits;
    } else {
      assert tail == f.ext;
    }
  }

  /** Different names are rendered differently. */
  lemma FilenameTextInjective(f1: Filename, f2: Filename)
    requires Issued(f1) && Issued(f2)
    requires FilenameText(f1) == FilenameText(f2)
    ensures f1 == f2
  {
    FilenameRoundTrip(f1);
    FilenameRoundTrip(f2);
    DateStringInjective(f1.date, f2.date);
  }

  // ---------------------------------------------------------------------------
  // createFilename
  // ---------------------------------------------------------------------------

  /** The count a dictionary holds for a date; a missing key counts as 0, as
      the falsy check of `createFilename` treats it. */
  function CountOf(counts: map<CalendarDate, nat>, date: CalendarDate): nat
  {
    if date in counts then counts[date] else 0
  }

  /** The per-batch dictionary of `createFilename`: how many files of each
      date have been named so far in the current batch. */
  class MediaCounts {
    var counts: map<CalendarDate, nat>

    constructor ()
      ensures counts == map[]
    {
      counts := map[];
    }
  }

  /** `createFilename`: raises the count of the descriptor's date, and only
      that count, by exactly one, and names the file after the new count. */
  method CreateFilename(media: MediaFile, mediaCounts: MediaCounts) returns (filename: Filename)
    modifies mediaCounts
    ensures var count := CountOf(old(mediaCounts.counts), media.sentAt) + 1;
            && mediaCounts.counts == old(mediaCounts.counts)[media.sentAt := count]
            && filename == Filename(media.sentAt, count, media.mediaExt)
  {
    var date := media.sentAt;
    if date !in mediaCounts.counts {
      mediaCounts.counts := mediaCounts.counts[date := 0];
    }
    mediaCounts.counts := mediaCounts.counts[date := mediaCounts.counts[date] + 1];
    filename := Filename(date, mediaCounts.counts[date], media.mediaExt);
  }

  // ---------------------------------------------------------------------------
  // createMediaPath
  // ---------------------------------------------------------------------------

  /** The components `createMediaPath` joins: the output directory, the year
      directory, the month directory and the file name. */
  datatype MediaPath = MediaPath(outputDir: string, year: nat, month: Month, filename: Filename)

  function MediaPathFor(media: MediaFile, filename: Filename, outputDir: string): MediaPath
  {
    MediaPath(outputDir, media.sentAt.year, media.sentAt.month, filename)
  }

  /** The four strings handed to `path.join`. */
  function PathComponents(p: MediaPath): (c: seq<string>)
    ensures |c| == 4
  {
    [p.outputDir, NatToString(p.year), MonthAbbrev(p.month), FilenameText(p.filename)]
  }

  /** The directories of a path are the output directory, the year in
      decimal without padding and the English abbreviation of the month, and
      the last component is the rendered file name. */
  lemma MediaPathDirs(media: MediaFile, filename: Filename, outputDir: string)
    ensures var c := PathComponents(MediaPathFor(media, filename, outputDir));
            && c[0] == outputDir
            && AllDigits(c[1]) && ParseDigits(c[1]) == media.sentAt.year
            && c[2] == MonthAbbrev(media.sentAt.month)
            && c[3] == FilenameText(filename)
  {
    ParseNatToString(media.sentAt.year);
  }

  // ---------------------------------------------------------------------------
  // Naming a batch
  // ---------------------------------------------------------------------------

  /** How many of the first `j` descriptors of `batch` were sent on `date`. */
  function Occurrences(batch: seq<MediaFile>, j: nat, date: CalendarDate): nat
    requires j <= |batch|
  {
    if j == 0 then 0
    else Occurrences(batch, j - 1, date) + (if batch[j - 1].sentAt == date then 1 else 0)
  }

  lemma {:induction false} OccurrencesGrow(batch: seq<MediaFile>, i: nat, j: nat, date: CalendarDate)
    requires i <= j <= |batch|
    ensures Occurrences(batch, i, date) <= Occurrences(batch, j, date)
    decreases j - i
  {
    if i < j {
      OccurrencesGrow(batch, i, j - 1, date);
    }
  }

  /** A dictionary that holds, for every date, how many of the first `j - 1`
      descriptors of a batch have that date, still does for the first `j`
      after `createFilename` names descriptor `j - 1`. */
  lemma CountsStep(counts: map<CalendarDate, nat>, next: map<CalendarDate, nat>, batch: seq<MediaFile>, j: nat)
    requires 0 < j <= |batch|
    requires forall d :: CountOf(counts, d) == Occurrences(batch, j - 1, d)
    requires next == counts[batch[j - 1].sentAt := CountOf(counts, batch[j - 1].sentAt) + 1]
    ensures forall d :: CountOf(next, d) == Occurrences(batch, j, d)
  {
    forall d
      ensures CountOf(next, d) == Occurrences(batch, j, d)
    {
      assert CountOf(counts, d) == Occurrences(batch, j - 1, d);
    }
  }

  /** The name of the `j`-th descriptor of a batch: the descriptors before it
      with the same date, plus one, give its count. The URL plays no part, so
      a descriptor that is skipped still takes a number. */
  function BatchFilename(batch: seq<MediaFile>, j: nat): Filename
    requires j < |batch|
  {
    Filename(batch[j].sentAt, Occurrences(batch, j, batch[j].sentAt) + 1, batch[j].mediaExt)
  }

  /** Within one batch no two descriptors get the same file name: two of the
      same date get different counts. */
  lemma BatchFilenamesDiffer(batch: seq<MediaFile>, i: nat, j: nat)
    requires i < j < |batch|
    ensures BatchFilename(batch, i) != BatchFilename(batch, j)
  {
    if batch[i].sentAt == batch[j].sentAt {
      OccurrencesGrow(batch, i + 1, j, batch[i].sentAt);
    }
  }

  /** Nor the same name text, once the extensions are those of the media
      types. */
  lemma BatchFilenamesDistinct(batch: seq<MediaFile>, i: nat, j: nat)
    requires i < j < |batch|
    requires WellFormed(batch[i]) && WellFormed(batch[j])
    ensures FilenameText(BatchFilename(batch, i)) != FilenameText(BatchFilename(batch, j))
  {
    var fi, fj := BatchFilename(batch, i), BatchFilename(batch, j);
    BatchFilenamesDiffer(batch, i, j);
    if FilenameText(fi) == FilenameText(fj) {
      FilenameTextInjective(fi, fj);
    }
  }

  /** The paths of the first `j` descriptors of a batch, each placed under
      its year and month with its batch file name. */
  function BatchPaths(batch: seq<MediaFile>, j: nat, outputDir: string): (r: seq<MediaPath>)
    requires j <= |batch|
    ensures |r| == j
  {
    if j == 0 then []
    else BatchPaths(batch, j - 1, outputDir) + [MediaPathFor(batch[j - 1], BatchFilename(batch, j - 1), outputDir)]
  }

  lemma {:induction false} BatchPathsAt(batch: seq<MediaFile>, j: nat, outputDir: string, i: nat)
    requires i < j <= |batch|
    ensures BatchPaths(batch, j, outputDir)[i] == MediaPathFor(batch[i], BatchFilename(batch, i), outputDir)
  {
    if i < j - 1 {
      BatchPathsAt(batch, j - 1, outputDir, i);
    }
  }

  /** No two descriptors of a batch are written to the same path. */
  lemma BatchPathsDistinct(batch: seq<MediaFile>, outputDir: string, i: nat, j: nat)
    requires i < j < |batch|
    requires WellFormed(batch[i]) && WellFormed(batch[j])
    ensures PathComponents(BatchPaths(batch, |batch|, outputDir)[i])
            != PathComponents(BatchPaths(batch, |batch|, outputDir)[j])
  {
    BatchPathsAt(batch, |batch|, outputDir, i);
    BatchPathsAt(batch, |batch|, outputDir, j);
    BatchFilenamesDistinct(batch, i, j);
  }

  /** Three photos of 15 March 2024 in one batch, the second without a URL,
      are named `03-15-2024.jpeg`, `03-15-2024_2.jpeg` and
      `03-15-2024_3.jpeg`. */
  lemma SameDayNames(u1: string, u3: string)
    ensures var d := Date(2024, 3, 15);
            var batch := [MediaFile(Photo, u1, ".jpeg", d), MediaFile(Photo, "", ".jpeg", d), MediaFile(Photo, u3, ".jpeg", d)];
            && FilenameText(BatchFilename(batch, 0)) == "03-15-2024.jpeg"
            && FilenameText(BatchFilename(batch, 1)) == "03-15-2024_2.jpeg"
            && FilenameText(BatchFilename(batch, 2)) == "03-15-2024_3.jpeg"
  {
    var d: CalendarDate := Date(2024, 3, 15);
    assert DateString(d) == "03-15-2024";
  }
}
