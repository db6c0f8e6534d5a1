/** The bundled sample songs and the plain-text lyric format: a "title - artist"
    line, a link line, a blank line, then one "[MM:SS.CC] text" line per lyric
    line, sorted by start time. The importer reads such a text line by line. */
module SampleData {
  import opened Types
  import opened Strings
  import opened Lines
  import opened TimeFormat
  import opened VideoIds

  // ---- sample songs -----------------------------------------------------------

  const SampleSongs: seq<Song> := [
    Song("1", "Never Gonna Give You Up", "Rick Astley", "dQw4w9WgXcQ", [
      LyricLine("1", 17000, 20000, "We're no strangers to love"),
      LyricLine("2", 20000, 23500, "You know the rules and so do I"),
      LyricLine("3", 23500, 27000, "A full commitment's what I'm thinking of"),
      LyricLine("4", 27000, 30500, "You wouldn't get this from any other guy"),
      LyricLine("5", 31000, 33000, "I just wanna tell you how I'm feeling"),
      LyricLine("6", 33000, 36000, "Gotta make you understand"),
      LyricLine("7", 36500, 38500, "Never gonna give you up"),
      LyricLine("8", 38500, 41000, "Never gonna let you down"),
      LyricLine("9", 41000, 43500, "Never gonna run around and desert you"),
      LyricLine("10", 43500, 46000, "Never gonna make you cry"),
      LyricLine("11", 46000, 48500, "Never gonna say goodbye"),
      LyricLine("12", 48500, 51500, "Never gonna tell a lie and hurt you")]),
    Song("2", "Bohemian Rhapsody", "Queen", "fJ9rUzIMcZQ", [
      LyricLine("br1", 7000, 10000, "Is this the real life?"),
      LyricLine("br2", 10000, 13000, "Is this just fantasy?"),
      LyricLine("br3", 13000, 16000, "Caught in a landslide"),
      LyricLine("br4", 16000, 20000, "No escape from reality"),
      LyricLine("br5", 20000, 23000, "Open your eyes"),
      LyricLine("br6", 23000, 26000, "Look up to the skies and see")])
  ]

  /** Every line ends after it starts, and no later than the next line starts. */
  predicate Chained(ls: seq<LyricLine>) {
    (forall i :: 0 <= i < |ls| ==> ls[i].startTime < ls[i].endTime) &&
    (forall i :: 0 < i < |ls| ==> ls[i - 1].endTime <= ls[i].startTime)
  }

  /** Chained lines are sorted by start time and never overlap. */
  lemma {:induction false} ChainedSorted(ls: seq<LyricLine>)
    requires Chained(ls)
    ensures SortedByStart(ls)
    ensures forall i, j :: 0 <= i < j < |ls| ==> ls[i].endTime <= ls[j].startTime
    decreases |ls|
  {
    if ls != [] {
      var tail := ls[1..];
      assert Chained(tail) by {
        forall i | 0 < i < |tail| ensures tail[i - 1].endTime <= tail[i].startTime {
          assert tail[i - 1] == ls[i] && tail[i] == ls[i + 1];
        }
      }
      ChainedSorted(tail);
      forall i, j | 0 <= i < j < |ls| ensures ls[i].endTime <= ls[j].startTime {
        if i > 0 {
          assert ls[i] == tail[i - 1] && ls[j] == tail[j - 1];
        } else if j > 1 {
          assert ls[1] == tail[0] && ls[j] == tail[j - 1];
        }
      }
    }
  }

  /** The first sample song's lines are chained. */
  lemma FirstSampleChained()
    ensures Chained(SampleSongs[0].lyrics)
  {
    var a := SampleSongs[0].lyrics;
    assert forall i :: 0 <= i < |a| ==> a[i].startTime < a[i].endTime;
    assert forall i :: 0 < i < |a| ==> a[i - 1].endTime <= a[i].startTime;
  }

  /** The second sample song's lines are chained. */
  lemma SecondSampleChained()
    ensures Chained(SampleSongs[1].lyrics)
  {
    var b := SampleSongs[1].lyrics;
    assert forall i :: 0 <= i < |b| ==> b[i].startTime < b[i].endTime;
    assert forall i :: 0 < i < |b| ==> b[i - 1].endTime <= b[i].startTime;
  }

  /** Each sample song's lines are sorted by start time, well formed and never overlap. */
  lemma SampleSongsWellTimed()
    ensures forall k :: 0 <= k < |SampleSongs| ==> Chained(SampleSongs[k].lyrics) && SortedByStart(SampleSongs[k].lyrics)
    ensures forall k, i, j :: 0 <= k < |SampleSongs| && 0 <= i < j < |SampleSongs[k].lyrics| ==>
      SampleSongs[k].lyrics[i].endTime <= SampleSongs[k].lyrics[j].startTime
  {
    FirstSampleChained();
    SecondSampleChained();
    ChainedSorted(SampleSongs[0].lyrics);
    ChainedSorted(SampleSongs[1].lyrics);
  }

  // ---- export -----------------------------------------------------------------

  /** The export's `formatTime`: "[MM:SS.CC]". */
  function ExportStamp(ms: int): string {
    "[" + FormatTimeInput(ms) + "]"
  }

  /** The export's stamp is the editor's time field in brackets, so the editor's
      parser reads the bracketed part back to the centisecond. */
  lemma ExportStampReadsBack(ms: nat)
    ensures var s := ExportStamp(ms);
      |s| >= 2 && s[0] == '[' && s[|s| - 1] == ']'
      && ParseTimeInput(s[1..|s| - 1]) == ms - ms % 10
  {
    var s := ExportStamp(ms);
    assert s[1..|s| - 1] == FormatTimeInput(ms);
    FormatThenParse(ms);
  }

  function ExportLine(l: LyricLine): string {
    ExportStamp(l.startTime) + " " + l.text
  }

  /** One export line per lyric line, in the same order. */
  function ExportLines(ls: seq<LyricLine>): seq<string> {
    seq(|ls|, i requires 0 <= i < |ls| => ExportLine(ls[i]))
  }

  const LinkPrefix: string := "YouTube: https://youtube.com/watch?v="

  /** The export's first line: the title and the artist. */
  function HeaderLine(title: string, artist: string): string {
    title + " - " + artist
  }

  /** The export's second line: a link to the video. */
  function LinkLine(videoId: string): string {
    LinkPrefix + videoId
  }

  /** The exported text of lines already sorted by start time: the header line, the
      link line, an empty line, then one line per lyric line. */
  function ExportText(title: string, artist: string, videoId: string, sorted: seq<LyricLine>): string {
    HeaderLine(title, artist) + "\n" + LinkLine(videoId) + "\n\n" + Join(ExportLines(sorted), "\n")
  }

  /** `exportLyrics`: sorts the song's lines in place by start time, then writes the text. */
  method ExportLyrics(title: string, artist: string, videoId: string, lyrics: array<LyricLine>) returns (text: string)
    modifies lyrics
    ensures lyrics[..] == SortByStart(old(lyrics[..]))
    ensures text == ExportText(title, artist, videoId, lyrics[..])
  {
    var sorted := SortByStart(lyrics[..]);
    forall i | 0 <= i < lyrics.Length {
      lyrics[i] := sorted[i];
    }
    text := ExportText(title, artist, videoId, lyrics[..]);
  }

  // ---- import -----------------------------------------------------------------

  datatype TimedText = TimedText(startTime: int, text: string)

  /** What `importLyrics` returns; None is a field it never set. */
  datatype Imported = Imported(title: Option<string>, artist: Option<string>, videoId: Option<string>, lyrics: seq<TimedText>)

  /** The lines that are not blank, in order. */
  function NonBlank(lines: seq<string>): (r: seq<string>)
    ensures forall i :: 0 <= i < |r| ==> !Blank(r[i])
  {
    if lines == [] then []
    else (if Blank(lines[0]) then [] else [lines[0]]) + NonBlank(lines[1..])
  }

  predicate IsHeaderLine(line: string) {
    Contains(line, " - ") && !StartsWith(line, "[")
  }

  predicate IsLinkLine(line: string) {
    Contains(line, LinkMarkers[0]) || Contains(line, LinkMarkers[1])
  }

  predicate NoLineTerminator(s: string) {
    forall i :: 0 <= i < |s| ==> !IsLineTerminator(s[i])
  }

  /** How many minute digits `\d{1,2}:` takes at the front of `s`, 0 when it does not match. */
  function MinuteWidth(s: string): (n: nat)
    ensures n <= 2 && (n > 0 ==> |s| > n && AllDigits(s[..n]) && s[n] == ':')
  {
    if |s| >= 3 && IsDigit(s[0]) && IsDigit(s[1]) && s[2] == ':' then 2
    else if |s| >= 2 && IsDigit(s[0]) && s[1] == ':' then 1
    else 0
  }

  /** `(.+)$` from position `k` of `u`, giving back white space one character at a
      time as the regular expression backtracks. */
  function TailFrom(u: string, k: nat): (r: Option<string>)
    requires k <= |u|
    ensures r.Some? ==> |r.value| > 0 && NoLineTerminator(r.value)
    decreases k
  {
    if |u| > k && NoLineTerminator(u[k..]) then Some(u[k..])
    else if k == 0 then None
    else TailFrom(u, k - 1)
  }

  /** `\s*(.+)$`: the text after the leading white space, as much of it as `.` can match. */
  function TailText(u: string): Option<string> {
    TailFrom(u, RunLength(u, IsSpace))
  }

  /** `^\[(\d{1,2}):(\d{2})\.(\d{2})\]\s*(.+)$` and the start time computed from its groups. */
  function MatchTimestamp(line: string): Option<TimedText> {
    if |line| < 1 || line[0] != '[' then None
    else
      var n := MinuteWidth(line[1..]);
      if n == 0 then None
      else
        var rest := line[n + 2..];
        if |rest| < 6 || !IsDigit(rest[0]) || !IsDigit(rest[1]) || rest[2] != '.'
          || !IsDigit(rest[3]) || !IsDigit(rest[4]) || rest[5] != ']' then None
        else
          match TailText(rest[6..])
          case None => None
          case Some(text) =>
            var minutes, seconds, centis := DecimalValue(line[1..n + 1]), DecimalValue(rest[..2]), DecimalValue(rest[3..5]);
            Some(TimedText((minutes * 60 + seconds) * 1000 + centis * 10, text))
  }

  /** One or two digits are worth at most 99. */
  lemma TwoDigitsAtMost(ds: string)
    requires AllDigits(ds) && |ds| <= 2
    ensures DecimalValue(ds) <= 99
  {
    if |ds| == 2 {
      assert DecimalValue(ds) == DecimalValue(ds[..1]) * 10 + DigitValue(ds[1]);
      assert DecimalValue(ds[..1]) == DigitValue(ds[0]);
    }
  }

  /** Whatever the line, a match begins with '[' and yields a non-empty one-line text
      and a start time on the 10 ms grid, at most 99:99.99. */
  lemma TimestampReading(line: string)
    ensures MatchTimestamp(line).Some? ==> |line| > 0 && line[0] == '['
    ensures MatchTimestamp(line).Some? ==>
      var t := MatchTimestamp(line).value;
      0 <= t.startTime <= 6039990 && t.startTime % 10 == 0 && |t.text| > 0 && NoLineTerminator(t.text)
  {
    if MatchTimestamp(line).Some? {
      var n := MinuteWidth(line[1..]);
      var rest := line[n + 2..];
      assert AllDigits(rest[..2]) && AllDigits(rest[3..5]);
      TwoDigitsAtMost(line[1..n + 1]);
      TwoDigitsAtMost(rest[..2]);
      TwoDigitsAtMost(rest[3..5]);
    }
  }

  /** A hand-typed line: one minute digit and extra white space still match; one
      seconds digit does not. */
  lemma TimestampByHand()
    ensures MatchTimestamp("[1:05.50]  hi") == Some(TimedText(65500, "hi"))
    ensures MatchTimestamp("[1:5.50] hi") == None
  {
    var line := "[1:05.50]  hi";
    assert MinuteWidth(line[1..]) == 1;
    var rest := line[3..];
    assert rest == "05.50]  hi";
    var u := rest[6..];
    assert u == "  hi" && IsSpace(u[0]) && IsSpace(u[1]) && !IsSpace(u[2]);
    assert RunLength(u, IsSpace) == 2;
    assert TailText(rest[6..]) == Some("hi");
    assert DecimalValue("1") == 1 && DecimalValue("05") == 5 && DecimalValue("50") == 50;
    var other := "[1:5.50] hi";
    assert MinuteWidth(other[1..]) == 1;
    assert other[3..][2] == '5';
  }

  /** One pass of the import loop: a header line sets title and artist, a link line
      sets the video id when the pattern finds one, a timestamp line adds a lyric,
      and any other line is ignored. */
  function ImportStep(acc: Imported, line: string): Imported {
    if IsHeaderLine(line) then
      var parts := Split(line, " - ");
      acc.(title := Some(Trim(parts[0])), artist := Some(Trim(parts[1])))
    else if IsLinkLine(line) then
      match SearchFrom(line, LinkMarkers, 0)
      case Some(id) => acc.(videoId := Some(id))
      case None => acc
    else
      match MatchTimestamp(line)
      case Some(t) => acc.(lyrics := acc.lyrics + [t])
      case None => acc
  }

  /** The import loop: `step` applied to each of `lines` in turn, from `acc`. */
  function ForEachLine(step: (Imported, string) -> Imported, acc: Imported, lines: seq<string>): Imported
    decreases |lines|
  {
    if lines == [] then acc else step(ForEachLine(step, acc, lines[..|lines| - 1]), lines[|lines| - 1])
  }

  /** One more line is one more step. */
  lemma ForEachLineStep(step: (Imported, string) -> Imported, acc: Imported, lines: seq<string>, i: nat)
    requires i < |lines|
    ensures ForEachLine(step, acc, lines[..i + 1]) == step(ForEachLine(step, acc, lines[..i]), lines[i])
  {
    assert lines[..i + 1][..i] == lines[..i];
  }

  const NothingImported: Imported := Imported(None, None, None, [])

  /** `importLyrics` as a value. */
  function ImportText(text: string): Imported {
    ForEachLine(ImportStep, NothingImported, NonBlank(Split(text, "\n")))
  }

  /** `importLyrics`. */
  method ImportLyrics(text: string) returns (r: Imported)
    ensures r == ImportText(text)
  {
    var lines := NonBlank(Split(text, "\n"));
    var lyrics: seq<TimedText> := [];
    var title, artist, videoId: Option<string> := None, None, None;
    var i := 0;
    while i < |lines|
      invariant 0 <= i <= |lines|
      invariant Imported(title, artist, videoId, lyrics) == ForEachLine(ImportStep, NothingImported, lines[..i])
    {
      ForEachLineStep(ImportStep, NothingImported, lines, i);
      title, artist, videoId, lyrics := ImportLine(title, artist, videoId, lyrics, lines[i]);
      i := i + 1;
    }
    assert lines[..|lines|] == lines;
    r := Imported(title, artist, videoId, lyrics);
  }

  /** The body of the `forEach` in `importLyrics`: what one line does to the fields. */
  method ImportLine(title: Option<string>, artist: Option<string>, videoId: Option<string>,
                    lyrics: seq<TimedText>, line: string)
    returns (title': Option<string>, artist': Option<string>, videoId': Option<string>, lyrics': seq<TimedText>)
    ensures Imported(title', artist', videoId', lyrics') == ImportStep(Imported(title, artist, videoId, lyrics), line)
  {
    title', artist', videoId', lyrics' := title, artist, videoId, lyrics;
    if Contains(line, " - ") && !StartsWith(line, "[") {
      var parts := Split(line, " - ");
      title' := Some(Trim(parts[0]));
      artist' := Some(Trim(parts[1]));
    } else if Contains(line, LinkMarkers[0]) || Contains(line, LinkMarkers[1]) {
      var found := SearchFrom(line, LinkMarkers, 0);
      if found.Some? {
        videoId' := found;
      }
    } else {
      var t := MatchTimestamp(line);
      if t.Some? {
        lyrics' := lyrics + [t.value];
      }
    }
  }

  // ---- what reads back ---------------------------------------------------------

  /** What the import gives back for exported lines: the text, and the start time
      down to the centisecond the stamp keeps. */
  function Timed(ls: seq<LyricLine>): (r: seq<TimedText>)
    ensures |r| == |ls|
  {
    seq(|ls|, i requires 0 <= i < |ls| => TimedText(ls[i].startTime - ls[i].startTime % 10, ls[i].text))
  }

  /** A title or artist that reads back unchanged: already trimmed, on one line, and
      free of the " - " that separates the two. */
  predicate HeaderField(s: string) {
    Trim(s) == s && '\n' !in s && !Contains(s, " - ")
  }

  /** The title must also not end with " -" (the separator would be found one place
      early) nor start with '[' (the header would be taken for a lyric line). */
  predicate TitleField(s: string) {
    HeaderField(s) && !(|s| >= 2 && s[|s| - 2..] == " -") && (s == [] || s[0] != '[')
  }

  /** An id that the link pattern reads back whole. */
  predicate VideoIdField(s: string) {
    |s| > 0 && ' ' !in s && forall i :: 0 <= i < |s| ==> IsIdChar(s[i])
  }

  /** A line the timestamp pattern reads back: a start under 100 minutes (the pattern
      takes at most two minute digits) and a one-line text that does not start with
      white space. */
  predicate Stampable(l: LyricLine) {
    0 <= l.startTime < 6000000 && |l.text| > 0 && !IsSpace(l.text[0]) && NoLineTerminator(l.text)
  }

  /** A line that reads back as a lyric line: stampable, and no link marker in its text. */
  predicate Exportable(l: LyricLine) {
    Stampable(l) && !Contains(l.text, LinkMarkers[0]) && !Contains(l.text, LinkMarkers[1])
  }

  /** Every line of `ls` is exportable. */
  predicate AllExportable(ls: seq<LyricLine>) {
    ls == [] || (Exportable(ls[0]) && AllExportable(ls[1..]))
  }
}
