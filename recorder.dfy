/** The recording page: lines are typed while the video plays and stamped with
    the player's clock, edited, navigated, exported as a JSON record and loaded
    back from one. The page keeps its line list sorted by start time. */
module Recorder {
  import opened Types
  import opened Strings
  import opened Lines
  import opened TimeFormat
  import opened PlayerHook
  import opened Display
  import opened VideoIds

  // ---- the active line ------------------------------------------------------

  /** `getCurrentLyric`: the first line, in list order, whose range holds `t`. */
  function CurrentLyric(lyrics: seq<LyricLine>, t: int): (r: Option<LyricLine>)
    ensures var i := CurrentLyricIndex(lyrics, t);
      r == if i >= 0 then Some(lyrics[i]) else None
  {
    if lyrics == [] then None
    else if Covers(lyrics[0], t) then Some(lyrics[0])
    else
      assert forall j :: 1 <= j < |lyrics| ==> lyrics[j] == lyrics[1..][j - 1];
      CurrentLyric(lyrics[1..], t)
  }

  /** Where one line ends as the next begins, the shared instant belongs to the earlier line. */
  lemma SharedBoundary()
    ensures var a := LyricLine("1", 0, 1000, "a");
      var b := LyricLine("2", 1000, 2000, "b");
      CurrentLyric([a, b], 1000) == Some(a)
  {
  }

  // ---- previous / next line -------------------------------------------------

  /** `findIndex` by id: the first index holding a line with `id`, or -1. */
  function IndexOfId(lyrics: seq<LyricLine>, id: string): (r: int)
    ensures -1 <= r < |lyrics|
    ensures r >= 0 ==> lyrics[r].id == id && forall j :: 0 <= j < r ==> lyrics[j].id != id
    ensures r == -1 <==> forall j :: 0 <= j < |lyrics| ==> lyrics[j].id != id
  {
    if lyrics == [] then -1
    else if lyrics[0].id == id then 0
    else
      var k := IndexOfId(lyrics[1..], id);
      assert forall j :: 1 <= j < |lyrics| ==> lyrics[j] == lyrics[1..][j - 1];
      if k == -1 then -1 else k + 1
  }

  predicate IdsDistinct(lyrics: seq<LyricLine>) {
    forall i, j :: 0 <= i < j < |lyrics| ==> lyrics[i].id != lyrics[j].id
  }

  /** The latest start time before `t`: the first line after filtering the lines
      that start before `t` and sorting them latest first. */
  function LatestStartBefore(lyrics: seq<LyricLine>, t: int): (r: Option<int>)
    ensures r.None? <==> forall i :: 0 <= i < |lyrics| ==> lyrics[i].startTime >= t
    ensures r.Some? ==> r.value < t && exists i :: 0 <= i < |lyrics| && lyrics[i].startTime == r.value
    ensures r.Some? ==> forall i :: 0 <= i < |lyrics| && lyrics[i].startTime < t ==> lyrics[i].startTime <= r.value
  {
    if lyrics == [] then None
    else
      var rest := LatestStartBefore(lyrics[1..], t);
      assert forall j :: 1 <= j < |lyrics| ==> lyrics[j] == lyrics[1..][j - 1];
      if lyrics[0].startTime < t && (rest.None? || lyrics[0].startTime >= rest.value) then Some(lyrics[0].startTime)
      else rest
  }

  /** The earliest start time after `t`. */
  function EarliestStartAfter(lyrics: seq<LyricLine>, t: int): (r: Option<int>)
    ensures r.None? <==> forall i :: 0 <= i < |lyrics| ==> lyrics[i].startTime <= t
    ensures r.Some? ==> r.value > t && exists i :: 0 <= i < |lyrics| && lyrics[i].startTime == r.value
    ensures r.Some? ==> forall i :: 0 <= i < |lyrics| && lyrics[i].startTime > t ==> lyrics[i].startTime >= r.value
  {
    if lyrics == [] then None
    else
      var rest := EarliestStartAfter(lyrics[1..], t);
      assert forall j :: 1 <= j < |lyrics| ==> lyrics[j] == lyrics[1..][j - 1];
      if lyrics[0].startTime > t && (rest.None? || lyrics[0].startTime <= rest.value) then Some(lyrics[0].startTime)
      else rest
  }

  /** The time `jumpToPreviousLyric` seeks to: the start of the line before the
      first line carrying the active line's id (none before the first line), or,
      with no active line, the latest start before `t`. */
  function PreviousTarget(lyrics: seq<LyricLine>, t: int): Option<int> {
    match CurrentLyric(lyrics, t)
    case Some(current) =>
      var i := IndexOfId(lyrics, current.id);
      if i >= 1 then Some(lyrics[i - 1].startTime) else None
    case None => LatestStartBefore(lyrics, t)
  }

  /** The time `jumpToNextLyric` seeks to: the start of the line after the active
      one (none after the last line), or, with no active line, the earliest start after `t`. */
  function NextTarget(lyrics: seq<LyricLine>, t: int): Option<int> {
    match CurrentLyric(lyrics, t)
    case Some(current) =>
      var i := IndexOfId(lyrics, current.id);
      if 0 <= i && i + 1 < |lyrics| then Some(lyrics[i + 1].startTime) else None
    case None => EarliestStartAfter(lyrics, t)
  }

  lemma IndexOfDistinctId(lyrics: seq<LyricLine>, i: nat)
    requires IdsDistinct(lyrics) && i < |lyrics|
    ensures IndexOfId(lyrics, lyrics[i].id) == i
  {
  }

  /** With an active line at index `i`, "previous" goes to the line before it and
      does nothing on the first line. */
  lemma PreviousFromActive(lyrics: seq<LyricLine>, t: int)
    requires IdsDistinct(lyrics) && CurrentLyricIndex(lyrics, t) >= 0
    ensures var i := CurrentLyricIndex(lyrics, t);
      PreviousTarget(lyrics, t) == if i > 0 then Some(lyrics[i - 1].startTime) else None
  {
    IndexOfDistinctId(lyrics, CurrentLyricIndex(lyrics, t));
  }

  /** With an active line at index `i`, "next" goes to the line after it and
      does nothing on the last line. */
  lemma NextFromActive(lyrics: seq<LyricLine>, t: int)
    requires IdsDistinct(lyrics) && CurrentLyricIndex(lyrics, t) >= 0
    ensures var i := CurrentLyricIndex(lyrics, t);
      NextTarget(lyrics, t) == if i + 1 < |lyrics| then Some(lyrics[i + 1].startTime) else None
  {
    IndexOfDistinctId(lyrics, CurrentLyricIndex(lyrics, t));
  }

  /** Whatever the ids, the step goes from the first line carrying the active
      line's id, which can lie before the active line when ids repeat. */
  lemma TargetsFromFirstId(lyrics: seq<LyricLine>, t: int)
    requires CurrentLyricIndex(lyrics, t) >= 0
    ensures var k := IndexOfId(lyrics, lyrics[CurrentLyricIndex(lyrics, t)].id);
      0 <= k <= CurrentLyricIndex(lyrics, t)
      && PreviousTarget(lyrics, t) == (if k > 0 then Some(lyrics[k - 1].startTime) else None)
      && NextTarget(lyrics, t) == (if k + 1 < |lyrics| then Some(lyrics[k + 1].startTime) else None)
  {
  }

  /** Lines `x`, `y`, `x` at 0, 1000 and 2000 ms: at 2500 the third line plays, but
      its id is found first at index 0, so "previous" does nothing and "next"
      goes back to 1000. */
  lemma RepeatedIdScenario()
    ensures var ls := [LyricLine("x", 0, 1000, "a"), LyricLine("y", 1000, 2000, "b"), LyricLine("x", 2000, 3000, "c")];
      CurrentLyricIndex(ls, 2500) == 2 && PreviousTarget(ls, 2500) == None && NextTarget(ls, 2500) == Some(1000)
  {
    var ls := [LyricLine("x", 0, 1000, "a"), LyricLine("y", 1000, 2000, "b"), LyricLine("x", 2000, 3000, "c")];
    assert !Covers(ls[0], 2500) && !Covers(ls[1], 2500) && Covers(ls[2], 2500);
    assert IndexOfId(ls, "x") == 0;
  }

  /** With no active line, "previous" and "next" go to the nearest start on either side of `t`. */
  lemma TargetsBetweenLines(lyrics: seq<LyricLine>, t: int)
    requires CurrentLyricIndex(lyrics, t) == -1
    ensures PreviousTarget(lyrics, t) == LatestStartBefore(lyrics, t)
    ensures NextTarget(lyrics, t) == EarliestStartAfter(lyrics, t)
  {
  }

  /** "Previous" on the first active line never wraps round, even when lines have equal ids. */
  lemma PreviousOnFirstLine(lyrics: seq<LyricLine>, t: int)
    requires CurrentLyricIndex(lyrics, t) == 0
    ensures PreviousTarget(lyrics, t) == None
  {
  }

  // ---- nudging ----------------------------------------------------------------

  /** `jumpBackward`: 100 ms earlier, never before 0. */
  function JumpBackwardTarget(t: int): (r: int)
    ensures r >= 0 && r >= t - 100
    ensures r == 0 || r == t - 100
    ensures t >= 0 ==> r <= t
  {
    if t - 100 > 0 then t - 100 else 0
  }

  /** `jumpForward`: 100 ms later, never past the duration. */
  function JumpForwardTarget(t: int, duration: int): (r: int)
    ensures r <= duration && r <= t + 100
    ensures r == duration || r == t + 100
  {
    if duration < t + 100 then duration else t + 100
  }

  // ---- adding and updating lines ------------------------------------------------

  /** The line `addLyric` records: from the marked start, or the clock when none is
      marked, to the clock, or three seconds on when the clock is not past the start. */
  function RecordedLine(text: string, marked: Option<int>, now: int, stamp: nat): (l: LyricLine)
    ensures l.id == NatToString(stamp) && l.text == Trim(text)
    ensures l.startTime == marked.GetOr(now)
    ensures l.endTime > l.startTime
    ensures now > l.startTime ==> l.endTime == now
    ensures now <= l.startTime ==> l.endTime == l.startTime + 3000
  {
    var start := marked.GetOr(now);
    LyricLine(NatToString(stamp), start, if now > start then now else start + 3000, Trim(text))
  }

  /** The list after `addLyric`: None (no change) for blank text. */
  function AddedList(lyrics: seq<LyricLine>, text: string, marked: Option<int>, now: int, stamp: nat): (r: Option<seq<LyricLine>>)
    ensures r.None? <==> Blank(text)
    ensures r.Some? ==> SortedByStart(r.value) && |r.value| == |lyrics| + 1
  {
    TrimEmptyIffBlank(text);
    if Trim(text) == [] then None
    else Some(SortByStart(lyrics + [RecordedLine(text, marked, now, stamp)]))
  }

  /** `addLyric` keeps every line and adds the recorded one. */
  lemma AddedListContents(lyrics: seq<LyricLine>, text: string, marked: Option<int>, now: int, stamp: nat)
    requires !Blank(text)
    ensures var r := AddedList(lyrics, text, marked, now, stamp);
      r.Some? && multiset(r.value) == multiset(lyrics) + multiset{RecordedLine(text, marked, now, stamp)}
  {
    TrimEmptyIffBlank(text);
  }

  /** In a sorted list, the recorded line goes after every line starting no later. */
  lemma AddedListPlacement(lyrics: seq<LyricLine>, text: string, marked: Option<int>, now: int, stamp: nat)
    requires SortedByStart(lyrics) && !Blank(text)
    ensures AddedList(lyrics, text, marked, now, stamp) == Some(InsertByStart(RecordedLine(text, marked, now, stamp), lyrics))
  {
    TrimEmptyIffBlank(text);
    AppendThenSort(lyrics, RecordedLine(text, marked, now, stamp));
  }

  /** The edited line `updateLyric` makes: same id, new text, the marked start or
      the old one, and an end after it. */
  function EditedLine(editing: LyricLine, text: string, marked: Option<int>, now: int): (l: LyricLine)
    ensures l.id == editing.id && l.text == Trim(text)
    ensures l.startTime == marked.GetOr(editing.startTime)
    ensures l.endTime > l.startTime
    ensures now > l.startTime ==> l.endTime == now
  {
    var start := marked.GetOr(editing.startTime);
    editing.(text := Trim(text), startTime := start, endTime := if now > start then now else start + 3000)
  }

  /** Every line with `id` replaced by `line`, the others left as they are. */
  function ReplaceById(lyrics: seq<LyricLine>, id: string, line: LyricLine): (r: seq<LyricLine>)
    ensures |r| == |lyrics|
    ensures forall i :: 0 <= i < |r| ==> r[i] == if lyrics[i].id == id then line else lyrics[i]
  {
    if lyrics == [] then []
    else [if lyrics[0].id == id then line else lyrics[0]] + ReplaceById(lyrics[1..], id, line)
  }

  lemma ReplaceByIdMembers(lyrics: seq<LyricLine>, id: string, line: LyricLine)
    ensures var r := ReplaceById(lyrics, id, line);
      (forall l :: l in lyrics && l.id != id ==> l in r) &&
      (forall l :: l in r ==> l == line || (l in lyrics && l.id != id)) &&
      ((exists l :: l in lyrics && l.id == id) ==> line in r)
  {
    var r := ReplaceById(lyrics, id, line);
    forall l | l in lyrics && l.id != id ensures l in r {
      var i :| 0 <= i < |lyrics| && lyrics[i] == l;
      assert r[i] == l;
    }
    forall l | l in r ensures l == line || (l in lyrics && l.id != id) {
      var i :| 0 <= i < |r| && r[i] == l;
    }
    if exists l :: l in lyrics && l.id == id {
      var l :| l in lyrics && l.id == id;
      var i :| 0 <= i < |lyrics| && lyrics[i] == l;
      assert r[i] == line;
    }
  }

  /** The list after `updateLyric`: None (no change) unless a line is being edited
      and the text is not blank. */
  function UpdatedList(lyrics: seq<LyricLine>, editing: Option<LyricLine>, text: string, marked: Option<int>, now: int): (r: Option<seq<LyricLine>>)
    ensures r.None? <==> editing.None? || Blank(text)
    ensures r.Some? ==> SortedByStart(r.value) && |r.value| == |lyrics|
  {
    TrimEmptyIffBlank(text);
    if editing.None? || Trim(text) == [] then None
    else Some(SortByStart(ReplaceById(lyrics, editing.value.id, EditedLine(editing.value, text, marked, now))))
  }

  /** After `updateLyric` every other line is still there, nothing else is, and the
      edited line is there when its id named a line. */
  lemma UpdatedListMembers(lyrics: seq<LyricLine>, editing: Option<LyricLine>, text: string, marked: Option<int>, now: int)
    ensures var r := UpdatedList(lyrics, editing, text, marked, now);
      r.Some? ==> var edited := EditedLine(editing.value, text, marked, now);
      multiset(r.value) == multiset(ReplaceById(lyrics, editing.value.id, edited)) &&
      (forall l :: l in lyrics && l.id != edited.id ==> l in r.value) &&
      (forall l :: l in r.value ==> l == edited || (l in lyrics && l.id != edited.id)) &&
      ((exists l :: l in lyrics && l.id == edited.id) ==> edited in r.value)
  {
    var r := UpdatedList(lyrics, editing, text, marked, now);
    if r.Some? {
      var edited := EditedLine(editing.value, text, marked, now);
      var replaced := ReplaceById(lyrics, editing.value.id, edited);
      var sorted := SortByStart(replaced);
      forall l | l in sorted ensures l in replaced {
        assert l in multiset(sorted);
      }
      forall l | l in replaced ensures l in sorted {
        assert l in multiset(replaced);
      }
      ReplaceByIdMembers(lyrics, editing.value.id, edited);
    }
  }

  // ---- export and load ----------------------------------------------------------

  /** One exported line, as the page writes it. */
  datatype ExportedLyric = ExportedLyric(
    id: string, text: string, startTime: int, endTime: int,
    startTimeFormatted: string, endTimeFormatted: string,
    duration: int, durationFormatted: string)

  /** The exported document: song header, lines and metadata. */
  datatype ExportedDocument = ExportedDocument(
    title: string, artist: string, youtubeVideoId: string,
    lyrics: seq<ExportedLyric>,
    totalLyrics: nat, duration: int, durationFormatted: string, exportedAt: string)

  function ExportRecord(l: LyricLine): (e: ExportedLyric)
    ensures e.id == l.id && e.text == l.text && e.startTime == l.startTime && e.endTime == l.endTime
    ensures e.duration == l.endTime - l.startTime
  {
    ExportedLyric(l.id, l.text, l.startTime, l.endTime,
      FormatClockMillis(l.startTime), FormatClockMillis(l.endTime),
      l.endTime - l.startTime, FormatClockMillis(l.endTime - l.startTime))
  }

  function ExportRecords(lyrics: seq<LyricLine>): seq<ExportedLyric> {
    seq(|lyrics|, i requires 0 <= i < |lyrics| => ExportRecord(lyrics[i]))
  }

  /** The record the copy, download and JSON-view buttons share; `exportedAt` is the
      time stamp text of the moment of export. */
  function ExportDocument(videoId: string, lyrics: seq<LyricLine>, duration: int, exportedAt: string): ExportedDocument {
    ExportedDocument("Custom Song", "Unknown Artist", videoId, ExportRecords(lyrics),
      |lyrics|, duration, FormatClockMillis(duration), exportedAt)
  }

  /** One record per line, in order, with the line's id, text and times and its
      length end − start. */
  lemma ExportRecordsShape(lyrics: seq<LyricLine>)
    ensures var es := ExportRecords(lyrics);
      |es| == |lyrics| &&
      forall i :: 0 <= i < |lyrics| ==>
        es[i].id == lyrics[i].id && es[i].text == lyrics[i].text &&
        es[i].startTime == lyrics[i].startTime && es[i].endTime == lyrics[i].endTime &&
        es[i].duration == lyrics[i].endTime - lyrics[i].startTime
  {
  }

  /** The document names the page's video, counts the lines and holds their records. */
  lemma ExportDocumentShape(videoId: string, lyrics: seq<LyricLine>, duration: int, exportedAt: string)
    ensures var d := ExportDocument(videoId, lyrics, duration, exportedAt);
      d.youtubeVideoId == videoId && d.totalLyrics == |lyrics| && d.duration == duration &&
      d.lyrics == ExportRecords(lyrics)
  {
  }

  /** A parsed line record; None is a field that is absent. */
  datatype JsonLyric = JsonLyric(id: Option<string>, text: Option<string>, startTime: Option<int>, endTime: Option<int>)

  datatype JsonSong = JsonSong(youtubeVideoId: Option<string>)

  /** The `lyrics` member: absent (or another falsy value), present but not an array,
      or an array. An element is None when it is `null`, where reading a field
      throws; any other element that is not an object reads as a record with every
      field absent. */
  datatype LyricsField = Absent | NotAnArray | Items(items: seq<Option<JsonLyric>>)

  /** A parsed document; `song` is None when absent or falsy. */
  datatype JsonDocument = JsonDocument(song: Option<JsonSong>, lyrics: LyricsField)

  /** The JSON text of an export, parsed again: every field comes back as written. */
  function Reparse(d: ExportedDocument): JsonDocument {
    var rs := ReparseLyrics(d.lyrics);
    JsonDocument(Some(JsonSong(Some(d.youtubeVideoId))), Items(seq(|rs|, i requires 0 <= i < |rs| => Some(rs[i]))))
  }

  function ReparseLyrics(es: seq<ExportedLyric>): seq<JsonLyric> {
    seq(|es|, i requires 0 <= i < |es| => JsonLyric(Some(es[i].id), Some(es[i].text), Some(es[i].startTime), Some(es[i].endTime)))
  }

  /** No element of the array is `null`. */
  predicate NoNullItems(items: seq<Option<JsonLyric>>) {
    forall i :: 0 <= i < |items| ==> items[i].Some?
  }

  /** The records of an array without `null` elements. */
  function Records(items: seq<Option<JsonLyric>>): (r: seq<JsonLyric>)
    requires NoNullItems(items)
    ensures |r| == |items| && forall i :: 0 <= i < |items| ==> items[i].value == r[i]
  {
    seq(|items|, i requires 0 <= i < |items| && items[i].Some? => items[i].value)
  }

  /** `lyric.startTime || 0`. */
  function LoadedStart(j: JsonLyric): int {
    j.startTime.GetOr(0)
  }

  /** `lyric.endTime || lyric.startTime + 3000` as written: None stands for NaN,
      which an absent start time produces. */
  function LoadedEndAsWritten(j: JsonLyric): (r: Option<int>)
    ensures r.None? <==> (j.endTime.None? || j.endTime == Some(0)) && j.startTime.None?
  {
    if j.endTime.Some? && j.endTime.value != 0 then j.endTime
    else if j.startTime.Some? then Some(j.startTime.value + 3000)
    else None
  }

  /** The end time with the fallback taken from the defaulted start. */
  function LoadedEnd(j: JsonLyric): (r: int)
    ensures j.endTime.Some? && j.endTime.value != 0 ==> r == j.endTime.value
    ensures !(j.endTime.Some? && j.endTime.value != 0) ==> r == LoadedStart(j) + 3000 && r > LoadedStart(j)
  {
    if j.endTime.Some? && j.endTime.value != 0 then j.endTime.value else LoadedStart(j) + 3000
  }

  /** A record with neither time loads, as written, with end time NaN; with the
      defaulted start it lasts three seconds from 0. */
  lemma NoTimesGivesNaN()
    ensures LoadedEndAsWritten(JsonLyric(Some("x"), Some("la"), None, None)) == None
    ensures LoadedEnd(JsonLyric(Some("x"), Some("la"), None, None)) == 3000
  {
  }

  /** Whenever the record has a start time, the two agree. */
  lemma EndAgreesWithStart(j: JsonLyric)
    requires j.startTime.Some?
    ensures LoadedEndAsWritten(j) == Some(LoadedEnd(j))
  {
  }

  /** One loaded line; `index` is the record's position and `stamp` the clock reading
      the fallback id is made from. */
  function LoadLyric(j: JsonLyric, index: nat, stamp: nat): (l: LyricLine)
    ensures j.id.Some? && j.id.value != "" ==> l.id == j.id.value
    ensures !(j.id.Some? && j.id.value != "") ==> l.id == "loaded-" + NatToString(index) + "-" + NatToString(stamp)
    ensures l.text == j.text.GetOr("")
    ensures l.startTime == LoadedStart(j) && l.endTime == LoadedEnd(j)
    ensures LoadedEndAsWritten(j).Some? ==> l.endTime == LoadedEndAsWritten(j).value
  {
    LyricLine(
      if j.id.Some? && j.id.value != "" then j.id.value else "loaded-" + NatToString(index) + "-" + NatToString(stamp),
      LoadedStart(j), LoadedEnd(j), j.text.GetOr(""))
  }

  /** The records mapped in order, the first at position `from`. */
  function LoadLyricsFrom(items: seq<JsonLyric>, from: nat, stamp: nat): seq<LyricLine> {
    seq(|items|, i requires 0 <= i < |items| => LoadLyric(items[i], from + i, stamp))
  }

  /** `lyric.id` is truthy: the record's own id is kept. */
  predicate HasOwnId(j: JsonLyric) {
    j.id.Some? && j.id.value != ""
  }

  /** The fallback ids of two different positions differ, for one clock reading:
      where the shorter position ends, the other id has a digit and this one '-'. */
  lemma FallbackIdsDiffer(m: nat, n: nat, stamp: nat)
    requires m != n
    ensures "loaded-" + NatToString(m) + "-" + NatToString(stamp) != "loaded-" + NatToString(n) + "-" + NatToString(stamp)
  {
    var a, b, s := NatToString(m), NatToString(n), NatToString(stamp);
    var x, y := "loaded-" + a + "-" + s, "loaded-" + b + "-" + s;
    if |a| == |b| {
      assert a != b;
      var k :| 0 <= k < |a| && a[k] != b[k];
      assert x[7 + k] == a[k] && y[7 + k] == b[k];
    } else if |a| < |b| {
      assert x[7 + |a|] == '-' && y[7 + |a|] == b[|a|] && IsDigit(b[|a|]);
    } else {
      assert y[7 + |b|] == '-' && x[7 + |b|] == a[|b|] && IsDigit(a[|b|]);
    }
  }

  /** Records that carry no id load with ids that differ from one another, since
      each fallback id holds its record's position. */
  lemma LoadedFallbackIdsDistinct(items: seq<JsonLyric>, from: nat, stamp: nat)
    ensures var r := LoadLyricsFrom(items, from, stamp);
      forall i, j :: 0 <= i < j < |items| && !HasOwnId(items[i]) && !HasOwnId(items[j]) ==> r[i].id != r[j].id
  {
    var r := LoadLyricsFrom(items, from, stamp);
    forall i, j | 0 <= i < j < |items| && !HasOwnId(items[i]) && !HasOwnId(items[j])
      ensures r[i].id != r[j].id
    {
      FallbackIdsDiffer(from + i, from + j, stamp);
    }
  }

  /** A line that went out as a record comes back as itself. */
  lemma LoadExportedLine(l: LyricLine, index: nat, stamp: nat)
    requires l.id != "" && l.endTime != 0
    ensures var e := ExportRecord(l);
      LoadLyric(JsonLyric(Some(e.id), Some(e.text), Some(e.startTime), Some(e.endTime)), index, stamp) == l
  {
  }

  /** Loading the records of a list gives back that list, provided no id is empty
      and no end time is 0. */
  lemma LoadRecords(lyrics: seq<LyricLine>, stamp: nat)
    requires forall i :: 0 <= i < |lyrics| ==> lyrics[i].id != "" && lyrics[i].endTime != 0
    ensures LoadLyricsFrom(ReparseLyrics(ExportRecords(lyrics)), 0, stamp) == lyrics
  {
    var es := ExportRecords(lyrics);
    var items := ReparseLyrics(es);
    var loaded := LoadLyricsFrom(items, 0, stamp);
    forall i | 0 <= i < |lyrics| ensures loaded[i] == lyrics[i] {
      var e := es[i];
      assert items[i] == JsonLyric(Some(e.id), Some(e.text), Some(e.startTime), Some(e.endTime));
      LoadExportedLine(lyrics[i], i, stamp);
    }
  }

  /** A reparsed export has no `null` element, and its records are the exported ones. */
  lemma ReparsedRecords(d: ExportedDocument)
    ensures var items := Reparse(d).lyrics.items;
      NoNullItems(items) && Records(items) == ReparseLyrics(d.lyrics)
  {
  }

  /** Loading an exported sorted list gives back exactly that list, provided no id
      is empty and no end time is 0 (those fall back to defaults when loaded). */
  lemma ExportThenLoad(videoId: string, lyrics: seq<LyricLine>, duration: int, exportedAt: string, stamp: nat)
    requires SortedByStart(lyrics)
    requires forall i :: 0 <= i < |lyrics| ==> lyrics[i].id != "" && lyrics[i].endTime != 0
    ensures var doc := Reparse(ExportDocument(videoId, lyrics, duration, exportedAt));
      doc.song == Some(JsonSong(Some(videoId))) && doc.lyrics.Items? && NoNullItems(doc.lyrics.items) &&
      SortByStart(LoadLyricsFrom(Records(doc.lyrics.items), 0, stamp)) == lyrics
  {
    ReparsedRecords(ExportDocument(videoId, lyrics, duration, exportedAt));
    LoadRecords(lyrics, stamp);
    SortSorted(lyrics);
  }

  /** The document passes the structure check: it parsed, has a song and has a lyrics array. */
  predicate Structured(doc: Option<JsonDocument>) {
    doc.Some? && doc.value.song.Some? && doc.value.lyrics.Items?
  }

  /** The song's video id when it is given and not empty. */
  function GivenVideoId(d: JsonDocument): (r: Option<string>)
    requires d.song.Some?
    ensures r.Some? <==> d.song.value.youtubeVideoId.Some? && d.song.value.youtubeVideoId.value != ""
    ensures r.Some? ==> r == d.song.value.youtubeVideoId
  {
    var id := d.song.value.youtubeVideoId;
    if id.Some? && id.value != "" then id else None
  }

  /** A `null` element after a given video id: the load fails, yet the id is taken. */
  lemma NullItemKeepsVideoId()
    ensures var d := JsonDocument(Some(JsonSong(Some("abc"))), Items([None]));
      Structured(Some(d)) && !NoNullItems(d.lyrics.items) && GivenVideoId(d) == Some("abc")
  {
    var d := JsonDocument(Some(JsonSong(Some("abc"))), Items([None]));
    assert d.lyrics.items[0].None?;
  }

  const LoadFailure: string := "Invalid JSON format. Please check your JSON structure."

  // ---- the page -------------------------------------------------------------------

  class RecorderPage {
    var videoId: string
    var lyrics: seq<LyricLine>
    var currentLyricText: string
    var lyricStartTime: Option<int>
    var editingLyric: Option<LyricLine>
    const player: PlayerController

    /** The list is always sorted by start time. */
    predicate Valid()
      reads this, player
    {
      SortedByStart(lyrics) && player.Valid()
    }

    constructor ()
      ensures Valid() && fresh(player)
      ensures videoId == "" && lyrics == [] && currentLyricText == ""
      ensures lyricStartTime == None && editingLyric == None
      ensures !player.CanCommand() && player.issued == []
    {
      videoId := "";
      lyrics := [];
      currentLyricText := "";
      lyricStartTime := None;
      editingLyric := None;
      player := new PlayerController();
    }

    method TypeText(text: string)
      requires Valid()
      modifies this
      ensures Valid()
      ensures currentLyricText == text
      ensures videoId == old(videoId) && lyrics == old(lyrics)
      ensures lyricStartTime == old(lyricStartTime) && editingLyric == old(editingLyric)
    {
      currentLyricText := text;
    }

    method TypeVideoId(text: string)
      requires Valid()
      modifies this
      ensures Valid()
      ensures videoId == text
      ensures lyrics == old(lyrics) && currentLyricText == old(currentLyricText)
      ensures lyricStartTime == old(lyricStartTime) && editingLyric == old(editingLyric)
    {
      videoId := text;
    }

    /** `handleVideoLoad`: a non-blank field is replaced by the id found in it. */
    method HandleVideoLoad()
      requires Valid()
      modifies this
      ensures Valid()
      ensures videoId == if Blank(old(videoId)) then old(videoId) else ExtractVideoId(old(videoId))
      ensures lyrics == old(lyrics) && currentLyricText == old(currentLyricText)
      ensures lyricStartTime == old(lyricStartTime) && editingLyric == old(editingLyric)
    {
      TrimEmptyIffBlank(videoId);
      if Trim(videoId) != [] {
        videoId := ExtractVideoId(videoId);
      }
    }

    /** `addLyric` at the player's clock; `stamp` is the clock reading the id is made from. */
    method AddLyric(stamp: nat)
      requires Valid()
      modifies this
      ensures Valid()
      ensures var r := AddedList(old(lyrics), old(currentLyricText), old(lyricStartTime), player.currentTime, stamp);
        if r.None? then
          lyrics == old(lyrics) && currentLyricText == old(currentLyricText) && lyricStartTime == old(lyricStartTime)
        else
          lyrics == r.value && currentLyricText == "" && lyricStartTime == None
      ensures videoId == old(videoId) && editingLyric == old(editingLyric)
    {
      var r := AddedList(lyrics, currentLyricText, lyricStartTime, player.currentTime, stamp);
      if r.Some? {
        lyrics := r.value;
        currentLyricText := "";
        lyricStartTime := None;
      }
    }

    /** `markStartTime`: the next line starts at the clock's present reading. */
    method MarkStartTime()
      requires Valid()
      modifies this
      ensures Valid()
      ensures lyricStartTime == Some(player.currentTime)
      ensures videoId == old(videoId) && lyrics == old(lyrics)
      ensures currentLyricText == old(currentLyricText) && editingLyric == old(editingLyric)
    {
      lyricStartTime := Some(player.currentTime);
    }

    /** `editLyric`: load a line into the text box, its start marked. */
    method EditLyric(line: LyricLine)
      requires Valid()
      modifies this
      ensures Valid()
      ensures editingLyric == Some(line) && currentLyricText == line.text && lyricStartTime == Some(line.startTime)
      ensures videoId == old(videoId) && lyrics == old(lyrics)
    {
      editingLyric := Some(line);
      currentLyricText := line.text;
      lyricStartTime := Some(line.startTime);
    }

    /** `updateLyric` at the player's clock. */
    method UpdateLyric()
      requires Valid()
      modifies this
      ensures Valid()
      ensures var r := UpdatedList(old(lyrics), old(editingLyric), old(currentLyricText), old(lyricStartTime), player.currentTime);
        if r.None? then
          lyrics == old(lyrics) && currentLyricText == old(currentLyricText) &&
          lyricStartTime == old(lyricStartTime) && editingLyric == old(editingLyric)
        else
          lyrics == r.value && currentLyricText == "" && lyricStartTime == None && editingLyric == None
      ensures videoId == old(videoId)
    {
      var r := UpdatedList(lyrics, editingLyric, currentLyricText, lyricStartTime, player.currentTime);
      if r.Some? {
        lyrics := r.value;
        currentLyricText := "";
        editingLyric := None;
        lyricStartTime := None;
      }
    }

    /** `cancelEdit`. */
    method CancelEdit()
      requires Valid()
      modifies this
      ensures Valid()
      ensures editingLyric == None && currentLyricText == "" && lyricStartTime == None
      ensures videoId == old(videoId) && lyrics == old(lyrics)
    {
      editingLyric := None;
      currentLyricText := "";
      lyricStartTime := None;
    }

    /** Seeks to `target`, if there is one. */
    method SeekIfSome(target: Option<int>)
      requires Valid()
      modifies player
      ensures Valid()
      ensures player.issued == old(player.issued) +
        (if target.Some? && old(player.CanCommand()) then [Seek(target.value)] else [])
      ensures player.currentTime == old(player.currentTime) && player.duration == old(player.duration)
      ensures player.CanCommand() == old(player.CanCommand())
    {
      if target.Some? {
        player.SeekTo(target.value);
      }
    }

    method JumpToLyric(startTime: int)
      requires Valid()
      modifies player
      ensures Valid()
      ensures player.issued == old(player.issued) + (if old(player.CanCommand()) then [Seek(startTime)] else [])
      ensures player.currentTime == old(player.currentTime) && player.CanCommand() == old(player.CanCommand())
    {
      player.SeekTo(startTime);
    }

    method JumpBackward()
      requires Valid()
      modifies player
      ensures Valid()
      ensures player.issued == old(player.issued) +
        (if old(player.CanCommand()) then [Seek(JumpBackwardTarget(old(player.currentTime)))] else [])
      ensures player.currentTime == old(player.currentTime) && player.CanCommand() == old(player.CanCommand())
    {
      player.SeekTo(JumpBackwardTarget(player.currentTime));
    }

    method JumpForward()
      requires Valid()
      modifies player
      ensures Valid()
      ensures player.issued == old(player.issued) +
        (if old(player.CanCommand()) then [Seek(JumpForwardTarget(old(player.currentTime), old(player.duration)))] else [])
      ensures player.currentTime == old(player.currentTime) && player.CanCommand() == old(player.CanCommand())
    {
      player.SeekTo(JumpForwardTarget(player.currentTime, player.duration));
    }

    method JumpToPreviousLyric()
      requires Valid()
      modifies player
      ensures Valid()
      ensures var target := PreviousTarget(lyrics, old(player.currentTime));
        player.issued == old(player.issued) +
        (if target.Some? && old(player.CanCommand()) then [Seek(target.value)] else [])
      ensures player.currentTime == old(player.currentTime) && player.CanCommand() == old(player.CanCommand())
    {
      SeekIfSome(PreviousTarget(lyrics, player.currentTime));
    }

    method JumpToNextLyric()
      requires Valid()
      modifies player
      ensures Valid()
      ensures var target := NextTarget(lyrics, old(player.currentTime));
        player.issued == old(player.issued) +
        (if target.Some? && old(player.CanCommand()) then [Seek(target.value)] else [])
      ensures player.currentTime == old(player.currentTime) && player.CanCommand() == old(player.CanCommand())
    {
      SeekIfSome(NextTarget(lyrics, player.currentTime));
    }

    /** A clock reading: the page runs the hook with no loop, so no reading ever seeks. */
    method Tick(time: int)
      requires Valid()
      modifies player
      ensures Valid()
      ensures player.currentTime == time && player.issued == old(player.issued)
    {
      player.HandleTimeUpdate(time, None, None, false);
    }

    /** `loadFromJsonText` on an already parsed text (None: the text is not JSON).
        A document without a song or without a lyrics array changes nothing. Past
        that check the song's video id, when given, is taken at once; a `null`
        element of the array then makes the mapping throw, so the load fails with
        the new video id kept and the lines unchanged. */
    method LoadFromJsonText(doc: Option<JsonDocument>, stamp: nat) returns (success: bool, message: string)
      requires Valid()
      modifies this
      ensures Valid()
      ensures success <==> Structured(doc) && NoNullItems(doc.value.lyrics.items)
      ensures videoId == (if Structured(doc) then GivenVideoId(doc.value).GetOr(old(videoId)) else old(videoId))
      ensures !success ==>
        message == LoadFailure && lyrics == old(lyrics) &&
        currentLyricText == old(currentLyricText) && lyricStartTime == old(lyricStartTime) &&
        editingLyric == old(editingLyric)
      ensures success ==>
        var items := doc.value.lyrics.items;
        message == "Loaded " + NatToString(|items|) + " lyrics successfully!" &&
        lyrics == SortByStart(LoadLyricsFrom(Records(items), 0, stamp)) &&
        currentLyricText == "" && lyricStartTime == None && editingLyric == None
    {
      if doc.None? || doc.value.song.None? || !doc.value.lyrics.Items? {
        return false, LoadFailure;
      }
      var id := doc.value.song.value.youtubeVideoId;
      if id.Some? && id.value != "" {
        videoId := id.value;
      }
      var items := doc.value.lyrics.items;
      if !NoNullItems(items) {
        return false, LoadFailure;
      }
      lyrics := SortByStart(LoadLyricsFrom(Records(items), 0, stamp));
      editingLyric := None;
      currentLyricText := "";
      lyricStartTime := None;
      return true, "Loaded " + NatToString(|items|) + " lyrics successfully!";
    }
  }
}
