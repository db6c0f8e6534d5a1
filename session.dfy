/** The tracker's main page: the song being worked on, its lyric lines, the loop
    range with its on/off switch, and the selection of lines a multi-line loop is
    built from. The page drives one player hook; its clock reading is the
    "current time" the loop-marking buttons use. */
module Session {
  import opened Types
  import opened Strings
  import opened Lines
  import opened PlayerHook
  import opened VideoIds

  // ---- selection -------------------------------------------------------------

  /** `ids` with every occurrence of `id` removed, the rest in order. */
  function Without(ids: seq<string>, id: string): (r: seq<string>)
    ensures id !in r
    ensures forall x :: x != id ==> (x in r <==> x in ids)
    ensures id !in ids ==> r == ids
  {
    if ids == [] then []
    else (if ids[0] == id then [] else [ids[0]]) + Without(ids[1..], id)
  }

  lemma {:induction false} WithoutAppend(ids: seq<string>, id: string)
    ensures Without(ids + [id], id) == Without(ids, id)
    decreases |ids|
  {
    if ids == [] {
      assert ids + [id] == [id];
      assert Without([id][1..], id) == [];
    } else {
      assert (ids + [id])[1..] == ids[1..] + [id];
      WithoutAppend(ids[1..], id);
    }
  }

  predicate Distinct(ids: seq<string>) {
    forall i, j :: 0 <= i < j < |ids| ==> ids[i] != ids[j]
  }

  lemma {:induction false} WithoutDistinct(ids: seq<string>, id: string)
    requires Distinct(ids)
    ensures Distinct(Without(ids, id))
    decreases |ids|
  {
    if ids != [] {
      WithoutDistinct(ids[1..], id);
      var rest := Without(ids[1..], id);
      assert ids[0] !in ids[1..];
      assert ids[0] !in rest;
    }
  }

  /** `toggleLyricSelection`: removes the id when it is selected, appends it otherwise;
      the other ids keep their order. */
  function ToggleSelection(ids: seq<string>, id: string): (r: seq<string>)
    ensures id in r <==> id !in ids
    ensures Without(r, id) == Without(ids, id)
  {
    if id in ids then Without(ids, id)
    else
      WithoutAppend(ids, id);
      ids + [id]
  }

  /** Toggling never selects a line twice. */
  lemma ToggleKeepsDistinct(ids: seq<string>, id: string)
    requires Distinct(ids)
    ensures Distinct(ToggleSelection(ids, id))
  {
    if id in ids {
      WithoutDistinct(ids, id);
    }
  }

  /** Toggling an unselected id twice gives back the selection. */
  lemma ToggleTwice(ids: seq<string>, id: string)
    requires id !in ids
    ensures ToggleSelection(ToggleSelection(ids, id), id) == ids
  {
    WithoutAppend(ids, id);
  }

  // ---- loop from a selection --------------------------------------------------

  /** The lines whose id is selected, in list order. */
  function SelectedLines(lyrics: seq<LyricLine>, ids: seq<string>): (r: seq<LyricLine>)
    ensures forall l :: l in r <==> l in lyrics && l.id in ids
  {
    if lyrics == [] then []
    else (if lyrics[0].id in ids then [lyrics[0]] else []) + SelectedLines(lyrics[1..], ids)
  }

  lemma {:induction false} SelectedLinesBySet(lyrics: seq<LyricLine>, a: seq<string>, b: seq<string>)
    requires forall x :: x in a <==> x in b
    ensures SelectedLines(lyrics, a) == SelectedLines(lyrics, b)
    decreases |lyrics|
  {
    if lyrics != [] {
      SelectedLinesBySet(lyrics[1..], a, b);
    }
  }

  /** The latest start time among some lines. */
  function LatestStart(ls: seq<LyricLine>): (k: int)
    requires ls != []
    ensures exists i :: 0 <= i < |ls| && ls[i].startTime == k
    ensures forall i :: 0 <= i < |ls| ==> ls[i].startTime <= k
  {
    if |ls| == 1 then ls[0].startTime
    else
      var k := LatestStart(ls[1..]);
      assert forall i :: 1 <= i < |ls| ==> ls[i] == ls[1..][i - 1];
      if ls[0].startTime >= k then ls[0].startTime else k
  }

  /** The first and the last line of the sorted lines are among them, and start no
      later and no earlier, respectively, than any of them. */
  lemma SortedEnds(chosen: seq<LyricLine>)
    requires chosen != []
    ensures var sorted := SortByStart(chosen);
      var first, last := sorted[0], sorted[|sorted| - 1];
      first in chosen && last in chosen &&
      forall l :: l in chosen ==> first.startTime <= l.startTime <= last.startTime
  {
    var sorted := SortByStart(chosen);
    var first, last := sorted[0], sorted[|sorted| - 1];
    assert first in multiset(sorted) && last in multiset(sorted);
    forall l | l in chosen ensures first.startTime <= l.startTime <= last.startTime {
      assert l in multiset(sorted);
    }
  }

  /** The range `setLoopFromMultipleLyrics` sets: None when nothing is selected or no
      selected id names a line; otherwise the start of the first and the end of the
      last line of the selected lines sorted by start time. */
  function BatchRange(lyrics: seq<LyricLine>, ids: seq<string>): Option<(int, int)> {
    if ids == [] then None
    else
      var chosen := SelectedLines(lyrics, ids);
      if chosen == [] then None
      else
        var sorted := SortByStart(chosen);
        Some((sorted[0].startTime, sorted[|sorted| - 1].endTime))
  }

  /** The range is set exactly when some selected id names a line; it then starts at
      the earliest selected start and ends at the end of a selected line with the
      latest start. */
  lemma BatchRangeMeaning(lyrics: seq<LyricLine>, ids: seq<string>)
    ensures var r := BatchRange(lyrics, ids);
      (r.None? <==> forall l :: l in lyrics ==> l.id !in ids) &&
      (r.Some? ==> exists l :: l in lyrics && l.id in ids && l.startTime == r.value.0) &&
      (r.Some? ==> forall l :: l in lyrics && l.id in ids ==> r.value.0 <= l.startTime) &&
      (r.Some? ==> exists l :: (l in lyrics && l.id in ids && l.endTime == r.value.1 &&
        forall m :: m in lyrics && m.id in ids ==> m.startTime <= l.startTime))
  {
    var chosen := SelectedLines(lyrics, ids);
    if ids != [] && chosen != [] {
      SortedEnds(chosen);
    }
  }

  /** The batch range depends on which ids are selected, not on the order they were selected in. */
  lemma BatchRangeOrderFree(lyrics: seq<LyricLine>, a: seq<string>, b: seq<string>)
    requires forall x :: x in a <==> x in b
    ensures BatchRange(lyrics, a) == BatchRange(lyrics, b)
  {
    SelectedLinesBySet(lyrics, a, b);
  }

  lemma {:induction false} StartingAtLast(ls: seq<LyricLine>)
    requires ls != []
    ensures var tied := StartingAt(ls, ls[|ls| - 1].startTime);
      tied != [] && tied[|tied| - 1] == ls[|ls| - 1]
  {
    var init, last := ls[..|ls| - 1], ls[|ls| - 1];
    assert ls == init + [last];
    StartingAtAppend(init, [last], last.startTime);
    assert StartingAt([last], last.startTime) == [last];
  }

  /** The last line of a sorted arrangement of some lines starts at their latest start time. */
  lemma SortedLastIsMax(sorted: seq<LyricLine>, chosen: seq<LyricLine>)
    requires chosen != [] && |sorted| == |chosen|
    requires SortedByStart(sorted) && multiset(sorted) == multiset(chosen)
    ensures sorted[|sorted| - 1].startTime == LatestStart(chosen)
  {
    var n := |sorted| - 1;
    var k := LatestStart(chosen);
    assert sorted[n] in multiset(chosen);
    var j :| 0 <= j < |chosen| && chosen[j].startTime == k;
    assert chosen[j] in multiset(sorted);
    var q :| 0 <= q < |sorted| && sorted[q] == chosen[j];
    assert sorted[q].startTime <= sorted[n].startTime;
  }

  /** The last line of the sorted selection starts at the latest start time. */
  lemma SortedLastIsLatest(chosen: seq<LyricLine>)
    requires chosen != []
    ensures var sorted := SortByStart(chosen);
      sorted[|sorted| - 1].startTime == LatestStart(chosen)
  {
    SortedLastIsMax(SortByStart(chosen), chosen);
  }

  /** When a range is set, its end is the end of the last line of the sorted selection. */
  lemma BatchRangeEnd(lyrics: seq<LyricLine>, ids: seq<string>)
    requires BatchRange(lyrics, ids).Some?
    ensures var chosen := SelectedLines(lyrics, ids);
      chosen != [] &&
      var sorted := SortByStart(chosen);
      BatchRange(lyrics, ids).value.1 == sorted[|sorted| - 1].endTime
  {
  }

  /** The last line of the sorted selection is the last of the lines tied at the latest start. */
  lemma SortedLastIsLastTied(chosen: seq<LyricLine>)
    requires chosen != []
    ensures var sorted := SortByStart(chosen);
      var tied := StartingAt(chosen, LatestStart(chosen));
      tied != [] && tied[|tied| - 1] == sorted[|sorted| - 1]
  {
    var sorted := SortByStart(chosen);
    SortedLastIsLatest(chosen);
    StartingAtLast(sorted);
    SortStable(chosen, LatestStart(chosen));
  }

  /** Of the selected lines that share the latest start time, the end comes from
      the one that appears last in the list: the sort keeps equal starts in order. */
  lemma BatchEndTieBreak(lyrics: seq<LyricLine>, ids: seq<string>)
    requires BatchRange(lyrics, ids).Some?
    ensures var chosen := SelectedLines(lyrics, ids);
      chosen != [] &&
      var tied := StartingAt(chosen, LatestStart(chosen));
      tied != [] && BatchRange(lyrics, ids).value.1 == tied[|tied| - 1].endTime
  {
    BatchRangeEnd(lyrics, ids);
    SortedLastIsLastTied(SelectedLines(lyrics, ids));
  }

  lemma InsertBeforeLast(a: LyricLine, b: LyricLine, c: LyricLine)
    requires a.startTime <= c.startTime < b.startTime
    ensures InsertByStart(c, [a, b]) == [a, c, b]
  {
    var ab := [a, b];
    assert ab[0] == a && ab[1..] == [b];
    assert InsertByStart(c, ab) == [a] + InsertByStart(c, [b]);
    assert InsertByStart(c, [b]) == [c] + [b];
  }

  lemma ScenarioSort(a: LyricLine, b: LyricLine, c: LyricLine)
    requires a.startTime <= c.startTime < b.startTime
    ensures SortByStart([a, b, c]) == [a, c, b]
  {
    assert [a, b] + [c] == [a, b, c];
    AppendThenSort([a, b], c);
    InsertBeforeLast(a, b, c);
  }

  lemma SelectAllThree(a: LyricLine, b: LyricLine, c: LyricLine, ids: seq<string>)
    requires a.id in ids && b.id in ids && c.id in ids
    ensures SelectedLines([a, b, c], ids) == [a, b, c]
  {
    var abc := [a, b, c];
    assert abc[0] == a && abc[1..] == [b, c];
    assert [b, c][0] == b && [b, c][1..] == [c];
    assert [c][1..] == [];
    assert SelectedLines([c], ids) == [c] + SelectedLines([], ids);
    assert SelectedLines([b, c], ids) == [b] + SelectedLines([c], ids);
    assert SelectedLines(abc, ids) == [a] + SelectedLines([b, c], ids);
  }

  lemma BatchOfThree(a: LyricLine, b: LyricLine, c: LyricLine, ids: seq<string>)
    requires a.id in ids && b.id in ids && c.id in ids
    requires a.startTime <= c.startTime < b.startTime
    ensures BatchRange([a, b, c], ids) == Some((a.startTime, b.endTime))
  {
    SelectAllThree(a, b, c, ids);
    ScenarioSort(a, b, c);
  }

  /** Three lines selected in any order loop from the earliest start to the end of
      the latest-starting line. */
  lemma BatchScenario()
    ensures var a := LyricLine("A", 1000, 2000, "a");
      var b := LyricLine("B", 5000, 6000, "b");
      var c := LyricLine("C", 3000, 4000, "c");
      BatchRange([a, b, c], ["A", "B", "C"]) == Some((1000, 6000)) &&
      BatchRange([a, b, c], ["C", "A", "B"]) == Some((1000, 6000))
  {
    var a := LyricLine("A", 1000, 2000, "a");
    var b := LyricLine("B", 5000, 6000, "b");
    var c := LyricLine("C", 3000, 4000, "c");
    var ids, shuffled := ["A", "B", "C"], ["C", "A", "B"];
    assert ids[0] == "A" && ids[1] == "B" && ids[2] == "C";
    BatchOfThree(a, b, c, ids);
    assert shuffled[0] == "C" && shuffled[1] == "A" && shuffled[2] == "B";
    BatchOfThree(a, b, c, shuffled);
  }

  // ---- marking the loop at the current time -----------------------------------

  /** `setLoopStartAtCurrentTime`: start at `t`; the end is kept when it is set and
      later than `t`, and is `t + 10000` otherwise. */
  function MarkStart(t: int, loopEnd: Option<int>): (r: (int, int))
    ensures r.0 == t && r.0 < r.1
    ensures loopEnd.Some? && loopEnd.value > t ==> r.1 == loopEnd.value
    ensures !(loopEnd.Some? && loopEnd.value > t) ==> r.1 == t + 10000
  {
    if loopEnd.None? || t >= loopEnd.value then (t, t + 10000) else (t, loopEnd.value)
  }

  /** `setLoopEndAtCurrentTime`: end at `t`; the start is kept when it is set and
      earlier than `t`, and is `max(0, t - 10000)` otherwise. */
  function MarkEnd(t: int, loopStart: Option<int>): (r: (int, int))
    ensures r.1 == t
    ensures loopStart.Some? && loopStart.value < t ==> r.0 == loopStart.value
    ensures !(loopStart.Some? && loopStart.value < t) ==> r.0 == if t - 10000 > 0 then t - 10000 else 0
    ensures t > 0 ==> r.0 < r.1
  {
    if loopStart.None? || t <= loopStart.value then (if t - 10000 > 0 then t - 10000 else 0, t)
    else (loopStart.value, t)
  }

  /** Marking the end at time 0 with no start gives the range (0, 0), which never
      loops back. */
  lemma MarkEndAtZero(time: int, canCommand: bool)
    ensures MarkEnd(0, None) == (0, 0)
    ensures LoopSeek(time, Some(0), Some(0), true, canCommand) == None
  {
    InvalidRangeNeverSeeks(time, Some(0), Some(0), true, canCommand);
  }

  // ---- the page ---------------------------------------------------------------

  /** The song fields the details form edits. */
  datatype SongField = Title | Artist

  const SampleVideoId: string := "dQw4w9WgXcQ"

  class Page {
    var song: Song
    var videoId: string
    var lyrics: seq<LyricLine>
    var loopStart: Option<int>
    var loopEnd: Option<int>
    var isLooping: bool
    var selectedLyrics: seq<string>
    var isMultiSelectMode: bool
    const player: PlayerController

    /** The song record carries the same lines as the page. */
    predicate Valid()
      reads this, player
    {
      song.lyrics == lyrics && player.Valid()
    }

    constructor ()
      ensures Valid() && fresh(player)
      ensures song == Song("custom", "Custom Song", "Unknown Artist", "", [])
      ensures videoId == "" && lyrics == []
      ensures loopStart == None && loopEnd == None && !isLooping
      ensures selectedLyrics == [] && !isMultiSelectMode
      ensures !player.CanCommand() && player.issued == []
    {
      song := Song("custom", "Custom Song", "Unknown Artist", "", []);
      videoId := "";
      lyrics := [];
      loopStart := None;
      loopEnd := None;
      isLooping := false;
      selectedLyrics := [];
      isMultiSelectMode := false;
      player := new PlayerController();
    }

    /** `clearLoop`: no range, looping off, nothing selected, multi-select off. */
    method ClearLoop()
      requires Valid()
      modifies this
      ensures Valid()
      ensures loopStart == None && loopEnd == None && !isLooping
      ensures selectedLyrics == [] && !isMultiSelectMode
      ensures song == old(song) && videoId == old(videoId) && lyrics == old(lyrics)
    {
      loopStart := None;
      loopEnd := None;
      isLooping := false;
      selectedLyrics := [];
      isMultiSelectMode := false;
    }

    /** `clearSelection`: nothing selected and multi-select off; the range stays. */
    method ClearSelection()
      requires Valid()
      modifies this
      ensures Valid()
      ensures selectedLyrics == [] && !isMultiSelectMode
      ensures loopStart == old(loopStart) && loopEnd == old(loopEnd) && isLooping == old(isLooping)
      ensures song == old(song) && videoId == old(videoId) && lyrics == old(lyrics)
    {
      selectedLyrics := [];
      isMultiSelectMode := false;
    }

    /** `setLoopFromLyric`: loop exactly over one line, with that line alone selected. */
    method SetLoopFromLyric(lyric: LyricLine)
      requires Valid()
      modifies this
      ensures Valid()
      ensures loopStart == Some(lyric.startTime) && loopEnd == Some(lyric.endTime) && isLooping
      ensures selectedLyrics == [lyric.id] && !isMultiSelectMode
      ensures song == old(song) && videoId == old(videoId) && lyrics == old(lyrics)
    {
      loopStart := Some(lyric.startTime);
      loopEnd := Some(lyric.endTime);
      isLooping := true;
      selectedLyrics := [lyric.id];
      isMultiSelectMode := false;
    }

    /** `setLoopFromMultipleLyrics`: loop over the selected lines; nothing changes when
        no selected id names a line. The selection stays as it is. */
    method SetLoopFromMultipleLyrics()
      requires Valid()
      modifies this
      ensures Valid()
      ensures var range := BatchRange(old(lyrics), old(selectedLyrics));
        if range.None? then
          loopStart == old(loopStart) && loopEnd == old(loopEnd) && isLooping == old(isLooping)
        else
          loopStart == Some(range.value.0) && loopEnd == Some(range.value.1) && isLooping
      ensures selectedLyrics == old(selectedLyrics) && isMultiSelectMode == old(isMultiSelectMode)
      ensures song == old(song) && videoId == old(videoId) && lyrics == old(lyrics)
    {
      var range := BatchRange(lyrics, selectedLyrics);
      if range.Some? {
        loopStart := Some(range.value.0);
        loopEnd := Some(range.value.1);
        isLooping := true;
      }
    }

    /** `toggleLyricSelection`. */
    method ToggleLyricSelection(id: string)
      requires Valid()
      modifies this
      ensures Valid()
      ensures selectedLyrics == ToggleSelection(old(selectedLyrics), id)
      ensures isMultiSelectMode == old(isMultiSelectMode)
      ensures loopStart == old(loopStart) && loopEnd == old(loopEnd) && isLooping == old(isLooping)
      ensures song == old(song) && videoId == old(videoId) && lyrics == old(lyrics)
    {
      selectedLyrics := ToggleSelection(selectedLyrics, id);
    }

    /** The loop switch. */
    method ToggleLooping()
      requires Valid()
      modifies this
      ensures Valid()
      ensures isLooping == !old(isLooping)
      ensures loopStart == old(loopStart) && loopEnd == old(loopEnd)
      ensures selectedLyrics == old(selectedLyrics) && isMultiSelectMode == old(isMultiSelectMode)
      ensures song == old(song) && videoId == old(videoId) && lyrics == old(lyrics)
    {
      isLooping := !isLooping;
    }

    /** The multi-select switch. */
    method ToggleMultiSelect()
      requires Valid()
      modifies this
      ensures Valid()
      ensures isMultiSelectMode == !old(isMultiSelectMode)
      ensures loopStart == old(loopStart) && loopEnd == old(loopEnd) && isLooping == old(isLooping)
      ensures selectedLyrics == old(selectedLyrics)
      ensures song == old(song) && videoId == old(videoId) && lyrics == old(lyrics)
    {
      isMultiSelectMode := !isMultiSelectMode;
    }

    /** `setLoopStartAtCurrentTime`, at the player's last clock reading; the loop
        switch is left alone. */
    method SetLoopStartAtCurrentTime()
      requires Valid()
      modifies this
      ensures Valid()
      ensures var r := MarkStart(player.currentTime, old(loopEnd));
        loopStart == Some(r.0) && loopEnd == Some(r.1)
      ensures loopStart.value < loopEnd.value
      ensures isLooping == old(isLooping)
      ensures selectedLyrics == old(selectedLyrics) && isMultiSelectMode == old(isMultiSelectMode)
      ensures song == old(song) && videoId == old(videoId) && lyrics == old(lyrics)
    {
      var t := player.currentTime;
      loopStart := Some(t);
      if loopEnd.None? || t >= loopEnd.value {
        loopEnd := Some(t + 10000);
      }
    }

    /** `setLoopEndAtCurrentTime`, at the player's last clock reading; the loop
        switch is left alone. */
    method SetLoopEndAtCurrentTime()
      requires Valid()
      modifies this
      ensures Valid()
      ensures var r := MarkEnd(player.currentTime, old(loopStart));
        loopStart == Some(r.0) && loopEnd == Some(r.1)
      ensures player.currentTime > 0 ==> loopStart.value < loopEnd.value
      ensures isLooping == old(isLooping)
      ensures selectedLyrics == old(selectedLyrics) && isMultiSelectMode == old(isMultiSelectMode)
      ensures song == old(song) && videoId == old(videoId) && lyrics == old(lyrics)
    {
      var t := player.currentTime;
      loopEnd := Some(t);
      if loopStart.None? || t <= loopStart.value {
        loopStart := Some(if t - 10000 > 0 then t - 10000 else 0);
      }
    }

    /** `handleLyricsChange`: the editor's new lines, on the page and in the song. */
    method HandleLyricsChange(newLyrics: seq<LyricLine>)
      requires Valid()
      modifies this
      ensures Valid()
      ensures lyrics == newLyrics && song == old(song).(lyrics := newLyrics)
      ensures videoId == old(videoId)
      ensures loopStart == old(loopStart) && loopEnd == old(loopEnd) && isLooping == old(isLooping)
      ensures selectedLyrics == old(selectedLyrics) && isMultiSelectMode == old(isMultiSelectMode)
    {
      lyrics := newLyrics;
      song := song.(lyrics := newLyrics);
    }

    /** `handleVideoIdChange`: a different video clears the lines and the loop;
        the same video keeps both. */
    method HandleVideoIdChange(newVideoId: string)
      requires Valid()
      modifies this
      ensures Valid()
      ensures videoId == newVideoId && song.youtubeVideoId == newVideoId
      ensures song.id == old(song.id) && song.title == old(song.title) && song.artist == old(song.artist)
      ensures newVideoId != old(song.youtubeVideoId) ==>
        lyrics == [] && loopStart == None && loopEnd == None && !isLooping &&
        selectedLyrics == [] && !isMultiSelectMode
      ensures newVideoId == old(song.youtubeVideoId) ==>
        lyrics == old(lyrics) && loopStart == old(loopStart) && loopEnd == old(loopEnd) &&
        isLooping == old(isLooping) && selectedLyrics == old(selectedLyrics) &&
        isMultiSelectMode == old(isMultiSelectMode)
    {
      var previous := song.youtubeVideoId;
      videoId := newVideoId;
      song := song.(youtubeVideoId := newVideoId);
      if newVideoId != previous {
        lyrics := [];
        song := song.(lyrics := []);
        ClearLoop();
      }
    }

    /** `handleSongDetailsChange` for the title and artist inputs. */
    method HandleSongDetailsChange(field: SongField, value: string)
      requires Valid()
      modifies this
      ensures Valid()
      ensures song == (match field case Title => old(song).(title := value) case Artist => old(song).(artist := value))
      ensures videoId == old(videoId) && lyrics == old(lyrics)
      ensures loopStart == old(loopStart) && loopEnd == old(loopEnd) && isLooping == old(isLooping)
      ensures selectedLyrics == old(selectedLyrics) && isMultiSelectMode == old(isMultiSelectMode)
    {
      match field
      case Title => song := song.(title := value);
      case Artist => song := song.(artist := value);
    }

    /** `loadSampleData`: the sample song with no lines; the loop and the selection stay. */
    method LoadSampleData()
      requires Valid()
      modifies this
      ensures Valid()
      ensures song == Song("sample", "Sample Song", "Sample Artist", SampleVideoId, [])
      ensures videoId == SampleVideoId && lyrics == []
      ensures loopStart == old(loopStart) && loopEnd == old(loopEnd) && isLooping == old(isLooping)
      ensures selectedLyrics == old(selectedLyrics) && isMultiSelectMode == old(isMultiSelectMode)
    {
      song := Song("sample", "Sample Song", "Sample Artist", SampleVideoId, []);
      videoId := SampleVideoId;
      lyrics := [];
    }

    /** `startNewSong`, with `stamp` the clock reading its id is made from. */
    method StartNewSong(stamp: nat)
      requires Valid()
      modifies this
      ensures Valid()
      ensures song == Song("new-" + NatToString(stamp), "New Song", "Unknown Artist", "", [])
      ensures videoId == "" && lyrics == []
      ensures loopStart == None && loopEnd == None && !isLooping
      ensures selectedLyrics == [] && !isMultiSelectMode
    {
      song := Song("new-" + NatToString(stamp), "New Song", "Unknown Artist", "", []);
      videoId := "";
      lyrics := [];
      ClearLoop();
    }

    /** Typing in the video field stores the id found in the text. */
    method OnVideoInput(value: string)
      requires Valid()
      modifies this
      ensures Valid()
      ensures videoId == ExtractVideoId(value)
      ensures song == old(song) && lyrics == old(lyrics)
      ensures loopStart == old(loopStart) && loopEnd == old(loopEnd) && isLooping == old(isLooping)
      ensures selectedLyrics == old(selectedLyrics) && isMultiSelectMode == old(isMultiSelectMode)
    {
      videoId := ExtractVideoId(value);
    }

    /** A click on a line seeks the player to its start. */
    method HandleLyricClick(startTime: int)
      requires Valid()
      modifies player
      ensures Valid()
      ensures player.issued == old(player.issued) + (if old(player.CanCommand()) then [Seek(startTime)] else [])
      ensures player.currentTime == old(player.currentTime) && player.playerState == old(player.playerState)
      ensures player.CanCommand() == old(player.CanCommand())
    {
      player.SeekTo(startTime);
    }

    /** A clock reading from the widget, handed to the player hook with the page's loop. */
    method Tick(time: int)
      requires Valid()
      modifies player
      ensures Valid()
      ensures player.currentTime == time
      ensures var seek := LoopSeek(time, loopStart, loopEnd, isLooping, old(player.CanCommand()));
        player.issued == old(player.issued) + (if seek.Some? then [Seek(seek.value)] else [])
      ensures player.CanCommand() == old(player.CanCommand())
    {
      player.HandleTimeUpdate(time, loopStart, loopEnd, isLooping);
    }
  }
}
