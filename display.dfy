/** How the lyric list shows each line: which line is playing now, which lines
    lie in the loop range, which are already passed, and what a click does. */
module Display {
  import opened Types
  import opened Lines

  /** `getCurrentLyricIndex`: the first line whose range holds `t`, or -1. */
  function CurrentLyricIndex(lyrics: seq<LyricLine>, t: int): (r: int)
    ensures -1 <= r < |lyrics|
    ensures r >= 0 ==> Covers(lyrics[r], t)
    ensures r >= 0 ==> forall j :: 0 <= j < r ==> !Covers(lyrics[j], t)
    ensures r == -1 <==> forall j :: 0 <= j < |lyrics| ==> !Covers(lyrics[j], t)
  {
    if lyrics == [] then -1
    else if Covers(lyrics[0], t) then 0
    else
      var k := CurrentLyricIndex(lyrics[1..], t);
      assert forall j :: 1 <= j < |lyrics| ==> lyrics[j] == lyrics[1..][j - 1];
      if k == -1 then -1 else k + 1
  }

  /** `isInLoopRange`: false unless both bounds are set; then the line lies inside them. */
  function IsInLoopRange(line: LyricLine, loopStart: Option<int>, loopEnd: Option<int>): (r: bool)
    ensures r <==> (loopStart.Some? && loopEnd.Some? &&
      loopStart.value <= line.startTime && line.endTime <= loopEnd.value)
  {
    match (loopStart, loopEnd)
    case (Some(s), Some(e)) => line.startTime >= s && line.endTime <= e
    case _ => false
  }

  /** A line is passed once the clock is beyond its end. */
  predicate IsPassed(line: LyricLine, t: int) {
    t > line.endTime
  }

  /** The one line shown as playing is never also shown as passed. */
  lemma CurrentNotPassed(lyrics: seq<LyricLine>, t: int)
    requires CurrentLyricIndex(lyrics, t) >= 0
    ensures !IsPassed(lyrics[CurrentLyricIndex(lyrics, t)], t)
  {
  }

  /** In a list sorted by start time, every line before the playing one is passed. */
  lemma EarlierLinesPassed(lyrics: seq<LyricLine>, t: int, j: nat)
    requires SortedByStart(lyrics)
    requires 0 <= j < CurrentLyricIndex(lyrics, t)
    ensures IsPassed(lyrics[j], t)
  {
    var i := CurrentLyricIndex(lyrics, t);
    assert lyrics[j].startTime <= lyrics[i].startTime <= t;
    assert !Covers(lyrics[j], t);
  }

  /** What a click on a line asks the page to do. */
  datatype ClickAction = ToggleSelect(id: string) | SeekTo(ms: int)

  /** In multi-select mode a click toggles the line's selection; otherwise it seeks to its start. */
  function Click(line: LyricLine, isMultiSelectMode: bool): (a: ClickAction)
    ensures a.ToggleSelect? <==> isMultiSelectMode
    ensures a.ToggleSelect? ==> a.id == line.id
    ensures a.SeekTo? ==> a.ms == line.startTime
  {
    if isMultiSelectMode then ToggleSelect(line.id) else SeekTo(line.startTime)
  }
}
