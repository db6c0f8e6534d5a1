/** The lyrics editor panel: adding a line at the current time, editing one field
    of the lines with a given id, deleting by id, and the panel's own text box and
    edit marker. The panel never keeps the list itself; each operation yields the
    new list it hands back to the page. */
module Editor {
  import opened Types
  import opened Strings
  import opened Lines

  /** The line `addNewLyric` makes: id from the clock stamp, three seconds long, trimmed text. */
  function NewEditorLine(text: string, t: int, stamp: nat): (l: LyricLine)
    ensures l.startTime == t && l.endTime == t + 3000 && l.endTime > l.startTime
    ensures l.text == Trim(text)
  {
    LyricLine("lyric-" + NatToString(stamp), t, t + 3000, Trim(text))
  }

  /** `addNewLyric`: None (no change) for blank text, otherwise the list with the
      new line, sorted by start time. */
  function AddNewLyric(lyrics: seq<LyricLine>, text: string, t: int, stamp: nat): (r: Option<seq<LyricLine>>)
    ensures r.None? <==> Blank(text)
    ensures r.Some? ==> SortedByStart(r.value) && |r.value| == |lyrics| + 1
    ensures r.Some? ==> multiset(r.value) == multiset(lyrics) + multiset{NewEditorLine(text, t, stamp)}
  {
    TrimEmptyIffBlank(text);
    if Trim(text) == [] then None
    else Some(SortByStart(lyrics + [NewEditorLine(text, t, stamp)]))
  }

  /** Added to a sorted list, the new line goes after every line that starts no later than it. */
  lemma AddNewLyricPlacement(lyrics: seq<LyricLine>, text: string, t: int, stamp: nat)
    requires SortedByStart(lyrics) && !Blank(text)
    ensures AddNewLyric(lyrics, text, t, stamp) == Some(InsertByStart(NewEditorLine(text, t, stamp), lyrics))
  {
    TrimEmptyIffBlank(text);
    AppendThenSort(lyrics, NewEditorLine(text, t, stamp));
  }

  /** The field an edit box writes. */
  datatype FieldUpdate = SetStart(start: int) | SetEnd(end: int) | SetText(text: string)

  function Apply(line: LyricLine, u: FieldUpdate): LyricLine {
    match u
    case SetStart(v) => line.(startTime := v)
    case SetEnd(v) => line.(endTime := v)
    case SetText(v) => line.(text := v)
  }

  /** `updateLyric`: every line with the id gets the new field value; nothing is
      re-sorted or checked. */
  function UpdateLyric(lyrics: seq<LyricLine>, id: string, u: FieldUpdate): (r: seq<LyricLine>)
    ensures |r| == |lyrics|
    ensures forall i :: 0 <= i < |r| ==> r[i].id == lyrics[i].id
    ensures forall i :: 0 <= i < |r| && lyrics[i].id != id ==> r[i] == lyrics[i]
    ensures forall i :: 0 <= i < |r| && lyrics[i].id == id ==> r[i] == Apply(lyrics[i], u)
  {
    if lyrics == [] then []
    else [if lyrics[0].id == id then Apply(lyrics[0], u) else lyrics[0]] + UpdateLyric(lyrics[1..], id, u)
  }

  /** Because nothing is re-sorted, moving a start time can leave the list out of order. */
  lemma UpdateCanUnsort()
    ensures var ls := [LyricLine("a", 0, 1000, "x"), LyricLine("b", 2000, 3000, "y")];
      SortedByStart(ls) && !SortedByStart(UpdateLyric(ls, "a", SetStart(5000)))
  {
    var ls := [LyricLine("a", 0, 1000, "x"), LyricLine("b", 2000, 3000, "y")];
    var r := UpdateLyric(ls, "a", SetStart(5000));
    assert r[0].startTime == 5000 && r[1].startTime == 2000;
  }

  /** Because nothing is checked, an edited end can come before the start. */
  lemma UpdateCanInvert()
    ensures var ls := [LyricLine("a", 2000, 3000, "x")];
      UpdateLyric(ls, "a", SetEnd(1000))[0].endTime < UpdateLyric(ls, "a", SetEnd(1000))[0].startTime
  {
  }

  /** `deleteLyric`: the lines without the id, in their order. */
  function DeleteLyric(lyrics: seq<LyricLine>, id: string): (r: seq<LyricLine>)
    ensures forall l :: l in r <==> l in lyrics && l.id != id
    ensures forall l :: multiset(r)[l] == if l.id == id then 0 else multiset(lyrics)[l]
    ensures |r| <= |lyrics|
  {
    if lyrics == [] then []
    else
      assert lyrics == [lyrics[0]] + lyrics[1..];
      (if lyrics[0].id == id then [] else [lyrics[0]]) + DeleteLyric(lyrics[1..], id)
  }

  /** Deleting works line by line: the lines of two pieces are kept in the order of the pieces. */
  lemma {:induction false} DeleteAppend(a: seq<LyricLine>, b: seq<LyricLine>, id: string)
    ensures DeleteLyric(a + b, id) == DeleteLyric(a, id) + DeleteLyric(b, id)
    decreases |a|
  {
    if a == [] {
      assert a + b == b;
    } else {
      assert (a + b)[1..] == a[1..] + b;
      DeleteAppend(a[1..], b, id);
    }
  }

  /** Deleting an id no line has changes nothing. */
  lemma {:induction false} DeleteAbsent(lyrics: seq<LyricLine>, id: string)
    requires forall i :: 0 <= i < |lyrics| ==> lyrics[i].id != id
    ensures DeleteLyric(lyrics, id) == lyrics
    decreases |lyrics|
  {
    if lyrics != [] {
      DeleteAbsent(lyrics[1..], id);
    }
  }

  /** Deleting twice is deleting once. */
  lemma DeleteIdempotent(lyrics: seq<LyricLine>, id: string)
    ensures DeleteLyric(DeleteLyric(lyrics, id), id) == DeleteLyric(lyrics, id)
  {
    var r := DeleteLyric(lyrics, id);
    forall i | 0 <= i < |r| ensures r[i].id != id {
      assert r[i] in r;
    }
    DeleteAbsent(r, id);
  }

  /** The panel's own state: the line being edited and the text box for a new line. */
  class EditorPanel {
    var editingId: Option<string>
    var newLyricText: string

    constructor ()
      ensures editingId == None && newLyricText == ""
    {
      editingId := None;
      newLyricText := "";
    }

    method SetNewLyricText(text: string)
      modifies this
      ensures newLyricText == text && editingId == old(editingId)
    {
      newLyricText := text;
    }

    method StartEditing(id: string)
      modifies this
      ensures editingId == Some(id) && newLyricText == old(newLyricText)
    {
      editingId := Some(id);
    }

    method StopEditing()
      modifies this
      ensures editingId == None && newLyricText == old(newLyricText)
    {
      editingId := None;
    }

    /** The "use current time" button keeps the text box as it is and records no time. */
    method UseCurrentTime()
      modifies this
      ensures newLyricText == old(newLyricText) && editingId == old(editingId)
    {
      newLyricText := if newLyricText != "" then newLyricText else "";
    }

    /** `addNewLyric` at clock reading `t`: the new list for the page, or None when
        the text box is blank; a new line empties the text box. */
    method AddNewLyricAt(lyrics: seq<LyricLine>, t: int, stamp: nat) returns (r: Option<seq<LyricLine>>)
      modifies this
      ensures r == AddNewLyric(lyrics, old(newLyricText), t, stamp)
      ensures newLyricText == if r.Some? then "" else old(newLyricText)
      ensures editingId == old(editingId)
    {
      r := AddNewLyric(lyrics, newLyricText, t, stamp);
      if r.Some? {
        newLyricText := "";
      }
    }
  }
}
