/** Finding a video id in pasted text: the pattern
    `(?:youtube\.com\/watch\?v=|youtu\.be\/|youtube\.com\/embed\/)([^&\n?#]+)`
    searched for anywhere in the text, and its two-marker variant that the
    plain-text import uses. */
module VideoIds {
  import opened Types
  import opened Strings

  /** The markers of the video-id fields, in the pattern's order. */
  const Markers: seq<string> := ["youtube.com/watch?v=", "youtu.be/", "youtube.com/embed/"]

  /** The markers of the plain-text import's link line. */
  const LinkMarkers: seq<string> := ["youtube.com/watch?v=", "youtu.be/"]

  /** A character that can be part of an id: anything but '&', '?', '#' and a newline. */
  predicate IsIdChar(c: char) {
    c != '&' && c != '\n' && c != '?' && c != '#'
  }

  /** The id found when marker `m` starts at the front of `s`: the longest non-empty
      run of id characters right after it. */
  function IdAfter(s: string, m: string): (r: Option<string>)
    ensures r.Some? ==> StartsWith(s, m) && |r.value| > 0 && StartsWith(s[|m|..], r.value)
    ensures r.Some? ==> forall i :: 0 <= i < |r.value| ==> IsIdChar(r.value[i])
    ensures r.Some? ==> |m| + |r.value| == |s| || !IsIdChar(s[|m| + |r.value|])
  {
    if !StartsWith(s, m) then None
    else
      var n := RunLength(s[|m|..], IsIdChar);
      if n == 0 then None else Some(s[|m|..][..n])
  }

  /** The first of `markers`, in order, that yields an id at the front of `s`. */
  function MatchHere(s: string, markers: seq<string>): Option<string>
    decreases |markers|
  {
    if markers == [] then None
    else
      match IdAfter(s, markers[0])
      case Some(id) => Some(id)
      case None => MatchHere(s, markers[1..])
  }

  /** The match at the leftmost position from `i` on. */
  function SearchFrom(s: string, markers: seq<string>, i: nat): Option<string>
    requires i <= |s|
    decreases |s| - i
  {
    match MatchHere(s[i..], markers)
    case Some(id) => Some(id)
    case None => if i == |s| then None else SearchFrom(s, markers, i + 1)
  }

  /** The id after the first marker found, or the text as typed. */
  function ExtractVideoId(s: string): string {
    match SearchFrom(s, Markers, 0)
    case Some(id) => id
    case None => s
  }

  lemma {:induction false} NoMatchWithoutMarker(s: string, markers: seq<string>)
    requires forall k :: 0 <= k < |markers| ==> !StartsWith(s, markers[k])
    ensures MatchHere(s, markers) == None
    decreases |markers|
  {
    if markers != [] {
      NoMatchWithoutMarker(s, markers[1..]);
    }
  }

  lemma {:induction false} NoMarkerFrom(s: string, markers: seq<string>, i: nat)
    requires i <= |s|
    requires forall k :: 0 <= k < |markers| ==> !Contains(s, markers[k])
    ensures SearchFrom(s, markers, i) == None
    decreases |s| - i
  {
    NoMatchWithoutMarker(s[i..], markers);
    if i < |s| {
      NoMarkerFrom(s, markers, i + 1);
    }
  }

  /** Text with none of the markers is taken as the id itself. */
  lemma PlainIdUnchanged(s: string)
    requires forall k :: 0 <= k < |Markers| ==> !Contains(s, Markers[k])
    ensures ExtractVideoId(s) == s
  {
    NoMarkerFrom(s, Markers, 0);
  }

  /** A character no marker starts with cannot begin a match. */
  lemma NoMatchAtChar(s: string, markers: seq<string>)
    requires |s| > 0
    requires forall k :: 0 <= k < |markers| ==> |markers[k]| > 0 && markers[k][0] != s[0]
    ensures MatchHere(s, markers) == None
  {
    NoMatchWithoutMarker(s, markers);
  }

  /** The search finds the match at `p` when no earlier position matches. */
  lemma {:induction false} FirstMatchAt(s: string, markers: seq<string>, i: nat, p: nat)
    requires i <= p <= |s|
    requires forall q :: i <= q < p ==> MatchHere(s[q..], markers) == None
    requires MatchHere(s[p..], markers).Some?
    ensures SearchFrom(s, markers, i) == MatchHere(s[p..], markers)
    decreases p - i
  {
    if i < p {
      FirstMatchAt(s, markers, i + 1, p);
    }
  }

  /** The id right after a marker at the front ends at the first '&', '?', '#' or newline. */
  lemma IdAfterMarker(m: string, id: string, rest: string)
    requires |id| > 0 && forall i :: 0 <= i < |id| ==> IsIdChar(id[i])
    requires rest == [] || !IsIdChar(rest[0])
    ensures IdAfter(m + id + rest, m) == Some(id)
  {
    var s := m + id + rest;
    assert s[..|m|] == m;
    assert s[|m|..] == id + rest;
    assert (id + rest)[..|id|] == id;
  }

  /** A marker followed by an id gives the id. */
  lemma MarkerThenId(k: nat, id: string, rest: string)
    requires k < |Markers|
    requires |id| > 0 && forall i :: 0 <= i < |id| ==> IsIdChar(id[i])
    requires rest == [] || !IsIdChar(rest[0])
    ensures ExtractVideoId(Markers[k] + id + rest) == id
  {
    var m := Markers[k];
    var s := m + id + rest;
    IdAfterMarker(m, id, rest);
    assert s[0..] == s;
    assert Markers[1..][0] == Markers[1] && Markers[1..][1..][0] == Markers[2];
    if k == 1 {
      assert s[5] == '.';
      assert !StartsWith(s, Markers[0]);
    } else if k == 2 {
      assert s[12] == 'e' && s[5] == 'b';
      assert !StartsWith(s, Markers[0]);
      assert !StartsWith(s, Markers[1]);
    }
  }
}
