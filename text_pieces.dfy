/** Facts about the pieces an exported lyric text is made of: the stamp's layout,
    what the timestamp pattern makes of a stamped line, where the header splits,
    and how the line filter and the import loop work piece by piece. */
module TextPieces {
  import opened Types
  import opened Strings
  import opened TimeFormat
  import opened VideoIds
  import opened SampleData
  import opened LeadLines

  lemma {:induction false} NonBlankAppend(a: seq<string>, b: seq<string>)
    ensures NonBlank(a + b) == NonBlank(a) + NonBlank(b)
    decreases |a|
  {
    if a == [] {
      assert a + b == b;
    } else {
      assert (a + b)[1..] == a[1..] + b;
      NonBlankAppend(a[1..], b);
    }
  }

  lemma {:induction false} NonBlankKeeps(ls: seq<string>)
    requires forall i :: 0 <= i < |ls| ==> !Blank(ls[i])
    ensures NonBlank(ls) == ls
    decreases |ls|
  {
    if ls != [] {
      NonBlankKeeps(ls[1..]);
    }
  }

  /** Lines joined with newlines, none of them blank or holding a newline, split
      and filtered back into themselves. */
  lemma BodyLines(lines: seq<string>)
    requires forall i :: 0 <= i < |lines| ==> !Blank(lines[i]) && '\n' !in lines[i]
    ensures NonBlank(Split(Join(lines, "\n"), "\n")) == lines
  {
    if lines == [] {
      assert Split(Join(lines, "\n"), "\n") == [""];
    } else {
      SplitJoin(lines, '\n');
      NonBlankKeeps(lines);
    }
  }

  /** A header line, a link line and an empty line split off the front of a text. */
  lemma SplitLead(header: string, link: string, body: string)
    requires '\n' !in header && '\n' !in link
    ensures Split(header + "\n" + link + "\n\n" + body, "\n") == [header, link, ""] + Split(body, "\n")
  {
    var ls := [header, link, ""];
    assert ls[1..] == [link, ""] && ls[1..][1..] == [""] && ls[1..][1..][1..] == [];
    assert Lead([""]) == "\n";
    assert Lead([link, ""]) == link + "\n" + "\n";
    assert Lead(ls) == header + "\n" + (link + "\n" + "\n");
    assert Lead(ls) + body == header + "\n" + link + "\n\n" + body;
    SplitLeadLines(ls, body);
  }

  /** Of the three lead lines, the filter keeps the header and the link. */
  lemma LeadKept(header: string, link: string, rest: seq<string>)
    requires !Blank(header) && !Blank(link)
    ensures NonBlank([header, link, ""] + rest) == [header, link] + NonBlank(rest)
  {
    NonBlankAppend([header, link, ""], rest);
    assert [header, link, ""][1..] == [link, ""];
    assert [link, ""][1..] == [""];
    assert NonBlank([""]) == [];
    assert NonBlank([link, ""]) == [link];
    assert NonBlank([header, link, ""]) == [header, link];
  }

  /** The lines the importer keeps from a header line, a link line, an empty line and a body. */
  lemma TextLines(header: string, link: string, lines: seq<string>)
    requires !Blank(header) && '\n' !in header && !Blank(link) && '\n' !in link
    requires forall i :: 0 <= i < |lines| ==> !Blank(lines[i]) && '\n' !in lines[i]
    ensures NonBlank(Split(header + "\n" + link + "\n\n" + Join(lines, "\n"), "\n")) == [header, link] + lines
  {
    var body := Join(lines, "\n");
    SplitLead(header, link, body);
    LeadKept(header, link, Split(body, "\n"));
    BodyLines(lines);
  }

  lemma {:induction false} AllExportableAt(ls: seq<LyricLine>)
    requires AllExportable(ls)
    ensures forall i :: 0 <= i < |ls| ==> Exportable(ls[i])
    decreases |ls|
  {
    if ls != [] {
      AllExportableAt(ls[1..]);
      forall i | 0 <= i < |ls| ensures Exportable(ls[i]) {
        if i > 0 {
          assert ls[i] == ls[1..][i - 1];
        }
      }
    }
  }

  /** Importing a text whose kept lines are `lead` then `rest`: the loop over `rest`
      from where the loop over `lead` left off. */
  lemma ImportInTwoParts(text: string, lead: seq<string>, rest: seq<string>, mid: Imported, r: Imported)
    requires NonBlank(Split(text, "\n")) == lead + rest
    requires ForEachLine(ImportStep, NothingImported, lead) == mid
    requires ForEachLine(ImportStep, mid, rest) == r
    ensures ImportText(text) == r
  {
    ForEachAppend(ImportStep, NothingImported, lead, rest);
  }

  /** Appending lines to a result with none yet gives exactly those lines. */
  lemma LyricsAppendedToNone(title: Option<string>, artist: Option<string>, videoId: Option<string>, ts: seq<TimedText>)
    ensures Imported(title, artist, videoId, []).(lyrics := [] + ts) == Imported(title, artist, videoId, ts)
  {
    assert [] + ts == ts;
  }

  /** The import loop over two pieces is the loop over the second from where the first left off. */
  lemma {:induction false} ForEachAppend(step: (Imported, string) -> Imported, acc: Imported, a: seq<string>, b: seq<string>)
    ensures ForEachLine(step, acc, a + b) == ForEachLine(step, ForEachLine(step, acc, a), b)
    decreases |b|
  {
    if b == [] {
      assert a + b == a;
    } else {
      var ab := a + b;
      assert ab[..|ab| - 1] == a + b[..|b| - 1];
      assert ab[|ab| - 1] == b[|b| - 1];
      ForEachAppend(step, acc, a, b[..|b| - 1]);
    }
  }

  /** `s` splits at `i` when the first occurrence of the separator is there. */
  lemma SplitAtIndex(a: string, sep: string, b: string)
    requires |sep| > 0 && IndexOf(a + sep + b, sep) == |a|
    ensures Split(a + sep + b, sep) == [a] + Split(b, sep)
  {
    var s := a + sep + b;
    assert s[..|a|] == a;
    assert s[|a| + |sep|..] == b;
  }

  /** No occurrence of `m` in `p + t` when `m` starts with a character absent from `p`
      and `t` holds no `m`. */
  lemma NotContainsAfterPrefix(p: string, t: string, m: string)
    requires |m| > 0 && m[0] !in p && !Contains(t, m)
    ensures !Contains(p + t, m)
  {
    var s := p + t;
    forall k | 0 <= k <= |s| ensures !StartsWith(s[k..], m) {
      if k < |p| {
        assert s[k] == p[k];
      } else {
        assert s[k..] == t[k - |p|..];
      }
    }
  }

  /** A two-digit stamp field. */
  lemma PaddedTwo(n: int)
    requires 0 <= n < 100
    ensures |Padded(n, 2)| == 2 && AllDigits(Padded(n, 2)) && DecimalValue(Padded(n, 2)) == n
  {
    PadKeepsValue(NatToString(n), 2);
  }

  /** Under 100 minutes the stamp is "[MM:SS.CC]" with three two-digit fields whose
      values give back the start time down to the centisecond. */
  lemma StampFields(ms: int)
    requires 0 <= ms < 6000000
    ensures var mm, ss, cc := Padded(ms / 1000 / 60, 2), Padded(ms / 1000 % 60, 2), Padded(ms % 1000 / 10, 2);
      var f := FormatTimeInput(ms);
      |mm| == 2 && |ss| == 2 && |cc| == 2 && AllDigits(mm) && AllDigits(ss) && AllDigits(cc) &&
      |f| == 8 && f[..2] == mm && f[2] == ':' && f[3..5] == ss && f[5] == '.' && f[6..] == cc &&
      (DecimalValue(mm) * 60 + DecimalValue(ss)) * 1000 + DecimalValue(cc) * 10 == ms - ms % 10
  {
    StampBounds(ms);
    PaddedTwo(ms / 1000 / 60);
    PaddedTwo(ms / 1000 % 60);
    PaddedTwo(ms % 1000 / 10);
    StampText(ms);
    FieldLayout(Padded(ms / 1000 / 60, 2), Padded(ms / 1000 % 60, 2), Padded(ms % 1000 / 10, 2));
    ClockArithmetic(ms);
  }

  lemma FieldLayout(mm: string, ss: string, cc: string)
    requires |mm| == 2 && |ss| == 2 && |cc| == 2
    ensures var f := mm + ":" + ss + "." + cc;
      |f| == 8 && f[..2] == mm && f[2] == ':' && f[3..5] == ss && f[5] == '.' && f[6..] == cc
  {
    var f := mm + ":" + ss + "." + cc;
    assert f[..2] == mm;
    assert f[3..5] == ss;
    assert f[6..] == cc;
  }

  /** The stamp's "MM:SS.CC" layout, as the timestamp pattern sees it. */
  lemma StampLayout(ms: int)
    requires 0 <= ms < 6000000
    ensures var f := FormatTimeInput(ms);
      |f| == 8 && AllDigits(f[..2]) && f[2] == ':' && AllDigits(f[3..5]) && f[5] == '.' && AllDigits(f[6..]) &&
      (DecimalValue(f[..2]) * 60 + DecimalValue(f[3..5])) * 1000 + DecimalValue(f[6..]) * 10 == ms - ms % 10
  {
    StampFields(ms);
  }

  lemma StampBounds(ms: int)
    requires 0 <= ms < 6000000
    ensures 0 <= ms / 1000 / 60 < 100 && 0 <= ms / 1000 % 60 < 100 && 0 <= ms % 1000 / 10 < 100
  {
  }

  lemma StampText(ms: int)
    requires 0 <= ms
    ensures FormatTimeInput(ms) == Padded(ms / 1000 / 60, 2) + ":" + Padded(ms / 1000 % 60, 2) + "." + Padded(ms % 1000 / 10, 2)
  {
    assert JsRem(ms / 1000, 60) == ms / 1000 % 60;
    assert JsRem(ms, 1000) == ms % 1000;
  }

  /** `\s*(.+)$` after a single space takes the whole text that follows it. */
  lemma TailAfterSpace(text: string)
    requires |text| > 0 && !IsSpace(text[0]) && NoLineTerminator(text)
    ensures TailText(" " + text) == Some(text)
  {
    var u := " " + text;
    var n := RunLength(u, IsSpace);
    assert IsSpace(u[0]) && u[1] == text[0];
    assert u[1..] == text;
  }

  /** The timestamp pattern on "[" + f + "] " + text, where f has the "MM:SS.CC" layout. */
  lemma MatchStamped(f: string, text: string)
    requires |f| == 8 && AllDigits(f[..2]) && f[2] == ':' && AllDigits(f[3..5]) && f[5] == '.' && AllDigits(f[6..])
    requires |text| > 0 && !IsSpace(text[0]) && NoLineTerminator(text)
    ensures MatchTimestamp("[" + f + "]" + " " + text)
      == Some(TimedText((DecimalValue(f[..2]) * 60 + DecimalValue(f[3..5])) * 1000 + DecimalValue(f[6..]) * 10, text))
  {
    var line := "[" + f + "]" + " " + text;
    assert line[1] == f[0] && line[2] == f[1] && line[3] == ':';
    assert MinuteWidth(line[1..]) == 2;
    assert line[1..3] == f[..2];
    var rest := line[4..];
    assert rest[..2] == f[3..5] && rest[2] == '.' && rest[3..5] == f[6..] && rest[5] == ']';
    assert rest[6..] == " " + text;
    TailAfterSpace(text);
  }

  /** The characters of an "MM:SS.CC" stamp are digits, ':' and '.'. */
  lemma StampChars(f: string)
    requires |f| == 8 && AllDigits(f[..2]) && f[2] == ':' && AllDigits(f[3..5]) && f[5] == '.' && AllDigits(f[6..])
    ensures forall i :: 0 <= i < |f| ==> IsDigit(f[i]) || f[i] == ':' || f[i] == '.'
  {
    forall i | 0 <= i < |f| ensures IsDigit(f[i]) || f[i] == ':' || f[i] == '.' {
      if i < 2 {
        assert f[i] == f[..2][i];
      } else if 3 <= i < 5 {
        assert f[i] == f[3..5][i - 3];
      } else if 6 <= i {
        assert f[i] == f[6..][i - 6];
      }
    }
  }

  /** A stamped line is not blank and holds no newline. */
  lemma StampedLineKept(f: string, text: string)
    requires |f| == 8 && AllDigits(f[..2]) && f[2] == ':' && AllDigits(f[3..5]) && f[5] == '.' && AllDigits(f[6..])
    requires NoLineTerminator(text)
    ensures var line := "[" + f + "]" + " " + text;
      !Blank(line) && '\n' !in line
  {
    StampChars(f);
    var p := "[" + f + "]" + " ";
    assert '\n' !in p;
    assert '\n' !in text by {
      forall i | 0 <= i < |text| ensures text[i] != '\n' {
        assert !IsLineTerminator(text[i]);
      }
    }
    var line := p + text;
    assert line[..1] == "[";
    assert !IsSpace(line[0]);
  }

  /** A stamped line is neither a header nor, without a link marker in its text, a link line. */
  lemma StampedLineShape(f: string, text: string)
    requires |f| == 8 && AllDigits(f[..2]) && f[2] == ':' && AllDigits(f[3..5]) && f[5] == '.' && AllDigits(f[6..])
    requires !Contains(text, LinkMarkers[0]) && !Contains(text, LinkMarkers[1])
    ensures var line := "[" + f + "]" + " " + text;
      !IsHeaderLine(line) && !IsLinkLine(line)
  {
    StampChars(f);
    var p := "[" + f + "]" + " ";
    assert 'y' !in p;
    NotContainsAfterPrefix(p, text, LinkMarkers[0]);
    NotContainsAfterPrefix(p, text, LinkMarkers[1]);
    var line := p + text;
    assert line[..1] == "[";
  }

  /** No " - " starts inside the title. */
  lemma NoSeparatorInTitle(title: string, artist: string, k: nat)
    requires !Contains(title, " - ") && !(|title| >= 2 && title[|title| - 2..] == " -") && k < |title|
    ensures !StartsWith((title + " - " + artist)[k..], " - ")
  {
    var h := title + " - " + artist;
    if k + 3 <= |title| {
      assert h[k..][..3] == title[k..][..3];
    } else if k + 2 == |title| {
      assert title[|title| - 2..] == [h[k], h[k + 1]];
    } else {
      assert h[k + 1] == ' ';
    }
  }

  /** The first " - " of the header is the one after the title. */
  lemma HeaderIndex(title: string, artist: string)
    requires !Contains(title, " - ") && !(|title| >= 2 && title[|title| - 2..] == " -")
    ensures IndexOf(title + " - " + artist, " - ") == |title|
  {
    var h := title + " - " + artist;
    assert h[|title|..][..3] == " - ";
    forall k | 0 <= k < |title| ensures !StartsWith(h[k..], " - ") {
      NoSeparatorInTitle(title, artist, k);
    }
  }

  /** The header splits into the title and the artist. */
  lemma HeaderSplit(title: string, artist: string)
    requires !Contains(title, " - ") && !(|title| >= 2 && title[|title| - 2..] == " -")
    requires !Contains(artist, " - ")
    ensures Split(title + " - " + artist, " - ") == [title, artist]
  {
    HeaderIndex(title, artist);
    SplitAtIndex(title, " - ", artist);
    assert Split(artist, " - ") == [artist];
  }

  /** The header is a header line: it holds " - " and does not start with '['. */
  lemma HeaderIsHeader(title: string, artist: string)
    requires title == [] || title[0] != '['
    ensures IsHeaderLine(title + " - " + artist)
  {
    var h := title + " - " + artist;
    assert h[|title|..][..3] == " - ";
    ContainsAt(h, " - ", |title|);
    assert h[0] == if title == [] then ' ' else title[0];
  }

  /** The header is not blank and, with a one-line title and artist, on one line. */
  lemma HeaderOneLine(title: string, artist: string)
    requires '\n' !in title && '\n' !in artist
    ensures !Blank(title + " - " + artist) && '\n' !in title + " - " + artist
  {
    var h := title + " - " + artist;
    assert h[|title| + 1] == '-';
    assert !IsSpace(h[|title| + 1]);
  }

  /** No " - " in `p + v` when `p` has no '-' and `v` has no space. */
  lemma NoSeparatorAcross(p: string, v: string)
    requires '-' !in p && ' ' !in v
    ensures !Contains(p + v, " - ")
  {
    var s := p + v;
    forall k | 0 <= k <= |s| ensures !StartsWith(s[k..], " - ") {
      if k + 3 <= |s| {
        if k + 1 < |p| {
          assert s[k..][1] == p[k + 1];
        } else {
          assert s[k..][2] == v[k + 2 - |p|];
        }
      }
    }
  }

  /** The link line is not a header line: its only '-' can come from the id, which has no space. */
  lemma LinkNotHeader(videoId: string)
    requires ' ' !in videoId
    ensures !Contains(LinkPrefix + videoId, " - ")
  {
    assert '-' !in LinkPrefix;
    NoSeparatorAcross(LinkPrefix, videoId);
  }

  /** The link line holds the first link marker. */
  lemma LinkIsLink(videoId: string)
    ensures IsLinkLine(LinkLine(videoId))
  {
    var link := LinkLine(videoId);
    assert link[17..][..20] == LinkMarkers[0];
    ContainsAt(link, LinkMarkers[0], 17);
  }

  /** The link line is not blank and, with a valid id, on one line. */
  lemma LinkOneLine(videoId: string)
    requires VideoIdField(videoId)
    ensures !Blank(LinkLine(videoId)) && '\n' !in LinkLine(videoId)
  {
    var link := LinkLine(videoId);
    assert !IsSpace(link[0]);
    assert '\n' !in videoId by {
      forall i | 0 <= i < |videoId| ensures videoId[i] != '\n' {
        assert IsIdChar(videoId[i]);
      }
    }
  }

  /** No link marker starts inside the link line's lead. */
  lemma NoMatchInLead(link: string)
    requires |link| >= 17 && link[..17] == "YouTube: https://"
    ensures forall q :: 0 <= q < 17 ==> MatchHere(link[q..], LinkMarkers) == None
  {
    forall q | 0 <= q < 17 ensures MatchHere(link[q..], LinkMarkers) == None {
      assert link[q..][0] == link[..17][q];
      NoMatchAtChar(link[q..], LinkMarkers);
    }
  }

  /** The parts of a text made of a lead and a rest. */
  lemma LeadAndRest(lead: string, rest: string)
    ensures (lead + rest)[..|lead|] == lead && (lead + rest)[|lead|..] == rest
  {
  }

  /** The link line is its lead, the first marker and the id. */
  lemma LinkParts(videoId: string)
    ensures LinkPrefix + videoId == "YouTube: https://" + (LinkMarkers[0] + videoId + "")
  {
    assert LinkPrefix == "YouTube: https://" + LinkMarkers[0];
    AppendAssoc("YouTube: https://", LinkMarkers[0], videoId);
    assert LinkMarkers[0] + videoId + "" == LinkMarkers[0] + videoId;
  }

  /** An id right after the first marker is what the markers match. */
  lemma MatchFirstMarker(s: string, markers: seq<string>, id: string)
    requires markers != [] && IdAfter(s, markers[0]) == Some(id)
    ensures MatchHere(s, markers).Some? && MatchHere(s, markers).value == id
  {
  }

  /** The link pattern finds the id right after the marker. */
  lemma LinkSearch(videoId: string)
    requires VideoIdField(videoId)
    ensures SearchFrom(LinkPrefix + videoId, LinkMarkers, 0) == Some(videoId)
  {
    var link := LinkPrefix + videoId;
    var tail := LinkMarkers[0] + videoId + "";
    LinkParts(videoId);
    LeadAndRest("YouTube: https://", tail);
    IdAfterMarker(LinkMarkers[0], videoId, "");
    MatchFirstMarker(link[17..], LinkMarkers, videoId);
    NoMatchInLead(link);
    FirstMatchAt(link, LinkMarkers, 0, 17);
  }

  /** A stamp whose minutes take three or more digits has digits in its first three places. */
  lemma ThreeDigitsAhead(mm: string, ss: string, cc: string)
    requires |mm| >= 3 && AllDigits(mm)
    ensures var f := mm + ":" + ss + "." + cc;
      |f| >= 3 && IsDigit(f[0]) && IsDigit(f[1]) && IsDigit(f[2])
  {
    var f := mm + ":" + ss + "." + cc;
    assert f[0] == mm[0] && f[1] == mm[1] && f[2] == mm[2];
  }

  /** From 100 minutes on, the minutes alone take three digits or more. */
  lemma WideMinutes(ms: int)
    requires ms >= 6000000
    ensures var mm := Padded(ms / 1000 / 60, 2);
      |mm| >= 3 && AllDigits(mm)
  {
    var minutes := ms / 1000 / 60;
    assert ms / 1000 >= 6000;
    assert minutes >= 100;
    assert Padded(minutes, 2) == NatToString(minutes);
  }

  /** From 100 minutes on, the stamp starts with three minute digits. */
  lemma StampTooWide(ms: int)
    requires ms >= 6000000
    ensures var f := FormatTimeInput(ms);
      |f| >= 3 && IsDigit(f[0]) && IsDigit(f[1]) && IsDigit(f[2])
  {
    WideMinutes(ms);
    ThreeDigitsAhead(Padded(ms / 1000 / 60, 2), Padded(JsRem(ms / 1000, 60), 2), Padded(JsRem(ms, 1000) / 10, 2));
  }

  /** The minute group takes at most two digits: a stamp with three fails the pattern. */
  lemma MatchWideMinutes(f: string, text: string)
    requires |f| >= 3 && IsDigit(f[0]) && IsDigit(f[1]) && IsDigit(f[2])
    ensures MatchTimestamp("[" + f + "]" + " " + text) == None
  {
    var line := "[" + f + "]" + " " + text;
    assert line[1..][0] == f[0] && line[1..][1] == f[1] && line[1..][2] == f[2];
  }

  /** One pass of the import loop on a header line. */
  lemma StepOnHeader(acc: Imported, line: string)
    requires IsHeaderLine(line)
    ensures var parts := Split(line, " - ");
      |parts| >= 2 && ImportStep(acc, line) == acc.(title := Some(Trim(parts[0])), artist := Some(Trim(parts[1])))
  {
  }

  /** One pass of the import loop on a link line. */
  lemma StepOnLink(acc: Imported, line: string, id: string)
    requires !IsHeaderLine(line) && IsLinkLine(line) && SearchFrom(line, LinkMarkers, 0) == Some(id)
    ensures ImportStep(acc, line) == acc.(videoId := Some(id))
  {
  }

  /** One pass of the import loop on a line that matches the timestamp pattern. */
  lemma StepOnStamped(acc: Imported, line: string, t: TimedText)
    requires !IsHeaderLine(line) && !IsLinkLine(line)
    requires MatchTimestamp(line).Some? && MatchTimestamp(line).value == t
    ensures ImportStep(acc, line) == acc.(lyrics := acc.lyrics + [t])
  {
  }

  /** The importer takes `line` for a lyric line and reads `t` from it. */
  predicate ReadsAs(line: string, t: TimedText) {
    !IsHeaderLine(line) && !IsLinkLine(line) && MatchTimestamp(line).Some? && MatchTimestamp(line).value == t
  }

  /** A loop whose every step on `lines[i]` appends `ts[i]` appends `ts`, in order. */
  lemma {:induction false} AppendingSteps(step: (Imported, string) -> Imported, acc: Imported,
                                          lines: seq<string>, ts: seq<TimedText>)
    requires |ts| == |lines|
    requires forall a: Imported, i :: 0 <= i < |lines| ==> step(a, lines[i]) == a.(lyrics := a.lyrics + [ts[i]])
    ensures ForEachLine(step, acc, lines) == acc.(lyrics := acc.lyrics + ts)
    decreases |lines|
  {
    if lines == [] {
      assert acc.lyrics + ts == acc.lyrics;
    } else {
      var n := |lines| - 1;
      var init := lines[..n];
      forall a: Imported, i | 0 <= i < n ensures step(a, init[i]) == a.(lyrics := a.lyrics + [ts[..n][i]]) {
        assert init[i] == lines[i] && ts[..n][i] == ts[i];
      }
      AppendingSteps(step, acc, init, ts[..n]);
      var mid := ForEachLine(step, acc, init);
      assert step(mid, lines[n]) == mid.(lyrics := mid.lyrics + [ts[n]]);
      FrontThenLast(ts);
      AppendAssoc(acc.lyrics, ts[..n], [ts[n]]);
    }
  }

  /** The import loop over lines the importer reads as `ts` appends `ts`, in order. */
  lemma StampedLinesImport(acc: Imported, lines: seq<string>, ts: seq<TimedText>)
    requires |ts| == |lines|
    requires forall i {:trigger ReadsAs(lines[i], ts[i])} :: 0 <= i < |lines| ==> ReadsAs(lines[i], ts[i])
    ensures ForEachLine(ImportStep, acc, lines) == acc.(lyrics := acc.lyrics + ts)
  {
    forall a: Imported, i | 0 <= i < |lines| ensures ImportStep(a, lines[i]) == a.(lyrics := a.lyrics + [ts[i]]) {
      assert ReadsAs(lines[i], ts[i]);
      StepOnStamped(a, lines[i], ts[i]);
    }
    AppendingSteps(ImportStep, acc, lines, ts);
  }
}
