/** Reading an exported lyric text back with the importer: which lines survive,
    and what the importer makes of each of them. */
module TextRoundTrip {
  import opened Types
  import opened Strings
  import opened TimeFormat
  import opened VideoIds
  import opened SampleData
  import opened TextPieces

  /** The timestamp pattern reads an exported line back as its text and its start
      time down to the centisecond. */
  lemma MatchExportLine(l: LyricLine)
    requires Stampable(l)
    ensures MatchTimestamp(ExportLine(l)).Some?
    ensures MatchTimestamp(ExportLine(l)).value == TimedText(l.startTime - l.startTime % 10, l.text)
  {
    StampLayout(l.startTime);
    MatchStamped(FormatTimeInput(l.startTime), l.text);
    assert MatchTimestamp(ExportLine(l)).value.startTime == l.startTime - l.startTime % 10;
    assert MatchTimestamp(ExportLine(l)).value.text == l.text;
  }

  /** From 100 minutes on the stamp has three minute digits and the line is not read back. */
  lemma LateLineDropped(l: LyricLine)
    requires l.startTime >= 6000000
    ensures MatchTimestamp(ExportLine(l)) == None
  {
    StampTooWide(l.startTime);
    MatchWideMinutes(FormatTimeInput(l.startTime), l.text);
  }

  /** An exported line is not blank and holds no newline. */
  lemma ExportLineKept(l: LyricLine)
    requires Stampable(l)
    ensures !Blank(ExportLine(l)) && '\n' !in ExportLine(l)
  {
    StampLayout(l.startTime);
    StampedLineKept(FormatTimeInput(l.startTime), l.text);
  }

  /** An exported line is neither a header nor a link line. */
  lemma ExportLineShape(l: LyricLine)
    requires Exportable(l)
    ensures !IsHeaderLine(ExportLine(l)) && !IsLinkLine(ExportLine(l))
  {
    StampLayout(l.startTime);
    StampedLineShape(FormatTimeInput(l.startTime), l.text);
  }

  /** Each exported line is kept by the line filter and holds no newline. */
  lemma ExportedLinesKept(ls: seq<LyricLine>)
    requires forall i :: 0 <= i < |ls| ==> Stampable(ls[i])
    ensures var lines := ExportLines(ls);
      forall i :: 0 <= i < |lines| ==> !Blank(lines[i]) && '\n' !in lines[i]
  {
    var lines := ExportLines(ls);
    forall i | 0 <= i < |lines| ensures !Blank(lines[i]) && '\n' !in lines[i] {
      ExportLineKept(ls[i]);
    }
  }

  /** Each exported line is a lyric line for the importer, and it reads back as
      the line's text with its start time down to the centisecond. */
  lemma ExportedLinesRead(ls: seq<LyricLine>)
    requires forall i :: 0 <= i < |ls| ==> Exportable(ls[i])
    ensures var lines, ts := ExportLines(ls), Timed(ls);
      forall i {:trigger ReadsAs(lines[i], ts[i])} :: 0 <= i < |lines| ==> ReadsAs(lines[i], ts[i])
  {
    var lines, ts := ExportLines(ls), Timed(ls);
    forall i | 0 <= i < |lines| ensures ReadsAs(lines[i], ts[i]) {
      ExportLineShape(ls[i]);
      MatchExportLine(ls[i]);
    }
  }

  /** The import loop over the exported lyric lines appends each line's text with its
      start time down to the centisecond, in export order. */
  lemma ImportExportLines(acc: Imported, ls: seq<LyricLine>)
    requires AllExportable(ls)
    ensures ForEachLine(ImportStep, acc, ExportLines(ls)) == acc.(lyrics := acc.lyrics + Timed(ls))
  {
    AllExportableAt(ls);
    ExportedLinesRead(ls);
    StampedLinesImport(acc, ExportLines(ls), Timed(ls));
  }

  /** The header line sets the title and the artist. */
  lemma ImportHeader(acc: Imported, title: string, artist: string)
    requires TitleField(title) && HeaderField(artist)
    ensures ImportStep(acc, HeaderLine(title, artist)) == acc.(title := Some(title), artist := Some(artist))
  {
    HeaderIsHeader(title, artist);
    HeaderSplit(title, artist);
    StepOnHeader(acc, title + " - " + artist);
  }

  /** The link line sets the video id. */
  lemma ImportLink(acc: Imported, videoId: string)
    requires VideoIdField(videoId)
    ensures ImportStep(acc, LinkLine(videoId)) == acc.(videoId := Some(videoId))
  {
    LinkNotHeader(videoId);
    LinkIsLink(videoId);
    LinkSearch(videoId);
    StepOnLink(acc, LinkPrefix + videoId, videoId);
  }

  /** Importing the header line and the link line sets the title, the artist and the id. */
  lemma ImportLeadLines(title: string, artist: string, videoId: string)
    requires TitleField(title) && HeaderField(artist) && VideoIdField(videoId)
    ensures ForEachLine(ImportStep, NothingImported, [HeaderLine(title, artist), LinkLine(videoId)])
      == Imported(Some(title), Some(artist), Some(videoId), [])
  {
    var two := [HeaderLine(title, artist), LinkLine(videoId)];
    var acc1 := NothingImported.(title := Some(title), artist := Some(artist));
    ImportHeader(NothingImported, title, artist);
    ImportLink(acc1, videoId);
    assert two[..1] == [two[0]] && [two[0]][..0] == [];
    assert ForEachLine(ImportStep, NothingImported, two[..1]) == acc1;
    assert ForEachLine(ImportStep, NothingImported, two) == acc1.(videoId := Some(videoId));
  }

  /** The lines the importer keeps from an exported text: the header, the link,
      then one line per lyric line; the empty line after the link is dropped. */
  lemma ExportedTextLines(title: string, artist: string, videoId: string, sorted: seq<LyricLine>)
    requires '\n' !in title && '\n' !in artist && VideoIdField(videoId)
    requires AllExportable(sorted)
    ensures NonBlank(Split(ExportText(title, artist, videoId, sorted), "\n"))
      == [HeaderLine(title, artist), LinkLine(videoId)] + ExportLines(sorted)
  {
    AllExportableAt(sorted);
    HeaderOneLine(title, artist);
    LinkOneLine(videoId);
    ExportedLinesKept(sorted);
    TextLines(HeaderLine(title, artist), LinkLine(videoId), ExportLines(sorted));
  }

  /** Export then import gives back the title, the artist, the video id and every
      line's text with its start time down to the centisecond, in export order. */
  lemma ExportThenImport(title: string, artist: string, videoId: string, sorted: seq<LyricLine>)
    requires TitleField(title) && HeaderField(artist) && VideoIdField(videoId)
    requires AllExportable(sorted)
    ensures ImportText(ExportText(title, artist, videoId, sorted))
      == Imported(Some(title), Some(artist), Some(videoId), Timed(sorted))
  {
    var lead := Imported(Some(title), Some(artist), Some(videoId), []);
    ExportedTextLines(title, artist, videoId, sorted);
    ImportLeadLines(title, artist, videoId);
    ImportExportLines(lead, sorted);
    LyricsAppendedToNone(Some(title), Some(artist), Some(videoId), Timed(sorted));
    ImportInTwoParts(ExportText(title, artist, videoId, sorted), [HeaderLine(title, artist), LinkLine(videoId)],
      ExportLines(sorted), lead, Imported(Some(title), Some(artist), Some(videoId), Timed(sorted)));
  }
}
