# Lyric tracker: a Dafny model of its timing core

The lyric tracker plays a YouTube video beside a list of timed lyric lines, and it
keeps the two in step. A widget polls the video's clock. Each reading goes to a
player hook, which stores it and, when a loop range is on and the reading has
reached the range's end, seeks back to the range's start.

The two pages act on the list of lines:
- the main page sets the loop range from one line, from a multi-line selection, or
  from the current time, and it clears the loop and the selection;
- the recording page stamps typed lines with the clock, edits them, steps to the
  previous or next line, nudges the clock by 100 ms, and exports the list as a
  JSON record and loads it back.

The editor panel adds, edits and deletes lines and formats and parses the
`MM:SS.CC` time field. The display marks the playing, looped and passed lines. A
plain-text format (`title - artist`, a link line, then `[MM:SS.CC] text` lines)
exports a song and imports it again. Two sample songs ship with the tracker.

All times are integer milliseconds. The model has these modules:
- `Types`: the line and song records and the widget's player-state codes;
- `Strings`: JavaScript's `trim`, `split`, `join`, `indexOf`, `parseInt`,
  `toString` and `padStart` as used here;
- `Lines`: the stable sort by start time that `Array.prototype.sort` performs;
- `TimeFormat`: the three clock texts;
- `VideoIds`: the video-id pattern, as a leftmost search;
- `PlayerHook`: the hook, as a class;
- `Session`: the main page, as a class over its state fields, with the pure
  selection and range functions beside it;
- `Recorder`: the recording page, likewise;
- `Editor` and `Display`: the two components;
- `SampleData`, `LeadLines`, `TextPieces` and `TextRoundTrip`: the sample songs and
  the plain-text export and import, with the proof of their round trip.

Widget commands are not sent anywhere. Each command a method issues is appended to
the hook's `issued` log, so "at most one seek per reading" and "no command before
the widget is ready" are statements about that log.

## Model

| member | source | states |
|---|---|---|
| PlayerHook.PlayerController.constructor | src/hooks/useYouTubePlayer.ts:12-16 | The initial state: no widget, not ready, state UNSTARTED, time 0, duration 0, no command issued. |
| PlayerHook.PlayerController.HandlePlayerReady | src/hooks/useYouTubePlayer.ts:18-26 | The widget becomes attached and ready. The duration becomes the reported one, and stays as it was when none can be read. |
| PlayerHook.PlayerController.HandleStateChange | src/hooks/useYouTubePlayer.ts:28-30 | The reported state is stored verbatim and nothing else changes. |
| PlayerHook.PlayerController.HandleTimeUpdate | src/hooks/useYouTubePlayer.ts:32-51 | Every reading is stored as the current time. The log grows by exactly the seek `LoopSeek` decides, so by at most one command. No command is issued before the widget is ready. |
| PlayerHook.LoopSeek | src/hooks/useYouTubePlayer.ts:35-50 | A seek is only ever to the loop start, and only from a reading later than that start. |
| PlayerHook.SeekIff | src/hooks/useYouTubePlayer.ts:35-50 | For a valid range with looping on and a ready widget, a reading seeks to the start if and only if it is at or past the end. |
| PlayerHook.InvalidRangeNeverSeeks | src/hooks/useYouTubePlayer.ts:36-39 | A missing bound, or a start at or after the end, never seeks, whatever the reading. |
| PlayerHook.SeekSettles | src/hooks/useYouTubePlayer.ts:35-50 | The reading at the loop start, where a seek lands, does not seek again. |
| PlayerHook.LoopScenario | src/hooks/useYouTubePlayer.ts:36-44 | With range 2000..5000 and looping on, a reading of 5000 seeks to 2000 and a reading of 4999 does not seek. |
| PlayerHook.PlayerController.PlayVideo | src/hooks/useYouTubePlayer.ts:53-61 | Play is issued only when a ready widget is attached; otherwise nothing changes. |
| PlayerHook.PlayerController.PauseVideo | src/hooks/useYouTubePlayer.ts:63-71 | Pause is issued only when a ready widget is attached; otherwise nothing changes. |
| PlayerHook.PlayerController.SeekTo | src/hooks/useYouTubePlayer.ts:73-81 | A seek is issued only when a ready widget is attached; otherwise nothing changes. |
| PlayerHook.ToggleCommand | src/hooks/useYouTubePlayer.ts:83-89 | The toggle pauses if and only if the last state is PLAYING, and plays if and only if it is not. |
| PlayerHook.PlayerController.TogglePlayPause | src/hooks/useYouTubePlayer.ts:83-89 | The one command issued is the toggle command for the stored state, and only when the widget is ready. |
| Session.Page.constructor | src/routes/index.tsx:11-25 | The initial page: the custom song with no lines, no video, no loop, no selection, multi-select off. |
| Session.Page.SetLoopFromLyric | src/routes/index.tsx:119-125 | The range is exactly the line's start and end, looping is on, the selection is that line's id alone, and multi-select is off. |
| Session.Page.SetLoopFromMultipleLyrics | src/routes/index.tsx:127-141 | Nothing changes when no selected id names a line. Otherwise the range becomes `BatchRange` and looping is on. The selection is kept. |
| Session.BatchRange | src/routes/index.tsx:127-141 | No contract of its own. It is the source's computation: the selected lines sorted by start, with the first start and the last line's end. `Session.BatchRangeMeaning` and `Session.BatchEndTieBreak` characterize it. |
| Session.BatchRangeMeaning | src/routes/index.tsx:127-141 | The range is unset if and only if no line is selected. Its start is the earliest start of a selected line. Its end is the end of a selected line that has the latest start, which need not be the latest end. |
| Session.BatchEndTieBreak | src/routes/index.tsx:134-139 | Among selected lines that share the latest start, the end comes from the last one in list order, because the sort is stable. |
| Session.BatchRangeOrderFree | src/routes/index.tsx:127-141 | The range depends on which ids are selected and not on the order they were selected in. |
| Session.BatchScenario | src/routes/index.tsx:127-141 | Lines at 1000, 5000 and 3000 ms, selected in either order, loop from 1000 to the end of the 5000 line. |
| Session.ToggleSelection | src/routes/index.tsx:143-151 | The id is selected afterwards if and only if it was not before. The other ids, and their order, are unchanged. |
| Session.ToggleKeepsDistinct | src/routes/index.tsx:143-151 | Toggling never selects an id twice. |
| Session.ToggleTwice | src/routes/index.tsx:143-151 | Toggling an unselected id twice gives back the original selection. |
| Session.Page.ToggleLyricSelection | src/routes/index.tsx:143-151 | The selection becomes `ToggleSelection` of the old one; the loop and the lines are untouched. |
| Session.Page.ClearSelection | src/routes/index.tsx:153-156 | Empty selection and multi-select off; the range and the loop switch are left as they were. |
| Session.Page.ClearLoop | src/routes/index.tsx:158-164 | No bounds, looping off, empty selection, multi-select off. |
| Session.Page.ToggleLooping | src/routes/index.tsx:398 | The loop switch flips; the bounds, the selection and the song are untouched. |
| Session.Page.ToggleMultiSelect | src/routes/index.tsx:388 | The multi-select switch flips; the loop, the selection and the song are untouched. |
| Session.MarkStart | src/routes/index.tsx:229-234 | Start is `t`. The end is kept when it is set and later than `t`, and is `t + 10000` otherwise. Afterwards start < end. |
| Session.Page.SetLoopStartAtCurrentTime | src/routes/index.tsx:229-234 | The bounds become `MarkStart` of the clock's last reading, so start < end. The loop switch is untouched. |
| Session.MarkEnd | src/routes/index.tsx:236-241 | End is `t`. The start is kept when it is set and earlier than `t`, and is `max(0, t - 10000)` otherwise. Afterwards start < end whenever `t > 0`. |
| Session.MarkEndAtZero | src/routes/index.tsx:236-241 | Marking the end at 0 with no start gives the range (0, 0), which never seeks. |
| Session.Page.SetLoopEndAtCurrentTime | src/routes/index.tsx:236-241 | The bounds become `MarkEnd` of the clock's last reading. The loop switch is untouched. |
| Session.Page.HandleLyricsChange | src/routes/index.tsx:44-47 | The page and the song both take the new lines. |
| Session.Page.HandleVideoIdChange | src/routes/index.tsx:49-59 | A different video id clears the lines, the loop and the selection; the same id keeps all of them. |
| Session.Page.HandleSongDetailsChange | src/routes/index.tsx:61-63 | Only the named field of the song changes. |
| Session.Page.LoadSampleData | src/routes/index.tsx:65-77 | The sample song with its video and no lines. The loop and the selection are left alone. |
| Session.Page.StartNewSong | src/routes/index.tsx:79-92 | A new song whose id comes from the clock stamp, with no lines, no video, no loop and no selection. |
| Session.Page.HandleLyricClick | src/routes/index.tsx:40-42 | A click seeks the player to the line's start, when the widget is ready. |
| Session.Page.Tick | src/routes/index.tsx:28-38 | Each reading goes to the hook with the page's loop range and switch. |
| Session.Page.OnVideoInput | src/routes/index.tsx:320-325 | The video field holds the id extracted from the typed text. |
| VideoIds.ExtractVideoId | src/routes/index.tsx:320-325 | No contract of its own: the id after the leftmost marker, or the text as typed. `VideoIds.MarkerThenId` and `VideoIds.PlainIdUnchanged` characterize it. |
| VideoIds.MarkerThenId | src/routes/index.tsx:323-324 | Text made of any of the three markers followed by an id gives that id, which ends at the first `&`, `?`, `#` or newline. |
| VideoIds.PlainIdUnchanged | src/routes/index.tsx:323-324 | Text with none of the markers is returned unchanged. |
| VideoIds.IdAfter | src/routes/index.tsx:323-324 | A found id follows its marker, is non-empty, is made of id characters, and runs as far as id characters go. |
| VideoIds.FirstMatchAt | src/routes/index.tsx:323-324 | The search returns the match at the leftmost position that has one. |
| TimeFormat.FormatThenParse | src/components/LyricsEditor.tsx:26-46 | Parsing a formatted time gives back `ms - ms % 10` for every non-negative `ms`. |
| TimeFormat.TimeInputFields | src/components/LyricsEditor.tsx:26-46 | The parser reads the formatted time back as its minutes, its seconds (0..59) and its centiseconds `(ms % 1000) / 10`. |
| TimeFormat.TimeInputInjective | src/components/LyricsEditor.tsx:26-34 | Two non-negative times share a `MM:SS.CC` text if and only if they agree down to the centisecond. |
| TimeFormat.JsRem | src/components/LyricsEditor.tsx:29-30 | JavaScript's `%`: the mathematical remainder for a non-negative left side, and always strictly between `-b` and `b`. |
| TimeFormat.FormatTimeInput | src/components/LyricsEditor.tsx:26-34 | No contract of its own. `TimeFormat.TimeInputFields`, `TimeFormat.FormatThenParse` and `TimeFormat.TimeInputInjective` characterize it. |
| TimeFormat.ParseTimeInput | src/components/LyricsEditor.tsx:36-46 | 0 whenever the text does not split on ':' into exactly two parts. |
| TimeFormat.TimeFields | src/components/LyricsEditor.tsx:37-43 | The three numbers are read only when the text splits on ':' into exactly two parts; otherwise there are none, which is the early return of 0. `TimeFormat.TimeInputFields` shows they are the minutes, seconds and centiseconds the editor's own text was made from. |
| TimeFormat.FormatClock | src/routes/index.tsx:94-99 | No contract of its own; `TimeFormat.ClockThenParse` shows it keeps the whole seconds. |
| TimeFormat.FormatClockMillis | src/routes/new.tsx:30-36 | No contract of its own; `TimeFormat.ClockMillisLossless` and `TimeFormat.ClockMillisInjective` characterize it. |
| TimeFormat.ClockThenParse | src/routes/index.tsx:94-99 | The page's `M:SS` clock, read by the editor's parser, gives the whole seconds `ms - ms % 1000`. |
| TimeFormat.ClockMillisLossless | src/routes/index.tsx:101-107 | The `M:SS.mmm` label's minutes, seconds and milliseconds add back up to the time. |
| TimeFormat.ClockMillisInjective | src/routes/new.tsx:30-36 | Different non-negative times never share an `M:SS.mmm` label. |
| Lines.SortByStart | src/routes/new.tsx:59 | The sort yields a list sorted by start time with the same lines, counted with multiplicity. |
| Lines.SortStable | src/routes/new.tsx:59 | Lines with equal start times keep their relative order. |
| Lines.SortSorted | src/routes/new.tsx:273 | Sorting a sorted list changes nothing. |
| Recorder.CurrentLyric | src/routes/new.tsx:360-364 | The active line is the first line, in list order, whose range holds `t`, or none. |
| Recorder.SharedBoundary | src/routes/new.tsx:360-364 | When line a ends at 1000 and line b starts at 1000, time 1000 resolves to a. |
| Recorder.IndexOfId | src/routes/new.tsx:122 | `findIndex` by id: the first index holding the id, or -1 if and only if no line has it. |
| Recorder.PreviousTarget | src/routes/new.tsx:116-134 | No contract of its own; `Recorder.PreviousFromActive`, `Recorder.TargetsBetweenLines` and `Recorder.PreviousOnFirstLine` characterize it. |
| Recorder.NextTarget | src/routes/new.tsx:136-154 | No contract of its own; `Recorder.NextFromActive` and `Recorder.TargetsBetweenLines` characterize it. |
| Recorder.PreviousFromActive | src/routes/new.tsx:116-134 | When no two lines share an id, and the active line is at index `i`, "previous" targets line `i - 1` and does nothing at `i = 0`. With repeated ids this can fail; see `Recorder.TargetsFromFirstId`. |
| Recorder.NextFromActive | src/routes/new.tsx:136-154 | When no two lines share an id, and the active line is at index `i`, "next" targets line `i + 1` and does nothing at the last line. With repeated ids this can fail; see `Recorder.TargetsFromFirstId`. |
| Recorder.TargetsFromFirstId | src/routes/new.tsx:116-154 | For any ids, with an active line, let `k` be the first index holding the active line's id (`k` is at most the active index). "Previous" targets line `k - 1`, and nothing when `k = 0`. "Next" targets line `k + 1`, and nothing when `k` is the last index. |
| Recorder.RepeatedIdScenario | src/routes/new.tsx:116-154 | Take lines `x`@0-1000, `y`@1000-2000 and `x`@2000-3000 at t = 2500. The active line is index 2, but "previous" does nothing and "next" targets 1000, because the id `x` is found first at index 0. |
| Recorder.TargetsBetweenLines | src/routes/new.tsx:116-154 | With no active line, "previous" and "next" target the nearest start before and after `t`. |
| Recorder.LatestStartBefore | src/routes/new.tsx:126-133 | None if and only if no line starts before `t`. Otherwise it is the largest start that is below `t`. |
| Recorder.EarliestStartAfter | src/routes/new.tsx:146-153 | None if and only if no line starts after `t`. Otherwise it is the smallest start that is above `t`. |
| Recorder.PreviousOnFirstLine | src/routes/new.tsx:123 | "Previous" on the first line never wraps round, even when ids repeat. |
| Recorder.RecorderPage.JumpToPreviousLyric | src/routes/new.tsx:116-134 | One seek to `PreviousTarget` when there is one and the widget is ready; otherwise nothing. |
| Recorder.RecorderPage.JumpToNextLyric | src/routes/new.tsx:136-154 | One seek to `NextTarget` when there is one and the widget is ready; otherwise nothing. |
| Recorder.JumpBackwardTarget | src/routes/new.tsx:106-109 | `max(0, t - 100)`. |
| Recorder.JumpForwardTarget | src/routes/new.tsx:111-114 | `min(duration, t + 100)`. |
| Recorder.RecorderPage.JumpBackward | src/routes/new.tsx:106-109 | A seek to `JumpBackwardTarget` of the clock, when the widget is ready. |
| Recorder.RecorderPage.JumpForward | src/routes/new.tsx:111-114 | A seek to `JumpForwardTarget` of the clock and the duration, when the widget is ready. |
| Recorder.RecorderPage.JumpToLyric | src/routes/new.tsx:102-104 | A seek to the given start, when the widget is ready. |
| Recorder.RecordedLine | src/routes/new.tsx:49-56 | The trimmed text. Start is the marked start, else the clock. End is the clock when that is past the start, else start + 3000, so end > start. |
| Recorder.AddedList | src/routes/new.tsx:47-62 | No change if and only if the text is blank. Otherwise the list is sorted and one line longer. |
| Recorder.AddedListContents | src/routes/new.tsx:47-62 | The new list is the old lines plus the recorded line, counted with multiplicity. |
| Recorder.AddedListPlacement | src/routes/new.tsx:59 | In a sorted list the recorded line goes after every line that starts no later. |
| Recorder.RecorderPage.AddLyric | src/routes/new.tsx:47-62 | Blank text changes nothing. Otherwise the list becomes `AddedList`, and the text and the marked start are cleared. The list stays sorted. |
| Recorder.RecorderPage.MarkStartTime | src/routes/new.tsx:64-66 | The next line's start is the clock's present reading. |
| Recorder.RecorderPage.EditLyric | src/routes/new.tsx:68-72 | The line is being edited; its text and start are loaded into the inputs. |
| Recorder.EditedLine | src/routes/new.tsx:78-85 | The edited line keeps its id and gets the trimmed text, the marked or the old start, and an end after that start. |
| Recorder.UpdatedList | src/routes/new.tsx:74-94 | No change if and only if nothing is being edited or the text is blank. Otherwise the list is sorted and as long as before. |
| Recorder.UpdatedListMembers | src/routes/new.tsx:74-94 | The new list holds the same lines, counted with multiplicity, as the list with the edited line in place. Every line with another id is kept and nothing else is added. The edited line is present when its id named a line. |
| Recorder.ReplaceById | src/routes/new.tsx:86-88 | Every line with the id is the edited line; the rest are unchanged, in place. |
| Recorder.RecorderPage.UpdateLyric | src/routes/new.tsx:74-94 | The list becomes `UpdatedList` and the inputs are cleared; with no edit or blank text nothing changes. The list stays sorted. |
| Recorder.RecorderPage.CancelEdit | src/routes/new.tsx:96-100 | No line is being edited and the inputs are empty. |
| Recorder.RecorderPage.HandleVideoLoad | src/routes/new.tsx:38-45 | A non-blank video field is replaced by the id found in it. |
| Recorder.RecorderPage.TypeVideoId | src/routes/new.tsx:384 | The video field holds the typed text; nothing else changes. |
| Recorder.RecorderPage.constructor | src/routes/new.tsx:9-16 | The initial recording page: an empty video field, no lines, an empty text box, no marked start, no line being edited, and a fresh player with no widget and no command issued. |
| Recorder.RecorderPage.TypeText | src/routes/new.tsx:625 | The lyric text box holds the typed text; nothing else changes. |
| Recorder.RecorderPage.Tick | src/routes/new.tsx:28 | The page runs the hook without a loop, so no reading ever seeks. |
| Recorder.ExportRecord | src/routes/new.tsx:163-172 | A record keeps the line's id, text, start and end, and its duration is end - start. |
| Recorder.ExportRecords | src/routes/new.tsx:163-172 | No contract of its own; `Recorder.ExportRecordsShape` characterizes it. |
| Recorder.ExportDocument | src/routes/new.tsx:157-179 | No contract of its own; `Recorder.ExportDocumentShape` characterizes it. |
| Recorder.ExportRecordsShape | src/routes/new.tsx:163-172 | One record per line, in order, with id, text, times and duration end - start. |
| Recorder.ExportDocumentShape | src/routes/new.tsx:157-179 | The document names the video, holds the records, and its `totalLyrics` is the number of lines. |
| Recorder.LoadLyric | src/routes/new.tsx:266-271 | The id is kept when non-empty, else made from the position and the clock stamp. A missing text is `""`. A missing or 0 start is 0. The end agrees with the source's `endTime \|\| startTime + 3000` whenever that is a number. Where the source gets NaN (no end and no start), the line ends at 3000 instead; see "## Left out". |
| Recorder.LoadedEndAsWritten | src/routes/new.tsx:270 | As written, the end is NaN exactly when both the end and the start are missing or 0-ended. |
| Recorder.LoadedEnd | src/routes/new.tsx:270 | A missing or 0 end falls back to the defaulted start + 3000, which is after the start. |
| Recorder.NoTimesGivesNaN | src/routes/new.tsx:270 | A record with neither time gets end NaN as written, and 3000 with the defaulted start. |
| Recorder.EndAgreesWithStart | src/routes/new.tsx:270 | Whenever the record has a start time, the as-written and the corrected ends agree. |
| Recorder.GivenVideoId | src/routes/new.tsx:261-263 | The song's video id exactly when it is given and non-empty. |
| Recorder.NullItemKeepsVideoId | src/routes/new.tsx:261-271 | The document `{song: {youtubeVideoId: "abc"}, lyrics: [null]}` passes the structure check, has a `null` element and gives the video id "abc", so the load fails after the id is taken. |
| Recorder.Records | src/routes/new.tsx:266 | The records of an array with no `null` element, one per element, in order. |
| Recorder.LoadLyricsFrom | src/routes/new.tsx:266-271 | No contract of its own. It is the `map` over the records, with each line given by `Recorder.LoadLyric` at its position. `Recorder.LoadRecords` and `Recorder.LoadedFallbackIdsDistinct` characterize it. |
| Recorder.FallbackIdsDiffer | src/routes/new.tsx:267 | For one clock reading, the fallback ids `loaded-<index>-<stamp>` of two different positions differ. |
| Recorder.LoadedFallbackIdsDistinct | src/routes/new.tsx:266-267 | Among the loaded lines, any two whose records carry no id get different ids, because each fallback id holds its record's position. |
| Recorder.RecorderPage.LoadFromJsonText | src/routes/new.tsx:251-286 | Success if and only if the text parses with a song and a lyrics array that has no `null` element. Past the structure check, a given video id is taken even when a `null` element then makes the load fail. Failure otherwise changes nothing and gives the error message. Success sets the sorted loaded lines (ends as in `LoadLyric`), clears the inputs and reports the count. |
| Recorder.LoadRecords | src/routes/new.tsx:266-271 | Loading the records of a list whose ids are non-empty and whose ends are non-zero gives back the list. |
| Recorder.ExportThenLoad | src/routes/new.tsx:157-286 | Loading an export of a sorted list (non-empty ids, non-zero ends) gives back exactly that list, with the same video. |
| Editor.NewEditorLine | src/components/LyricsEditor.tsx:51-56 | The new line starts at the clock, lasts 3000 ms and has the trimmed text. |
| Editor.AddNewLyric | src/components/LyricsEditor.tsx:48-61 | No change if and only if the text is blank. Otherwise the list is sorted, one line longer, and holds the old lines plus the new line. |
| Editor.AddNewLyricPlacement | src/components/LyricsEditor.tsx:58 | In a sorted list the new line goes after every line starting no later. |
| Editor.EditorPanel.constructor | src/components/LyricsEditor.tsx:23-24 | The panel starts with no line being edited and an empty text box. |
| Editor.EditorPanel.AddNewLyricAt | src/components/LyricsEditor.tsx:48-61 | The panel hands back `AddNewLyric` and empties its text box when a line was added. |
| Editor.EditorPanel.SetNewLyricText | src/components/LyricsEditor.tsx:103 | The text box holds the typed text; the editing marker is untouched. |
| Editor.EditorPanel.UseCurrentTime | src/components/LyricsEditor.tsx:94 | The "current time" button leaves the text box as it is. |
| Editor.EditorPanel.StartEditing | src/components/LyricsEditor.tsx:237 | The line with the id is being edited. |
| Editor.EditorPanel.StopEditing | src/components/LyricsEditor.tsx:199-205 | No line is being edited. |
| Editor.UpdateLyric | src/components/LyricsEditor.tsx:63-68 | The length and the ids are kept. Lines with the id get the new field value, and the others are unchanged. |
| Editor.UpdateCanUnsort | src/components/LyricsEditor.tsx:63-68 | Nothing is re-sorted: moving a start can leave a sorted list out of order. |
| Editor.UpdateCanInvert | src/components/LyricsEditor.tsx:63-68 | Nothing is checked: an edited end can come before its start. |
| Editor.DeleteLyric | src/components/LyricsEditor.tsx:70-73 | Exactly the lines without the id remain: each line without the id keeps its number of occurrences, and lines with the id occur 0 times. |
| Editor.DeleteAppend | src/components/LyricsEditor.tsx:70-73 | Deleting works piece by piece, so the kept lines stay in their order. |
| Editor.DeleteAbsent | src/components/LyricsEditor.tsx:70-73 | An id no line has leaves the list unchanged. |
| Editor.DeleteIdempotent | src/components/LyricsEditor.tsx:70-73 | Deleting twice is deleting once. |
| Display.CurrentLyricIndex | src/components/LyricsDisplay.tsx:29-33 | The smallest index whose range holds `t`, or -1 if and only if no line holds it. |
| Display.IsInLoopRange | src/components/LyricsDisplay.tsx:45-48 | False unless both bounds are set; then true if and only if the line lies inside them. |
| Display.IsPassed | src/components/LyricsDisplay.tsx:78 | No contract of its own: the clock is beyond the line's end. `Display.CurrentNotPassed` and `Display.EarlierLinesPassed` relate it to the playing line. |
| Display.CurrentNotPassed | src/components/LyricsDisplay.tsx:29-78 | The playing line is never also shown as passed. |
| Display.EarlierLinesPassed | src/components/LyricsDisplay.tsx:76-78 | In a sorted list every line before the playing one is passed. |
| Display.Click | src/components/LyricsDisplay.tsx:81-87 | A click toggles the line's selection if and only if multi-select is on. Otherwise it seeks to the line's start. |
| SampleData.SampleSongsWellTimed | src/utils/sampleData.ts:3-127 | Each sample song's lines are sorted, end after they start, and never overlap. |
| SampleData.ChainedSorted | src/utils/sampleData.ts:3-127 | Lines that each end no later than the next starts are sorted and pairwise non-overlapping. |
| SampleData.ExportLyrics | src/utils/sampleData.ts:138-158 | The song's lines are sorted in place by start time, and the text is the header, the link, a blank line and one stamped line per sorted line. |
| SampleData.ExportStamp | src/utils/sampleData.ts:139-150 | No contract of its own. The export's `formatTime` is the editor's `formatTimeInput` (src/components/LyricsEditor.tsx:26-34) in brackets. `SampleData.ExportStampReadsBack` characterizes it. |
| SampleData.ExportStampReadsBack | src/utils/sampleData.ts:139-150 | For every time of 0 or more, the stamp is `[`, a time field and `]`. The editor's parser reads the bracketed field back as the time down to the centisecond. |
| SampleData.ExportLine | src/utils/sampleData.ts:152-155 | No contract of its own; `TextRoundTrip.MatchExportLine` and `TextRoundTrip.LateLineDropped` say what the importer reads from it. |
| SampleData.ExportText | src/utils/sampleData.ts:157 | No contract of its own; `TextRoundTrip.ExportedTextLines` and `TextRoundTrip.ExportThenImport` characterize it. |
| SampleData.ImportLyrics | src/utils/sampleData.ts:160-199 | The loop's result is the fold of `ImportStep` over the non-blank lines. |
| SampleData.ImportLine | src/utils/sampleData.ts:167-196 | One pass: a header line sets title and artist, a link line sets the id when found, a stamped line appends a lyric, and any other line changes nothing. |
| SampleData.MinuteWidth | src/utils/sampleData.ts:186 | The minutes group takes one or two digits followed by `:`. |
| SampleData.TailFrom | src/utils/sampleData.ts:186 | The text group is non-empty and has no line terminator. |
| SampleData.MatchTimestamp | src/utils/sampleData.ts:185-195 | No contract of its own. It is the pattern `^\[(\d{1,2}):(\d{2})\.(\d{2})\]\s*(.+)$` and the start time `(minutes * 60 + seconds) * 1000 + centiseconds * 10`. `SampleData.TimestampReading`, `SampleData.TimestampByHand`, `TextRoundTrip.MatchExportLine` and `TextRoundTrip.LateLineDropped` characterize it. |
| SampleData.TimestampReading | src/utils/sampleData.ts:185-195 | For any line, exported or typed by hand, a match means the line begins with `[`. The text it reads is non-empty and has no line terminator. The start time is a multiple of 10 between 0 and 6039990 (99:99.99). |
| SampleData.TimestampByHand | src/utils/sampleData.ts:185-195 | `[1:05.50]  hi` reads as 65500 ms and `hi`: one minute digit is accepted and the extra white space is skipped. `[1:5.50] hi` does not match, because seconds need two digits. |
| SampleData.NonBlank | src/utils/sampleData.ts:161 | No kept line is blank. |
| TextRoundTrip.MatchExportLine | src/utils/sampleData.ts:139-195 | A stampable line reads back as its text, with its start time down to the centisecond. Stampable means the start is under 100 minutes and the text is one non-empty line that does not start with white space. |
| TextRoundTrip.LateLineDropped | src/utils/sampleData.ts:139-186 | A line starting at 100 minutes or later gets a three-digit minute stamp, and the import drops it. |
| TextRoundTrip.ImportHeader | src/utils/sampleData.ts:169-174 | For a title and an artist the format can carry, the header line sets exactly the title and the artist. Both must be trimmed, contain no line break and no ` - `. The title also must not end with ` -` or start with `[`. |
| TextRoundTrip.ImportLink | src/utils/sampleData.ts:177-183 | For a non-empty id made of id characters (no `&`, `?`, `#`, line break or space), the link line sets exactly the video id and is never taken as a lyric. |
| TextRoundTrip.ExportedTextLines | src/utils/sampleData.ts:157-161 | The importer keeps the header, the link and one line per lyric, and drops the empty line. This holds when the title and artist have no line break, the id is as for `TextRoundTrip.ImportLink`, and every line is exportable. Exportable means stampable with no link marker in the text. |
| TextRoundTrip.ImportExportLines | src/utils/sampleData.ts:186-195 | When every line is exportable (stampable with no link marker in the text), the exported lyric lines are appended in export order, each with its text and its start down to the centisecond. |
| TextRoundTrip.ExportThenImport | src/utils/sampleData.ts:138-199 | Export then import gives back the title, the artist, the video id and each sorted line's text with `start - start % 10`. |

## Left out

- The widget component (`src/components/YouTubePlayer.tsx`) is not part of this model. That covers loading the iframe script, building and destroying the widget, and the 50 ms poll. Clock readings arrive as integer milliseconds.
- The conversions between seconds and milliseconds around the widget are floating point. `PlayerHook.PlayerController.SeekTo` takes milliseconds, and `HandlePlayerReady` takes the duration as a given integer.
- A widget call that throws is caught in the source. Here the command is appended to `issued`; throwing is not modelled.
- `JSON.parse` and `JSON.stringify` are not modelled. `Recorder.RecorderPage.LoadFromJsonText` takes the parsed document, with None for text that is not JSON. `Recorder.Reparse` stands for stringify-then-parse of an export.
- Fields of a parsed line record that hold `null` or a wrong type are not modelled. A field is either present with its type or absent. A `null` element of the array is modelled, because reading its fields throws; any other element that is not an object reads as a record with every field absent.
- The formatted strings of an export record (`startTimeFormatted` and the like) are computed but not read back. Their `M:SS.mmm` form is covered by `TimeFormat.ClockMillisLossless`.
- Clipboard, Blob download, FileReader and `alert` are I/O and are left out. `LoadFromJsonText` returns its message instead of showing it.
- `Date.now()` and `toISOString()` are parameters: `stamp` for ids, `exportedAt` for the export time. `Recorder.LoadLyricsFrom` uses one `stamp` for every record, where the source reads the clock once per record (src/routes/new.tsx:267). Distinct fallback ids do not depend on this, because each one holds its record's position (`Recorder.LoadedFallbackIdsDistinct`).
- Keyboard shortcuts and the rest of the page markup are not modelled (`src/routes/new.tsx:310-358`), nor are the progress bar and CSS classes.
- The theme context, the base-path helper and the build configuration hold no tracker logic and are left out.
- React batches state updates. Each handler is modelled as one sequential update of the fields, reading the values it had at entry.
- `parseInt` is modelled on the digit texts the round trips produce, with exact integers. Number precision beyond 2^53 is not modelled.
- Recorder.LoadLyric: for a record with neither an end nor a start time, the source stores the end `undefined + 3000`, NaN (`src/routes/new.tsx:270`). Lines hold integer times, so `LoadLyric`, and with it `Recorder.RecorderPage.LoadFromJsonText`, store the corrected end 3000 instead. The model does not capture a NaN end, nor how such a line then compares in the sort, the active-line lookup and the display. `Recorder.LoadedEndAsWritten` keeps the as-written end, and `LoadLyric` agrees with it whenever it is a number.
- Recorder.ExportThenLoad: requires non-empty ids and non-zero end times. The loader replaces an empty id and a 0 end with defaults, so those lines do not come back unchanged.
- TextRoundTrip.ExportThenImport: requires fields the text format can carry: no ` - `, no link marker and no line break in the fields, non-blank texts that do not start with white space, and starts under 100 minutes. `TextRoundTrip.LateLineDropped` shows what happens past 100 minutes.

## Findings

| source | as written | input that shows it | evidently intended | confidence | as-written member | corrected member |
|---|---|---|---|---|---|---|
| src/routes/new.tsx:270 | `endTime: lyric.endTime \|\| lyric.startTime + 3000` uses the raw `startTime`, not the one defaulted to 0 on the line above | a record `{id: "x", text: "la"}` with neither time: the end becomes `undefined + 3000`, NaN | a missing end falls back to the defaulted start + 3000, i.e. 3000 | not executed | Recorder.LoadedEndAsWritten (shown by Recorder.NoTimesGivesNaN) | Recorder.LoadedEnd |
