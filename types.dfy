/** The shared record types of the lyric tracker and the player-state codes of the
    embedded video widget. Times are integer milliseconds. */
module Types {

  datatype Option<+T> = None | Some(value: T) {
    function GetOr(default: T): T {
      match this
      case Some(v) => v
      case None => default
    }
  }

  /** One timed lyric line; `endTime > startTime` is intended but not enforced everywhere. */
  datatype LyricLine = LyricLine(id: string, startTime: int, endTime: int, text: string)

  datatype Song = Song(id: string, title: string, artist: string, youtubeVideoId: string, lyrics: seq<LyricLine>)

  /** Player states reported by the widget. */
  const UNSTARTED: int := -1
  const ENDED: int := 0
  const PLAYING: int := 1
  const PAUSED: int := 2
  const BUFFERING: int := 3
  const CUED: int := 5

  /** Concatenation groups either way. */
  lemma AppendAssoc<T>(a: seq<T>, b: seq<T>, c: seq<T>)
    ensures a + (b + c) == (a + b) + c
  {
  }

  /** A non-empty sequence is its front followed by its last element. */
  lemma FrontThenLast<T>(s: seq<T>)
    requires s != []
    ensures s == s[..|s| - 1] + [s[|s| - 1]]
  {
  }

  /** The time range of `line` contains `t`, both ends included. */
  predicate Covers(line: LyricLine, t: int) {
    t >= line.startTime && t <= line.endTime
  }
}
