/** The parts of Chess.com's public API responses that the chess tools read. A JSON key that
    may be missing is an `Option`; an HTTP call's outcome is a `Fetch`. */
module ChessCom {
  import opened Wrappers

  /** The outcome of one HTTP GET: the decoded body of a 200 answer, another status, or an
      exception with its text. */
  datatype Fetch<+T> = Fetched(body: T) | BadStatus | Failed(error: string)

  /** One side of a game: the keys read from the `white`/`black` object and the object's
      printed (Python `str`) form. */
  datatype Side = Side(username: Option<string>, result: Option<string>, printed: string)

  /** One game of a monthly archive. An absent or empty `eco` is `None` or `Some("")`. */
  datatype ArchiveGame = ArchiveGame(
    pgn: Option<string>, white: Option<Side>, black: Option<Side>, eco: Option<string>,
    endTime: Option<int>, timeControl: Option<string>)

  /** A time control's `record` object. */
  datatype Record = Record(win: Option<int>, loss: Option<int>, draw: Option<int>)

  /** A `last` or `best` object. */
  datatype RatingPoint = RatingPoint(rating: Option<int>)

  /** The object a stats response holds for one time control. */
  datatype ControlStats = ControlStats(last: Option<RatingPoint>, best: Option<RatingPoint>, record: Option<Record>)

  /** A stats response: time-control key to its object. */
  type Stats = map<string, ControlStats>

  /** A profile response. */
  datatype Profile = Profile(
    username: Option<string>, status: Option<string>, followers: Option<int>,
    location: Option<string>, joined: Option<int>, lastOnline: Option<int>)

  /** The time controls the tools read, in order, each with its key once "chess_" is removed. */
  const Controls: seq<(string, string)> :=
    [("chess_rapid", "rapid"), ("chess_blitz", "blitz"), ("chess_bullet", "bullet"), ("chess_daily", "daily")]

  const PlayerBase := "https://api.chess.com/pub/player/"
}
