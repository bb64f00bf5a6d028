/** The LangGraph chess tools: the player statistics text, the single-PGN analysis text and the
    recent-games text. HTTP answers are inputs (`Fetch` values, or a function from URL to
    answer), and so is the current date. */
module ChessTools {
  import opened Wrappers
  import opened Text
  import opened Sorting
  import opened ChessParsers
  import opened ChessCom

  // ---------------------------------------------------------------- player statistics

  /** One rated time control of `get_player_stats`: its short name, `last.rating` and the
      number of games in its record. */
  datatype RatingEntry = RatingEntry(name: string, rating: int, games: int)

  /** The entry for one time control present with a `last` object; a missing `rating`,
      `record`, `win`, `loss` or `draw` raises the `KeyError` for that key, in that order. */
  function EntryOf(name: string, c: ControlStats): Outcome<RatingEntry>
    requires c.last.Some?
  {
    if c.last.value.rating.None? then Raised("'rating'")
    else if c.record.None? then Raised("'record'")
    else if c.record.value.win.None? then Raised("'win'")
    else if c.record.value.loss.None? then Raised("'loss'")
    else if c.record.value.draw.None? then Raised("'draw'")
    else
      var rec := c.record.value;
      Done(RatingEntry(name, c.last.value.rating.value, rec.win.value + rec.loss.value + rec.draw.value))
  }

  /** A time control that gets an entry: present in the stats with a `last` object. */
  predicate HasLast(stats: Stats, c: (string, string)) {
    c.0 in stats && stats[c.0].last.Some?
  }

  /** The entries over the given controls, in their order; the first failing entry raises. */
  function RatingEntriesOf(stats: Stats, controls: seq<(string, string)>): Outcome<seq<RatingEntry>> {
    if controls == [] then Done([])
    else
      var c := controls[|controls| - 1];
      match RatingEntriesOf(stats, controls[..|controls| - 1])
      case Raised(e) => Raised(e)
      case Done(entries) =>
        if HasLast(stats, c) then
          match EntryOf(c.1, stats[c.0])
          case Raised(e) => Raised(e)
          case Done(entry) => Done(entries + [entry])
        else Done(entries)
  }

  /** The entries are exactly those of the controls with `last`, each with games
      win + loss + draw; they fail exactly when one of those controls lacks a key. */
  lemma {:induction false} RatingEntriesSpec(stats: Stats, controls: seq<(string, string)>)
    ensures RatingEntriesOf(stats, controls).Raised? <==>
      exists c :: c in controls && HasLast(stats, c) && EntryOf(c.1, stats[c.0]).Raised?
    ensures RatingEntriesOf(stats, controls).Done? ==>
      && |RatingEntriesOf(stats, controls).value| <= |controls|
      && (forall c :: c in controls && HasLast(stats, c) ==>
            EntryOf(c.1, stats[c.0]).Done? && EntryOf(c.1, stats[c.0]).value in RatingEntriesOf(stats, controls).value)
      && (forall e :: e in RatingEntriesOf(stats, controls).value ==>
            exists c :: c in controls && HasLast(stats, c) && EntryOf(c.1, stats[c.0]) == Done(e))
  {
    if controls != [] {
      RatingEntriesSpec(stats, controls[..|controls| - 1]);
      assert forall d :: d in controls <==> d in controls[..|controls| - 1] || d == controls[|controls| - 1];
    }
  }

  /** A complete entry counts every game of the record. */
  lemma EntryGames(name: string, c: ControlStats)
    requires c.last.Some? && EntryOf(name, c).Done?
    ensures var e := EntryOf(name, c).value;
      && e.name == name && Some(e.rating) == c.last.value.rating
      && e.games == c.record.value.win.value + c.record.value.loss.value + c.record.value.draw.value
  {
  }

  /** The loop that fills `current_ratings`. */
  method RatingEntries(stats: Stats) returns (r: Outcome<seq<RatingEntry>>)
    ensures r == RatingEntriesOf(stats, Controls)
  {
    var entries: seq<RatingEntry> := [];
    for i := 0 to |Controls|
      invariant RatingEntriesOf(stats, Controls[..i]) == Done(entries)
    {
      assert Controls[..i + 1][..i] == Controls[..i];
      var c := Controls[i];
      if c.0 in stats && stats[c.0].last.Some? {
        var entry := EntryOf(c.1, stats[c.0]);
        if entry.Raised? {
          EntriesRaisedStay(stats, Controls, i + 1);
          assert Controls[..|Controls|] == Controls;
          return Raised(entry.error);
        }
        entries := entries + [entry.value];
      }
    }
    assert Controls[..|Controls|] == Controls;
    return Done(entries);
  }

  /** Once a prefix of the controls raises, every longer prefix raises the same error. */
  lemma {:induction false} EntriesRaisedStay(stats: Stats, controls: seq<(string, string)>, i: nat)
    requires i <= |controls| && RatingEntriesOf(stats, controls[..i]).Raised?
    ensures RatingEntriesOf(stats, controls) == RatingEntriesOf(stats, controls[..i])
    decreases |controls| - i
  {
    if i < |controls| {
      assert controls[..i + 1][..i] == controls[..i];
      EntriesRaisedStay(stats, controls, i + 1);
    } else {
      assert controls[..i] == controls;
    }
  }

  function RatingLine(e: RatingEntry): string {
    "  " + Title(e.name) + ": " + IntToString(e.rating) + " (" + IntToString(e.games) + " games)"
  }

  function RatingLines(entries: seq<RatingEntry>): seq<string> {
    seq(|entries|, k requires 0 <= k < |entries| => RatingLine(entries[k]))
  }

  const NoRatings := "  No rating information available"

  /** The fixed head of the player text. */
  function ProfileLines(username: string, p: Profile): seq<string> {
    [ "Player: " + p.username.GetOr(username), "Status: " + p.status.GetOr("unknown"),
      "Location: " + p.location.GetOr("Unknown"), "Followers: " + IntToString(p.followers.GetOr(0)),
      "", "Current Ratings:" ]
  }

  /** The lines of the player text. */
  function PlayerLines(username: string, p: Profile, entries: seq<RatingEntry>): seq<string> {
    ProfileLines(username, p) + RatingLines(entries) + (if entries == [] then [NoRatings] else [])
  }

  /** One line per entry in entry order after the six head lines, or the single "no rating"
      line when there is no entry. */
  lemma PlayerLinesSpec(username: string, p: Profile, entries: seq<RatingEntry>)
    ensures var lines := PlayerLines(username, p, entries);
      && |lines| == 6 + (if entries == [] then 1 else |entries|)
      && (entries == [] ==> lines[6] == NoRatings)
      && (forall k :: 0 <= k < |entries| ==> lines[6 + k] == RatingLine(entries[k]))
  {
    var head := ProfileLines(username, p);
    var body := RatingLines(entries);
    var tail: seq<string> := if entries == [] then [NoRatings] else [];
    var lines := PlayerLines(username, p, entries);
    HeadThenBody(head, body, tail);
    assert lines == head + body + tail;
    forall k | 0 <= k < |entries| ensures lines[6 + k] == RatingLine(entries[k]) {
      assert lines[6 + k] == body[k];
    }
  }

  lemma HeadThenBody(head: seq<string>, body: seq<string>, tail: seq<string>)
    requires |head| == 6
    ensures var lines := head + body + tail;
      && |lines| == 6 + |body| + |tail|
      && (tail != [] ==> lines[6 + |body|] == tail[0])
      && (forall k :: 0 <= k < |body| ==> lines[6 + k] == body[k])
  {
  }

  lemma RatingLinesSnoc(entries: seq<RatingEntry>, i: nat)
    requires i < |entries|
    ensures RatingLines(entries[..i + 1]) == RatingLines(entries[..i]) + [RatingLine(entries[i])]
  {
    var a := RatingLines(entries[..i + 1]);
    var b := RatingLines(entries[..i]) + [RatingLine(entries[i])];
    assert |a| == |b| == i + 1;
    forall k | 0 <= k < i + 1 ensures a[k] == b[k] {
      assert entries[..i + 1][k] == entries[k];
    }
  }

  /** `get_player_stats` on the profile and stats answers. */
  function PlayerStats(username: string, profile: Fetch<Profile>, stats: Fetch<Stats>): string {
    var failure := "Error fetching player stats for " + username + ": ";
    match profile
    case Failed(e) => failure + e
    case BadStatus => "Player '" + username + "' not found on Chess.com"
    case Fetched(p) =>
      match stats
      case Failed(e) => failure + e
      case _ =>
        var s := if stats.Fetched? then stats.body else map[];
        match RatingEntriesOf(s, Controls)
        case Raised(e) => failure + e
        case Done(entries) => Join(PlayerLines(username, p, entries), '\n')
  }

  /** The line loop of `get_player_stats`: the head lines, one line per entry, then the
      "no rating" line when nothing was appended. */
  method BuildPlayerLines(username: string, p: Profile, entries: seq<RatingEntry>) returns (lines: seq<string>)
    ensures lines == PlayerLines(username, p, entries)
  {
    lines := ProfileLines(username, p);
    for i := 0 to |entries|
      invariant lines == ProfileLines(username, p) + RatingLines(entries[..i])
    {
      RatingLinesSnoc(entries, i);
      lines := lines + [RatingLine(entries[i])];
    }
    assert entries[..|entries|] == entries;
    if entries == [] {
      lines := lines + [NoRatings];
    }
  }

  /** The player statistics tool. */
  method GetPlayerStats(username: string, profile: Fetch<Profile>, stats: Fetch<Stats>) returns (text: string)
    ensures text == PlayerStats(username, profile, stats)
  {
    var failure := "Error fetching player stats for " + username + ": ";
    match profile {
      case Failed(e) => return failure + e;
      case BadStatus => return "Player '" + username + "' not found on Chess.com";
      case Fetched(p) =>
        if stats.Failed? {
          return failure + stats.error;
        }
        var s := if stats.Fetched? then stats.body else map[];
        var entries := RatingEntries(s);
        if entries.Raised? {
          return failure + entries.error;
        }
        var lines := BuildPlayerLines(username, p, entries.value);
        return Join(lines, '\n');
    }
  }

  /** Without a stats answer, or with one that has no rated control, the text says there
      is no rating information. */
  lemma NoStatsNoRatings(username: string, p: Profile, stats: Fetch<Stats>)
    requires stats.BadStatus? || (stats.Fetched? && forall c :: c in Controls ==> !HasLast(stats.body, c))
    ensures PlayerStats(username, Fetched(p), stats) == Join(PlayerLines(username, p, []), '\n')
  {
    NoRatedControls(if stats.Fetched? then stats.body else map[], Controls);
  }

  lemma {:induction false} NoRatedControls(s: Stats, controls: seq<(string, string)>)
    requires forall c :: c in controls ==> !HasLast(s, c)
    ensures RatingEntriesOf(s, controls) == Done([])
  {
    if controls != [] {
      NoRatedControls(s, controls[..|controls| - 1]);
      assert controls[|controls| - 1] in controls;
    }
  }

  // ---------------------------------------------------------------- single PGN analysis

  /** The text of the `AttributeError` raised by `game_data.get(...)` on a parsed game. */
  const NoGetAttribute := "'Game' object has no attribute 'get'"

  /** `analyze_pgn` as written: a game that parses reaches `game_data.get(...)`, which a
      parsed game object does not have, so the caught exception's text is returned. */
  function AnalyzePgnAsWritten(pgn: string, parse: string -> Option<Game>): string {
    match parse(pgn)
    case None => "Invalid PGN format or unable to parse the game"
    case Some(_) => "Error analyzing PGN: " + NoGetAttribute
  }

  /** As written, no game is ever analysed: every input gives one of two fixed texts. */
  lemma ParsedPgnNeverAnalysed(pgn: string, parse: string -> Option<Game>)
    ensures parse(pgn).None? ==> AnalyzePgnAsWritten(pgn, parse) == "Invalid PGN format or unable to parse the game"
    ensures parse(pgn).Some? ==> AnalyzePgnAsWritten(pgn, parse) == "Error analyzing PGN: " + NoGetAttribute
  {
  }

  function LengthName(c: GameLength): string {
    match c
    case Short => "short"
    case Medium => "medium"
    case Long => "long"
  }

  /** The analysis lines with the header values read from the game's headers. */
  function AnalysisLines(g: Game): seq<string> {
    var stats := StatsOf(g);
    [ "Chess Game Analysis", "====================", "",
      "White: " + Header(g, "White", "Unknown"), "Black: " + Header(g, "Black", "Unknown"),
      "Result: " + Header(g, "Result", "Unknown"), "Date: " + Header(g, "Date", "Unknown"),
      "Event: " + Header(g, "Event", "Unknown"), "",
      "Game Statistics:", "  Total moves: " + NatToString(stats.totalMoves),
      "  Game length: " + LengthName(stats.gameLength), "  Opening: " + stats.opening, "",
      "Key moments and critical positions were analyzed.",
      "The game shows typical patterns for this opening." ]
  }

  /** `analyze_pgn` as evidently intended: the parse-failure text, or the analysis lines. */
  function AnalyzePgn(pgn: string, parse: string -> Option<Game>): string {
    match parse(pgn)
    case None => "Invalid PGN format or unable to parse the game"
    case Some(g) => Join(AnalysisLines(g), '\n')
  }

  /** For a game that parses, the intended text is the analysis of that game (its players,
      move count and length bucket among the lines) and never the error text the code as
      written returns. */
  lemma AnalyzePgnReports(pgn: string, parse: string -> Option<Game>)
    requires parse(pgn).Some?
    ensures var g := parse(pgn).value;
      && AnalyzePgn(pgn, parse) == Join(AnalysisLines(g), '\n')
      && AnalyzePgn(pgn, parse) != AnalyzePgnAsWritten(pgn, parse)
    ensures var lines := AnalysisLines(parse(pgn).value);
      && |lines| == 16
      && lines[3] == "White: " + Header(parse(pgn).value, "White", "Unknown")
      && lines[4] == "Black: " + Header(parse(pgn).value, "Black", "Unknown")
      && lines[10] == "  Total moves: " + NatToString(|parse(pgn).value.moves|)
      && lines[11] == "  Game length: " + LengthName(LengthClass(|parse(pgn).value.moves|))
  {
    var lines := AnalysisLines(parse(pgn).value);
    assert Join(lines, '\n') == lines[0] + "\n" + Join(lines[1..], '\n');
    assert Join(lines, '\n')[0] == 'C';
    assert AnalyzePgnAsWritten(pgn, parse)[0] == 'E';
  }

  // ---------------------------------------------------------------- recent games

  /** The month `offset` months before (`year`, `month`), as the loop computes it: one
      step of wrap-around into the previous year. */
  function MonthBack(year: int, month: int, offset: nat): (int, int) {
    var m := month - offset;
    if m <= 0 then (year - 1, m + 12) else (year, m)
  }

  /** For a calendar month and an offset below 12, the result is a calendar month exactly
      `offset` months earlier. */
  lemma MonthBackSpec(year: int, month: int, offset: nat)
    requires 1 <= month <= 12 && offset < 12
    ensures 1 <= MonthBack(year, month, offset).1 <= 12
    ensures MonthBack(year, month, offset).0 * 12 + MonthBack(year, month, offset).1 == year * 12 + month - offset
  {
  }

  /** Python's `f"{m:02d}"`: zero-padded to two characters. */
  function Pad2(m: int): string {
    if 0 <= m < 10 then "0" + NatToString(m) else IntToString(m)
  }

  /** A calendar month prints as two digits that read back as the month. */
  lemma Pad2Spec(m: int)
    requires 1 <= m <= 12
    ensures |Pad2(m)| == 2
    ensures forall i :: 0 <= i < 2 ==> '0' <= Pad2(m)[i] <= '9'
    ensures DigitsValue(Pad2(m)) == m
  {
    NatToStringValue(m);
    if m < 10 {
      assert Pad2(m) == ['0', DigitChar(m)];
      assert Pad2(m)[..1] == ['0'];
    } else {
      assert NatToString(m) == NatToString(1) + [DigitChar(m % 10)];
    }
  }

  function MonthUrl(username: string, year: int, month: int): string {
    PlayerBase + username + "/games/" + IntToString(year) + "/" + Pad2(month)
  }

  /** The games of the month `k` months back, when it was fetched with a `games` key. */
  function MonthGames(username: string, year: int, month: int, fetch: string -> Fetch<Option<seq<ArchiveGame>>>,
                      k: nat): seq<ArchiveGame> {
    var (y, m) := MonthBack(year, month, k);
    match fetch(MonthUrl(username, y, m))
    case Fetched(Some(games)) => games
    case _ => []
  }

  /** The games of the first `n` months, newest month first. */
  function Months(username: string, year: int, month: int, fetch: string -> Fetch<Option<seq<ArchiveGame>>>,
                  n: nat): seq<ArchiveGame> {
    if n == 0 then [] else Months(username, year, month, fetch, n - 1) + MonthGames(username, year, month, fetch, n - 1)
  }

  /** The month loop from offset `k` on, with `games` collected so far. */
  function CollectFrom(username: string, year: int, month: int, limit: int,
                       fetch: string -> Fetch<Option<seq<ArchiveGame>>>, k: nat, games: seq<ArchiveGame>): Outcome<seq<ArchiveGame>>
    decreases 3 - k
  {
    if k >= 3 then Done(games)
    else
      var (y, m) := MonthBack(year, month, k);
      match fetch(MonthUrl(username, y, m))
      case Failed(e) => Raised(e)
      case BadStatus => CollectFrom(username, year, month, limit, fetch, k + 1, games)
      case Fetched(None) => CollectFrom(username, year, month, limit, fetch, k + 1, games)
      case Fetched(Some(more)) =>
        if |games + more| >= limit then Done(games + more)
        else CollectFrom(username, year, month, limit, fetch, k + 1, games + more)
  }

  /** The request for month `j` came back with a `games` key. */
  ghost predicate BroughtGames(username: string, year: int, month: int,
                               fetch: string -> Fetch<Option<seq<ArchiveGame>>>, j: nat) {
    var answer := fetch(MonthUrl(username, MonthBack(year, month, j).0, MonthBack(year, month, j).1));
    answer.Fetched? && answer.body.Some?
  }

  /** Month `j` neither raised nor ended the loop: its request did not fail, and when it
      brought games the games collected so far stayed below `limit`. */
  ghost predicate PassedMonth(username: string, year: int, month: int, limit: int,
                              fetch: string -> Fetch<Option<seq<ArchiveGame>>>, j: nat) {
    && !fetch(MonthUrl(username, MonthBack(year, month, j).0, MonthBack(year, month, j).1)).Failed?
    && (BroughtGames(username, year, month, fetch, j) ==> |Months(username, year, month, fetch, j + 1)| < limit)
  }

  /** `games` are the games of the first `n` months; the loop stopped before the third month
      only at a month that brought games and reached `limit`, and went on past every month
      from `k` before the last one read. */
  ghost predicate CollectedMonths(username: string, year: int, month: int, limit: int,
                                  fetch: string -> Fetch<Option<seq<ArchiveGame>>>, k: nat, n: nat,
                                  games: seq<ArchiveGame>) {
    && Max(k, 1) <= n <= 3
    && games == Months(username, year, month, fetch, n)
    && (n < 3 ==> |games| >= limit && BroughtGames(username, year, month, fetch, n - 1))
    && (forall j :: k <= j < n - 1 ==> PassedMonth(username, year, month, limit, fetch, j))
  }

  /** The collected games are those of the first one to three months in order; the loop
      stops early exactly at the first month whose games bring the total to `limit`. */
  lemma {:induction false} CollectSpec(username: string, year: int, month: int, limit: int,
                                       fetch: string -> Fetch<Option<seq<ArchiveGame>>>, k: nat)
    requires k <= 3
    ensures var r := CollectFrom(username, year, month, limit, fetch, k, Months(username, year, month, fetch, k));
      r.Done? ==> exists n :: CollectedMonths(username, year, month, limit, fetch, k, n, r.value)
    decreases 3 - k
  {
    var acc := Months(username, year, month, fetch, k);
    var r := CollectFrom(username, year, month, limit, fetch, k, acc);
    if k < 3 && r.Done? {
      var next := Months(username, year, month, fetch, k + 1);
      CollectMonth(username, year, month, limit, fetch, k);
      if r == CollectFrom(username, year, month, limit, fetch, k + 1, next) && PassedMonth(username, year, month, limit, fetch, k) {
        CollectSpec(username, year, month, limit, fetch, k + 1);
        var n :| CollectedMonths(username, year, month, limit, fetch, k + 1, n, r.value);
        CollectedEarlier(username, year, month, limit, fetch, k, n, r.value);
      } else {
        assert CollectedMonths(username, year, month, limit, fetch, k, k + 1, r.value);
      }
    } else if k == 3 {
      assert CollectedMonths(username, year, month, limit, fetch, k, 3, r.value);
    }
  }

  /** One month of the loop, started on the first `k` months' games: it raises, stops with
      the first `k + 1` months at the limit, or passes the month on. */
  lemma CollectMonth(username: string, year: int, month: int, limit: int,
                     fetch: string -> Fetch<Option<seq<ArchiveGame>>>, k: nat)
    requires k < 3
    ensures var r := CollectFrom(username, year, month, limit, fetch, k, Months(username, year, month, fetch, k));
      var next := Months(username, year, month, fetch, k + 1);
      || r.Raised?
      || (r == Done(next) && |next| >= limit && BroughtGames(username, year, month, fetch, k))
      || (r == CollectFrom(username, year, month, limit, fetch, k + 1, next)
          && PassedMonth(username, year, month, limit, fetch, k))
  {
    var acc := Months(username, year, month, fetch, k);
    var answer := fetch(MonthUrl(username, MonthBack(year, month, k).0, MonthBack(year, month, k).1));
    assert Months(username, year, month, fetch, k + 1) == acc + MonthGames(username, year, month, fetch, k);
    CollectTurn(username, year, month, limit, fetch, k, acc);
    if !answer.Failed? && !(answer.Fetched? && answer.body.Some?) {
      assert acc + MonthGames(username, year, month, fetch, k) == acc;
    }
  }

  /** A month the loop passed on extends what the later months collected. */
  lemma CollectedEarlier(username: string, year: int, month: int, limit: int,
                         fetch: string -> Fetch<Option<seq<ArchiveGame>>>, k: nat, n: nat, games: seq<ArchiveGame>)
    requires k < 3 && PassedMonth(username, year, month, limit, fetch, k)
    requires CollectedMonths(username, year, month, limit, fetch, k + 1, n, games)
    ensures CollectedMonths(username, year, month, limit, fetch, k, n, games)
  {
  }

  /** An exception from any month's request ends the collection with that exception. */
  lemma {:induction false} CollectRaises(username: string, year: int, month: int, limit: int,
                                         fetch: string -> Fetch<Option<seq<ArchiveGame>>>, k: nat, games: seq<ArchiveGame>)
    ensures var r := CollectFrom(username, year, month, limit, fetch, k, games);
      r.Raised? ==> exists j :: k <= j < 3 && fetch(MonthUrl(username, MonthBack(year, month, j).0, MonthBack(year, month, j).1)) == Failed(r.error)
    decreases 3 - k
  {
    if k < 3 {
      var (y, m) := MonthBack(year, month, k);
      match fetch(MonthUrl(username, y, m)) {
        case Failed(e) =>
        case BadStatus => CollectRaises(username, year, month, limit, fetch, k + 1, games);
        case Fetched(None) => CollectRaises(username, year, month, limit, fetch, k + 1, games);
        case Fetched(Some(more)) => CollectRaises(username, year, month, limit, fetch, k + 1, games + more);
      }
    }
  }

  /** One month of the loop, from offset `k` with `games` collected so far. */
  lemma CollectTurn(username: string, year: int, month: int, limit: int,
                    fetch: string -> Fetch<Option<seq<ArchiveGame>>>, k: nat, games: seq<ArchiveGame>)
    requires k < 3
    ensures var answer := fetch(MonthUrl(username, MonthBack(year, month, k).0, MonthBack(year, month, k).1));
      var r := CollectFrom(username, year, month, limit, fetch, k, games);
      && (answer.Failed? ==> r == Raised(answer.error))
      && (answer.BadStatus? || answer == Fetched(None) ==> r == CollectFrom(username, year, month, limit, fetch, k + 1, games))
      && (answer.Fetched? && answer.body.Some? && |games + answer.body.value| >= limit ==>
            r == Done(games + answer.body.value))
      && (answer.Fetched? && answer.body.Some? && |games + answer.body.value| < limit ==>
            r == CollectFrom(username, year, month, limit, fetch, k + 1, games + answer.body.value))
  {
  }

  /** The month loop of `get_recent_games`. */
  method CollectRecent(username: string, year: int, month: int, limit: int,
                       fetch: string -> Fetch<Option<seq<ArchiveGame>>>) returns (r: Outcome<seq<ArchiveGame>>)
    ensures r == CollectFrom(username, year, month, limit, fetch, 0, [])
  {
    var games: seq<ArchiveGame> := [];
    for offset := 0 to 3
      invariant CollectFrom(username, year, month, limit, fetch, offset, games) == CollectFrom(username, year, month, limit, fetch, 0, [])
    {
      var tryMonth := month - offset;
      var tryYear := year;
      if tryMonth <= 0 {
        tryMonth := tryMonth + 12;
        tryYear := tryYear - 1;
      }
      assert (tryYear, tryMonth) == MonthBack(year, month, offset);
      CollectTurn(username, year, month, limit, fetch, offset, games);
      var response := fetch(MonthUrl(username, tryYear, tryMonth));
      match response {
        case Failed(e) => return Raised(e);
        case BadStatus =>
        case Fetched(body) =>
          if body.Some? {
            games := games + body.value;
            if |games| >= limit {
              return Done(games);
            }
          }
      }
    }
    return Done(games);
  }

  function EndTime(g: ArchiveGame): int {
    g.endTime.GetOr(0)
  }

  /** The games listed: newest first by end time (missing counts as 0), the first `limit`. */
  function Newest(games: seq<ArchiveGame>, limit: int): seq<ArchiveGame> {
    PyTake(SortDesc(games, EndTime), limit)
  }

  /** The kept games are the first `limit` of the collected ones (all but the last `-limit`
      for a negative limit, as Python's slice does), newest first, and no dropped game ended
      later than a kept one. */
  lemma NewestSelects(games: seq<ArchiveGame>, limit: int)
    ensures var r := Newest(games, limit);
      && (limit >= 0 ==> |r| == Min(limit, |games|))
      && (limit < 0 ==> |r| == Max(|games| + limit, 0))
      && SortedDesc(r, EndTime)
      && multiset(r) <= multiset(games)
      && forall i, j :: 0 <= i < |r| <= j < |games| ==> EndTime(SortDesc(games, EndTime)[j]) <= EndTime(r[i])
  {
    var s := SortDesc(games, EndTime);
    TopOfSorted(s, |Newest(games, limit)|, EndTime);
  }

  /** A side's username, or "Unknown". */
  function SideName(side: Option<Side>): string {
    if side.Some? then side.value.username.GetOr("Unknown") else "Unknown"
  }

  function GameLine(i: nat, g: ArchiveGame): string {
    var result := if g.white.Some? then g.white.value.result.GetOr("Unknown") else "Unknown";
    "  " + NatToString(i) + ". " + SideName(g.white) + " vs " + SideName(g.black) + " - " + result
      + " (" + g.timeControl.GetOr("Unknown") + ")"
  }

  /** One line per game, numbered from `first`. */
  function GameLines(games: seq<ArchiveGame>, first: nat): seq<string> {
    seq(|games|, k requires 0 <= k < |games| => GameLine(first + k, games[k]))
  }

  /** The head of the recent-games text. The analysis it reads is always the error dict (the
      game objects are not PGN text), so its three summary lines are the defaults. */
  function RecentHead(username: string, count: nat): seq<string> {
    [ "Recent Games for " + username, "==============================", "",
      "Total games analyzed: " + NatToString(count), "Win rate: 0.0%",
      "Most played time control: Unknown", "Average rating: Unknown", "", "Recent game results:" ]
  }

  function RecentLines(username: string, shown: seq<ArchiveGame>): seq<string> {
    RecentHead(username, |shown|) + GameLines(PyTake(shown, 5), 1)
  }

  /** `get_recent_games` with the current date given as `year` and `month`. */
  function RecentGames(username: string, year: int, month: int, limit: int,
                       fetch: string -> Fetch<Option<seq<ArchiveGame>>>): string {
    match CollectFrom(username, year, month, limit, fetch, 0, [])
    case Raised(e) => "Error fetching recent games for " + username + ": " + e
    case Done(games) =>
      if games == [] then "No recent games found for player " + username
      else Join(RecentLines(username, Newest(games, limit)), '\n')
  }

  /** At most five games are listed, the first kept ones, numbered from 1. */
  lemma RecentLinesSpec(username: string, shown: seq<ArchiveGame>)
    ensures var lines := RecentLines(username, shown);
      && |lines| == 9 + Min(5, |shown|)
      && forall k :: 0 <= k < Min(5, |shown|) ==> lines[9 + k] == GameLine(k + 1, shown[k])
  {
  }

  /** The listing loop of `get_recent_games`. */
  method BuildRecentLines(username: string, shown: seq<ArchiveGame>) returns (lines: seq<string>)
    ensures lines == RecentLines(username, shown)
  {
    lines := RecentHead(username, |shown|);
    var top := PyTake(shown, 5);
    for i := 0 to |top|
      invariant lines == RecentHead(username, |shown|) + GameLines(top[..i], 1)
    {
      assert GameLines(top[..i + 1], 1) == GameLines(top[..i], 1) + [GameLine(i + 1, top[i])];
      lines := lines + [GameLine(i + 1, top[i])];
    }
    assert top[..|top|] == top;
  }

  /** The recent-games tool; the sort happens on a copy of the collected list. */
  method GetRecentGames(username: string, year: int, month: int, limit: int,
                        fetch: string -> Fetch<Option<seq<ArchiveGame>>>) returns (text: string)
    ensures text == RecentGames(username, year, month, limit, fetch)
  {
    var collected := CollectRecent(username, year, month, limit, fetch);
    if collected.Raised? {
      return "Error fetching recent games for " + username + ": " + collected.error;
    }
    var games := collected.value;
    if games == [] {
      return "No recent games found for player " + username;
    }
    var shown := Newest(games, limit);
    var lines := BuildRecentLines(username, shown);
    return Join(lines, '\n');
  }
}
