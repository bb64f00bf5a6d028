/** Game statistics over parsed chess games. The chess library is replaced by an abstract
    game: its header tags and its mainline moves, each move flagged as a capture and as
    giving check. */
module ChessParsers {
  import opened Wrappers
  import opened Text
  import opened Tally

  /** One mainline move: whether it captures, and whether the position after it is check. */
  datatype Move = Move(isCapture: bool, givesCheck: bool)

  /** A parsed game: PGN header tags and mainline moves. */
  datatype Game = Game(headers: map<string, string>, moves: seq<Move>)

  /** `game.headers.get(tag, default)`. */
  function Header(g: Game, tag: string, default: string): string {
    if tag in g.headers then g.headers[tag] else default
  }

  datatype GameLength = Short | Medium | Long

  /** The length bucket of a game of `n` moves. */
  function LengthClass(n: nat): (c: GameLength)
    ensures c == Short <==> n < 40
    ensures c == Medium <==> 40 <= n < 80
    ensures c == Long <==> 80 <= n
  {
    if n < 40 then Short else if n < 80 then Medium else Long
  }

  function LengthRank(c: GameLength): nat {
    match c
    case Short => 0
    case Medium => 1
    case Long => 2
  }

  /** A longer game never lands in a shorter bucket. */
  lemma LengthClassMonotone(n: nat, m: nat)
    requires n <= m
    ensures LengthRank(LengthClass(n)) <= LengthRank(LengthClass(m))
  {
  }

  function Captures(moves: seq<Move>): nat {
    if moves == [] then 0
    else Captures(moves[..|moves| - 1]) + (if moves[|moves| - 1].isCapture then 1 else 0)
  }

  function Checks(moves: seq<Move>): nat {
    if moves == [] then 0
    else Checks(moves[..|moves| - 1]) + (if moves[|moves| - 1].givesCheck then 1 else 0)
  }

  datatype GameStats = GameStats(
    whitePlayer: string, blackPlayer: string, result: string, date: string,
    event: string, site: string, round: string, timeControl: string, eco: string,
    opening: string, totalMoves: nat, totalPlies: nat, captures: nat, checks: nat,
    gameLength: GameLength)

  /** The statistics of a parsed game, as a value. */
  function StatsOf(g: Game): GameStats {
    GameStats(
      Header(g, "White", "Unknown"), Header(g, "Black", "Unknown"), Header(g, "Result", "*"),
      Header(g, "Date", "Unknown"), Header(g, "Event", "Unknown"), Header(g, "Site", "Unknown"),
      Header(g, "Round", "Unknown"), Header(g, "TimeControl", "Unknown"),
      Header(g, "ECO", "Unknown"), Header(g, "Opening", "Unknown"),
      |g.moves|, |g.moves|, Captures(g.moves), Checks(g.moves), LengthClass(|g.moves|))
  }

  /** `extract_game_stats`: no game gives no statistics (the empty dict); otherwise the
      header fields with their defaults, the move counts and the length bucket. */
  method ExtractGameStats(game: Option<Game>) returns (stats: Option<GameStats>)
    ensures game.None? <==> stats.None?
    ensures game.Some? ==> stats == Some(StatsOf(game.value))
    ensures game.Some? ==>
      var g, s := game.value, stats.value;
      && s.whitePlayer == Header(g, "White", "Unknown")
      && s.blackPlayer == Header(g, "Black", "Unknown")
      && s.result == Header(g, "Result", "*")
      && s.date == Header(g, "Date", "Unknown")
      && s.event == Header(g, "Event", "Unknown")
      && s.site == Header(g, "Site", "Unknown")
      && s.round == Header(g, "Round", "Unknown")
      && s.timeControl == Header(g, "TimeControl", "Unknown")
      && s.eco == Header(g, "ECO", "Unknown")
      && s.opening == Header(g, "Opening", "Unknown")
      && s.totalMoves == |g.moves| && s.totalPlies == |g.moves|
      && s.captures == Captures(g.moves) <= |g.moves|
      && s.checks == Checks(g.moves) <= |g.moves|
      && s.gameLength == LengthClass(|g.moves|)
  {
    if game.None? {
      return None;
    }
    var g := game.value;
    var moves := g.moves;
    var captures, checks := 0, 0;
    for i := 0 to |moves|
      invariant captures == Captures(moves[..i]) <= i
      invariant checks == Checks(moves[..i]) <= i
    {
      assert moves[..i + 1][..i] == moves[..i];
      if moves[i].isCapture {
        captures := captures + 1;
      }
      if moves[i].givesCheck {
        checks := checks + 1;
      }
    }
    assert moves[..|moves|] == moves;
    var length := if |moves| < 40 then Short else if |moves| < 80 then Medium else Long;
    stats := Some(GameStats(
      Header(g, "White", "Unknown"), Header(g, "Black", "Unknown"), Header(g, "Result", "*"),
      Header(g, "Date", "Unknown"), Header(g, "Event", "Unknown"), Header(g, "Site", "Unknown"),
      Header(g, "Round", "Unknown"), Header(g, "TimeControl", "Unknown"),
      Header(g, "ECO", "Unknown"), Header(g, "Opening", "Unknown"),
      |moves|, |moves|, captures, checks, length));
  }

  /** Opening families in priority order, each with the lower-case names that select it. */
  const FamilyTable: seq<(seq<string>, string)> := [
    (["sicilian"], "Sicilian Defense"),
    (["french"], "French Defense"),
    (["caro-kann"], "Caro-Kann Defense"),
    (["queen's gambit"], "Queen's Gambit"),
    (["king's indian"], "King's Indian Defense"),
    (["english"], "English Opening"),
    (["ruy lopez", "spanish"], "Ruy Lopez")
  ]

  ghost predicate AnyOccurs(patterns: seq<string>, name: string) {
    exists p :: p in patterns && Occurs(p, name)
  }

  /** Reference definition: the family of the first table row one of whose names occurs. */
  ghost function FirstMatch(table: seq<(seq<string>, string)>, name: string): string {
    if table == [] then "Other"
    else if AnyOccurs(table[0].0, name) then table[0].1
    else FirstMatch(table[1..], name)
  }

  /** Whether one of `patterns` occurs in `name` (the `or` of `in` tests on one branch). */
  function AnyContains(patterns: seq<string>, name: string): (b: bool)
    ensures b <==> AnyOccurs(patterns, name)
  {
    if patterns == [] then false
    else
      assert forall p :: p in patterns ==> p == patterns[0] || p in patterns[1..];
      Contains(name, patterns[0]) || AnyContains(patterns[1..], name)
  }

  /** Walks the table in order, as the source's if/elif chain does. */
  function FirstFamily(table: seq<(seq<string>, string)>, name: string): (family: string)
    ensures family == FirstMatch(table, name)
  {
    if table == [] then "Other"
    else if AnyContains(table[0].0, name) then table[0].1
    else FirstFamily(table[1..], name)
  }

  /** The family of an opening name, decided on its lower-cased form. */
  function Family(opening: string): string {
    FirstFamily(FamilyTable, Lower(opening))
  }

  /** A table whose families are all named differently from "Other" gives "Other" exactly
      when no row matches. */
  lemma {:induction false} FirstMatchOther(table: seq<(seq<string>, string)>, name: string)
    requires forall row :: row in table ==> row.1 != "Other"
    ensures FirstMatch(table, name) == "Other" <==> forall row :: row in table ==> !AnyOccurs(row.0, name)
  {
    if table != [] {
      assert table[0] in table;
      assert forall row :: row in table[1..] ==> row in table;
      FirstMatchOther(table[1..], name);
      assert forall row :: row in table ==> row == table[0] || row in table[1..];
    }
  }

  /** The classification promises: the earliest family in priority order whose name occurs
      in the lower-cased opening, "Sicilian Defense" exactly when "sicilian" occurs, and
      "Other" exactly when no family's name occurs. */
  lemma FamilyPriority(opening: string)
    ensures Family(opening) == FirstMatch(FamilyTable, Lower(opening))
    ensures Family(opening) == "Sicilian Defense" <==> Occurs("sicilian", Lower(opening))
    ensures Family(opening) == "Other" <==>
      forall row :: row in FamilyTable ==> !AnyOccurs(row.0, Lower(opening))
  {
    var name := Lower(opening);
    FirstMatchOther(FamilyTable, name);
    assert FamilyTable[0].0 == ["sicilian"];
    if Occurs("sicilian", name) {
      assert AnyOccurs(FamilyTable[0].0, name) by { assert "sicilian" in FamilyTable[0].0; }
    } else {
      assert !AnyOccurs(FamilyTable[0].0, name);
      FirstMatchNotFirst(FamilyTable[1..], name);
    }
  }

  lemma {:induction false} FirstMatchNotFirst(table: seq<(seq<string>, string)>, name: string)
    requires forall row :: row in table ==> row.1 != "Sicilian Defense"
    ensures FirstMatch(table, name) != "Sicilian Defense"
  {
    if table != [] {
      assert table[0] in table;
      assert forall row :: row in table[1..] ==> row in table;
      FirstMatchNotFirst(table[1..], name);
    }
  }

  datatype OpeningInfo = OpeningInfo(eco: string, opening: string, variation: string, family: string)

  /** `get_opening_classification`: the opening tags with their defaults and the family of
      the opening name; the family is the first matching row of the priority table. */
  function OpeningClassification(g: Game): (info: OpeningInfo)
    ensures info.eco == Header(g, "ECO", "Unknown")
    ensures info.opening == Header(g, "Opening", "Unknown")
    ensures info.variation == Header(g, "Variation", "Unknown")
    ensures info.family == FirstMatch(FamilyTable, Lower(info.opening))
  {
    var opening := Header(g, "Opening", "Unknown");
    OpeningInfo(Header(g, "ECO", "Unknown"), opening, Header(g, "Variation", "Unknown"), Family(opening))
  }

  /** The tally of the four known result strings (`results_distribution`). */
  datatype Results = Results(whiteWins: nat, blackWins: nat, draws: nat, unfinished: nat)

  function ResultsSum(r: Results): nat {
    r.whiteWins + r.blackWins + r.draws + r.unfinished
  }

  /** `if result in results: results[result] += 1`: unknown result strings are not counted. */
  function TallyResult(r: Results, result: string): Results {
    if result == "1-0" then r.(whiteWins := r.whiteWins + 1)
    else if result == "0-1" then r.(blackWins := r.blackWins + 1)
    else if result == "1/2-1/2" then r.(draws := r.draws + 1)
    else if result == "*" then r.(unfinished := r.unfinished + 1)
    else r
  }

  /** The games among `pgns` that the parser accepts, in order. */
  function ParsedGames(pgns: seq<string>, parse: string -> Option<Game>): seq<Game> {
    if pgns == [] then []
    else
      var prefix := ParsedGames(pgns[..|pgns| - 1], parse);
      match parse(pgns[|pgns| - 1])
      case Some(g) => prefix + [g]
      case None => prefix
  }

  function Openings(games: seq<Game>): seq<string> {
    if games == [] then []
    else Openings(games[..|games| - 1]) + [Header(games[|games| - 1], "Opening", "Unknown")]
  }

  function ResultsOf(games: seq<Game>): Results {
    if games == [] then Results(0, 0, 0, 0)
    else TallyResult(ResultsOf(games[..|games| - 1]), Header(games[|games| - 1], "Result", "*"))
  }

  /** The `Result` header of each game, "*" when missing. */
  function ResultHeaders(games: seq<Game>): seq<string> {
    if games == [] then []
    else ResultHeaders(games[..|games| - 1]) + [Header(games[|games| - 1], "Result", "*")]
  }

  /** Each field of the results tally counts the games whose `Result` header is that
      result; other result strings are counted nowhere. */
  lemma {:induction false} ResultsCounted(games: seq<Game>)
    ensures ResultsOf(games).whiteWins == Occurrences(ResultHeaders(games), "1-0")
    ensures ResultsOf(games).blackWins == Occurrences(ResultHeaders(games), "0-1")
    ensures ResultsOf(games).draws == Occurrences(ResultHeaders(games), "1/2-1/2")
    ensures ResultsOf(games).unfinished == Occurrences(ResultHeaders(games), "*")
  {
    if games != [] {
      var init := games[..|games| - 1];
      ResultsCounted(init);
      var h := Header(games[|games| - 1], "Result", "*");
      assert (ResultHeaders(init) + [h])[..|ResultHeaders(init)|] == ResultHeaders(init);
    }
  }

  /** Each game adds at most one to the results tally. */
  lemma {:induction false} ResultsAtMostGames(games: seq<Game>)
    ensures ResultsSum(ResultsOf(games)) <= |games|
  {
    if games != [] {
      ResultsAtMostGames(games[..|games| - 1]);
    }
  }

  lemma {:induction false} OpeningsLength(games: seq<Game>)
    ensures |Openings(games)| == |games|
  {
    if games != [] {
      OpeningsLength(games[..|games| - 1]);
    }
  }

  datatype MultiAnalysis =
    | AnalysisError(error: string)
    | Summary(totalGames: nat, mostCommonOpenings: seq<Entry>, openingCounts: seq<Entry>,
              resultsDistribution: Results)

  /** The value `analyze_multiple_games` computes, used where a caller needs it as a value. */
  function MultiGameAnalysis(pgns: seq<string>, parse: string -> Option<Game>): MultiAnalysis {
    var games := ParsedGames(pgns, parse);
    if pgns == [] then AnalysisError("No games provided")
    else if games == [] then AnalysisError("No valid games found")
    else Summary(|games|, Top(Count(Openings(games)), 5), Count(Openings(games)), ResultsOf(games))
  }

  /** `analyze_multiple_games`: parses each PGN, counts the openings and the results of
      the games that parse, and keeps the five most common openings. */
  method AnalyzeMultipleGames(pgns: seq<string>, parse: string -> Option<Game>)
    returns (r: MultiAnalysis)
    ensures r == MultiGameAnalysis(pgns, parse)
    ensures pgns == [] ==> r == AnalysisError("No games provided")
    ensures pgns != [] && ParsedGames(pgns, parse) == [] ==> r == AnalysisError("No valid games found")
    ensures ParsedGames(pgns, parse) != [] ==>
      var games := ParsedGames(pgns, parse);
      r == Summary(|games|, Top(Count(Openings(games)), 5), Count(Openings(games)), ResultsOf(games))
  {
    if pgns == [] {
      return AnalysisError("No games provided");
    }
    var allStats: seq<GameStats> := [];
    var openingCounts: seq<Entry> := [];
    var results := Results(0, 0, 0, 0);
    for i := 0 to |pgns|
      invariant |allStats| == |ParsedGames(pgns[..i], parse)|
      invariant openingCounts == Count(Openings(ParsedGames(pgns[..i], parse)))
      invariant results == ResultsOf(ParsedGames(pgns[..i], parse))
    {
      assert pgns[..i + 1][..i] == pgns[..i];
      var game := parse(pgns[i]);
      if game.Some? {
        var stats := ExtractGameStats(game);
        allStats := allStats + [stats.value];
        ghost var games := ParsedGames(pgns[..i + 1], parse);
        assert games[..|games| - 1] == ParsedGames(pgns[..i], parse);
        openingCounts := Increment(openingCounts, stats.value.opening);
        results := TallyResult(results, stats.value.result);
      }
    }
    assert pgns[..|pgns|] == pgns;
    if allStats == [] {
      return AnalysisError("No valid games found");
    }
    r := Summary(|allStats|, Top(openingCounts, 5), openingCounts, results);
  }

  /** What the aggregate promises: each opening is counted with its number of games and
      the counts add up to the number of games; each result field counts the games with
      that result and together they never exceed the number of games; the listed openings
      are at most five of the counted ones, most common first, none less common than an
      opening left out. */
  lemma SummaryBounds(pgns: seq<string>, parse: string -> Option<Game>)
    requires ParsedGames(pgns, parse) != []
    ensures
      var games := ParsedGames(pgns, parse);
      && (forall n :: Get(Count(Openings(games)), n) == Occurrences(Openings(games), n))
      && Total(Count(Openings(games))) == |games|
      && ResultsOf(games).whiteWins == Occurrences(ResultHeaders(games), "1-0")
      && ResultsOf(games).blackWins == Occurrences(ResultHeaders(games), "0-1")
      && ResultsOf(games).draws == Occurrences(ResultHeaders(games), "1/2-1/2")
      && ResultsOf(games).unfinished == Occurrences(ResultHeaders(games), "*")
      && ResultsSum(ResultsOf(games)) <= |games|
    ensures
      var counts := Count(Openings(ParsedGames(pgns, parse)));
      var top := Top(counts, 5);
      && |top| == Min(5, |counts|)
      && (forall e :: e in top ==> e in counts)
      && (forall i, j :: 0 <= i < j < |top| ==> top[i].count >= top[j].count)
      && (forall e, f :: e in counts && e !in top && f in top ==> e.count <= f.count)
  {
    var games := ParsedGames(pgns, parse);
    CountCorrect(Openings(games));
    OpeningsLength(games);
    ResultsAtMostGames(games);
    ResultsCounted(games);
    TopSelects(Count(Openings(games)), 5);
  }
}
