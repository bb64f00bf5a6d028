/** The Chess.com tools the chess agent calls: the player tool, the game analyzer (PGN text or a
    download query) and the rating tracker. HTTP answers are inputs (`Fetch` values, or
    functions from URL to answer); the tools return either a message or the data they would
    print as JSON. */
module AgentTools {
  import opened Wrappers
  import opened Text
  import opened Tally
  import opened Sorting
  import opened ChessParsers
  import opened ChessCom

  /** A tool's answer: a fixed or error message, or the data it serializes. */
  datatype Reply<+T> = Message(text: string) | Data(value: T)

  // ---------------------------------------------------------------- PGN detection

  const OpeningMoves: seq<string> := ["e4", "d4", "Nf3", "c4"]

  /** `_is_pgn_content`: a PGN tag, or a first move number with a common first move. */
  function IsPgnContent(text: string): (b: bool)
    ensures b <==> Occurs("[Event", text) || (Occurs("1.", text) && exists m :: m in OpeningMoves && Occurs(m, text))
  {
    (Contains(text, "1.") && AnyContains(OpeningMoves, text)) || Contains(text, "[Event")
  }

  /** Text without '.' and '[' (such as a download query) is never taken for PGN. */
  lemma PlainTextIsNotPgn(text: string)
    requires forall i :: 0 <= i < |text| ==> text[i] != '.' && text[i] != '['
    ensures !IsPgnContent(text)
  {
    Absent("1.", text, 1);
    Absent("[Event", text, 0);
  }

  /** A needle with a character the text lacks does not occur in it. */
  lemma Absent(needle: string, text: string, k: nat)
    requires k < |needle| && forall i :: 0 <= i < |text| ==> text[i] != needle[k]
    ensures !Occurs(needle, text)
  {
    forall i | 0 <= i && i + |needle| <= |text| ensures !OccursAt(needle, text, i) {
      assert text[i..i + |needle|][k] == text[i + k];
    }
  }

  // ---------------------------------------------------------------- download queries

  datatype Request = Recent(username: string) | Monthly(username: string, year: string, month: string) | Invalid

  const InvalidFormat := "Invalid query format. Use 'username' or 'username/YYYY/MM'"

  /** `_download_and_analyze_games`' parsing: the stripped query split on '/'. */
  function ParseQuery(query: string): Request {
    var parts := Split(Strip(query), '/');
    if |parts| == 1 then Recent(parts[0])
    else if |parts| == 3 then Monthly(parts[0], parts[1], parts[2])
    else Invalid
  }

  /** A query without '/' names a user; one with two '/' names a user, a year and a month and
      reads back as them; any other number of '/' is invalid. */
  lemma ParseQuerySpec(query: string)
    ensures var q, r := Strip(query), ParseQuery(query);
      && (r.Recent? <==> CountChar(q, '/') == 0)
      && (r.Recent? ==> r.username == q)
      && (r.Monthly? <==> CountChar(q, '/') == 2)
      && (r.Monthly? ==> q == r.username + "/" + r.year + "/" + r.month
                         && '/' !in r.username && '/' !in r.year && '/' !in r.month)
  {
    var q := Strip(query);
    var parts := Split(q, '/');
    if |parts| == 1 {
      SplitOne(q);
    } else if |parts| == 3 {
      SplitThree(q);
    }
  }

  lemma SplitOne(q: string)
    requires |Split(q, '/')| == 1
    ensures Split(q, '/')[0] == q
  {
    JoinSplit(q, '/');
  }

  lemma SplitThree(q: string)
    requires |Split(q, '/')| == 3
    ensures var parts := Split(q, '/');
      && q == parts[0] + "/" + parts[1] + "/" + parts[2]
      && '/' !in parts[0] && '/' !in parts[1] && '/' !in parts[2]
  {
    var parts := Split(q, '/');
    JoinSplit(q, '/');
    assert parts[0] in parts && parts[1] in parts && parts[2] in parts;
    JoinThree(parts);
  }

  lemma JoinThree(parts: seq<string>)
    requires |parts| == 3
    ensures Join(parts, '/') == parts[0] + "/" + parts[1] + "/" + parts[2]
  {
    assert parts[1..][1..] == [parts[2]];
    assert Join(parts[1..], '/') == parts[1] + "/" + parts[2];
  }

  /** The converse: a stripped query that is three '/'-free parts joined by '/' parses as
      those parts. */
  lemma ParseJoined(q: string, parts: seq<string>)
    requires |parts| == 3 && forall p :: p in parts ==> '/' !in p
    requires q == Join(parts, '/') && Strip(q) == q
    ensures ParseQuery(q) == Monthly(parts[0], parts[1], parts[2])
  {
    SplitJoin(parts, '/');
  }

  // ---------------------------------------------------------------- opening names

  /** The last '/'-separated segment of `s`. */
  function LastSegment(s: string): string {
    var parts := Split(s, '/');
    parts[|parts| - 1]
  }

  /** `seg` is a '/'-free suffix of `s` that is either all of `s` or preceded by '/'. */
  ghost predicate SlashFreeSuffix(s: string, seg: string) {
    && |seg| <= |s| && s[|s| - |seg|..] == seg && '/' !in seg
    && (|seg| < |s| ==> s[|s| - |seg| - 1] == '/')
  }

  /** The last segment is the longest '/'-free suffix. */
  lemma {:induction false} LastSegmentSpec(s: string)
    ensures SlashFreeSuffix(s, LastSegment(s))
  {
    if s != [] {
      LastSegmentSpec(s[1..]);
      if s[0] == '/' || |Split(s[1..], '/')| > 1 {
        SameLastSegment(s);
        if s[0] != '/' {
          SlashInWhenSplit(s[1..]);
        }
        SuffixOfTail(s, LastSegment(s[1..]));
      } else {
        WholeLastSegment(s);
      }
    }
  }

  /** Without any '/', the last segment is the whole string. */
  lemma WholeLastSegment(s: string)
    requires s != [] && s[0] != '/' && |Split(s[1..], '/')| == 1
    ensures LastSegment(s) == s && '/' !in s
  {
    SplitOneSlash(s[1..]);
    assert Split(s, '/') == [[s[0]] + s[1..]];
    assert s == [s[0]] + s[1..];
    assert s in Split(s, '/');
  }

  /** A '/'-free suffix of the tail is one of the whole string once the string's head is '/'
      or the tail holds a '/'. */
  lemma SuffixOfTail(s: string, seg: string)
    requires s != [] && (s[0] == '/' || '/' in s[1..])
    requires SlashFreeSuffix(s[1..], seg)
    ensures SlashFreeSuffix(s, seg)
  {
    var t := s[1..];
    assert t[|t| - |seg|..] == s[|s| - |seg|..];
    if |seg| < |t| {
      assert t[|t| - |seg| - 1] == s[|s| - |seg| - 1];
    }
  }

  lemma SameLastSegment(s: string)
    requires s != [] && (s[0] == '/' || |Split(s[1..], '/')| > 1)
    ensures LastSegment(s) == LastSegment(s[1..])
  {
    var rest := Split(s[1..], '/');
    if s[0] == '/' {
      assert Split(s, '/') == [[]] + rest;
    } else {
      assert Split(s, '/') == [[s[0]] + rest[0]] + rest[1..];
    }
  }

  lemma SlashInWhenSplit(t: string)
    requires |Split(t, '/')| > 1
    ensures '/' in t
  {
    if '/' !in t {
      SplitNoSep(t, '/');
    }
  }

  lemma SplitOneSlash(s: string)
    requires |Split(s, '/')| == 1
    ensures Split(s, '/') == [s]
  {
    JoinSplit(s, '/');
  }

  /** The opening an archive game is filed under. */
  function OpeningName(g: ArchiveGame): string {
    if g.eco.Some? && g.eco.value != "" then Title(ReplaceChar(LastSegment(g.eco.value), '-', ' '))
    else "Unknown"
  }

  /** The name is the title-cased last segment of a non-empty eco URL with '-' read as a space;
      without an eco URL it is "Unknown". */
  lemma OpeningNameSpec(g: ArchiveGame)
    ensures g.eco.Some? && g.eco.value != "" ==>
      var seg := LastSegment(g.eco.value);
      && |seg| <= |g.eco.value| && g.eco.value[|g.eco.value| - |seg|..] == seg && '/' !in seg
      && OpeningName(g) == Title(ReplaceChar(seg, '-', ' '))
    ensures !(g.eco.Some? && g.eco.value != "") ==> OpeningName(g) == "Unknown"
  {
    if g.eco.Some? && g.eco.value != "" {
      LastSegmentSpec(g.eco.value);
    }
  }

  /** An opening name never contains '/' or '-'. */
  lemma OpeningNameChars(g: ArchiveGame)
    ensures '/' !in OpeningName(g) && '-' !in OpeningName(g)
  {
    if g.eco.Some? && g.eco.value != "" {
      var seg := LastSegment(g.eco.value);
      LastSegmentSpec(g.eco.value);
      DashesBecomeSpaces(seg);
      TitleKeepsPunctuation(ReplaceChar(seg, '-', ' '));
    }
  }

  lemma DashesBecomeSpaces(s: string)
    requires '/' !in s
    ensures '/' !in ReplaceChar(s, '-', ' ') && '-' !in ReplaceChar(s, '-', ' ')
  {
    var r := ReplaceChar(s, '-', ' ');
    forall i | 0 <= i < |r| ensures r[i] != '/' && r[i] != '-' {
      assert s[i] in s;
    }
  }

  lemma TitleKeepsPunctuation(s: string)
    requires '/' !in s && '-' !in s
    ensures '/' !in Title(s) && '-' !in Title(s)
  {
    var r := Title(s);
    forall i | 0 <= i < |r| ensures r[i] != '/' && r[i] != '-' {
      assert s[i] in s;
      CaseKeepsPunctuation(s[i]);
    }
  }

  lemma CaseKeepsPunctuation(c: char)
    requires c != '/' && c != '-'
    ensures LowerChar(c) != '/' && LowerChar(c) != '-' && UpperChar(c) != '/' && UpperChar(c) != '-'
  {
  }

  // ---------------------------------------------------------------- game downloads

  function ArchivesUrl(username: string): string {
    PlayerBase + username + "/games/archives"
  }

  function MonthlyUrl(username: string, year: string, month: string): string {
    PlayerBase + username + "/games/" + year + "/" + month
  }

  /** `games[-limit:] if len(games) > limit else games`. */
  function RecentSlice<T>(games: seq<T>, limit: nat): seq<T> {
    if |games| > limit then PyDrop(games, -(limit as int)) else games
  }

  /** A positive limit keeps the last `limit` games (all of them when there are fewer); a
      zero limit keeps every game, since `games[-0:]` is the whole list. */
  lemma RecentSliceKeepsLast<T>(games: seq<T>, limit: nat)
    ensures limit > 0 ==> RecentSlice(games, limit) == games[|games| - Min(limit, |games|)..]
    ensures limit == 0 ==> RecentSlice(games, limit) == games
  {
  }

  /** `[g.get("pgn", "") for g in games if g.get("pgn")]`. */
  function PgnsOf(games: seq<ArchiveGame>): seq<string> {
    if games == [] then []
    else
      var last := games[|games| - 1];
      PgnsOf(games[..|games| - 1]) + (if Truthy(last.pgn) then [last.pgn.value] else [])
  }

  /** Number of games with a non-empty PGN. */
  function PgnGames(games: seq<ArchiveGame>): nat {
    if games == [] then 0 else (if Truthy(games[0].pgn) then 1 else 0) + PgnGames(games[1..])
  }

  /** The comprehension is an in-order filter: the PGNs of a concatenation are those of its
      halves in order, and one game contributes its PGN exactly when the PGN is non-empty. */
  lemma {:induction false} PgnsOfAppend(a: seq<ArchiveGame>, b: seq<ArchiveGame>)
    ensures PgnsOf(a + b) == PgnsOf(a) + PgnsOf(b)
    decreases |b|
  {
    if b == [] {
      assert a + b == a;
    } else {
      var b' := b[..|b| - 1];
      assert (a + b)[..|a + b| - 1] == a + b';
      assert (a + b)[|a + b| - 1] == b[|b| - 1];
      PgnsOfAppend(a, b');
    }
  }

  /** One PGN per game with a non-empty PGN. */
  lemma {:induction false} PgnsOfLength(games: seq<ArchiveGame>)
    ensures |PgnsOf(games)| == PgnGames(games)
    decreases |games|
  {
    if games != [] {
      PgnsOfAppend([games[0]], games[1..]);
      assert [games[0]] + games[1..] == games;
      assert PgnsOf([games[0]]) == (if Truthy(games[0].pgn) then [games[0].pgn.value] else []) by {
        assert [games[0]][..0] == [];
      }
      PgnsOfLength(games[1..]);
    }
  }

  /** The kept PGNs are exactly the non-empty PGNs of the games, one per such game. */
  lemma {:induction false} PgnsOfSpec(games: seq<ArchiveGame>)
    ensures |PgnsOf(games)| == PgnGames(games) <= |games|
    ensures forall p :: p in PgnsOf(games) ==> p != "" && exists g :: g in games && g.pgn == Some(p)
    ensures forall g :: g in games && Truthy(g.pgn) ==> g.pgn.value in PgnsOf(games)
  {
    PgnsOfLength(games);
    PgnGamesAtMost(games);
    if games != [] {
      var init := games[..|games| - 1];
      PgnsOfSpec(init);
      forall p | p in PgnsOf(games) ensures p != "" && exists g :: g in games && g.pgn == Some(p) {
        if p in PgnsOf(init) {
          var g :| g in init && g.pgn == Some(p);
          assert g in games;
        } else {
          assert games[|games| - 1] in games;
        }
      }
      forall g | g in games && Truthy(g.pgn) ensures g.pgn.value in PgnsOf(games) {
        if g != games[|games| - 1] {
          assert g in init;
        }
      }
    }
  }

  lemma {:induction false} PgnGamesAtMost(games: seq<ArchiveGame>)
    ensures PgnGames(games) <= |games|
  {
    if games != [] {
      PgnGamesAtMost(games[1..]);
    }
  }

  /** The data a download analysis prints: the multi-game analysis and the added keys. */
  datatype GamesReport = GamesReport(
    analysis: MultiAnalysis, kind: string, username: string, period: Option<string>, gamesAnalyzed: nat)

  /** The analysis of a non-empty list of PGNs, tagged as the tools tag it. */
  function Report(pgns: seq<string>, parse: string -> Option<Game>, kind: string, username: string,
                  period: Option<string>): GamesReport {
    GamesReport(MultiGameAnalysis(pgns, parse), kind, username, period, |pgns|)
  }

  /** `_get_recent_games`: the last archive listed for the player, its last `limit` games. */
  function RecentGames(username: string, limit: nat, archives: Fetch<seq<string>>,
                       month: string -> Fetch<seq<ArchiveGame>>, parse: string -> Option<Game>): (r: Reply<GamesReport>)
  {
    match archives
    case Failed(e) => Message("Error fetching recent games: " + e)
    case BadStatus => Message("Could not fetch game archives for " + username)
    case Fetched(urls) =>
      if urls == [] then Message("No game archives found for " + username)
      else
        match month(urls[|urls| - 1])
        case Failed(e) => Message("Error fetching recent games: " + e)
        case BadStatus => Message("Could not fetch games from recent archive")
        case Fetched(games) =>
          if games == [] then Message("No games found in recent archive")
          else
            var pgns := PgnsOf(RecentSlice(games, limit));
            if pgns == [] then Message("No PGN data found in recent games")
            else Data(Report(pgns, parse, "recent_games_analysis", username, None))
  }

  /** A recent-games report analyses between one and `limit` PGNs, all taken from the
      newest archive, and counts no more parsed games than PGNs. */
  lemma RecentGamesSpec(username: string, limit: nat, archives: Fetch<seq<string>>,
                        month: string -> Fetch<seq<ArchiveGame>>, parse: string -> Option<Game>)
    ensures var r := RecentGames(username, limit, archives, month, parse);
      r.Data? ==>
        && archives.Fetched? && archives.body != []
        && month(archives.body[|archives.body| - 1]).Fetched?
        && var games := month(archives.body[|archives.body| - 1]).body;
        && var pgns := PgnsOf(RecentSlice(games, limit));
        && r.value == Report(pgns, parse, "recent_games_analysis", username, None)
        && r.value.gamesAnalyzed == PgnGames(RecentSlice(games, limit))
        && 1 <= r.value.gamesAnalyzed
        && (limit > 0 ==> r.value.gamesAnalyzed <= limit)
        && (r.value.analysis.Summary? ==> r.value.analysis.totalGames <= r.value.gamesAnalyzed)
  {
    var r := RecentGames(username, limit, archives, month, parse);
    if r.Data? {
      var games := month(archives.body[|archives.body| - 1]).body;
      var pgns := PgnsOf(RecentSlice(games, limit));
      PgnsOfSpec(RecentSlice(games, limit));
      ParsedAtMost(pgns, parse);
    }
  }

  /** Parsing never yields more games than PGNs. */
  lemma {:induction false} ParsedAtMost(pgns: seq<string>, parse: string -> Option<Game>)
    ensures |ParsedGames(pgns, parse)| <= |pgns|
  {
    if pgns != [] {
      ParsedAtMost(pgns[..|pgns| - 1], parse);
    }
  }

  /** `_get_monthly_games`: the archive of one month, every game with a PGN. */
  function MonthlyGames(username: string, year: string, month: string,
                        fetch: string -> Fetch<seq<ArchiveGame>>, parse: string -> Option<Game>): (r: Reply<GamesReport>)
  {
    var period := year + "/" + month;
    match fetch(MonthlyUrl(username, year, month))
    case Failed(e) => Message("Error fetching monthly games: " + e)
    case BadStatus => Message("Could not fetch games for " + username + " in " + period)
    case Fetched(games) =>
      if games == [] then Message("No games found for " + username + " in " + period)
      else
        var pgns := PgnsOf(games);
        if pgns == [] then Message("No PGN data found in monthly games")
        else Data(Report(pgns, parse, "monthly_games_analysis", username, Some(period)))
  }

  /** A monthly report covers the requested month's URL and analyses every game of it that
      has a PGN, and at least one. */
  lemma MonthlyGamesSpec(username: string, year: string, month: string,
                         fetch: string -> Fetch<seq<ArchiveGame>>, parse: string -> Option<Game>)
    ensures var r := MonthlyGames(username, year, month, fetch, parse);
      r.Data? ==>
        && fetch(MonthlyUrl(username, year, month)).Fetched?
        && var games := fetch(MonthlyUrl(username, year, month)).body;
        && r.value.period == Some(year + "/" + month)
        && r.value.analysis == MultiGameAnalysis(PgnsOf(games), parse)
        && r.value.gamesAnalyzed == |PgnsOf(games)| == PgnGames(games)
        && 1 <= r.value.gamesAnalyzed <= |games|
        && (forall g :: g in games && Truthy(g.pgn) ==> g.pgn.value in PgnsOf(games))
  {
    var fetched := fetch(MonthlyUrl(username, year, month));
    if fetched.Fetched? {
      PgnsOfSpec(fetched.body);
    }
  }

  // ---------------------------------------------------------------- the game analyzer tool

  datatype AnalyzerData = SinglePgn(stats: GameStats) | Games(report: GamesReport)

  function AsGames(r: Reply<GamesReport>): Reply<AnalyzerData> {
    match r
    case Message(t) => Message(t)
    case Data(report) => Data(Games(report))
  }

  /** `ChessComGameAnalyzerTool._run`: PGN text is parsed and analysed on its own; anything
      else is a download query, for the recent games (limit 10) or for one month. */
  function GameAnalyzer(input: string, parse: string -> Option<Game>, archivesOf: string -> Fetch<seq<string>>,
                        fetch: string -> Fetch<seq<ArchiveGame>>): (r: Reply<AnalyzerData>)
  {
    if IsPgnContent(input) then
      match parse(input)
      case None => Message("Failed to parse PGN content")
      case Some(g) => Data(SinglePgn(StatsOf(g)))
    else
      match ParseQuery(input)
      case Recent(u) => AsGames(RecentGames(u, 10, archivesOf(ArchivesUrl(u)), fetch, parse))
      case Monthly(u, y, m) => AsGames(MonthlyGames(u, y, m, fetch, parse))
      case Invalid => Message(InvalidFormat)
  }

  /** How the analyzer routes: PGN text never reaches the downloader, a query without '/'
      asks for recent games, one with two asks for a month, and any other is refused. */
  lemma GameAnalyzerRoutes(input: string, parse: string -> Option<Game>,
                           archivesOf: string -> Fetch<seq<string>>, fetch: string -> Fetch<seq<ArchiveGame>>)
    ensures var r := GameAnalyzer(input, parse, archivesOf, fetch);
      && (IsPgnContent(input) ==> r == Message("Failed to parse PGN content") || (r.Data? && r.value.SinglePgn?))
      && (!IsPgnContent(input) ==> r.Message? || r.value.Games?)
      && (!IsPgnContent(input) && CountChar(Strip(input), '/') == 0 ==>
            r == AsGames(RecentGames(Strip(input), 10, archivesOf(ArchivesUrl(Strip(input))), fetch, parse)))
      && (!IsPgnContent(input) && CountChar(Strip(input), '/') == 2 ==>
            var p := Split(Strip(input), '/');
            r == AsGames(MonthlyGames(p[0], p[1], p[2], fetch, parse)))
      && (!IsPgnContent(input) && CountChar(Strip(input), '/') != 0 && CountChar(Strip(input), '/') != 2 ==>
            r == Message(InvalidFormat))
  {
    ParseQuerySpec(input);
  }

  // ---------------------------------------------------------------- the player tool

  /** The ratings the player tool reports, in `Controls` order: a time control present in
      the stats with a `last` object contributes its `last.rating`; a `last` without
      `rating` raises `KeyError('rating')`. */
  function CurrentRatingsOf(stats: Stats, controls: seq<(string, string)>): Outcome<seq<(string, int)>> {
    if controls == [] then Done([])
    else
      match CurrentRatingsOf(stats, controls[..|controls| - 1])
      case Raised(e) => Raised(e)
      case Done(ratings) =>
        var (key, name) := controls[|controls| - 1];
        if key in stats && stats[key].last.Some? then
          match stats[key].last.value.rating
          case None => Raised("'rating'")
          case Some(v) => Done(ratings + [(name, v)])
        else Done(ratings)
  }

  /** A control takes part in the ratings when it is present with a `last` object. */
  predicate Rated(stats: Stats, c: (string, string)) {
    c.0 in stats && stats[c.0].last.Some?
  }

  /** The ratings name exactly the rated controls, each with its `last.rating`; they fail
      exactly when a rated control lacks `rating`. */
  lemma {:induction false} CurrentRatingsSpec(stats: Stats, controls: seq<(string, string)>)
    ensures CurrentRatingsOf(stats, controls).Raised? <==>
      exists c :: c in controls && Rated(stats, c) && stats[c.0].last.value.rating.None?
    ensures CurrentRatingsOf(stats, controls).Done? ==>
      var ratings := CurrentRatingsOf(stats, controls).value;
      && |ratings| <= |controls|
      && forall c :: c in controls && Rated(stats, c) ==> (c.1, stats[c.0].last.value.rating.value) in ratings
    ensures CurrentRatingsOf(stats, controls).Done? ==>
      forall p :: p in CurrentRatingsOf(stats, controls).value ==>
        exists c :: c in controls && Rated(stats, c) && p == (c.1, stats[c.0].last.value.rating.value)
  {
    if controls != [] {
      var init := controls[..|controls| - 1];
      var c := controls[|controls| - 1];
      CurrentRatingsSpec(stats, init);
      assert forall d :: d in controls <==> d in init || d == c;
    }
  }

  /** The rating loop of the player tool. */
  method CurrentRatings(stats: Stats) returns (r: Outcome<seq<(string, int)>>)
    ensures r == CurrentRatingsOf(stats, Controls)
  {
    var ratings: seq<(string, int)> := [];
    for i := 0 to |Controls|
      invariant CurrentRatingsOf(stats, Controls[..i]) == Done(ratings)
    {
      assert Controls[..i + 1][..i] == Controls[..i];
      var (key, name) := Controls[i];
      if key in stats && stats[key].last.Some? {
        if stats[key].last.value.rating.None? {
          assert CurrentRatingsOf(stats, Controls[..i + 1]) == Raised("'rating'");
          RaisedStays(stats, Controls, i + 1);
          assert Controls[..|Controls|] == Controls;
          return Raised("'rating'");
        }
        ratings := ratings + [(name, stats[key].last.value.rating.value)];
      }
    }
    assert Controls[..|Controls|] == Controls;
    return Done(ratings);
  }

  /** Once a prefix of the controls raises, every longer prefix raises the same error. */
  lemma {:induction false} RaisedStays(stats: Stats, controls: seq<(string, string)>, i: nat)
    requires i <= |controls| && CurrentRatingsOf(stats, controls[..i]).Raised?
    ensures CurrentRatingsOf(stats, controls) == CurrentRatingsOf(stats, controls[..i])
    decreases |controls| - i
  {
    if i < |controls| {
      assert controls[..i + 1][..i] == controls[..i];
      RaisedStays(stats, controls, i + 1);
    } else {
      assert controls[..i] == controls;
    }
  }

  /** The JSON the player tool prints. */
  datatype PlayerData = PlayerData(
    username: string, status: string, followers: int, location: string, joined: int, lastOnline: int,
    currentRatings: seq<(string, int)>)

  /** `ChessComPlayerTool._run` on the profile and stats answers. */
  function PlayerReport(username: string, profile: Fetch<Profile>, stats: Fetch<Stats>): Reply<PlayerData> {
    match profile
    case Failed(e) => Message("Error fetching player data: " + e)
    case BadStatus => Message("Player '" + username + "' not found on Chess.com")
    case Fetched(p) =>
      match stats
      case Failed(e) => Message("Error fetching player data: " + e)
      case _ =>
        var s := if stats.Fetched? then stats.body else map[];
        match CurrentRatingsOf(s, Controls)
        case Raised(e) => Message("Error fetching player data: " + e)
        case Done(ratings) =>
          Data(PlayerData(
            p.username.GetOr(username), p.status.GetOr("unknown"), p.followers.GetOr(0),
            p.location.GetOr("Unknown"), p.joined.GetOr(0), p.lastOnline.GetOr(0), ratings))
  }

  /** The player tool. */
  method ChessComPlayer(username: string, profile: Fetch<Profile>, stats: Fetch<Stats>) returns (r: Reply<PlayerData>)
    ensures r == PlayerReport(username, profile, stats)
    ensures profile.BadStatus? ==> r == Message("Player '" + username + "' not found on Chess.com")
    ensures profile.Fetched? && stats.BadStatus? ==> r.Data? && r.value.currentRatings == []
  {
    match profile {
      case Failed(e) => return Message("Error fetching player data: " + e);
      case BadStatus => return Message("Player '" + username + "' not found on Chess.com");
      case Fetched(p) =>
        if stats.Failed? {
          return Message("Error fetching player data: " + stats.error);
        }
        var s := if stats.Fetched? then stats.body else map[];
        var ratings := CurrentRatings(s);
        EmptyStatsNoRatings(Controls);
        if ratings.Raised? {
          return Message("Error fetching player data: " + ratings.error);
        }
        r := Data(PlayerData(
          p.username.GetOr(username), p.status.GetOr("unknown"), p.followers.GetOr(0),
          p.location.GetOr("Unknown"), p.joined.GetOr(0), p.lastOnline.GetOr(0), ratings.value));
    }
  }

  lemma {:induction false} EmptyStatsNoRatings(controls: seq<(string, string)>)
    ensures CurrentRatingsOf(map[], controls) == Done([])
  {
    if controls != [] {
      EmptyStatsNoRatings(controls[..|controls| - 1]);
    }
  }

  // ---------------------------------------------------------------- rating analysis

  /** `_calculate_total_games`: win + loss + draw, a missing key (or record) counting 0. */
  function TotalGames(record: Option<Record>): int {
    var rec := record.GetOr(Record(None, None, None));
    rec.win.GetOr(0) + rec.loss.GetOr(0) + rec.draw.GetOr(0)
  }

  /** `_calculate_win_rate` before rounding: the percentage of games won, 0 without games. */
  function WinRate(record: Option<Record>): real {
    var total := TotalGames(record);
    if total == 0 then 0.0
    else (100 * record.value.win.GetOr(0)) as real / total as real
  }

  /** The win rate is 0 without games; otherwise it times the games is 100 times the wins,
      and with non-negative counts it lies between 0 and 100. */
  lemma WinRateSpec(record: Option<Record>)
    ensures TotalGames(record) == 0 ==> WinRate(record) == 0.0
    ensures TotalGames(record) != 0 ==>
      WinRate(record) * TotalGames(record) as real == (100 * record.value.win.GetOr(0)) as real
    ensures (record.Some? && record.value.win.GetOr(0) >= 0 && record.value.loss.GetOr(0) >= 0
             && record.value.draw.GetOr(0) >= 0) ==> 0.0 <= WinRate(record) <= 100.0
  {
    var t := TotalGames(record);
    if t != 0 {
      var w := record.value.win.GetOr(0);
      PercentTimesTotal(w, t);
      if w >= 0 && record.value.loss.GetOr(0) >= 0 && record.value.draw.GetOr(0) >= 0 {
        PercentBounds(w, t);
      }
    }
  }

  lemma PercentTimesTotal(w: int, t: int)
    requires t != 0
    ensures ((100 * w) as real / t as real) * t as real == (100 * w) as real
  {
  }

  lemma PercentBounds(w: int, t: int)
    requires 0 <= w <= t && t != 0
    ensures 0.0 <= (100 * w) as real / t as real <= 100.0
  {
    var q := (100 * w) as real / t as real;
    var tr := t as real;
    PercentTimesTotal(w, t);
    assert q * tr == 100.0 * w as real <= 100.0 * tr;
    if q > 100.0 {
      PositiveProduct(q - 100.0, tr);
    }
    if q < 0.0 {
      PositiveProduct(-q, tr);
    }
  }

  lemma PositiveProduct(a: real, b: real)
    requires a > 0.0 && b > 0.0
    ensures a * b > 0.0
  {
  }

  /** One time control's entry of the rating analysis. */
  datatype ControlAnalysis = ControlAnalysis(currentRating: int, bestRating: int, gamesPlayed: int, winRate: real)

  function ControlEntry(c: ControlStats): ControlAnalysis {
    ControlAnalysis(
      c.last.GetOr(RatingPoint(None)).rating.GetOr(0), c.best.GetOr(RatingPoint(None)).rating.GetOr(0),
      TotalGames(c.record), WinRate(c.record))
  }

  /** `_analyze_ratings` over the given controls, in their order. */
  function RatingsAnalysisOf(stats: Stats, controls: seq<(string, string)>): seq<(string, ControlAnalysis)> {
    if controls == [] then []
    else
      var (key, name) := controls[|controls| - 1];
      RatingsAnalysisOf(stats, controls[..|controls| - 1]) + (if key in stats then [(name, ControlEntry(stats[key]))] else [])
  }

  /** The analysis has an entry for exactly the controls present in the stats, under the
      short name, and nothing else. */
  lemma {:induction false} RatingsAnalysisSpec(stats: Stats, controls: seq<(string, string)>)
    ensures |RatingsAnalysisOf(stats, controls)| <= |controls|
    ensures forall c :: c in controls && c.0 in stats ==> (c.1, ControlEntry(stats[c.0])) in RatingsAnalysisOf(stats, controls)
    ensures forall e :: e in RatingsAnalysisOf(stats, controls) ==>
      exists c :: c in controls && c.0 in stats && e == (c.1, ControlEntry(stats[c.0]))
  {
    if controls != [] {
      var init := controls[..|controls| - 1];
      RatingsAnalysisSpec(stats, init);
      assert forall d :: d in controls <==> d in init || d == controls[|controls| - 1];
    }
  }

  /** The loop of `_analyze_ratings`. */
  method AnalyzeRatings(stats: Stats) returns (analysis: seq<(string, ControlAnalysis)>)
    ensures analysis == RatingsAnalysisOf(stats, Controls)
  {
    analysis := [];
    for i := 0 to |Controls|
      invariant analysis == RatingsAnalysisOf(stats, Controls[..i])
    {
      assert Controls[..i + 1][..i] == Controls[..i];
      var (key, name) := Controls[i];
      if key in stats {
        analysis := analysis + [(name, ControlEntry(stats[key]))];
      }
    }
    assert Controls[..|Controls|] == Controls;
  }

  // ---------------------------------------------------------------- opening repertoire

  /** A side counts when it has a non-empty username and its printed form mentions the colour. */
  predicate Plays(side: Option<Side>, colour: string) {
    side.Some? && Truthy(side.value.username) && Contains(side.value.printed, colour)
  }

  /** The opening of each game counted for White, in order. */
  function WhiteOpenings(games: seq<ArchiveGame>): seq<string> {
    if games == [] then []
    else
      var g := games[|games| - 1];
      WhiteOpenings(games[..|games| - 1]) + (if Plays(g.white, "white") then [OpeningName(g)] else [])
  }

  /** The opening of each game counted for Black, in order. */
  function BlackOpenings(games: seq<ArchiveGame>): seq<string> {
    if games == [] then []
    else
      var g := games[|games| - 1];
      BlackOpenings(games[..|games| - 1]) + (if Plays(g.black, "black") then [OpeningName(g)] else [])
  }

  datatype Repertoire = Repertoire(asWhite: seq<Entry>, asBlack: seq<Entry>, totalWhiteGames: nat, totalBlackGames: nat)

  /** `_analyze_openings` as a value. */
  function RepertoireOf(games: seq<ArchiveGame>): Repertoire {
    var white := Count(WhiteOpenings(games));
    var black := Count(BlackOpenings(games));
    Repertoire(Top(white, 5), Top(black, 5), Total(white), Total(black))
  }

  /** The totals count every game counted for a colour, openings cut from the top five
      included; each list keeps at most five openings, the most frequent ones, with their
      true counts. */
  lemma RepertoireSpec(games: seq<ArchiveGame>)
    ensures var r := RepertoireOf(games);
      && r.totalWhiteGames == |WhiteOpenings(games)| && r.totalBlackGames == |BlackOpenings(games)|
      && |r.asWhite| <= 5 && |r.asBlack| <= 5
      && (forall e :: e in r.asWhite ==> e.count == Occurrences(WhiteOpenings(games), e.name))
      && (forall e :: e in r.asBlack ==> e.count == Occurrences(BlackOpenings(games), e.name))
      && (forall e, f :: e in Count(WhiteOpenings(games)) && e !in r.asWhite && f in r.asWhite ==> e.count <= f.count)
      && (forall e, f :: e in Count(BlackOpenings(games)) && e !in r.asBlack && f in r.asBlack ==> e.count <= f.count)
      && (forall c :: WithKey(r.asWhite, CountOf, c) <= WithKey(Count(WhiteOpenings(games)), CountOf, c))
      && (forall c :: WithKey(r.asBlack, CountOf, c) <= WithKey(Count(BlackOpenings(games)), CountOf, c))
  {
    var white := Count(WhiteOpenings(games));
    var black := Count(BlackOpenings(games));
    CountCorrect(WhiteOpenings(games));
    CountCorrect(BlackOpenings(games));
    TopSelects(white, 5);
    TopSelects(black, 5);
    forall e | e in Top(white, 5) ensures e.count == Occurrences(WhiteOpenings(games), e.name) {
      DistinctGet(white, e);
    }
    forall e | e in Top(black, 5) ensures e.count == Occurrences(BlackOpenings(games), e.name) {
      DistinctGet(black, e);
    }
    forall c ensures WithKey(Top(white, 5), CountOf, c) <= WithKey(white, CountOf, c) {
      TopKeepsTieOrder(white, 5, c);
    }
    forall c ensures WithKey(Top(black, 5), CountOf, c) <= WithKey(black, CountOf, c) {
      TopKeepsTieOrder(black, 5, c);
    }
  }

  /** In a dict with distinct names, an entry's count is what `Get` finds for its name. */
  lemma {:induction false} DistinctGet(t: seq<Entry>, e: Entry)
    requires Distinct(t) && e in t
    ensures Get(t, e.name) == e.count
  {
    if t[0] != e {
      assert Distinct(t[1..]);
      assert e in t[1..];
      var j :| 0 <= j < |t[1..]| && t[1..][j] == e;
      assert t[j + 1] == e;
      DistinctGet(t[1..], e);
    }
  }

  /** Counting one more game adds its opening to the dict of each colour it counts for. */
  lemma OpeningsStep(games: seq<ArchiveGame>, i: nat)
    requires i < |games|
    ensures Count(WhiteOpenings(games[..i + 1])) ==
      if Plays(games[i].white, "white") then Increment(Count(WhiteOpenings(games[..i])), OpeningName(games[i]))
      else Count(WhiteOpenings(games[..i]))
    ensures Count(BlackOpenings(games[..i + 1])) ==
      if Plays(games[i].black, "black") then Increment(Count(BlackOpenings(games[..i])), OpeningName(games[i]))
      else Count(BlackOpenings(games[..i]))
  {
    var g := games[..i + 1];
    assert g[..i] == games[..i];
    assert g[|g| - 1] == games[i];
    CountMaybeSnoc(WhiteOpenings(games[..i]), WhiteOpenings(g), OpeningName(games[i]), Plays(games[i].white, "white"));
    CountMaybeSnoc(BlackOpenings(games[..i]), BlackOpenings(g), OpeningName(games[i]), Plays(games[i].black, "black"));
  }

  lemma CountMaybeSnoc(names: seq<string>, next: seq<string>, name: string, counted: bool)
    requires next == names + (if counted then [name] else [])
    ensures Count(next) == if counted then Increment(Count(names), name) else Count(names)
  {
    if counted {
      assert next[..|names|] == names;
    } else {
      assert next == names;
    }
  }

  /** The loop of `_analyze_openings`: both dicts filled in game order, then cut. */
  method AnalyzeOpenings(games: seq<ArchiveGame>) returns (r: Repertoire)
    ensures r == RepertoireOf(games)
  {
    var white: seq<Entry> := [];
    var black: seq<Entry> := [];
    for i := 0 to |games|
      invariant white == Count(WhiteOpenings(games[..i]))
      invariant black == Count(BlackOpenings(games[..i]))
    {
      OpeningsStep(games, i);
      var g := games[i];
      var opening := OpeningName(g);
      if Plays(g.white, "white") {
        white := Increment(white, opening);
      }
      if Plays(g.black, "black") {
        black := Increment(black, opening);
      }
    }
    assert games[..|games|] == games;
    r := Repertoire(Top(white, 5), Top(black, 5), Total(white), Total(black));
  }

  // ---------------------------------------------------------------- the rating tracker

  /** The JSON the rating tracker prints; `openings` is `None` where it prints `{}`. */
  datatype TrackerData = TrackerData(username: string, ratings: seq<(string, ControlAnalysis)>, openings: Option<Repertoire>)

  /** `ChessComRatingTrackerTool._run`: the stats are required, the opening repertoire of
      the newest archive is added when it can be fetched. */
  function TrackerReport(username: string, stats: Fetch<Stats>, archives: Fetch<seq<string>>,
                         fetch: string -> Fetch<seq<ArchiveGame>>): Reply<TrackerData> {
    match stats
    case Failed(e) => Message("Error tracking ratings: " + e)
    case BadStatus => Message("Could not fetch stats for " + username)
    case Fetched(s) =>
      var ratings := RatingsAnalysisOf(s, Controls);
      match archives
      case Failed(e) => Message("Error tracking ratings: " + e)
      case BadStatus => Data(TrackerData(username, ratings, None))
      case Fetched(urls) =>
        if urls == [] then Data(TrackerData(username, ratings, None))
        else
          match fetch(urls[|urls| - 1])
          case Failed(e) => Message("Error tracking ratings: " + e)
          case BadStatus => Data(TrackerData(username, ratings, None))
          case Fetched(games) => Data(TrackerData(username, ratings, Some(RepertoireOf(games))))
  }

  /** The rating tracker. */
  method RatingTracker(username: string, stats: Fetch<Stats>, archives: Fetch<seq<string>>,
                       fetch: string -> Fetch<seq<ArchiveGame>>) returns (r: Reply<TrackerData>)
    ensures r == TrackerReport(username, stats, archives, fetch)
    ensures stats.Fetched? && !archives.Failed? && r.Message? ==>
      archives.body != [] && fetch(archives.body[|archives.body| - 1]).Failed?
  {
    match stats {
      case Failed(e) => return Message("Error tracking ratings: " + e);
      case BadStatus => return Message("Could not fetch stats for " + username);
      case Fetched(s) =>
        var ratings := AnalyzeRatings(s);
        var openings: Option<Repertoire> := None;
        match archives {
          case Failed(e) => return Message("Error tracking ratings: " + e);
          case BadStatus =>
          case Fetched(urls) =>
            if urls != [] {
              match fetch(urls[|urls| - 1]) {
                case Failed(e) => return Message("Error tracking ratings: " + e);
                case BadStatus =>
                case Fetched(games) =>
                  var rep := AnalyzeOpenings(games);
                  openings := Some(rep);
              }
            }
        }
        r := Data(TrackerData(username, ratings, openings));
    }
  }
}
