/** The knowledge-base endpoints: upload with its type and duplicate checks, listing files by
    aggregating paged scroll results, deleting a file's points, and overwriting. The store's
    answers are inputs: a page sequence for each scroll loop, outcomes for single calls. */
module Knowledge {
  import opened Wrappers
  import opened Text
  import opened Errors
  import opened Tally
  import opened Ingest

  type PointId = string

  /** The payload keys a stored point may carry. */
  datatype StoredPayload = StoredPayload(
    filename: Option<string>, contentType: Option<string>, totalChunks: Option<int>,
    fileHash: Option<string>, source: Option<string>)

  datatype ScrollPoint = ScrollPoint(id: PointId, payload: StoredPayload)

  /** One scroll answer: the points and the offset of the next page, if any. */
  datatype Page = Page(points: seq<ScrollPoint>, next: Option<PointId>)

  // ---------------------------------------------------------------- paging

  /** The store's answers to successive scroll calls; calls beyond the sequence get an
      empty page. */
  function PageAt(pages: seq<Outcome<Page>>, i: nat): Outcome<Page> {
    if i < |pages| then pages[i] else Done(Page([], None))
  }

  /** A scroll loop's run: the points read, the offset of every call, and the text of the
      exception that ended it, if one did. */
  datatype Scan = Scan(points: seq<ScrollPoint>, offsets: seq<Option<PointId>>, failure: Option<string>)

  /** The paging loop from call `i` on with `offset`: stops on an empty page or when there
      is no next offset, otherwise asks for the next page. */
  function ScanFrom(pages: seq<Outcome<Page>>, i: nat, offset: Option<PointId>): Scan
    decreases |pages| - i
  {
    if i >= |pages| then Scan([], [offset], None)
    else match pages[i]
    case Raised(e) => Scan([], [offset], Some(e))
    case Done(page) =>
      if page.points == [] then Scan([], [offset], None)
      else if page.next.None? then Scan(page.points, [offset], None)
      else
        var rest := ScanFrom(pages, i + 1, page.next);
        Scan(page.points + rest.points, [offset] + rest.offsets, rest.failure)
  }

  /** The points of calls `i` to `i + n - 1`. */
  function PagePoints(pages: seq<Outcome<Page>>, i: nat, n: nat): seq<ScrollPoint>
    decreases n
  {
    if n == 0 then []
    else (if PageAt(pages, i).Done? then PageAt(pages, i).value.points else []) + PagePoints(pages, i + 1, n - 1)
  }

  /** The loop asks first with the given offset, then each time with the offset the previous
      non-empty page named; it stops on an empty page, a page without a next offset, or an
      exception; and it has read exactly the points of the pages it asked for. */
  /** Call `k` (after the first) of a scan begun at call `i` followed a non-empty page and
      asked with the next offset that page named. */
  ghost predicate AskedAfter(pages: seq<Outcome<Page>>, i: nat, offsets: seq<Option<PointId>>, k: nat)
    requires 1 <= k < |offsets|
  {
    && PageAt(pages, i + k - 1).Done?
    && PageAt(pages, i + k - 1).value.points != []
    && offsets[k].Some? && offsets[k] == PageAt(pages, i + k - 1).value.next
  }

  lemma {:induction false} ScanSpec(pages: seq<Outcome<Page>>, i: nat, offset: Option<PointId>)
    ensures |ScanFrom(pages, i, offset).offsets| >= 1 && ScanFrom(pages, i, offset).offsets[0] == offset
    ensures var s := ScanFrom(pages, i, offset);
      forall k :: 1 <= k < |s.offsets| ==> AskedAfter(pages, i, s.offsets, k)
    ensures var s := ScanFrom(pages, i, offset); var last := PageAt(pages, i + |s.offsets| - 1);
      s.failure.None? ==> last.Done? && (last.value.points == [] || last.value.next.None?)
    ensures var s := ScanFrom(pages, i, offset); var last := PageAt(pages, i + |s.offsets| - 1);
      s.failure.Some? ==> last == Raised(s.failure.value)
    ensures var s := ScanFrom(pages, i, offset);
      s.failure.None? ==> s.points == PagePoints(pages, i, |s.offsets|)
  {
    ScanOffsets(pages, i, offset);
    ScanStops(pages, i, offset);
    ScanPoints(pages, i, offset);
  }

  lemma {:induction false} ScanOffsets(pages: seq<Outcome<Page>>, i: nat, offset: Option<PointId>)
    ensures |ScanFrom(pages, i, offset).offsets| >= 1 && ScanFrom(pages, i, offset).offsets[0] == offset
    ensures var s := ScanFrom(pages, i, offset);
      forall k :: 1 <= k < |s.offsets| ==> AskedAfter(pages, i, s.offsets, k)
    decreases |pages| - i
  {
    var s := ScanFrom(pages, i, offset);
    if i < |pages| && pages[i].Done? && pages[i].value.points != [] && pages[i].value.next.Some? {
      var page := pages[i].value;
      var rest := ScanFrom(pages, i + 1, page.next);
      ScanOffsets(pages, i + 1, page.next);
      assert s.offsets == [offset] + rest.offsets;
      forall k | 1 <= k < |s.offsets| ensures AskedAfter(pages, i, s.offsets, k) {
        if k >= 2 {
          assert AskedAfter(pages, i + 1, rest.offsets, k - 1);
          assert s.offsets[k] == rest.offsets[k - 1];
          assert i + 1 + (k - 1) - 1 == i + k - 1;
        } else {
          assert s.offsets[1] == rest.offsets[0] == page.next;
          assert PageAt(pages, i) == pages[i];
        }
      }
    } else {
      assert s.offsets == [offset];
    }
  }

  lemma {:induction false} ScanStops(pages: seq<Outcome<Page>>, i: nat, offset: Option<PointId>)
    ensures var s := ScanFrom(pages, i, offset); var last := PageAt(pages, i + |s.offsets| - 1);
      && |s.offsets| >= 1
      && (s.failure.None? ==> last.Done? && (last.value.points == [] || last.value.next.None?))
      && (s.failure.Some? ==> last == Raised(s.failure.value))
    decreases |pages| - i
  {
    if i < |pages| && pages[i].Done? && pages[i].value.points != [] && pages[i].value.next.Some? {
      var page := pages[i].value;
      ScanStops(pages, i + 1, page.next);
      var rest := ScanFrom(pages, i + 1, page.next);
      assert |ScanFrom(pages, i, offset).offsets| == 1 + |rest.offsets|;
    }
  }

  lemma {:induction false} ScanPoints(pages: seq<Outcome<Page>>, i: nat, offset: Option<PointId>)
    ensures var s := ScanFrom(pages, i, offset);
      s.failure.None? ==> s.points == PagePoints(pages, i, |s.offsets|)
    decreases |pages| - i
  {
    var s := ScanFrom(pages, i, offset);
    if i >= |pages| || pages[i].Raised? {
    } else if pages[i].value.points == [] || pages[i].value.next.None? {
      assert PagePoints(pages, i + 1, 0) == [];
      assert pages[i].value.points + [] == pages[i].value.points;
    } else {
      var page := pages[i].value;
      ScanPoints(pages, i + 1, page.next);
      var rest := ScanFrom(pages, i + 1, page.next);
      assert |s.offsets| == 1 + |rest.offsets|;
    }
  }

  // ---------------------------------------------------------------- listing

  /** A file's entry in the listing. */
  datatype FileInfo = FileInfo(
    filename: string, contentType: string, totalChunks: int, fileHash: string,
    chunkCount: nat, source: string)

  function NameOf(p: ScrollPoint): string {
    p.payload.filename.GetOr("unknown")
  }

  /** The entry a file gets from the first point seen with its name, before counting it. */
  function FirstSeen(p: ScrollPoint): FileInfo {
    FileInfo(NameOf(p), p.payload.contentType.GetOr("unknown"), p.payload.totalChunks.GetOr(0),
             p.payload.fileHash.GetOr(""), 0, p.payload.source.GetOr("uploaded_document"))
  }

  /** One point counted into the files map: a known filename keeps its place and gains one
      chunk; a new one is added last with the point's metadata. */
  function AddPoint(files: seq<FileInfo>, p: ScrollPoint): (r: seq<FileInfo>)
    ensures |r| == |files| || (|r| == |files| + 1 && r[|files|] == FirstSeen(p).(chunkCount := 1))
    ensures forall j :: 0 <= j < |files| ==>
      r[j] == files[j] || (files[j].filename == NameOf(p) && r[j] == files[j].(chunkCount := files[j].chunkCount + 1))
    ensures |r| == |files| + 1 <==> forall j :: 0 <= j < |files| ==> files[j].filename != NameOf(p)
  {
    if files == [] then [FirstSeen(p).(chunkCount := 1)]
    else if files[0].filename == NameOf(p) then [files[0].(chunkCount := files[0].chunkCount + 1)] + files[1..]
    else [files[0]] + AddPoint(files[1..], p)
  }

  /** The files map after counting `points` in order. */
  function Aggregate(points: seq<ScrollPoint>): seq<FileInfo>
    decreases |points|
  {
    if points == [] then [] else AddPoint(Aggregate(points[..|points| - 1]), points[|points| - 1])
  }

  lemma AggregateSnoc(points: seq<ScrollPoint>, p: ScrollPoint)
    ensures Aggregate(points + [p]) == AddPoint(Aggregate(points), p)
  {
    assert (points + [p])[..|points|] == points;
  }

  lemma CountStep(read: seq<ScrollPoint>, points: seq<ScrollPoint>, k: nat)
    requires k < |points|
    ensures Aggregate(read + points[..k + 1]) == AddPoint(Aggregate(read + points[..k]), points[k])
  {
    assert read + points[..k + 1] == (read + points[..k]) + [points[k]];
    AggregateSnoc(read + points[..k], points[k]);
  }

  function Names(points: seq<ScrollPoint>): (r: seq<string>)
    ensures |r| == |points| && forall k :: 0 <= k < |points| ==> r[k] == NameOf(points[k])
  {
    seq(|points|, k requires 0 <= k < |points| => NameOf(points[k]))
  }

  /** The listing's files seen as a name-to-count tally. */
  function Counts(files: seq<FileInfo>): (r: seq<Entry>)
    ensures |r| == |files| && forall j :: 0 <= j < |files| ==> r[j] == Entry(files[j].filename, files[j].chunkCount)
  {
    seq(|files|, j requires 0 <= j < |files| => Entry(files[j].filename, files[j].chunkCount))
  }

  lemma CountsCons(f: FileInfo, rest: seq<FileInfo>)
    ensures Counts([f] + rest) == [Entry(f.filename, f.chunkCount)] + Counts(rest)
  {
  }

  lemma CountsSplit(files: seq<FileInfo>)
    requires files != []
    ensures Counts(files)[0] == Entry(files[0].filename, files[0].chunkCount)
    ensures Counts(files)[1..] == Counts(files[1..])
  {
  }

  lemma CountsAddPointHere(files: seq<FileInfo>, p: ScrollPoint)
    requires files != [] && files[0].filename == NameOf(p)
    ensures Counts(AddPoint(files, p)) == Increment(Counts(files), NameOf(p))
  {
    var t := Counts(files);
    CountsSplit(files);
    var f := files[0].(chunkCount := files[0].chunkCount + 1);
    assert AddPoint(files, p) == [f] + files[1..];
    CountsCons(f, files[1..]);
    assert Increment(t, NameOf(p)) == [Entry(NameOf(p), t[0].count + 1)] + t[1..];
  }

  lemma CountsAddPointLater(files: seq<FileInfo>, p: ScrollPoint)
    requires files != [] && files[0].filename != NameOf(p)
    requires Counts(AddPoint(files[1..], p)) == Increment(Counts(files[1..]), NameOf(p))
    ensures Counts(AddPoint(files, p)) == Increment(Counts(files), NameOf(p))
  {
    var t := Counts(files);
    CountsSplit(files);
    assert AddPoint(files, p) == [files[0]] + AddPoint(files[1..], p);
    CountsCons(files[0], AddPoint(files[1..], p));
    assert Increment(t, NameOf(p)) == [t[0]] + Increment(t[1..], NameOf(p));
  }

  lemma {:induction false} CountsAddPoint(files: seq<FileInfo>, p: ScrollPoint)
    ensures Counts(AddPoint(files, p)) == Increment(Counts(files), NameOf(p))
    decreases |files|
  {
    if files == [] {
      assert AddPoint(files, p) == [FirstSeen(p).(chunkCount := 1)];
      assert Counts(AddPoint(files, p)) == [Entry(NameOf(p), 1)];
    } else if files[0].filename == NameOf(p) {
      CountsAddPointHere(files, p);
    } else {
      CountsAddPoint(files[1..], p);
      CountsAddPointLater(files, p);
    }
  }

  /** Counting points into files is the tally of their filenames. */
  lemma {:induction false} AggregateIsTally(points: seq<ScrollPoint>)
    ensures Counts(Aggregate(points)) == Count(Names(points))
    decreases |points|
  {
    if points != [] {
      var init := points[..|points| - 1];
      AggregateIsTally(init);
      assert Names(points)[..|points| - 1] == Names(init);
      CountsAddPoint(Aggregate(init), points[|points| - 1]);
    }
  }

  /** `points[i]` is the first point named like `f`, and `f` holds its metadata. */
  ghost predicate FirstOf(points: seq<ScrollPoint>, f: FileInfo, i: int) {
    && 0 <= i < |points| && NameOf(points[i]) == f.filename
    && (forall h :: 0 <= h < i ==> NameOf(points[h]) != NameOf(points[i]))
    && f == FirstSeen(points[i]).(chunkCount := f.chunkCount)
  }

  /** Entry `j` of the listing is `FirstOf` some point. */
  ghost predicate EntryFirstSeen(points: seq<ScrollPoint>, j: int) {
    0 <= j < |Aggregate(points)| && exists i :: FirstOf(points, Aggregate(points)[j], i)
  }

  /** Every file entry holds the metadata of the first point carrying its name. */
  lemma AggregateFirstSeen(points: seq<ScrollPoint>)
    ensures forall j :: 0 <= j < |Aggregate(points)| ==> EntryFirstSeen(points, j)
  {
    forall j | 0 <= j < |Aggregate(points)| ensures EntryFirstSeen(points, j) {
      FirstSeenAt(points, j);
    }
  }

  lemma {:induction false} FirstSeenAt(points: seq<ScrollPoint>, j: nat)
    requires j < |Aggregate(points)|
    ensures exists i :: FirstOf(points, Aggregate(points)[j], i)
    decreases |points|
  {
    var init := points[..|points| - 1];
    var p := points[|points| - 1];
    assert points == init + [p];
    AggregateSnoc(init, p);
    if j < |Aggregate(init)| {
      FirstSeenAt(init, j);
      var i :| FirstOf(init, Aggregate(init)[j], i);
      FirstSeenKept(init, p, j, i);
      assert FirstOf(points, Aggregate(points)[j], i);
    } else {
      FirstSeenNew(init, p);
      assert j == |Aggregate(init)|;
      assert FirstOf(points, Aggregate(points)[j], |init|);
    }
  }

  lemma FirstSeenKept(init: seq<ScrollPoint>, p: ScrollPoint, j: nat, i: int)
    requires j < |Aggregate(init)| && FirstOf(init, Aggregate(init)[j], i)
    ensures j < |AddPoint(Aggregate(init), p)| && FirstOf(init + [p], AddPoint(Aggregate(init), p)[j], i)
  {
    var points := init + [p];
    assert points[i] == init[i];
    forall h | 0 <= h < i ensures NameOf(points[h]) != NameOf(points[i]) {
      assert points[h] == init[h];
    }
  }

  lemma FirstSeenNew(init: seq<ScrollPoint>, p: ScrollPoint)
    requires |AddPoint(Aggregate(init), p)| > |Aggregate(init)|
    ensures FirstOf(init + [p], AddPoint(Aggregate(init), p)[|Aggregate(init)|], |init|)
  {
    var points := init + [p];
    var before := Aggregate(init);
    AggregateNames(init);
    forall h | 0 <= h < |init| ensures NameOf(points[h]) != NameOf(p) {
      assert points[h] == init[h];
      assert Names(init)[h] == NameOf(init[h]);
      assert NameOf(init[h]) in Names(init);
      assert Named(before, NameOf(init[h]));
      var w :| 0 <= w < |before| && before[w].filename == NameOf(init[h]);
    }
  }

  /** Some file entry has filename `n`. */
  ghost predicate Named(files: seq<FileInfo>, n: string) {
    exists j :: 0 <= j < |files| && files[j].filename == n
  }

  /** Counting a point names its filename and keeps every name already there. */
  lemma AddPointNamed(files: seq<FileInfo>, p: ScrollPoint, n: string)
    ensures Named(AddPoint(files, p), n) <==> Named(files, n) || n == NameOf(p)
  {
    var after := AddPoint(files, p);
    if Named(files, n) {
      var j :| 0 <= j < |files| && files[j].filename == n;
      assert after[j].filename == n;
    }
    if Named(after, n) {
      var j :| 0 <= j < |after| && after[j].filename == n;
      if j < |files| {
        assert files[j].filename == n;
      }
    }
    if n == NameOf(p) && !Named(files, n) {
      assert after[|files|].filename == n;
    }
  }

  /** The listing names exactly the filenames of the points read. */
  lemma {:induction false} AggregateNames(points: seq<ScrollPoint>)
    ensures forall n :: Named(Aggregate(points), n) <==> n in Names(points)
    decreases |points|
  {
    if points != [] {
      var init := points[..|points| - 1];
      AggregateNames(init);
      assert Names(points) == Names(init) + [NameOf(points[|points| - 1])];
      forall n ensures Named(Aggregate(points), n) <==> n in Names(points) {
        AddPointNamed(Aggregate(init), points[|points| - 1], n);
      }
    }
  }

  function SumCounts(files: seq<FileInfo>): nat
    decreases |files|
  {
    if files == [] then 0 else files[0].chunkCount + SumCounts(files[1..])
  }

  lemma {:induction false} SumCountsIsTotal(files: seq<FileInfo>)
    ensures SumCounts(files) == Total(Counts(files))
    decreases |files|
  {
    if files != [] {
      SumCountsIsTotal(files[1..]);
      assert Counts(files)[1..] == Counts(files[1..]);
    }
  }

  datatype Listing = Listing(files: seq<FileInfo>, totalFiles: nat, totalChunks: nat)

  function ListingOf(points: seq<ScrollPoint>): Listing {
    var files := Aggregate(points);
    Listing(files, |files|, SumCounts(files))
  }

  /** The listing holds each filename of the points read once, and only those; each file's
      chunk count is the number of points carrying its name; the total counts every point
      read and `total_files` the entries. */
  lemma ListingCounts(points: seq<ScrollPoint>)
    ensures var l := ListingOf(points);
      && l.totalChunks == |points|
      && l.totalFiles == |l.files|
      && (forall i, j :: 0 <= i < j < |l.files| ==> l.files[i].filename != l.files[j].filename)
      && (forall j :: 0 <= j < |l.files| ==> l.files[j].chunkCount == Occurrences(Names(points), l.files[j].filename))
      && (forall n :: Named(l.files, n) <==> n in Names(points))
  {
    var files := Aggregate(points);
    AggregateIsTally(points);
    CountCorrect(Names(points));
    SumCountsIsTotal(files);
    AggregateNames(points);
    forall i, j | 0 <= i < j < |files| ensures files[i].filename != files[j].filename {
      assert Counts(files)[i].name == files[i].filename && Counts(files)[j].name == files[j].filename;
    }
    forall j | 0 <= j < |files| ensures files[j].chunkCount == Occurrences(Names(points), files[j].filename) {
      DistinctGet(Counts(files), j);
    }
  }

  /** In a tally without repeated names, looking a name up finds its own entry. */
  lemma {:induction false} DistinctGet(t: seq<Entry>, j: nat)
    requires Distinct(t) && j < |t|
    ensures Get(t, t[j].name) == t[j].count
    decreases j
  {
    if j > 0 {
      assert t[0].name != t[j].name;
      assert Distinct(t[1..]);
      DistinctGet(t[1..], j - 1);
    }
  }

  const Unavailable := HttpError(503, "Vector database not available")

  /** `list_chess_knowledge_files`: a missing client or any failure becomes a 500. */
  function ListFiles(clientAvailable: bool, pages: seq<Outcome<Page>>): Result<Listing> {
    if !clientAvailable then Err(Http(CatchAll(Http(Unavailable), "Error listing files: ")))
    else
      var s := ScanFrom(pages, 0, None);
      if s.failure.Some? then Err(Http(CatchAll(Other(s.failure.value), "Error listing files: ")))
      else Ok(ListingOf(s.points))
  }

  lemma UnavailableText()
    ensures Str(Http(Unavailable)) == "503: Vector database not available"
  {
    StatusDigits();
    StatusLine();
  }

  lemma StatusDigits()
    ensures IntToString(503) == "503"
  {
    assert NatToString(5) == "5";
    assert NatToString(50) == "50";
  }

  lemma StatusLine()
    ensures "503" + ": " + "Vector database not available" == "503: Vector database not available"
  {
    assert "503" + ": " == "503: ";
  }

  /** Without a client the 503 is caught by the generic handler and reported as a 500. */
  lemma ListingWithoutClient(pages: seq<Outcome<Page>>)
    ensures ListFiles(false, pages) ==
      Err(Http(HttpError(500, "Error listing files: 503: Vector database not available")))
  {
    var e := CatchAll(Http(Unavailable), "Error listing files: ");
    assert ListFiles(false, pages) == Err(Http(e));
    UnavailableText();
    assert e.detail == "Error listing files: " + "503: Vector database not available";
    ListingUnavailableText();
  }

  lemma ListingUnavailableText()
    ensures "Error listing files: " + "503: Vector database not available"
      == "Error listing files: 503: Vector database not available"
  {
  }

  function Prefixed(points: seq<ScrollPoint>, offsets: seq<Option<PointId>>, s: Scan): Scan {
    Scan(points + s.points, offsets + s.offsets, s.failure)
  }

  lemma PrefixedTwice(p1: seq<ScrollPoint>, o1: seq<Option<PointId>>, p2: seq<ScrollPoint>, o2: seq<Option<PointId>>, s: Scan)
    ensures Prefixed(p1, o1, Prefixed(p2, o2, s)) == Prefixed(p1 + p2, o1 + o2, s)
  {
    assert p1 + (p2 + s.points) == (p1 + p2) + s.points;
    assert o1 + (o2 + s.offsets) == (o1 + o2) + s.offsets;
  }

  /** A loop that has read `read` and asked with `offsets` gets a page that fails: the whole
      scan ends with that failure. */
  lemma ScanFails(whole: Scan, read: seq<ScrollPoint>, offsets: seq<Option<PointId>>,
                  pages: seq<Outcome<Page>>, i: nat, offset: Option<PointId>)
    requires whole == Prefixed(read, offsets, ScanFrom(pages, i, offset)) && PageAt(pages, i).Raised?
    ensures whole == Scan(read, offsets + [offset], Some(PageAt(pages, i).error))
  {
    assert ScanFrom(pages, i, offset) == Scan([], [offset], Some(PageAt(pages, i).error));
    assert read + [] == read;
  }

  /** The page is empty or names no next page: the whole scan ends after it. */
  lemma ScanEnds(whole: Scan, read: seq<ScrollPoint>, offsets: seq<Option<PointId>>,
                 pages: seq<Outcome<Page>>, i: nat, offset: Option<PointId>)
    requires whole == Prefixed(read, offsets, ScanFrom(pages, i, offset)) && PageAt(pages, i).Done?
    requires PageAt(pages, i).value.points == [] || PageAt(pages, i).value.next.None?
    ensures whole == Scan(read + PageAt(pages, i).value.points, offsets + [offset], None)
  {
    var page := PageAt(pages, i).value;
    if page.points == [] {
      assert ScanFrom(pages, i, offset) == Scan([], [offset], None);
    } else {
      assert ScanFrom(pages, i, offset) == Scan(page.points, [offset], None);
    }
    assert page.points + [] == page.points;
  }

  /** The page has points and names a next page: the loop asks for it next. */
  lemma ScanGoesOn(whole: Scan, read: seq<ScrollPoint>, offsets: seq<Option<PointId>>,
                   pages: seq<Outcome<Page>>, i: nat, offset: Option<PointId>)
    requires whole == Prefixed(read, offsets, ScanFrom(pages, i, offset)) && PageAt(pages, i).Done?
    requires PageAt(pages, i).value.points != [] && PageAt(pages, i).value.next.Some?
    ensures i < |pages|
    ensures whole == Prefixed(read + PageAt(pages, i).value.points, offsets + [offset],
                              ScanFrom(pages, i + 1, PageAt(pages, i).value.next))
  {
    var page := PageAt(pages, i).value;
    assert ScanFrom(pages, i, offset) == Prefixed(page.points, [offset], ScanFrom(pages, i + 1, page.next));
    PrefixedTwice(read, offsets, page.points, [offset], ScanFrom(pages, i + 1, page.next));
  }

  /** The listing's paging loop, counting each point into the files map as it is read. */
  method ListChessKnowledgeFiles(clientAvailable: bool, pages: seq<Outcome<Page>>)
    returns (r: Result<Listing>, offsets: seq<Option<PointId>>)
    ensures r == ListFiles(clientAvailable, pages)
    ensures clientAvailable ==> offsets == ScanFrom(pages, 0, None).offsets
  {
    if !clientAvailable {
      return Err(Http(CatchAll(Http(Unavailable), "Error listing files: "))), [];
    }
    var files: seq<FileInfo> := [];
    var offset: Option<PointId> := None;
    var i := 0;
    var done := false;
    ghost var read: seq<ScrollPoint> := [];
    offsets := [];
    ghost var whole := ScanFrom(pages, 0, None);
    assert whole == Prefixed([], [], whole);
    while !done
      invariant files == Aggregate(read)
      invariant !done ==> whole == Prefixed(read, offsets, ScanFrom(pages, i, offset))
      invariant done ==> whole == Scan(read, offsets, None)
      decreases |pages| - i, if done then 0 else 1
    {
      var answer := PageAt(pages, i);
      if answer.Raised? {
        ScanFails(whole, read, offsets, pages, i, offset);
        offsets := offsets + [offset];
        return Err(Http(CatchAll(Other(answer.error), "Error listing files: "))), offsets;
      }
      var page := answer.value;
      if page.points == [] || page.next.None? {
        ScanEnds(whole, read, offsets, pages, i, offset);
        done := true;
      } else {
        ScanGoesOn(whole, read, offsets, pages, i, offset);
        i := i + 1;
      }
      if page.points != [] {
        files := CountPage(files, read, page.points);
      } else {
        assert read + page.points == read;
      }
      read := read + page.points;
      offsets := offsets + [offset];
      if !done {
        offset := page.next;
      }
    }
    assert offsets + [] == offsets;
    r := Ok(Listing(files, |files|, SumCounts(files)));
  }

  /** The inner loop over one page's points. */
  method CountPage(files: seq<FileInfo>, ghost read: seq<ScrollPoint>, points: seq<ScrollPoint>)
    returns (r: seq<FileInfo>)
    requires files == Aggregate(read)
    ensures r == Aggregate(read + points)
  {
    r := files;
    assert read + points[..0] == read;
    for k := 0 to |points|
      invariant r == Aggregate(read + points[..k])
    {
      CountStep(read, points, k);
      r := AddPoint(r, points[k]);
    }
    assert points[..|points|] == points;
  }

  // ---------------------------------------------------------------- upload

  /** The content types the upload endpoint admits. */
  const AllowedTypes: set<string> := {"application/pdf", "text/plain", "image/jpeg", "image/png", "image/gif"}

  /** Every admitted type is one the ingestor can read; the ingestor also reads other image
      types, which this endpoint refuses. */
  lemma AllowedTypesDispatch(t: string)
    ensures t in AllowedTypes ==> Dispatch(t).Ok?
    ensures Dispatch("image/webp").Ok? && "image/webp" !in AllowedTypes
  {
    assert StartsWith("image/jpeg", "image/");
    assert StartsWith("image/png", "image/");
    assert StartsWith("image/gif", "image/");
    assert StartsWith("image/webp", "image/");
  }

  datatype UploadResponse =
    | AlreadyExists(filename: string, message: string)
    | Uploaded(result: UploadResult)

  function Unsupported(contentType: string): HttpError {
    HttpError(400, "Unsupported file type: " + contentType + ". Supported types: PDF, text, images")
  }

  function DuplicateMessage(filename: string): string {
    "A file named '" + filename
      + "' already exists in the chess knowledge base. Use the overwrite endpoint to replace it."
  }

  /** `upload_chess_knowledge`: the type check, the duplicate check against the store when
      there is a client (`existing` is its one-point scroll), then the ingestion. Returns the
      points stored and the response. */
  function UploadEndpoint(u: UploadInputs, clientAvailable: bool, existing: Outcome<seq<ScrollPoint>>)
    : (r: (seq<Point>, Result<UploadResponse>))
    ensures r.1.Ok? && r.1.value.Uploaded? ==>
      && u.contentType in AllowedTypes
      && (clientAvailable ==> existing == Done([]))
      && (r.0, Ok(r.1.value.result)) == Upload(u)
    ensures r.1.Ok? && r.1.value.AlreadyExists? ==>
      clientAvailable && existing.Done? && existing.value != [] && r.0 == []
    ensures u.contentType !in AllowedTypes ==> r == ([], Err(Http(Unsupported(u.contentType))))
  {
    if u.contentType !in AllowedTypes then ([], Err(Http(Unsupported(u.contentType))))
    else if clientAvailable && existing.Raised? then
      ([], Err(Http(Reraise(Other(existing.error), "Internal server error processing document: "))))
    else if clientAvailable && existing.value != [] then
      ([], Ok(AlreadyExists(u.filename, DuplicateMessage(u.filename))))
    else
      var (stored, r) := Upload(u);
      match r
      case Err(f) => (stored, Err(Http(Reraise(f, "Internal server error processing document: "))))
      case Ok(result) => (stored, Ok(Uploaded(result)))
  }

  /** The errors the ingestion raises are HTTP errors and reach the caller unchanged. */
  lemma UploadErrorsPassThrough(u: UploadInputs, clientAvailable: bool, existing: Outcome<seq<ScrollPoint>>)
    requires u.contentType in AllowedTypes && (clientAvailable ==> existing == Done([]))
    requires Upload(u).1.Err?
    ensures UploadEndpoint(u, clientAvailable, existing) == ([], Err(Upload(u).1.failure))
  {
  }

  method UploadChessKnowledge(u: UploadInputs, clientAvailable: bool, existing: Outcome<seq<ScrollPoint>>)
    returns (stored: seq<Point>, r: Result<UploadResponse>)
    ensures (stored, r) == UploadEndpoint(u, clientAvailable, existing)
  {
    if u.contentType !in AllowedTypes {
      return [], Err(Http(Unsupported(u.contentType)));
    }
    if clientAvailable {
      if existing.Raised? {
        return [], Err(Http(Reraise(Other(existing.error), "Internal server error processing document: ")));
      }
      if existing.value != [] {
        return [], Ok(AlreadyExists(u.filename, DuplicateMessage(u.filename)));
      }
    }
    var result;
    stored, result := UploadToQdrant(u);
    if result.Err? {
      return stored, Err(Http(Reraise(result.failure, "Internal server error processing document: ")));
    }
    r := Ok(Uploaded(result.value));
  }

  // ---------------------------------------------------------------- delete

  datatype DeleteResult = DeleteResult(filename: string, chunksDeleted: nat)

  function NotFound(filename: string): HttpError {
    HttpError(404, "File '" + filename + "' not found in chess knowledge base")
  }

  function Ids(points: seq<ScrollPoint>): (r: seq<PointId>)
    ensures |r| == |points| && forall k :: 0 <= k < |points| ==> r[k] == points[k].id
  {
    seq(|points|, k requires 0 <= k < |points| => points[k].id)
  }

  lemma IdsAppend(a: seq<ScrollPoint>, b: seq<ScrollPoint>)
    ensures Ids(a + b) == Ids(a) + Ids(b)
  {
  }

  /** `delete_chess_knowledge_file`: collects the ids of every point with the filename
      (`pages` are the filtered scroll's answers) and deletes them in one call. Returns the
      ids deleted and the response. */
  function DeleteFile(filename: string, clientAvailable: bool, pages: seq<Outcome<Page>>, deleteCall: Outcome<()>)
    : (seq<PointId>, Result<DeleteResult>)
  {
    if !clientAvailable then ([], Err(Http(Unavailable)))
    else
      var s := ScanFrom(pages, 0, None);
      if s.failure.Some? then ([], Err(Http(Reraise(Other(s.failure.value), "Error deleting file: "))))
      else if s.points == [] then ([], Err(Http(NotFound(filename))))
      else match deleteCall
        case Raised(e) => ([], Err(Http(Reraise(Other(e), "Error deleting file: "))))
        case Done(_) => (Ids(s.points), Ok(DeleteResult(filename, |s.points|)))
  }

  /** A deletion removes the id of every point on every page the scroll returned and reports
      that count; a file with no points is a 404 and nothing is deleted; a missing client is
      a 503 (re-raised as is). */
  lemma DeleteSpec(filename: string, clientAvailable: bool, pages: seq<Outcome<Page>>, deleteCall: Outcome<()>)
    ensures var (deleted, r) := DeleteFile(filename, clientAvailable, pages, deleteCall);
      var s := ScanFrom(pages, 0, None);
      && (!clientAvailable ==> r == Err(Http(HttpError(503, "Vector database not available"))))
      && (r.Ok? ==> s.failure.None? && deleted == Ids(PagePoints(pages, 0, |s.offsets|))
                    && r.value.chunksDeleted == |deleted| > 0)
      && (r.Err? ==> deleted == [])
      && (clientAvailable && s.failure.None? ==> (r == Err(Http(NotFound(filename))) <==> s.points == []))
  {
    ScanSpec(pages, 0, None);
  }

  /** The delete endpoint's paging loop, collecting ids as it reads. */
  method DeleteChessKnowledgeFile(filename: string, clientAvailable: bool, pages: seq<Outcome<Page>>, deleteCall: Outcome<()>)
    returns (deleted: seq<PointId>, r: Result<DeleteResult>)
    ensures (deleted, r) == DeleteFile(filename, clientAvailable, pages, deleteCall)
  {
    if !clientAvailable {
      return [], Err(Http(Unavailable));
    }
    var ids: seq<PointId> := [];
    var offset: Option<PointId> := None;
    var i := 0;
    var done := false;
    ghost var read: seq<ScrollPoint> := [];
    ghost var offsets: seq<Option<PointId>> := [];
    ghost var whole := ScanFrom(pages, 0, None);
    assert whole == Prefixed([], [], whole);
    while !done
      invariant ids == Ids(read)
      invariant !done ==> whole == Prefixed(read, offsets, ScanFrom(pages, i, offset))
      invariant done ==> whole == Scan(read, offsets, None)
      decreases |pages| - i, if done then 0 else 1
    {
      var answer := PageAt(pages, i);
      if answer.Raised? {
        return [], Err(Http(Reraise(Other(answer.error), "Error deleting file: ")));
      }
      var page := answer.value;
      if page.points == [] || page.next.None? {
        ScanEnds(whole, read, offsets, pages, i, offset);
        done := true;
      } else {
        ScanGoesOn(whole, read, offsets, pages, i, offset);
        i := i + 1;
      }
      IdsAppend(read, page.points);
      ids := ids + Ids(page.points);
      read := read + page.points;
      offsets := offsets + [offset];
      if !done {
        offset := page.next;
      }
    }
    assert offsets + [] == offsets;
    if ids == [] {
      return [], Err(Http(NotFound(filename)));
    }
    if deleteCall.Raised? {
      return [], Err(Http(Reraise(Other(deleteCall.error), "Error deleting file: ")));
    }
    deleted := ids;
    r := Ok(DeleteResult(filename, |ids|));
  }

  // ---------------------------------------------------------------- overwrite

  /** `overwrite_chess_knowledge_file`: delete the file's points, then ingest the new file
      (without the upload endpoint's type and duplicate checks). Every failure, the 404 of a
      missing file included, is reported as a 500. Returns the ids deleted, the points stored
      and the response. */
  function Overwrite(filename: string, clientAvailable: bool, pages: seq<Outcome<Page>>,
                     deleteCall: Outcome<()>, u: UploadInputs)
    : (r: (seq<PointId>, seq<Point>, Result<UploadResult>))
    ensures r.2.Err? ==> r.2.failure.Http? && r.2.failure.err.status == 500 && r.1 == []
    ensures r.2.Ok? ==> (r.0, Ok(DeleteResult(filename, |r.0|))) == DeleteFile(filename, clientAvailable, pages, deleteCall)
                        && (r.1, r.2) == Upload(u)
  {
    var (deleted, d) := DeleteFile(filename, clientAvailable, pages, deleteCall);
    match d
    case Err(f) => (deleted, [], Err(Http(CatchAll(f, "Error overwriting file: "))))
    case Ok(_) =>
      var (stored, up) := Upload(u);
      match up
      case Err(f) => (deleted, [], Err(Http(CatchAll(f, "Error overwriting file: "))))
      case Ok(result) => (deleted, stored, Ok(result))
  }

  lemma StatusDigits404()
    ensures IntToString(404) == "404"
  {
    assert NatToString(4) == "4";
    assert NatToString(40) == "40";
  }

  /** Overwriting a file that is not stored fails before anything is uploaded, with the 404
      wrapped in a 500. */
  lemma OverwriteMissingFile(filename: string, pages: seq<Outcome<Page>>, deleteCall: Outcome<()>, u: UploadInputs)
    requires ScanFrom(pages, 0, None).failure.None? && ScanFrom(pages, 0, None).points == []
    ensures Overwrite(filename, true, pages, deleteCall, u) ==
      ([], [], Err(Http(HttpError(500, "Error overwriting file: " + "404: " + NotFound(filename).detail))))
  {
    NotFoundText(filename);
    var d := DeleteFile(filename, true, pages, deleteCall);
    assert d == ([], Err(Http(NotFound(filename))));
    assert "Error overwriting file: " + ("404: " + NotFound(filename).detail)
      == "Error overwriting file: " + "404: " + NotFound(filename).detail;
  }

  lemma NotFoundText(filename: string)
    ensures Str(Http(NotFound(filename))) == "404: " + NotFound(filename).detail
  {
    StatusDigits404();
    assert "404" + ": " == "404: ";
  }

  /** When the ingestion fails after the deletion succeeded, the old chunks are gone and no
      new ones are stored. */
  lemma OverwriteLosesFileOnFailedUpload(filename: string, pages: seq<Outcome<Page>>, deleteCall: Outcome<()>, u: UploadInputs)
    requires DeleteFile(filename, true, pages, deleteCall).1.Ok?
    requires Upload(u).1.Err?
    ensures var r := Overwrite(filename, true, pages, deleteCall, u);
      r.0 == DeleteFile(filename, true, pages, deleteCall).0 && |r.0| > 0 && r.1 == [] && r.2.Err?
  {
    DeleteSpec(filename, true, pages, deleteCall);
  }

  method OverwriteChessKnowledgeFile(filename: string, clientAvailable: bool, pages: seq<Outcome<Page>>,
                                     deleteCall: Outcome<()>, u: UploadInputs)
    returns (deleted: seq<PointId>, stored: seq<Point>, r: Result<UploadResult>)
    ensures (deleted, stored, r) == Overwrite(filename, clientAvailable, pages, deleteCall, u)
  {
    var d;
    deleted, d := DeleteChessKnowledgeFile(filename, clientAvailable, pages, deleteCall);
    if d.Err? {
      return deleted, [], Err(Http(CatchAll(d.failure, "Error overwriting file: ")));
    }
    var up;
    stored, up := UploadToQdrant(u);
    if up.Err? {
      return deleted, [], Err(Http(CatchAll(up.failure, "Error overwriting file: ")));
    }
    r := Ok(up.value);
  }
}
