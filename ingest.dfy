/** Ingestion of an uploaded document: picking the extractor by content type, keeping and
    numbering the splitter's chunks, and building one vector-store point per chunk. The
    extractors, the text splitter, the embedding call, point ids and the store are inputs. */
module Ingest {
  import opened Wrappers
  import opened Text
  import opened Errors

  datatype ContentKind = Pdf | Image | PlainText

  /** The branch of `_process_file_content` a content type takes. */
  function Dispatch(contentType: string): (r: Result<ContentKind>)
    ensures r == Ok(Pdf) <==> contentType == "application/pdf"
    ensures r == Ok(Image) <==> contentType != "application/pdf" && StartsWith(contentType, "image/")
    ensures r == Ok(PlainText) <==> contentType == "text/plain"
    ensures r.Err? <==>
      contentType != "application/pdf" && !StartsWith(contentType, "image/") && contentType != "text/plain"
    ensures r.Err? ==> r.failure == Http(HttpError(400, "Unsupported file type: " + contentType))
  {
    if contentType == "application/pdf" then Ok(Pdf)
    else if StartsWith(contentType, "image/") then
      assert contentType[0] == 'i' != "text/plain"[0];
      Ok(Image)
    else if contentType == "text/plain" then Ok(PlainText)
    else Err(Http(HttpError(400, "Unsupported file type: " + contentType)))
  }

  /** `_process_file_content`: `extracted` is what the chosen extractor produced (the PDF
      text, the image opening, or the file read as UTF-8), `tempName` the base name of the
      temporary file. */
  function ProcessFileContent(contentType: string, tempName: string, extracted: Outcome<string>): (r: Result<string>)
    ensures Dispatch(contentType).Err? ==> r == Err(Dispatch(contentType).failure)
    ensures Dispatch(contentType) == Ok(Image) && extracted.Done? ==>
      r == Ok("[Image content from " + tempName + " - OCR not implemented yet]")
    ensures Dispatch(contentType) != Ok(Image) && extracted.Done? && Dispatch(contentType).Ok? ==>
      r == Ok(extracted.value)
    ensures Dispatch(contentType) == Ok(Pdf) && extracted.Raised? ==>
      r == Err(Http(HttpError(400, "Error processing PDF: " + extracted.error)))
    ensures Dispatch(contentType) == Ok(Image) && extracted.Raised? ==>
      r == Err(Http(HttpError(400, "Error processing image: " + extracted.error)))
    ensures Dispatch(contentType) == Ok(PlainText) && extracted.Raised? ==> r == Err(Other(extracted.error))
    ensures r.Err? && r.failure.Http? ==> r.failure.err.status == 400
  {
    match Dispatch(contentType)
    case Err(f) => Err(f)
    case Ok(Pdf) =>
      (match extracted
       case Done(text) => Ok(text)
       case Raised(e) => Err(Http(HttpError(400, "Error processing PDF: " + e))))
    case Ok(Image) =>
      (match extracted
       case Done(_) => Ok("[Image content from " + tempName + " - OCR not implemented yet]")
       case Raised(e) => Err(Http(HttpError(400, "Error processing image: " + e))))
    case Ok(PlainText) =>
      (match extracted
       case Done(text) => Ok(text)
       case Raised(e) => Err(Other(e)))
  }

  // ---------------------------------------------------------------- chunks

  datatype ChunkMeta = ChunkMeta(
    filename: string, chunkIndex: nat, totalChunks: nat, contentType: string, source: string)

  datatype Chunk = Chunk(content: string, metadata: ChunkMeta)

  function MetaFor(filename: string, i: nat, total: nat): ChunkMeta {
    ChunkMeta(filename, i, total, "chess_knowledge", "uploaded_document")
  }

  /** Each splitter output with surrounding whitespace removed. */
  function StripAll(splits: seq<string>): (r: seq<string>)
    ensures |r| == |splits| && forall k :: 0 <= k < |splits| ==> r[k] == Strip(splits[k])
  {
    seq(|splits|, k requires 0 <= k < |splits| => Strip(splits[k]))
  }

  /** The chunks kept from the first `n` stripped outputs: the non-empty ones, each numbered
      by its position among all `total` outputs. */
  function Kept(stripped: seq<string>, n: nat, filename: string): seq<Chunk>
    requires n <= |stripped|
  {
    if n == 0 then []
    else
      Kept(stripped, n - 1, filename) +
        (if stripped[n - 1] != [] then [Chunk(stripped[n - 1], MetaFor(filename, n - 1, |stripped|))] else [])
  }

  /** `_chunk_text`'s list for the splitter's outputs `splits`. */
  function ChunkData(splits: seq<string>, filename: string): seq<Chunk> {
    Kept(StripAll(splits), |splits|, filename)
  }

  /** Every kept chunk is the non-empty stripped text of the output its index names, with
      `total_chunks` counting all outputs, dropped ones included. */
  lemma {:induction false} KeptContents(stripped: seq<string>, n: nat, filename: string)
    requires n <= |stripped|
    ensures var data := Kept(stripped, n, filename);
      && |data| <= n
      && forall j :: 0 <= j < |data| ==>
           && data[j].metadata.chunkIndex < n
           && data[j].content == stripped[data[j].metadata.chunkIndex] != []
           && data[j].metadata == MetaFor(filename, data[j].metadata.chunkIndex, |stripped|)
  {
    if n > 0 {
      KeptContents(stripped, n - 1, filename);
      var init := Kept(stripped, n - 1, filename);
      var data := Kept(stripped, n, filename);
      forall j | 0 <= j < |data|
        ensures data[j].metadata.chunkIndex < n
        ensures data[j].content == stripped[data[j].metadata.chunkIndex] != []
        ensures data[j].metadata == MetaFor(filename, data[j].metadata.chunkIndex, |stripped|)
      {
        if j < |init| {
          assert data[j] == init[j];
        }
      }
    }
  }

  /** Chunk indices strictly increase: the kept chunks keep the splitter's order. */
  lemma {:induction false} KeptIncreasing(stripped: seq<string>, n: nat, filename: string)
    requires n <= |stripped|
    ensures var data := Kept(stripped, n, filename);
      forall i, j :: 0 <= i < j < |data| ==> data[i].metadata.chunkIndex < data[j].metadata.chunkIndex
  {
    if n > 0 {
      KeptIncreasing(stripped, n - 1, filename);
      KeptContents(stripped, n - 1, filename);
      var init := Kept(stripped, n - 1, filename);
      var data := Kept(stripped, n, filename);
      forall i, j | 0 <= i < j < |data|
        ensures data[i].metadata.chunkIndex < data[j].metadata.chunkIndex
      {
        assert data[i] == init[i];
        if j < |init| {
          assert data[j] == init[j];
        }
      }
    }
  }

  /** Every output that is not blank is kept. */
  lemma {:induction false} KeptComplete(stripped: seq<string>, n: nat, filename: string)
    requires n <= |stripped|
    ensures forall k :: 0 <= k < n && stripped[k] != [] ==>
      exists j :: 0 <= j < |Kept(stripped, n, filename)| && Kept(stripped, n, filename)[j].metadata.chunkIndex == k
  {
    if n > 0 {
      KeptComplete(stripped, n - 1, filename);
      var init := Kept(stripped, n - 1, filename);
      var data := Kept(stripped, n, filename);
      forall k | 0 <= k < n && stripped[k] != []
        ensures exists j :: 0 <= j < |data| && data[j].metadata.chunkIndex == k
      {
        if k < n - 1 {
          var j :| 0 <= j < |init| && init[j].metadata.chunkIndex == k;
          assert data[j] == init[j];
        } else {
          assert data[|init|].metadata.chunkIndex == k;
        }
      }
      assert data == Kept(stripped, n, filename);
    }
  }

  /** `_chunk_text`'s list, stated over the splitter's outputs: non-blank outputs only,
      stripped, in order, every one of them, each numbered by its position and carrying the
      count of all outputs. */
  lemma ChunkDataSpec(splits: seq<string>, filename: string)
    ensures var data := ChunkData(splits, filename);
      && |data| <= |splits|
      && (forall j :: 0 <= j < |data| ==>
            && data[j].metadata.chunkIndex < |splits|
            && data[j].content == Strip(splits[data[j].metadata.chunkIndex]) != []
            && data[j].metadata == MetaFor(filename, data[j].metadata.chunkIndex, |splits|))
      && (forall i, j :: 0 <= i < j < |data| ==> data[i].metadata.chunkIndex < data[j].metadata.chunkIndex)
      && (forall k :: 0 <= k < |splits| && Strip(splits[k]) != [] ==>
            exists j :: 0 <= j < |data| && data[j].metadata.chunkIndex == k)
  {
    var all := StripAll(splits);
    KeptContents(all, |splits|, filename);
    KeptIncreasing(all, |splits|, filename);
    KeptComplete(all, |splits|, filename);
  }

  /** `_chunk_text` over the splitter's output; a failing splitter raises a 500. */
  method ChunkText(split: Outcome<seq<string>>, filename: string) returns (r: Result<seq<Chunk>>)
    ensures split.Raised? ==> r == Err(Http(HttpError(500, "Error processing text: " + split.error)))
    ensures split.Done? ==> r == Ok(ChunkData(split.value, filename))
  {
    if split.Raised? {
      return Err(Http(HttpError(500, "Error processing text: " + split.error)));
    }
    var chunks := split.value;
    ghost var all := StripAll(chunks);
    var data: seq<Chunk> := [];
    for i := 0 to |chunks|
      invariant data == Kept(all, i, filename)
    {
      var stripped := Strip(chunks[i]);
      assert all[i] == stripped;
      if stripped != [] {
        data := data + [Chunk(stripped, MetaFor(filename, i, |chunks|))];
      }
    }
    r := Ok(data);
  }

  // ---------------------------------------------------------------- points and upload

  type Vector = seq<int>

  datatype Payload = Payload(meta: ChunkMeta, content: string, fileHash: string)

  datatype Point = Point(id: string, vector: Vector, payload: Payload)

  /** The points built for `chunks`: the `k`-th gets id `newId(k)`, the embedding of its
      content, and its metadata with the content and the file hash. */
  function Points(chunks: seq<Chunk>, fileHash: string, embed: string -> Outcome<Vector>, newId: nat -> string): (r: Outcome<seq<Point>>)
    ensures r.Done? ==> |r.value| == |chunks|
    ensures r.Done? ==> forall k :: 0 <= k < |chunks| ==>
      && embed(chunks[k].content).Done?
      && r.value[k] == Point(newId(k), embed(chunks[k].content).value,
                             Payload(chunks[k].metadata, chunks[k].content, fileHash))
    ensures r.Raised? ==> exists k :: 0 <= k < |chunks| && embed(chunks[k].content) == Raised(r.error)
    decreases |chunks|
  {
    if chunks == [] then Done([])
    else
      var n := |chunks| - 1;
      match Points(chunks[..n], fileHash, embed, newId)
      case Raised(e) => Raised(e)
      case Done(init) =>
        match embed(chunks[n].content)
        case Raised(e) => Raised(e)
        case Done(v) => Done(init + [Point(newId(n), v, Payload(chunks[n].metadata, chunks[n].content, fileHash))])
  }

  datatype UploadResult = UploadResult(
    filename: string, chunksCreated: nat, fileHash: string, contentPreview: string)

  const NoText := HttpError(400, "No text content could be extracted from the file")
  const NoChunks := HttpError(400, "No valid chunks could be created from the file")

  /** At most the first 200 characters, with "..." when the text was longer. */
  function Preview(text: string): (p: string)
    ensures |text| <= 200 ==> p == text
    ensures |text| > 200 ==> |p| == 203 && p[..200] == text[..200] && p[200..] == "..."
  {
    if |text| > 200 then text[..200] + "..." else text
  }

  /** The inputs of one upload that the model does not compute. */
  datatype UploadInputs = UploadInputs(
    filename: string,
    contentType: string,
    fileHash: string,
    tempName: string,
    extracted: Outcome<string>,
    split: Outcome<seq<string>>,
    embed: string -> Outcome<Vector>,
    newId: nat -> string,
    upsert: Outcome<()>)

  /** What `upload_to_qdrant` answers, and the points it stores (none when it fails). */
  function Upload(u: UploadInputs): (r: (seq<Point>, Result<UploadResult>))
    ensures r.1.Err? ==> r.0 == [] && r.1.failure.Http?
  {
    match ProcessFileContent(u.contentType, u.tempName, u.extracted)
    case Err(f) => ([], Err(Http(Reraise(f, "Internal server error: "))))
    case Ok(text) =>
      if Strip(text) == [] then ([], Err(Http(NoText)))
      else match u.split
        case Raised(e) => ([], Err(Http(HttpError(500, "Error processing text: " + e))))
        case Done(splits) =>
          var chunks := ChunkData(splits, u.filename);
          if chunks == [] then ([], Err(Http(NoChunks)))
          else match Points(chunks, u.fileHash, u.embed, u.newId)
            case Raised(e) => ([], Err(Http(HttpError(500, "Internal server error: " + e))))
            case Done(points) =>
              match u.upsert
              case Raised(e) => ([], Err(Http(HttpError(500, "Internal server error: " + e))))
              case Done(_) =>
                (points, Ok(UploadResult(u.filename, |chunks|, u.fileHash, Preview(text))))
  }

  /** A successful upload stores exactly one point per kept chunk, in order, each carrying
      the chunk's metadata, its content and the file hash, and reports that count. */
  lemma {:induction false} UploadStoresOnePointPerChunk(u: UploadInputs)
    requires Upload(u).1.Ok?
    ensures
      && ProcessFileContent(u.contentType, u.tempName, u.extracted).Ok?
      && u.split.Done?
      && var chunks := ChunkData(u.split.value, u.filename);
         var points := Upload(u).0;
         && Upload(u).1.value.chunksCreated == |chunks| == |points| > 0
         && (forall k :: 0 <= k < |points| ==>
               points[k].payload == Payload(chunks[k].metadata, chunks[k].content, u.fileHash))
  {
    var text := ProcessFileContent(u.contentType, u.tempName, u.extracted).value;
    var chunks := ChunkData(u.split.value, u.filename);
    var built := Points(chunks, u.fileHash, u.embed, u.newId);
    assert built.Done? && u.upsert.Done?;
    assert Upload(u) == (built.value, Ok(UploadResult(u.filename, |chunks|, u.fileHash, Preview(text))));
  }

  /** Blank extracted text is refused with a 400 before anything is split or stored. */
  lemma {:induction false} UploadRefusesBlankText(u: UploadInputs)
    requires ProcessFileContent(u.contentType, u.tempName, u.extracted).Ok?
    requires var text := ProcessFileContent(u.contentType, u.tempName, u.extracted).value;
      forall i :: 0 <= i < |text| ==> IsSpace(text[i])
    ensures Upload(u) == ([], Err(Http(NoText)))
  {
    StripBlank(ProcessFileContent(u.contentType, u.tempName, u.extracted).value);
  }

  /** `upload_to_qdrant`. */
  method UploadToQdrant(u: UploadInputs) returns (stored: seq<Point>, r: Result<UploadResult>)
    ensures (stored, r) == Upload(u)
  {
    var content := ProcessFileContent(u.contentType, u.tempName, u.extracted);
    if content.Err? {
      return [], Err(Http(Reraise(content.failure, "Internal server error: ")));
    }
    var text := content.value;
    if Strip(text) == [] {
      return [], Err(Http(NoText));
    }
    var chunked := ChunkText(u.split, u.filename);
    if chunked.Err? {
      return [], Err(chunked.failure);
    }
    var chunks := chunked.value;
    if chunks == [] {
      return [], Err(Http(NoChunks));
    }
    var built := BuildPoints(chunks, u.fileHash, u.embed, u.newId);
    if built.Raised? {
      return [], Err(Http(HttpError(500, "Internal server error: " + built.error)));
    }
    if u.upsert.Raised? {
      return [], Err(Http(HttpError(500, "Internal server error: " + u.upsert.error)));
    }
    stored := built.value;
    r := Ok(UploadResult(u.filename, |chunks|, u.fileHash, Preview(text)));
  }

  /** The loop embedding each chunk and appending its point. */
  method BuildPoints(chunks: seq<Chunk>, fileHash: string, embed: string -> Outcome<Vector>, newId: nat -> string)
    returns (r: Outcome<seq<Point>>)
    ensures r == Points(chunks, fileHash, embed, newId)
  {
    var points: seq<Point> := [];
    for k := 0 to |chunks|
      invariant Points(chunks[..k], fileHash, embed, newId) == Done(points)
    {
      assert chunks[..k + 1][..k] == chunks[..k];
      var embedding := embed(chunks[k].content);
      if embedding.Raised? {
        assert Points(chunks[..k + 1], fileHash, embed, newId) == Raised(embedding.error);
        PointsPrefixRaised(chunks, k + 1, fileHash, embed, newId);
        return Raised(embedding.error);
      }
      points := points + [Point(newId(k), embedding.value, Payload(chunks[k].metadata, chunks[k].content, fileHash))];
    }
    assert chunks[..|chunks|] == chunks;
    r := Done(points);
  }

  /** The first failing embedding decides the error, however many chunks follow it. */
  lemma {:induction false} PointsPrefixRaised(chunks: seq<Chunk>, n: nat, fileHash: string,
                                              embed: string -> Outcome<Vector>, newId: nat -> string)
    requires n <= |chunks| && Points(chunks[..n], fileHash, embed, newId).Raised?
    ensures Points(chunks, fileHash, embed, newId) == Points(chunks[..n], fileHash, embed, newId)
    decreases |chunks| - n
  {
    if n < |chunks| {
      assert chunks[..n + 1][..n] == chunks[..n];
      PointsPrefixRaised(chunks, n + 1, fileHash, embed, newId);
    } else {
      assert chunks[..n] == chunks;
    }
  }
}
