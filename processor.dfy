/** The ingestion watcher: a per-path debounce over the time each path was
    last seen, a bounded wait for the writer to release the file, and the
    derivation of a document's metadata from the components of its path. The
    file system, the PDF loader, the splitter, the vector stores and the
    classifying model are oracle values of an `Environment`. */
module Processor {
  import opened Wrappers
  import opened Text
  import opened Documents
  import opened Paths

  /** Events for one path closer together than this many seconds are ignored. */
  const DebounceSeconds: real := 5.0

  /** How many times the handler tries to take the file before giving up. */
  const Retries: int := 10

  /** The classifier reads at most this many characters of the first page. */
  const SampleLength: nat := 1500

  /** The folder claims are filed under; the upload endpoint writes to it and
      the ingestion recognises a claim by it. */
  const ClaimsDir: string := "claims"
  const IndexError: string := "IndexError: list index out of range"

  /** The event for `path` at time `now` falls inside the debounce window of
      the time the cache holds for it. */
  predicate Debounced(cache: map<string, real>, path: string, now: real)
  {
    path in cache && now - cache[path] < DebounceSeconds
  }

  /** The cache after an event: unchanged for a debounced event, otherwise the
      path's entry set to the event's time. */
  function CacheAfter(cache: map<string, real>, path: string, now: real): (r: map<string, real>)
    ensures r.Keys == cache.Keys + {path}
    ensures forall p :: p in cache && p != path ==> r[p] == cache[p]
    ensures Debounced(cache, path, now) ==> r == cache
    ensures !Debounced(cache, path, now) ==> r[path] == now
  {
    if Debounced(cache, path, now) then cache else cache[path := now]
  }

  /** Once an event for a path has been processed, further events for it are
      ignored exactly while they fall less than the window after it. */
  lemma DebounceWindow(cache: map<string, real>, path: string, now: real, later: real)
    requires !Debounced(cache, path, now)
    ensures Debounced(CacheAfter(cache, path, now), path, later) <==> later - now < DebounceSeconds
  {
  }

  /** An event for one path leaves the debounce of every other path as it was. */
  lemma DebounceOtherPaths(cache: map<string, real>, path: string, other: string, now: real, later: real)
    requires other != path
    ensures Debounced(CacheAfter(cache, path, now), other, later) == Debounced(cache, other, later)
  {
  }

  /** The first attempt, from `from` on and below `retries`, at which the file
      could be taken, or none; `released(i)` says whether attempt `i` found
      the file free. */
  function FirstRelease(released: nat -> bool, from: nat, retries: int): (r: Option<nat>)
    ensures r.Some? ==> from <= r.value < retries && released(r.value)
                        && forall i :: from <= i < r.value ==> !released(i)
    ensures r.None? ==> forall i :: from <= i < retries ==> !released(i)
    decreases retries - from
  {
    if retries <= from then None
    else if released(from) then Some(from)
    else FirstRelease(released, from + 1, retries)
  }

  /** `wait_for_file_release`: tries attempts `0, 1, ...` below `retries`
      (none when `retries` is not positive) and stops at the first that finds
      the file free. `attempts` counts the tries made. */
  method WaitForFileRelease(released: nat -> bool, retries: int) returns (free: bool, attempts: nat)
    ensures free == FirstRelease(released, 0, retries).Some?
    ensures free ==> attempts == FirstRelease(released, 0, retries).value + 1
    ensures !free ==> attempts == if retries < 0 then 0 else retries
  {
    var i: nat := 0;
    while i < retries
      invariant i <= retries || i == 0
      invariant FirstRelease(released, i, retries) == FirstRelease(released, 0, retries)
    {
      if released(i) {
        return true, i + 1;
      }
      i := i + 1;
    }
    return false, i;
  }

  /** A file is a claim when one of its normalised path components is `claims`. */
  predicate IsClaim(parts: seq<string>)
  {
    ClaimsDir in parts
  }

  datatype Metadata = Metadata(sourceType: string, documentCategory: string, clientId: string, submissionDate: string)

  /** The metadata as the dictionary the chunks are updated with. */
  function MetaMap(m: Metadata): (r: map<string, string>)
    ensures r.Keys == {"source_type", "document_category", "client_id", "submission_date"}
    ensures r["source_type"] == m.sourceType && r["document_category"] == m.documentCategory
    ensures r["client_id"] == m.clientId && r["submission_date"] == m.submissionDate
  {
    map["source_type" := m.sourceType, "document_category" := m.documentCategory,
        "client_id" := m.clientId, "submission_date" := m.submissionDate]
  }

  /** What the claim classifier reads: the first page cut to its first
      characters, or the empty string when the file has no pages. */
  function Sample(pages: seq<Document>): (r: string)
    ensures |r| <= SampleLength
    ensures pages == [] ==> r == ""
    ensures pages != [] ==> r <= pages[0].pageContent
    ensures pages != [] && |pages[0].pageContent| <= SampleLength ==> r == pages[0].pageContent
    ensures pages != [] && |pages[0].pageContent| > SampleLength ==> |r| == SampleLength
  {
    if pages == [] then ""
    else
      var text := pages[0].pageContent;
      if |text| <= SampleLength then text else text[..SampleLength]
  }

  /** The oracles the ingestion calls. `released(i)` is whether attempt `i`
      finds the file free; `toTemp` the rename to the `.ingesting` name;
      `load` the loader's pages; `search` the policy store's similarity search
      for a query and a count; `llm` the model's reply to a prompt; `split`
      the splitter; `add` and `move` the store write and the move to the
      `processed` folder. */
  datatype Environment = Environment(
    released: nat -> bool,
    toTemp: Outcome,
    load: Result<seq<Document>, string>,
    search: (string, nat) -> Result<seq<Document>, string>,
    llm: string -> Result<string, string>,
    split: seq<Document> -> seq<Document>,
    add: Outcome,
    move: Outcome)

  const CategoriesQuery: string := "Claim categories"
  const CategoriesK: nat := 3

  function ClassifierPrompt(context: string, sample: string): string
  {
    "Context: " + context + "\n\nClaim: " + sample + "\n\nOutput ONLY the category name:"
  }

  /** `classify_claim_type`: the model's stripped answer to a prompt built from
      the policy store's category documents and the sample. */
  function ClassifyClaimType(sample: string, env: Environment): (r: Result<string, string>)
    ensures r.Ok? ==> Trimmed(r.value)
    ensures var hits := env.search(CategoriesQuery, CategoriesK);
            hits.Err? ==> r == Err(hits.error)
    ensures var hits := env.search(CategoriesQuery, CategoriesK);
            hits.Ok? ==>
              var reply := env.llm(ClassifierPrompt(JoinWith('\n', Texts(hits.value)), sample));
              (reply.Err? ==> r == Err(reply.error)) && (reply.Ok? ==> r == Ok(Strip(reply.value)))
  {
    match env.search(CategoriesQuery, CategoriesK)
    case Err(e) => Err(e)
    case Ok(hits) =>
      match env.llm(ClassifierPrompt(JoinWith('\n', Texts(hits)), sample))
      case Err(e) => Err(e)
      case Ok(reply) => StripShape(reply); Ok(Strip(reply))
  }

  /** The metadata of a file with path components `parts`: a claim's category
      is what `classify` makes of the sample, its client and date the third-
      and second-last components; a policy's category is the third-last
      component. Fewer than three components raise `IndexError`. */
  function DeriveMetadata(parts: seq<string>, classify: string -> Result<string, string>, sample: string): (r: Result<Metadata, string>)
    ensures r.Ok? <==> |parts| >= 3 && (IsClaim(parts) ==> classify(sample).Ok?)
    ensures r.Ok? && IsClaim(parts) ==>
              r.value == Metadata("Claim", classify(sample).value, parts[|parts| - 3], parts[|parts| - 2])
    ensures r.Ok? && !IsClaim(parts) ==> r.value == Metadata("Policy", parts[|parts| - 3], "Company", "N/A")
    ensures r.Err? && IsClaim(parts) && classify(sample).Err? ==> r.error == classify(sample).error
    ensures r.Err? && !(IsClaim(parts) && classify(sample).Err?) ==> r.error == IndexError
  {
    if IsClaim(parts) then
      match classify(sample)
      case Err(e) => Err(e)
      case Ok(category) =>
        if |parts| < 3 then Err(IndexError)
        else Ok(Metadata("Claim", category, parts[|parts| - 3], parts[|parts| - 2]))
    else if |parts| < 3 then Err(IndexError)
    else Ok(Metadata("Policy", parts[|parts| - 3], "Company", "N/A"))
  }

  /** The document carries every entry of the metadata. */
  predicate Carries(d: Document, m: Metadata)
  {
    MetaMap(m).Keys <= d.metadata.Keys && forall k :: k in MetaMap(m) ==> d.metadata[k] == MetaMap(m)[k]
  }

  /** `chunk.metadata.update(meta_data)` for every chunk. */
  function Stamp(chunks: seq<Document>, m: Metadata): (r: seq<Document>)
    ensures |r| == |chunks|
    ensures forall i :: 0 <= i < |r| ==> r[i].pageContent == chunks[i].pageContent && Carries(r[i], m)
    ensures forall i :: 0 <= i < |r| ==> r[i].metadata.Keys == chunks[i].metadata.Keys + MetaMap(m).Keys
    ensures forall i, k :: 0 <= i < |r| && k in chunks[i].metadata && k !in MetaMap(m) ==> r[i].metadata[k] == chunks[i].metadata[k]
  {
    seq(|chunks|, i requires 0 <= i < |chunks| => Document(chunks[i].pageContent, chunks[i].metadata + MetaMap(m)))
  }

  /** The chunks of one file and the store they go to. */
  datatype Batch = Batch(target: Collection, chunks: seq<Document>)

  function TargetOf(parts: seq<string>): Collection
  {
    if IsClaim(parts) then ClaimsCollection else PolicyCollection
  }

  /** The part of `process_pdf` between taking the file and writing to the
      store: rename, load, classify, derive the metadata, split and stamp. */
  function Prepare(path: string, env: Environment): (r: Result<Batch, string>)
    ensures r.Ok? ==> env.toTemp.Pass? && env.load.Ok?
    ensures r.Ok? ==>
              var parts := NormParts(path);
              var m := DeriveMetadata(parts, sample => ClassifyClaimType(sample, env), Sample(env.load.value));
              m.Ok? && r.value.target == TargetOf(parts)
              && |r.value.chunks| == |env.split(env.load.value)|
              && forall i :: 0 <= i < |r.value.chunks| ==> Carries(r.value.chunks[i], m.value)
    ensures env.toTemp.Pass? && env.load.Ok? ==>
              var parts := NormParts(path);
              var m := DeriveMetadata(parts, sample => ClassifyClaimType(sample, env), Sample(env.load.value));
              (m.Ok? ==> r == Ok(Batch(TargetOf(parts), Stamp(env.split(env.load.value), m.value))))
              && (m.Err? ==> r == Err(m.error))
    ensures env.toTemp.Fail? ==> r == Err(env.toTemp.reason)
    ensures env.toTemp.Pass? && env.load.Err? ==> r == Err(env.load.error)
  {
    if env.toTemp.Fail? then Err(env.toTemp.reason)
    else
      var parts := NormParts(path);
      match env.load
      case Err(e) => Err(e)
      case Ok(pages) =>
        match DeriveMetadata(parts, sample => ClassifyClaimType(sample, env), Sample(pages))
        case Err(e) => Err(e)
        case Ok(m) => Ok(Batch(TargetOf(parts), Stamp(env.split(pages), m)))
  }

  /** How one call of `process_pdf` ends: the file stayed locked, a step
      raised before the store write, the chunks were written but the move to
      `processed` raised, or everything succeeded. */
  datatype IngestOutcome =
    | StillLocked
    | Failed(reason: string)
    | StoredNotMoved(batch: Batch, reason: string)
    | Indexed(batch: Batch)

  function Ingest(path: string, env: Environment): IngestOutcome
  {
    if FirstRelease(env.released, 0, Retries).None? then StillLocked
    else
      match Prepare(path, env)
      case Err(e) => Failed(e)
      case Ok(batch) =>
        if env.add.Fail? then Failed(env.add.reason)
        else if env.move.Fail? then StoredNotMoved(batch, env.move.reason)
        else Indexed(batch)
  }

  /** The chunks an outcome wrote to collection `c`. */
  function Added(o: IngestOutcome, c: Collection): (r: seq<Document>)
    ensures r != [] ==> (o.StoredNotMoved? || o.Indexed?) && o.batch.target == c
    ensures (o.StoredNotMoved? || o.Indexed?) && o.batch.target == c ==> r == o.batch.chunks
  {
    match o
    case StoredNotMoved(b, _) => if b.target == c then b.chunks else []
    case Indexed(b) => if b.target == c then b.chunks else []
    case _ => []
  }

  /** The ingestion indexes a file exactly when the file is released within
      the retries, the rename and the load succeed, the metadata can be derived,
      and the store write and the move go through; the batch is then the split
      pages stamped with that metadata, aimed at the store the path selects. */
  lemma IngestIndexed(path: string, env: Environment)
    ensures Ingest(path, env).Indexed? <==>
              FirstRelease(env.released, 0, Retries).Some? && env.toTemp.Pass? && env.load.Ok?
              && DeriveMetadata(NormParts(path), sample => ClassifyClaimType(sample, env), Sample(env.load.value)).Ok?
              && env.add.Pass? && env.move.Pass?
    ensures Ingest(path, env).Indexed? ==>
              var parts := NormParts(path);
              var m := DeriveMetadata(parts, sample => ClassifyClaimType(sample, env), Sample(env.load.value));
              Ingest(path, env).batch == Batch(TargetOf(parts), Stamp(env.split(env.load.value), m.value))
  {
  }

  /** Chunks reach a store only when the write went through, and a store then
      gains the prepared batch exactly when it is the file's target: a file
      that stays locked, or fails before or at the write, adds nothing. */
  lemma IngestAdds(path: string, env: Environment, c: Collection)
    ensures var o := Ingest(path, env);
            o.StillLocked? || o.Failed? ==> Added(o, c) == []
    ensures var o := Ingest(path, env);
            FirstRelease(env.released, 0, Retries).Some? && Prepare(path, env).Ok? && env.add.Pass?
            ==> Added(o, c) == (if Prepare(path, env).value.target == c then Prepare(path, env).value.chunks else [])
  {
  }

  /** One vector-store collection: the documents written to it so far. */
  class Index {
    var documents: seq<Document>

    constructor ()
      ensures documents == []
    {
      documents := [];
    }

    /** `add_documents`: appends the chunks when the write succeeds. */
    method AddDocuments(chunks: seq<Document>, outcome: Outcome)
      modifies this
      ensures documents == if outcome.Pass? then old(documents) + chunks else old(documents)
    {
      if outcome.Pass? {
        documents := documents + chunks;
      }
    }
  }

  class IngestionHandler {
    /** `processed_cache`: the time each path was last processed. */
    var processedCache: map<string, real>
    /** The paths `process_pdf` was called on, in call order. */
    ghost var processCalls: seq<string>

    constructor ()
      ensures processedCache == map[] && processCalls == []
    {
      processedCache := map[];
      processCalls := [];
    }

    /** `process_pdf`: waits for the file, prepares its chunks and writes them
        to the claims or the policy store. */
    method ProcessPdf(path: string, env: Environment, policyDb: Index, claimsDb: Index) returns (outcome: IngestOutcome)
      requires policyDb != claimsDb
      modifies this`processCalls, policyDb, claimsDb
      ensures outcome == Ingest(path, env)
      ensures processCalls == old(processCalls) + [path]
      ensures policyDb.documents == old(policyDb.documents) + Added(outcome, PolicyCollection)
      ensures claimsDb.documents == old(claimsDb.documents) + Added(outcome, ClaimsCollection)
    {
      processCalls := processCalls + [path];
      var free, _ := WaitForFileRelease(env.released, Retries);
      if !free {
        return StillLocked;
      }
      var prepared := Prepare(path, env);
      if prepared.Err? {
        return Failed(prepared.error);
      }
      var batch := prepared.value;
      var db := if batch.target == ClaimsCollection then claimsDb else policyDb;
      db.AddDocuments(batch.chunks, env.add);
      if env.add.Fail? {
        return Failed(env.add.reason);
      }
      if env.move.Fail? {
        return StoredNotMoved(batch, env.move.reason);
      }
      return Indexed(batch);
    }

    /** `handle_event`: ignores an event inside the path's debounce window;
        otherwise records the event's time and processes the file once. */
    method HandleEvent(path: string, now: real, env: Environment, policyDb: Index, claimsDb: Index)
      requires policyDb != claimsDb
      modifies this, policyDb, claimsDb
      ensures processedCache == CacheAfter(old(processedCache), path, now)
      ensures Debounced(old(processedCache), path, now) ==>
                processCalls == old(processCalls)
                && policyDb.documents == old(policyDb.documents) && claimsDb.documents == old(claimsDb.documents)
      ensures !Debounced(old(processedCache), path, now) ==>
                processCalls == old(processCalls) + [path]
                && policyDb.documents == old(policyDb.documents) + Added(Ingest(path, env), PolicyCollection)
                && claimsDb.documents == old(claimsDb.documents) + Added(Ingest(path, env), ClaimsCollection)
    {
      if path in processedCache && now - processedCache[path] < DebounceSeconds {
        return;
      }
      processedCache := processedCache[path := now];
      var _ := ProcessPdf(path, env, policyDb, claimsDb);
    }
  }
}
