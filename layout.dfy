/** The storage layout the upload endpoints write and the watcher reads back:
    the path of an uploaded file, split again by the ingestion, yields the
    metadata the upload was filed under. */
module Layout {
  import opened Wrappers
  import opened Text
  import opened Documents
  import opened Paths
  import Upload
  import Processor
  import AgentOrchestrator

  /** The storage root's components are plain and none is `claims`, so the
      same holds of a stored path whenever it holds of the part below the root. */
  lemma UnderBaseDir(tail: seq<string>)
    requires AllPlain(tail)
    ensures AllPlain(Upload.BaseDir + tail)
    ensures Processor.ClaimsDir in Upload.BaseDir + tail <==> Processor.ClaimsDir in tail
  {
    var base := Upload.BaseDir;
    assert base == ["D:", "pY", "InsuranceRAG", "storage"];
    assert AllPlain(base);
    var comps := base + tail;
    forall i | 0 <= i < |comps| ensures Plain(comps[i]) {
      if i < |base| { assert comps[i] == base[i]; } else { assert comps[i] == tail[i - |base|]; }
    }
    if Processor.ClaimsDir in comps {
      var i :| 0 <= i < |comps| && comps[i] == Processor.ClaimsDir;
      if i >= |base| { assert tail[i - |base|] == Processor.ClaimsDir; }
    }
    if Processor.ClaimsDir in tail {
      var i :| 0 <= i < |tail| && tail[i] == Processor.ClaimsDir;
      assert comps[i + |base|] == Processor.ClaimsDir;
    }
  }

  /** A stored path is split back into the components it was built from. */
  lemma StoredParts(comps: seq<string>)
    requires |comps| >= 1 && AllPlain(comps)
    ensures NormParts(PathJoin(comps)) == comps
  {
    PathJoinPlain(comps);
    NormPartsOfPathString(comps);
  }

  /** A policy upload is read back as a policy whose category is the
      normalised category it was filed under, as long as the stored
      components need no normalising and neither the timestamp nor the file
      is called `claims`. */
  lemma PolicyRoundTrip(category: string, timestamp: string, filename: string,
                        classify: string -> Result<string, string>, sample: string)
    requires !AllSpace(category)
    requires Plain(Upload.NormaliseCategory(category)) && Plain(timestamp) && Plain(filename)
    requires timestamp != Processor.ClaimsDir && filename != Processor.ClaimsDir
    ensures Upload.UploadPolicy(category, timestamp, filename).Ok?
    ensures var parts := NormParts(Upload.UploadPolicy(category, timestamp, filename).value.path);
            parts == Upload.PolicyComponents(Upload.NormaliseCategory(category), timestamp, filename)
            && !Processor.IsClaim(parts)
            && Processor.TargetOf(parts) == PolicyCollection
            && Processor.DeriveMetadata(parts, classify, sample)
               == Ok(Processor.Metadata("Policy", Upload.NormaliseCategory(category), "Company", "N/A"))
  {
    var cat := Upload.NormaliseCategory(category);
    var tail := [Upload.PoliciesDir, cat, timestamp, filename];
    Upload.NormalisedNotClaims(category);
    assert AllPlain(tail) && Processor.ClaimsDir !in tail;
    UnderBaseDir(tail);
    var comps := Upload.BaseDir + tail;
    StoredParts(comps);
    assert comps[|comps| - 3] == cat;
  }

  /** A claim upload is read back as a claim of the client it was filed under,
      dated by its folder: the day followed by `_` and the submission type. */
  lemma ClaimRoundTrip(clientId: string, submissionType: string, dateStr: string, filename: string,
                       classify: string -> Result<string, string>, sample: string)
    requires Plain(clientId) && Plain(Upload.ClaimFolder(dateStr, submissionType)) && Plain(filename)
    ensures var parts := NormParts(Upload.UploadClaim(clientId, submissionType, dateStr, filename).path);
            parts == Upload.ClaimComponents(clientId, dateStr, submissionType, filename)
            && Processor.IsClaim(parts)
            && Processor.TargetOf(parts) == ClaimsCollection
            && parts[|parts| - 3] == clientId
            && parts[|parts| - 2] == dateStr + "_" + submissionType
    ensures var parts := NormParts(Upload.UploadClaim(clientId, submissionType, dateStr, filename).path);
            var meta := Processor.DeriveMetadata(parts, classify, sample);
            (meta.Ok? <==> classify(sample).Ok?)
            && (meta.Ok? ==> meta.value == Processor.Metadata("Claim", classify(sample).value, clientId,
                                                              dateStr + "_" + submissionType))
  {
    var tail := [Processor.ClaimsDir, clientId, Upload.ClaimFolder(dateStr, submissionType), filename];
    assert AllPlain(tail) && Processor.ClaimsDir in tail by { assert tail[0] == Processor.ClaimsDir; }
    UnderBaseDir(tail);
    var comps := Upload.BaseDir + tail;
    StoredParts(comps);
    assert comps[|comps| - 3] == clientId && comps[|comps| - 2] == dateStr + "_" + submissionType;
  }

  /** Ingesting an uploaded policy to the end writes chunks that all carry
      the policy metadata of the upload's normalised category, to the policy
      store. */
  lemma PolicyIngested(category: string, timestamp: string, filename: string, env: Processor.Environment)
    requires !AllSpace(category)
    requires Plain(Upload.NormaliseCategory(category)) && Plain(timestamp) && Plain(filename)
    requires timestamp != Processor.ClaimsDir && filename != Processor.ClaimsDir
    requires Upload.UploadPolicy(category, timestamp, filename).Ok?
    requires Processor.Ingest(Upload.UploadPolicy(category, timestamp, filename).value.path, env).Indexed?
    ensures var batch := Processor.Ingest(Upload.UploadPolicy(category, timestamp, filename).value.path, env).batch;
            batch.target == PolicyCollection
            && forall i :: 0 <= i < |batch.chunks| ==>
                 Processor.Carries(batch.chunks[i], Processor.Metadata("Policy", Upload.NormaliseCategory(category), "Company", "N/A"))
  {
    var path := Upload.UploadPolicy(category, timestamp, filename).value.path;
    PolicyRoundTrip(category, timestamp, filename, sample => Processor.ClassifyClaimType(sample, env), Processor.Sample(env.load.value));
    Processor.IngestIndexed(path, env);
  }

  /** Ingesting an uploaded claim to the end writes chunks that all carry the
      claim metadata of the upload, to the claims store: the stripped
      classification as the category, the client, and the dated folder as the
      submission date. */
  lemma ClaimIngested(clientId: string, submissionType: string, dateStr: string, filename: string, env: Processor.Environment)
    requires Plain(clientId) && Plain(Upload.ClaimFolder(dateStr, submissionType)) && Plain(filename)
    requires Processor.Ingest(Upload.UploadClaim(clientId, submissionType, dateStr, filename).path, env).Indexed?
    ensures var batch := Processor.Ingest(Upload.UploadClaim(clientId, submissionType, dateStr, filename).path, env).batch;
            var category := Processor.ClassifyClaimType(Processor.Sample(env.load.value), env);
            batch.target == ClaimsCollection && env.load.Ok? && category.Ok?
            && forall i :: 0 <= i < |batch.chunks| ==>
                 Processor.Carries(batch.chunks[i], Processor.Metadata("Claim", category.value, clientId, dateStr + "_" + submissionType))
  {
    var path := Upload.UploadClaim(clientId, submissionType, dateStr, filename).path;
    ClaimRoundTrip(clientId, submissionType, dateStr, filename, sample => Processor.ClassifyClaimType(sample, env), Processor.Sample(env.load.value));
    Processor.IngestIndexed(path, env);
  }

  /** A policy upload whose file is released and whose rename, load, store
      write and move all go through is indexed: a policy needs no classifier. */
  lemma PolicyUploadIndexed(category: string, timestamp: string, filename: string, env: Processor.Environment)
    requires !AllSpace(category)
    requires Plain(Upload.NormaliseCategory(category)) && Plain(timestamp) && Plain(filename)
    requires timestamp != Processor.ClaimsDir && filename != Processor.ClaimsDir
    requires Processor.FirstRelease(env.released, 0, Processor.Retries).Some?
    requires env.toTemp.Pass? && env.load.Ok? && env.add.Pass? && env.move.Pass?
    ensures Upload.UploadPolicy(category, timestamp, filename).Ok?
    ensures Processor.Ingest(Upload.UploadPolicy(category, timestamp, filename).value.path, env).Indexed?
  {
    PolicyRoundTrip(category, timestamp, filename, sample => Processor.ClassifyClaimType(sample, env), Processor.Sample(env.load.value));
    Processor.IngestIndexed(Upload.UploadPolicy(category, timestamp, filename).value.path, env);
  }

  /** A claim upload is indexed under the same conditions, provided the
      classifier also answers for the sample of the loaded pages. */
  lemma ClaimUploadIndexed(clientId: string, submissionType: string, dateStr: string, filename: string, env: Processor.Environment)
    requires Plain(clientId) && Plain(Upload.ClaimFolder(dateStr, submissionType)) && Plain(filename)
    requires Processor.FirstRelease(env.released, 0, Processor.Retries).Some?
    requires env.toTemp.Pass? && env.load.Ok? && env.add.Pass? && env.move.Pass?
    requires Processor.ClassifyClaimType(Processor.Sample(env.load.value), env).Ok?
    ensures Processor.Ingest(Upload.UploadClaim(clientId, submissionType, dateStr, filename).path, env).Indexed?
  {
    ClaimRoundTrip(clientId, submissionType, dateStr, filename, sample => Processor.ClassifyClaimType(sample, env), Processor.Sample(env.load.value));
    Processor.IngestIndexed(Upload.UploadClaim(clientId, submissionType, dateStr, filename).path, env);
  }

  /** The pipeline's policy selector reads, from a chunk the ingestion has
      stamped, the category the ingestion derived. */
  lemma SelectorReadsStampedCategory(d: Document, m: Processor.Metadata, rest: seq<Document>)
    requires Processor.Carries(d, m)
    ensures AgentOrchestrator.TopCategory([d] + rest) == m.documentCategory
  {
    assert AgentOrchestrator.CategoryKey in Processor.MetaMap(m);
  }
}
