/** The storage endpoints of the API: a policy upload under a mandatory,
    normalised category and a claim upload under the client and the day,
    each answered with the path the file is written to. The clock is given as
    the already formatted timestamp and date strings. */
module Upload {
  import opened Wrappers
  import opened Text
  import opened Paths
  import Processor

  /** `BASE_DIR`, the storage root the watcher also observes. */
  const BaseDir: seq<string> := ["D:", "pY", "InsuranceRAG", "storage"]

  const PoliciesDir: string := "policies"

  const MissingCategory: string := "Document classification category is mandatory."
  const PolicyUploaded: string := "Policy uploaded and classified"
  const ClaimSubmitted: string := "Claim submitted"

  datatype HttpError = HttpError(status: nat, detail: string)

  datatype PolicyReceipt = PolicyReceipt(message: string, category: string, path: string)

  datatype ClaimReceipt = ClaimReceipt(message: string, path: string)

  /** `category.strip().capitalize()`. */
  function NormaliseCategory(category: string): (r: string)
    ensures |r| == |Strip(category)| <= |category|
    ensures Trimmed(r)
    ensures |r| > 0 ==> !IsLower(r[0])
    ensures forall i :: 1 <= i < |r| ==> !IsUpper(r[i])
    ensures r == "" <==> AllSpace(category)
    ensures LeadingSpace(category) + |r| <= |category|
    ensures forall i :: 0 <= i < |r| ==> LowerChar(r[i]) == LowerChar(category[LeadingSpace(category) + i])
  {
    var stripped := Strip(category);
    StripShape(category);
    assert forall i :: 0 <= i < |stripped| ==> stripped[i] == category[LeadingSpace(category) + i];
    StripEmptyIff(category);
    CapitalizeTrimmed(stripped);
    CapitalizeShape(stripped);
    Capitalize(stripped)
  }

  /** The components of a policy's storage path. */
  function PolicyComponents(category: string, timestamp: string, filename: string): seq<string>
  {
    BaseDir + [PoliciesDir, category, timestamp, filename]
  }

  /** The folder a claim goes to: the day and the submission type. */
  function ClaimFolder(dateStr: string, submissionType: string): string
  {
    dateStr + "_" + submissionType
  }

  function ClaimComponents(clientId: string, dateStr: string, submissionType: string, filename: string): seq<string>
  {
    BaseDir + [Processor.ClaimsDir, clientId, ClaimFolder(dateStr, submissionType), filename]
  }

  /** `upload_policy`: a category that is empty once normalised is refused
      with status 400; otherwise the file goes under the normalised category
      and the timestamp, and the receipt echoes that category. */
  function UploadPolicy(category: string, timestamp: string, filename: string): (r: Result<PolicyReceipt, HttpError>)
    ensures r.Err? <==> AllSpace(category)
    ensures r.Err? ==> r.error == HttpError(400, MissingCategory)
    ensures r.Ok? ==> r.value.message == PolicyUploaded
                      && r.value.category == NormaliseCategory(category)
                      && r.value.path == PathJoin(PolicyComponents(NormaliseCategory(category), timestamp, filename))
  {
    var normalised := NormaliseCategory(category);
    if normalised == "" then Err(HttpError(400, MissingCategory))
    else Ok(PolicyReceipt(PolicyUploaded, normalised, PathJoin(PolicyComponents(normalised, timestamp, filename))))
  }

  /** `upload_claim`: the file goes under the client and a folder named by the
      day and the submission type. */
  function UploadClaim(clientId: string, submissionType: string, dateStr: string, filename: string): ClaimReceipt
  {
    ClaimReceipt(ClaimSubmitted, PathJoin(ClaimComponents(clientId, dateStr, submissionType, filename)))
  }

  /** Normalising a normalised category changes nothing. */
  lemma NormaliseIdempotent(category: string)
    ensures NormaliseCategory(NormaliseCategory(category)) == NormaliseCategory(category)
  {
    var n := NormaliseCategory(category);
    StripTrimmed(n);
    CapitalizeFixed(n);
  }

  /** A normalised category is never a lower-case word, so never `claims`. */
  lemma NormalisedNotClaims(category: string)
    ensures NormaliseCategory(category) != Processor.ClaimsDir
  {
    assert Processor.ClaimsDir[0] == 'c';
  }
}
