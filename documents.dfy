/** The values the retrieval store trades in: a document (a text with string
    metadata, as LangChain's `Document`) and the collections the core reads
    and writes. */
module Documents {

  datatype Document = Document(pageContent: string, metadata: map<string, string>)

  /** `policy_master_collection` and `claims_collection`, the two indices the
      ingestion writes and the evaluation pipeline searches. */
  datatype Collection = PolicyCollection | ClaimsCollection

  /** The texts of a ranked document list, in rank order. */
  function Texts(docs: seq<Document>): (r: seq<string>)
    ensures |r| == |docs|
    ensures forall i :: 0 <= i < |docs| ==> r[i] == docs[i].pageContent
  {
    seq(|docs|, i requires 0 <= i < |docs| => docs[i].pageContent)
  }
}
