/** The documents returned by the knowledge-base search and how a raw search hit becomes one (app.py:117-145). */
module KnowledgeSearch {
  import opened Wrappers

  /** A knowledge-base article as the bot passes it on; the score is opaque. */
  datatype KnowledgeDocument = KnowledgeDocument(
    title: string,
    content: string,
    category: string,
    url: string,
    score: int)

  /** One result of the search service: its text fields by name and its `@search.score`, when present. */
  datatype SearchHit = SearchHit(fields: map<string, string>, score: Option<int>)

  /** What the search service call produces: the results, or an exception (also one raised while iterating them). */
  datatype SearchOutcome =
    | SearchFailed(reason: string)
    | SearchSucceeded(hits: seq<SearchHit>)

  /** The number of documents the bot asks for when it answers a chat message. */
  const DefaultTopK: nat := 3

  /** Python's `d.get(key, "")`. */
  function FieldOr(fields: map<string, string>, key: string): string {
    if key in fields then fields[key] else ""
  }

  function ToDocument(h: SearchHit): KnowledgeDocument {
    KnowledgeDocument(
      FieldOr(h.fields, "title"),
      FieldOr(h.fields, "content"),
      FieldOr(h.fields, "category"),
      FieldOr(h.fields, "url"),
      h.score.GetOr(0))
  }

  /** The documents the search adapter yields: none without a client or after a failure, else one per hit in order. */
  function SearchDocuments(enabled: bool, outcome: SearchOutcome): (docs: seq<KnowledgeDocument>)
    ensures !enabled || outcome.SearchFailed? ==> docs == []
    ensures enabled && outcome.SearchSucceeded? ==>
      |docs| == |outcome.hits| &&
      forall i :: 0 <= i < |docs| ==> docs[i] == ToDocument(outcome.hits[i])
  {
    if !enabled then []
    else match outcome
      case SearchFailed(_) => []
      case SearchSucceeded(hits) => seq(|hits|, i requires 0 <= i < |hits| => ToDocument(hits[i]))
  }

  /**
   * Builds the documents one result at a time, as the adapter's loop does; a
   * missing text field becomes "" and a missing score 0.
   */
  method MapResults(hits: seq<SearchHit>) returns (documents: seq<KnowledgeDocument>)
    ensures documents == SearchDocuments(true, SearchSucceeded(hits))
    ensures |documents| == |hits|
    ensures forall i :: 0 <= i < |hits| ==>
      var f := hits[i].fields;
      documents[i].title == (if "title" in f then f["title"] else "") &&
      documents[i].content == (if "content" in f then f["content"] else "") &&
      documents[i].category == (if "category" in f then f["category"] else "") &&
      documents[i].url == (if "url" in f then f["url"] else "") &&
      documents[i].score == (if hits[i].score.Some? then hits[i].score.value else 0)
  {
    documents := [];
    var i := 0;
    while i < |hits|
      invariant 0 <= i <= |hits|
      invariant |documents| == i
      invariant forall k :: 0 <= k < i ==> documents[k] == ToDocument(hits[k])
    {
      documents := documents + [ToDocument(hits[i])];
      i := i + 1;
    }
  }
}
