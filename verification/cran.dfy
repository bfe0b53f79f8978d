/** The Cranfield corpus readers of CRAN.py.  Documents and queries are records that
    start with a `.I <number>` line; inside a record, `.T`, `.A`, `.B`, `.W` open the
    title, authors, bibliographic line and abstract.  Judgements are lines
    "query document relevance". */
module Cran {
  import opened Wrappers
  import opened Text
  import opened Markup
  import Qrels
  import MapEvaluator
  import Sweep

  /** The record marker `\.I \d+`, without its digits. */
  const Marker := ".I "

  /** The stops of the title (`\.(A|B|W|N|X)`), of the bibliographic line
      (`\.(T|A|W|N|X)`), of the abstract (`\.(T|A|B|N|X|$)`) and of a query
      (`(?=\.I|$)`). */
  const TitleStops := [Lit(".A"), Lit(".B"), Lit(".W"), Lit(".N"), Lit(".X")]
  const BodyStops := [Lit(".T"), Lit(".A"), Lit(".W"), Lit(".N"), Lit(".X")]
  const AbstractStops := [Lit(".T"), Lit(".A"), Lit(".B"), Lit(".N"), Lit(".X"), DotEnd]
  const QueryStops := [Lit(".I"), End]

  /** The text of one document record: title, bibliographic line and abstract, each ""
      when absent, joined by spaces, on one stripped line. */
  function DocumentText(record: string): string {
    OneLine(FieldOr(record, Tag(".T"), TitleStops) + " " + FieldOr(record, Tag(".B"), BodyStops) + " "
            + FieldOr(record, Tag(".W"), AbstractStops))
  }

  /** The documents of the given records, in order. */
  function DocumentsOf(records: seq<string>): (docs: seq<string>)
    ensures |docs| == |records|
  {
    seq(|records|, i requires 0 <= i < |records| => DocumentText(records[i]))
  }

  /** The documents of a file, one per record. */
  function Documents(content: string): (docs: seq<string>)
    ensures |docs| == |Records(content, Marker)|
  {
    DocumentsOf(Records(content, Marker))
  }

  /** `parse_documents` (CRAN.py:13-24): one text per record, in file order. */
  method ParseDocuments(content: string) returns (docs: seq<string>)
    ensures docs == Documents(content)
    ensures |docs| == |SplitOnMarker(content, Marker).1|
    ensures forall i :: 0 <= i < |docs| ==> Stripped(docs[i]) && '\n' !in docs[i]
  {
    var records := Records(content, Marker);
    docs := ReadDocuments(records);
  }

  /** The loop of `parse_documents` (CRAN.py:16-23) over the records. */
  method ReadDocuments(records: seq<string>) returns (docs: seq<string>)
    ensures docs == DocumentsOf(records)
  {
    docs := [];
    for i := 0 to |records|
      invariant |docs| == i
      invariant forall k :: 0 <= k < i ==> docs[k] == DocumentText(records[k])
    {
      var doc := records[i];
      var title := FieldOr(doc, Tag(".T"), TitleStops);
      var body := FieldOr(doc, Tag(".B"), BodyStops);
      var summary := FieldOr(doc, Tag(".W"), AbstractStops);
      var text := title + " " + body + " " + summary;
      docs := docs + [OneLine(text)];
    }
  }

  /** A record with no `.T`, `.B` or `.W` tag reads as the empty document. */
  lemma UntaggedRecord(record: string)
    requires !Contains(record, ".T") && !Contains(record, ".B") && !Contains(record, ".W")
    ensures DocumentText(record) == ""
  {
    AbsentOpenerNoField(record, 0, Tag(".T"), TitleStops);
    AbsentOpenerNoField(record, 0, Tag(".B"), BodyStops);
    AbsentOpenerNoField(record, 0, Tag(".W"), AbstractStops);
    var t := "" + " " + "" + " " + "";
    assert forall k :: 0 <= k < |t| ==> IsSpace(t[k]);
  }

  /** The query of one record: its `.W` field on one stripped line, or none without one. */
  function QueryText(record: string): Option<string> {
    match Search(record, 0, Tag(".W"), QueryStops)
    case Some((g, j)) => Some(OneLine(record[g..j]))
    case None => None
  }

  /** The queries of the given records, skipping records without a query. */
  function QueriesOf(records: seq<string>): (qs: seq<string>)
    ensures |qs| <= |records|
    ensures forall i :: 0 <= i < |qs| ==> Stripped(qs[i]) && '\n' !in qs[i]
  {
    if records == [] then []
    else
      QueriesOf(records[..|records| - 1])
      + match QueryText(records[|records| - 1]) case Some(q) => [q] case None => []
  }

  function Queries(content: string): seq<string> {
    QueriesOf(Records(content, Marker))
  }

  /** `parse_queries` (CRAN.py:26-34): the `.W` text of every record that has one. */
  method ParseQueries(content: string) returns (queries: seq<string>)
    ensures queries == Queries(content)
    ensures |queries| <= |SplitOnMarker(content, Marker).1|
    ensures forall i :: 0 <= i < |queries| ==> Stripped(queries[i]) && '\n' !in queries[i]
  {
    var records := Records(content, Marker);
    queries := ReadQueries(records);
  }

  /** The loop of `parse_queries` (CRAN.py:29-33) over the records. */
  method ReadQueries(records: seq<string>) returns (queries: seq<string>)
    ensures queries == QueriesOf(records)
  {
    queries := [];
    for i := 0 to |records|
      invariant queries == QueriesOf(records[..i])
    {
      var query := records[i];
      assert records[..i + 1][..i] == records[..i];
      var text := Search(query, 0, Tag(".W"), QueryStops);
      if text.Some? {
        var parsedQuery := OneLine(query[text.value.0..text.value.1]);
        queries := queries + [parsedQuery];
      }
    }
    assert records[..|records|] == records;
  }

  /** A record without `.W` gives no query; a record with one gives exactly one. */
  lemma QueryPerRecord(records: seq<string>, record: string)
    ensures !Contains(record, ".W") ==> QueriesOf(records + [record]) == QueriesOf(records)
    ensures QueryText(record).Some? ==> QueriesOf(records + [record]) == QueriesOf(records) + [QueryText(record).value]
  {
    assert (records + [record])[..|records|] == records;
    if !Contains(record, ".W") {
      AbsentOpenerNoField(record, 0, Tag(".W"), QueryStops);
    }
  }

  /** `parse_qrels` (CRAN.py:36-46): the query id in field 0, the document id in field 1;
      a blank or short line raises IndexError, a non-integer field ValueError. */
  method ParseQrels(lines: seq<string>) returns (r: Result<Qrels.Judgements, Qrels.QrelsError>)
    ensures r == Qrels.Accumulate(lines, Qrels.PairColumn(1))
  {
    r := Qrels.ParseLines(lines, Qrels.PairColumn(1));
  }

  /** `process_dataset` (CRAN.py:48-89) from the contents of the documents and queries
      files and the lines of the judgements file: no stopwords; a judgements line that
      raises stops it before any run. */
  method ProcessDataset(docContent: string, queryContent: string, qrelsLines: seq<string>,
                        stem: string -> string, similarity: Sweep.Similarity, rank: seq<real> -> seq<int>)
    returns (r: Result<seq<Sweep.Run>, Qrels.QrelsError>)
    requires forall scores: seq<real> :: MapEvaluator.IsRanking(scores, rank(scores))
    ensures r.Success? <==> Qrels.Accumulate(qrelsLines, Qrels.PairColumn(1)).Success?
    ensures r.Success? ==> Sweep.Ranked(r.value,
      Sweep.Appended("cran", Documents(docContent), Queries(queryContent), {},
                     Qrels.Accumulate(qrelsLines, Qrels.PairColumn(1)).value, stem, similarity, rank))
  {
    var qrels := ParseQrels(qrelsLines);
    if qrels.Failure? {
      return Failure(qrels.error);
    }
    var documents := ParseDocuments(docContent);
    var queries := ParseQueries(queryContent);
    var stopwords: set<string> := {};
    var results := Sweep.ProcessDataset("cran", documents, queries, stopwords, qrels.value, stem, similarity, rank);
    r := Success(results);
  }
}
