/** The CACM corpus readers of cacm.py.  Documents and queries are records that start with
    a `.I <number>` line; a document has a `.T` title ended by `.B`, and a `.B` body ended
    by `.A`, `.N`, `.X` or the end; a query has a `.W` field ended by `.N` or the end.
    Judgements are lines "query document ...". */
module Cacm {
  import opened Wrappers
  import opened Text
  import opened Markup
  import Qrels
  import MapEvaluator
  import Sweep

  /** The record marker `\.I \d+`, without its digits. */
  const Marker := ".I "

  /** The stops of the title (`\.B`), of the body (`(\.A|\.N|\.X|$)`) and of a query
      (`(\.N|$)`). */
  const TitleStops := [Lit(".B")]
  const BodyStops := [Lit(".A"), Lit(".N"), Lit(".X"), End]
  const QueryStops := [Lit(".N"), End]

  /** The text of one document record: title, a space, body, each "" when absent, stripped.
      Newlines inside the fields are kept. */
  function DocumentText(record: string): (r: string)
    ensures Stripped(r)
  {
    Strip(FieldOr(record, Tag(".T"), TitleStops) + " " + FieldOr(record, Tag(".B"), BodyStops))
  }

  /** The documents of the given records, in order. */
  function DocumentsOf(records: seq<string>): (docs: seq<string>)
    ensures |docs| == |records|
  {
    seq(|records|, i requires 0 <= i < |records| => DocumentText(records[i]))
  }

  /** The documents of a file, one per record. */
  function Documents(content: string): (docs: seq<string>)
    ensures |docs| == |Records(content, Marker)|
  {
    DocumentsOf(Records(content, Marker))
  }

  /** `parse_documents` (cacm.py:14-22): one text per record, in file order. */
  method ParseDocuments(content: string) returns (docs: seq<string>)
    ensures docs == Documents(content)
    ensures |docs| == |SplitOnMarker(content, Marker).1|
    ensures forall i :: 0 <= i < |docs| ==> Stripped(docs[i])
  {
    var records := Records(content, Marker);
    docs := ReadDocuments(records);
  }

  /** The loop of `parse_documents` (cacm.py:17-21) over the records. */
  method ReadDocuments(records: seq<string>) returns (docs: seq<string>)
    ensures docs == DocumentsOf(records)
  {
    docs := [];
    for i := 0 to |records|
      invariant |docs| == i
      invariant forall k :: 0 <= k < i ==> docs[k] == DocumentText(records[k])
    {
      var doc := records[i];
      var title := FieldOr(doc, Tag(".T"), TitleStops);
      var body := FieldOr(doc, Tag(".B"), BodyStops);
      var text := title + " " + body;
      docs := docs + [Strip(text)];
    }
  }

  /** A record with neither a `.T` nor a `.B` tag reads as the empty document, which is
      kept in its place. */
  lemma UntaggedRecord(record: string)
    requires !Contains(record, ".T") && !Contains(record, ".B")
    ensures DocumentText(record) == ""
  {
    AbsentOpenerNoField(record, 0, Tag(".T"), TitleStops);
    AbsentOpenerNoField(record, 0, Tag(".B"), BodyStops);
    var blank: string := " ";
    assert IsSpace(blank[0]);
  }

  /** A record whose title is found reads as a text that starts with the title's first
      non-blank character: the title is never lost when the regex finds it. */
  lemma TitleLeads(record: string)
    requires Search(record, 0, Tag(".T"), TitleStops).Some?
    requires !IsSpace(FieldOr(record, Tag(".T"), TitleStops)[0])
    ensures DocumentText(record) != [] && DocumentText(record)[0] == FieldOr(record, Tag(".T"), TitleStops)[0]
  {
    var t := FieldOr(record, Tag(".T"), TitleStops) + " " + FieldOr(record, Tag(".B"), BodyStops);
    assert t[0] == FieldOr(record, Tag(".T"), TitleStops)[0];
    assert |TrimLeft(t)| == |t|;
  }

  /** The query of one record: its `.W` field stripped, "" when there is none. */
  function QueryText(record: string): (r: string)
    ensures Stripped(r)
  {
    Strip(FieldOr(record, Tag(".W"), QueryStops))
  }

  /** The queries of the given records, in order. */
  function QueriesOf(records: seq<string>): (qs: seq<string>)
    ensures |qs| == |records|
  {
    seq(|records|, i requires 0 <= i < |records| => QueryText(records[i]))
  }

  /** The queries of a file, one per record. */
  function Queries(content: string): (qs: seq<string>)
    ensures |qs| == |Records(content, Marker)|
  {
    QueriesOf(Records(content, Marker))
  }

  /** `parse_queries` (cacm.py:24-30): one query per record, in file order, including the
      empty query of a record without `.W`. */
  method ParseQueries(content: string) returns (queries: seq<string>)
    ensures queries == Queries(content)
    ensures |queries| == |SplitOnMarker(content, Marker).1|
    ensures forall i :: 0 <= i < |queries| ==> Stripped(queries[i])
  {
    var records := Records(content, Marker);
    queries := ReadQueries(records);
  }

  /** The loop of `parse_queries` (cacm.py:26-29) over the records. */
  method ReadQueries(records: seq<string>) returns (queries: seq<string>)
    ensures queries == QueriesOf(records)
  {
    queries := [];
    for i := 0 to |records|
      invariant |queries| == i
      invariant forall k :: 0 <= k < i ==> queries[k] == QueryText(records[k])
    {
      var query := records[i];
      var text := FieldOr(query, Tag(".W"), QueryStops);
      queries := queries + [Strip(text)];
    }
  }

  /** A record without `.W` reads as the empty query. */
  lemma UnaskedRecord(record: string)
    requires !Contains(record, ".W")
    ensures QueryText(record) == ""
  {
    AbsentOpenerNoField(record, 0, Tag(".W"), QueryStops);
  }

  /** A record whose `.W` field is found reads as that field, stripped; the field is
      non-empty and ends at `.N` or at the end of the record. */
  lemma AskedRecord(record: string)
    requires Search(record, 0, Tag(".W"), QueryStops).Some?
    ensures var (g, j) := Search(record, 0, Tag(".W"), QueryStops).value;
      g < j && QueryText(record) == Strip(record[g..j])
      && (StartsWithAt(record, j, ".N") || j == |record| || (j + 1 == |record| && record[j] == '\n'))
  {
    var (g, j) := Search(record, 0, Tag(".W"), QueryStops).value;
    LiteralOrEnd(record, j, ".N");
  }

  /** The local `parse_qrels` (cacm.py:32-42): the query id in field 0, the document id in
      field 1; a blank or short line raises IndexError, a non-integer field ValueError. */
  method ParseQrels(lines: seq<string>) returns (r: Result<Qrels.Judgements, Qrels.QrelsError>)
    ensures r == Qrels.Accumulate(lines, Qrels.PairColumn(1))
  {
    r := Qrels.ParseLines(lines, Qrels.PairColumn(1));
  }

  /** `read_stopwords` (functions.py:13-18) on the contents of a named file: the set of
      its whitespace-separated words. */
  function StopwordSet(content: string): (r: set<string>)
    ensures forall w :: w in r ==> w != [] && NoSpace(w)
    ensures forall k :: 0 <= k < |Split(content)| ==> Split(content)[k] in r
    ensures forall w :: w in r ==> w in Split(content)
  {
    set w | w in Split(content)
  }

  /** The names bound at the top level of functions.py: its imports, its functions and
      its class.  `functions.<name>` resolves only to one of these. */
  const FunctionsNames: set<string> := {
    "re", "np", "TfidfVectorizer", "cosine_similarity", "normalize", "PorterStemmer",
    "read_file", "read_stopwords", "preprocess_text", "CustomTfidfVectorizer",
    "compute_tfidf_and_similarity", "calculate_map"
  }

  /** What the driver raises. */
  datatype DriverError = AttributeError(name: string) | QrelsError(error: Qrels.QrelsError)

  /** `process_dataset` as cacm.py:44-83 writes it: after reading the stopwords it calls
      `functions.parse_qrels`, a name functions.py does not bind, so every run raises
      AttributeError before any document is parsed or scored. */
  method ProcessDatasetAsWritten(docContent: string, queryContent: string, stopwordsContent: string,
                                 qrelsLines: seq<string>, stem: string -> string,
                                 similarity: Sweep.Similarity, rank: seq<real> -> seq<int>)
    returns (r: Result<seq<Sweep.Run>, DriverError>)
    ensures r.Failure? && r.error == AttributeError("parse_qrels")
  {
    var stopwords := StopwordSet(stopwordsContent);
    // The attribute lookup `functions.parse_qrels` fails: the module binds no such name.
    assert "parse_qrels" !in FunctionsNames;
    return Failure(AttributeError("parse_qrels"));
  }

  /** `process_dataset` with the judgements read by the local `parse_qrels`, as evidently
      intended: a judgements line that raises stops it before any run; otherwise it
      returns the 512 runs of the sweep, ranked. */
  method ProcessDataset(docContent: string, queryContent: string, stopwordsContent: string,
                        qrelsLines: seq<string>, stem: string -> string,
                        similarity: Sweep.Similarity, rank: seq<real> -> seq<int>)
    returns (r: Result<seq<Sweep.Run>, DriverError>)
    requires forall scores: seq<real> :: MapEvaluator.IsRanking(scores, rank(scores))
    ensures r.Success? <==> Qrels.Accumulate(qrelsLines, Qrels.PairColumn(1)).Success?
    ensures r.Failure? ==> r.error == QrelsError(Qrels.Accumulate(qrelsLines, Qrels.PairColumn(1)).error)
    ensures r.Success? ==> Sweep.Ranked(r.value,
      Sweep.Appended("cacm", Documents(docContent), Queries(queryContent), StopwordSet(stopwordsContent),
                     Qrels.Accumulate(qrelsLines, Qrels.PairColumn(1)).value, stem, similarity, rank))
  {
    var stopwords := StopwordSet(stopwordsContent);
    var qrels := ParseQrels(qrelsLines);
    if qrels.Failure? {
      return Failure(QrelsError(qrels.error));
    }
    var documents := ParseDocuments(docContent);
    var queries := ParseQueries(queryContent);
    var results := Sweep.ProcessDataset("cacm", documents, queries, stopwords, qrels.value, stem, similarity, rank);
    r := Success(results);
  }
}
