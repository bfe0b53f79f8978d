/** The Medline corpus readers of MED.py.  Documents and queries are records that start
    with a `.I <number>` line and hold a single `.W` field; judgements are lines
    "query 0 document 1" whose third field is the document. */
module Med {
  import opened Wrappers
  import opened Text
  import opened Markup
  import Qrels
  import MapEvaluator
  import Sweep

  /** The record marker `\.I \d+`, without its digits. */
  const Marker := ".I "

  /** The stops of `(\.I|$)`. */
  const TextStops := [Lit(".I"), End]

  /** The text of one record: its `.W` field stripped, "" when there is none.  Newlines
      inside the field are kept. */
  function RecordText(record: string): (r: string)
    ensures Stripped(r)
  {
    Strip(FieldOr(record, Tag(".W"), TextStops))
  }

  /** The texts of the given records, in order. */
  function TextsOf(records: seq<string>): (ts: seq<string>)
    ensures |ts| == |records|
  {
    seq(|records|, i requires 0 <= i < |records| => RecordText(records[i]))
  }

  /** The texts of a file, one per record. */
  function Texts(content: string): (ts: seq<string>)
    ensures |ts| == |Records(content, Marker)|
  {
    TextsOf(Records(content, Marker))
  }

  /** `parse_documents` (MED.py:13-20): one text per record, in file order, including the
      empty text of a record without `.W`. */
  method ParseDocuments(content: string) returns (docs: seq<string>)
    ensures docs == Texts(content)
    ensures |docs| == |SplitOnMarker(content, Marker).1|
    ensures forall i :: 0 <= i < |docs| ==> Stripped(docs[i])
  {
    var records := Records(content, Marker);
    docs := ReadTexts(records);
  }

  /** The loop of `parse_documents` (MED.py:16-19) over the records. */
  method ReadTexts(records: seq<string>) returns (docs: seq<string>)
    ensures docs == TextsOf(records)
  {
    docs := [];
    for i := 0 to |records|
      invariant |docs| == i
      invariant forall k :: 0 <= k < i ==> docs[k] == RecordText(records[k])
    {
      var doc := records[i];
      var text := FieldOr(doc, Tag(".W"), TextStops);
      docs := docs + [Strip(text)];
    }
  }

  /** `parse_queries` (MED.py:22-29) reads queries exactly as documents are read. */
  method ParseQueries(content: string) returns (queries: seq<string>)
    ensures queries == Texts(content)
    ensures |queries| == |SplitOnMarker(content, Marker).1|
    ensures forall i :: 0 <= i < |queries| ==> Stripped(queries[i])
  {
    queries := ParseDocuments(content);
  }

  /** A record without `.W` reads as the empty text, and still counts as a record. */
  lemma UntaggedRecord(record: string)
    requires !Contains(record, ".W")
    ensures RecordText(record) == ""
  {
    AbsentOpenerNoField(record, 0, Tag(".W"), TextStops);
  }

  /** A record whose `.W` field is found reads as that field, stripped; the field is
      non-empty and ends at `.I` or at the end of the record. */
  lemma TaggedRecord(record: string)
    requires Search(record, 0, Tag(".W"), TextStops).Some?
    ensures var (g, j) := Search(record, 0, Tag(".W"), TextStops).value;
      g < j && RecordText(record) == Strip(record[g..j])
      && (StartsWithAt(record, j, ".I") || j == |record| || (j + 1 == |record| && record[j] == '\n'))
  {
    var (g, j) := Search(record, 0, Tag(".W"), TextStops).value;
    LiteralOrEnd(record, j, ".I");
  }

  /** `parse_qrels` (MED.py:31-41): the query id in field 0, the document id in field 2;
      field 1 is never read. */
  method ParseQrels(lines: seq<string>) returns (r: Result<Qrels.Judgements, Qrels.QrelsError>)
    ensures r == Qrels.Accumulate(lines, Qrels.PairColumn(2))
  {
    r := Qrels.ParseLines(lines, Qrels.PairColumn(2));
  }

  /** A MED judgement line records the pair (field 0, field 2), whatever field 1 holds. */
  lemma SecondFieldIgnored(line: string, other: string, q: int, d: int)
    requires |Qrels.Fields(line)| >= 3 && |Qrels.Fields(other)| >= 3
    requires Qrels.Fields(other)[0] == Qrels.Fields(line)[0] && Qrels.Fields(other)[2] == Qrels.Fields(line)[2]
    ensures Qrels.Entry(other, Qrels.PairColumn(2)) == Qrels.Entry(line, Qrels.PairColumn(2))
    ensures Qrels.Records(Qrels.Entry(line, Qrels.PairColumn(2)), q, d) <==>
      Qrels.Column(line, 0) == Some(q) && Qrels.Column(line, 2) == Some(d)
  {
    Qrels.PairRecords(line, 2, q, d);
  }

  /** `process_dataset` (MED.py:43-84) from the contents of the documents and queries
      files and the lines of the judgements file: no stopwords; a judgements line that
      raises stops it before any run. */
  method ProcessDataset(docContent: string, queryContent: string, qrelsLines: seq<string>,
                        stem: string -> string, similarity: Sweep.Similarity, rank: seq<real> -> seq<int>)
    returns (r: Result<seq<Sweep.Run>, Qrels.QrelsError>)
    requires forall scores: seq<real> :: MapEvaluator.IsRanking(scores, rank(scores))
    ensures r.Success? <==> Qrels.Accumulate(qrelsLines, Qrels.PairColumn(2)).Success?
    ensures r.Success? ==> Sweep.Ranked(r.value,
      Sweep.Appended("med", Texts(docContent), Texts(queryContent), {},
                     Qrels.Accumulate(qrelsLines, Qrels.PairColumn(2)).value, stem, similarity, rank))
  {
    var qrels := ParseQrels(qrelsLines);
    if qrels.Failure? {
      return Failure(qrels.error);
    }
    var documents := ParseDocuments(docContent);
    var queries := ParseQueries(queryContent);
    var stopwords: set<string> := {};
    var results := Sweep.ProcessDataset("med", documents, queries, stopwords, qrels.value, stem, similarity, rank);
    r := Success(results);
  }
}
