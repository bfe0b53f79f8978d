/** The TIME corpus readers of time-data.py.  Documents are records that start with a
    `*TEXT <number>` line and carry their text after a `PAGE <number>` header and a blank
    line; queries are the blocks after `*FIND <number>` headers; judgements are lines
    "query document document ..."; stopwords are one per line. */
module TimeData {
  import opened Wrappers
  import opened Text
  import opened Markup
  import Qrels
  import MapEvaluator
  import Normalizer
  import Sweep

  /** The record marker `\*TEXT \d+`, without its digits. */
  const Marker := "*TEXT "

  /** The opener `PAGE \d+\n\n` and the stops `(?=\*TEXT|$)` of a document text. */
  const PageHeader := Header("PAGE ")
  const TextStops := [Lit("*TEXT"), End]

  /** The opener `\*FIND\s+\d+\n\n` and the stops `(?=\*FIND|$)` of a query. */
  const FindHeader := SpacedHeader("*FIND")
  const FindStops := [Lit("*FIND"), End]

  /** The text of one document record: what follows its page header, stripped, or ""
      when it has none. */
  function DocumentText(record: string): (r: string)
    ensures Stripped(r)
  {
    Strip(FieldOr(record, PageHeader, TextStops))
  }

  /** The documents of the given records, in order. */
  function DocumentsOf(records: seq<string>): (docs: seq<string>)
    ensures |docs| == |records|
  {
    seq(|records|, i requires 0 <= i < |records| => DocumentText(records[i]))
  }

  /** The documents of a file, one per record. */
  function Documents(content: string): (docs: seq<string>)
    ensures |docs| == |Records(content, Marker)|
  {
    DocumentsOf(Records(content, Marker))
  }

  /** `parse_documents` (time-data.py:14-20): one text per record, in file order,
      including the empty text of a record without a page header. */
  method ParseDocuments(content: string) returns (docs: seq<string>)
    ensures docs == Documents(content)
    ensures |docs| == |SplitOnMarker(content, Marker).1|
    ensures forall i :: 0 <= i < |docs| ==> Stripped(docs[i])
  {
    var records := Records(content, Marker);
    docs := ReadDocuments(records);
  }

  /** The loop of `parse_documents` (time-data.py:17-19) over the records. */
  method ReadDocuments(records: seq<string>) returns (docs: seq<string>)
    ensures docs == DocumentsOf(records)
  {
    docs := [];
    for i := 0 to |records|
      invariant |docs| == i
      invariant forall k :: 0 <= k < i ==> docs[k] == DocumentText(records[k])
    {
      var doc := records[i];
      var text := FieldOr(doc, PageHeader, TextStops);
      docs := docs + [Strip(text)];
    }
  }

  /** A record without `PAGE ` reads as the empty text, kept in its place. */
  lemma UnpagedRecord(record: string)
    requires !Contains(record, "PAGE ")
    ensures DocumentText(record) == ""
  {
    AbsentOpenerNoField(record, 0, PageHeader, TextStops);
  }

  /** A record whose page header is found reads as the text after the header's blank
      line, stripped, up to `*TEXT` or the end of the record. */
  lemma PagedRecord(record: string)
    requires Search(record, 0, PageHeader, TextStops).Some?
    ensures var (g, j) := Search(record, 0, PageHeader, TextStops).value;
      2 <= g < j && record[g - 2..g] == "\n\n" && DocumentText(record) == Strip(record[g..j])
      && (StartsWithAt(record, j, "*TEXT") || j == |record| || (j + 1 == |record| && record[j] == '\n'))
  {
    var (g, j) := Search(record, 0, PageHeader, TextStops).value;
    HeaderBlankLine(record, 0, PageHeader, TextStops);
    LiteralOrEnd(record, j, "*TEXT");
  }

  /** `parse_queries` (time-data.py:22-24): the stripped body of every `*FIND` block, in
      file order. */
  function Queries(content: string): (qs: seq<string>)
    ensures |qs| == |FindAllSpans(content, 0, FindHeader, FindStops)|
    ensures forall k :: 0 <= k < |qs| ==> Stripped(qs[k])
  {
    var bodies := FindAll(content, FindHeader, FindStops);
    seq(|bodies|, k requires 0 <= k < |bodies| => Strip(bodies[k]))
  }

  /** Query k is the stripped text of the k-th `*FIND` block, and the blocks follow each
      other in the file without overlapping. */
  lemma QueryBlocks(content: string)
    ensures var spans := FindAllSpans(content, 0, FindHeader, FindStops);
      && (forall k :: 0 <= k < |spans| ==> Queries(content)[k] == Strip(content[spans[k].0..spans[k].1]))
      && (forall k, l :: 0 <= k < l < |spans| ==> spans[k].1 < spans[l].0)
  {
    var bodies := FindAll(content, FindHeader, FindStops);
    assert forall k :: 0 <= k < |bodies| ==> Queries(content)[k] == Strip(bodies[k]);
    forall k, l | 0 <= k < l < |FindAllSpans(content, 0, FindHeader, FindStops)|
      ensures FindAllSpans(content, 0, FindHeader, FindStops)[k].1 < FindAllSpans(content, 0, FindHeader, FindStops)[l].0
    {
      FindAllOrdered(content, 0, FindHeader, FindStops, k, l);
    }
  }

  /** No block body runs into a later `*FIND`: it ends at the first `*FIND` after its
      start, or at the end of the file. */
  lemma QueryBlockEnds(content: string, k: nat)
    requires k < |FindAllSpans(content, 0, FindHeader, FindStops)|
    ensures var (g, j) := FindAllSpans(content, 0, FindHeader, FindStops)[k];
      && (forall p :: g < p < j ==> !StartsWithAt(content, p, "*FIND"))
      && (StartsWithAt(content, j, "*FIND") || j == |content| || (j + 1 == |content| && content[j] == '\n'))
  {
    var (g, j) := FindAllSpans(content, 0, FindHeader, FindStops)[k];
    FindAllSpan(content, 0, FindHeader, FindStops, k);
    forall p | g < p < j ensures !StartsWithAt(content, p, "*FIND") {
      assert !AnyStop(content, p, FindStops);
    }
    LiteralOrEnd(content, j, "*FIND");
  }

  /** The blocks are exactly what repeated `re.search` finds: block k is what it finds
      from the end of block k - 1 (from the start of the file for the first), and a search
      from the end of the last block finds nothing. */
  lemma QuerySearches(content: string)
    ensures var spans := FindAllSpans(content, 0, FindHeader, FindStops);
      && (forall k :: 0 <= k < |spans| ==>
            Search(content, SearchFrom(spans, 0, k), FindHeader, FindStops) == Some(spans[k]))
      && Search(content, SearchFrom(spans, 0, |spans|), FindHeader, FindStops).None?
  {
    var spans := FindAllSpans(content, 0, FindHeader, FindStops);
    forall k | 0 <= k < |spans|
      ensures Search(content, SearchFrom(spans, 0, k), FindHeader, FindStops) == Some(spans[k])
    {
      FindAllSearches(content, 0, FindHeader, FindStops, k);
    }
    FindAllExhausts(content, 0, FindHeader, FindStops);
  }

  /** Block k is what `re.search` finds from the end of block k - 1 (from the start of the
      file for the first): its header is the leftmost match of `\*FIND\s+\d+\n\n` at or
      after there, and the block starts right after that header's blank line. */
  lemma QueryHeader(content: string, k: nat)
    requires k < |FindAllSpans(content, 0, FindHeader, FindStops)|
    ensures var spans := FindAllSpans(content, 0, FindHeader, FindStops);
      var p := MatchStart(content, SearchFrom(spans, 0, k), FindHeader, FindStops);
      && p.Some? && SearchFrom(spans, 0, k) <= p.value
      && MatchAt(content, p.value, FindHeader, FindStops) == Some(spans[k])
      && StartsWithAt(content, p.value, "*FIND")
      && SpacesThenDigits(content, p.value + 5, spans[k].0 - 2)
      && StartsWithAt(content, spans[k].0 - 2, "\n\n")
  {
    var spans := FindAllSpans(content, 0, FindHeader, FindStops);
    FindAllSearches(content, 0, FindHeader, FindStops, k);
    SearchSpacedHeader(content, SearchFrom(spans, 0, k), "*FIND", FindStops);
    assert |"*FIND"| == 5;
  }

  /** After the end of the last block (or anywhere, when there is none) no header of a
      further block matches. */
  lemma NoMoreHeaders(content: string)
    ensures var spans := FindAllSpans(content, 0, FindHeader, FindStops);
      forall p :: SearchFrom(spans, 0, |spans|) <= p < |content| ==>
        MatchAt(content, p, FindHeader, FindStops).None?
  {
    var spans := FindAllSpans(content, 0, FindHeader, FindStops);
    FindAllExhausts(content, 0, FindHeader, FindStops);
    SearchLeftmost(content, SearchFrom(spans, 0, |spans|), FindHeader, FindStops);
  }

  /** No query is lost: a `*FIND`, whitespace, digits and a blank line with at least one
      character after it lie before the end of the last block. */
  lemma EveryHeaderRead(content: string, p: nat, d: nat)
    requires StartsWithAt(content, p, "*FIND") && SpacesThenDigits(content, p + 5, d)
    requires StartsWithAt(content, d, "\n\n") && d + 3 <= |content|
    ensures var spans := FindAllSpans(content, 0, FindHeader, FindStops);
      p < SearchFrom(spans, 0, |spans|)
  {
    var spans := FindAllSpans(content, 0, FindHeader, FindStops);
    SpacedHeaderFound(content, p, "*FIND", d, FindStops);
    assert AnyStop(content, |content|, FindStops) by {
      assert FindStops[1..] == [End];
      assert StopMatches(content, |content|, End);
    }
    assert FirstStop(content, d + 3, FindStops).Some?;
    NoMoreHeaders(content);
  }

  /** A file without `*FIND` has no queries. */
  lemma NoFindNoQuery(content: string)
    requires !Contains(content, "*FIND")
    ensures Queries(content) == []
  {
    AbsentOpenerNoField(content, 0, FindHeader, FindStops);
  }

  /** `parse_qrels` (time-data.py:26-38): a line with fewer than two fields is skipped;
      otherwise every field after the first is a document id of the first; a non-integer
      field raises ValueError. */
  method ParseQrels(lines: seq<string>) returns (r: Result<Qrels.Judgements, Qrels.QrelsError>)
    ensures r == Qrels.Accumulate(lines, Qrels.IdList)
  {
    r := Qrels.ParseLines(lines, Qrels.IdList);
  }

  /** `parse_stopwords` (time-data.py:40-43): every line of the file, stripped and
      upper-cased. */
  function StopwordSet(lines: seq<string>): (r: set<string>)
    ensures forall w :: w in r ==> StopwordShape(w)
    ensures forall k :: 0 <= k < |lines| ==> Upper(Strip(lines[k])) in r
    ensures forall w :: w in r ==> exists k :: 0 <= k < |lines| && w == Upper(Strip(lines[k]))
  {
    var r := set k | 0 <= k < |lines| :: Upper(Strip(lines[k]));
    forall k | 0 <= k < |lines| ensures StopwordShape(Upper(Strip(lines[k]))) {
      UpperStripped(Strip(lines[k]));
    }
    r
  }

  /** What an upper-cased stopword looks like: stripped, without lowercase letters. */
  predicate StopwordShape(w: string) {
    Stripped(w) && forall i :: 0 <= i < |w| ==> !IsLower(w[i])
  }

  /** Upper-casing a stripped string leaves it stripped and free of lowercase letters. */
  lemma UpperStripped(s: string)
    requires Stripped(s)
    ensures StopwordShape(Upper(s))
  {
    if s != [] {
      assert Upper(s)[0] == ToUpper(s[0]);
      assert Upper(s)[|s| - 1] == ToUpper(s[|s| - 1]);
    }
  }

  /** A string with a letter in it. */
  predicate HasLetter(t: string) {
    exists i :: 0 <= i < |t| && IsLetter(t[i])
  }

  /** The upper-cased stopwords can only remove tokens without a letter: every token with
      a letter survives stopword removal, so a file of stopwords that all contain letters
      removes nothing. */
  lemma LetteredTokensSurvive(text: string, lines: seq<string>, stem: string -> string)
    ensures forall t :: t in Normalizer.SplitTokens(text) && HasLetter(t) ==>
      t in Normalizer.Tokens(text, StopwordSet(lines), false, stem)
    ensures (forall w :: w in StopwordSet(lines) ==> HasLetter(w)) ==>
      Normalizer.Tokens(text, StopwordSet(lines), false, stem) == Normalizer.SplitTokens(text)
  {
    var stopwords := StopwordSet(lines);
    Normalizer.TokensNormal(text, {}, false, stem);
    Normalizer.NoStopwordsKeepsAll(text, stem);
    Normalizer.StopwordsRemoved(text, stopwords, stem);
    forall t | t in Normalizer.SplitTokens(text) && HasLetter(t) ensures t !in stopwords {
      assert Normalizer.NormalToken(t);
      var i :| 0 <= i < |t| && IsLetter(t[i]);
      assert Normalizer.NormalChar(t[i]);
      assert IsLower(t[i]);
    }
    if forall w :: w in stopwords ==> HasLetter(w) {
      assert forall t :: t in Normalizer.SplitTokens(text) ==> t !in stopwords;
      Normalizer.RemoveNone(Normalizer.SplitTokens(text), stopwords);
    }
  }

  /** `process_dataset` (time-data.py:45-86) from the contents of the documents and
      queries files and the lines of the judgements and stopwords files: a judgements line
      that raises stops it before any run. */
  method ProcessDataset(docContent: string, queryContent: string, qrelsLines: seq<string>,
                        stopwordLines: seq<string>, stem: string -> string,
                        similarity: Sweep.Similarity, rank: seq<real> -> seq<int>)
    returns (r: Result<seq<Sweep.Run>, Qrels.QrelsError>)
    requires forall scores: seq<real> :: MapEvaluator.IsRanking(scores, rank(scores))
    ensures r.Success? <==> Qrels.Accumulate(qrelsLines, Qrels.IdList).Success?
    ensures r.Success? ==> Sweep.Ranked(r.value,
      Sweep.Appended("time", Documents(docContent), Queries(queryContent), StopwordSet(stopwordLines),
                     Qrels.Accumulate(qrelsLines, Qrels.IdList).value, stem, similarity, rank))
  {
    var qrels := ParseQrels(qrelsLines);
    if qrels.Failure? {
      return Failure(qrels.error);
    }
    var documents := ParseDocuments(docContent);
    var queries := Queries(queryContent);
    var stopwords := StopwordSet(stopwordLines);
    var results := Sweep.ProcessDataset("time", documents, queries, stopwords, qrels.value, stem, similarity, rank);
    r := Success(results);
  }
}
