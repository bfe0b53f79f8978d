/** The NPL corpus readers of npl.py.  Every NPL file is a list of entries separated by
    `/`; the readers split the file there, strip each piece and skip the blank ones.
    Splitting at a `/` together with the whitespace around it, and then stripping, gives
    the same stripped pieces as splitting at every `/` and stripping, because the
    whitespace the regex removes next to a `/` is whitespace that `strip()` would remove
    anyway; the readers are modelled with the plain split. */
module Npl {
  import opened Wrappers
  import opened Text
  import opened Qrels
  import Markup
  import MapEvaluator
  import Sweep

  /** The pieces of `s` between the occurrences of `sep`. */
  function SplitOn(s: string, sep: char): (ps: seq<string>)
    ensures |ps| >= 1
    ensures forall i :: 0 <= i < |ps| ==> sep !in ps[i]
    decreases |s|
  {
    if s == [] then [[]]
    else if s[0] == sep then [[]] + SplitOn(s[1..], sep)
    else
      var rest := SplitOn(s[1..], sep);
      [[s[0]] + rest[0]] + rest[1..]
  }

  /** `sep.join(ps)` */
  function JoinWith(ps: seq<string>, sep: char): string
    requires |ps| >= 1
  {
    if |ps| == 1 then ps[0] else ps[0] + [sep] + JoinWith(ps[1..], sep)
  }

  /** Every piece, stripped. */
  function StripAll(ps: seq<string>): (ss: seq<string>)
    ensures |ss| == |ps|
  {
    seq(|ps|, i requires 0 <= i < |ps| => Strip(ps[i]))
  }

  /** The non-empty strings, in order. */
  function NonBlank(ss: seq<string>): (ks: seq<string>)
    ensures |ks| <= |ss|
    ensures forall i :: 0 <= i < |ks| ==> ks[i] != []
  {
    if ss == [] then []
    else NonBlank(ss[..|ss| - 1]) + (if ss[|ss| - 1] != [] then [ss[|ss| - 1]] else [])
  }

  /** The entries of an NPL file: the pieces between slashes, stripped, blank ones dropped. */
  function Segments(content: string): seq<string> {
    NonBlank(StripAll(SplitOn(content, '/')))
  }

  // ---- splitting and joining at a separator ----

  lemma {:induction false} SplitOnJoin(s: string, sep: char)
    ensures JoinWith(SplitOn(s, sep), sep) == s
    decreases |s|
  {
    if s != [] {
      SplitOnJoin(s[1..], sep);
      var rest := SplitOn(s[1..], sep);
      if s[0] != sep && |rest| > 1 {
        assert JoinWith(rest, sep) == rest[0] + [sep] + JoinWith(rest[1..], sep);
        assert s == [s[0]] + s[1..];
      }
    }
  }

  /** A separator-free prefix joins the first piece of what follows it. */
  lemma {:induction false} SplitOnWord(w: string, t: string, sep: char)
    requires sep !in w
    ensures SplitOn(w + t, sep) == [w + SplitOn(t, sep)[0]] + SplitOn(t, sep)[1..]
  {
    var ts := SplitOn(t, sep);
    if w == [] {
      assert w + t == t;
      assert w + ts[0] == ts[0];
      assert [ts[0]] + ts[1..] == ts;
    } else {
      SplitOnWord(w[1..], t, sep);
      assert (w + t)[1..] == w[1..] + t;
      var rest := SplitOn(w[1..] + t, sep);
      assert rest[0] == w[1..] + ts[0] && rest[1..] == ts[1..];
      assert [w[0]] + (w[1..] + ts[0]) == w + ts[0];
    }
  }

  /** Joining separator-free pieces and splitting again gives the pieces back. */
  lemma {:induction false} JoinWithSplit(ps: seq<string>, sep: char)
    requires |ps| >= 1 && forall i :: 0 <= i < |ps| ==> sep !in ps[i]
    ensures SplitOn(JoinWith(ps, sep), sep) == ps
  {
    if |ps| == 1 {
      SplitOnWord(ps[0], [], sep);
      assert ps[0] + [] == ps[0];
    } else {
      var rest := JoinWith(ps[1..], sep);
      JoinWithSplit(ps[1..], sep);
      assert ps[0] + [sep] + rest == ps[0] + ([sep] + rest);
      SplitOnWord(ps[0], [sep] + rest, sep);
      assert ([sep] + rest)[1..] == rest;
      assert SplitOn([sep] + rest, sep) == [[]] + ps[1..];
      assert ps[0] + [] == ps[0];
    }
  }

  // ---- keeping the non-blank pieces ----

  lemma {:induction false} NonBlankAppend(a: seq<string>, b: seq<string>)
    ensures NonBlank(a + b) == NonBlank(a) + NonBlank(b)
    decreases |b|
  {
    if b == [] {
      assert a + b == a;
    } else {
      var init := b[..|b| - 1];
      NonBlankAppend(a, init);
      assert (a + b)[..|a + b| - 1] == a + init;
    }
  }

  /** Every kept string is one of the given ones. */
  lemma {:induction false} NonBlankFrom(ss: seq<string>)
    ensures forall k :: k in NonBlank(ss) ==> k in ss
  {
    if ss != [] {
      NonBlankFrom(ss[..|ss| - 1]);
      assert forall k :: k in ss[..|ss| - 1] ==> k in ss;
    }
  }

  /** Strings that are all non-empty are all kept. */
  lemma {:induction false} NonBlankAll(ss: seq<string>)
    requires forall i :: 0 <= i < |ss| ==> ss[i] != []
    ensures NonBlank(ss) == ss
  {
    if ss != [] {
      NonBlankAll(ss[..|ss| - 1]);
    }
  }

  lemma StripAllOfStripped(ps: seq<string>)
    requires forall i :: 0 <= i < |ps| ==> Stripped(ps[i])
    ensures StripAll(ps) == ps
  {
    forall i | 0 <= i < |ps| ensures StripAll(ps)[i] == ps[i] {
      StripOfStripped(ps[i]);
    }
  }

  lemma StripLacks(p: string, c: char)
    requires c !in p
    ensures c !in Strip(p)
  {
    var k := Strip(p);
    forall j | 0 <= j < |k| ensures k[j] != c {
      assert k[j] == p[StripStart(p) + j];
    }
  }

  /** The stripped pieces are stripped, and hold no character that no piece holds. */
  lemma StripAllShape(ps: seq<string>, c: char)
    requires forall i :: 0 <= i < |ps| ==> c !in ps[i]
    ensures forall k :: k in StripAll(ps) ==> Stripped(k) && c !in k
  {
    var ss := StripAll(ps);
    forall i | 0 <= i < |ps| ensures Stripped(ss[i]) && c !in ss[i] {
      StripLacks(ps[i], c);
    }
  }

  /** Every entry is non-blank, stripped and free of `/`. */
  lemma SegmentsShape(content: string)
    ensures forall i :: 0 <= i < |Segments(content)| ==>
      var e := Segments(content)[i];
      e != [] && Stripped(e) && '/' !in e
  {
    var stripped := StripAll(SplitOn(content, '/'));
    StripAllShape(SplitOn(content, '/'), '/');
    NonBlankFrom(stripped);
    forall i | 0 <= i < |Segments(content)| ensures Segments(content)[i] in stripped {
      assert Segments(content)[i] in NonBlank(stripped);
    }
  }

  /** Writing entries with `/` between them and reading the file gives the entries back. */
  lemma SegmentsOfJoin(entries: seq<string>)
    requires |entries| >= 1
    requires forall i :: 0 <= i < |entries| ==> entries[i] != [] && Stripped(entries[i]) && '/' !in entries[i]
    ensures Segments(JoinWith(entries, '/')) == entries
  {
    JoinWithSplit(entries, '/');
    StripAllOfStripped(entries);
    NonBlankAll(entries);
  }

  /** A file without `/` is one entry, or none when it is blank. */
  lemma NoSeparator(content: string)
    requires '/' !in content
    ensures Segments(content) == if Strip(content) == [] then [] else [Strip(content)]
  {
    var ps := SplitOn(content, '/');
    assert ps == [content] by {
      SplitOnWord(content, [], '/');
      assert content + [] == content;
      assert SplitOn([], '/') == [[]];
    }
    var ss := StripAll(ps);
    assert ss == [Strip(content)];
    assert ss[..0] == [];
  }

  /** One more piece: the step of every reader's loop. */
  lemma NonBlankStep(ps: seq<string>, i: nat)
    requires i < |ps|
    ensures NonBlank(StripAll(ps)[..i + 1]) ==
      NonBlank(StripAll(ps)[..i]) + (if Strip(ps[i]) != [] then [Strip(ps[i])] else [])
  {
    var ss := StripAll(ps);
    assert ss[..i + 1][..i] == ss[..i];
  }

  /** The readers' loops end with every piece seen. */
  lemma NonBlankWhole(content: string)
    ensures NonBlank(StripAll(SplitOn(content, '/'))[..|SplitOn(content, '/')|]) == Segments(content)
  {
    var ss := StripAll(SplitOn(content, '/'));
    assert ss[..|ss|] == ss;
  }

  // ---- documents and queries ----

  /** `parse_documents` (npl.py:14-21): the non-blank stripped pieces, in file order. */
  method ParseDocuments(content: string) returns (docs: seq<string>)
    ensures docs == Segments(content)
    ensures forall i :: 0 <= i < |docs| ==> docs[i] != [] && Stripped(docs[i]) && '/' !in docs[i]
  {
    var pieces := SplitOn(content, '/');
    docs := [];
    for i := 0 to |pieces|
      invariant docs == NonBlank(StripAll(pieces)[..i])
    {
      var doc := Strip(pieces[i]);
      NonBlankStep(pieces, i);
      if doc != [] {
        docs := docs + [doc];
      }
    }
    NonBlankWhole(content);
    SegmentsShape(content);
  }

  /** `parse_queries` (npl.py:23-30) reads queries exactly as documents are read. */
  method ParseQueries(content: string) returns (queries: seq<string>)
    ensures queries == Segments(content)
    ensures forall i :: 0 <= i < |queries| ==> queries[i] != [] && Stripped(queries[i]) && '/' !in queries[i]
  {
    queries := ParseDocuments(content);
  }

  // ---- relevance judgements ----

  /** `set(map(int, entry.split()))` for every entry. */
  function ParsedEntries(entries: seq<string>): (ps: seq<Option<set<int>>>)
    ensures |ps| == |entries|
  {
    seq(|entries|, i requires 0 <= i < |entries| => IntSet(Split(entries[i])))
  }

  /** The judgements of parsed entries: entry i (from 1) lists the relevant documents of
      query i; ValueError at the first entry holding a token that is not an integer. */
  function QrelsOf(parsed: seq<Option<set<int>>>): Result<Judgements, QrelsError> {
    if parsed == [] then Success(map[])
    else match QrelsOf(parsed[..|parsed| - 1])
      case Failure(e) => Failure(e)
      case Success(m) =>
        match parsed[|parsed| - 1]
        case None => Failure(ValueError)
        case Some(ids) => Success(m[|parsed| := ids])
  }

  /** The judgements of a relevance file. */
  function QrelsFile(content: string): Result<Judgements, QrelsError> {
    QrelsOf(ParsedEntries(Segments(content)))
  }

  /** Once a prefix raises, so does the whole file, with the same exception. */
  lemma {:induction false} QrelsOfFailure(ps: seq<Option<set<int>>>, i: nat)
    requires i <= |ps| && QrelsOf(ps[..i]).Failure?
    ensures QrelsOf(ps) == QrelsOf(ps[..i])
    decreases |ps| - i
  {
    if i < |ps| {
      var longer := ps[..i + 1];
      assert longer[..|longer| - 1] == ps[..i];
      QrelsOfFailure(ps, i + 1);
    } else {
      assert ps[..i] == ps;
    }
  }

  /** One more entry: its ids go under the next number, or it raises. */
  lemma QrelsStep(entries: seq<string>, x: string, m: Judgements)
    requires QrelsOf(ParsedEntries(entries)) == Success(m)
    ensures IntSet(Split(x)).None? ==> QrelsOf(ParsedEntries(entries + [x])) == Failure(ValueError)
    ensures IntSet(Split(x)).Some? ==>
      QrelsOf(ParsedEntries(entries + [x])) == Success(m[|entries| + 1 := IntSet(Split(x)).value])
  {
    var ps := ParsedEntries(entries + [x]);
    assert ps[..|ps| - 1] == ParsedEntries(entries);
  }

  /** Entries after one that raises change nothing. */
  lemma QrelsAfterFailure(a: seq<string>, b: seq<string>)
    requires QrelsOf(ParsedEntries(a)).Failure?
    ensures QrelsOf(ParsedEntries(a + b)) == QrelsOf(ParsedEntries(a))
  {
    var ps := ParsedEntries(a + b);
    assert ps[..|a|] == ParsedEntries(a);
    QrelsOfFailure(ps, |a|);
  }

  /** The file raises what its first pieces raise. */
  lemma FailingEntry(content: string, i: nat, seen: seq<string>)
    requires i < |SplitOn(content, '/')|
    requires seen == NonBlank(StripAll(SplitOn(content, '/'))[..i + 1])
    requires QrelsOf(ParsedEntries(seen)) == Failure(ValueError)
    ensures QrelsFile(content) == Failure(ValueError)
  {
    SegmentsAt(content, i + 1);
    QrelsAfterFailure(seen, NonBlank(StripAll(SplitOn(content, '/'))[i + 1..]));
  }

  /** The entries of a file are those of its first `i` pieces, then those of the rest. */
  lemma SegmentsAt(content: string, i: nat)
    requires i <= |SplitOn(content, '/')|
    ensures var ss := StripAll(SplitOn(content, '/'));
      Segments(content) == NonBlank(ss[..i]) + NonBlank(ss[i..])
  {
    var ss := StripAll(SplitOn(content, '/'));
    assert ss == ss[..i] + ss[i..];
    NonBlankAppend(ss[..i], ss[i..]);
  }

  /** `parse_qrels` (npl.py:32-41): numbers the non-blank entries from 1 and maps each
      number to the set of integers of its entry. */
  method ParseQrels(content: string) returns (r: Result<Judgements, QrelsError>)
    ensures r == QrelsFile(content)
  {
    var pieces := SplitOn(content, '/');
    var qrels: Judgements := map[];
    var qid := 0;
    ghost var seen: seq<string> := [];
    for i := 0 to |pieces|
      invariant seen == NonBlank(StripAll(pieces)[..i])
      invariant qid == |seen|
      invariant QrelsOf(ParsedEntries(seen)) == Success(qrels)
    {
      var data := Strip(pieces[i]);
      NonBlankStep(pieces, i);
      if data != [] {
        QrelsStep(seen, data, qrels);
        qid := qid + 1;
        var ids := IntSet(Split(data));
        if ids.None? {
          FailingEntry(content, i, seen + [data]);
          return Failure(ValueError);
        }
        qrels := qrels[qid := ids.value];
        seen := seen + [data];
      }
    }
    NonBlankWhole(content);
    r := Success(qrels);
  }

  /** The judgements are read exactly when every entry parses. */
  lemma {:induction false} QrelsSucceed(parsed: seq<Option<set<int>>>)
    ensures QrelsOf(parsed).Success? <==> forall i :: 0 <= i < |parsed| ==> parsed[i].Some?
  {
    if parsed != [] {
      var init := parsed[..|parsed| - 1];
      QrelsSucceed(init);
      assert forall i :: 0 <= i < |init| ==> init[i] == parsed[i];
    }
  }

  /** The keys are 1 to the number of entries, and the set under key i is entry i's. */
  lemma {:induction false} QrelsContents(parsed: seq<Option<set<int>>>)
    requires QrelsOf(parsed).Success?
    ensures forall i :: i in QrelsOf(parsed).value <==> 1 <= i <= |parsed|
    ensures forall i :: 1 <= i <= |parsed| ==> Some(QrelsOf(parsed).value[i]) == parsed[i - 1]
  {
    if parsed != [] {
      var init := parsed[..|parsed| - 1];
      QrelsContents(init);
      assert forall i :: 0 <= i < |init| ==> init[i] == parsed[i];
    }
  }

  /** One of the tokens of the entry reads as `d`. */
  predicate Lists(entry: string, d: int) {
    exists k :: 0 <= k < |Split(entry)| && ParseInt(Split(entry)[k]) == Some(d)
  }

  /** The ids of an entry are the values of its tokens. */
  lemma EntryIds(entry: string, parsed: Option<set<int>>, ids: set<int>)
    requires parsed == IntSet(Split(entry)) && parsed == Some(ids)
    ensures forall d :: d in ids <==> Lists(entry, d)
  {
    IntSetContents(Split(entry));
  }

  /** Judgements are read exactly when every token of every entry is an integer. */
  lemma QrelsReadable(entries: seq<string>)
    ensures QrelsOf(ParsedEntries(entries)).Success? <==>
      forall j :: 0 <= j < |entries| ==> IntSet(Split(entries[j])).Some?
  {
    var parsed := ParsedEntries(entries);
    QrelsSucceed(parsed);
    if QrelsOf(parsed).Success? {
      forall j | 0 <= j < |entries| ensures IntSet(Split(entries[j])).Some? {
        assert parsed[j].Some?;
      }
    } else {
      var j :| 0 <= j < |parsed| && parsed[j].None?;
      assert IntSet(Split(entries[j])).None?;
    }
  }

  /** Query i (from 1) has exactly the documents whose ids are the tokens of entry i. */
  lemma QrelsMembers(entries: seq<string>, i: nat, d: int)
    requires 1 <= i <= |entries| && QrelsOf(ParsedEntries(entries)).Success?
    ensures i in QrelsOf(ParsedEntries(entries)).value
    ensures d in QrelsOf(ParsedEntries(entries)).value[i] <==> Lists(entries[i - 1], d)
  {
    var parsed := ParsedEntries(entries);
    QrelsContents(parsed);
    var ids := QrelsOf(parsed).value[i];
    EntryIds(entries[i - 1], parsed[i - 1], ids);
  }

  // ---- stopwords ----

  /** `re.sub(r'^\d+\s*', '', term)`: a leading number and the whitespace after it go. */
  function DropLeadingNumber(term: string): (r: string)
    ensures |r| <= |term| && r == term[|term| - |r|..]
    ensures term != [] && IsDigit(term[0]) ==> r == [] || !IsSpace(r[0])
    ensures term == [] || !IsDigit(term[0]) ==> r == term
  {
    if term != [] && IsDigit(term[0]) then
      term[Markup.SpaceRunEnd(term, Markup.DigitRunEnd(term, 0))..]
    else term
  }

  /** An entry "digits, whitespace, rest" loses exactly its digits and whitespace.  The
      rest never starts with whitespace, and cannot start with a digit right after the
      digits; so every entry that starts with a digit splits this way in exactly one way. */
  lemma NumberedTerm(digits: string, gap: string, word: string)
    requires digits != [] && AllChars(digits, IsDigit)
    requires AllChars(gap, IsSpace)
    requires word == [] || (!IsSpace(word[0]) && (gap == [] ==> !IsDigit(word[0])))
    ensures DropLeadingNumber(digits + gap + word) == word
  {
    var term := digits + gap + word;
    var j := Markup.DigitRunEnd(term, 0);
    forall k | 0 <= k < |digits| ensures IsDigit(term[k]) { assert term[k] == digits[k]; }
    if |gap| > 0 {
      assert term[|digits|] == gap[0];
      assert !IsDigit(term[|digits|]);
    } else if word != [] {
      assert term[|digits|] == word[0];
    }
    assert j == |digits|;
    var e := Markup.SpaceRunEnd(term, j);
    forall k | j <= k < j + |gap| ensures IsSpace(term[k]) { assert term[k] == gap[k - j]; }
    if word != [] {
      assert term[j + |gap|] == word[0];
    }
    assert e == j + |gap|;
    assert term[e..] == word;
  }

  /** An entry that is only digits leaves the empty stopword, which is kept. */
  lemma OnlyNumber(digits: string)
    requires digits != [] && AllChars(digits, IsDigit)
    ensures DropLeadingNumber(digits) == ""
  {
    NumberedTerm(digits, "", "");
    assert digits + "" + "" == digits;
  }

  /** The stopword of every entry. */
  function DropAll(entries: seq<string>): (ws: seq<string>)
    ensures |ws| == |entries|
  {
    seq(|entries|, i requires 0 <= i < |entries| => DropLeadingNumber(entries[i]))
  }

  lemma DropAllStep(entries: seq<string>, ws: seq<string>, e: seq<string>)
    requires ws == DropAll(entries)
    requires |e| <= 1
    ensures ws + (if e == [] then [] else [DropLeadingNumber(e[0])]) == DropAll(entries + e)
  {
  }

  /** The stopword list of a vocabulary file. */
  function StopwordList(content: string): (ws: seq<string>)
    ensures |ws| == |Segments(content)|
  {
    DropAll(Segments(content))
  }

  /** `parse_stopwords` (npl.py:43-52): one stopword per entry, in file order. */
  method ParseStopwords(content: string) returns (stopwords: seq<string>)
    ensures stopwords == StopwordList(content)
  {
    var terms := SplitOn(content, '/');
    stopwords := [];
    for i := 0 to |terms|
      invariant stopwords == DropAll(NonBlank(StripAll(terms)[..i]))
    {
      var term := Strip(terms[i]);
      NonBlankStep(terms, i);
      DropAllStep(NonBlank(StripAll(terms)[..i]), stopwords, if term != [] then [term] else []);
      if term != [] {
        term := DropLeadingNumber(term);
        stopwords := stopwords + [term];
      }
    }
    NonBlankWhole(content);
  }

  // ---- the driver ----

  /** `process_dataset` (npl.py:54-95) from the contents of the four NPL files: read the
      documents, queries, stopwords and judgements, then run the sweep; a judgement entry
      that is not all integers stops it with ValueError before any run. */
  method ProcessDataset(docContent: string, queryContent: string, stopwordsContent: string, qrelsContent: string,
                        stem: string -> string, similarity: Sweep.Similarity, rank: seq<real> -> seq<int>)
    returns (r: Result<seq<Sweep.Run>, QrelsError>)
    requires forall scores: seq<real> :: MapEvaluator.IsRanking(scores, rank(scores))
    ensures r.Success? <==> QrelsFile(qrelsContent).Success?
    ensures r.Success? ==> Sweep.Ranked(r.value,
      Sweep.Appended("npl", Segments(docContent), Segments(queryContent), (set w | w in StopwordList(stopwordsContent)),
                     QrelsFile(qrelsContent).value, stem, similarity, rank))
  {
    var documents := ParseDocuments(docContent);
    var queries := ParseQueries(queryContent);
    var stopwords := ParseStopwords(stopwordsContent);
    var qrels := ParseQrels(qrelsContent);
    if qrels.Failure? {
      return Failure(qrels.error);
    }
    var results := Sweep.ProcessDataset("npl", documents, queries, (set w | w in stopwords), qrels.value,
                                        stem, similarity, rank);
    r := Success(results);
  }
}
