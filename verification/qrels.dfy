/** The relevance-file readers `parse_qrels` of CRAN.py, MED.py, cacm.py and time-data.py.
    Each walks the lines of the file, splits a line into fields, and adds document ids to
    the set kept under the line's query id, creating the set the first time the id shows
    up.  The file itself is not read here: the readers take its lines. */
module Qrels {
  import opened Wrappers
  import opened Text

  /** What `parse_qrels` raises: `parts[k]` past the end of the fields, or `int(...)` of a
      field that is not an integer. */
  datatype QrelsError = IndexError | ValueError

  type Judgements = map<int, set<int>>

  /** How a reader takes ids from a line.  `PairColumn(col)`: the query id in field 0, one
      document id in field `col` (CRAN.py and cacm.py use 1, MED.py uses 2).
      `IdList`: lines with fewer than two fields are skipped; the query id in field 0,
      every later field a document id (time-data.py). */
  datatype Layout = PairColumn(col: nat) | IdList

  predicate ValidLayout(layout: Layout) {
    layout.PairColumn? ==> layout.col >= 1
  }

  /** `line.strip().split()` */
  function Fields(line: string): seq<string> {
    Split(Strip(line))
  }

  /** `int(parts[k])`, or nothing when the field is missing or not an integer. */
  function Column(line: string, k: nat): Option<int> {
    var parts := Fields(line);
    if k < |parts| then ParseInt(parts[k]) else None
  }

  /** `set(map(int, ts))`, or `None` when one of the tokens is not an integer. */
  function IntSet(ts: seq<string>): (r: Option<set<int>>)
    ensures r.Some? <==> forall k :: 0 <= k < |ts| ==> ParseInt(ts[k]).Some?
  {
    if ts == [] then Some({})
    else match (ParseInt(ts[0]), IntSet(ts[1..]))
      case (Some(d), Some(rest)) =>
        assert forall k :: 1 <= k < |ts| ==> ts[k] == ts[1..][k - 1];
        Some({d} + rest)
      case (None, _) => None
      case (_, None) =>
        assert exists k :: 0 <= k < |ts[1..]| && ParseInt(ts[1..][k]).None?;
        None
  }

  /** The set holds exactly the values of the tokens. */
  lemma {:induction false} IntSetContents(ts: seq<string>)
    requires IntSet(ts).Some?
    ensures forall d :: d in IntSet(ts).value <==> exists k :: 0 <= k < |ts| && ParseInt(ts[k]) == Some(d)
  {
    if ts != [] {
      IntSetContents(ts[1..]);
      forall d | d in IntSet(ts).value ensures exists k :: 0 <= k < |ts| && ParseInt(ts[k]) == Some(d) {
        if d != ParseInt(ts[0]).value {
          var k :| 0 <= k < |ts[1..]| && ParseInt(ts[1..][k]) == Some(d);
          assert ParseInt(ts[k + 1]) == Some(d);
        }
      }
      forall d | exists k :: 0 <= k < |ts| && ParseInt(ts[k]) == Some(d) ensures d in IntSet(ts).value {
        var k :| 0 <= k < |ts| && ParseInt(ts[k]) == Some(d);
        if k > 0 {
          assert ParseInt(ts[1..][k - 1]) == Some(d);
        }
      }
    }
  }

  /** Every field is an integer. */
  predicate AllInts(parts: seq<string>) {
    forall k :: 0 <= k < |parts| ==> ParseInt(parts[k]).Some?
  }

  lemma IntsAfterFirst(parts: seq<string>)
    requires parts != [] && ParseInt(parts[0]).Some?
    ensures IntSet(parts[1..]).Some? <==> AllInts(parts)
  {
    assert forall k :: 1 <= k < |parts| ==> parts[k] == parts[1..][k - 1];
  }

  /** What one line contributes: nothing, a query id with the document ids to add, or the
      exception the line raises, checked in the order Python evaluates the line. */
  function Entry(line: string, layout: Layout): (r: Result<Option<(int, set<int>)>, QrelsError>)
    requires ValidLayout(layout)
    ensures r == Success(None) <==> layout.IdList? && |Fields(line)| < 2
    ensures r.Success? && r.value.Some? ==> Column(line, 0) == Some(r.value.value.0)
    ensures layout.PairColumn? ==> (r.Success? <==> Column(line, 0).Some? && Column(line, layout.col).Some?)
    ensures layout.PairColumn? && r.Success? ==> r.value.value.1 == {Column(line, layout.col).value}
    ensures layout.IdList? && |Fields(line)| >= 2 ==> (r.Success? <==> AllInts(Fields(line)))
  {
    var parts := Fields(line);
    match layout
    case PairColumn(col) =>
      if |parts| == 0 then Failure(IndexError)
      else if Column(line, 0).None? then Failure(ValueError)
      else if |parts| <= col then Failure(IndexError)
      else if Column(line, col).None? then Failure(ValueError)
      else Success(Some((Column(line, 0).value, {Column(line, col).value})))
    case IdList =>
      if |parts| < 2 then Success(None)
      else if Column(line, 0).None? then Failure(ValueError)
      else
        IntsAfterFirst(parts);
        match IntSet(parts[1..])
        case None => Failure(ValueError)
        case Some(ids) => Success(Some((Column(line, 0).value, ids)))
  }

  /** `qrels.setdefault(qid, set()).update(ids)` */
  function Add(m: Judgements, q: int, ids: set<int>): Judgements {
    m[q := (if q in m then m[q] else {}) + ids]
  }

  type LineResult = Result<Option<(int, set<int>)>, QrelsError>

  /** The dictionary after lines whose contributions are `es`, or the first exception. */
  function Collect(es: seq<LineResult>): Result<Judgements, QrelsError> {
    if es == [] then Success(map[])
    else match Collect(es[..|es| - 1])
      case Failure(e) => Failure(e)
      case Success(m) =>
        match es[|es| - 1]
        case Failure(e) => Failure(e)
        case Success(None) => Success(m)
        case Success(Some((q, ids))) => Success(Add(m, q, ids))
  }

  function Entries(lines: seq<string>, layout: Layout): (es: seq<LineResult>)
    requires ValidLayout(layout)
    ensures |es| == |lines|
  {
    seq(|lines|, i requires 0 <= i < |lines| => Entry(lines[i], layout))
  }

  /** The dictionary after the given lines, or the first exception they raise; the read
      succeeds exactly when no line raises. */
  function Accumulate(lines: seq<string>, layout: Layout): (r: Result<Judgements, QrelsError>)
    requires ValidLayout(layout)
    ensures r.Success? <==> forall i :: 0 <= i < |lines| ==> Entry(lines[i], layout).Success?
  {
    var es := Entries(lines, layout);
    CollectSucceeds(es);
    assert forall i :: 0 <= i < |lines| ==> es[i] == Entry(lines[i], layout);
    Collect(es)
  }

  /** `parse_qrels`: the loop over the lines of the file, updating the dictionary in place. */
  method ParseLines(lines: seq<string>, layout: Layout) returns (r: Result<Judgements, QrelsError>)
    requires ValidLayout(layout)
    ensures r == Accumulate(lines, layout)
  {
    ghost var es := Entries(lines, layout);
    var qrels: Judgements := map[];
    for i := 0 to |lines|
      invariant Collect(es[..i]) == Success(qrels)
    {
      var entry := Entry(lines[i], layout);
      assert es[i] == entry;
      CollectStep(es, i);
      if entry.Failure? {
        FailureStays(es, i + 1);
        return Failure(entry.error);
      }
      if entry.value.Some? {
        qrels := Insert(qrels, entry.value.value.0, entry.value.value.1);
      }
    }
    assert es[..|es|] == es;
    r := Success(qrels);
  }

  /** `if qid not in qrels: qrels[qid] = set()`, then `qrels[qid].update(ids)`. */
  method Insert(qrels: Judgements, qid: int, ids: set<int>) returns (r: Judgements)
    ensures r == Add(qrels, qid, ids)
  {
    r := qrels;
    if qid !in r {
      r := r[qid := {}];
    }
    r := r[qid := r[qid] + ids];
  }

  /** One more line: the step of the loop in `ParseLines`. */
  lemma CollectStep(es: seq<LineResult>, i: nat)
    requires i < |es| && Collect(es[..i]).Success?
    ensures es[i].Failure? ==> Collect(es[..i + 1]) == Failure(es[i].error)
    ensures es[i] == Success(None) ==> Collect(es[..i + 1]) == Collect(es[..i])
    ensures es[i].Success? && es[i].value.Some? ==>
      Collect(es[..i + 1]) == Success(Add(Collect(es[..i]).value, es[i].value.value.0, es[i].value.value.1))
  {
    assert es[..i + 1][..i] == es[..i];
  }

  /** Once a prefix raises, so does the whole file, with the same exception. */
  lemma {:induction false} FailureStays(es: seq<LineResult>, i: nat)
    requires i <= |es| && Collect(es[..i]).Failure?
    ensures Collect(es) == Collect(es[..i])
    decreases |es| - i
  {
    if i < |es| {
      var longer := es[..i + 1];
      assert longer[..|longer| - 1] == es[..i];
      FailureStays(es, i + 1);
    } else {
      assert es[..i] == es;
    }
  }

  /** The contribution names query `q` (possibly with no document). */
  predicate HasKey(e: LineResult, q: int) {
    e.Success? && e.value.Some? && e.value.value.0 == q
  }

  /** The contribution records document `d` under query `q`. */
  predicate Records(e: LineResult, q: int, d: int) {
    e.Success? && e.value.Some? && e.value.value.0 == q && d in e.value.value.1
  }

  /** The reader succeeds exactly when no line raises. */
  lemma {:induction false} CollectSucceeds(es: seq<LineResult>)
    ensures Collect(es).Success? <==> forall i :: 0 <= i < |es| ==> es[i].Success?
  {
    if es != [] {
      var init := es[..|es| - 1];
      CollectSucceeds(init);
      assert forall i :: 0 <= i < |init| ==> init[i] == es[i];
    }
  }

  lemma {:induction false} CollectContents(es: seq<LineResult>)
    requires Collect(es).Success?
    ensures forall q :: q in Collect(es).value <==> exists i :: 0 <= i < |es| && HasKey(es[i], q)
    ensures forall q, d :: q in Collect(es).value ==>
      (d in Collect(es).value[q] <==> exists i :: 0 <= i < |es| && Records(es[i], q, d))
  {
    if es != [] {
      var init := es[..|es| - 1];
      var last := |es| - 1;
      CollectContents(init);
      assert forall i :: 0 <= i < |init| ==> init[i] == es[i];
      var m := Collect(init).value;
      var n := Collect(es).value;
      forall q ensures q in n <==> exists i :: 0 <= i < |es| && HasKey(es[i], q) {
        if exists i :: 0 <= i < |es| && HasKey(es[i], q) {
          var i :| 0 <= i < |es| && HasKey(es[i], q);
          if i < last {
            assert HasKey(init[i], q);
          }
        }
      }
      forall q, d | q in n
        ensures d in n[q] <==> exists i :: 0 <= i < |es| && Records(es[i], q, d)
      {
        if exists i :: 0 <= i < |es| && Records(es[i], q, d) {
          var i :| 0 <= i < |es| && Records(es[i], q, d);
          if i < last {
            assert Records(init[i], q, d) && HasKey(init[i], q);
          }
        }
        if d in n[q] {
          if q in m && d in m[q] {
            var i :| 0 <= i < |init| && Records(init[i], q, d);
            assert Records(es[i], q, d);
          } else {
            assert Records(es[last], q, d);
          }
        }
      }
    }
  }

  /** A successful collection depends only on which contributions occur. */
  lemma CollectOrderFree(es: seq<LineResult>, fs: seq<LineResult>)
    requires Collect(es).Success?
    requires forall e :: e in es <==> e in fs
    ensures Collect(fs) == Collect(es)
  {
    CollectSucceeds(es);
    forall j | 0 <= j < |fs| ensures fs[j].Success? {
      assert fs[j] in es;
    }
    CollectSucceeds(fs);
    CollectContents(es);
    CollectContents(fs);
    var m := Collect(es).value;
    var n := Collect(fs).value;
    forall q ensures q in m <==> q in n {
      if q in m {
        var i :| 0 <= i < |es| && HasKey(es[i], q);
        assert es[i] in fs;
      }
      if q in n {
        var j :| 0 <= j < |fs| && HasKey(fs[j], q);
        assert fs[j] in es;
      }
    }
    forall q | q in m ensures m[q] == n[q] {
      forall d ensures d in m[q] <==> d in n[q] {
        if d in m[q] {
          var i :| 0 <= i < |es| && Records(es[i], q, d);
          assert es[i] in fs;
        }
        if d in n[q] {
          var j :| 0 <= j < |fs| && Records(fs[j], q, d);
          assert fs[j] in es;
        }
      }
    }
    assert m.Keys == n.Keys;
    assert m == n;
  }

  // ---- the same facts about lines ----

  /** After a successful read, the keys are exactly the query ids of the lines, and the set
      under a key holds exactly the document ids that some line pairs with it. */
  lemma AccumulateContents(lines: seq<string>, layout: Layout)
    requires ValidLayout(layout)
    requires Accumulate(lines, layout).Success?
    ensures forall q :: q in Accumulate(lines, layout).value <==>
      exists i :: 0 <= i < |lines| && HasKey(Entry(lines[i], layout), q)
    ensures forall q, d :: q in Accumulate(lines, layout).value ==>
      (d in Accumulate(lines, layout).value[q] <==> exists i :: 0 <= i < |lines| && Records(Entry(lines[i], layout), q, d))
  {
    AccumulateKeys(lines, layout);
    AccumulateSets(lines, layout);
  }

  /** The keys part of AccumulateContents. */
  lemma AccumulateKeys(lines: seq<string>, layout: Layout)
    requires ValidLayout(layout)
    requires Accumulate(lines, layout).Success?
    ensures forall q :: q in Accumulate(lines, layout).value <==>
      exists i :: 0 <= i < |lines| && HasKey(Entry(lines[i], layout), q)
  {
    var es := Entries(lines, layout);
    var m := Accumulate(lines, layout).value;
    CollectContents(es);
    forall q ensures q in m <==> exists i :: 0 <= i < |lines| && HasKey(Entry(lines[i], layout), q) {
      if q in m {
        var i :| 0 <= i < |es| && HasKey(es[i], q);
        assert HasKey(Entry(lines[i], layout), q);
      }
      if exists i :: 0 <= i < |lines| && HasKey(Entry(lines[i], layout), q) {
        var i :| 0 <= i < |lines| && HasKey(Entry(lines[i], layout), q);
        assert HasKey(es[i], q);
      }
    }
  }

  /** The sets part of AccumulateContents. */
  lemma AccumulateSets(lines: seq<string>, layout: Layout)
    requires ValidLayout(layout)
    requires Accumulate(lines, layout).Success?
    ensures forall q, d :: q in Accumulate(lines, layout).value ==>
      (d in Accumulate(lines, layout).value[q] <==> exists i :: 0 <= i < |lines| && Records(Entry(lines[i], layout), q, d))
  {
    var es := Entries(lines, layout);
    var m := Accumulate(lines, layout).value;
    CollectContents(es);
    forall q, d | q in m
      ensures d in m[q] <==> exists i :: 0 <= i < |lines| && Records(Entry(lines[i], layout), q, d)
    {
      if d in m[q] {
        var i :| 0 <= i < |es| && Records(es[i], q, d);
        assert Records(Entry(lines[i], layout), q, d);
      }
      if exists i :: 0 <= i < |lines| && Records(Entry(lines[i], layout), q, d) {
        var i :| 0 <= i < |lines| && Records(Entry(lines[i], layout), q, d);
        assert Records(es[i], q, d);
      }
    }
  }

  /** A successful read depends only on which lines occur: reordering the lines, or
      repeating or dropping duplicates, gives the same dictionary. */
  lemma OrderFree(lines: seq<string>, other: seq<string>, layout: Layout)
    requires ValidLayout(layout)
    requires Accumulate(lines, layout).Success?
    requires forall l :: l in lines <==> l in other
    ensures Accumulate(other, layout) == Accumulate(lines, layout)
  {
    var es := Entries(lines, layout);
    var fs := Entries(other, layout);
    SameEntries(lines, other, layout);
    SameEntries(other, lines, layout);
    CollectOrderFree(es, fs);
  }

  /** When every line of a file occurs in another, every contribution of the first occurs
      among the contributions of the second. */
  lemma SameEntries(lines: seq<string>, other: seq<string>, layout: Layout)
    requires ValidLayout(layout) && forall l :: l in lines ==> l in other
    ensures forall e :: e in Entries(lines, layout) ==> e in Entries(other, layout)
  {
    var es := Entries(lines, layout);
    var fs := Entries(other, layout);
    forall e | e in es ensures e in fs {
      var i :| 0 <= i < |es| && es[i] == e;
      assert lines[i] in other;
      var j :| 0 <= j < |other| && other[j] == lines[i];
      assert fs[j] == es[i];
    }
  }

  /** With a pair layout, a line records exactly the pair (field 0, field `col`). */
  lemma PairRecords(line: string, col: nat, q: int, d: int)
    requires col >= 1
    ensures Records(Entry(line, PairColumn(col)), q, d) <==> Column(line, 0) == Some(q) && Column(line, col) == Some(d)
    ensures HasKey(Entry(line, PairColumn(col)), q) <==> Column(line, 0) == Some(q) && Column(line, col).Some?
  {
  }

  /** A pair-layout read fails when some line has no field `col` (a blank line fails on
      field 0, a line with a query id only on field `col`), and the failure is IndexError
      when that is the first line that raises. */
  lemma ShortLineFails(lines: seq<string>, col: nat, i: nat)
    requires col >= 1
    requires i < |lines| && |Fields(lines[i])| <= col
    requires forall j :: 0 <= j < i ==> Entry(lines[j], PairColumn(col)).Success?
    requires |Fields(lines[i])| == 0 || ParseInt(Fields(lines[i])[0]).Some?
    ensures Accumulate(lines, PairColumn(col)) == Failure(IndexError)
  {
    var es := Entries(lines, PairColumn(col));
    assert es[i] == Failure(IndexError) by {
      ShortEntry(lines[i], col);
    }
    assert Collect(es[..i]).Success? by {
      assert forall j :: 0 <= j < i ==> es[..i][j] == Entry(lines[j], PairColumn(col));
      CollectSucceeds(es[..i]);
    }
    CollectStep(es, i);
    FailureStays(es, i + 1);
  }

  /** A line without field `col` whose field 0, if any, is an integer raises IndexError. */
  lemma ShortEntry(line: string, col: nat)
    requires col >= 1 && |Fields(line)| <= col
    requires |Fields(line)| == 0 || ParseInt(Fields(line)[0]).Some?
    ensures Entry(line, PairColumn(col)) == Failure(IndexError)
  {
  }

  /** An id-list read skips a line with fewer than two fields. */
  lemma ShortLineSkipped(lines: seq<string>, line: string)
    requires |Fields(line)| < 2
    ensures Accumulate(lines + [line], IdList) == Accumulate(lines, IdList)
  {
    var es := Entries(lines + [line], IdList);
    assert es[|lines|] == Success(None) by {
      assert (lines + [line])[|lines|] == line;
    }
    assert es[..|lines|] == Entries(lines, IdList) by {
      assert forall j :: 0 <= j < |lines| ==> (lines + [line])[j] == lines[j];
    }
    assert Collect(es) == Collect(es[..|lines|]);
  }

  /** The ids after the first field are exactly the values of the fields after the first. */
  lemma IdsAfterFirst(parts: seq<string>)
    requires |parts| >= 1 && IntSet(parts[1..]).Some?
    ensures forall d :: d in IntSet(parts[1..]).value <==> exists k :: 1 <= k < |parts| && ParseInt(parts[k]) == Some(d)
  {
    var rest := parts[1..];
    IntSetContents(rest);
    forall d | d in IntSet(rest).value ensures exists k :: 1 <= k < |parts| && ParseInt(parts[k]) == Some(d) {
      var k :| 0 <= k < |rest| && ParseInt(rest[k]) == Some(d);
      assert parts[k + 1] == rest[k];
    }
    forall d | exists k :: 1 <= k < |parts| && ParseInt(parts[k]) == Some(d) ensures d in IntSet(rest).value {
      var k :| 1 <= k < |parts| && ParseInt(parts[k]) == Some(d);
      assert rest[k - 1] == parts[k];
    }
  }

  /** A successful id-list line of two or more fields contributes (field 0, the set of
      the later fields). */
  lemma IdListEntry(line: string)
    requires |Fields(line)| >= 2 && Entry(line, IdList).Success?
    ensures IntSet(Fields(line)[1..]).Some? && Column(line, 0).Some?
    ensures Entry(line, IdList) == Success(Some((Column(line, 0).value, IntSet(Fields(line)[1..]).value)))
  {
    var parts := Fields(line);
    assert ParseInt(parts[0]).Some? && IntSet(parts[1..]).Some?;
  }

  /** Field k of a line, read as an integer. */
  lemma ColumnsOf(line: string)
    ensures forall k :: 0 <= k < |Fields(line)| ==> Column(line, k) == ParseInt(Fields(line)[k])
  {
  }

  /** With the id-list layout, a line with at least two fields records every id after the
      first under the first. */
  lemma IdListRecords(line: string, q: int, d: int)
    requires |Fields(line)| >= 2 && Entry(line, IdList).Success?
    ensures Records(Entry(line, IdList), q, d) <==>
      Column(line, 0) == Some(q) && exists k :: 1 <= k < |Fields(line)| && Column(line, k) == Some(d)
  {
    var parts := Fields(line);
    IdListEntry(line);
    IdsAfterFirst(parts);
    ColumnsOf(line);
    if exists k :: 1 <= k < |parts| && Column(line, k) == Some(d) {
      var k :| 1 <= k < |parts| && Column(line, k) == Some(d);
      assert ParseInt(parts[k]) == Some(d);
    }
  }

}
