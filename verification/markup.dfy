/** The regular expressions of the corpus parsers, written out.
    - `re.split(TAG + r'\d+', content)`: split at every marker, a fixed tag followed by
      one or more digits (`\.I \d+` in CRAN.py, MED.py and cacm.py; `\*TEXT \d+` in
      time-data.py), scanning left to right.
    - `re.search(OPENER + r'([\s\S]+?)' + STOP, record)`: the leftmost match of an opener,
      then the shortest non-empty group that a stop follows.
    - `re.findall` of such a pattern whose stop is a lookahead (time-data.py:24). */
module Markup {
  import opened Wrappers
  import opened Text

  predicate StartsWithAt(s: string, i: nat, t: string) {
    i + |t| <= |s| && forall k :: 0 <= k < |t| ==> s[i + k] == t[k]
  }

  predicate Contains(s: string, t: string) {
    exists i :: 0 <= i <= |s| && StartsWithAt(s, i, t)
  }

  /** The end of the run of digits that starts at `i`. */
  function DigitRunEnd(s: string, i: nat): (e: nat)
    requires i <= |s|
    ensures i <= e <= |s|
    ensures forall k :: i <= k < e ==> IsDigit(s[k])
    ensures e < |s| ==> !IsDigit(s[e])
    decreases |s| - i
  {
    if i < |s| && IsDigit(s[i]) then DigitRunEnd(s, i + 1) else i
  }

  /** The end of the run of whitespace that starts at `i`. */
  function SpaceRunEnd(s: string, i: nat): (e: nat)
    requires i <= |s|
    ensures i <= e <= |s|
    ensures forall k :: i <= k < e ==> IsSpace(s[k])
    ensures e < |s| ==> !IsSpace(s[e])
    decreases |s| - i
  {
    if i < |s| && IsSpace(s[i]) then SpaceRunEnd(s, i + 1) else i
  }

  // ---- re.split on a marker ----

  /** `tag` followed by at least one digit starts at `i`. */
  predicate MarkerAt(s: string, i: nat, tag: string) {
    StartsWithAt(s, i, tag) && i + |tag| < |s| && IsDigit(s[i + |tag|])
  }

  /** A whole marker: the tag, then digits only, at least one. */
  predicate IsMarker(m: string, tag: string) {
    && |m| > |tag| && m[..|tag|] == tag
    && forall k :: |tag| <= k < |m| ==> IsDigit(m[k])
  }

  predicate HasMarker(s: string, tag: string) {
    exists i :: 0 <= i < |s| && MarkerAt(s, i, tag)
  }

  /** The pieces and removed markers of the split of `s[start..]`, the scan being at `p`. */
  function SplitFrom(s: string, tag: string, start: nat, p: nat): (r: (seq<string>, seq<string>))
    requires start <= p <= |s|
    ensures |r.0| == |r.1| + 1
    decreases |s| - p
  {
    if p == |s| then ([s[start..]], [])
    else if MarkerAt(s, p, tag) then
      var e := DigitRunEnd(s, p + |tag|);
      var rest := SplitFrom(s, tag, e, e);
      ([s[start..p]] + rest.0, [s[p..e]] + rest.1)
    else SplitFrom(s, tag, start, p + 1)
  }

  /** `re.split(tag + r'\d+', s)`, together with the markers the split removed. */
  function SplitOnMarker(s: string, tag: string): (r: (seq<string>, seq<string>))
    ensures |r.0| == |r.1| + 1
  {
    SplitFrom(s, tag, 0, 0)
  }

  /** `re.split(tag + r'\d+', s)[1:]`: one record per marker; the text before the first
      marker is dropped. */
  function Records(s: string, tag: string): (rs: seq<string>)
    ensures |rs| == |SplitOnMarker(s, tag).1|
  {
    SplitOnMarker(s, tag).0[1..]
  }

  /** The pieces with the markers put back between them. */
  function Interleave(pieces: seq<string>, markers: seq<string>): string
    requires |pieces| == |markers| + 1
  {
    if markers == [] then pieces[0]
    else pieces[0] + markers[0] + Interleave(pieces[1..], markers[1..])
  }

  lemma {:induction false} SplitFromReassembles(s: string, tag: string, start: nat, p: nat)
    requires start <= p <= |s|
    ensures Interleave(SplitFrom(s, tag, start, p).0, SplitFrom(s, tag, start, p).1) == s[start..]
    decreases |s| - p
  {
    if p < |s| && MarkerAt(s, p, tag) {
      var e := DigitRunEnd(s, p + |tag|);
      SplitFromReassembles(s, tag, e, e);
      assert s[start..] == s[start..p] + s[p..e] + s[e..];
    } else if p < |s| {
      SplitFromReassembles(s, tag, start, p + 1);
    }
  }

  lemma {:induction false} SplitFromMarkers(s: string, tag: string, start: nat, p: nat)
    requires start <= p <= |s|
    ensures forall m :: m in SplitFrom(s, tag, start, p).1 ==> IsMarker(m, tag)
    decreases |s| - p
  {
    if p < |s| && MarkerAt(s, p, tag) {
      var e := DigitRunEnd(s, p + |tag|);
      SplitFromMarkers(s, tag, e, e);
      assert IsMarker(s[p..e], tag) by {
        assert s[p..e][..|tag|] == s[p..p + |tag|];
      }
    } else if p < |s| {
      SplitFromMarkers(s, tag, start, p + 1);
    }
  }

  lemma {:induction false} SplitFromPieces(s: string, tag: string, start: nat, p: nat)
    requires start <= p <= |s|
    requires forall q :: start <= q < p ==> !MarkerAt(s, q, tag)
    ensures forall x :: x in SplitFrom(s, tag, start, p).0 ==> !HasMarker(x, tag)
    decreases |s| - p
  {
    if p == |s| {
      PieceHasNoMarker(s, tag, start, p);
      assert s[start..p] == s[start..];
    } else if MarkerAt(s, p, tag) {
      var e := DigitRunEnd(s, p + |tag|);
      SplitFromPieces(s, tag, e, e);
      PieceHasNoMarker(s, tag, start, p);
    } else {
      SplitFromPieces(s, tag, start, p + 1);
    }
  }

  lemma {:induction false} SplitFromBoundaries(s: string, tag: string, start: nat, p: nat)
    requires start <= p <= |s|
    ensures forall k :: 1 <= k < |SplitFrom(s, tag, start, p).0| ==>
      SplitFrom(s, tag, start, p).0[k] == [] || !IsDigit(SplitFrom(s, tag, start, p).0[k][0])
    decreases |s| - p
  {
    var r := SplitFrom(s, tag, start, p);
    if p < |s| && MarkerAt(s, p, tag) {
      var e := DigitRunEnd(s, p + |tag|);
      var rest := SplitFrom(s, tag, e, e);
      SplitFromBoundaries(s, tag, e, e);
      FirstPieceStarts(s, tag, e, e);
      assert r.0 == [s[start..p]] + rest.0;
      forall k | 1 <= k < |r.0| ensures r.0[k] == [] || !IsDigit(r.0[k][0]) {
        assert r.0[k] == rest.0[k - 1];
      }
    } else if p < |s| {
      SplitFromBoundaries(s, tag, start, p + 1);
    }
  }

  /** The first piece of a split that starts at `start` is a prefix of `s[start..]`. */
  lemma {:induction false} FirstPieceStarts(s: string, tag: string, start: nat, p: nat)
    requires start <= p <= |s|
    ensures var x := SplitFrom(s, tag, start, p).0[0]; start + |x| <= |s| && x == s[start..start + |x|]
    decreases |s| - p
  {
    if p < |s| && !MarkerAt(s, p, tag) {
      FirstPieceStarts(s, tag, start, p + 1);
    }
  }

  lemma PieceHasNoMarker(s: string, tag: string, start: nat, p: nat)
    requires start <= p <= |s|
    requires forall q :: start <= q < p ==> !MarkerAt(s, q, tag)
    ensures !HasMarker(s[start..p], tag)
  {
    var x := s[start..p];
    forall i | 0 <= i < |x| && MarkerAt(x, i, tag) ensures false {
      assert x[i..i + |tag|] == tag;
      forall k | 0 <= k < |tag| ensures s[start + i + k] == tag[k] {
        assert x[i..i + |tag|][k] == x[i + k];
      }
      assert s[start + i..start + i + |tag|] == tag;
      assert x[i + |tag|] == s[start + i + |tag|];
      assert MarkerAt(s, start + i, tag);
    }
  }

  /** `re.split` on a marker is undone by putting the markers back; every removed string
      is a whole marker (its digit run maximal), and no piece holds a marker. */
  lemma SplitShape(s: string, tag: string)
    ensures Interleave(SplitOnMarker(s, tag).0, SplitOnMarker(s, tag).1) == s
    ensures forall m :: m in SplitOnMarker(s, tag).1 ==> IsMarker(m, tag)
    ensures forall x :: x in SplitOnMarker(s, tag).0 ==> !HasMarker(x, tag)
    ensures forall k :: 1 <= k < |SplitOnMarker(s, tag).0| ==>
      SplitOnMarker(s, tag).0[k] == [] || !IsDigit(SplitOnMarker(s, tag).0[k][0])
  {
    SplitFromReassembles(s, tag, 0, 0);
    SplitFromMarkers(s, tag, 0, 0);
    SplitFromPieces(s, tag, 0, 0);
    SplitFromBoundaries(s, tag, 0, 0);
  }

  /** A text without any marker yields no record at all. */
  lemma {:induction false} NoMarkerNoRecord(s: string, tag: string, start: nat, p: nat)
    requires start <= p <= |s|
    requires forall q :: p <= q < |s| ==> !MarkerAt(s, q, tag)
    ensures SplitFrom(s, tag, start, p).1 == []
    decreases |s| - p
  {
    if p < |s| {
      NoMarkerNoRecord(s, tag, start, p + 1);
    }
  }

  // ---- re.search for a field ----

  /** What may end the lazy group: a literal (consumed or looked ahead), `$`, or `\.$`.
      `$` matches at the end of the text or just before a final newline. */
  datatype Stop = Lit(text: string) | End | DotEnd

  predicate StopMatches(s: string, j: nat, t: Stop) {
    match t
    case Lit(x) => StartsWithAt(s, j, x)
    case End => j == |s| || (j + 1 == |s| && s[j] == '\n')
    case DotEnd => j < |s| && s[j] == '.' && (j + 1 == |s| || (j + 2 == |s| && s[j + 1] == '\n'))
  }

  predicate AnyStop(s: string, j: nat, stops: seq<Stop>) {
    stops != [] && (StopMatches(s, j, stops[0]) || AnyStop(s, j, stops[1..]))
  }

  /** With a literal or `$` as the stops, a stop position is one or the other. */
  lemma LiteralOrEnd(s: string, j: nat, x: string)
    requires AnyStop(s, j, [Lit(x), End])
    ensures StartsWithAt(s, j, x) || j == |s| || (j + 1 == |s| && s[j] == '\n')
  {
    if !StartsWithAt(s, j, x) {
      assert [Lit(x), End][1..] == [End];
      assert AnyStop(s, j, [End]);
      assert [End][1..] == [];
      assert !AnyStop(s, j, []);
      assert StopMatches(s, j, End);
    }
  }

  /** The first position at or after `j` where a stop matches. */
  function FirstStop(s: string, j: nat, stops: seq<Stop>): (r: Option<nat>)
    ensures r.Some? ==> j <= r.value <= |s| && AnyStop(s, r.value, stops)
    ensures r.Some? ==> forall k :: j <= k < r.value ==> !AnyStop(s, k, stops)
    ensures r.None? ==> forall k :: j <= k <= |s| ==> !AnyStop(s, k, stops)
    decreases |s| + 1 - j
  {
    if j > |s| then None
    else if AnyStop(s, j, stops) then Some(j)
    else FirstStop(s, j + 1, stops)
  }

  /** How a field begins.  `Tag(t)` is `t\s+`; `Header(w)` is `w\d+\n\n`;
      `SpacedHeader(w)` is `w\s+\d+\n\n`. */
  datatype Opener = Tag(tag: string) | Header(word: string) | SpacedHeader(word: string)

  /** A match of `group` and `stop` whose group starts at `g`, `g` at least `lo`: the regex
      first lets `\s+` take the whole run, and gives characters back one at a time when no
      stop follows. */
  function BacktrackRun(s: string, lo: nat, g: nat, stops: seq<Stop>): (r: Option<(nat, nat)>)
    requires lo <= g <= |s|
    ensures r.Some? ==> lo <= r.value.0 <= g && r.value.0 < r.value.1 <= |s|
    ensures r.Some? ==> AnyStop(s, r.value.1, stops)
    ensures r.Some? ==> forall k :: r.value.0 < k < r.value.1 ==> !AnyStop(s, k, stops)
    ensures r.Some? ==> FirstStop(s, r.value.0 + 1, stops) == Some(r.value.1)
    ensures r.Some? && r.value.0 < g ==> FirstStop(s, r.value.0 + 2, stops).None?
    ensures r.None? ==> FirstStop(s, lo + 1, stops).None?
    decreases g
  {
    match FirstStop(s, g + 1, stops)
    case Some(j) => Some((g, j))
    case None => if g > lo then BacktrackRun(s, lo, g - 1, stops) else None
  }

  /** The group of a match that starts exactly at `i`, as the slice bounds (start, end). */
  function MatchAt(s: string, i: nat, op: Opener, stops: seq<Stop>): (r: Option<(nat, nat)>)
    ensures r.Some? ==> i < r.value.0 < r.value.1 <= |s|
    ensures r.Some? ==> AnyStop(s, r.value.1, stops)
    ensures r.Some? ==> forall k :: r.value.0 < k < r.value.1 ==> !AnyStop(s, k, stops)
  {
    match op
    case Tag(t) =>
      if StartsWithAt(s, i, t) && i + |t| < |s| then TagGroup(s, i + |t|, stops) else None
    case Header(w) =>
      if StartsWithAt(s, i, w) && i + |w| < |s| && IsDigit(s[i + |w|]) then
        BlankLineGroup(s, DigitRunEnd(s, i + |w|), stops)
      else None
    case SpacedHeader(w) =>
      if StartsWithAt(s, i, w) && i + |w| < |s| then SpacedGroup(s, i + |w|, stops) else None
  }

  /** The rest of a tag match after the tag, at `a`: `\s+`, then the group. */
  function TagGroup(s: string, a: nat, stops: seq<Stop>): (r: Option<(nat, nat)>)
    requires a < |s|
    ensures r.Some? ==> a < r.value.0 < r.value.1 <= |s|
    ensures r.Some? ==> AnyStop(s, r.value.1, stops)
    ensures r.Some? ==> forall k :: r.value.0 < k < r.value.1 ==> !AnyStop(s, k, stops)
  {
    if IsSpace(s[a]) then BacktrackRun(s, a + 1, SpaceRunEnd(s, a + 1), stops) else None
  }

  /** The rest of a spaced-header match after the word, at `a`: `\s+\d+`, then a blank
      line and the group. */
  function SpacedGroup(s: string, a: nat, stops: seq<Stop>): (r: Option<(nat, nat)>)
    requires a < |s|
    ensures r.Some? ==> a < r.value.0 < r.value.1 <= |s|
    ensures r.Some? ==> AnyStop(s, r.value.1, stops)
    ensures r.Some? ==> forall k :: r.value.0 < k < r.value.1 ==> !AnyStop(s, k, stops)
  {
    if IsSpace(s[a]) then
      var e := SpaceRunEnd(s, a);
      if e < |s| && IsDigit(s[e]) then BlankLineGroup(s, DigitRunEnd(s, e), stops) else None
    else None
  }

  /** The rest of a header match after its number, at `d`: `\n\n`, then the group up to
      the first stop after its first character. */
  function BlankLineGroup(s: string, d: nat, stops: seq<Stop>): (r: Option<(nat, nat)>)
    ensures r.Some? ==> StartsWithAt(s, d, "\n\n") && r.value.0 == d + 2 < r.value.1 <= |s|
    ensures r.Some? ==> FirstStop(s, d + 3, stops) == Some(r.value.1)
    ensures StartsWithAt(s, d, "\n\n") && FirstStop(s, d + 3, stops).Some? ==> r.Some?
  {
    if StartsWithAt(s, d, "\n\n") then
      match FirstStop(s, d + 3, stops)
      case Some(j) => Some((d + 2, j))
      case None => None
    else None
  }

  /** `s[a..b]` matches `\s+\d+`: a non-empty run of whitespace, then a non-empty run of
      digits. */
  predicate SpacesThenDigits(s: string, a: nat, b: nat) {
    a < b <= |s| && IsSpace(s[a]) && IsDigit(s[b - 1])
    && (forall k :: a <= k < b ==> IsSpace(s[k]) || IsDigit(s[k]))
    && (forall k :: a < k < b && IsDigit(s[k - 1]) ==> IsDigit(s[k]))
  }

  /** A tag match is the tag, then whitespace up to the group.  The greedy `\s+` gives
      back whitespace only as far as needed: no stop at all follows the position after the
      group's start, unless the start is already the end of the run.  Where the group ends
      is MatchAt's own contract. */
  lemma TagMatch(s: string, i: nat, t: string, stops: seq<Stop>)
    requires MatchAt(s, i, Tag(t), stops).Some?
    ensures StartsWithAt(s, i, t) && i + |t| < |s|
    ensures var m := MatchAt(s, i, Tag(t), stops).value;
      && i + |t| < m.0 <= SpaceRunEnd(s, i + |t|)
      && (forall k :: i + |t| <= k < m.0 ==> IsSpace(s[k]))
      && (m.0 < SpaceRunEnd(s, i + |t|) ==> FirstStop(s, m.0 + 2, stops).None?)
  {
    var a := i + |t|;
    assert StartsWithAt(s, i, t) && a < |s|;
    assert MatchAt(s, i, Tag(t), stops) == TagGroup(s, a, stops);
    TagGroupShape(s, a, stops);
  }

  /** What TagMatch states, for the part of the match after the tag. */
  lemma TagGroupShape(s: string, a: nat, stops: seq<Stop>)
    requires a < |s| && TagGroup(s, a, stops).Some?
    ensures var m := TagGroup(s, a, stops).value;
      && a < m.0 <= SpaceRunEnd(s, a)
      && (forall k :: a <= k < m.0 ==> IsSpace(s[k]))
      && (m.0 < SpaceRunEnd(s, a) ==> FirstStop(s, m.0 + 2, stops).None?)
  {
    var e := SpaceRunEnd(s, a + 1);
    assert IsSpace(s[a]);
    assert SpaceRunEnd(s, a) == e;
    var r := BacktrackRun(s, a + 1, e, stops);
    assert TagGroup(s, a, stops) == r;
    forall k | a < k < r.value.0 ensures IsSpace(s[k]) {
      assert a + 1 <= k < e;
    }
  }

  /** A spaced-header match is the word, whitespace, digits and a blank line; where the
      group ends is MatchAt's own contract. */
  lemma SpacedHeaderMatch(s: string, i: nat, w: string, stops: seq<Stop>)
    requires MatchAt(s, i, SpacedHeader(w), stops).Some?
    ensures StartsWithAt(s, i, w) && i + |w| < |s|
    ensures var m := MatchAt(s, i, SpacedHeader(w), stops).value;
      && i + |w| + 2 < m.0 && SpacesThenDigits(s, i + |w|, m.0 - 2)
      && StartsWithAt(s, m.0 - 2, "\n\n")
  {
    var a := i + |w|;
    assert StartsWithAt(s, i, w) && a < |s|;
    assert MatchAt(s, i, SpacedHeader(w), stops) == SpacedGroup(s, a, stops);
    SpacedGroupShape(s, a, stops);
  }

  /** What SpacedHeaderMatch states, for the part of the match after the word. */
  lemma SpacedGroupShape(s: string, a: nat, stops: seq<Stop>)
    requires a < |s| && SpacedGroup(s, a, stops).Some?
    ensures var m := SpacedGroup(s, a, stops).value;
      a + 2 < m.0 && SpacesThenDigits(s, a, m.0 - 2) && StartsWithAt(s, m.0 - 2, "\n\n")
  {
    var e := SpaceRunEnd(s, a);
    assert IsSpace(s[a]) && e < |s| && IsDigit(s[e]);
    var d := DigitRunEnd(s, e);
    assert SpacedGroup(s, a, stops) == BlankLineGroup(s, d, stops);
    assert SpacedGroup(s, a, stops).value.0 - 2 == d;
    assert a < e < d;
    forall k | a <= k < d ensures IsSpace(s[k]) || IsDigit(s[k]) {
      if k >= e { assert IsDigit(s[k]); }
    }
    forall k | a < k < d && IsDigit(s[k - 1]) ensures IsDigit(s[k]) {
      assert k - 1 >= e;
    }
  }

  /** Conversely, the word, whitespace, digits and a blank line at `i` open a match there
      whenever a stop follows the group's first character. */
  lemma SpacedHeaderFound(s: string, i: nat, w: string, d: nat, stops: seq<Stop>)
    requires StartsWithAt(s, i, w) && SpacesThenDigits(s, i + |w|, d) && StartsWithAt(s, d, "\n\n")
    ensures MatchAt(s, i, SpacedHeader(w), stops) ==
      match FirstStop(s, d + 3, stops) case Some(j) => Some((d + 2, j)) case None => None
  {
    var a := i + |w|;
    var e := SpaceRunEnd(s, a);
    assert e < d;
    assert IsDigit(s[e]);
    DigitsFrom(s, a, d, e);
    assert s[d] == "\n\n"[0];
    assert DigitRunEnd(s, e) == d;
    assert SpacedGroup(s, a, stops) == BlankLineGroup(s, d, stops);
    assert MatchAt(s, i, SpacedHeader(w), stops) == SpacedGroup(s, a, stops);
  }

  /** Inside `\s+\d+`, every character after a digit is a digit. */
  lemma {:induction false} DigitsFrom(s: string, a: nat, b: nat, k: nat)
    requires SpacesThenDigits(s, a, b) && a <= k < b && IsDigit(s[k])
    ensures forall m :: k <= m < b ==> IsDigit(s[m])
    decreases b - k
  {
    if k + 1 < b {
      DigitsFrom(s, a, b, k + 1);
    }
  }

  /** `m.start()` of `re.search` from `from`: the leftmost position where the pattern
      matches, found by trying every position in turn. */
  function MatchStart(s: string, from: nat, op: Opener, stops: seq<Stop>): (r: Option<nat>)
    ensures r.Some? ==> from <= r.value < |s| && MatchAt(s, r.value, op, stops).Some?
    ensures r.Some? ==> forall p :: from <= p < r.value ==> MatchAt(s, p, op, stops).None?
    ensures r.None? ==> forall p :: from <= p < |s| ==> MatchAt(s, p, op, stops).None?
    decreases |s| - from
  {
    if from >= |s| then None
    else if MatchAt(s, from, op, stops).Some? then Some(from)
    else
      var r := MatchStart(s, from + 1, op, stops);
      NoMatchBefore(s, from, if r.Some? then r.value else |s|, op, stops);
      r
  }

  /** No match at `from` extends a stretch without matches that starts just after it. */
  lemma NoMatchBefore(s: string, from: nat, e: nat, op: Opener, stops: seq<Stop>)
    requires MatchAt(s, from, op, stops).None?
    requires forall p :: from + 1 <= p < e ==> MatchAt(s, p, op, stops).None?
    ensures forall p :: from <= p < e ==> MatchAt(s, p, op, stops).None?
  {
    forall p | from <= p < e ensures MatchAt(s, p, op, stops).None? {
      if p > from {
        assert from + 1 <= p < e;
      }
    }
  }

  /** `re.search` from position `from`: the leftmost position where the pattern matches. */
  function Search(s: string, from: nat, op: Opener, stops: seq<Stop>): (r: Option<(nat, nat)>)
    ensures r.Some? ==> from < r.value.0 < r.value.1 <= |s|
    ensures r.Some? ==> AnyStop(s, r.value.1, stops)
    ensures r.Some? ==> forall k :: r.value.0 < k < r.value.1 ==> !AnyStop(s, k, stops)
    decreases |s| - from
  {
    if from >= |s| then None
    else match MatchAt(s, from, op, stops)
      case Some(m) => Some(m)
      case None => Search(s, from + 1, op, stops)
  }

  /** `re.search` returns the match at the leftmost position where the pattern matches,
      and nothing exactly when the pattern matches nowhere. */
  lemma {:induction false} SearchLeftmost(s: string, from: nat, op: Opener, stops: seq<Stop>)
    ensures Search(s, from, op, stops).None? <==> MatchStart(s, from, op, stops).None?
    ensures MatchStart(s, from, op, stops).Some? ==>
      Search(s, from, op, stops) == MatchAt(s, MatchStart(s, from, op, stops).value, op, stops)
    decreases |s| - from
  {
    if from < |s| && MatchAt(s, from, op, stops).None? {
      SearchLeftmost(s, from + 1, op, stops);
    }
  }

  /** What `re.search` finds with a spaced-header opener: the leftmost match, which is
      the word, whitespace, digits and a blank line, followed by the group. */
  lemma SearchSpacedHeader(s: string, from: nat, w: string, stops: seq<Stop>)
    requires Search(s, from, SpacedHeader(w), stops).Some?
    ensures var m := Search(s, from, SpacedHeader(w), stops).value;
      var p := MatchStart(s, from, SpacedHeader(w), stops);
      && p.Some? && from <= p.value
      && MatchAt(s, p.value, SpacedHeader(w), stops) == Some(m)
      && StartsWithAt(s, p.value, w)
      && SpacesThenDigits(s, p.value + |w|, m.0 - 2)
      && StartsWithAt(s, m.0 - 2, "\n\n")
  {
    SearchLeftmost(s, from, SpacedHeader(w), stops);
    SpacedHeaderMatch(s, MatchStart(s, from, SpacedHeader(w), stops).value, w, stops);
  }

  /** `m.group(1) if m else ''` for `m = re.search(...)`: empty exactly when the search
      finds nothing, and otherwise the group, which a stop follows. */
  function FieldOr(s: string, op: Opener, stops: seq<Stop>): (r: string)
    ensures r == [] <==> Search(s, 0, op, stops).None?
    ensures r != [] ==> var m := Search(s, 0, op, stops).value;
      0 < m.0 && r == s[m.0..m.1] && AnyStop(s, m.1, stops)
  {
    match Search(s, 0, op, stops)
    case Some((g, j)) => s[g..j]
    case None => ""
  }

  /** The literal text every match of an opener starts with. */
  function Keyword(op: Opener): string {
    match op
    case Tag(t) => t
    case Header(w) => w
    case SpacedHeader(w) => w
  }

  /** An opener whose keyword never occurs opens no field. */
  lemma {:induction false} AbsentOpenerNoField(s: string, from: nat, op: Opener, stops: seq<Stop>)
    requires !Contains(s, Keyword(op))
    ensures Search(s, from, op, stops) == None
    decreases |s| - from
  {
    if from < |s| {
      assert !StartsWithAt(s, from, Keyword(op));
      AbsentOpenerNoField(s, from + 1, op, stops);
    }
  }

  /** A header match ends its header with a blank line just before the group. */
  lemma {:induction false} HeaderBlankLine(s: string, from: nat, op: Opener, stops: seq<Stop>)
    requires !op.Tag? && Search(s, from, op, stops).Some?
    ensures var g := Search(s, from, op, stops).value.0; 2 <= g && s[g - 2..g] == "\n\n"
    decreases |s| - from
  {
    if MatchAt(s, from, op, stops).None? {
      HeaderBlankLine(s, from + 1, op, stops);
    }
  }

  /** The group spans of `re.findall` from position `from`; a lookahead stop is not
      consumed, so the next search starts where the group ends. */
  function FindAllSpans(s: string, from: nat, op: Opener, stops: seq<Stop>): (spans: seq<(nat, nat)>)
    ensures forall k :: 0 <= k < |spans| ==> from < spans[k].0 < spans[k].1 <= |s|
    decreases |s| - from
  {
    match Search(s, from, op, stops)
    case None => []
    case Some((g, j)) => [(g, j)] + FindAllSpans(s, j, op, stops)
  }

  /** Where the search for group k of `findall` starts: `from` for the first group, and
      the end of group k - 1 after that; with k the number of groups, where the search
      that finds nothing starts. */
  function SearchFrom(spans: seq<(nat, nat)>, from: nat, k: nat): nat
    requires k <= |spans|
  {
    if k == 0 then from else spans[k - 1].1
  }

  /** Group k of `findall` is the one `re.search` finds from the end of group k - 1, or
      from `from` for the first. */
  lemma {:induction false} FindAllSearches(s: string, from: nat, op: Opener, stops: seq<Stop>, k: nat)
    requires k < |FindAllSpans(s, from, op, stops)|
    ensures var spans := FindAllSpans(s, from, op, stops);
      Search(s, SearchFrom(spans, from, k), op, stops) == Some(spans[k])
    decreases k
  {
    var spans := FindAllSpans(s, from, op, stops);
    assert Search(s, from, op, stops).Some?;
    FindAllCons(s, from, op, stops);
    if k > 0 {
      var j := Search(s, from, op, stops).value.1;
      var rest := FindAllSpans(s, j, op, stops);
      FindAllSearches(s, j, op, stops, k - 1);
      assert spans[k] == rest[k - 1];
      if k > 1 {
        assert spans[k - 1] == rest[k - 2];
      }
      assert SearchFrom(spans, from, k) == SearchFrom(rest, j, k - 1);
    }
  }

  /** One step of `findall`: the first group is the one `re.search` finds, and the rest
      are those of `findall` from its end. */
  lemma FindAllCons(s: string, from: nat, op: Opener, stops: seq<Stop>)
    requires Search(s, from, op, stops).Some?
    ensures var m := Search(s, from, op, stops).value;
      var spans := FindAllSpans(s, from, op, stops);
      var rest := FindAllSpans(s, m.1, op, stops);
      && |spans| == |rest| + 1 && spans[0] == m
      && forall k :: 0 < k < |spans| ==> spans[k] == rest[k - 1]
  {
  }

  /** Each group of `findall` starts after where its search starts, ends at a stop, and
      has no stop inside. */
  lemma FindAllSpan(s: string, from: nat, op: Opener, stops: seq<Stop>, k: nat)
    requires k < |FindAllSpans(s, from, op, stops)|
    ensures var spans := FindAllSpans(s, from, op, stops);
      && SearchFrom(spans, from, k) < spans[k].0
      && AnyStop(s, spans[k].1, stops)
      && (forall p :: spans[k].0 < p < spans[k].1 ==> !AnyStop(s, p, stops))
  {
    FindAllSearches(s, from, op, stops, k);
  }

  /** The groups of `findall` come in text order without overlapping. */
  lemma {:induction false} FindAllOrdered(s: string, from: nat, op: Opener, stops: seq<Stop>, k: nat, l: nat)
    requires k < l < |FindAllSpans(s, from, op, stops)|
    ensures var spans := FindAllSpans(s, from, op, stops);
      spans[k].1 < spans[l].0
    decreases l
  {
    var spans := FindAllSpans(s, from, op, stops);
    FindAllSpan(s, from, op, stops, l);
    assert SearchFrom(spans, from, l) == spans[l - 1].1;
    if k < l - 1 {
      FindAllOrdered(s, from, op, stops, k, l - 1);
    }
  }

  /** `re.search` finds nothing after the last group of `findall`. */
  lemma {:induction false} FindAllExhausts(s: string, from: nat, op: Opener, stops: seq<Stop>)
    ensures var spans := FindAllSpans(s, from, op, stops);
      Search(s, SearchFrom(spans, from, |spans|), op, stops).None?
    decreases |s| - from
  {
    var spans := FindAllSpans(s, from, op, stops);
    match Search(s, from, op, stops)
    case None =>
      assert spans == [];
    case Some((g, j)) =>
      var rest := FindAllSpans(s, j, op, stops);
      assert spans == [(g, j)] + rest;
      FindAllExhausts(s, j, op, stops);
      if |rest| == 0 {
        assert spans[|spans| - 1].1 == j;
      } else {
        assert spans[|spans| - 1] == rest[|rest| - 1];
      }
      assert SearchFrom(spans, from, |spans|) == SearchFrom(rest, j, |rest|);
  }

  /** `re.findall(pattern, s)` for a pattern with one group. */
  function FindAll(s: string, op: Opener, stops: seq<Stop>): (r: seq<string>)
    ensures |r| == |FindAllSpans(s, 0, op, stops)|
  {
    var spans := FindAllSpans(s, 0, op, stops);
    seq(|spans|, k requires 0 <= k < |spans| => s[spans[k].0..spans[k].1])
  }
}
