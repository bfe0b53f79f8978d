/** The pieces of Python's `str` and `int` that the harness relies on, for ASCII text:
    character classes (`isspace`, regex `\w`, `\d`), `lower`/`upper`, `strip`,
    `split()` without arguments, `' '.join`, `replace('\n', ' ')` and `int(token)`. */
module Text {
  import opened Wrappers

  /** `str.isspace()` and the regex class `\s`, on ASCII characters. */
  predicate IsSpace(c: char) {
    c == ' ' || c == '\t' || c == '\n' || c == '\r' || c == '\U{B}' || c == '\U{C}'
    || ('\U{1C}' <= c <= '\U{1F}')
  }

  predicate IsDigit(c: char) { '0' <= c <= '9' }
  predicate IsUpper(c: char) { 'A' <= c <= 'Z' }
  predicate IsLower(c: char) { 'a' <= c <= 'z' }
  predicate IsLetter(c: char) { IsUpper(c) || IsLower(c) }

  /** The regex class `\w`, on ASCII characters. */
  predicate IsWordChar(c: char) { IsLetter(c) || IsDigit(c) || c == '_' }

  function ToLower(c: char): char { if IsUpper(c) then (c as int + 32) as char else c }
  function ToUpper(c: char): char { if IsLower(c) then (c as int - 32) as char else c }

  /** Every character of `s` satisfies `p`. */
  predicate AllChars(s: string, p: char -> bool) {
    forall i :: 0 <= i < |s| ==> p(s[i])
  }

  predicate NoSpace(s: string) { forall i :: 0 <= i < |s| ==> !IsSpace(s[i]) }

  /** No whitespace at either end: what `strip()` returns. */
  predicate Stripped(s: string) { s == [] || (!IsSpace(s[0]) && !IsSpace(s[|s| - 1])) }

  /** `str.lower()` */
  function Lower(s: string): string { seq(|s|, i requires 0 <= i < |s| => ToLower(s[i])) }

  /** `str.upper()` */
  function Upper(s: string): string { seq(|s|, i requires 0 <= i < |s| => ToUpper(s[i])) }

  /** `str.replace('\n', ' ')` */
  function ReplaceNewlines(s: string): (r: string)
    ensures |r| == |s| && forall i :: 0 <= i < |r| ==> r[i] != '\n'
    ensures forall i :: 0 <= i < |r| ==> (IsSpace(r[i]) <==> IsSpace(s[i]))
  {
    seq(|s|, i requires 0 <= i < |s| => if s[i] == '\n' then ' ' else s[i])
  }

  function TrimLeft(s: string): (r: string)
    ensures |r| <= |s| && r == s[|s| - |r|..]
    ensures forall k :: 0 <= k < |s| - |r| ==> IsSpace(s[k])
    ensures r == [] || !IsSpace(r[0])
  {
    if s != [] && IsSpace(s[0]) then TrimLeft(s[1..]) else s
  }

  function TrimRight(s: string): (r: string)
    ensures |r| <= |s| && r == s[..|r|]
    ensures forall k :: |r| <= k < |s| ==> IsSpace(s[k])
    ensures r == [] || !IsSpace(r[|r| - 1])
  {
    if s != [] && IsSpace(s[|s| - 1]) then TrimRight(s[..|s| - 1]) else s
  }

  /** Where `strip()` starts its slice: the length of the leading whitespace. */
  function StripStart(s: string): nat { |s| - |TrimLeft(s)| }

  /** `str.strip()`: the slice of `s` left after removing whitespace from both ends. */
  function Strip(s: string): (r: string)
    ensures Stripped(r)
    ensures StripStart(s) + |r| <= |s| && r == s[StripStart(s)..StripStart(s) + |r|]
    ensures r == [] <==> forall k :: 0 <= k < |s| ==> IsSpace(s[k])
  {
    var l := TrimLeft(s);
    var r := TrimRight(l);
    SliceOfSuffix(s, l, r);
    assert r != [] ==> !IsSpace(r[0]) by {
      if r != [] { assert r[0] == l[0]; }
    }
    r
  }

  /** A prefix of a suffix of `s` is a slice of `s`. */
  lemma SliceOfSuffix(s: string, l: string, r: string)
    requires |l| <= |s| && l == s[|s| - |l|..] && |r| <= |l| && r == l[..|r|]
    ensures r == s[|s| - |l|..|s| - |l| + |r|]
  {
  }

  /** `strip()` cuts off only whitespace: every character before and after the slice it
      keeps is whitespace. */
  lemma StripCuts(s: string)
    ensures forall k :: 0 <= k < StripStart(s) ==> IsSpace(s[k])
    ensures forall k :: StripStart(s) + |Strip(s)| <= k < |s| ==> IsSpace(s[k])
  {
    var l := TrimLeft(s);
    var r := TrimRight(l);
    assert Strip(s) == r;
    forall k | StripStart(s) + |r| <= k < |s| ensures IsSpace(s[k]) {
      assert s[k] == l[k - StripStart(s)];
    }
  }

  /** A stripped slice keeps every property its source's characters have. */
  lemma StripKeeps(s: string, p: char -> bool)
    requires AllChars(s, p)
    ensures AllChars(Strip(s), p)
  {
    var i := StripStart(s);
    SliceKeeps(s, i, i + |Strip(s)|, p);
  }

  /** A slice keeps every property its source's characters have. */
  lemma SliceKeeps(s: string, i: nat, j: nat, p: char -> bool)
    requires i <= j <= |s| && AllChars(s, p)
    ensures AllChars(s[i..j], p)
  {
    forall k | 0 <= k < j - i ensures p(s[i..j][k]) { assert s[i..j][k] == s[i + k]; }
  }

  lemma StripOfStripped(s: string)
    requires Stripped(s)
    ensures Strip(s) == s
  {
  }

  /** `s.replace('\n', ' ').strip()`: one stripped line. */
  function OneLine(s: string): (r: string)
    ensures Stripped(r)
    ensures '\n' !in r
    ensures r == [] <==> forall k :: 0 <= k < |s| ==> IsSpace(s[k])
  {
    var t := ReplaceNewlines(s);
    StripKeeps(t, NotNewline);
    Strip(t)
  }

  predicate NotNewline(c: char) { c != '\n' }

  /** The longest prefix of `s` without whitespace. */
  function Word(s: string): (w: string)
    ensures |w| <= |s| && w == s[..|w|]
    ensures NoSpace(w)
    ensures |w| < |s| ==> IsSpace(s[|w|])
  {
    if s == [] || IsSpace(s[0]) then [] else [s[0]] + Word(s[1..])
  }

  /** `str.split()` with no argument: the maximal runs of non-whitespace characters. */
  function Split(s: string): (ts: seq<string>)
    ensures forall t :: t in ts ==> t != [] && NoSpace(t)
    decreases |s|
  {
    if s == [] then []
    else if IsSpace(s[0]) then Split(s[1..])
    else
      var w := Word(s);
      [w] + Split(s[|w|..])
  }

  /** `' '.join(ts)` */
  function Join(ts: seq<string>): string {
    if |ts| == 0 then "" else if |ts| == 1 then ts[0] else ts[0] + " " + Join(ts[1..])
  }

  /** Tokens that `split()` can produce: non-empty and free of whitespace. */
  predicate Words(ts: seq<string>) { forall t :: t in ts ==> t != [] && NoSpace(t) }

  /** A string made of non-whitespace runs joined by exactly one space each, with no
      space at either end. */
  predicate Canonical(s: string) {
    && (s != [] ==> s[0] != ' ' && s[|s| - 1] != ' ')
    && (forall i :: 0 <= i < |s| ==> IsSpace(s[i]) ==> s[i] == ' ')
    && (forall i :: 0 <= i < |s| - 1 ==> s[i] == ' ' ==> s[i + 1] != ' ')
  }

  lemma {:induction false} SplitKeeps(s: string, p: char -> bool)
    requires AllChars(s, p)
    ensures forall t :: t in Split(s) ==> AllChars(t, p)
    decreases |s|
  {
    if s == [] {
    } else if IsSpace(s[0]) {
      SplitKeeps(s[1..], p);
    } else {
      var w := Word(s);
      SplitKeeps(s[|w|..], p);
    }
  }

  lemma {:induction false} JoinKeeps(ts: seq<string>, p: char -> bool)
    requires p(' ')
    requires forall t :: t in ts ==> AllChars(t, p)
    ensures AllChars(Join(ts), p)
  {
    if |ts| > 1 {
      JoinKeeps(ts[1..], p);
      var j := Join(ts[1..]);
      assert Join(ts) == ts[0] + " " + j;
      forall i | 0 <= i < |Join(ts)| ensures p(Join(ts)[i]) {
        if i < |ts[0]| {
          assert ts[0] in ts;
          assert Join(ts)[i] == ts[0][i];
        } else if i == |ts[0]| {
          assert Join(ts)[i] == ' ';
        } else {
          assert Join(ts)[i] == j[i - |ts[0]| - 1];
        }
      }
    }
  }

  lemma {:induction false} WordOf(w: string, rest: string)
    requires NoSpace(w)
    requires rest == [] || IsSpace(rest[0])
    ensures Word(w + rest) == w
  {
    if w != [] {
      assert (w + rest)[1..] == w[1..] + rest;
      WordOf(w[1..], rest);
    }
  }

  /** Splitting a string that starts with a whole token peels that token off. */
  lemma SplitFront(w: string, rest: string)
    requires w != [] && NoSpace(w)
    requires rest == [] || IsSpace(rest[0])
    ensures Split(w + rest) == [w] + Split(rest)
  {
    WordOf(w, rest);
    assert (w + rest)[|w|..] == rest;
  }

  /** `split()` undoes `' '.join` on tokens that `split()` can produce. */
  lemma {:induction false} SplitJoin(ts: seq<string>)
    requires Words(ts)
    ensures Split(Join(ts)) == ts
  {
    if |ts| == 1 {
      assert ts[0] in ts;
      SplitFront(ts[0], []);
      assert ts[0] + [] == ts[0];
    } else if |ts| > 1 {
      var j := Join(ts[1..]);
      assert ts[0] in ts;
      SplitJoin(ts[1..]);
      SplitFront(ts[0], " " + j);
      assert ts[0] + " " + j == ts[0] + (" " + j);
      assert (" " + j)[1..] == j;
    }
  }

  /** `' '.join` of such tokens is canonical. */
  lemma {:induction false} JoinCanonical(ts: seq<string>)
    requires Words(ts)
    ensures Canonical(Join(ts))
  {
    if |ts| == 1 {
      assert ts[0] in ts;
    } else if |ts| > 1 {
      assert forall u :: u in ts[1..] ==> u in ts;
      JoinCanonical(ts[1..]);
      var t, j := ts[0], Join(ts[1..]);
      var s := Join(ts);
      assert t in ts && ts[1] in ts;
      assert s == t + " " + j;
      JoinNonEmpty(ts[1..]);
      assert s[0] == t[0] && s[|s| - 1] == j[|j| - 1];
      forall i | 0 <= i < |s| && IsSpace(s[i]) ensures s[i] == ' ' {
        if i > |t| { assert s[i] == j[i - |t| - 1]; }
      }
      forall i | 0 <= i < |s| - 1 && s[i] == ' ' ensures s[i + 1] != ' ' {
        if i == |t| { assert s[i + 1] == j[0]; }
        else if i > |t| { assert s[i] == j[i - |t| - 1] && s[i + 1] == j[i - |t|]; }
      }
    }
  }

  lemma {:induction false} JoinNonEmpty(ts: seq<string>)
    requires Words(ts) && ts != []
    ensures ts[0] != [] && Join(ts) != [] && Join(ts)[0] == ts[0][0]
  {
    assert ts[0] in ts;
  }

  // ---- int(token) ----

  function DigitValue(c: char): nat requires IsDigit(c) { c as int - '0' as int }

  /** Digits with single underscores between them, as `int()` accepts. */
  predicate DigitGroups(s: string) {
    && s != [] && IsDigit(s[0])
    && (forall i :: 0 <= i < |s| ==> IsDigit(s[i]) || s[i] == '_')
    && (forall i :: 0 <= i < |s| ==> s[i] == '_' ==> i + 1 < |s| && IsDigit(s[i + 1]))
  }

  /** Value of a run of digits and underscores, underscores ignored. */
  function DigitsValue(s: string): nat
    requires forall i :: 0 <= i < |s| ==> IsDigit(s[i]) || s[i] == '_'
  {
    if s == [] then 0
    else if s[|s| - 1] == '_' then DigitsValue(s[..|s| - 1])
    else DigitsValue(s[..|s| - 1]) * 10 + DigitValue(s[|s| - 1])
  }

  /** `int(t)` for a token of `split()`: an optional sign, then digit groups; anything else
      raises ValueError, here `None`.  A token has no surrounding whitespace for `int()` to
      skip. */
  function ParseInt(t: string): Option<int> {
    if t != [] && (t[0] == '+' || t[0] == '-') then
      if DigitGroups(t[1..]) then
        var v: int := DigitsValue(t[1..]);
        Some(if t[0] == '-' then -v else v)
      else None
    else if DigitGroups(t) then Some(DigitsValue(t))
    else None
  }

  /** `str(n)` for an integer. */
  function ShowNat(n: nat): (r: string)
    ensures r != [] && forall i :: 0 <= i < |r| ==> IsDigit(r[i])
  {
    if n < 10 then [('0' as int + n) as char]
    else ShowNat(n / 10) + [('0' as int + n % 10) as char]
  }

  function ShowInt(n: int): string {
    if n < 0 then "-" + ShowNat(-n) else ShowNat(n)
  }

  lemma {:induction false} ShowNatValue(n: nat)
    ensures DigitsValue(ShowNat(n)) == n
  {
    if n >= 10 {
      var r := ShowNat(n);
      assert r[..|r| - 1] == ShowNat(n / 10);
      ShowNatValue(n / 10);
    }
  }

  /** `int(str(n)) == n`. */
  lemma ParseShow(n: int)
    ensures ParseInt(ShowInt(n)) == Some(n)
  {
    var s := ShowInt(n);
    if n < 0 {
      ShowNatValue(-n);
      assert s[1..] == ShowNat(-n);
    } else {
      ShowNatValue(n);
    }
  }
}
