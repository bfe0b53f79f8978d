/** The text normaliser `preprocess_text` (functions.py:20-28): lower-case, drop every
    character that is neither a word character nor whitespace, split on whitespace,
    remove stopwords and, when asked, stem each remaining token.  The stemmer is an
    opaque function supplied by the caller. */
module Normalizer {
  import opened Text

  /** A character that can survive normalisation inside a token. */
  predicate NormalChar(c: char) { IsWordChar(c) && !IsUpper(c) }

  predicate NormalOrSpace(c: char) { NormalChar(c) || c == ' ' }

  predicate WordOrSpace(c: char) { IsWordChar(c) || IsSpace(c) }

  predicate NotUpper(c: char) { !IsUpper(c) }

  predicate LowerWordOrSpace(c: char) { WordOrSpace(c) && NotUpper(c) }

  predicate NormalToken(t: string) { t != [] && AllChars(t, NormalChar) }

  /** The assumption about the stemmer under which the stemmed output keeps the
      unstemmed output's shape. */
  ghost predicate StemKeepsNormal(stem: string -> string) {
    forall t :: NormalToken(t) ==> NormalToken(stem(t))
  }

  /** `re.sub(r'[^\w\s]', '', text)` */
  function KeepWordAndSpace(s: string): string {
    if s == [] then []
    else (if WordOrSpace(s[0]) then [s[0]] else []) + KeepWordAndSpace(s[1..])
  }

  /** `[token for token in tokens if token not in stopwords]` */
  function RemoveStopwords(ts: seq<string>, stopwords: set<string>): seq<string> {
    if ts == [] then []
    else (if ts[0] in stopwords then [] else [ts[0]]) + RemoveStopwords(ts[1..], stopwords)
  }

  /** `[stemmer.stem(token) for token in tokens]` */
  function StemAll(ts: seq<string>, stem: string -> string): seq<string> {
    if ts == [] then [] else [stem(ts[0])] + StemAll(ts[1..], stem)
  }

  /** The tokens after `split()` (functions.py:21-23). */
  function SplitTokens(text: string): seq<string> {
    Split(KeepWordAndSpace(Lower(text)))
  }

  /** The tokens after stopword removal and optional stemming (functions.py:24-27). */
  function Tokens(text: string, stopwords: set<string>, stemming: bool, stem: string -> string): seq<string> {
    var kept := RemoveStopwords(SplitTokens(text), stopwords);
    if stemming then StemAll(kept, stem) else kept
  }

  /** `preprocess_text(text, stopwords, stemming)`: the output is canonical (non-empty
      tokens, one space between tokens, none at either end), holds only lower-case word
      characters and those spaces, and splits back into exactly the normaliser's tokens;
      with stemming, this holds when the stemmer keeps tokens lower-case words. */
  function PreprocessText(text: string, stopwords: set<string>, stemming: bool, stem: string -> string): (r: string)
    ensures (stemming ==> StemKeepsNormal(stem)) ==>
      Canonical(r) && AllChars(r, NormalOrSpace) && Split(r) == Tokens(text, stopwords, stemming, stem)
  {
    JoinedTokensShape(text, stopwords, stemming, stem);
    Join(Tokens(text, stopwords, stemming, stem))
  }

  /** `a` is `b` with some elements left out, the rest in their order. */
  predicate IsSubsequence<T(==)>(a: seq<T>, b: seq<T>)
    decreases |b|
  {
    if a == [] then true
    else if b == [] then false
    else (a[0] == b[0] && IsSubsequence(a[1..], b[1..])) || IsSubsequence(a, b[1..])
  }

  // ---- helper facts about the three string passes ----

  lemma {:induction false} KeepKeeps(s: string, p: char -> bool)
    requires AllChars(s, p)
    ensures AllChars(KeepWordAndSpace(s), p)
    ensures AllChars(KeepWordAndSpace(s), WordOrSpace)
  {
    if s != [] {
      KeepKeeps(s[1..], p);
    }
  }

  lemma {:induction false} KeepAll(s: string)
    requires AllChars(s, WordOrSpace)
    ensures KeepWordAndSpace(s) == s
  {
    if s != [] {
      KeepAll(s[1..]);
    }
  }

  lemma LowerNotUpper(s: string)
    ensures AllChars(Lower(s), NotUpper)
  {
  }

  lemma LowerOfLower(s: string)
    requires AllChars(s, NotUpper)
    ensures Lower(s) == s
  {
  }

  lemma {:induction false} RemovedAreIn(ts: seq<string>, stopwords: set<string>)
    ensures forall t :: t in RemoveStopwords(ts, stopwords) ==> t in ts && t !in stopwords
    ensures forall t :: t in ts && t !in stopwords ==> t in RemoveStopwords(ts, stopwords)
  {
    if ts != [] {
      RemovedAreIn(ts[1..], stopwords);
    }
  }

  lemma {:induction false} RemoveNone(ts: seq<string>, stopwords: set<string>)
    requires forall t :: t in ts ==> t !in stopwords
    ensures RemoveStopwords(ts, stopwords) == ts
  {
    if ts != [] {
      RemoveNone(ts[1..], stopwords);
    }
  }

  /** Removal keeps every occurrence of a token that is not a stopword, and none of one
      that is. */
  lemma {:induction false} RemoveCounts(ts: seq<string>, stopwords: set<string>, t: string)
    ensures multiset(RemoveStopwords(ts, stopwords))[t] == if t in stopwords then 0 else multiset(ts)[t]
  {
    if ts != [] {
      RemoveCounts(ts[1..], stopwords, t);
      assert ts == [ts[0]] + ts[1..];
      assert multiset(ts) == multiset([ts[0]]) + multiset(ts[1..]);
    }
  }

  lemma {:induction false} RemoveKeepsOrder(ts: seq<string>, stopwords: set<string>)
    ensures IsSubsequence(RemoveStopwords(ts, stopwords), ts)
  {
    if ts != [] {
      RemoveKeepsOrder(ts[1..], stopwords);
      var rest := RemoveStopwords(ts[1..], stopwords);
      if ts[0] in stopwords {
        assert RemoveStopwords(ts, stopwords) == rest;
        SubsequenceSkip(rest, ts);
      } else {
        assert RemoveStopwords(ts, stopwords) == [ts[0]] + rest;
      }
    }
  }

  lemma SubsequenceSkip<T>(a: seq<T>, b: seq<T>)
    requires b != [] && IsSubsequence(a, b[1..])
    ensures IsSubsequence(a, b)
  {
  }

  lemma {:induction false} StemAllAt(ts: seq<string>, stem: string -> string)
    ensures |StemAll(ts, stem)| == |ts|
    ensures forall i :: 0 <= i < |ts| ==> StemAll(ts, stem)[i] == stem(ts[i])
  {
    if ts != [] {
      StemAllAt(ts[1..], stem);
    }
  }

  /** Every token of the normaliser is a non-empty run of lower-case word characters
      (with stemming, provided the stemmer keeps that shape). */
  lemma TokensNormal(text: string, stopwords: set<string>, stemming: bool, stem: string -> string)
    requires stemming ==> StemKeepsNormal(stem)
    ensures forall t :: t in Tokens(text, stopwords, stemming, stem) ==> NormalToken(t)
    ensures Words(Tokens(text, stopwords, stemming, stem))
  {
    var low := Lower(text);
    LowerNotUpper(text);
    KeepKeeps(low, NotUpper);
    var kept := KeepWordAndSpace(low);
    assert AllChars(kept, LowerWordOrSpace);
    SplitKeeps(kept, LowerWordOrSpace);
    var split := Split(kept);
    assert forall t :: t in split ==> NormalToken(t) by {
      forall t | t in split ensures NormalToken(t) {
        assert t != [] && NoSpace(t) && AllChars(t, LowerWordOrSpace);
      }
    }
    var filtered := RemoveStopwords(split, stopwords);
    RemovedAreIn(split, stopwords);
    if stemming {
      StemAllAt(filtered, stem);
      forall t | t in StemAll(filtered, stem) ensures NormalToken(t) {
        var i :| 0 <= i < |StemAll(filtered, stem)| && StemAll(filtered, stem)[i] == t;
        assert filtered[i] in filtered;
      }
    }
    forall t | t in Tokens(text, stopwords, stemming, stem) ensures t != [] && NoSpace(t) {
      assert NormalToken(t);
      forall i | 0 <= i < |t| ensures !IsSpace(t[i]) { assert NormalChar(t[i]); }
    }
  }

  /** The joined tokens are canonical, hold only lower-case word characters and spaces,
      and split back into the tokens. */
  lemma JoinedTokensShape(text: string, stopwords: set<string>, stemming: bool, stem: string -> string)
    ensures var ts := Tokens(text, stopwords, stemming, stem);
      (stemming ==> StemKeepsNormal(stem)) ==>
        Canonical(Join(ts)) && AllChars(Join(ts), NormalOrSpace) && Split(Join(ts)) == ts
  {
    if stemming ==> StemKeepsNormal(stem) {
      var ts := Tokens(text, stopwords, stemming, stem);
      TokensNormal(text, stopwords, stemming, stem);
      forall t | t in ts ensures AllChars(t, NormalOrSpace) {
        assert NormalToken(t);
      }
      JoinKeeps(ts, NormalOrSpace);
      JoinCanonical(ts);
      SplitJoin(ts);
    }
  }

  /** Without stemming the output tokens are the split tokens, in order, minus exactly the
      stopwords: every occurrence of any other token is kept. */
  lemma StopwordsRemoved(text: string, stopwords: set<string>, stem: string -> string)
    ensures IsSubsequence(Tokens(text, stopwords, false, stem), SplitTokens(text))
    ensures forall t :: t in Tokens(text, stopwords, false, stem) <==> t in SplitTokens(text) && t !in stopwords
    ensures forall t ::
              multiset(Tokens(text, stopwords, false, stem))[t] == if t in stopwords then 0 else multiset(SplitTokens(text))[t]
  {
    RemoveKeepsOrder(SplitTokens(text), stopwords);
    RemovedAreIn(SplitTokens(text), stopwords);
    forall t ensures multiset(Tokens(text, stopwords, false, stem))[t] ==
      if t in stopwords then 0 else multiset(SplitTokens(text))[t]
    {
      RemoveCounts(SplitTokens(text), stopwords, t);
    }
  }

  /** Stemming changes neither the number nor the order of tokens: token i is the stem
      of unstemmed token i. */
  lemma StemmingMapsTokens(text: string, stopwords: set<string>, stem: string -> string)
    ensures |Tokens(text, stopwords, true, stem)| == |Tokens(text, stopwords, false, stem)|
    ensures forall i :: 0 <= i < |Tokens(text, stopwords, true, stem)| ==>
      Tokens(text, stopwords, true, stem)[i] == stem(Tokens(text, stopwords, false, stem)[i])
  {
    StemAllAt(Tokens(text, stopwords, false, stem), stem);
  }

  /** With an empty stopword set (CRAN, MED) no token is removed. */
  lemma NoStopwordsKeepsAll(text: string, stem: string -> string)
    ensures Tokens(text, {}, false, stem) == SplitTokens(text)
  {
    RemoveNone(SplitTokens(text), {});
  }

  /** Without stemming, normalising a normalised text changes nothing. */
  lemma PreprocessIdempotent(text: string, stopwords: set<string>, stem: string -> string)
    ensures PreprocessText(PreprocessText(text, stopwords, false, stem), stopwords, false, stem)
         == PreprocessText(text, stopwords, false, stem)
  {
    var out := PreprocessText(text, stopwords, false, stem);
    var ts := Tokens(text, stopwords, false, stem);
    assert AllChars(out, NotUpper) by {
      forall i | 0 <= i < |out| ensures NotUpper(out[i]) { assert NormalOrSpace(out[i]); }
    }
    LowerOfLower(out);
    assert AllChars(out, WordOrSpace) by {
      forall i | 0 <= i < |out| ensures WordOrSpace(out[i]) { assert NormalOrSpace(out[i]); }
    }
    KeepAll(out);
    assert SplitTokens(out) == ts;
    RemovedAreIn(SplitTokens(text), stopwords);
    RemoveNone(ts, stopwords);
  }
}
