/**
 * Answer checking of the quiz controller: a submitted answer matches the
 * stored one when both, lower-cased and then trimmed, are equal.
 *
 * `Trim` removes the characters JavaScript's `String.prototype.trim` removes
 * (the ECMAScript WhiteSpace and LineTerminator characters); `ToLower` maps
 * only the ASCII letters A-Z to a-z.
 */
module Answers {
  import opened Wrappers

  /** ECMAScript WhiteSpace and LineTerminator code points. */
  predicate IsSpace(c: char) {
    c == '\t' || c == '\n' || c == '\U{000B}' || c == '\U{000C}' || c == '\r' || c == ' '
    || c == '\U{00A0}' || c == '\U{1680}' || ('\U{2000}' <= c <= '\U{200A}')
    || c == '\U{2028}' || c == '\U{2029}' || c == '\U{202F}' || c == '\U{205F}'
    || c == '\U{3000}' || c == '\U{FEFF}'
  }

  predicate AllSpace(s: string) {
    forall i :: 0 <= i < |s| ==> IsSpace(s[i])
  }

  /** Neither starts nor ends with white space: what `Trim` leaves. */
  predicate Bare(s: string) {
    s == [] || (!IsSpace(s[0]) && !IsSpace(s[|s| - 1]))
  }

  predicate IsUpper(c: char) {
    'A' <= c <= 'Z'
  }

  function LowerChar(c: char): char {
    if IsUpper(c) then (c as int - 'A' as int + 'a' as int) as char else c
  }

  /** Lower-casing, restricted to ASCII letters. */
  function ToLower(s: string): (r: string)
    ensures |r| == |s|
    ensures forall i :: 0 <= i < |s| ==> r[i] == LowerChar(s[i])
  {
    if s == [] then [] else [LowerChar(s[0])] + ToLower(s[1..])
  }

  /** Drops the leading white space. */
  function TrimStart(s: string): (r: string)
    ensures |r| <= |s| && r == s[|s| - |r|..]
    ensures AllSpace(s[..|s| - |r|])
    ensures r == [] || !IsSpace(r[0])
  {
    if s != [] && IsSpace(s[0]) then TrimStart(s[1..]) else s
  }

  /** Drops the trailing white space. */
  function TrimEnd(s: string): (r: string)
    ensures |r| <= |s| && r == s[..|r|]
    ensures AllSpace(s[|r|..])
    ensures r == [] || !IsSpace(r[|r| - 1])
  {
    if s != [] && IsSpace(s[|s| - 1]) then TrimEnd(s[..|s| - 1]) else s
  }

  /**
   * `String.prototype.trim`: drops white space at both ends, so that the
   * result neither starts nor ends with white space (`TrimSplits` and
   * `TrimUnique` below pin the result down completely).
   */
  function Trim(s: string): (r: string)
    ensures |r| <= |s| && Bare(r)
  {
    var t := TrimStart(s);
    var r := TrimEnd(t);
    assert r != [] ==> r[0] == t[0];
    r
  }

  /**
   * The normal form both answers are brought to before comparing them: it
   * is never longer than the answer and has no white space at either end.
   */
  function Normalize(s: string): (r: string)
    ensures |r| <= |s| && Bare(r)
  {
    Trim(ToLower(s))
  }

  /** `query.answer || ""`: a missing answer counts as the empty string. */
  function AnswerOf(query: Option<string>): (r: string)
    ensures query.None? ==> r == ""
    ensures query.Some? ==> r == query.value
  {
    query.GetOr("")
  }

  /**
   * The answer check: lower-case both answers, trim both, compare. The
   * stored answer itself, submitted verbatim, always matches.
   */
  predicate Matches(query: Option<string>, stored: string)
    ensures AnswerOf(query) == stored ==> Matches(query, stored)
  {
    Normalize(AnswerOf(query)) == Normalize(stored)
  }

  // ----- Trim -----

  lemma Regroup(a: string, b: string, c: string, d: string, e: string)
    ensures a + (b + c + d) + e == (a + b) + c + (d + e)
  {
  }

  lemma {:induction false} TrimStartPadded(w: string, x: string)
    requires AllSpace(w)
    requires x == [] || !IsSpace(x[0])
    ensures TrimStart(w + x) == x
  {
    if w == [] {
      assert w + x == x;
    } else {
      assert (w + x)[1..] == w[1..] + x;
      TrimStartPadded(w[1..], x);
    }
  }

  lemma {:induction false} TrimEndPadded(x: string, w: string)
    requires AllSpace(w)
    requires x == [] || !IsSpace(x[|x| - 1])
    ensures TrimEnd(x + w) == x
  {
    if w == [] {
      assert x + w == x;
    } else {
      assert (x + w)[..|x + w| - 1] == x + w[..|w| - 1];
      TrimEndPadded(x, w[..|w| - 1]);
    }
  }

  /**
   * Trim is characterised by its result: for white space `w1`, `w2` and a
   * bare `t`, trimming `w1 + t + w2` gives back exactly `t`.
   */
  lemma TrimUnique(w1: string, t: string, w2: string)
    requires AllSpace(w1) && AllSpace(w2) && Bare(t)
    ensures Trim(w1 + t + w2) == t
  {
    if t == [] {
      assert w1 + t + w2 == (w1 + w2) + [];
      TrimStartPadded(w1 + w2, []);
    } else {
      assert w1 + t + w2 == w1 + (t + w2);
      TrimStartPadded(w1, t + w2);
      TrimEndPadded(t, w2);
    }
  }

  lemma {:induction false} TrimStartSplits(s: string) returns (w: string)
    ensures AllSpace(w) && s == w + TrimStart(s)
  {
    w := s[..|s| - |TrimStart(s)|];
  }

  lemma {:induction false} TrimEndSplits(s: string) returns (w: string)
    ensures AllSpace(w) && s == TrimEnd(s) + w
  {
    w := s[|TrimEnd(s)|..];
  }

  /** Every string is its trimmed core with white space on either side. */
  lemma {:induction false} TrimSplits(s: string) returns (w1: string, w2: string)
    ensures AllSpace(w1) && AllSpace(w2)
    ensures s == w1 + Trim(s) + w2
  {
    w1 := TrimStartSplits(s);
    w2 := TrimEndSplits(TrimStart(s));
    Regroup(w1, [], Trim(s), w2, []);
  }

  lemma AllSpaceAppend(a: string, b: string)
    requires AllSpace(a) && AllSpace(b)
    ensures AllSpace(a + b)
  {
    var s := a + b;
    forall i | 0 <= i < |s| ensures IsSpace(s[i]) {
      if i < |a| { assert s[i] == a[i]; } else { assert s[i] == b[i - |a|]; }
    }
  }

  /** White space added around a string does not change its trimmed form. */
  lemma TrimIgnoresPadding(w1: string, s: string, w2: string)
    requires AllSpace(w1) && AllSpace(w2)
    ensures Trim(w1 + s + w2) == Trim(s)
  {
    var t := Trim(s);
    var v1, v2 := TrimSplits(s);
    Regroup(w1, v1, t, v2, w2);
    AllSpaceAppend(w1, v1);
    AllSpaceAppend(v2, w2);
    TrimUnique(w1 + v1, t, v2 + w2);
  }

  /** Trimming gives the empty string exactly when the input is all white space. */
  lemma TrimEmptyIff(s: string)
    ensures Trim(s) == [] <==> AllSpace(s)
  {
    if AllSpace(s) {
      assert s + [] + [] == s;
      TrimUnique(s, [], []);
    }
    if Trim(s) == [] {
      var w1, w2 := TrimSplits(s);
      assert s == w1 + w2;
    }
  }

  /** A bare string is left as it is. */
  lemma TrimBare(t: string)
    requires Bare(t)
    ensures Trim(t) == t
  {
    assert [] + t + [] == t;
    TrimUnique([], t, []);
  }

  /** Trimming is idempotent. */
  lemma TrimIdempotent(s: string)
    ensures Trim(Trim(s)) == Trim(s)
  {
    TrimBare(Trim(s));
  }

  // ----- ToLower -----

  lemma ToLowerAppend(a: string, b: string)
    ensures ToLower(a + b) == ToLower(a) + ToLower(b)
  {
    assert forall i :: 0 <= i < |a + b| ==> ToLower(a + b)[i] == (ToLower(a) + ToLower(b))[i];
  }

  /** Lower-casing is idempotent. */
  lemma ToLowerIdempotent(s: string)
    ensures ToLower(ToLower(s)) == ToLower(s)
  {
    assert forall i :: 0 <= i < |s| ==> ToLower(ToLower(s))[i] == ToLower(s)[i];
  }

  /** Lower-casing neither creates nor removes white space. */
  lemma ToLowerKeepsSpace(s: string)
    ensures AllSpace(ToLower(s)) <==> AllSpace(s)
    ensures Bare(ToLower(s)) <==> Bare(s)
    ensures forall i :: 0 <= i < |s| ==> (IsSpace(ToLower(s)[i]) <==> IsSpace(s[i]))
  {
    assert forall i :: 0 <= i < |s| ==> (IsSpace(ToLower(s)[i]) <==> IsSpace(s[i]));
  }

  /**
   * The source lower-cases first and trims second; for this character model
   * the other order gives the same string.
   */
  lemma LowerTrimCommute(s: string)
    ensures Trim(ToLower(s)) == ToLower(Trim(s))
  {
    var w1, w2 := TrimSplits(s);
    var t := Trim(s);
    ToLowerAppend(w1 + t, w2);
    ToLowerAppend(w1, t);
    ToLowerKeepsSpace(w1);
    ToLowerKeepsSpace(w2);
    ToLowerKeepsSpace(t);
    TrimUnique(ToLower(w1), ToLower(t), ToLower(w2));
  }

  // ----- Matching -----

  /** Normalising twice is the same as normalising once. */
  lemma NormalizeIdempotent(s: string)
    ensures Normalize(Normalize(s)) == Normalize(s)
  {
    var n := Normalize(s);
    LowerTrimCommute(s);
    ToLowerIdempotent(Trim(s));
    assert ToLower(n) == n;
    TrimIdempotent(n);
  }

  /**
   * A submitted answer matches exactly when its trimmed, lower-cased core
   * equals that of the stored answer, whichever of the two steps comes first.
   */
  lemma MatchesIffCoresEqual(submitted: string, stored: string)
    ensures Matches(Some(submitted), stored) <==> ToLower(Trim(submitted)) == ToLower(Trim(stored))
    ensures Matches(Some(submitted), stored) <==> Trim(ToLower(submitted)) == Trim(ToLower(stored))
  {
    LowerTrimCommute(submitted);
    LowerTrimCommute(stored);
  }

  /**
   * Case and surrounding white space are ignored: padding a case variant of
   * the stored answer with any white space still matches.
   */
  lemma MatchesIgnoresPaddingAndCase(w1: string, x: string, w2: string, stored: string)
    requires AllSpace(w1) && AllSpace(w2)
    requires ToLower(x) == ToLower(stored)
    ensures Matches(Some(w1 + x + w2), stored)
  {
    ToLowerAppend(w1 + x, w2);
    ToLowerAppend(w1, x);
    ToLowerKeepsSpace(w1);
    ToLowerKeepsSpace(w2);
    TrimIgnoresPadding(ToLower(w1), ToLower(x), ToLower(w2));
  }

  /** A missing answer matches exactly the stored answers that are all white space. */
  lemma MissingAnswerMatchesBlank(stored: string)
    ensures Matches(None, stored) <==> AllSpace(stored)
  {
    assert Normalize("") == "" by { TrimEmptyIff(""); }
    TrimEmptyIff(ToLower(stored));
    ToLowerKeepsSpace(stored);
  }

  /** Matching is reflexive, symmetric and transitive on submitted strings. */
  lemma MatchesIsEquivalence(a: string, b: string, c: string)
    ensures Matches(Some(a), a)
    ensures Matches(Some(a), b) ==> Matches(Some(b), a)
    ensures Matches(Some(a), b) && Matches(Some(b), c) ==> Matches(Some(a), c)
  {
  }

  /** `" Paris "` matches a stored `"Paris"`. */
  lemma PaddedParisMatches()
    ensures Matches(Some(" Paris "), "Paris")
  {
    assert " Paris " == " " + "Paris" + " ";
    MatchesIgnoresPaddingAndCase(" ", "Paris", " ", "Paris");
  }

  /** `"paris"` matches a stored `"Paris"`. */
  lemma LowerParisMatches()
    ensures Matches(Some("paris"), "Paris")
  {
    assert ToLower("Paris") == "paris";
    assert ToLower("paris") == "paris";
    assert "paris" == [] + "paris" + [];
    MatchesIgnoresPaddingAndCase([], "paris", [], "Paris");
  }

  /** White space inside an answer is not ignored: `"Pari s"` does not match `"Paris"`. */
  lemma InnerSpaceCounts()
    ensures !Matches(Some("Pari s"), "Paris")
  {
    var a, b := ToLower("Pari s"), ToLower("Paris");
    assert |a| == 6 && |b| == 5;
    assert a[0] == 'p' && a[5] == 's' && b[0] == 'p' && b[4] == 's';
    assert Bare(a) && Bare(b);
    TrimBare(a);
    TrimBare(b);
  }
}
