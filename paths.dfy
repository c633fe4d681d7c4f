/**
 * Locations the controller redirects to. A saved quiz is shown at
 * `/quizzes/<id>`, JavaScript's `'/quizzes/' + quiz.id`, where a number is
 * written in decimal; the router reads the id back from that path.
 */
module Paths {
  import opened Wrappers

  const QuizzesPath := "/quizzes"
  const QuizPrefix := "/quizzes/"

  predicate IsDigit(c: char) {
    '0' <= c <= '9'
  }

  predicate AllDigits(s: string) {
    forall i :: 0 <= i < |s| ==> IsDigit(s[i])
  }

  function Digit(d: nat): (c: char)
    requires d < 10
    ensures IsDigit(c) && c as int - '0' as int == d
  {
    ('0' as int + d) as char
  }

  /** The decimal form of `n`: digits only, with no leading zero. */
  function NatToString(n: nat): (r: string)
    ensures |r| >= 1 && AllDigits(r)
    ensures r[0] == '0' ==> r == "0"
  {
    if n < 10 then [Digit(n)] else NatToString(n / 10) + [Digit(n % 10)]
  }

  /** The number a string of decimal digits stands for. */
  function ParseNat(s: string): nat
    requires AllDigits(s)
  {
    if s == [] then 0 else 10 * ParseNat(s[..|s| - 1]) + (s[|s| - 1] as int - '0' as int)
  }

  /** Reading a number back from its decimal form gives the number. */
  lemma {:induction false} ParseNatToString(n: nat)
    ensures ParseNat(NatToString(n)) == n
  {
    if n >= 10 {
      var s := NatToString(n);
      assert s[..|s| - 1] == NatToString(n / 10);
      ParseNatToString(n / 10);
    }
  }

  /** `'/quizzes/' + id`: the prefix followed by the id's decimal digits. */
  function QuizPath(id: nat): (p: string)
    ensures |p| > |QuizPrefix| && p[..|QuizPrefix|] == QuizPrefix
    ensures p[|QuizPrefix|..] == NatToString(id)
  {
    QuizPrefix + NatToString(id)
  }

  /**
   * The id a `/quizzes/<digits>` path names, if it is one: the list page
   * `/quizzes` and any path outside `/quizzes/` name none.
   */
  function QuizIdOf(path: string): (r: Option<nat>)
    ensures r.Some? ==> |path| > |QuizPrefix| && path[..|QuizPrefix|] == QuizPrefix
    ensures |path| <= |QuizPrefix| ==> r.None?
  {
    if |path| > |QuizPrefix| && path[..|QuizPrefix|] == QuizPrefix && AllDigits(path[|QuizPrefix|..])
    then Some(ParseNat(path[|QuizPrefix|..]))
    else None
  }

  /** A quiz's path is read back as that quiz's id, so distinct quizzes get distinct paths. */
  lemma QuizPathRoundTrip(id: nat)
    ensures QuizIdOf(QuizPath(id)) == Some(id)
  {
    var p := QuizPath(id);
    assert p[..|QuizPrefix|] == QuizPrefix;
    assert p[|QuizPrefix|..] == NatToString(id);
    ParseNatToString(id);
  }
}
