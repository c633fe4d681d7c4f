/**
 * Random play: the session keeps the ids of the quizzes answered correctly
 * in the current round (`session.randomPlay`). `randomplay` shows a random
 * quiz that is not in that list, or ends the round when none is left;
 * `randomcheck` extends the list on a correct answer and resets it on a
 * wrong one.
 *
 * The quiz table and the random draw are inputs. `Math.random()` is a
 * number `a` with `0 <= a < 1`; the model takes it as the fraction
 * `numerator / denominator` and computes `Math.round(a * (length - 1))`
 * exactly over the rationals.
 */
module RandomPlay {
  import opened Wrappers
  import opened Answers
  import opened Records

  /** What the two random-play handlers render. */
  datatype RandomView =
    | RandomPlayView(quiz: Quiz, score: nat)                                   // 'quizzes/random_play'
    | RandomNoneView(score: nat)                                               // 'quizzes/random_none'
    | RandomResultView(quiz: Quiz, result: bool, score: nat, answer: string)   // 'quizzes/random_result'
    | RandomFailed                                                             // reading the length of an undefined list throws
    | RandomError(error: Error)                                                // next(error)

  /** What `findAll` resolved or rejected with: the table in row order, or an error. */
  datatype Listing = Listed(table: seq<Quiz>) | ListFailed(error: Error)

  /**
   * `findAll({where: {id: {[Op.notIn]: seen}}})`: the quizzes of the table,
   * in table order, whose id is not in `seen`.
   */
  function Candidates(table: seq<Quiz>, seen: seq<nat>): (r: seq<Quiz>)
    ensures |r| <= |table|
    ensures forall q :: q in r <==> q in table && q.id !in seen
  {
    if table == [] then []
    else (if table[0].id in seen then [] else [table[0]]) + Candidates(table[1..], seen)
  }

  /**
   * Listing keeps row order: the candidates of two tables one after the
   * other are the candidates of the first followed by those of the second.
   */
  lemma {:induction false} CandidatesAppend(a: seq<Quiz>, b: seq<Quiz>, seen: seq<nat>)
    ensures Candidates(a + b, seen) == Candidates(a, seen) + Candidates(b, seen)
  {
    if a == [] {
      assert a + b == b;
    } else {
      assert (a + b)[0] == a[0];
      assert (a + b)[1..] == a[1..] + b;
      CandidatesAppend(a[1..], b, seen);
    }
  }

  /** Each row is listed at most as often as it occurs in the table. */
  lemma {:induction false} CandidatesSubMultiset(table: seq<Quiz>, seen: seq<nat>)
    ensures multiset(Candidates(table, seen)) <= multiset(table)
  {
    if table != [] {
      CandidatesSubMultiset(table[1..], seen);
      assert table == [table[0]] + table[1..];
    }
  }

  /** There are no candidates exactly when every quiz of the table has been seen. */
  lemma NoCandidatesIffAllSeen(table: seq<Quiz>, seen: seq<nat>)
    ensures Candidates(table, seen) == [] <==> forall q :: q in table ==> q.id in seen
  {
    if Candidates(table, seen) != [] {
      assert Candidates(table, seen)[0] in Candidates(table, seen);
    }
  }

  /**
   * `Math.round(n / d)`: the integer nearest to `n / d`, halves rounded up,
   * i.e. `floor(n / d + 1/2)`.
   */
  function Round(n: int, d: int): (r: int)
    requires d > 0
    ensures d * (2 * r - 1) <= 2 * n < d * (2 * r + 1)
  {
    var q := (2 * n + d) / (2 * d);
    var m := (2 * n + d) % (2 * d);
    assert 2 * n + d == 2 * d * q + m && 0 <= m < 2 * d;
    assert d * (2 * q - 1) == 2 * d * q - d && d * (2 * q + 1) == 2 * d * q + d;
    q
  }

  /** A product of two positive numbers is positive. */
  lemma {:induction false} MulPositive(d: int, k: int)
    requires d > 0 && k > 0
    ensures d * k > 0
  {
    if k > 1 {
      MulPositive(d, k - 1);
      assert d * k == d * (k - 1) + d;
    }
  }

  /** Multiplying by a positive number keeps strict order, and only then. */
  lemma MulLessCancel(d: int, a: int, c: int)
    requires d > 0
    ensures d * a < d * c <==> a < c
  {
    assert d * c - d * a == d * (c - a);
    if a < c {
      MulPositive(d, c - a);
    } else if a > c {
      MulPositive(d, a - c);
      assert d * a - d * c == d * (a - c);
    }
  }

  /** A draw below one scales a bound `b` to at most `b`. */
  lemma ScaledDrawBound(numerator: nat, denominator: nat, b: nat)
    requires numerator < denominator
    ensures 0 <= numerator * b <= denominator * b
  {
    if b > 0 {
      if numerator > 0 { MulPositive(numerator, b); }
      MulPositive(denominator - numerator, b);
      assert denominator * b - numerator * b == (denominator - numerator) * b;
    }
  }

  /** Rounding `n / d` with `d * b <= n` gives at least `b`. */
  lemma RoundAtLeast(n: int, d: int, b: int)
    requires d > 0 && d * b <= n
    ensures Round(n, d) >= b
  {
    var r := Round(n, d);
    assert d * (2 * b - 1) == 2 * (d * b) - d;
    assert d * (2 * b - 1) < d * (2 * r + 1);
    MulLessCancel(d, 2 * b - 1, 2 * r + 1);
  }

  /** Rounding `n / d` with `n <= d * b` gives at most `b`. */
  lemma RoundAtMost(n: int, d: int, b: int)
    requires d > 0 && n <= d * b
    ensures Round(n, d) <= b
  {
    var r := Round(n, d);
    assert d * (2 * b + 1) == 2 * (d * b) + d;
    assert d * (2 * r - 1) < d * (2 * b + 1);
    MulLessCancel(d, 2 * r - 1, 2 * b + 1);
  }

  /**
   * `Math.round(a * (count - 1))` for the draw `a = numerator / denominator`:
   * the index into the candidates that `randomplay` looks at. With at least
   * one candidate it is a valid index, so a quiz is always presented; with
   * none it is `0` or `-1`, so nothing is.
   */
  function PickIndex(count: nat, numerator: nat, denominator: nat): (r: int)
    requires numerator < denominator
    ensures count >= 1 ==> 0 <= r < count
    ensures count == 0 ==> r == 0 || r == -1
  {
    var x := numerator * (count - 1);
    if count >= 1 then
      ScaledDrawBound(numerator, denominator, count - 1);
      RoundAtLeast(x, denominator, 0);
      RoundAtMost(x, denominator, count - 1);
      Round(x, denominator)
    else
      RoundAtMost(x, denominator, 0);
      RoundAtLeast(x, denominator, -1);
      Round(x, denominator)
  }

  /**
   * A draw of `0`, or a single candidate, presents the first candidate.
   */
  lemma PickIndexFirst(count: nat, numerator: nat, denominator: nat)
    requires numerator < denominator
    requires numerator == 0 || count == 1
    ensures PickIndex(count, numerator, denominator) == 0
  {
    assert numerator * (count - 1) == 0;
    RoundAtMost(0, denominator, 0);
    RoundAtLeast(0, denominator, 0);
  }

  /** Every id occurs at most once. */
  predicate Distinct(ids: seq<nat>) {
    forall i, j :: 0 <= i < j < |ids| ==> ids[i] != ids[j]
  }

  /** Appending an id the list does not hold keeps its ids distinct. */
  lemma AppendKeepsDistinct(ids: seq<nat>, id: nat)
    requires Distinct(ids) && id !in ids
    ensures Distinct(ids + [id])
  {
    var s := ids + [id];
    forall i, j | 0 <= i < j < |s| ensures s[i] != s[j] {
      if j == |ids| {
        assert s[i] == ids[i] && s[j] == id;
      } else {
        assert s[i] == ids[i] && s[j] == ids[j];
      }
    }
  }

  /** Appending an id the list already holds makes it hold that id twice. */
  lemma AppendSeenBreaksDistinct(ids: seq<nat>, id: nat)
    requires id in ids
    ensures !Distinct(ids + [id])
  {
    var i :| 0 <= i < |ids| && ids[i] == id;
    var s := ids + [id];
    assert s[i] == ids[i] && s[|ids|] == id;
  }

  /**
   * The session state of one user. `defined` is false while
   * `session.randomPlay` is undefined; `randomPlay` is the list itself.
   */
  class Session {
    var defined: bool
    var randomPlay: seq<nat>

    constructor ()
      ensures !defined && randomPlay == []
    {
      defined, randomPlay := false, [];
    }

    /**
     * The list the handlers work with: an undefined one reads as the empty
     * list that `randomplay` creates in its place.
     */
    function Seen(): (r: seq<nat>)
      reads this
      ensures defined ==> r == randomPlay
      ensures !defined ==> r == []
    {
      if defined then randomPlay else []
    }

    /** Creates the list as empty when it is undefined and leaves an existing one alone. */
    method InitRandomPlay()
      modifies this
      ensures defined
      ensures !old(defined) ==> randomPlay == []
      ensures old(defined) ==> randomPlay == old(randomPlay)
      ensures randomPlay == old(Seen())
    {
      if !defined {
        defined, randomPlay := true, [];
      }
    }

    /**
     * `randomplay`: creates the list when it is undefined, then lists the
     * candidates. It presents the candidate at the drawn index with the
     * current list length as score, keeping the list; with no candidate left
     * it resets the list and reports the length it had. A failed listing goes
     * to the error handler, with the list already created.
     */
    method RandomPlay(listing: Listing, numerator: nat, denominator: nat) returns (view: RandomView)
      requires numerator < denominator
      modifies this
      ensures defined
      ensures listing.ListFailed? ==> view == RandomError(listing.error) && randomPlay == old(Seen())
      ensures listing.Listed? ==>
        var seen := old(Seen());
        var candidates := Candidates(listing.table, seen);
        var i := PickIndex(|candidates|, numerator, denominator);
        if candidates != [] then
          0 <= i < |candidates| && view == RandomPlayView(candidates[i], |seen|) && randomPlay == seen
        else
          view == RandomNoneView(|seen|) && randomPlay == []
      ensures view.RandomPlayView? ==>
        listing.Listed? && view.quiz in listing.table && view.quiz.id !in old(Seen())
      ensures view.RandomNoneView? <==>
        listing.Listed? && forall q :: q in listing.table ==> q.id in old(Seen())
    {
      InitRandomPlay();
      match listing {
        case ListFailed(e) =>
          view := RandomError(e);
        case Listed(table) =>
          var quizzes := Candidates(table, randomPlay);
          var random := PickIndex(|quizzes|, numerator, denominator);
          var score := |randomPlay|;
          NoCandidatesIffAllSeen(table, randomPlay);
          if 0 <= random < |quizzes| {
            view := RandomPlayView(quizzes[random], score);
          } else {
            randomPlay := [];
            view := RandomNoneView(score);
          }
      }
    }

    /**
     * `randomcheck`: on a correct answer appends the quiz's id, keeping the
     * earlier entries, and reports the old length plus one; on a wrong one
     * resets the list and reports the old length. Without a list (no
     * `randomplay` yet in this session) it fails and changes nothing.
     */
    method RandomCheck(quiz: Quiz, query: Option<string>) returns (view: RandomView)
      modifies this
      ensures !old(defined) ==> view == RandomFailed && !defined && randomPlay == old(randomPlay)
      ensures old(defined) ==> defined && view.RandomResultView?
      ensures view.RandomResultView? ==> view.quiz == quiz && view.answer == AnswerOf(query)
      ensures view.RandomResultView? ==> view.result == Matches(query, quiz.answer)
      ensures view.RandomResultView? && view.result ==>
        randomPlay == old(randomPlay) + [quiz.id] && view.score == |old(randomPlay)| + 1
      ensures view.RandomResultView? && !view.result ==> randomPlay == [] && view.score == |old(randomPlay)|
      ensures Distinct(old(randomPlay)) && quiz.id !in old(randomPlay) ==> Distinct(randomPlay)
      ensures view.RandomResultView? && view.result && quiz.id in old(randomPlay) ==> !Distinct(randomPlay)
    {
      if !defined {
        return RandomFailed;
      }
      var answer := AnswerOf(query);
      var result := Matches(query, quiz.answer);
      var score := Record(quiz.id, result);
      view := RandomResultView(quiz, result, score, answer);
    }

    /**
     * The list update `randomcheck` makes once the answer is judged: push
     * the id on a correct answer, reset on a wrong one; the score is the
     * length before plus one for a correct answer.
     */
    method Record(id: nat, result: bool) returns (score: nat)
      requires defined
      modifies this
      ensures defined
      ensures result ==> randomPlay == old(randomPlay) + [id] && score == |old(randomPlay)| + 1
      ensures !result ==> randomPlay == [] && score == |old(randomPlay)|
      ensures Distinct(old(randomPlay)) && id !in old(randomPlay) ==> Distinct(randomPlay)
      ensures result && id in old(randomPlay) ==> !Distinct(randomPlay)
    {
      score := |randomPlay|;
      if result {
        if id in randomPlay {
          AppendSeenBreaksDistinct(randomPlay, id);
        } else if Distinct(randomPlay) {
          AppendKeepsDistinct(randomPlay, id);
        }
        randomPlay := randomPlay + [id];
        score := score + 1;
      } else {
        randomPlay := [];
      }
    }
  }

  /** The candidates of a two-quiz table while none has been seen. */
  lemma CandidatesOfTwo(q1: Quiz, q2: Quiz)
    ensures Candidates([q1, q2], []) == [q1, q2]
  {
    var table := [q1, q2];
    assert table[1..] == [q2];
    assert [q2][1..] == [];
    assert Candidates([q2], []) == [q2] + Candidates([], []);
    assert Candidates(table, []) == [q1] + [q2];
  }

  /**
   * A fresh session over a table of two quizzes, drawing `0`: the first quiz
   * is presented with score 0 and the list is created empty.
   */
  method OpenRound(q1: Quiz, q2: Quiz) returns (session: Session)
    ensures fresh(session) && session.defined && session.randomPlay == []
  {
    var table := [q1, q2];
    CandidatesOfTwo(q1, q2);
    PickIndexFirst(2, 0, 1);
    session := new Session();
    assert session.Seen() == [];
    var view := session.RandomPlay(Listed(table), 0, 1);
    assert view == RandomPlayView(q1, 0);
  }

  /**
   * The end of a round over that table: both quizzes have been answered, so
   * nothing is presented, the score is 2 and the list starts over.
   */
  method FinishRound(session: Session, q1: Quiz, q2: Quiz, numerator: nat, denominator: nat)
    requires numerator < denominator
    requires session.defined && session.randomPlay == [q1.id, q2.id]
    modifies session
    ensures session.defined && session.randomPlay == []
  {
    var table := [q1, q2];
    assert session.Seen() == [q1.id, q2.id];
    var view := session.RandomPlay(Listed(table), numerator, denominator);
    assert view == RandomNoneView(2);
  }

  /** Checking an answer before any `randomplay` in the session fails. */
  method CheckBeforePlay(quiz: Quiz, query: Option<string>) returns (view: RandomView)
    ensures view == RandomFailed
  {
    var session := new Session();
    view := session.RandomCheck(quiz, query);
    assert !session.defined;
  }

  /**
   * A failed listing still leaves the list created, so a following
   * `randomcheck` is judged instead of failing.
   */
  method ListingFailureKeepsList(error: Error, quiz: Quiz, query: Option<string>) returns (view: RandomView)
    ensures view.RandomResultView?
  {
    var session := new Session();
    var played := session.RandomPlay(ListFailed(error), 0, 1);
    assert played == RandomError(error);
    view := session.RandomCheck(quiz, query);
  }
}
