/** What Elo is for (backend/internal/elo/elo.go:1-49): who gains and how much, in what
    order history counts, and who is rated. */
module EloMeaning {
  import opened Ordering
  import opened Rounding
  import opened Elo

  /** 10^d grows with d. */
  ghost predicate Grows(pow: int -> real) {
    forall d, e :: d < e ==> pow(d) < pow(e)
  }

  lemma ReciprocalOrder(x: real, y: real)
    requires 0.0 < x < y
    ensures 0.0 < 1.0 / y < 1.0 / x
  {
    assert 1.0 / x - 1.0 / y == (y - x) / (x * y);
  }

  lemma ExpectedBetween(pow: int -> real, a: int, b: int)
    requires IsPow(pow)
    ensures 0.0 < ExpectedScore(pow, a, b) < 1.0
  {
    assert pow(b - a) > 0.0;
    ReciprocalOrder(1.0, 1.0 + pow(b - a));
  }

  /** The stronger a player, the higher the score expected of it. */
  lemma ExpectedGrows(pow: int -> real, a: int, a': int, b: int)
    requires IsPow(pow) && Grows(pow) && a < a'
    ensures ExpectedScore(pow, a, b) < ExpectedScore(pow, a', b)
  {
    assert pow(b - a') < pow(b - a) && pow(b - a') > 0.0;
    ReciprocalOrder(1.0 + pow(b - a'), 1.0 + pow(b - a));
  }

  lemma ExpectedOfEquals(pow: int -> real, a: int)
    requires IsPow(pow)
    ensures ExpectedScore(pow, a, a) == 0.5
  {
    assert pow(0) * pow(-0) == 1.0 && pow(0) > 0.0;
    SquareIsOne(pow(0));
  }

  lemma SquareIsOne(x: real)
    requires x > 0.0 && x * x == 1.0
    ensures x == 1.0
  {
    assert (x - 1.0) * (x + 1.0) == 0.0;
  }

  lemma Scaled(f: real, x: real, y: real)
    requires f > 0.0 && x < y
    ensures f * x < f * y
  {
  }

  /** The higher score gains, less than the factor, and the lower one loses as much. */
  lemma HigherScoreGains(l: Ladder, ratings: Ratings, a: Guess, b: Guess)
    requires IsPow(l.pow) && l.factor > 0.0 && a.score > b.score
    ensures 0.0 < Gain(l, ratings, a, b) < l.factor && Gain(l, ratings, b, a) == -Gain(l, ratings, a, b)
  {
    var e := ExpectedScore(l.pow, Rating(ratings, a.userId), Rating(ratings, b.userId));
    ExpectedBetween(l.pow, Rating(ratings, a.userId), Rating(ratings, b.userId));
    Scaled(l.factor, 0.0, 1.0 - e);
    Scaled(l.factor, 1.0 - e, 1.0);
    GainAntisymmetric(l, ratings, a, b);
  }

  /** For the same result a player gains less, the higher it is rated. */
  lemma FavouriteGainsLess(l: Ladder, ratings: Ratings, ratings': Ratings, a: Guess, b: Guess)
    requires IsPow(l.pow) && Grows(l.pow) && l.factor > 0.0
    requires Rating(ratings, a.userId) < Rating(ratings', a.userId) && Rating(ratings, b.userId) == Rating(ratings', b.userId)
    ensures Gain(l, ratings', a, b) < Gain(l, ratings, a, b)
  {
    var e, e' := ExpectedScore(l.pow, Rating(ratings, a.userId), Rating(ratings, b.userId)), ExpectedScore(l.pow, Rating(ratings', a.userId), Rating(ratings', b.userId));
    ExpectedGrows(l.pow, Rating(ratings, a.userId), Rating(ratings', a.userId), Rating(ratings, b.userId));
    Scaled(l.factor, Result(a, b) - e', Result(a, b) - e);
  }

  /** Players of the same rating exchange half the factor, or nothing in a draw. */
  lemma EqualsExchangeHalf(l: Ladder, ratings: Ratings, a: Guess, b: Guess)
    requires IsPow(l.pow) && Rating(ratings, a.userId) == Rating(ratings, b.userId)
    ensures a.score > b.score ==> Gain(l, ratings, a, b) == l.factor / 2.0
    ensures a.score == b.score ==> Gain(l, ratings, a, b) == 0.0
  {
    ExpectedOfEquals(l.pow, Rating(ratings, a.userId));
  }

  /** In a draw the lower rated gains. */
  lemma DrawFavoursTheLower(l: Ladder, ratings: Ratings, a: Guess, b: Guess)
    requires IsPow(l.pow) && Grows(l.pow) && l.factor > 0.0 && a.score == b.score && Rating(ratings, a.userId) < Rating(ratings, b.userId)
    ensures Gain(l, ratings, a, b) > 0.0
  {
    ExpectedGrows(l.pow, Rating(ratings, a.userId), Rating(ratings, b.userId), Rating(ratings, b.userId));
    ExpectedOfEquals(l.pow, Rating(ratings, b.userId));
    Scaled(l.factor, 0.0, 0.5 - ExpectedScore(l.pow, Rating(ratings, a.userId), Rating(ratings, b.userId)));
  }

  // ---- Rounding ----

  /** A challenge changes the rating of each of its guessers, and of nobody else, by its
      delta rounded to the nearest integer. */
  lemma ChallengeMovesRatings(l: Ladder, h: History, c: Challenge, user: string)
    requires IsPow(l.pow) && |c.guesses| >= 2
    ensures var t := ReplayOne(l, h, c);
            if exists g :: g in c.guesses && g.userId == user
            then -0.5 <= (Rating(t.ratings, user) - Rating(h.ratings, user)) as real - Delta(l, h.ratings, c.guesses, user) <= 0.5
            else Rating(t.ratings, user) == Rating(h.ratings, user)
  {
    hide Delta;
  }

  // ---- The order of history ----

  lemma {:induction false} InsertBeforeLast(x: Challenge, s: seq<Challenge>, c: Challenge)
    requires x.createdAt <= c.createdAt
    ensures Insert(x, s + [c], NotLater) == Insert(x, s, NotLater) + [c]
  {
    if s == [] {
      assert s + [c] == [c] && [x] + [c] == [x, c];
    } else {
      assert (s + [c])[0] == s[0] && (s + [c])[1..] == s[1..] + [c];
      if NotLater(x, s[0]) {
        assert [x] + (s + [c]) == [x] + s + [c];
      } else {
        InsertBeforeLast(x, s[1..], c);
        assert [s[0]] + (Insert(x, s[1..], NotLater) + [c]) == [s[0]] + Insert(x, s[1..], NotLater) + [c];
      }
    }
  }

  lemma {:induction false} SortLatest(cs: seq<Challenge>, c: Challenge)
    requires forall d :: d in cs ==> d.createdAt <= c.createdAt
    ensures Sort(cs + [c], NotLater) == Sort(cs, NotLater) + [c]
  {
    if cs == [] {
      assert cs + [c] == [c] && [c][1..] == [];
    } else {
      assert (cs + [c])[0] == cs[0] && (cs + [c])[1..] == cs[1..] + [c];
      SortLatest(cs[1..], c);
      InsertBeforeLast(cs[0], Sort(cs[1..], NotLater), c);
    }
  }

  lemma {:induction false} ReplayLast(l: Ladder, h: History, cs: seq<Challenge>, c: Challenge)
    requires IsPow(l.pow)
    ensures ReplayAll(l, h, cs + [c]) == ReplayOne(l, ReplayAll(l, h, cs), c)
    decreases |cs|
  {
    if cs == [] {
      assert cs + [c] == [c] && [c][1..] == [];
      assert ReplayAll(l, ReplayOne(l, h, c), []) == ReplayOne(l, h, c);
    } else {
      assert (cs + [c])[0] == cs[0] && (cs + [c])[1..] == cs[1..] + [c];
      ReplayLast(l, ReplayOne(l, h, cs[0]), cs[1..], c);
    }
  }

  /** History counts in the order of time: a challenge no older than the others is played
      on the ratings that they lead to. */
  lemma LatestIsReplayedLast(l: Ladder, cs: seq<Challenge>, c: Challenge)
    requires IsPow(l.pow) && forall d :: d in cs ==> d.createdAt <= c.createdAt
    ensures Compute(l, cs + [c]) == ReplayOne(l, Compute(l, cs), c)
  {
    SortLatest(cs, c);
    ReplayLast(l, START, Sort(cs, NotLater), c);
  }

  // ---- Who is rated ----

  ghost predicate Compared(cs: seq<Challenge>, user: string) {
    exists c :: c in cs && |c.guesses| >= 2 && exists g :: g in c.guesses && g.userId == user
  }

  lemma {:induction false} ReplayRates(l: Ladder, h: History, cs: seq<Challenge>, user: string)
    requires IsPow(l.pow)
    ensures user in ReplayAll(l, h, cs).ratings <==> user in h.ratings || Compared(cs, user)
    decreases |cs|
  {
    if cs != [] {
      ReplayRates(l, ReplayOne(l, h, cs[0]), cs[1..], user);
      OneRates(l, h, cs[0], user);
      hide ReplayOne;
      assert forall c :: c in cs <==> c == cs[0] || c in cs[1..];
    }
  }

  lemma OneRates(l: Ladder, h: History, c: Challenge, user: string)
    requires IsPow(l.pow)
    ensures user in ReplayOne(l, h, c).ratings <==> user in h.ratings || (|c.guesses| >= 2 && exists g :: g in c.guesses && g.userId == user)
  {
    hide Delta;
  }

  /** Exactly those are rated who compared with somebody on a challenge. */
  lemma RatedIffCompared(l: Ladder, cs: seq<Challenge>, user: string)
    requires IsPow(l.pow)
    ensures user in Compute(l, cs).ratings <==>
            exists c :: c in cs && |c.guesses| >= 2 && exists g :: g in c.guesses && g.userId == user
  {
    ReplayRates(l, START, Sort(cs, NotLater), user);
    PermutationMembers(Sort(cs, NotLater), cs);
    assert Compared(Sort(cs, NotLater), user) <==> Compared(cs, user);
  }
}
