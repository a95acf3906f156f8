/** backend/internal/elo/elo.go: ratings recomputed from the guess history, over exact
    reals. `pow` stands for d -> 10^(d/400), of which only IsPow is used. */
module Elo {
  import opened Ordering
  import opened Rounding

  const INITIAL_RATING := 1000

  datatype Guess = Guess(userId: string, score: int)
  datatype Challenge = Challenge(id: string, createdAt: int, guesses: seq<Guess>)

  type Ratings = map<string, int>

  /** Positive, and 10^d * 10^(-d) = 1. */
  ghost predicate IsPow(pow: int -> real) {
    forall d :: pow(d) > 0.0 && pow(d) * pow(-d) == 1.0
  }

  datatype Ladder = Ladder(pow: int -> real, factor: real)

  function ExpectedScore(pow: int -> real, ratingA: int, ratingB: int): real
    requires IsPow(pow)
  {
    assert pow(ratingB - ratingA) > 0.0;
    1.0 / (1.0 + pow(ratingB - ratingA))
  }

  function Rating(ratings: Ratings, user: string): int {
    if user in ratings then ratings[user] else INITIAL_RATING
  }

  function Result(a: Guess, b: Guess): real {
    if a.score > b.score then 1.0 else if a.score < b.score then 0.0 else 0.5
  }

  /** What guesser `a` gains from being compared with `b`. */
  function Gain(l: Ladder, ratings: Ratings, a: Guess, b: Guess): real
    requires IsPow(l.pow)
  {
    l.factor * (Result(a, b) - ExpectedScore(l.pow, Rating(ratings, a.userId), Rating(ratings, b.userId)))
  }

  lemma ReciprocalsSum(p: real, q: real)
    requires p > 0.0 && q > 0.0 && p * q == 1.0
    ensures 1.0 / (1.0 + p) + 1.0 / (1.0 + q) == 1.0
  {
    var x, y := 1.0 + p, 1.0 + q;
    assert x * y == x + y;
    assert 1.0 / x + 1.0 / y == (x + y) / (x * y);
  }

  /** A comparison moves points: what one gains the other loses. */
  lemma GainAntisymmetric(l: Ladder, ratings: Ratings, a: Guess, b: Guess)
    requires IsPow(l.pow)
    ensures Gain(l, ratings, a, b) + Gain(l, ratings, b, a) == 0.0
  {
    var ra, rb := Rating(ratings, a.userId), Rating(ratings, b.userId);
    assert l.pow(rb - ra) * l.pow(-(rb - ra)) == 1.0 && -(rb - ra) == ra - rb;
    ReciprocalsSum(l.pow(rb - ra), l.pow(ra - rb));
    var ea, eb := ExpectedScore(l.pow, ra, rb), ExpectedScore(l.pow, rb, ra);
    assert l.factor * (Result(a, b) - ea) + l.factor * (Result(b, a) - eb) == l.factor * (Result(a, b) + Result(b, a) - (ea + eb));
  }

  /** What the comparison of `a` and `b` adds to `user`. */
  function Share(l: Ladder, ratings: Ratings, a: Guess, b: Guess, user: string): real
    requires IsPow(l.pow)
  {
    (if a.userId == user then Gain(l, ratings, a, b) else 0.0) + (if b.userId == user then Gain(l, ratings, b, a) else 0.0)
  }

  function ShareAll(l: Ladder, ratings: Ratings, a: Guess, others: seq<Guess>, user: string): real
    requires IsPow(l.pow)
  {
    if others == [] then 0.0
    else Share(l, ratings, a, others[0], user) + ShareAll(l, ratings, a, others[1..], user)
  }

  /** The exact delta of a user: the sum of its shares over all pairs of guesses. */
  function Delta(l: Ladder, ratings: Ratings, guesses: seq<Guess>, user: string): real
    requires IsPow(l.pow)
  {
    if guesses == [] then 0.0
    else ShareAll(l, ratings, guesses[0], guesses[1..], user) + Delta(l, ratings, guesses[1..], user)
  }

  function Users(guesses: seq<Guess>): set<string> {
    set g | g in guesses :: g.userId
  }

  function RoundedDeltas(l: Ladder, ratings: Ratings, guesses: seq<Guess>): map<string, int>
    requires IsPow(l.pow)
  {
    map u | u in Users(guesses) :: Round(Delta(l, ratings, guesses, u))
  }

  function Apply(ratings: Ratings, deltas: map<string, int>): Ratings {
    map u | u in ratings.Keys + deltas.Keys :: Rating(ratings, u) + (if u in deltas then deltas[u] else 0)
  }

  datatype History = History(ratings: Ratings, deltas: map<string, map<string, int>>)

  function ReplayOne(l: Ladder, h: History, c: Challenge): History
    requires IsPow(l.pow)
  {
    if |c.guesses| < 2 then h
    else
      var deltas := RoundedDeltas(l, h.ratings, c.guesses);
      History(Apply(h.ratings, deltas), h.deltas[c.id := deltas])
  }

  function ReplayAll(l: Ladder, h: History, challenges: seq<Challenge>): History
    requires IsPow(l.pow)
    decreases |challenges|
  {
    if challenges == [] then h else ReplayAll(l, ReplayOne(l, h, challenges[0]), challenges[1..])
  }

  predicate NotLater(a: Challenge, b: Challenge) {
    a.createdAt <= b.createdAt
  }

  const START := History(map[], map[])

  /** The result of the replay, for any history. */
  function Compute(l: Ladder, challenges: seq<Challenge>): History
    requires IsPow(l.pow)
  {
    ReplayAll(l, START, Sort(challenges, NotLater))
  }

  // ---- The imperative replay ----

  function At(deltas: map<string, real>, user: string): real {
    if user in deltas then deltas[user] else 0.0
  }

  function AddGain(deltas: map<string, real>, user: string, gain: real): map<string, real> {
    deltas[user := At(deltas, user) + gain]
  }

  lemma ShareAdded(l: Ladder, ratings: Ratings, a: Guess, b: Guess, before: map<string, real>)
    requires IsPow(l.pow)
    ensures var after := AddGain(AddGain(before, a.userId, Gain(l, ratings, a, b)), b.userId, Gain(l, ratings, b, a));
            forall u :: At(after, u) == At(before, u) + Share(l, ratings, a, b, u)
  {
    GainsAdded(before, a.userId, Gain(l, ratings, a, b), b.userId, Gain(l, ratings, b, a));
  }

  lemma GainsAdded(before: map<string, real>, x: string, gx: real, y: string, gy: real)
    ensures forall u :: At(AddGain(AddGain(before, x, gx), y, gy), u)
                     == At(before, u) + ((if x == u then gx else 0.0) + (if y == u then gy else 0.0))
  {
  }

  /** What the loops still owe a user once outer index `i` has reached inner index `j`. */
  ghost predicate Accounted(l: Ladder, ratings: Ratings, guesses: seq<Guess>, i: nat, j: nat, deltas: map<string, real>)
    requires IsPow(l.pow) && i < |guesses| && j <= |guesses|
  {
    forall u :: At(deltas, u) + ShareAll(l, ratings, guesses[i], guesses[j..], u) + Delta(l, ratings, guesses[i + 1..], u)
             == Delta(l, ratings, guesses, u)
  }

  ghost predicate RowsAccounted(l: Ladder, ratings: Ratings, guesses: seq<Guess>, i: nat, deltas: map<string, real>)
    requires IsPow(l.pow) && i <= |guesses|
  {
    forall u :: At(deltas, u) + Delta(l, ratings, guesses[i..], u) == Delta(l, ratings, guesses, u)
  }

  lemma RowStarts(l: Ladder, ratings: Ratings, guesses: seq<Guess>, i: nat, deltas: map<string, real>)
    requires IsPow(l.pow) && i < |guesses| && RowsAccounted(l, ratings, guesses, i, deltas)
    ensures Accounted(l, ratings, guesses, i, i + 1, deltas)
  {
    assert guesses[i..][0] == guesses[i] && guesses[i..][1..] == guesses[i + 1..];
  }

  lemma PairAccounted(l: Ladder, ratings: Ratings, guesses: seq<Guess>, i: nat, j: nat, deltas: map<string, real>)
    requires IsPow(l.pow) && i < j < |guesses| && Accounted(l, ratings, guesses, i, j, deltas)
    ensures var a, b := guesses[i], guesses[j];
            Accounted(l, ratings, guesses, i, j + 1, AddGain(AddGain(deltas, a.userId, Gain(l, ratings, a, b)), b.userId, Gain(l, ratings, b, a)))
  {
    var a, b := guesses[i], guesses[j];
    ShareAdded(l, ratings, a, b, deltas);
    forall u ensures ShareAll(l, ratings, a, guesses[j..], u) == Share(l, ratings, a, b, u) + ShareAll(l, ratings, a, guesses[j + 1..], u) {
      assert guesses[j..][0] == b && guesses[j..][1..] == guesses[j + 1..];
    }
  }

  lemma RowEnds(l: Ladder, ratings: Ratings, guesses: seq<Guess>, i: nat, deltas: map<string, real>)
    requires IsPow(l.pow) && i < |guesses| && Accounted(l, ratings, guesses, i, |guesses|, deltas)
    ensures RowsAccounted(l, ratings, guesses, i + 1, deltas)
  {
    assert guesses[|guesses|..] == [];
  }

  lemma AllRowsAccounted(l: Ladder, ratings: Ratings, guesses: seq<Guess>, deltas: map<string, real>)
    requires IsPow(l.pow) && RowsAccounted(l, ratings, guesses, |guesses|, deltas)
    ensures forall u :: u in deltas ==> deltas[u] == Delta(l, ratings, guesses, u)
  {
    assert guesses[|guesses|..] == [];
    forall u | u in deltas ensures deltas[u] == Delta(l, ratings, guesses, u) {
      assert At(deltas, u) + Delta(l, ratings, guesses[|guesses|..], u) == Delta(l, ratings, guesses, u);
    }
  }

  /** Exactly the users of the first `seen` guesses have an entry. */
  ghost predicate Entries(guesses: seq<Guess>, seen: nat, keys: set<string>) {
    seen <= |guesses| && keys == Users(guesses[..seen])
  }

  lemma EntriesAdded(guesses: seq<Guess>, i: nat, j: nat, keys: set<string>)
    requires i < j < |guesses|
    requires Entries(guesses, if i == 0 then (if j == 1 then 0 else j) else |guesses|, keys)
    ensures Entries(guesses, if i == 0 then j + 1 else |guesses|, keys + {guesses[i].userId} + {guesses[j].userId})
  {
    assert guesses[..j + 1] == guesses[..j] + [guesses[j]];
    assert guesses[..1] == [guesses[0]] && guesses[..|guesses|] == guesses;
    if i == 0 && j > 1 { assert guesses[..j][0] == guesses[0]; }
  }

  /** The inner loop: guess `i` against every later one. */
  method CompareWithLater(l: Ladder, ratings: Ratings, guesses: seq<Guess>, i: nat, before: map<string, real>) returns (deltas: map<string, real>)
    requires IsPow(l.pow) && i < |guesses| && |guesses| >= 2
    requires Entries(guesses, if i == 0 then 0 else |guesses|, before.Keys)
    requires RowsAccounted(l, ratings, guesses, i, before)
    ensures Entries(guesses, |guesses|, deltas.Keys)
    ensures RowsAccounted(l, ratings, guesses, i + 1, deltas)
  {
    hide RowsAccounted, Accounted, Entries, Gain;
    deltas := before;
    RowStarts(l, ratings, guesses, i, deltas);
    for j := i + 1 to |guesses|
      invariant Entries(guesses, if i == 0 then (if j == 1 then 0 else j) else |guesses|, deltas.Keys)
      invariant Accounted(l, ratings, guesses, i, j, deltas)
    {
      PairAccounted(l, ratings, guesses, i, j, deltas);
      EntriesAdded(guesses, i, j, deltas.Keys);
      var a, b := guesses[i], guesses[j];
      ghost var keys := deltas.Keys;
      deltas := AddGain(deltas, a.userId, Gain(l, ratings, a, b));
      deltas := AddGain(deltas, b.userId, Gain(l, ratings, b, a));
      assert deltas.Keys == keys + {a.userId} + {b.userId};
    }
    RowEnds(l, ratings, guesses, i, deltas);
  }

  method PairLoop(l: Ladder, ratings: Ratings, guesses: seq<Guess>) returns (deltas: map<string, real>)
    requires IsPow(l.pow) && |guesses| >= 2
    ensures deltas.Keys == Users(guesses)
    ensures forall u :: u in deltas ==> deltas[u] == Delta(l, ratings, guesses, u)
  {
    deltas := map[];
    assert guesses[0..] == guesses && guesses[..|guesses|] == guesses;
    for i := 0 to |guesses|
      invariant Entries(guesses, if i == 0 then 0 else |guesses|, deltas.Keys)
      invariant RowsAccounted(l, ratings, guesses, i, deltas)
    {
      deltas := CompareWithLater(l, ratings, guesses, i, deltas);
    }
    AllRowsAccounted(l, ratings, guesses, deltas);
  }

  lemma AppliedOneMore(before: Ratings, done: map<string, int>, id: string, delta: int)
    requires id !in done
    ensures var so := Apply(before, done); so[id := Rating(so, id) + delta] == Apply(before, done[id := delta])
  {
  }

  lemma AppliedNone(before: Ratings)
    ensures Apply(before, map[]) == before
  {
  }

  /** The map is read in an order of the runtime's choosing. */
  method ApplyRounded(before: Ratings, deltas: map<string, real>) returns (ratings: Ratings, userDeltas: map<string, int>)
    ensures userDeltas == map u | u in deltas :: Round(deltas[u])
    ensures ratings == Apply(before, userDeltas)
  {
    hide Apply, Rating, Round;
    ratings, userDeltas := before, map[];
    var pending := deltas.Keys;
    AppliedNone(before);
    while pending != {}
      invariant pending <= deltas.Keys && userDeltas.Keys == deltas.Keys - pending
      invariant forall u :: u in userDeltas ==> userDeltas[u] == Round(deltas[u])
      invariant ratings == Apply(before, userDeltas)
      decreases |pending|
    {
      var id :| id in pending;
      var rounded := Round(deltas[id]);
      AppliedOneMore(before, userDeltas, id, rounded);
      ratings := ratings[id := Rating(ratings, id) + rounded];
      userDeltas := userDeltas[id := rounded];
      pending := pending - {id};
    }
  }

  method Replay(l: Ladder, challenges: seq<Challenge>) returns (ratings: Ratings, challengeDeltas: map<string, map<string, int>>)
    requires IsPow(l.pow)
    ensures History(ratings, challengeDeltas) == Compute(l, challenges)
  {
    var sorted := Sort(challenges, NotLater);
    ratings, challengeDeltas := map[], map[];
    for i := 0 to |sorted|
      invariant ReplayAll(l, History(ratings, challengeDeltas), sorted[i..]) == Compute(l, challenges)
    {
      var challenge := sorted[i];
      assert sorted[i..][0] == challenge && sorted[i..][1..] == sorted[i + 1..];
      if |challenge.guesses| < 2 { continue; }
      var deltas := PairLoop(l, ratings, challenge.guesses);
      ghost var before := ratings;
      var userDeltas;
      ratings, userDeltas := ApplyRounded(ratings, deltas);
      assert userDeltas == RoundedDeltas(l, before, challenge.guesses);
      challengeDeltas := challengeDeltas[challenge.id := userDeltas];
    }
    assert sorted[|sorted|..] == [];
  }

  // ---- The order of guesses does not matter ----

  lemma ShareSymmetric(l: Ladder, ratings: Ratings, a: Guess, b: Guess, user: string)
    requires IsPow(l.pow)
    ensures Share(l, ratings, a, b, user) == Share(l, ratings, b, a, user)
  {
  }

  lemma {:induction false} ShareAllRemove(l: Ladder, ratings: Ratings, a: Guess, others: seq<Guess>, k: nat, user: string)
    requires IsPow(l.pow) && k < |others|
    ensures ShareAll(l, ratings, a, others, user)
         == Share(l, ratings, a, others[k], user) + ShareAll(l, ratings, a, Without(others, k), user)
  {
    if k == 0 {
      assert others[..0] + others[1..] == others[1..];
    } else {
      var rest := Without(others, k);
      assert rest[1..] == others[1..][..k - 1] + others[1..][k..] && rest[0] == others[0];
      ShareAllRemove(l, ratings, a, others[1..], k - 1, user);
    }
  }

  /** Any guess can be taken out of the double loop first. */
  lemma {:induction false} DeltaRemove(l: Ladder, ratings: Ratings, guesses: seq<Guess>, k: nat, user: string)
    requires IsPow(l.pow) && k < |guesses|
    ensures var rest := Without(guesses, k);
            Delta(l, ratings, guesses, user) == ShareAll(l, ratings, guesses[k], rest, user) + Delta(l, ratings, rest, user)
  {
    var g, tail := guesses[0], guesses[1..];
    if k == 0 {
      assert Without(guesses, 0) == tail;
    } else {
      var rest := Without(tail, k - 1);
      assert Without(guesses, k)[0] == g && Without(guesses, k)[1..] == rest;
      DeltaRemove(l, ratings, tail, k - 1, user);
      ShareAllRemove(l, ratings, g, tail, k - 1, user);
      ShareSymmetric(l, ratings, g, guesses[k], user);
      assert Delta(l, ratings, Without(guesses, k), user) == ShareAll(l, ratings, g, rest, user) + Delta(l, ratings, rest, user);
      assert ShareAll(l, ratings, guesses[k], Without(guesses, k), user)
        == Share(l, ratings, guesses[k], g, user) + ShareAll(l, ratings, guesses[k], rest, user);
    }
  }

  lemma {:induction false} ShareAllPermutation(l: Ladder, ratings: Ratings, a: Guess, s: seq<Guess>, t: seq<Guess>, user: string)
    requires IsPow(l.pow) && multiset(s) == multiset(t)
    ensures ShareAll(l, ratings, a, s, user) == ShareAll(l, ratings, a, t, user)
    decreases |s|
  {
    PermutationMembers(s, t);
    if s != [] {
      var k := HeadInPermutation(s, t);
      ShareAllRemove(l, ratings, a, t, k, user);
      ShareAllPermutation(l, ratings, a, s[1..], Without(t, k), user);
    }
  }

  lemma {:induction false} DeltaPermutation(l: Ladder, ratings: Ratings, s: seq<Guess>, t: seq<Guess>, user: string)
    requires IsPow(l.pow) && multiset(s) == multiset(t)
    ensures Delta(l, ratings, s, user) == Delta(l, ratings, t, user)
    decreases |s|
  {
    PermutationMembers(s, t);
    if s != [] {
      var k := HeadInPermutation(s, t);
      DeltaRemove(l, ratings, t, k, user);
      DeltaPermutation(l, ratings, s[1..], Without(t, k), user);
      ShareAllPermutation(l, ratings, s[0], s[1..], Without(t, k), user);
    }
  }

  // ---- The order of challenges does not matter ----

  /** The same challenge with its guesses in another order. */
  ghost predicate Reordered(c: Challenge, d: Challenge) {
    c.id == d.id && c.createdAt == d.createdAt && multiset(c.guesses) == multiset(d.guesses)
  }

  ghost predicate AllReordered(cs: seq<Challenge>, ds: seq<Challenge>) {
    |cs| == |ds| && forall i :: 0 <= i < |cs| ==> Reordered(cs[i], ds[i])
  }

  lemma ReplayOneReordered(l: Ladder, h: History, c: Challenge, d: Challenge)
    requires IsPow(l.pow) && Reordered(c, d)
    ensures ReplayOne(l, h, c) == ReplayOne(l, h, d)
  {
    var s, t := c.guesses, d.guesses;
    PermutationMembers(s, t);
    assert Users(s) == Users(t);
    forall u | u in Users(s) ensures Delta(l, h.ratings, s, u) == Delta(l, h.ratings, t, u) {
      DeltaPermutation(l, h.ratings, s, t, u);
    }
    assert RoundedDeltas(l, h.ratings, s) == RoundedDeltas(l, h.ratings, t);
  }

  lemma ConsReordered(c: Challenge, d: Challenge, cs: seq<Challenge>, ds: seq<Challenge>)
    requires Reordered(c, d) && AllReordered(cs, ds)
    ensures AllReordered([c] + cs, [d] + ds)
  {
  }

  lemma {:induction false} InsertReordered(c: Challenge, d: Challenge, cs: seq<Challenge>, ds: seq<Challenge>)
    requires Reordered(c, d) && AllReordered(cs, ds)
    ensures AllReordered(Insert(c, cs, NotLater), Insert(d, ds, NotLater))
  {
    if cs == [] || NotLater(c, cs[0]) {
      ConsReordered(c, d, cs, ds);
      assert cs == [] ==> [c] + cs == [c] && [d] + ds == [d];
    } else {
      assert Reordered(cs[0], ds[0]);
      InsertReordered(c, d, cs[1..], ds[1..]);
      ConsReordered(cs[0], ds[0], Insert(c, cs[1..], NotLater), Insert(d, ds[1..], NotLater));
    }
  }

  lemma {:induction false} SortReordered(cs: seq<Challenge>, ds: seq<Challenge>)
    requires AllReordered(cs, ds)
    ensures AllReordered(Sort(cs, NotLater), Sort(ds, NotLater))
  {
    if cs != [] {
      SortReordered(cs[1..], ds[1..]);
      InsertReordered(cs[0], ds[0], Sort(cs[1..], NotLater), Sort(ds[1..], NotLater));
    }
  }

  lemma {:induction false} ReplayReordered(l: Ladder, h: History, cs: seq<Challenge>, ds: seq<Challenge>)
    requires IsPow(l.pow) && AllReordered(cs, ds)
    ensures ReplayAll(l, h, cs) == ReplayAll(l, h, ds)
    decreases |cs|
  {
    if cs != [] {
      ReplayOneReordered(l, h, cs[0], ds[0]);
      ReplayReordered(l, ReplayOne(l, h, cs[0]), cs[1..], ds[1..]);
    }
  }

  ghost predicate DistinctTimes(cs: seq<Challenge>) {
    forall i, j :: 0 <= i < j < |cs| ==> cs[i].createdAt != cs[j].createdAt
  }

  /** Shuffling the challenges (`cs` into `ms`) and then the guesses inside each of
      them (`ms` into `ds`) changes no rating and no delta. */
  lemma OrderDoesNotMatter(l: Ladder, cs: seq<Challenge>, ms: seq<Challenge>, ds: seq<Challenge>)
    requires IsPow(l.pow) && DistinctTimes(cs)
    requires multiset(cs) == multiset(ms) && AllReordered(ms, ds)
    ensures Compute(l, cs) == Compute(l, ds)
  {
    SortPermutation(cs, ms, NotLater);
    SortReordered(ms, ds);
    ReplayReordered(l, START, Sort(ms, NotLater), Sort(ds, NotLater));
  }

  // ---- Ratings are 1000 plus the deltas; the deltas of a challenge almost cancel ----

  function DeltaOf(deltas: map<string, map<string, int>>, challenge: string, user: string): int {
    if challenge in deltas && user in deltas[challenge] then deltas[challenge][user] else 0
  }

  function SumOfDeltas(deltas: map<string, map<string, int>>, cs: seq<Challenge>, user: string): int {
    if cs == [] then 0 else DeltaOf(deltas, cs[0].id, user) + SumOfDeltas(deltas, cs[1..], user)
  }

  ghost predicate DistinctIds(cs: seq<Challenge>) {
    forall i, j :: 0 <= i < j < |cs| ==> cs[i].id != cs[j].id
  }

  lemma {:induction false} ReplayAddsDeltas(l: Ladder, h: History, cs: seq<Challenge>, user: string)
    requires IsPow(l.pow) && DistinctIds(cs)
    requires forall c :: c in cs ==> c.id !in h.deltas
    ensures var r := ReplayAll(l, h, cs);
            && Rating(r.ratings, user) == Rating(h.ratings, user) + SumOfDeltas(r.deltas, cs, user)
            && (forall id :: id in h.deltas ==> id in r.deltas && r.deltas[id] == h.deltas[id])
            && (forall c :: c in cs ==> (c.id in r.deltas <==> |c.guesses| >= 2))
    decreases |cs|
  {
    if cs != [] {
      var next, tail := ReplayOne(l, h, cs[0]), cs[1..];
      assert forall c :: c in cs <==> c == cs[0] || c in tail;
      ReplayAddsDeltas(l, next, tail, user);
      var r := ReplayAll(l, next, tail);
      if |cs[0].guesses| < 2 {
        SkippedHasNoDelta(l, next, tail, cs[0].id);
      } else {
        assert r.deltas[cs[0].id] == next.deltas[cs[0].id];
      }
    }
  }

  lemma {:induction false} SkippedHasNoDelta(l: Ladder, h: History, cs: seq<Challenge>, id: string)
    requires IsPow(l.pow) && id !in h.deltas && forall c :: c in cs ==> c.id != id
    ensures id !in ReplayAll(l, h, cs).deltas
    decreases |cs|
  {
    if cs != [] {
      assert cs[0] in cs && forall c :: c in cs[1..] ==> c in cs;
      SkippedHasNoDelta(l, ReplayOne(l, h, cs[0]), cs[1..], id);
    }
  }

  /** Every final rating is 1000 plus that player's deltas over all challenges. */
  lemma RatingsAreSumsOfDeltas(l: Ladder, cs: seq<Challenge>, user: string)
    requires IsPow(l.pow) && DistinctIds(cs)
    ensures var r := Compute(l, cs);
            Rating(r.ratings, user) == INITIAL_RATING + SumOfDeltas(r.deltas, Sort(cs, NotLater), user)
  {
    PermutationDistinct(cs, Sort(cs, NotLater), (c: Challenge) => c.id);
    ReplayAddsDeltas(l, START, Sort(cs, NotLater), user);
  }

  function SumExact(l: Ladder, ratings: Ratings, guesses: seq<Guess>, users: seq<string>): real
    requires IsPow(l.pow)
  {
    if users == [] then 0.0 else Delta(l, ratings, guesses, users[0]) + SumExact(l, ratings, guesses, users[1..])
  }

  function SumRounded(l: Ladder, ratings: Ratings, guesses: seq<Guess>, users: seq<string>): int
    requires IsPow(l.pow)
  {
    if users == [] then 0 else Round(Delta(l, ratings, guesses, users[0])) + SumRounded(l, ratings, guesses, users[1..])
  }

  function SumShares(l: Ladder, ratings: Ratings, a: Guess, b: Guess, users: seq<string>): real
    requires IsPow(l.pow)
  {
    if users == [] then 0.0 else Share(l, ratings, a, b, users[0]) + SumShares(l, ratings, a, b, users[1..])
  }

  function SumShareAll(l: Ladder, ratings: Ratings, a: Guess, others: seq<Guess>, users: seq<string>): real
    requires IsPow(l.pow)
  {
    if users == [] then 0.0 else ShareAll(l, ratings, a, others, users[0]) + SumShareAll(l, ratings, a, others, users[1..])
  }

  ghost predicate Distinct(users: seq<string>) {
    forall i, j :: 0 <= i < j < |users| ==> users[i] != users[j]
  }

  lemma {:induction false} SharesCancel(l: Ladder, ratings: Ratings, a: Guess, b: Guess, users: seq<string>)
    requires IsPow(l.pow) && Distinct(users)
    ensures SumShares(l, ratings, a, b, users)
         == (if a.userId in users then Gain(l, ratings, a, b) else 0.0) + (if b.userId in users then Gain(l, ratings, b, a) else 0.0)
  {
    if users != [] {
      SharesCancel(l, ratings, a, b, users[1..]);
      assert users[0] !in users[1..];
      assert forall u :: u in users <==> u == users[0] || u in users[1..];
    }
  }

  lemma {:induction false} SumShareAllSplit(l: Ladder, ratings: Ratings, a: Guess, others: seq<Guess>, users: seq<string>)
    requires IsPow(l.pow)
    ensures others == [] ==> SumShareAll(l, ratings, a, others, users) == 0.0
    ensures others != [] ==>
      SumShareAll(l, ratings, a, others, users) == SumShares(l, ratings, a, others[0], users) + SumShareAll(l, ratings, a, others[1..], users)
  {
    if users != [] { SumShareAllSplit(l, ratings, a, others, users[1..]); }
  }

  lemma {:induction false} SumShareAllZero(l: Ladder, ratings: Ratings, a: Guess, others: seq<Guess>, users: seq<string>)
    requires IsPow(l.pow) && Distinct(users) && a.userId in users && forall g :: g in others ==> g.userId in users
    ensures SumShareAll(l, ratings, a, others, users) == 0.0
  {
    SumShareAllSplit(l, ratings, a, others, users);
    if others != [] {
      assert others[0] in others && forall g :: g in others[1..] ==> g in others;
      SumShareAllZero(l, ratings, a, others[1..], users);
      SharesCancel(l, ratings, a, others[0], users);
      GainAntisymmetric(l, ratings, a, others[0]);
    }
  }

  lemma {:induction false} SumExactSplit(l: Ladder, ratings: Ratings, guesses: seq<Guess>, users: seq<string>)
    requires IsPow(l.pow)
    ensures guesses == [] ==> SumExact(l, ratings, guesses, users) == 0.0
    ensures guesses != [] ==>
      SumExact(l, ratings, guesses, users) == SumShareAll(l, ratings, guesses[0], guesses[1..], users) + SumExact(l, ratings, guesses[1..], users)
  {
    if users != [] { SumExactSplit(l, ratings, guesses, users[1..]); }
  }

  /** Before rounding, a challenge moves points without creating any. */
  lemma {:induction false} ExactDeltasCancel(l: Ladder, ratings: Ratings, guesses: seq<Guess>, users: seq<string>)
    requires IsPow(l.pow) && Distinct(users) && forall g :: g in guesses ==> g.userId in users
    ensures SumExact(l, ratings, guesses, users) == 0.0
  {
    SumExactSplit(l, ratings, guesses, users);
    if guesses != [] {
      assert guesses[0] in guesses && forall g :: g in guesses[1..] ==> g in guesses;
      ExactDeltasCancel(l, ratings, guesses[1..], users);
      SumShareAllZero(l, ratings, guesses[0], guesses[1..], users);
    }
  }

  lemma {:induction false} RoundingError(l: Ladder, ratings: Ratings, guesses: seq<Guess>, users: seq<string>)
    requires IsPow(l.pow)
    ensures var error := SumRounded(l, ratings, guesses, users) as real - SumExact(l, ratings, guesses, users);
            -(|users| as real) / 2.0 <= error <= |users| as real / 2.0
  {
    if users != [] { RoundingError(l, ratings, guesses, users[1..]); }
  }

  /** The rounded deltas of a challenge with n guessers sum to within n/2 of zero. */
  lemma RoundedDeltasNearlyCancel(l: Ladder, ratings: Ratings, guesses: seq<Guess>, users: seq<string>)
    requires IsPow(l.pow) && Distinct(users) && forall g :: g in guesses ==> g.userId in users
    ensures -|users| <= 2 * SumRounded(l, ratings, guesses, users) <= |users|
  {
    ExactDeltasCancel(l, ratings, guesses, users);
    RoundingError(l, ratings, guesses, users);
  }
}
