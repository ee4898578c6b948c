/** The slug search: a loop that always ends, at the first free candidate. */
module Slugs {
  import opened Decimals

  // base, base-2, base-3, ...
  function Candidate(base: string, attempt: nat): string {
    if attempt <= 1 then base else base + "-" + Decimal(attempt)
  }

  // The first attempt whose candidate is free. Past the number of slugs taken there is no need to look.
  function FreeAttempt(base: string, taken: set<string>, attempt: nat): (r: nat)
    requires 1 <= attempt
    ensures attempt <= r
    decreases |taken| + 1 - attempt
  {
    if attempt > |taken| || Candidate(base, attempt) !in taken then attempt
    else FreeAttempt(base, taken, attempt + 1)
  }

  function UniqueSlug(base: string, taken: set<string>): string {
    Candidate(base, FreeAttempt(base, taken, 1))
  }

  lemma CandidatesDiffer(base: string, j: nat, k: nat)
    requires 1 <= j && 1 <= k && j != k
    ensures Candidate(base, j) != Candidate(base, k)
  {
    DecimalReadsBack(j);
    DecimalReadsBack(k);
    if j > 1 && k > 1 {
      assert (base + "-" + Decimal(j))[|base| + 1..] == Decimal(j);
      assert (base + "-" + Decimal(k))[|base| + 1..] == Decimal(k);
    }
  }

  ghost function Tried(base: string, n: nat): set<string> {
    set k | 1 <= k <= n :: Candidate(base, k)
  }

  lemma {:induction false} TriedAreMany(base: string, n: nat)
    ensures |Tried(base, n)| == n
  {
    if n == 0 {
      assert Tried(base, 0) == {};
    } else {
      TriedAreMany(base, n - 1);
      assert Tried(base, n) == Tried(base, n - 1) + {Candidate(base, n)};
      if Candidate(base, n) in Tried(base, n - 1) {
        var k :| 1 <= k <= n - 1 && Candidate(base, k) == Candidate(base, n);
        CandidatesDiffer(base, k, n);
        assert false;
      }
    }
  }

  // Pigeonhole: n distinct candidates cannot all be among fewer than n slugs.
  lemma SomeCandidateIsFree(base: string, taken: set<string>, n: nat)
    requires forall k :: 1 <= k <= n ==> Candidate(base, k) in taken
    ensures n <= |taken|
  {
    TriedAreMany(base, n);
    assert Tried(base, n) <= taken;
    SubsetIsNoLarger(Tried(base, n), taken);
  }

  lemma {:induction false} SubsetIsNoLarger(a: set<string>, b: set<string>)
    requires a <= b
    ensures |a| <= |b|
    decreases a
  {
    if a != {} {
      var x :| x in a;
      SubsetIsNoLarger(a - {x}, b - {x});
    }
  }

  lemma {:induction false} AttemptIsFirst(base: string, taken: set<string>, attempt: nat)
    requires 1 <= attempt && forall k :: 1 <= k < attempt ==> Candidate(base, k) in taken
    ensures var r := FreeAttempt(base, taken, attempt);
      && Candidate(base, r) !in taken
      && (forall k :: 1 <= k < r ==> Candidate(base, k) in taken)
    decreases |taken| + 1 - attempt
  {
    if Candidate(base, attempt) in taken {
      SomeCandidateIsFree(base, taken, attempt);
      AttemptIsFirst(base, taken, attempt + 1);
    }
  }

  // The slug is free, and it is the first free one of base, base-2, base-3, and so on.
  lemma SlugIsFirstFree(base: string, taken: set<string>)
    ensures UniqueSlug(base, taken) !in taken
    ensures var r := FreeAttempt(base, taken, 1);
      UniqueSlug(base, taken) == Candidate(base, r) && forall k :: 1 <= k < r ==> Candidate(base, k) in taken
  {
    AttemptIsFirst(base, taken, 1);
  }

  method GenerateUniqueSlug(base: string, taken: set<string>) returns (candidate: string)
    ensures candidate == UniqueSlug(base, taken)
    ensures candidate !in taken
  {
    candidate := base;
    var attempt := 1;
    while candidate in taken
      invariant 1 <= attempt && candidate == Candidate(base, attempt)
      invariant forall k :: 1 <= k < attempt ==> Candidate(base, k) in taken
      invariant FreeAttempt(base, taken, attempt) == FreeAttempt(base, taken, 1)
      decreases |taken| + 1 - attempt
    {
      SomeCandidateIsFree(base, taken, attempt);
      attempt := attempt + 1;
      candidate := base + "-" + Decimal(attempt);
    }
    AttemptIsFirst(base, taken, attempt);
  }
}
