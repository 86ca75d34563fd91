/**
 * The constraint tracker (reasoning/constraints.py): counts the judge's final
 * verdicts into hard contradictions, soft contradictions, consistent claims and
 * claims without enough evidence.
 */
module Constraints {
  import opened Records

  /** The four counters of `classify_constraints`. */
  datatype Classification = Classification(hard: nat, soft: nat, consistent: nat, insufficient: nat)

  /** `sum(classification.values())`. */
  function Total(c: Classification): nat
  {
    c.hard + c.soft + c.consistent + c.insufficient
  }

  /** A contradiction the judge holds with confidence strictly above 0.7. */
  predicate IsHard(j: Judgment)
  {
    j.verdict == Contradictory && j.confidence > HardConfidence
  }

  /** The bucket one final judgment falls into, as a classification with a single count. */
  function Bucket(j: Judgment): Classification
  {
    if j.verdict == Contradictory then
      if j.confidence > HardConfidence then Classification(1, 0, 0, 0) else Classification(0, 1, 0, 0)
    else if j.verdict == Consistent then Classification(0, 0, 1, 0)
    else Classification(0, 0, 0, 1)
  }

  /** Counter-wise sum of two classifications. */
  function Add(a: Classification, b: Classification): Classification
  {
    Classification(a.hard + b.hard, a.soft + b.soft, a.consistent + b.consistent, a.insufficient + b.insufficient)
  }

  /** All four counters at zero, as `classify_constraints` starts. */
  const Zero := Classification(0, 0, 0, 0)

  lemma AddZero(c: Classification)
    ensures Add(Zero, c) == c
    ensures Add(c, Zero) == c
  {
  }

  lemma AddAssociative(x: Classification, y: Classification, z: Classification)
    ensures Add(x, Add(y, z)) == Add(Add(x, y), z)
  {
  }

  lemma AddTotal(x: Classification, y: Classification)
    ensures Total(Add(x, y)) == Total(x) + Total(y)
  {
  }

  /** The classification of a list of final judgments. */
  function Tally(finals: seq<Judgment>): Classification
  {
    if finals == [] then Zero
    else Add(Tally(finals[..|finals| - 1]), Bucket(finals[|finals| - 1]))
  }

  /** The `final` judgment of every deliberation, in order. */
  function Finals(deliberations: seq<Deliberation>): (finals: seq<Judgment>)
    ensures |finals| == |deliberations|
    ensures forall i :: 0 <= i < |deliberations| ==> finals[i] == deliberations[i].final
  {
    seq(|deliberations|, i requires 0 <= i < |deliberations| => deliberations[i].final)
  }

  /** `classify_constraints`: the loop incrementing one counter per deliberation. */
  method ClassifyConstraints(deliberations: seq<Deliberation>) returns (c: Classification)
    ensures c == Tally(Finals(deliberations))
    ensures Total(c) == |deliberations|
  {
    ghost var finals := Finals(deliberations);
    var hard, soft, consistent, insufficient := 0, 0, 0, 0;
    var i := 0;
    while i < |deliberations|
      invariant 0 <= i <= |deliberations|
      invariant hard == Tally(finals[..i]).hard && soft == Tally(finals[..i]).soft
      invariant consistent == Tally(finals[..i]).consistent && insufficient == Tally(finals[..i]).insufficient
    {
      assert finals[i] == deliberations[i].final;
      hard, soft, consistent, insufficient := CountFinal(deliberations[i].final, hard, soft, consistent, insufficient);
      TallyPrefixStep(finals, i);
      i := i + 1;
    }
    assert finals[..|deliberations|] == finals;
    c := Classification(hard, soft, consistent, insufficient);
    TallyTotal(finals);
  }

  /** The body of the loop in `classify_constraints`: the if-chain that increments the counter for one final judgment. */
  method CountFinal(final: Judgment, hard: nat, soft: nat, consistent: nat, insufficient: nat)
    returns (hard': nat, soft': nat, consistent': nat, insufficient': nat)
    ensures Classification(hard', soft', consistent', insufficient') == Add(Classification(hard, soft, consistent, insufficient), Bucket(final))
  {
    hard', soft', consistent', insufficient' := hard, soft, consistent, insufficient;
    if final.verdict == Contradictory {
      if final.confidence > HardConfidence {
        hard' := hard + 1;
      } else {
        soft' := soft + 1;
      }
    } else if final.verdict == Consistent {
      consistent' := consistent + 1;
    } else {
      insufficient' := insufficient + 1;
    }
  }

  /** The tally of one more final judgment, counter by counter. */
  lemma TallyPrefixStep(finals: seq<Judgment>, i: nat)
    requires i < |finals|
    ensures Tally(finals[..i + 1]).hard == Tally(finals[..i]).hard + Bucket(finals[i]).hard
    ensures Tally(finals[..i + 1]).soft == Tally(finals[..i]).soft + Bucket(finals[i]).soft
    ensures Tally(finals[..i + 1]).consistent == Tally(finals[..i]).consistent + Bucket(finals[i]).consistent
    ensures Tally(finals[..i + 1]).insufficient == Tally(finals[..i]).insufficient + Bucket(finals[i]).insufficient
  {
    assert finals[..i + 1][..i] == finals[..i];
  }

  /** Every final judgment is counted exactly once. */
  lemma {:induction false} TallyTotal(finals: seq<Judgment>)
    ensures Total(Tally(finals)) == |finals|
  {
    if finals != [] {
      var init := finals[..|finals| - 1];
      TallyTotal(init);
      AddTotal(Tally(init), Bucket(finals[|finals| - 1]));
      BucketTotal(finals[|finals| - 1]);
    }
  }

  lemma BucketTotal(j: Judgment)
    ensures Total(Bucket(j)) == 1
  {
  }

  lemma AddSwap(p: Classification, x: Classification, r: Classification)
    ensures Add(Add(p, x), r) == Add(Add(p, r), x)
  {
  }

  /** Tallying a concatenation adds the tallies. */
  lemma {:induction false} TallyAppend(a: seq<Judgment>, b: seq<Judgment>)
    ensures Tally(a + b) == Add(Tally(a), Tally(b))
    decreases |b|
  {
    if b == [] {
      assert a + b == a;
      AddZero(Tally(a));
    } else {
      var b' := b[..|b| - 1];
      var x := b[|b| - 1];
      assert (a + b)[..|a + b| - 1] == a + b';
      assert (a + b)[|a + b| - 1] == x;
      TallyAppend(a, b');
      AddAssociative(Tally(a), Tally(b'), Bucket(x));
    }
  }

  /** The counts depend only on which final judgments occur, not on their order. */
  lemma {:induction false} TallyPermutation(a: seq<Judgment>, b: seq<Judgment>)
    requires multiset(a) == multiset(b)
    ensures Tally(a) == Tally(b)
    decreases |a|
  {
    if a == [] {
      assert |b| == |multiset(b)| == 0;
    } else {
      var x, a' := a[|a| - 1], a[..|a| - 1];
      assert a == a' + [x];
      assert x in multiset(b);
      var j :| 0 <= j < |b| && b[j] == x;
      var pre, post := b[..j], b[j + 1..];
      assert b == pre + [x] + post;
      MultisetCancel(a', pre, x, post);
      TallyPermutation(a', pre + post);
      TallyMiddle(pre, x, post);
    }
  }

  lemma MultisetCancel(a: seq<Judgment>, pre: seq<Judgment>, x: Judgment, post: seq<Judgment>)
    requires multiset(a + [x]) == multiset(pre + [x] + post)
    ensures multiset(a) == multiset(pre + post)
  {
    assert multiset(a + [x]) == multiset(a) + multiset{x};
    assert multiset(pre + [x] + post) == multiset(pre) + multiset{x} + multiset(post);
    assert multiset(pre + post) == multiset(pre) + multiset(post);
    forall y
      ensures multiset(a)[y] == multiset(pre + post)[y]
    {
      assert multiset(a + [x])[y] == multiset(pre + [x] + post)[y];
    }
  }

  /** Moving one judgment from the middle of a list to its end does not change the tally. */
  lemma TallyMiddle(pre: seq<Judgment>, x: Judgment, post: seq<Judgment>)
    ensures Tally(pre + [x] + post) == Tally(pre + post + [x])
  {
    TallyAppend(pre, [x]);
    TallyAppend(pre + [x], post);
    TallyAppend(pre, post);
    TallyAppend(pre + post, [x]);
    assert Tally([x]) == Add(Zero, Bucket(x)) by {
      assert [x][..0] == [];
    }
    AddZero(Bucket(x));
    AddSwap(Tally(pre), Bucket(x), Tally(post));
  }

  /** The bucket counts a hard contradiction as hard and an INSUFFICIENT verdict as insufficient, and nothing else so. */
  lemma BucketCounts(j: Judgment)
    ensures Bucket(j).hard == (if IsHard(j) then 1 else 0)
    ensures Bucket(j).soft == (if j.verdict == Contradictory && !IsHard(j) then 1 else 0)
    ensures Bucket(j).consistent == (if j.verdict == Consistent then 1 else 0)
    ensures Bucket(j).insufficient == (if j.verdict == Insufficient then 1 else 0)
  {
  }

  lemma AddCounts(x: Classification, y: Classification)
    ensures Add(x, y).hard == x.hard + y.hard
    ensures Add(x, y).insufficient == x.insufficient + y.insufficient
  {
  }

  /** How the last final judgment changes the hard and insufficient counters. */
  lemma TallyLastCounts(finals: seq<Judgment>)
    requires finals != []
    ensures Tally(finals).hard == Tally(finals[..|finals| - 1]).hard + (if IsHard(finals[|finals| - 1]) then 1 else 0)
    ensures Tally(finals).insufficient == Tally(finals[..|finals| - 1]).insufficient + (if finals[|finals| - 1].verdict == Insufficient then 1 else 0)
  {
    AddCounts(Tally(finals[..|finals| - 1]), Bucket(finals[|finals| - 1]));
    BucketCounts(finals[|finals| - 1]);
  }

  /** Some final judgment is a hard contradiction. */
  predicate SomeHard(finals: seq<Judgment>)
  {
    exists i :: 0 <= i < |finals| && IsHard(finals[i])
  }

  /** No final verdict is INSUFFICIENT. */
  predicate NoneInsufficient(finals: seq<Judgment>)
  {
    forall i :: 0 <= i < |finals| ==> finals[i].verdict != Insufficient
  }

  lemma SomeHardLast(finals: seq<Judgment>)
    requires finals != []
    ensures SomeHard(finals) <==> SomeHard(finals[..|finals| - 1]) || IsHard(finals[|finals| - 1])
  {
    var init := finals[..|finals| - 1];
    if SomeHard(init) {
      var i :| 0 <= i < |init| && IsHard(init[i]);
      assert finals[i] == init[i];
    }
    if SomeHard(finals) && !IsHard(finals[|finals| - 1]) {
      var i :| 0 <= i < |finals| && IsHard(finals[i]);
      assert init[i] == finals[i];
    }
  }

  lemma NoneInsufficientLast(finals: seq<Judgment>)
    requires finals != []
    ensures NoneInsufficient(finals) <==> NoneInsufficient(finals[..|finals| - 1]) && finals[|finals| - 1].verdict != Insufficient
  {
    var init := finals[..|finals| - 1];
    if NoneInsufficient(init) && finals[|finals| - 1].verdict != Insufficient {
      forall i | 0 <= i < |finals|
        ensures finals[i].verdict != Insufficient
      {
        if i < |init| {
          assert finals[i] == init[i];
        }
      }
    }
  }

  /** There is a hard contradiction among the finals exactly when the hard counter is positive. */
  lemma {:induction false} HardCountMeansHardFinal(finals: seq<Judgment>)
    ensures Tally(finals).hard > 0 <==> SomeHard(finals)
  {
    if finals != [] {
      HardCountMeansHardFinal(finals[..|finals| - 1]);
      TallyLastCounts(finals);
      SomeHardLast(finals);
    }
  }

  /** The insufficient counter is zero exactly when no final verdict is INSUFFICIENT. */
  lemma {:induction false} InsufficientCountMeansVerdict(finals: seq<Judgment>)
    ensures Tally(finals).insufficient == 0 <==> NoneInsufficient(finals)
  {
    if finals != [] {
      InsufficientCountMeansVerdict(finals[..|finals| - 1]);
      TallyLastCounts(finals);
      NoneInsufficientLast(finals);
    }
  }

  /** Final judgments that are all INSUFFICIENT are all counted as insufficient. */
  lemma {:induction false} AllInsufficientTally(finals: seq<Judgment>)
    requires forall i :: 0 <= i < |finals| ==> finals[i].verdict == Insufficient
    ensures Tally(finals) == Classification(0, 0, 0, |finals|)
  {
    if finals != [] {
      var init := finals[..|finals| - 1];
      assert forall i :: 0 <= i < |init| ==> init[i] == finals[i];
      AllInsufficientTally(init);
      assert Bucket(finals[|finals| - 1]) == Classification(0, 0, 0, 1);
    }
  }

  /** `has_critical_violations`. */
  predicate HasCriticalViolations(c: Classification)
  {
    c.hard > 0
  }

  /** `get_evidence_coverage`: the fraction of claims not left INSUFFICIENT, 0.0 for no claims. */
  function EvidenceCoverage(c: Classification): (coverage: real)
    ensures 0.0 <= coverage <= 1.0
    ensures Total(c) == 0 ==> coverage == 0.0
    ensures Total(c) > 0 ==> (coverage == 1.0 <==> c.insufficient == 0)
  {
    var total := Total(c);
    if total == 0 then 0.0
    else (total - c.insufficient) as real / total as real
  }
}
