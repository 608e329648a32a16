/** The k highest scores of a list: selection with any tie-break, streaming, and uniqueness. */
module TopK {
  import opened Lists

  /** `kept` lists, in increasing order, min(k, |scores|) indices that no other index beats. */
  ghost predicate IsTopK(scores: seq<real>, kept: seq<nat>, k: nat) {
    && Increasing(kept) && Below(kept, |scores|)
    && |kept| == Min(k, |scores|)
    && forall i, j | 0 <= i < |kept| && 0 <= j < |scores| && j !in kept :: scores[j] <= scores[kept[i]]
  }

  lemma IsTopKBounds(scores: seq<real>, kept: seq<nat>, k: nat)
    requires IsTopK(scores, kept, k)
    ensures Below(kept, |scores|)
  {
  }

  lemma {:induction false} IncreasingSpread(s: seq<nat>, i: nat, j: nat)
    requires Increasing(s) && i <= j < |s|
    ensures s[i] + (j - i) <= s[j]
  {
    if i < j {
      IncreasingSpread(s, i, j - 1);
    }
  }

  /** Unless an increasing list is 0, 1, 2, ..., it misses an index below its length. */
  lemma Gap(s: seq<nat>) returns (x: nat)
    requires Increasing(s) && |s| > 0 && s[|s| - 1] >= |s|
    ensures x < |s| && x !in s
  {
    x := 0;
    while s[x] == x
      invariant 0 <= x < |s|
      invariant forall y | 0 <= y < x :: s[y] == y
      decreases |s| - x
    {
      x := x + 1;
    }
    IncreasingSpread(s, 0, x);
  }

  /** An index below `n` outside a list that is too short to hold them all. */
  lemma Missing(s: seq<nat>, n: nat) returns (x: nat)
    requires Increasing(s) && |s| < n
    ensures x < n && x !in s
  {
    if s == [] {
      x := 0;
    } else if s[|s| - 1] >= |s| {
      x := Gap(s);
    } else {
      x := |s|;
      forall i | 0 <= i < |s| ensures s[i] < |s| {
        IncreasingSpread(s, i, |s| - 1);
      }
    }
  }

  lemma FullIsEverything(s: seq<nat>, n: nat, j: nat)
    requires Increasing(s) && Below(s, n) && j < n
    ensures |s| == n ==> j in s
  {
    if |s| == n {
      IncreasingSpread(s, 0, j);
      IncreasingSpread(s, j, n - 1);
      assert s[j] == j;
    }
  }

  lemma SelectMembers<T>(xs: seq<T>, idx: seq<nat>, e: nat)
    requires Below(idx, |xs|) && e < |xs|
    ensures e in idx ==> xs[e] in Select(xs, idx)
  {
    if e in idx {
      var x :| 0 <= x < |idx| && idx[x] == e;
      assert Select(xs, idx)[x] == xs[e];
    }
  }

  lemma RangeMembers(start: nat, n: nat, j: nat)
    ensures j in Range(start, n) <==> start <= j < start + n
  {
    if start <= j < start + n {
      assert Range(start, n)[j - start] == j;
    }
  }

  method InsertSorted(s: seq<nat>, x: nat) returns (r: seq<nat>)
    requires Increasing(s) && x !in s
    ensures Increasing(r) && |r| == |s| + 1
    ensures forall y :: y in r <==> y in s || y == x
  {
    var p := 0;
    while p < |s| && s[p] < x
      invariant 0 <= p <= |s|
      invariant forall i | 0 <= i < p :: s[i] < x
    {
      p := p + 1;
    }
    InsertKeepsOrder(s, p, x);
    r := s[..p] + [x] + s[p..];
    hide Increasing;
    forall y ensures y in r <==> y in s || y == x {
      InsertMembers(s, p, x, y);
    }
  }

  /** The selection `topk(k).indices.sort()` makes; the contract leaves the tie-break open. */
  method TopKIndices(scores: seq<real>, k: nat) returns (kept: seq<nat>)
    ensures IsTopK(scores, kept, k)
  {
    kept := [];
    while |kept| < Min(k, |scores|)
      invariant Increasing(kept) && Below(kept, |scores|) && |kept| <= Min(k, |scores|)
      invariant forall i, j | 0 <= i < |kept| && 0 <= j < |scores| && j !in kept :: scores[j] <= scores[kept[i]]
      decreases Min(k, |scores|) - |kept|
    {
      ghost var free := Missing(kept, |scores|);
      var best: Option<nat> := None;
      var i := 0;
      while i < |scores|
        invariant 0 <= i <= |scores|
        invariant best.Some? ==> best.value < |scores| && best.value !in kept
        invariant forall j | 0 <= j < i && j !in kept :: best.Some? && scores[j] <= scores[best.value]
      {
        if i !in kept && (best.None? || scores[best.value] < scores[i]) {
          best := Some(i);
        }
        i := i + 1;
      }
      assert free !in kept;
      assert forall j | 0 <= j < |scores| && j !in kept :: scores[j] <= scores[best.value];
      ghost var before := kept;
      kept := InsertSorted(kept, best.value);
      forall a | 0 <= a < |kept| ensures kept[a] < |scores| {
        assert kept[a] in kept;
      }
      forall a, j | 0 <= a < |kept| && 0 <= j < |scores| && j !in kept ensures scores[j] <= scores[kept[a]] {
        assert kept[a] in kept && j !in before;
        if kept[a] != best.value {
          var b :| 0 <= b < |before| && before[b] == kept[a];
        }
      }
    }
  }

  /** Where the survivors of a second selection sit in the whole list. */
  function Survivors(kept: seq<nat>, n: nat, added: nat, keep: seq<nat>): (r: seq<nat>)
    requires Below(keep, |kept| + added)
  {
    Select(kept + Range(n, added), keep)
  }

  lemma SurvivorsSelect<T>(all: seq<T>, kept: seq<nat>, added: seq<T>, keep: seq<nat>)
    requires Below(kept, |all|) && Below(keep, |kept| + |added|)
    ensures Below(Survivors(kept, |all|, |added|, keep), |all + added|)
    ensures Select(all + added, Survivors(kept, |all|, |added|, keep)) == Select(Select(all, kept) + added, keep)
  {
  }

  lemma SurvivorsInOrder(all: seq<real>, kept: seq<nat>, k: nat, added: seq<real>, keep: seq<nat>)
    requires IsTopK(all, kept, k)
    requires IsTopK(Select(all, kept) + added, keep, k)
    ensures var r := Survivors(kept, |all|, |added|, keep);
            && Increasing(r) && Below(r, |all + added|)
            && Select(all + added, r) == Select(Select(all, kept) + added, keep)
  {
    SurvivorsSelect(all, kept, added, keep);
  }

  /**
   * Keeping the best of (what was kept) + (what is new) keeps the best of everything:
   * a score dropped earlier can never be missed later.
   */
  lemma StreamingStep(all: seq<real>, kept: seq<nat>, k: nat, added: seq<real>, keep: seq<nat>)
    requires IsTopK(all, kept, k)
    requires IsTopK(Select(all, kept) + added, keep, k)
    ensures IsTopK(all + added, Survivors(kept, |all|, |added|, keep), k)
  {
    SurvivorsInOrder(all, kept, k, added, keep);
    var cand := Select(all, kept) + added;
    var ext := kept + Range(|all|, |added|);
    var r := Survivors(kept, |all|, |added|, keep);
    forall i, j | 0 <= i < |r| && 0 <= j < |all + added| && j !in r
      ensures (all + added)[j] <= (all + added)[r[i]]
    {
      assert (all + added)[r[i]] == cand[keep[i]];
      if j in ext {
        var e :| 0 <= e < |ext| && ext[e] == j;
        SelectMembers(ext, keep, e);
        assert e !in keep && cand[e] == (all + added)[j];
      } else {
        RangeMembers(|all|, |added|, j);
        assert j !in kept && j < |all|;
        DroppedStaysBeaten(all, kept, k, added, keep, i, j);
      }
    }
  }

  lemma DroppedStaysBeaten(all: seq<real>, kept: seq<nat>, k: nat, added: seq<real>, keep: seq<nat>, i: nat, j: nat)
    requires IsTopK(all, kept, k)
    requires IsTopK(Select(all, kept) + added, keep, k)
    requires i < |keep| && j < |all| && j !in kept
    ensures all[j] <= (Select(all, kept) + added)[keep[i]]
  {
    var cand := Select(all, kept) + added;
    if keep[i] < |kept| {
      assert cand[keep[i]] == all[kept[keep[i]]];
    } else {
      FullIsEverything(kept, |all|, j);
      IncreasingSpread(keep, i, |keep| - 1);
      var e := Gap(keep);
      assert cand[e] == all[kept[e]];
      assert cand[e] <= cand[keep[i]];
    }
  }

  /** The selected scores with index below `n`, as a multiset. */
  ghost function Bag(scores: seq<real>, kept: seq<nat>, n: nat): multiset<real>
    requires n <= |scores|
  {
    if n == 0 then multiset{}
    else Bag(scores, kept, n - 1) + if n - 1 in kept then multiset{scores[n - 1]} else multiset{}
  }

  /** `Bag` gathers exactly the selected scores. */
  lemma {:induction false} SelectBag(scores: seq<real>, kept: seq<nat>, n: nat)
    requires Increasing(kept) && Below(kept, n) && n <= |scores|
    ensures multiset(Select(scores, kept)) == Bag(scores, kept, n)
  {
    if n == 0 {
      assert Select(scores, kept) == [];
    } else {
      LastIsTop(kept, n);
      if n - 1 in kept {
        IncreasingPrefix(kept);
        SelectBag(scores, kept[..|kept| - 1], n - 1);
        LastJoins(scores, kept, n);
      } else {
        SelectBag(scores, kept, n - 1);
      }
      hide Increasing, Select, Below;
    }
  }

  lemma LastJoins(scores: seq<real>, kept: seq<nat>, n: nat)
    requires Increasing(kept) && Below(kept, n) && 0 < n <= |scores| && n - 1 in kept
    requires Below(kept[..|kept| - 1], n - 1)
    requires multiset(Select(scores, kept[..|kept| - 1])) == Bag(scores, kept[..|kept| - 1], n - 1)
    ensures multiset(Select(scores, kept)) == Bag(scores, kept, n)
  {
    LastIsTop(kept, n);
    hide Increasing, Select;
    SelectLast(scores, kept);
    SameBag(scores, kept[..|kept| - 1], kept, n - 1);
  }

  lemma IncreasingPrefix(s: seq<nat>)
    requires Increasing(s) && s != []
    ensures Increasing(s[..|s| - 1])
  {
  }

  lemma SelectLast(scores: seq<real>, kept: seq<nat>)
    requires Below(kept, |scores|) && kept != []
    ensures var last := |kept| - 1;
            multiset(Select(scores, kept)) == multiset(Select(scores, kept[..last])) + multiset{scores[kept[last]]}
  {
    assert Select(scores, kept) == Select(scores, kept[..|kept| - 1]) + [scores[kept[|kept| - 1]]];
  }

  lemma LastIsTop(kept: seq<nat>, n: nat)
    requires Increasing(kept) && Below(kept, n) && n > 0
    ensures n - 1 in kept ==> kept[|kept| - 1] == n - 1 && Below(kept[..|kept| - 1], n - 1)
    ensures n - 1 in kept ==> forall x: nat | x < n - 1 :: x in kept <==> x in kept[..|kept| - 1]
    ensures n - 1 !in kept ==> Below(kept, n - 1)
  {
    if n - 1 in kept {
      var p :| 0 <= p < |kept| && kept[p] == n - 1;
      assert kept[|kept| - 1] < n;
      assert kept == kept[..|kept| - 1] + [n - 1];
    } else {
      forall i | 0 <= i < |kept| ensures kept[i] < n - 1 {
        assert kept[i] in kept;
      }
    }
  }

  lemma {:induction false} SameBag(scores: seq<real>, a: seq<nat>, b: seq<nat>, n: nat)
    requires n <= |scores| && forall x: nat | x < n :: x in a <==> x in b
    ensures Bag(scores, a, n) == Bag(scores, b, n)
  {
    if n == 0 {
    } else {
      SameBag(scores, a, b, n - 1);
    }
  }

  /** How many indices below `n` are in `a` but not in `b`. */
  ghost function OnlyIn(a: seq<nat>, b: seq<nat>, n: nat): nat {
    if n == 0 then 0 else OnlyIn(a, b, n - 1) + if n - 1 in a && n - 1 !in b then 1 else 0
  }

  lemma {:induction false} OnlyInPositive(a: seq<nat>, b: seq<nat>, n: nat, x: nat)
    requires x < n && x in a && x !in b
    ensures OnlyIn(a, b, n) > 0
  {
    if x < n - 1 {
      OnlyInPositive(a, b, n - 1, x);
    }
  }

  lemma {:induction false} OnlyInWitness(a: seq<nat>, b: seq<nat>, n: nat) returns (x: nat)
    requires OnlyIn(a, b, n) > 0
    ensures x < n && x in a && x !in b
  {
    if n - 1 in a && n - 1 !in b {
      x := n - 1;
    } else {
      x := OnlyInWitness(a, b, n - 1);
    }
  }

  lemma {:induction false} BagSizes(scores: seq<real>, a: seq<nat>, b: seq<nat>, n: nat)
    requires n <= |scores|
    ensures |Bag(scores, a, n)| + OnlyIn(b, a, n) == |Bag(scores, b, n)| + OnlyIn(a, b, n)
  {
    if n == 0 {
    } else {
      BagSizes(scores, a, b, n - 1);
    }
  }

  /** Two selections that differ only in scores equal to `v` have the same multiplicity elsewhere. */
  lemma {:induction false} BagsDifferInOneScore(scores: seq<real>, a: seq<nat>, b: seq<nat>, v: real, n: nat, x: real)
    requires n <= |scores|
    requires forall i: nat | i < n && (i in a) != (i in b) :: scores[i] == v
    ensures Bag(scores, a, n)[x] + (if x == v then OnlyIn(b, a, n) else 0)
         == Bag(scores, b, n)[x] + (if x == v then OnlyIn(a, b, n) else 0)
  {
    if n == 0 {
    } else {
      BagsDifferInOneScore(scores, a, b, v, n - 1, x);
    }
  }

  /** Whatever the tie-break, the selected scores are the same multiset. */
  lemma TopKUnique(scores: seq<real>, a: seq<nat>, b: seq<nat>, k: nat)
    requires IsTopK(scores, a, k) && IsTopK(scores, b, k)
    ensures multiset(Select(scores, a)) == multiset(Select(scores, b))
  {
    var n := |scores|;
    SelectBag(scores, a, n);
    SelectBag(scores, b, n);
    BagSizes(scores, a, b, n);
    assert |multiset(Select(scores, a))| == |multiset(Select(scores, b))|;
    if OnlyIn(a, b, n) == 0 {
      forall x: nat | x < n ensures x in a <==> x in b {
        if x in a && x !in b { OnlyInPositive(a, b, n, x); }
        if x in b && x !in a { OnlyInPositive(b, a, n, x); }
      }
      SameBag(scores, a, b, n);
    } else {
      var x := OnlyInWitness(a, b, n);
      var y := OnlyInWitness(b, a, n);
      var v := scores[x];
      forall z: nat | z < n && (z in a) != (z in b) ensures scores[z] == v {
        if z in a { Beaten(scores, a, k, z, y); Beaten(scores, b, k, y, z); }
        else { Beaten(scores, b, k, z, x); Beaten(scores, a, k, x, z); }
        Beaten(scores, a, k, x, y); Beaten(scores, b, k, y, x);
      }
      forall s ensures Bag(scores, a, n)[s] == Bag(scores, b, n)[s] {
        BagsDifferInOneScore(scores, a, b, v, n, s);
      }
    }
  }

  lemma Beaten(scores: seq<real>, kept: seq<nat>, k: nat, x: nat, y: nat)
    requires IsTopK(scores, kept, k) && x in kept && y < |scores| && y !in kept
    ensures scores[y] <= scores[x]
  {
    var i :| 0 <= i < |kept| && kept[i] == x;
    assert scores[y] <= scores[kept[i]];
  }
}
