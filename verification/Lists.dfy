/** Sequence vocabulary shared by the cache layers. */
module Lists {

  datatype Option<+T> = None | Some(value: T)

  datatype Result<+T, +E> = Ok(value: T) | Err(error: E)

  function Min(a: int, b: int): int { if a <= b then a else b }

  function Max(a: int, b: int): int { if a >= b then a else b }

  /** start, start + 1, ..., start + n - 1. */
  function Range(start: nat, n: nat): (r: seq<nat>)
    ensures |r| == n && forall i | 0 <= i < n :: r[i] == start + i
  {
    seq(n, i requires 0 <= i => start + i)
  }

  predicate Increasing(s: seq<nat>) {
    forall i, j | 0 <= i < j < |s| :: s[i] < s[j]
  }

  predicate Below(s: seq<nat>, n: nat) {
    forall i | 0 <= i < |s| :: s[i] < n
  }

  lemma InsertKeepsOrder(s: seq<nat>, p: nat, x: nat)
    requires Increasing(s) && p <= |s|
    requires (forall i | 0 <= i < p :: s[i] < x) && forall i | p <= i < |s| :: x < s[i]
    ensures Increasing(s[..p] + [x] + s[p..])
  {
    var r := s[..p] + [x] + s[p..];
    forall i, j | 0 <= i < j < |r| ensures r[i] < r[j] {
      assert r[i] == if i < p then s[i] else if i == p then x else s[i - 1];
      assert r[j] == if j < p then s[j] else if j == p then x else s[j - 1];
    }
  }

  lemma InsertMembers(s: seq<nat>, p: nat, x: nat, y: nat)
    requires p <= |s|
    ensures y in s[..p] + [x] + s[p..] <==> y in s || y == x
  {
    assert s == s[..p] + s[p..];
  }

  /** The entries of `xs` at the positions listed in `idx`, in that order. */
  function Select<T>(xs: seq<T>, idx: seq<nat>): (r: seq<T>)
    requires Below(idx, |xs|)
    ensures |r| == |idx| && forall i | 0 <= i < |idx| :: r[i] == xs[idx[i]]
  {
    seq(|idx|, i requires 0 <= i < |idx| => xs[idx[i]])
  }

  lemma Associative<T>(a: seq<T>, b: seq<T>, c: seq<T>)
    ensures a + b + c == a + (b + c)
  {
  }

  function Flatten<T>(xss: seq<seq<T>>): seq<T> {
    if xss == [] then [] else Flatten(xss[..|xss| - 1]) + xss[|xss| - 1]
  }

  lemma {:induction false} FlattenConcat<T>(a: seq<seq<T>>, b: seq<seq<T>>)
    ensures Flatten(a + b) == Flatten(a) + Flatten(b)
  {
    if b == [] {
      assert a + b == a;
    } else {
      assert (a + b)[..|a + b| - 1] == a + b[..|b| - 1];
      FlattenConcat(a, b[..|b| - 1]);
    }
  }

  /** The entries of `xs` whose label is `s`, in order. */
  function Pick<T>(xs: seq<T>, labels: seq<nat>, s: nat): seq<T>
    requires |xs| == |labels|
  {
    if xs == [] then []
    else
      var n := |xs| - 1;
      Pick(xs[..n], labels[..n], s) + if labels[n] == s then [xs[n]] else []
  }

  lemma {:induction false} PickConcat<T>(a: seq<T>, la: seq<nat>, b: seq<T>, lb: seq<nat>, s: nat)
    requires |a| == |la| && |b| == |lb|
    ensures Pick(a + b, la + lb, s) == Pick(a, la, s) + Pick(b, lb, s)
  {
    if b == [] {
      assert a + b == a && la + lb == la;
    } else {
      var n := |b| - 1;
      assert (a + b)[..|a + b| - 1] == a + b[..n];
      assert (la + lb)[..|a + b| - 1] == la + lb[..n];
      PickConcat(a, la, b[..n], lb[..n], s);
    }
  }

  /** Every picked entry carries the label, whatever the entries are. */
  lemma {:induction false} PickUniform<T>(xs: seq<T>, labels: seq<nat>, tag: nat, s: nat)
    requires |xs| == |labels| && forall i | 0 <= i < |labels| :: labels[i] == tag
    ensures Pick(xs, labels, s) == if tag == s then xs else []
  {
    if xs == [] {
    } else {
      PickUniform(xs[..|xs| - 1], labels[..|xs| - 1], tag, s);
    }
  }

  function Total(ns: seq<nat>): nat {
    if ns == [] then 0 else Total(ns[..|ns| - 1]) + ns[|ns| - 1]
  }

  /** One chunk per layer, all of one length. */
  predicate Fits<T>(round: seq<seq<T>>, layers: nat) {
    |round| == layers && forall i | 0 <= i < |round| :: |round[i]| == |round[0]|
  }

  /** The chunks layer `i` gets over a run of forward passes. */
  function Column<T>(rounds: seq<seq<seq<T>>>, i: nat): seq<T> {
    if rounds == [] then []
    else
      var last := rounds[|rounds| - 1];
      Column(rounds[..|rounds| - 1], i) + if i < |last| then last[i] else []
  }

  /** The entries that a mask shows. */
  function Visible<T>(row: seq<T>, mask: seq<bool>): seq<T>
    requires |row| == |mask|
  {
    if row == [] then []
    else
      var n := |row| - 1;
      Visible(row[..n], mask[..n]) + if mask[n] then [row[n]] else []
  }

  lemma TwiceCounted<T>(s: seq<T>, i: nat, j: nat)
    requires i < j < |s| && s[i] == s[j]
    ensures multiset(s)[s[i]] >= 2
  {
    assert s == s[..j] + [s[j]] + s[j + 1..];
    assert s[i] in s[..j];
  }
}
