/**
 * The byte strings behind the workload fingerprints. The hash itself is a parameter; what matters
 * is that the bytes fed to it determine the prompts, and the outputs as a map, and nothing more.
 */
module Fingerprint {
  import opened Bytes
  import opened Lists

  datatype Error = BadRequestId | BoolToken | NotAnInteger | DuplicateIds | Overflow

  /** A running hash: its digest is a function of the bytes fed so far. */
  class Hasher {
    var fed: seq<byte>

    constructor ()
      ensures fed == []
    {
      fed := [];
    }

    method Update(block: seq<byte>)
      modifies this
      ensures fed == old(fed) + block
    {
      fed := fed + block;
    }
  }

  // ---- token lists --------------------------------------------------------

  predicate AllFit(tokens: seq<int>) { forall i | 0 <= i < |tokens| :: FitsSigned(tokens[i]) }

  function Tokens(tokens: seq<int>): (r: seq<byte>)
    requires AllFit(tokens)
    ensures |r| == 8 * |tokens|
  {
    if tokens == [] then [] else Tokens(tokens[..|tokens| - 1]) + Signed(tokens[|tokens| - 1])
  }

  /** A count and that many tokens. */
  predicate Encodable(tokens: seq<int>) { |tokens| < TWO_64 && AllFit(tokens) }

  function Counted(tokens: seq<int>): (r: seq<byte>)
    requires Encodable(tokens)
    ensures |r| == 8 + 8 * |tokens|
  {
    Unsigned(|tokens|) + Tokens(tokens)
  }

  function ReadTokens(bytes: seq<byte>, n: nat): (r: seq<int>)
    requires |bytes| == 8 * n
    ensures |r| == n && AllFit(r)
  {
    if n == 0 then []
    else
      FromSignedRoundTrip(bytes[8 * (n - 1)..]);
      ReadTokens(bytes[..8 * (n - 1)], n - 1) + [FromSigned(bytes[8 * (n - 1)..])]
  }

  lemma {:induction false} TokensRoundTrip(tokens: seq<int>)
    requires AllFit(tokens)
    ensures ReadTokens(Tokens(tokens), |tokens|) == tokens
  {
    hide Signed, FromSigned;
    if tokens == [] {
    } else {
      var n := |tokens| - 1;
      TokensRoundTrip(tokens[..n]);
      SignedRoundTrip(tokens[n]);
      assert Tokens(tokens)[..8 * n] == Tokens(tokens[..n]) && Tokens(tokens)[8 * n..] == Signed(tokens[n]);
    }
  }

  lemma {:induction false} ReadTokensRoundTrip(bytes: seq<byte>, n: nat)
    requires |bytes| == 8 * n
    ensures Tokens(ReadTokens(bytes, n)) == bytes
  {
    hide Signed, FromSigned;
    if n == 0 {
    } else {
      ReadTokensRoundTrip(bytes[..8 * (n - 1)], n - 1);
      FromSignedRoundTrip(bytes[8 * (n - 1)..]);
      var all := ReadTokens(bytes, n);
      assert all[..n - 1] == ReadTokens(bytes[..8 * (n - 1)], n - 1);
    }
  }

  /** A counted token list and what follows it. */
  function ReadCounted(bytes: seq<byte>): (r: Option<(seq<int>, seq<byte>)>)
    ensures r.Some? ==> Encodable(r.value.0) && |r.value.1| < |bytes|
  {
    if |bytes| < 8 then None
    else
      var n := FromLittle(bytes[..8]);
      CountFits(bytes[..8]);
      if |bytes| < 8 + 8 * n then None else Some((ReadTokens(bytes[8..8 + 8 * n], n), bytes[8 + 8 * n..]))
  }

  lemma CountFits(s: seq<byte>)
    requires |s| == 8
    ensures FromLittle(s) < TWO_64 && Unsigned(FromLittle(s)) == s
  {
    EightPlaces();
    FromLittleRoundTrip(s);
  }

  lemma CountedRoundTrip(tokens: seq<int>, rest: seq<byte>)
    requires Encodable(tokens)
    ensures ReadCounted(Counted(tokens) + rest) == Some((tokens, rest))
  {
    var bytes := Counted(tokens) + rest;
    UnsignedRoundTrip(|tokens|);
    TokensRoundTrip(tokens);
    assert bytes[..8] == Unsigned(|tokens|);
    assert bytes[8..8 + 8 * |tokens|] == Tokens(tokens);
    assert bytes[8 + 8 * |tokens|..] == rest;
  }

  lemma ReadCountedRoundTrip(bytes: seq<byte>)
    requires ReadCounted(bytes).Some?
    ensures Counted(ReadCounted(bytes).value.0) + ReadCounted(bytes).value.1 == bytes
  {
    var n := FromLittle(bytes[..8]);
    CountFits(bytes[..8]);
    ReadTokensRoundTrip(bytes[8..8 + 8 * n], n);
    assert bytes == bytes[..8] + bytes[8..8 + 8 * n] + bytes[8 + 8 * n..];
  }

  // ---- prompt sets --------------------------------------------------------

  predicate AllEncodable(prompts: seq<seq<int>>) { forall i | 0 <= i < |prompts| :: Encodable(prompts[i]) }

  /** What `prompt_set_fingerprint` hashes: one counted list after another, and no number of prompts. */
  function Prompts(prompts: seq<seq<int>>): seq<byte>
    requires AllEncodable(prompts)
  {
    if prompts == [] then [] else Counted(prompts[0]) + Prompts(prompts[1..])
  }

  function ReadPrompts(bytes: seq<byte>): (r: Option<seq<seq<int>>>)
    ensures r.Some? ==> AllEncodable(r.value)
    decreases |bytes|
  {
    if bytes == [] then Some([])
    else
      match ReadCounted(bytes)
      case None => None
      case Some((first, rest)) =>
        match ReadPrompts(rest)
        case None => None
        case Some(others) => Some([first] + others)
  }

  lemma {:induction false} PromptsRoundTrip(prompts: seq<seq<int>>)
    requires AllEncodable(prompts)
    ensures ReadPrompts(Prompts(prompts)) == Some(prompts)
  {
    hide Counted, ReadCounted, Encodable;
    if prompts == [] {
    } else {
      CountedRoundTrip(prompts[0], Prompts(prompts[1..]));
      PromptsRoundTrip(prompts[1..]);
      assert [prompts[0]] + prompts[1..] == prompts;
    }
  }

  lemma {:induction false} ReadPromptsRoundTrip(bytes: seq<byte>)
    requires ReadPrompts(bytes).Some?
    ensures Prompts(ReadPrompts(bytes).value) == bytes
    decreases |bytes|
  {
    if bytes == [] {
    } else {
      ReadCountedRoundTrip(bytes);
      var read := ReadCounted(bytes).value;
      ReadPromptsRoundTrip(read.1);
      assert ReadPrompts(bytes).value[1..] == ReadPrompts(read.1).value;
    }
  }

  /** Every byte string comes from at most one list of prompts, although their number is not written. */
  lemma PromptsAreDecodable(a: seq<seq<int>>, b: seq<seq<int>>)
    requires AllEncodable(a) && AllEncodable(b)
    ensures Prompts(a) == Prompts(b) <==> a == b
  {
    PromptsRoundTrip(a);
    PromptsRoundTrip(b);
  }

  lemma {:induction false} PromptsSnoc(prompts: seq<seq<int>>, last: seq<int>)
    requires AllEncodable(prompts) && Encodable(last)
    ensures AllEncodable(prompts + [last]) && Prompts(prompts + [last]) == Prompts(prompts) + Counted(last)
  {
    hide Counted, Encodable;
    if prompts == [] {
      assert prompts + [last] == [last];
    } else {
      assert AllEncodable(prompts[1..]);
      PromptsSnoc(prompts[1..], last);
      assert (prompts + [last])[1..] == prompts[1..] + [last];
    }
  }

  datatype PromptSet = PromptSet(lengths: seq<nat>, total: nat, digest: string)

  /** Feeds a counted token list block by block; fails on the first number that does not fit. */
  method FeedCounted(hasher: Hasher, tokens: seq<int>) returns (ok: bool)
    modifies hasher
    ensures ok <==> Encodable(tokens)
    ensures ok ==> hasher.fed == old(hasher.fed) + Counted(tokens)
  {
    if |tokens| >= TWO_64 {
      return false;
    }
    hasher.Update(Unsigned(|tokens|));
    var i := 0;
    assert tokens[..0] == [];
    while i < |tokens|
      invariant 0 <= i <= |tokens| && AllFit(tokens[..i])
      invariant hasher.fed == old(hasher.fed) + Unsigned(|tokens|) + Tokens(tokens[..i])
    {
      if !FitsSigned(tokens[i]) {
        return false;
      }
      hasher.Update(Signed(tokens[i]));
      assert tokens[..i + 1][..i] == tokens[..i];
      i := i + 1;
    }
    assert tokens[..i] == tokens;
    ok := true;
  }

  method PromptSetFingerprint(prompts: seq<seq<int>>, sha: seq<byte> -> string) returns (r: Result<PromptSet, Error>)
    ensures r.Ok? <==> AllEncodable(prompts)
    ensures r.Ok? ==>
      r.value.digest == sha(Prompts(prompts)) && |r.value.lengths| == |prompts|
        && r.value.total == Total(r.value.lengths)
    ensures r.Ok? ==> forall i | 0 <= i < |prompts| :: r.value.lengths[i] == |prompts[i]|
    ensures r.Err? ==> r.error == Overflow
  {
    hide Prompts, Encodable;
    var hasher := new Hasher();
    var lengths: seq<nat>, total := [], 0;
    PromptsNone();
    while |lengths| < |prompts|
      invariant |lengths| <= |prompts| && AllEncodable(prompts[..|lengths|]) && total == Total(lengths)
      invariant hasher.fed == Prompts(prompts[..|lengths|])
      invariant forall i | 0 <= i < |lengths| :: lengths[i] == |prompts[i]|
    {
      var prompt := prompts[|lengths|];
      var ok := FeedCounted(hasher, prompt);
      if !ok {
        return Err(Overflow);
      }
      PromptsSnoc(prompts[..|lengths|], prompt);
      assert prompts[..|lengths|] + [prompt] == prompts[..|lengths| + 1];
      assert (lengths + [|prompt|])[..|lengths|] == lengths;
      lengths, total := lengths + [|prompt|], total + |prompt|;
    }
    assert prompts[..|lengths|] == prompts;
    r := Ok(PromptSet(lengths, total, sha(hasher.fed)));
  }

  lemma PromptsNone()
    ensures Prompts([]) == []
  {
  }

  // ---- generated outputs: order by request id -----------------------------

  /** Lexicographic order of byte strings. */
  predicate Less(a: seq<byte>, b: seq<byte>) {
    b != [] && (a == [] || a[0] < b[0] || (a[0] == b[0] && Less(a[1..], b[1..])))
  }

  /** The strings agree up to place `k`, where the first one ends or has the smaller byte. */
  predicate PrecedesAt(a: seq<byte>, b: seq<byte>, k: nat) {
    k <= |a| && k < |b| && a[..k] == b[..k] && (k == |a| || a[k] < b[k])
  }

  ghost predicate Precedes(a: seq<byte>, b: seq<byte>) { exists k: nat :: PrecedesAt(a, b, k) }

  lemma {:induction false} LessIsPrecedes(a: seq<byte>, b: seq<byte>)
    ensures Less(a, b) <==> Precedes(a, b)
  {
    if a == [] || b == [] {
      assert b != [] ==> PrecedesAt(a, b, 0) || a != [];
    } else {
      LessIsPrecedes(a[1..], b[1..]);
      if a[0] < b[0] {
        assert PrecedesAt(a, b, 0);
      } else if a[0] == b[0] && Precedes(a[1..], b[1..]) {
        var k: nat :| PrecedesAt(a[1..], b[1..], k);
        PrecedesTail(a, b, k + 1);
      }
      if k: nat :| PrecedesAt(a, b, k) {
        if k > 0 {
          PrecedesTail(a, b, k);
        }
      }
    }
  }

  lemma PrecedesTail(a: seq<byte>, b: seq<byte>, k: nat)
    requires a != [] && b != [] && k > 0
    ensures PrecedesAt(a, b, k) <==> a[0] == b[0] && PrecedesAt(a[1..], b[1..], k - 1)
  {
    if k <= |a| && k <= |b| {
      assert a[..k] == [a[0]] + a[1..][..k - 1] && b[..k] == [b[0]] + b[1..][..k - 1];
      if a[..k] == b[..k] {
        assert a[..k][0] == b[..k][0] && a[..k][1..] == b[..k][1..];
      }
    }
  }

  lemma {:induction false} LessIsTotal(a: seq<byte>, b: seq<byte>)
    ensures Less(a, b) || a == b || Less(b, a)
    ensures !(Less(a, b) && Less(b, a)) && !Less(a, a)
  {
    if a != [] {
      LessIsTotal(a[1..], a[1..]);
    }
    if a != [] && b != [] {
      LessIsTotal(a[1..], b[1..]);
      assert a == [a[0]] + a[1..] && b == [b[0]] + b[1..];
    }
  }

  lemma {:induction false} LessTransitive(a: seq<byte>, b: seq<byte>, c: seq<byte>)
    requires Less(a, b) && Less(b, c)
    ensures Less(a, c)
  {
    if a != [] && a[0] == b[0] == c[0] {
      LessTransitive(a[1..], b[1..], c[1..]);
    }
  }

  /** One request: its id as UTF-8 bytes, and its output tokens. */
  datatype Entry = Entry(id: seq<byte>, tokens: seq<int>)

  ghost predicate Ordered(s: seq<Entry>) { forall i, j | 0 <= i < j < |s| :: !Less(s[j].id, s[i].id) }

  ghost predicate UniqueIds(s: seq<Entry>) { forall i, j | 0 <= i < j < |s| :: s[i].id != s[j].id }

  /** The place behind all entries that do not come after `e`. */
  function Place(s: seq<Entry>, e: Entry): (p: nat)
    ensures p <= |s| && forall i | p <= i < |s| :: Less(e.id, s[i].id)
    ensures p > 0 ==> !Less(e.id, s[p - 1].id)
  {
    if s == [] || !Less(e.id, s[|s| - 1].id) then |s| else Place(s[..|s| - 1], e)
  }

  function Sorted(items: seq<Entry>): (r: seq<Entry>)
    ensures |r| == |items|
  {
    if items == [] then []
    else
      var s, e := Sorted(items[..|items| - 1]), items[|items| - 1];
      s[..Place(s, e)] + [e] + s[Place(s, e)..]
  }

  lemma InsertKeepsOrdered(s: seq<Entry>, e: Entry)
    requires Ordered(s)
    ensures Ordered(s[..Place(s, e)] + [e] + s[Place(s, e)..])
  {
    var p := Place(s, e);
    var r := s[..p] + [e] + s[p..];
    forall i, j | 0 <= i < j < |r| ensures !Less(r[j].id, r[i].id) {
      if i < p && j == p {
        BeforePlace(s, e, i);
      } else if i == p {
        LessIsTotal(e.id, s[j - 1].id);
      }
    }
  }

  lemma BeforePlace(s: seq<Entry>, e: Entry, i: nat)
    requires Ordered(s) && i < Place(s, e)
    ensures !Less(e.id, s[i].id)
  {
    hide Less;
    var p := Place(s, e) - 1;
    if i < p {
      assert !Less(s[p].id, s[i].id);
      NotLessChain(e.id, s[p].id, s[i].id);
    }
  }

  /** What is not before the last of two in order is not before the first. */
  lemma NotLessChain(x: seq<byte>, last: seq<byte>, earlier: seq<byte>)
    requires !Less(x, last) && !Less(last, earlier)
    ensures !Less(x, earlier)
  {
    hide Less;
    LessIsTotal(earlier, last);
    if Less(x, earlier) && earlier != last {
      LessTransitive(x, earlier, last);
    }
  }

  lemma InsertBag(s: seq<Entry>, p: nat, e: Entry)
    requires p <= |s|
    ensures multiset(s[..p] + [e] + s[p..]) == multiset(s) + multiset{e}
  {
    assert s == s[..p] + s[p..];
  }

  lemma {:induction false} SortedIsOrdered(items: seq<Entry>)
    ensures Ordered(Sorted(items)) && multiset(Sorted(items)) == multiset(items)
  {
    hide Ordered, Less, Place;
    if items == [] {
      NothingIsOrdered();
    } else {
      var most, e := items[..|items| - 1], items[|items| - 1];
      SortedIsOrdered(most);
      InsertKeepsOrdered(Sorted(most), e);
      InsertBag(Sorted(most), Place(Sorted(most), e), e);
      assert items == most + [e];
    }
  }

  lemma NothingIsOrdered()
    ensures Ordered([])
  {
  }

  method FindPlace(s: seq<Entry>, e: Entry) returns (p: nat)
    ensures p == Place(s, e)
  {
    hide Less;
    p := |s|;
    assert s[..p] == s;
    while p > 0 && Less(e.id, s[p - 1].id)
      invariant 0 <= p <= |s| && Place(s[..p], e) == Place(s, e)
    {
      assert s[..p][..p - 1] == s[..p - 1];
      p := p - 1;
    }
  }

  /** `list.sort` with the encoded id as key. */
  method SortById(items: seq<Entry>) returns (r: seq<Entry>)
    ensures r == Sorted(items)
  {
    hide Less, Place;
    r := [];
    var n := 0;
    while n < |items|
      invariant 0 <= n <= |items| && r == Sorted(items[..n])
    {
      var p := FindPlace(r, items[n]);
      assert items[..n + 1][..n] == items[..n];
      r := r[..p] + [items[n]] + r[p..];
      n := n + 1;
    }
    assert items[..n] == items;
  }

  // ---- generated outputs: what is hashed ----------------------------------

  /** A list with distinct ids as a map from id to tokens. */
  function AsMap(items: seq<Entry>): map<seq<byte>, seq<int>> {
    if items == [] then map[] else AsMap(items[..|items| - 1])[items[|items| - 1].id := items[|items| - 1].tokens]
  }

  lemma {:induction false} AsMapHolds(items: seq<Entry>, id: seq<byte>, tokens: seq<int>)
    requires UniqueIds(items)
    ensures Entry(id, tokens) in items <==> id in AsMap(items) && AsMap(items)[id] == tokens
  {
    if items == [] {
    } else {
      var n := |items| - 1;
      AsMapHolds(items[..n], id, tokens);
      assert items == items[..n] + [items[n]];
      if items[n].id == id && id in AsMap(items[..n]) {
        AsMapHolds(items[..n], id, AsMap(items[..n])[id]);
      }
    }
  }

  lemma SameMapMeansSameEntries(a: seq<Entry>, b: seq<Entry>)
    requires UniqueIds(a) && UniqueIds(b)
    ensures AsMap(a) == AsMap(b) <==> forall e: Entry :: e in a <==> e in b
  {
    if AsMap(a) == AsMap(b) {
      forall e: Entry ensures e in a <==> e in b {
        AsMapHolds(a, e.id, e.tokens);
        AsMapHolds(b, e.id, e.tokens);
        assert e == Entry(e.id, e.tokens);
      }
    }
    if forall e: Entry :: e in a <==> e in b {
      SameEntriesMeansSubmap(a, b);
      SameEntriesMeansSubmap(b, a);
    }
  }

  lemma SameEntriesMeansSubmap(a: seq<Entry>, b: seq<Entry>)
    requires UniqueIds(a) && UniqueIds(b) && forall e: Entry :: e in a <==> e in b
    ensures forall id | id in AsMap(a) :: id in AsMap(b) && AsMap(b)[id] == AsMap(a)[id]
  {
    forall id | id in AsMap(a) ensures id in AsMap(b) && AsMap(b)[id] == AsMap(a)[id] {
      AsMapHolds(a, id, AsMap(a)[id]);
      AsMapHolds(b, id, AsMap(a)[id]);
    }
  }

  /** Ordered with distinct ids is strictly ordered, so there is only one way to list a set of entries. */
  lemma {:induction false} OneOrder(a: seq<Entry>, b: seq<Entry>)
    requires Ordered(a) && Ordered(b) && UniqueIds(a) && UniqueIds(b)
    requires forall e: Entry :: e in a <==> e in b
    ensures a == b
  {
    hide Less;
    if a == [] {
      if b != [] {
        NotEmpty(b, a);
      }
    } else {
      NotEmpty(a, b);
      assert b[0] in a;
      FirstIsLeast(a, b);
      TailEntries(a, b);
      OneOrder(a[1..], b[1..]);
      assert a == [a[0]] + a[1..] && b == [b[0]] + b[1..];
    }
  }

  lemma NotEmpty(a: seq<Entry>, b: seq<Entry>)
    requires a != [] && forall e: Entry :: e in a <==> e in b
    ensures b != [] && a[0] in b
  {
    assert a[0] in a;
  }

  lemma FirstIsLeast(a: seq<Entry>, b: seq<Entry>)
    requires Ordered(a) && Ordered(b) && UniqueIds(a) && a != [] && b != [] && a[0] in b && b[0] in a
    ensures a[0] == b[0]
  {
    LessIsTotal(a[0].id, b[0].id);
    var i :| 0 <= i < |a| && a[i] == b[0];
    var j :| 0 <= j < |b| && b[j] == a[0];
  }

  lemma TailEntries(a: seq<Entry>, b: seq<Entry>)
    requires a != [] && b != [] && a[0] == b[0] && UniqueIds(a) && UniqueIds(b) && forall e: Entry :: e in a <==> e in b
    ensures forall e: Entry :: e in a[1..] <==> e in b[1..]
  {
    forall e: Entry ensures e in a[1..] <==> e in b[1..] {
      InTail(a, e);
      InTail(b, e);
    }
  }

  lemma InTail(a: seq<Entry>, e: Entry)
    requires a != [] && UniqueIds(a)
    ensures e in a[1..] <==> e in a && e != a[0]
  {
  }

  lemma SortedKeepsEntries(items: seq<Entry>)
    requires UniqueIds(items)
    ensures UniqueIds(Sorted(items)) && forall e: Entry :: e in Sorted(items) <==> e in items
  {
    SortedIsOrdered(items);
    SameBagDistinct(items, Sorted(items));
    forall e: Entry ensures e in Sorted(items) <==> e in items {
      assert e in multiset(Sorted(items)) <==> e in multiset(items);
    }
  }

  lemma {:induction false} DistinctCounts(items: seq<Entry>)
    requires UniqueIds(items)
    ensures forall e | e in items :: multiset(items)[e] == 1
  {
    if items == [] {
    } else {
      var n := |items| - 1;
      DistinctCounts(items[..n]);
      assert items == items[..n] + [items[n]];
      assert items[n] !in items[..n];
    }
  }

  // ---- the bytes ----------------------------------------------------------

  const SCHEMA: string := "wkvm.generated_output_token_ids.sha256.v1"

  function Ascii(s: string): (r: seq<byte>)
    ensures |r| == |s|
  {
    seq(|s|, i requires 0 <= i < |s| => (s[i] as int) % 256)
  }

  predicate EntryEncodable(e: Entry) { |e.id| < TWO_64 && Encodable(e.tokens) }

  predicate EntriesEncodable(s: seq<Entry>) { forall i | 0 <= i < |s| :: EntryEncodable(s[i]) }

  function EntryBytes(e: Entry): seq<byte>
    requires EntryEncodable(e)
  {
    Unsigned(|e.id|) + e.id + Counted(e.tokens)
  }

  function EntriesBytes(s: seq<Entry>): seq<byte>
    requires EntriesEncodable(s)
  {
    if s == [] then [] else EntryBytes(s[0]) + EntriesBytes(s[1..])
  }

  function Header(count: nat): (r: seq<byte>)
    requires count < TWO_64
    ensures |r| == |SCHEMA| + 9
  {
    Ascii(SCHEMA) + [0] + Unsigned(count)
  }

  /** What `generated_output_fingerprint` hashes for a list of requests. */
  function Preimage(items: seq<Entry>): seq<byte>
    requires EntriesEncodable(items) && |items| < TWO_64
  {
    SortedEncodable(items);
    Header(|items|) + EntriesBytes(Sorted(items))
  }

  lemma SortedEncodable(items: seq<Entry>)
    requires EntriesEncodable(items)
    ensures EntriesEncodable(Sorted(items))
  {
    SortedIsOrdered(items);
    SameBagEncodable(items, Sorted(items));
  }

  function ReadEntry(bytes: seq<byte>): Option<(Entry, seq<byte>)> {
    if |bytes| < 8 || |bytes| < 8 + FromLittle(bytes[..8]) then None
    else
      var n := FromLittle(bytes[..8]);
      match ReadCounted(bytes[8 + n..])
      case None => None
      case Some((tokens, rest)) => Some((Entry(bytes[8..8 + n], tokens), rest))
  }

  lemma EntryRoundTrip(e: Entry, rest: seq<byte>)
    requires EntryEncodable(e)
    ensures ReadEntry(EntryBytes(e) + rest) == Some((e, rest))
  {
    hide Counted, ReadCounted, Encodable, FromLittle;
    var bytes := EntryBytes(e) + rest;
    UnsignedRoundTrip(|e.id|);
    CountedRoundTrip(e.tokens, rest);
    assert bytes[..8] == Unsigned(|e.id|) && bytes[8..8 + |e.id|] == e.id;
    assert bytes[8 + |e.id|..] == Counted(e.tokens) + rest;
  }

  /** Equal bytes come from equal lists of entries. */
  lemma {:induction false} EntriesDecodable(a: seq<Entry>, b: seq<Entry>)
    requires EntriesEncodable(a) && EntriesEncodable(b) && |a| == |b| && EntriesBytes(a) == EntriesBytes(b)
    ensures a == b
  {
    hide EntryBytes, ReadEntry, EntryEncodable;
    if a == [] {
    } else {
      EntryRoundTrip(a[0], EntriesBytes(a[1..]));
      EntryRoundTrip(b[0], EntriesBytes(b[1..]));
      EntriesDecodable(a[1..], b[1..]);
      assert a == [a[0]] + a[1..] && b == [b[0]] + b[1..];
    }
  }

  /** Requests that the fingerprint accepts, once their tokens are read as integers. */
  ghost predicate Acceptable(items: seq<Entry>) {
    EntriesEncodable(items) && |items| < TWO_64 && UniqueIds(items)
  }

  /** The bytes hashed for two request lists agree exactly when the lists are the same map from id to tokens. */
  lemma PreimageIsTheMap(a: seq<Entry>, b: seq<Entry>)
    requires Acceptable(a) && Acceptable(b)
    ensures Preimage(a) == Preimage(b) <==> AsMap(a) == AsMap(b)
  {
    SortedIsOrdered(a);
    SortedIsOrdered(b);
    SortedKeepsEntries(a);
    SortedKeepsEntries(b);
    SortedEncodable(a);
    SortedEncodable(b);
    hide Sorted, Less, AsMap, Ordered, EntriesBytes, EntryEncodable, Header;
    SameMapMeansSameEntries(a, b);
    if AsMap(a) == AsMap(b) {
      OneOrder(Sorted(a), Sorted(b));
    }
    if Preimage(a) == Preimage(b) {
      SplitPreimage(a, b);
      EntriesDecodable(Sorted(a), Sorted(b));
    }
  }

  lemma SplitPreimage(a: seq<Entry>, b: seq<Entry>)
    requires EntriesEncodable(a) && |a| < TWO_64 && EntriesEncodable(b) && |b| < TWO_64 && Preimage(a) == Preimage(b)
    ensures EntriesEncodable(Sorted(a)) && EntriesEncodable(Sorted(b))
    ensures |a| == |b| && EntriesBytes(Sorted(a)) == EntriesBytes(Sorted(b))
  {
    SortedEncodable(a);
    SortedEncodable(b);
    hide Sorted, EntriesBytes, Ascii;
    var h := |SCHEMA| + 9;
    assert Preimage(a)[..h] == Header(|a|) && Preimage(b)[..h] == Header(|b|);
    assert Preimage(a)[h..] == EntriesBytes(Sorted(a)) && Preimage(b)[h..] == EntriesBytes(Sorted(b));
    assert Header(|a|)[h - 8..] == Unsigned(|a|) && Header(|b|)[h - 8..] == Unsigned(|b|);
    UnsignedRoundTrip(|a|);
    UnsignedRoundTrip(|b|);
  }

  /** So the order in which requests are listed does not matter. */
  lemma OrderDoesNotMatter(a: seq<Entry>, b: seq<Entry>)
    requires Acceptable(a) && multiset(a) == multiset(b)
    ensures Acceptable(b) && Preimage(a) == Preimage(b)
  {
    SameBag(a, b);
    SameMapMeansSameEntries(a, b);
    hide Preimage, AsMap;
    PreimageIsTheMap(a, b);
  }

  lemma SameBag(a: seq<Entry>, b: seq<Entry>)
    requires Acceptable(a) && multiset(a) == multiset(b)
    ensures Acceptable(b) && forall e: Entry :: e in a <==> e in b
  {
    hide EntryEncodable;
    forall e: Entry ensures e in a <==> e in b {
      assert e in multiset(a) <==> e in multiset(b);
    }
    assert |b| == |multiset(b)| == |multiset(a)| == |a|;
    SameBagDistinct(a, b);
    SameBagEncodable(a, b);
  }

  // ---- generated outputs: the method --------------------------------------

  /** A token as the caller gives it; `Index` is anything that reads as an integer and is no bool. */
  datatype RawToken = Index(value: int) | Boolean | NoIndex

  /** A request as the caller gives it; an id that is no string is `None`. */
  datatype Request = Request(id: Option<seq<byte>>, tokens: seq<RawToken>)

  predicate WellFormed(q: Request) {
    q.id.Some? && q.id.value != [] && forall i | 0 <= i < |q.tokens| :: q.tokens[i].Index?
  }

  function Values(tokens: seq<RawToken>): (r: seq<int>)
    requires forall i | 0 <= i < |tokens| :: tokens[i].Index?
    ensures |r| == |tokens|
  {
    seq(|tokens|, i requires 0 <= i < |tokens| => tokens[i].value)
  }

  function Normal(requests: seq<Request>): (r: seq<Entry>)
    requires forall i | 0 <= i < |requests| :: WellFormed(requests[i])
    ensures |r| == |requests|
  {
    seq(|requests|, i requires 0 <= i < |requests| && WellFormed(requests[i]) =>
        Entry(requests[i].id.value, Values(requests[i].tokens)))
  }

  method NormalizeTokens(tokens: seq<RawToken>) returns (r: Result<seq<int>, Error>)
    ensures r.Ok? <==> forall i | 0 <= i < |tokens| :: tokens[i].Index?
    ensures r.Ok? ==> r.value == Values(tokens)
    ensures r.Err? ==> r.error == BoolToken || r.error == NotAnInteger
  {
    var out := [];
    while |out| < |tokens|
      invariant |out| <= |tokens|
      invariant forall i | 0 <= i < |out| :: tokens[i].Index? && out[i] == tokens[i].value
    {
      match tokens[|out|]
      case Boolean => return Err(BoolToken);
      case NoIndex => return Err(NotAnInteger);
      case Index(v) => out := out + [v];
    }
    r := Ok(out);
  }

  method Normalize(requests: seq<Request>) returns (r: Result<seq<Entry>, Error>)
    ensures r.Ok? <==> forall i | 0 <= i < |requests| :: WellFormed(requests[i])
    ensures r.Ok? ==> r.value == Normal(requests)
    ensures r.Err? ==> r.error == BadRequestId || r.error == BoolToken || r.error == NotAnInteger
  {
    var out: seq<Entry> := [];
    while |out| < |requests|
      invariant |out| <= |requests| && forall i | 0 <= i < |out| :: WellFormed(requests[i])
      invariant forall i | 0 <= i < |out| :: out[i] == Entry(requests[i].id.value, Values(requests[i].tokens))
    {
      var q := requests[|out|];
      if q.id.None? || q.id.value == [] {
        return Err(BadRequestId);
      }
      var tokens := NormalizeTokens(q.tokens);
      if tokens.Err? {
        return Err(tokens.error);
      }
      out := out + [Entry(q.id.value, tokens.value)];
    }
    r := Ok(out);
  }

  method AllDistinct(items: seq<Entry>) returns (distinct: bool)
    ensures distinct <==> UniqueIds(items)
  {
    var seen := {};
    var n := 0;
    while n < |items|
      invariant 0 <= n <= |items| && UniqueIds(items[..n])
      invariant forall id :: id in seen <==> exists i :: 0 <= i < n && items[i].id == id
    {
      if items[n].id in seen {
        return false;
      }
      seen := seen + {items[n].id};
      n := n + 1;
    }
    assert items[..n] == items;
    distinct := true;
  }

  lemma {:induction false} EntriesSnoc(s: seq<Entry>, e: Entry)
    requires EntriesEncodable(s) && EntryEncodable(e)
    ensures EntriesEncodable(s + [e]) && EntriesBytes(s + [e]) == EntriesBytes(s) + EntryBytes(e)
  {
    hide EntryBytes, EntryEncodable;
    if s == [] {
      assert s + [e] == [e];
    } else {
      assert EntriesEncodable(s[1..]);
      EntriesSnoc(s[1..], e);
      assert (s + [e])[1..] == s[1..] + [e];
    }
  }

  method FeedEntry(hasher: Hasher, e: Entry) returns (ok: bool)
    modifies hasher
    ensures ok <==> EntryEncodable(e)
    ensures ok ==> hasher.fed == old(hasher.fed) + EntryBytes(e)
  {
    if |e.id| >= TWO_64 {
      return false;
    }
    hasher.Update(Unsigned(|e.id|));
    hasher.Update(e.id);
    ok := FeedCounted(hasher, e.tokens);
  }

  method FeedEntries(hasher: Hasher, s: seq<Entry>) returns (ok: bool)
    modifies hasher
    ensures ok <==> EntriesEncodable(s)
    ensures ok ==> hasher.fed == old(hasher.fed) + EntriesBytes(s)
  {
    hide EntryBytes, EntryEncodable;
    var n := 0;
    while n < |s|
      invariant 0 <= n <= |s| && EntriesEncodable(s[..n])
      invariant hasher.fed == old(hasher.fed) + EntriesBytes(s[..n])
    {
      var fed := FeedEntry(hasher, s[n]);
      if !fed {
        return false;
      }
      EntriesSnoc(s[..n], s[n]);
      assert s[..n] + [s[n]] == s[..n + 1];
      n := n + 1;
    }
    assert s[..n] == s;
    ok := true;
  }

  datatype OutputSet = OutputSet(requestIds: seq<seq<byte>>, counts: seq<nat>, digest: string)

  /**
   * It fails exactly on ill-formed requests, then on repeated ids, then on numbers that do not fit;
   * else it lists ids and counts in id order and hashes the preimage of the normal form.
   */
  method GeneratedOutputFingerprint(requests: seq<Request>, sha: seq<byte> -> string)
    returns (r: Result<OutputSet, Error>)
    ensures r.Ok? <==> (forall i | 0 <= i < |requests| :: WellFormed(requests[i])) && Acceptable(Normal(requests))
    ensures r == Err(DuplicateIds) <==>
      (forall i | 0 <= i < |requests| :: WellFormed(requests[i])) && !UniqueIds(Normal(requests))
    ensures r == Err(Overflow) <==>
      (forall i | 0 <= i < |requests| :: WellFormed(requests[i])) && UniqueIds(Normal(requests))
        && !Acceptable(Normal(requests))
    ensures r.Ok? ==> r.value.digest == sha(Preimage(Normal(requests)))
    ensures r.Ok? ==> |r.value.requestIds| == |r.value.counts| == |requests|
    ensures r.Ok? ==> forall i | 0 <= i < |requests| ::
      r.value.requestIds[i] == Sorted(Normal(requests))[i].id
        && r.value.counts[i] == |Sorted(Normal(requests))[i].tokens|
    ensures r.Ok? ==> forall i, j | 0 <= i < j < |requests| :: Precedes(r.value.requestIds[i], r.value.requestIds[j])
  {
    hide WellFormed, Sorted, EntryEncodable, Less, EntriesBytes, Precedes;
    var normal := Normalize(requests);
    if normal.Err? {
      return Err(normal.error);
    }
    var items := normal.value;
    var sorted := SortById(items);
    SortedDistinct(items);
    var distinct := AllDistinct(sorted);
    if !distinct {
      return Err(DuplicateIds);
    }
    if |sorted| >= TWO_64 {
      return Err(Overflow);
    }
    var hasher := new Hasher();
    hasher.Update(Ascii(SCHEMA) + [0]);
    hasher.Update(Unsigned(|sorted|));
    var ok := FeedEntries(hasher, sorted);
    SortedEncodableIff(items);
    if !ok {
      return Err(Overflow);
    }
    assert hasher.fed == Header(|items|) + EntriesBytes(sorted);
    assert hasher.fed == Preimage(items);
    IdsAscend(items);
    r := Ok(OutputSet(seq(|sorted|, i requires 0 <= i < |sorted| => sorted[i].id),
                      seq(|sorted|, i requires 0 <= i < |sorted| => |sorted[i].tokens|), sha(hasher.fed)));
  }

  /** The ids come in ascending lexicographic order of their bytes, which is that of the code points. */
  lemma IdsAscend(items: seq<Entry>)
    requires UniqueIds(Sorted(items))
    ensures |Sorted(items)| == |items|
    ensures forall i, j | 0 <= i < j < |items| :: Precedes(Sorted(items)[i].id, Sorted(items)[j].id)
  {
    hide Less, Precedes, Sorted;
    SortedIsOrdered(items);
    var s := Sorted(items);
    forall i, j | 0 <= i < j < |items| ensures Precedes(s[i].id, s[j].id) {
      LessIsTotal(s[i].id, s[j].id);
      LessIsPrecedes(s[i].id, s[j].id);
    }
  }

  lemma SortedDistinct(items: seq<Entry>)
    ensures UniqueIds(Sorted(items)) <==> UniqueIds(items)
  {
    SortedIsOrdered(items);
    if UniqueIds(items) {
      SameBagDistinct(items, Sorted(items));
    }
    if UniqueIds(Sorted(items)) {
      SameBagDistinct(Sorted(items), items);
    }
  }

  lemma SameBagDistinct(a: seq<Entry>, b: seq<Entry>)
    requires multiset(a) == multiset(b) && UniqueIds(a)
    ensures UniqueIds(b)
  {
    DistinctCounts(a);
    forall i, j | 0 <= i < j < |b| ensures b[i].id != b[j].id {
      assert b[i] in multiset(b) && b[j] in multiset(b);
      assert b[i] in a && b[j] in a;
      if b[i] == b[j] {
        TwiceCounted(b, i, j);
      }
    }
  }

  lemma SameBagEncodable(a: seq<Entry>, b: seq<Entry>)
    requires multiset(a) == multiset(b) && EntriesEncodable(a)
    ensures EntriesEncodable(b)
  {
    forall i | 0 <= i < |b| ensures EntryEncodable(b[i]) {
      assert b[i] in multiset(b);
      assert b[i] in a;
    }
  }

  lemma SortedEncodableIff(items: seq<Entry>)
    ensures EntriesEncodable(Sorted(items)) <==> EntriesEncodable(items)
  {
    SortedIsOrdered(items);
    if EntriesEncodable(items) {
      SameBagEncodable(items, Sorted(items));
    }
    if EntriesEncodable(Sorted(items)) {
      SameBagEncodable(Sorted(items), items);
    }
  }
}
