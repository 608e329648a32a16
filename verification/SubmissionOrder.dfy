/**
 * The order in which a benchmark turn submits its sessions: forward, alternating, or shuffled by a
 * seeded generator. The order must be undone exactly, so that it never leaks into the histories.
 */
module SubmissionOrder {
  import opened Lists

  datatype Error = NoSessions | NegativeTurn | UnknownPolicy | LengthsDiffer | NotAPermutation

  const WORD := 0x1_0000_0000

  // ---- the orders ---------------------------------------------------------

  /** One step of the generator. */
  function NextState(state: nat): (s: nat)
    ensures s < WORD
  {
    (state * 1_664_525 + 1_013_904_223) % WORD
  }

  /** The generator can be run backwards: no two states have the same successor. */
  lemma StepsBack(state: nat)
    requires state < WORD
    ensures (NextState(state) - 1_013_904_223) * 4_276_115_653 % WORD == state
  {
    var q := (state * 1_664_525 + 1_013_904_223) / WORD;
    assert NextState(state) == state * 1_664_525 + 1_013_904_223 - WORD * q;
    var turns := state * 1_657_219 - q * 4_276_115_653;
    assert (NextState(state) - 1_013_904_223) * 4_276_115_653 == state + WORD * turns;
  }

  function LowWord(x: int): bv32 { (x % WORD) as bv32 }

  /** Exclusive or of integers of any size and sign, cut to 32 bits. */
  function FirstState(count: nat, turn: nat, seed: int): nat {
    (LowWord(seed) ^ LowWord((turn + 1) * 0x9E37_79B1) ^ LowWord(count * 0x85EB_CA77)) as int
  }

  function Swap(s: seq<nat>, i: nat, j: nat): (r: seq<nat>)
    requires i < |s| && j < |s|
    ensures |r| == |s|
  {
    s[i := s[j]][j := s[i]]
  }

  /** The swaps at positions index, index - 1, ..., 1. */
  function Shuffle(s: seq<nat>, state: nat, index: nat): (r: seq<nat>)
    requires index < |s|
    ensures |r| == |s|
    decreases index
  {
    if index == 0 then s
    else Shuffle(Swap(s, index, NextState(state) % (index + 1)), NextState(state), index - 1)
  }

  function Reversed(s: seq<nat>): (r: seq<nat>)
    ensures |r| == |s|
  {
    seq(|s|, i requires 0 <= i < |s| => s[|s| - 1 - i])
  }

  predicate KnownPolicy(policy: string) { policy in ["forward", "alternating", "seeded-shuffle"] }

  function Order(count: nat, turn: nat, policy: string, seed: int): (r: seq<nat>)
    requires count >= 1 && KnownPolicy(policy)
    ensures |r| == count
  {
    if policy == "forward" then Range(0, count)
    else if policy == "alternating" then if turn % 2 == 0 then Range(0, count) else Reversed(Range(0, count))
    else Shuffle(Range(0, count), FirstState(count, turn, seed), count - 1)
  }

  /** Every index below `|s|` exactly once. */
  ghost predicate Permutation(s: seq<nat>) {
    Below(s, |s|) && forall i, j | 0 <= i < j < |s| :: s[i] != s[j]
  }

  lemma SwapKeepsPermutation(s: seq<nat>, i: nat, j: nat)
    requires Permutation(s) && i < |s| && j < |s|
    ensures Permutation(Swap(s, i, j))
  {
  }

  lemma {:induction false} ShuffleKeepsPermutation(s: seq<nat>, state: nat, index: nat)
    requires Permutation(s) && index < |s|
    ensures Permutation(Shuffle(s, state, index))
    decreases index
  {
    hide Permutation, NextState;
    if index == 0 {
    } else {
      var j := NextState(state) % (index + 1);
      SwapKeepsPermutation(s, index, j);
      ShuffleKeepsPermutation(Swap(s, index, j), NextState(state), index - 1);
    }
  }

  /**
   * One draw settles the last open place for good: the session drawn for it stays there, and the places
   * behind it are not touched again.
   */
  lemma {:induction false} ShuffleSettles(s: seq<nat>, state: nat, index: nat, k: nat)
    requires index < |s| && index <= k < |s|
    ensures Shuffle(s, state, index)[k]
         == if k == index && index > 0 then s[NextState(state) % (index + 1)] else s[k]
    decreases index
  {
    hide NextState;
    if index == 0 {
    } else {
      ShuffleSettles(Swap(s, index, NextState(state) % (index + 1)), NextState(state), index - 1, k);
    }
  }

  /** For every policy, seed and turn the order is a permutation. */
  lemma OrderIsPermutation(count: nat, turn: nat, policy: string, seed: int)
    requires count >= 1 && KnownPolicy(policy)
    ensures Permutation(Order(count, turn, policy, seed))
  {
    hide FirstState, Shuffle;
    ShuffleKeepsPermutation(Range(0, count), FirstState(count, turn, seed), count - 1);
  }

  method ShuffleInPlace(order: array<nat>, seed: nat)
    requires order.Length >= 1
    modifies order
    ensures order[..] == Shuffle(old(order[..]), seed, order.Length - 1)
  {
    hide NextState, Shuffle;
    var state: nat, index: nat := seed, order.Length - 1;
    while index > 0
      invariant index < order.Length
      invariant Shuffle(order[..], state, index) == Shuffle(old(order[..]), seed, order.Length - 1)
    {
      ShuffleStep(order[..], state, index);
      ghost var before := order[..];
      state := NextState(state);
      var j := state % (index + 1);
      order[index], order[j] := order[j], order[index];
      assert order[..] == Swap(before, index, j);
      index := index - 1;
    }
    ShuffleStep(order[..], state, 0);
  }

  lemma ShuffleStep(s: seq<nat>, state: nat, index: nat)
    requires index < |s|
    ensures Shuffle(s, state, index) == if index == 0 then s
      else Shuffle(Swap(s, index, NextState(state) % (index + 1)), NextState(state), index - 1)
  {
  }

  method RequestOrderIndices(sessionCount: int, turnIndex: int, policy: string, seed: int)
    returns (r: Result<seq<nat>, Error>)
    ensures r.Ok? <==> sessionCount >= 1 && turnIndex >= 0 && KnownPolicy(policy)
    ensures r.Ok? ==> r.value == Order(sessionCount, turnIndex, policy, seed) && Permutation(r.value)
    ensures r.Ok? ==> |r.value| == sessionCount
    ensures r.Ok? && policy == "forward" ==> forall i | 0 <= i < sessionCount :: r.value[i] == i
    ensures r.Ok? && policy == "alternating" ==> forall i | 0 <= i < sessionCount ::
      r.value[i] == if turnIndex % 2 == 0 then i else sessionCount - 1 - i
    ensures r.Err? ==>
      r.error == if sessionCount < 1 then NoSessions else if turnIndex < 0 then NegativeTurn else UnknownPolicy
  {
    hide FirstState, Shuffle, Permutation;
    if sessionCount < 1 {
      return Err(NoSessions);
    }
    if turnIndex < 0 {
      return Err(NegativeTurn);
    }
    var order := new nat[sessionCount](i => i);
    assert order[..] == Range(0, sessionCount);
    if KnownPolicy(policy) {
      OrderIsPermutation(sessionCount, turnIndex, policy, seed);
    }
    if policy == "forward" {
      return Ok(order[..]);
    }
    if policy == "alternating" {
      return Ok(if turnIndex % 2 == 0 then order[..] else Reversed(order[..]));
    }
    if policy != "seeded-shuffle" {
      return Err(UnknownPolicy);
    }
    ShuffleInPlace(order, FirstState(sessionCount, turnIndex, seed));
    r := Ok(order[..]);
  }

  // ---- undoing an order ---------------------------------------------------

  /** `values` puts at place `i` what belongs to index `order[i]`. */
  ghost predicate Undoes<T>(logical: seq<T>, values: seq<T>, order: seq<int>) {
    |logical| == |values| == |order| && forall i | 0 <= i < |order| ::
      0 <= order[i] < |order| && logical[order[i]] == values[i]
  }

  predicate Complete(order: seq<int>) { multiset(order) == multiset(Indices(|order|)) }

  function Indices(n: nat): (r: seq<int>)
    ensures |r| == n && forall i | 0 <= i < n :: r[i] == i
  {
    seq(n, i => i)
  }

  lemma {:induction false} OnceEach(n: nat, k: int)
    ensures multiset(Indices(n))[k] == if 0 <= k < n then 1 else 0
  {
    if n == 0 {
      assert Indices(n) == [];
    } else {
      OnceEach(n - 1, k);
      assert Indices(n) == Indices(n - 1) + [n - 1];
    }
  }

  lemma CompleteIsPermutation(order: seq<int>)
    requires Complete(order)
    ensures forall i | 0 <= i < |order| :: 0 <= order[i] < |order|
    ensures forall i, j | 0 <= i < j < |order| :: order[i] != order[j]
    ensures forall k: int | 0 <= k < |order| :: k in order
  {
    forall i | 0 <= i < |order| ensures 0 <= order[i] < |order| {
      assert order[i] in multiset(order);
      OnceEach(|order|, order[i]);
    }
    forall i, j | 0 <= i < j < |order| ensures order[i] != order[j] {
      OnceEach(|order|, order[i]);
      if order[i] == order[j] {
        TwiceCounted(order, i, j);
      }
    }
    forall k: int | 0 <= k < |order| ensures k in order {
      OnceEach(|order|, k);
      assert k in multiset(order);
    }
  }

  /** `restore_logical_order`. */
  method RestoreLogicalOrder<T(0)>(values: seq<T>, order: seq<int>) returns (r: Result<seq<T>, Error>)
    ensures r.Ok? <==> |values| == |order| && Complete(order)
    ensures r.Ok? ==> Undoes(r.value, values, order)
    ensures r.Err? ==> r.error == if |values| != |order| then LengthsDiffer else NotAPermutation
  {
    if |values| != |order| {
      return Err(LengthsDiffer);
    }
    if !Complete(order) {
      return Err(NotAPermutation);
    }
    CompleteIsPermutation(order);
    hide Complete;
    var logical := new T[|order|];
    var i := 0;
    while i < |order|
      invariant 0 <= i <= |order|
      invariant forall j | 0 <= j < i :: logical[order[j]] == values[j]
    {
      logical[order[i]] := values[i];
      i := i + 1;
    }
    r := Ok(logical[..]);
  }

  /** The values in submission order. */
  function Submitted<T>(values: seq<T>, order: seq<nat>): (r: seq<T>)
    requires Below(order, |values|)
    ensures |r| == |order| && forall i | 0 <= i < |r| :: r[i] == values[order[i]]
  {
    Select(values, order)
  }

  /** Restoring undoes submitting, and it is the only list that does. */
  lemma RestoreUndoesSubmit<T>(values: seq<T>, order: seq<nat>, logical: seq<T>)
    requires |order| == |values| && Permutation(order)
    ensures Complete(order)
    ensures Undoes(logical, Submitted(values, order), order) <==> logical == values
  {
    PermutationIsComplete(order);
    CompleteIsPermutation(order);
    hide Complete;
    if Undoes(logical, Submitted(values, order), order) {
      forall k | 0 <= k < |values| ensures logical[k] == values[k] {
        assert k in order;
        var i :| 0 <= i < |order| && order[i] == k;
        assert logical[order[i]] == Submitted(values, order)[i];
      }
    }
  }

  function Without(s: seq<nat>, k: nat): (r: seq<nat>)
    requires k < |s|
    ensures |r| == |s| - 1 && forall i | 0 <= i < |r| :: r[i] == s[if i < k then i else i + 1]
  {
    s[..k] + s[k + 1..]
  }

  lemma WithoutBag(s: seq<nat>, k: nat)
    requires k < |s|
    ensures multiset(s) == multiset(Without(s, k)) + multiset{s[k]}
  {
    assert s == s[..k] + [s[k]] + s[k + 1..];
  }

  ghost predicate Distinct(s: seq<nat>) {
    forall i, j | 0 <= i < j < |s| :: s[i] != s[j]
  }

  lemma WithoutLargest(s: seq<nat>, k: nat, n: nat)
    requires k < |s| && s[k] == n && Below(s, n + 1) && Distinct(s)
    ensures Below(Without(s, k), n) && Distinct(Without(s, k))
  {
  }

  lemma IndicesSnoc(n: nat)
    ensures multiset(Indices(n + 1)) == multiset(Indices(n)) + multiset{n}
  {
    assert Indices(n + 1) == Indices(n) + [n];
  }

  lemma SomeBelow(order: seq<nat>, n: nat)
    requires Below(order, n) && order != []
    ensures n > 0
  {
    assert order[0] < n;
  }

  lemma BelowLess(order: seq<nat>, n: nat)
    requires Below(order, n + 1) && n !in order
    ensures Below(order, n)
  {
    forall i | 0 <= i < |order| ensures order[i] < n {
      assert order[i] in order;
    }
  }

  /** Distinct numbers below `n` are at most `n`, and if they are `n` they are all of them. */
  lemma {:induction false} DistinctBelow(order: seq<nat>, n: nat)
    requires Below(order, n) && Distinct(order)
    ensures |order| <= n
    ensures |order| == n ==> multiset(order) == multiset(Indices(n))
    decreases n
  {
    hide Indices, Without, Distinct, Below;
    if order == [] {
      NoIndices();
    } else {
      SomeBelow(order, n);
      if n - 1 in order {
        var k :| 0 <= k < |order| && order[k] == n - 1;
        WithoutBag(order, k);
        WithoutLargest(order, k, n - 1);
        DistinctBelow(Without(order, k), n - 1);
        IndicesSnoc(n - 1);
      } else {
        BelowLess(order, n - 1);
        DistinctBelow(order, n - 1);
      }
    }
  }

  lemma NoIndices()
    ensures Indices(0) == []
  {
  }

  lemma PermutationIsComplete(order: seq<nat>)
    requires Permutation(order)
    ensures Complete(order)
  {
    DistinctBelow(order, |order|);
  }

  // ---- a run over turns ---------------------------------------------------

  /** An engine answers each prompt by itself; `None` is a failed request. */
  type Engine = seq<int> -> Option<seq<int>>

  function Extended(history: seq<int>, output: Option<seq<int>>): seq<int> {
    if output.Some? then history + output.value else history
  }

  /** One session: the prompt of turn `t`, given the new input of every turn after the first. */
  function Prompt(engine: Engine, first: seq<int>, inputs: seq<seq<int>>, t: nat): seq<int>
    requires t <= |inputs|
    decreases t, 0
  {
    if t == 0 then first else History(engine, first, inputs, t) + inputs[t - 1]
  }

  /** The history after `t` turns. */
  function History(engine: Engine, first: seq<int>, inputs: seq<seq<int>>, t: nat): seq<int>
    requires t <= |inputs| + 1
    decreases t, -1
  {
    if t == 0 then first
    else var p := Prompt(engine, first, inputs, t - 1); Extended(p, engine(p))
  }

  /** Each prompt is the previous prompt, its output and the new input. */
  lemma PromptsExtend(engine: Engine, first: seq<int>, inputs: seq<seq<int>>, t: nat)
    requires t < |inputs|
    ensures Prompt(engine, first, inputs, t + 1)
         == Extended(Prompt(engine, first, inputs, t), engine(Prompt(engine, first, inputs, t))) + inputs[t]
    ensures Prompt(engine, first, inputs, t) <= Prompt(engine, first, inputs, t + 1)
  {
  }

  /** Room the engine must offer: the initial context, an output per turn and an input between turns. */
  function RequiredModelLen(context: nat, turns: nat, outputTokens: nat, inputTokens: nat): int {
    context + turns * outputTokens + (turns - 1) * inputTokens
  }

  lemma NextTurnLen(context: nat, t: nat, o: nat, d: nat)
    ensures RequiredModelLen(context, t + 1, o, d) == RequiredModelLen(context, t, o, d) + o + d
    ensures RequiredModelLen(context, 1, o, d) == context + o
  {
    assert (t + 1) * o == t * o + o;
    assert t * d == (t - 1) * d + d;
  }

  lemma {:induction false} LenGrows(context: nat, t: nat, turns: nat, o: nat, d: nat)
    requires t <= turns
    ensures RequiredModelLen(context, t, o, d) <= RequiredModelLen(context, turns, o, d)
  {
    if t < turns {
      NextTurnLen(context, turns - 1, o, d);
      LenGrows(context, t, turns - 1, o, d);
    }
  }

  /** The output of turn `t` has the expected length. */
  ghost predicate Expected(engine: Engine, first: seq<int>, inputs: seq<seq<int>>, t: nat, o: nat)
    requires t <= |inputs|
  {
    var out := engine(Prompt(engine, first, inputs, t));
    out.Some? && |out.value| == o
  }

  /** When every output so far has the expected length, the history is exactly as long as required. */
  lemma {:induction false} LengthIsRequired(engine: Engine, first: seq<int>, inputs: seq<seq<int>>, t: nat, o: nat,
                                            d: nat)
    requires 1 <= t <= |inputs| + 1
    requires forall k | 0 <= k < t - 1 :: |inputs[k]| == d
    requires forall k | 0 <= k < t :: Expected(engine, first, inputs, k, o)
    ensures |History(engine, first, inputs, t)| == RequiredModelLen(|first|, t, o, d)
  {
    NextTurnLen(|first|, t - 1, o, d);
    assert Expected(engine, first, inputs, t - 1, o);
    if t > 1 {
      LengthIsRequired(engine, first, inputs, t - 1, o, d);
    }
  }

  /** So no prompt with its output ever needs more than the length required for all turns. */
  lemma PromptsFit(engine: Engine, first: seq<int>, inputs: seq<seq<int>>, t: nat, turns: nat, o: nat, d: nat)
    requires t < turns <= |inputs| + 1
    requires forall k | 0 <= k < turns - 1 :: |inputs[k]| == d
    requires forall k | 0 <= k < turns :: Expected(engine, first, inputs, k, o)
    ensures |Prompt(engine, first, inputs, t)| + o <= RequiredModelLen(|first|, turns, o, d)
    ensures t == turns - 1 ==> |Prompt(engine, first, inputs, t)| + o == RequiredModelLen(|first|, turns, o, d)
  {
    LengthIsRequired(engine, first, inputs, t + 1, o, d);
    assert Expected(engine, first, inputs, t, o);
    LenGrows(|first|, t + 1, turns, o, d);
  }

  // ---- the loop over turns ------------------------------------------------

  /** `zip(..., strict=True)`: the common part is extended even when the lengths differ and it raises. */
  method AppendDeltas(histories: array<seq<int>>, deltas: seq<seq<int>>) returns (r: Result<seq<seq<int>>, Error>)
    modifies histories
    ensures r.Ok? <==> |deltas| == histories.Length
    ensures forall i | 0 <= i < histories.Length ::
      histories[i] == old(histories[i]) + if i < |deltas| then deltas[i] else []
    ensures r.Ok? ==> r.value == histories[..]
  {
    var i := 0;
    while i < histories.Length && i < |deltas|
      invariant 0 <= i <= histories.Length && i <= |deltas|
      invariant forall j | 0 <= j < i :: histories[j] == old(histories[j]) + deltas[j]
      invariant forall j | i <= j < histories.Length :: histories[j] == old(histories[j])
    {
      histories[i] := histories[i] + deltas[i];
      i := i + 1;
    }
    r := if |deltas| == histories.Length then Ok(histories[..]) else Err(LengthsDiffer);
  }

  method AppendOutputs(histories: array<seq<int>>, outputs: seq<Option<seq<int>>>) returns (r: Result<(), Error>)
    modifies histories
    ensures r.Ok? <==> |outputs| == histories.Length
    ensures forall i | 0 <= i < histories.Length ::
      histories[i] == if i < |outputs| then Extended(old(histories[i]), outputs[i]) else old(histories[i])
  {
    var i := 0;
    while i < histories.Length && i < |outputs|
      invariant 0 <= i <= histories.Length && i <= |outputs|
      invariant forall j | 0 <= j < i :: histories[j] == Extended(old(histories[j]), outputs[j])
      invariant forall j | i <= j < histories.Length :: histories[j] == old(histories[j])
    {
      if outputs[i].Some? {
        histories[i] := histories[i] + outputs[i].value;
      }
      i := i + 1;
    }
    r := if |outputs| == histories.Length then Ok(()) else Err(LengthsDiffer);
  }

  /** The prompts of a turn; after the first turn they take the new inputs in. */
  method TurnPrompts(turnDeltas: seq<seq<seq<int>>>, histories: array<seq<int>>, turn: nat)
    returns (r: Result<seq<seq<int>>, Error>)
    requires turn <= |turnDeltas|
    modifies histories
    ensures r.Ok? <==> turn == 0 || |turnDeltas[turn - 1]| == histories.Length
    ensures r.Ok? ==> r.value == histories[..] && forall i | 0 <= i < histories.Length ::
      histories[i] == if turn == 0 then old(histories[i]) else old(histories[i]) + turnDeltas[turn - 1][i]
  {
    if turn == 0 {
      return Ok(histories[..]);
    }
    r := AppendDeltas(histories, turnDeltas[turn - 1]);
  }

  function Answers(engine: Engine, prompts: seq<seq<int>>): (r: seq<Option<seq<int>>>)
    ensures |r| == |prompts| && forall i | 0 <= i < |r| :: r[i] == engine(prompts[i])
  {
    seq(|prompts|, i requires 0 <= i < |prompts| => engine(prompts[i]))
  }

  /** Submits the prompts in the order of the turn and puts the outputs back in logical order. */
  method Generate(engine: Engine, prompts: seq<seq<int>>, turn: nat, policy: string, seed: int)
    returns (r: Result<seq<Option<seq<int>>>, Error>)
    ensures r.Ok? <==> prompts != [] && KnownPolicy(policy)
    ensures r.Ok? ==> r.value == Answers(engine, prompts)
  {
    var order := RequestOrderIndices(|prompts|, turn, policy, seed);
    if order.Err? {
      return Err(order.error);
    }
    var raw := Answers(engine, Submitted(prompts, order.value));
    r := RestoreLogicalOrder(raw, order.value);
    assert raw == Submitted(Answers(engine, prompts), order.value);
    RestoreUndoesSubmit(Answers(engine, prompts), order.value, if r.Ok? then r.value else []);
  }

  /** The new inputs of session `i`, turn by turn. */
  function InputsOf(turnDeltas: seq<seq<seq<int>>>, i: nat): (r: seq<seq<int>>)
    requires forall t | 0 <= t < |turnDeltas| :: i < |turnDeltas[t]|
    ensures |r| == |turnDeltas| && forall t | 0 <= t < |r| :: r[t] == turnDeltas[t][i]
  {
    seq(|turnDeltas|, t requires 0 <= t < |turnDeltas| && i < |turnDeltas[t]| => turnDeltas[t][i])
  }

  ghost predicate Workload(sessions: nat, turnDeltas: seq<seq<seq<int>>>) {
    forall t | 0 <= t < |turnDeltas| :: |turnDeltas[t]| == sessions
  }

  /** History `i` is the one session `i` would have alone after `t` turns. */
  ghost predicate After(engine: Engine, initial: seq<seq<int>>, turnDeltas: seq<seq<seq<int>>>,
                        histories: seq<seq<int>>, t: nat)
    requires Workload(|initial|, turnDeltas) && t <= |turnDeltas| + 1
  {
    |histories| == |initial|
    && forall i | 0 <= i < |initial| :: histories[i] == History(engine, initial[i], InputsOf(turnDeltas, i), t)
  }

  /** Prompt `i` of turn `t` is the one session `i` would have sent alone. */
  ghost predicate Sent(engine: Engine, initial: seq<seq<int>>, turnDeltas: seq<seq<seq<int>>>, prompts: seq<seq<int>>,
                       t: nat)
    requires Workload(|initial|, turnDeltas) && t <= |turnDeltas|
  {
    |prompts| == |initial|
    && forall i | 0 <= i < |initial| :: prompts[i] == Prompt(engine, initial[i], InputsOf(turnDeltas, i), t)
  }

  /** Turn `t` has no error: every session gets an output of the expected length. */
  ghost predicate Succeeds(engine: Engine, initial: seq<seq<int>>, turnDeltas: seq<seq<seq<int>>>, t: nat,
                           outputTokens: nat)
    requires Workload(|initial|, turnDeltas) && t <= |turnDeltas|
  {
    forall i | 0 <= i < |initial| :: Expected(engine, initial[i], InputsOf(turnDeltas, i), t, outputTokens)
  }

  /** `_turn_errors_for_outputs`, as far as the loop asks: is there any error? */
  method HasErrors(outputs: seq<Option<seq<int>>>, outputTokens: nat) returns (errors: bool)
    ensures !errors <==> forall i | 0 <= i < |outputs| :: outputs[i].Some? && |outputs[i].value| == outputTokens
  {
    var i := 0;
    while i < |outputs|
      invariant 0 <= i <= |outputs|
      invariant forall j | 0 <= j < i :: outputs[j].Some? && |outputs[j].value| == outputTokens
    {
      if outputs[i].None? || |outputs[i].value| != outputTokens {
        return true;
      }
      i := i + 1;
    }
    errors := false;
  }

  method RunTurn(engine: Engine, ghost initial: seq<seq<int>>, turnDeltas: seq<seq<seq<int>>>,
                 histories: array<seq<int>>, turn: nat, policy: string, seed: int, outputTokens: nat)
    returns (r: Result<seq<seq<int>>, Error>, failed: bool)
    requires Workload(|initial|, turnDeltas) && turn <= |turnDeltas|
      && After(engine, initial, turnDeltas, histories[..], turn)
    modifies histories
    ensures r.Ok? <==> initial != [] && KnownPolicy(policy)
    ensures r.Ok? ==>
      Sent(engine, initial, turnDeltas, r.value, turn) && After(engine, initial, turnDeltas, histories[..], turn + 1)
    ensures r.Ok? ==> (!failed <==> Succeeds(engine, initial, turnDeltas, turn, outputTokens))
  {
    hide KnownPolicy;
    r := TurnPrompts(turnDeltas, histories, turn);
    assert Sent(engine, initial, turnDeltas, r.value, turn);
    var outputs := Generate(engine, r.value, turn, policy, seed);
    if outputs.Err? {
      return Err(outputs.error), true;
    }
    failed := HasErrors(outputs.value, outputTokens);
    var appended := AppendOutputs(histories, outputs.value);
    assert forall i | 0 <= i < |initial| ::
        outputs.value[i] == engine(Prompt(engine, initial[i], InputsOf(turnDeltas, i), turn));
  }

  /** The prompts of the turns run so far; all of them succeeded, but the last one if the run failed. */
  ghost predicate Ran(engine: Engine, initial: seq<seq<int>>, turnDeltas: seq<seq<seq<int>>>, outputTokens: nat,
                      prompts: seq<seq<seq<int>>>, failed: bool)
    requires Workload(|initial|, turnDeltas) && |prompts| <= |turnDeltas| + 1
  {
    && (failed ==> prompts != [])
    && (forall t | 0 <= t < |prompts| :: Sent(engine, initial, turnDeltas, prompts[t], t))
    && forall t | 0 <= t < |prompts| ::
         Succeeds(engine, initial, turnDeltas, t, outputTokens) <==> !(failed && t == |prompts| - 1)
  }

  lemma RanNext(engine: Engine, initial: seq<seq<int>>, turnDeltas: seq<seq<seq<int>>>, outputTokens: nat,
                prompts: seq<seq<seq<int>>>, sent: seq<seq<int>>, errors: bool)
    requires Workload(|initial|, turnDeltas) && |prompts| <= |turnDeltas|
    requires Ran(engine, initial, turnDeltas, outputTokens, prompts, false)
      && Sent(engine, initial, turnDeltas, sent, |prompts|)
    requires !errors <==> Succeeds(engine, initial, turnDeltas, |prompts|, outputTokens)
    ensures Ran(engine, initial, turnDeltas, outputTokens, prompts + [sent], errors)
  {
    hide Sent, Succeeds;
  }

  /**
   * The benchmark loop, which stops after the first turn with an error. Whatever the policy and the
   * seed, the number of turns run, every prompt and every final history are those of each session alone.
   */
  method Run(engine: Engine, initial: seq<seq<int>>, turnDeltas: seq<seq<seq<int>>>, turns: nat, policy: string,
             seed: int, outputTokens: nat)
    returns (r: Result<seq<seq<int>>, Error>, prompts: seq<seq<seq<int>>>, failed: bool)
    requires turns <= |turnDeltas| + 1 && Workload(|initial|, turnDeltas)
    ensures r.Ok? <==> turns == 0 || (initial != [] && KnownPolicy(policy))
    ensures r.Ok? ==> |prompts| <= turns && Ran(engine, initial, turnDeltas, outputTokens, prompts, failed)
    ensures r.Ok? ==> (failed || |prompts| == turns) && After(engine, initial, turnDeltas, r.value, |prompts|)
  {
    var histories := new seq<int>[|initial|](i requires 0 <= i < |initial| => initial[i]);
    prompts, failed := [], false;
    assert After(engine, initial, turnDeltas, histories[..], 0);
    assert Ran(engine, initial, turnDeltas, outputTokens, prompts, failed);
    hide KnownPolicy, After, Sent, Succeeds, Ran;
    while |prompts| < turns && !failed
      invariant |prompts| <= turns && (prompts == [] || (initial != [] && KnownPolicy(policy)))
      invariant After(engine, initial, turnDeltas, histories[..], |prompts|)
      invariant Ran(engine, initial, turnDeltas, outputTokens, prompts, failed)
      decreases turns - |prompts|
    {
      var sent, errors := RunTurn(engine, initial, turnDeltas, histories, |prompts|, policy, seed, outputTokens);
      if sent.Err? {
        return Err(sent.error), prompts, true;
      }
      RanNext(engine, initial, turnDeltas, outputTokens, prompts, sent.value, errors);
      prompts, failed := prompts + [sent.value], errors;
    }
    r := Ok(histories[..]);
  }
}
