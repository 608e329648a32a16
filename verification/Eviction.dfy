/** The sink / pending / ring bookkeeping that every banked layer does before it folds. */
module Eviction {
  import opened Lists

  datatype Window<T> = Window(sink: seq<T>, pend: seq<T>, ring: seq<T>)

  /** New tokens join the ring, a short sink is filled from its front, the overflow becomes pending. */
  function Admit<T>(sinkCap: nat, window: nat, w: Window<T>, chunk: seq<T>): Window<T>
    requires |w.sink| <= sinkCap
  {
    var rk := w.ring + chunk;
    var take := Min(sinkCap - |w.sink|, |rk|);
    var rest := rk[take..];
    var cut := Max(0, |rest| - window);
    Window(w.sink + rk[..take], w.pend + rest[..cut], rest[cut..])
  }

  /**
   * The window is the one that any chunking of `history` leaves when `gone` tokens have been
   * folded away: the first tokens, the last tokens, and everything between not yet folded.
   */
  ghost predicate Holds<T>(sinkCap: nat, window: nat, w: Window<T>, gone: nat, history: seq<T>) {
    var n := |history|;
    && |w.sink| == Min(sinkCap, n)
    && |w.ring| == Min(window, n - |w.sink|)
    && |w.sink| + gone + |w.pend| + |w.ring| == n
    && w.sink == history[..|w.sink|]
    && w.pend == history[|w.sink| + gone..n - |w.ring|]
    && w.ring == history[n - |w.ring|..]
  }

  lemma Adjacent<T>(h: seq<T>, a: nat, b: nat, c: nat)
    requires a <= b <= c <= |h|
    ensures h[a..b] + h[b..c] == h[a..c]
  {
  }

  /** Admission of `rest` = the tokens of `h` from `start`, when the sink is already settled. */
  lemma OverflowHolds<T>(window: nat, h: seq<T>, pendStart: nat, start: nat)
    requires pendStart <= start <= |h|
    ensures var rest := h[start..];
            var cut := Max(0, |rest| - window);
            && h[pendStart..start] + rest[..cut] == h[pendStart..start + cut]
            && rest[cut..] == h[start + cut..]
  {
    var rest := h[start..];
    var cut := Max(0, |rest| - window);
    assert rest[..cut] == h[start..start + cut];
    Adjacent(h, pendStart, start, start + cut);
  }

  lemma AdmitWhileFilling<T>(sinkCap: nat, window: nat, history: seq<T>, chunk: seq<T>)
    requires |history| < sinkCap
    ensures var h := history + chunk;
            var k := Min(sinkCap, |h|);
            var cut := Max(0, |h| - k - window);
            Admit(sinkCap, window, Window(history, [], []), chunk) == Window(h[..k], h[k..k + cut], h[k + cut..])
  {
    var take := Min(sinkCap - |history|, |chunk|);
    var nothing: seq<T> := [];
    assert Admit(sinkCap, window, Window(history, [], []), chunk)
        == Window(history + chunk[..take], nothing + chunk[take..][..Max(0, |chunk| - take - window)],
                  chunk[take..][Max(0, |chunk| - take - window)..]) by {
      assert nothing + chunk == chunk;
    }
    hide Admit;
    SplitSlices(history, chunk, take, Max(0, |chunk| - take - window));
  }

  lemma SplitSlices<T>(history: seq<T>, chunk: seq<T>, take: nat, cut: nat)
    requires take + cut <= |chunk|
    ensures var h, k, rest := history + chunk, |history| + take, chunk[take..];
            var nothing: seq<T> := [];
            && history + chunk[..take] == h[..k]
            && nothing + rest[..cut] == h[k..k + cut]
            && rest[cut..] == h[k + cut..]
  {
  }

  lemma AdmitWhenFull<T>(sinkCap: nat, window: nat, w: Window<T>, pendStart: nat, start: nat, history: seq<T>,
                         chunk: seq<T>)
    requires |w.sink| == sinkCap && pendStart <= start <= |history|
    requires w.pend == history[pendStart..start] && w.ring == history[start..]
    ensures var h := history + chunk;
            var cut := Max(0, |h| - start - window);
            Admit(sinkCap, window, w, chunk) == Window(w.sink, h[pendStart..start + cut], h[start + cut..])
  {
    var h := history + chunk;
    var rk := w.ring + chunk;
    assert rk[..0] == [] && rk[0..] == rk && w.sink + [] == w.sink;
    assert rk == h[start..];
    assert w.pend == h[pendStart..start];
    OverflowHolds(window, h, pendStart, start);
  }

  lemma AdmitHolds<T>(sinkCap: nat, window: nat, w: Window<T>, gone: nat, history: seq<T>, chunk: seq<T>)
    requires Holds(sinkCap, window, w, gone, history)
    ensures Holds(sinkCap, window, Admit(sinkCap, window, w, chunk), gone, history + chunk)
  {
    if |w.sink| < sinkCap {
      FillingHolds(sinkCap, window, w, gone, history, chunk);
    } else {
      FullHolds(sinkCap, window, w, gone, history, chunk);
    }
  }

  lemma FillingHolds<T>(sinkCap: nat, window: nat, w: Window<T>, gone: nat, history: seq<T>, chunk: seq<T>)
    requires Holds(sinkCap, window, w, gone, history) && |w.sink| < sinkCap
    ensures Holds(sinkCap, window, Admit(sinkCap, window, w, chunk), gone, history + chunk)
  {
    assert w == Window(history, [], []) && gone == 0;
    AdmitWhileFilling(sinkCap, window, history, chunk);
    hide Admit;
  }

  lemma FullHolds<T>(sinkCap: nat, window: nat, w: Window<T>, gone: nat, history: seq<T>, chunk: seq<T>)
    requires Holds(sinkCap, window, w, gone, history) && |w.sink| == sinkCap
    ensures Holds(sinkCap, window, Admit(sinkCap, window, w, chunk), gone, history + chunk)
  {
    AdmitWhenFull(sinkCap, window, w, sinkCap + gone, |history| - |w.ring|, history, chunk);
    hide Admit;
    assert w.sink == (history + chunk)[..sinkCap];
  }

  /** Until a fold removes tokens, sink, pending and ring read in order just grow by the chunk. */
  lemma AdmitAppends<T>(sinkCap: nat, window: nat, w: Window<T>, gone: nat, history: seq<T>, chunk: seq<T>)
    requires Holds(sinkCap, window, w, gone, history)
    ensures var a := Admit(sinkCap, window, w, chunk);
            if |w.sink| < sinkCap
            then gone == 0 && w == Window(history, [], []) && a.sink + (a.pend + a.ring) == w.sink + chunk
            else a.sink == w.sink && a.pend + a.ring == w.pend + w.ring + chunk
  {
    if |w.sink| < sinkCap {
      assert w == Window(history, [], []) && gone == 0;
      AppendsWhileFilling(sinkCap, window, history, chunk);
    } else {
      var start := |history| - |w.ring|;
      AppendsWhenFull(sinkCap, window, w, sinkCap + gone, start, history, chunk);
    }
  }

  lemma AppendsWhileFilling<T>(sinkCap: nat, window: nat, history: seq<T>, chunk: seq<T>)
    requires |history| < sinkCap
    ensures var a := Admit(sinkCap, window, Window(history, [], []), chunk);
            a.sink + (a.pend + a.ring) == history + chunk
  {
    var h := history + chunk;
    AdmitWhileFilling(sinkCap, window, history, chunk);
    var k := Min(sinkCap, |h|);
    Adjacent(h, k, k + Max(0, |h| - k - window), |h|);
    Adjacent(h, 0, k, |h|);
  }

  lemma AppendsWhenFull<T>(sinkCap: nat, window: nat, w: Window<T>, pendStart: nat, start: nat, history: seq<T>,
                           chunk: seq<T>)
    requires |w.sink| == sinkCap && pendStart <= start <= |history|
    requires w.pend == history[pendStart..start] && w.ring == history[start..]
    ensures var a := Admit(sinkCap, window, w, chunk);
            a.sink == w.sink && a.pend + a.ring == w.pend + w.ring + chunk
  {
    var h := history + chunk;
    AdmitWhenFull(sinkCap, window, w, pendStart, start, history, chunk);
    Adjacent(h, pendStart, start + Max(0, |h| - start - window), |h|);
    Adjacent(history, pendStart, start, |history|);
    assert h[pendStart..] == history[pendStart..] + chunk;
  }

  /** Folding the oldest `n` pending tokens keeps the window in place. */
  lemma ReleaseHolds<T>(sinkCap: nat, window: nat, w: Window<T>, gone: nat, history: seq<T>, n: nat)
    requires Holds(sinkCap, window, w, gone, history) && n <= |w.pend|
    ensures Holds(sinkCap, window, w.(pend := w.pend[n..]), gone + n, history)
    ensures n > 0 || gone > 0 ==> |w.sink| == sinkCap && sinkCap + gone + n <= |history|
    ensures |w.sink| == sinkCap ==> w.pend[..n] == history[sinkCap + gone..][..n]
  {
    var start, end := |w.sink| + gone, |history| - |w.ring|;
    assert history[start..end][n..] == history[start + n..end];
    assert history[start..end][..n] == history[start..][..n];
  }

  /** The pending tokens never grow by more than the chunk. */
  lemma AdmitGrowth<T>(sinkCap: nat, window: nat, w: Window<T>, gone: nat, history: seq<T>, chunk: seq<T>)
    requires Holds(sinkCap, window, w, gone, history)
    ensures |w.pend| <= |Admit(sinkCap, window, w, chunk).pend| <= |w.pend| + |chunk|
  {
  }

  /** The same bookkeeping as the layers write it: reassigning the three buffers one after another. */
  method AdmitTokens<T>(sinkCap: nat, window: nat, w: Window<T>, chunk: seq<T>) returns (w': Window<T>)
    requires |w.sink| <= sinkCap
    ensures w' == Admit(sinkCap, window, w, chunk)
  {
    var sink, pend, ring := w.sink, w.pend, w.ring + chunk;
    var deficit := sinkCap - |sink|;
    if deficit > 0 {
      var take := Min(deficit, |ring|);
      sink := sink + ring[..take];
      ring := ring[take..];
    }
    if |ring| > window {
      var cut := |ring| - window;
      pend := pend + ring[..cut];
      ring := ring[cut..];
    }
    if deficit == 0 {
      assert (w.ring + chunk)[..0] == [] && (w.ring + chunk)[0..] == w.ring + chunk && w.sink + [] == w.sink;
    }
    assert ring[..0] == [] && ring[0..] == ring && pend + [] == pend;
    w' := Window(sink, pend, ring);
  }
}
