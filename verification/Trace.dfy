/** Sequences of steps of any step system, put together end to end. */
module Traces {

  /** `takes` says which step leads from where to where; these steps lead from w to w'. */
  ghost predicate Leads<W(!new), S>(takes: (W, S, W) -> bool, w: W, steps: seq<S>, w': W)
    decreases |steps|
  {
    if steps == [] then w' == w
    else
      var init, last := steps[..|steps| - 1], steps[|steps| - 1];
      exists mid: W :: Leads(takes, w, init, mid) && takes(mid, last, w')
  }

  lemma LeadsOn<W(!new), S>(takes: (W, S, W) -> bool, w: W, steps: seq<S>, mid: W, s: S, w': W)
    requires Leads(takes, w, steps, mid) && takes(mid, s, w')
    ensures Leads(takes, w, steps + [s], w')
  {
    assert (steps + [s])[..|steps|] == steps && (steps + [s])[|steps|] == s;
  }

  lemma {:induction false} LeadsThrough<W(!new), S>(takes: (W, S, W) -> bool, w: W, a: seq<S>, mid: W, b: seq<S>, w': W)
    requires Leads(takes, w, a, mid) && Leads(takes, mid, b, w')
    ensures Leads(takes, w, a + b, w')
    decreases |b|
  {
    if b == [] {
      assert a + b == a;
    } else {
      var init, last := b[..|b| - 1], b[|b| - 1];
      var m: W :| Leads(takes, mid, init, m) && takes(m, last, w');
      LeadsThrough(takes, w, a, mid, init, m);
      LeadsOn(takes, w, a + init, m, last, w');
      assert a + init + [last] == a + b;
    }
  }

  lemma OneStep<W(!new), S>(takes: (W, S, W) -> bool, w: W, a: S, w1: W)
    requires takes(w, a, w1)
    ensures Leads(takes, w, [a], w1)
  {
    assert [a][..0] == [];
    assert Leads(takes, w, [], w);
  }

  lemma TwoSteps<W(!new), S>(takes: (W, S, W) -> bool, w: W, a: S, w1: W, b: S, w2: W)
    requires takes(w, a, w1) && takes(w1, b, w2)
    ensures Leads(takes, w, [a, b], w2)
  {
    OneStep(takes, w, a, w1);
    LeadsOn(takes, w, [a], w1, b, w2);
    assert [a] + [b] == [a, b];
  }

  lemma ThreeSteps<W(!new), S>(takes: (W, S, W) -> bool, w: W, a: S, w1: W, b: S, w2: W, c: S, w3: W)
    requires takes(w, a, w1) && takes(w1, b, w2) && takes(w2, c, w3)
    ensures Leads(takes, w, [a, b, c], w3)
  {
    TwoSteps(takes, w, a, w1, b, w2);
    LeadsOn(takes, w, [a, b], w2, c, w3);
    assert [a, b] + [c] == [a, b, c];
  }

  function Mapped<S, T>(g: S -> T, steps: seq<S>): (r: seq<T>)
    ensures |r| == |steps| && forall i :: 0 <= i < |steps| ==> r[i] == g(steps[i])
  {
    seq(|steps|, i requires 0 <= i < |steps| => g(steps[i]))
  }

  /** What one system does, another does that takes each of its steps in its own way. */
  lemma {:induction false} LeadsMapped<W(!new), S(!new), V(!new), T>(
      takes: (W, S, W) -> bool, allowed: S -> bool, more: (V, T, V) -> bool, f: W -> V, g: S -> T, w: W, steps: seq<S>, w': W)
    requires forall a, s, b :: takes(a, s, b) && allowed(s) ==> more(f(a), g(s), f(b))
    requires Leads(takes, w, steps, w') && forall s :: s in steps ==> allowed(s)
    ensures Leads(more, f(w), Mapped(g, steps), f(w'))
    decreases |steps|
  {
    if steps != [] {
      var init, last := steps[..|steps| - 1], steps[|steps| - 1];
      assert last in steps && forall s :: s in init ==> s in steps;
      var mid: W :| Leads(takes, w, init, mid) && takes(mid, last, w');
      LeadsMapped(takes, allowed, more, f, g, w, init, mid);
      LeadsOn(more, f(w), Mapped(g, init), f(mid), g(last), f(w'));
      assert Mapped(g, init) + [g(last)] == Mapped(g, steps);
    }
  }
}
