/** Runs of a step system: a machine offers guarded steps, and a run takes them one by one. */
module Runs {
  datatype Machine<!S, !E> = Machine(enabled: (S, E) -> bool, step: (S, E) -> S)

  predicate Legal<S, E>(m: Machine<S, E>, s: S, evs: seq<E>)
    decreases |evs|
  {
    evs == [] || (m.enabled(s, evs[0]) && Legal(m, m.step(s, evs[0]), evs[1..]))
  }

  function After<S, E>(m: Machine<S, E>, s: S, evs: seq<E>): S
    decreases |evs|
  {
    if evs == [] then s else After(m, m.step(s, evs[0]), evs[1..])
  }

  lemma One<S, E>(m: Machine<S, E>, s: S, e: E)
    requires m.enabled(s, e)
    ensures Legal(m, s, [e]) && After(m, s, [e]) == m.step(s, e)
  {
    assert [e][1..] == [];
  }

  lemma {:induction false} Join<S, E>(m: Machine<S, E>, s: S, a: seq<E>, b: seq<E>)
    ensures Legal(m, s, a + b) <==> Legal(m, s, a) && Legal(m, After(m, s, a), b)
    ensures After(m, s, a + b) == After(m, After(m, s, a), b)
    decreases |a|
  {
    if a == [] {
      assert a + b == b;
    } else {
      Join(m, m.step(s, a[0]), a[1..], b);
      assert (a + b)[0] == a[0] && (a + b)[1..] == a[1..] + b;
    }
  }

  /** What every step keeps, every run keeps. */
  lemma {:induction false} Invariant<S(!new), E(!new)>(m: Machine<S, E>, inv: S -> bool, s: S, evs: seq<E>)
    requires inv(s) && Legal(m, s, evs)
    requires forall t, e :: inv(t) && m.enabled(t, e) ==> inv(m.step(t, e))
    ensures inv(After(m, s, evs))
    decreases |evs|
  {
    if evs != [] { Invariant(m, inv, m.step(s, evs[0]), evs[1..]); }
  }

  lemma LastStep<S, E>(m: Machine<S, E>, s: S, evs: seq<E>)
    requires evs != [] && Legal(m, s, evs)
    ensures var n := |evs| - 1;
            var t := After(m, s, evs[..n]);
            Legal(m, s, evs[..n]) && m.enabled(t, evs[n]) && After(m, s, evs) == m.step(t, evs[n])
  {
    var n := |evs| - 1;
    assert evs == evs[..n] + [evs[n]];
    Join(m, s, evs[..n], [evs[n]]);
    var t := After(m, s, evs[..n]);
    assert Legal(m, t, [evs[n]]);
    One(m, t, evs[n]);
  }

  lemma Extend<S, E>(m: Machine<S, E>, s: S, evs: seq<E>, t: S, e: E)
    requires Legal(m, s, evs) && After(m, s, evs) == t && m.enabled(t, e)
    ensures Legal(m, s, evs + [e]) && After(m, s, evs + [e]) == m.step(t, e)
  {
    One(m, t, e);
    Join(m, s, evs, [e]);
  }

  /** A run leads from s to t. */
  predicate Leads<S(==), E>(m: Machine<S, E>, s: S, evs: seq<E>, t: S) {
    Legal(m, s, evs) && After(m, s, evs) == t
  }

  lemma LeadOn<S, E>(m: Machine<S, E>, s: S, a: seq<E>, t: S, b: seq<E>, u: S)
    requires Leads(m, s, a, t) && Leads(m, t, b, u)
    ensures Leads(m, s, a + b, u)
  {
    Join(m, s, a, b);
  }

  /** If a run leads from every stage below n to the next, one leads from the start to stage n. */
  lemma {:induction false} Stages<S(!new), E>(m: Machine<S, E>, inv: (S, nat) -> bool, s: S, n: nat)
    returns (evs: seq<E>, t: S)
    requires inv(s, 0)
    requires forall u, k: nat :: k < n && inv(u, k) ==> exists evs, v :: Leads(m, u, evs, v) && inv(v, k + 1)
    ensures Leads(m, s, evs, t) && inv(t, n)
  {
    if n == 0 {
      evs, t := [], s;
    } else {
      var a, u := Stages(m, inv, s, n - 1);
      var b, v :| Leads(m, u, b, v) && inv(v, n);
      LeadOn(m, s, a, u, b, v);
      evs, t := a + b, v;
    }
  }

  /** Serving requests one after another: the answers, and the state they lead to. */
  function Serve<S, C, V>(step: (S, C) -> (V, S), s: S, cs: seq<C>): (r: (seq<V>, S))
    ensures |r.0| == |cs|
  {
    if cs == [] then ([], s)
    else
      var (vs, t) := Serve(step, s, cs[..|cs| - 1]);
      var (v, u) := step(t, cs[|cs| - 1]);
      (vs + [v], u)
  }

  /** What is reached from n0 when each request adds its weight. */
  function Reached<C>(weight: C -> nat, n0: nat, cs: seq<C>): nat {
    if cs == [] then n0 else Reached(weight, n0, cs[..|cs| - 1]) + weight(cs[|cs| - 1])
  }

  lemma {:induction false} ReachedGrows<C>(weight: C -> nat, n0: nat, cs: seq<C>)
    ensures n0 <= Reached(weight, n0, cs)
  {
    if cs != [] { ReachedGrows(weight, n0, cs[..|cs| - 1]); }
  }

  /** If every request gets the answer due at what was reached before it, then so it is in a run. */
  lemma {:induction false} ServeAsDue<S(!new), C(!new), V>(
    step: (S, C) -> (V, S), inv: (S, nat) -> bool, weight: C -> nat, due: (nat, C) -> V, s: S, n0: nat, cs: seq<C>)
    requires inv(s, n0)
    requires forall t, n: nat, c :: c in cs && n0 <= n && inv(t, n) ==>
               step(t, c).0 == due(n, c) && inv(step(t, c).1, n + weight(c))
    ensures inv(Serve(step, s, cs).1, Reached(weight, n0, cs))
    ensures forall i :: 0 <= i < |cs| ==> Serve(step, s, cs).0[i] == due(Reached(weight, n0, cs[..i]), cs[i])
  {
    if cs != [] {
      var n := |cs| - 1;
      ServeAsDue(step, inv, weight, due, s, n0, cs[..n]);
      ReachedGrows(weight, n0, cs[..n]);
      var t, k := Serve(step, s, cs[..n]).1, Reached(weight, n0, cs[..n]);
      assert inv(t, k) && cs[n] in cs;
      forall i | 0 <= i < |cs|
        ensures Serve(step, s, cs).0[i] == due(Reached(weight, n0, cs[..i]), cs[i])
      {
        if i < n { assert cs[..n][..i] == cs[..i]; }
      }
    }
  }

  /** If every request gets an answer it may get, whatever came before it, then so it is in a run. */
  lemma {:induction false} ServeAlways<S(!new), C(!new), V>(step: (S, C) -> (V, S), inv: S -> bool, may: (C, V) -> bool,
                                                            s: S, cs: seq<C>)
    requires inv(s) && forall t, c :: c in cs && inv(t) ==> may(c, step(t, c).0) && inv(step(t, c).1)
    ensures inv(Serve(step, s, cs).1) && forall i :: 0 <= i < |cs| ==> may(cs[i], Serve(step, s, cs).0[i])
  {
    if cs != [] {
      var n := |cs| - 1;
      ServeAlways(step, inv, may, s, cs[..n]);
      assert cs[n] in cs && inv(Serve(step, s, cs[..n]).1);
    }
  }

  lemma ServeSnoc<S, C, V>(step: (S, C) -> (V, S), s: S, cs: seq<C>, c: C)
    ensures var (vs, t) := Serve(step, s, cs);
            Serve(step, s, cs + [c]) == (vs + [step(t, c).0], step(t, c).1)
  {
    assert (cs + [c])[..|cs|] == cs;
  }
}
