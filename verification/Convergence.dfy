/** Convergence and quiescence of the reconcile loop, for every adapter that keeps its contract. */
module Convergence {
  import opened Support
  import opened Reconciler

  /** Which states an adapter can bring to Ready, and which environments let it: `Fit` speaks of the
      resource and the world, `fair` of the environment of one pass over them. */
  type Fit<!S, !X, !W> = (CR<S, X>, W) -> bool
  type Fair<!S, !X, !W, !E> = (CR<S, X>, W, E) -> bool

  /** The same resource as the next pass will read it: status carried over, metadata and spec kept. */
  ghost predicate SameResource<S(!new), X(!new)>(o: CR<S, X>, o': CR<S, X>) {
    o' == o.(id := o'.id, status := o'.status, condition := o'.condition, finalizer := o'.finalizer)
  }

  ghost predicate Sees<S, X, W, E>(a: Adapter<S, X, W, E>, o: CR<S, X>, w: W, e: E, seen: Observation) {
    a.observe(o, w, e).result == Ok(seen)
  }

  /** Whatever fair environment the next pass meets, it finds the resource present; and up to date. */
  ghost predicate Present<S(!new), X(!new), W(!new), E(!new)>(
    a: Adapter<S, X, W, E>, fair: Fair<S, X, W, E>, o: CR<S, X>, w: W) {
    forall e: E :: fair(o, w, e) ==> a.observe(o, w, e).result.Ok? && a.observe(o, w, e).result.value.present
  }

  ghost predicate InStep<S(!new), X(!new), W(!new), E(!new)>(
    a: Adapter<S, X, W, E>, fair: Fair<S, X, W, E>, o: CR<S, X>, w: W) {
    forall e: E :: fair(o, w, e) ==> Sees(a, o, w, e, Observation(true, true, true))
  }

  /** What one observation promises: it works, reports what exists as ready, and what it adds to the
      status or heals in the world is all that observing again, in any fair environment, would. */
  ghost predicate ObservedWell<S(!new), X(!new), W(!new), E(!new)>(
    a: Adapter<S, X, W, E>, fit: Fit<S, X, W>, fair: Fair<S, X, W, E>, o: CR<S, X>, w: W, e: E)
  {
    var v := a.observe(o, w, e);
    && v.result.Ok? && fit(v.obj, v.world) && SameResource(o, v.obj)
    && v.obj.condition == o.condition && v.obj.finalizer == o.finalizer
    && (v.result.value.present ==> v.result.value.ready)
    && (forall e': E :: fair(v.obj, v.world, e') ==> a.observe(v.obj, v.world, e') == v)
  }

  ghost predicate ObserveContract<S(!new), X(!new), W(!new), E(!new)>(
    a: Adapter<S, X, W, E>, fit: Fit<S, X, W>, fair: Fair<S, X, W, E>) {
    forall o: CR<S, X>, w: W, e: E :: fit(o, w) && fair(o, w, e) ==> ObservedWell(a, fit, fair, o, w, e)
  }

  /** The adapter looks at neither the finalizer nor the Ready condition of its own resource. */
  ghost predicate BlindTo<S(!new), X(!new), W(!new), E(!new)>(
    a: Adapter<S, X, W, E>, fit: Fit<S, X, W>, fair: Fair<S, X, W, E>, o: CR<S, X>, w: W, e: E, c: Condition, f: bool)
  {
    var v := a.observe(o, w, e);
    var o' := o.(condition := c, finalizer := f);
    && (fit(o, w) ==> fit(o', w)) && (fair(o', w, e) ==> fair(o, w, e))
    && a.observe(o', w, e) == Outcome(v.obj.(condition := c, finalizer := f), v.world, v.result)
  }

  ghost predicate Insensitive<S(!new), X(!new), W(!new), E(!new)>(
    a: Adapter<S, X, W, E>, fit: Fit<S, X, W>, fair: Fair<S, X, W, E>) {
    forall o: CR<S, X>, w: W, e: E, c: Condition, f: bool :: BlindTo(a, fit, fair, o, w, e, c, f)
  }

  /** Creating what is absent makes it present. */
  ghost predicate CreatedWell<S(!new), X(!new), W(!new), E(!new)>(
    a: Adapter<S, X, W, E>, fit: Fit<S, X, W>, fair: Fair<S, X, W, E>, o: CR<S, X>, w: W, e: E)
  {
    var v := a.observe(o, w, e);
    v.result.Ok? && !v.result.value.present ==>
      var c := a.create(v.obj, v.world, e);
      c.result.Ok? && SameResource(o, c.obj) && fit(c.obj, c.world) && Present(a, fair, c.obj, c.world)
  }

  ghost predicate CreateContract<S(!new), X(!new), W(!new), E(!new)>(
    a: Adapter<S, X, W, E>, fit: Fit<S, X, W>, fair: Fair<S, X, W, E>) {
    forall o: CR<S, X>, w: W, e: E :: fit(o, w) && fair(o, w, e) ==> CreatedWell(a, fit, fair, o, w, e)
  }

  /** Updating what has drifted removes the drift. */
  ghost predicate UpdatedWell<S(!new), X(!new), W(!new), E(!new)>(
    a: Adapter<S, X, W, E>, fit: Fit<S, X, W>, fair: Fair<S, X, W, E>, o: CR<S, X>, w: W, e: E)
  {
    var v := a.observe(o, w, e);
    v.result.Ok? && v.result.value.present && !v.result.value.upToDate ==>
      var u := a.update(v.obj, v.world, e);
      u.result.Ok? && SameResource(o, u.obj) && fit(u.obj, u.world) && InStep(a, fair, u.obj, u.world)
  }

  ghost predicate UpdateContract<S(!new), X(!new), W(!new), E(!new)>(
    a: Adapter<S, X, W, E>, fit: Fit<S, X, W>, fair: Fair<S, X, W, E>) {
    forall o: CR<S, X>, w: W, e: E :: fit(o, w) && fair(o, w, e) ==> UpdatedWell(a, fit, fair, o, w, e)
  }

  ghost predicate Contract<S(!new), X(!new), W(!new), E(!new)>(
    a: Adapter<S, X, W, E>, fit: Fit<S, X, W>, fair: Fair<S, X, W, E>) {
    ObserveContract(a, fit, fair) && Insensitive(a, fit, fair) && CreateContract(a, fit, fair)
      && UpdateContract(a, fit, fair)
  }

  datatype Snapshot<+S, +X, +W> = Snapshot(obj: CR<S, X>, world: W)

  ghost predicate Live<S(!new), X(!new), W(!new)>(fit: Fit<S, X, W>, s: Snapshot<S, X, W>) {
    !s.obj.deleting && fit(s.obj, s.world)
  }

  /** Nothing left to do: the condition says so and observing adds nothing. */
  ghost predicate Settled<S(!new), X(!new), W(!new), E(!new)>(
    a: Adapter<S, X, W, E>, fair: Fair<S, X, W, E>, s: Snapshot<S, X, W>) {
    && s.obj.finalizer && s.obj.condition == Ready(true, Available)
    && forall e: E :: fair(s.obj, s.world, e) ==>
         a.observe(s.obj, s.world, e) == Outcome(s.obj, s.world, Ok(Observation(true, true, true)))
  }

  /** One pass whose write goes through. */
  ghost function Once<S, X, W, E>(a: Adapter<S, X, W, E>, t: Timers, s: Snapshot<S, X, W>, e: E): Snapshot<S, X, W> {
    var p := PassOver(a, t, s.obj, s.world, e, Done);
    Snapshot(if p.obj.Some? then p.obj.value else s.obj, p.world)
  }

  /** Passes in the given environments, one after the other. */
  ghost function Passes<S, X, W, E>(
    a: Adapter<S, X, W, E>, t: Timers, s: Snapshot<S, X, W>, es: seq<E>): Snapshot<S, X, W>
    decreases |es|
  {
    if es == [] then s else Passes(a, t, Once(a, t, s, es[0]), es[1..])
  }

  /** Each environment is fair to the state its pass starts from. */
  ghost predicate FairRun<S, X, W, E>(
    a: Adapter<S, X, W, E>, fair: Fair<S, X, W, E>, t: Timers, s: Snapshot<S, X, W>, es: seq<E>)
    decreases |es|
  {
    es == [] || (fair(s.obj, s.world, es[0]) && FairRun(a, fair, t, Once(a, t, s, es[0]), es[1..]))
  }

  /** At most n more passes are needed. */
  ghost predicate Within<S(!new), X(!new), W(!new), E(!new)>(
    a: Adapter<S, X, W, E>, fair: Fair<S, X, W, E>, s: Snapshot<S, X, W>, n: nat) {
    || Settled(a, fair, s)
    || n >= 4
    || (n == 3 && s.obj.finalizer)
    || (n == 2 && s.obj.finalizer && Present(a, fair, s.obj, s.world))
    || (n == 1 && s.obj.finalizer && InStep(a, fair, s.obj, s.world))
  }

  lemma WithinMore<S(!new), X(!new), W(!new), E(!new)>(
    a: Adapter<S, X, W, E>, fair: Fair<S, X, W, E>, s: Snapshot<S, X, W>, n: nat, m: nat)
    requires Within(a, fair, s, n) && n <= m
    ensures Within(a, fair, s, m)
  {
    if !Settled(a, fair, s) && n == 1 < m {
      forall e: E | fair(s.obj, s.world, e)
        ensures a.observe(s.obj, s.world, e).result.Ok? && a.observe(s.obj, s.world, e).result.value.present
      {
        assert Sees(a, s.obj, s.world, e, Observation(true, true, true));
      }
    }
  }

  /** A settled resource is a fixed point: no call changes the world, the stored resource stays as
      it is, and the next check is due after the steady interval. */
  lemma Quiescent<S(!new), X(!new), W(!new), E(!new)>(
    a: Adapter<S, X, W, E>, fair: Fair<S, X, W, E>, t: Timers, s: Snapshot<S, X, W>, e: E)
    requires !s.obj.deleting && Settled(a, fair, s) && fair(s.obj, s.world, e)
    ensures PassOver(a, t, s.obj, s.world, e, Done) == Pass(Some(s.obj), s.world, t.steady, false)
  {
  }

  lemma CreatePass<S(!new), X(!new), W(!new), E(!new)>(
    a: Adapter<S, X, W, E>, fit: Fit<S, X, W>, fair: Fair<S, X, W, E>, t: Timers, s: Snapshot<S, X, W>, e: E)
    requires Contract(a, fit, fair) && Live(fit, s) && s.obj.finalizer && fair(s.obj, s.world, e)
    requires !a.observe(s.obj, s.world, e).result.value.present
    ensures var s' := Once(a, t, s, e); Live(fit, s') && s'.obj.finalizer && Present(a, fair, s'.obj, s'.world)
  {
    assert ObservedWell(a, fit, fair, s.obj, s.world, e) && CreatedWell(a, fit, fair, s.obj, s.world, e);
    var v := a.observe(s.obj, s.world, e);
    var c := a.create(v.obj, v.world, e);
    var s' := Once(a, t, s, e);
    assert s'.obj == c.obj.(condition := Ready(false, Creating), finalizer := true) && s'.world == c.world;
    forall e': E | fair(s'.obj, s'.world, e')
      ensures a.observe(s'.obj, s'.world, e').result.Ok? && a.observe(s'.obj, s'.world, e').result.value.present
    {
      assert BlindTo(a, fit, fair, c.obj, c.world, e', Ready(false, Creating), true);
    }
    assert BlindTo(a, fit, fair, c.obj, c.world, e, Ready(false, Creating), true);
  }

  lemma UpdatePass<S(!new), X(!new), W(!new), E(!new)>(
    a: Adapter<S, X, W, E>, fit: Fit<S, X, W>, fair: Fair<S, X, W, E>, t: Timers, s: Snapshot<S, X, W>, e: E)
    requires Contract(a, fit, fair) && Live(fit, s) && s.obj.finalizer && fair(s.obj, s.world, e)
    requires var v := a.observe(s.obj, s.world, e).result.value; v.present && !v.upToDate
    ensures var s' := Once(a, t, s, e); Live(fit, s') && s'.obj.finalizer && InStep(a, fair, s'.obj, s'.world)
  {
    assert ObservedWell(a, fit, fair, s.obj, s.world, e) && UpdatedWell(a, fit, fair, s.obj, s.world, e);
    var v := a.observe(s.obj, s.world, e);
    var u := a.update(v.obj, v.world, e);
    var s' := Once(a, t, s, e);
    assert s'.obj == u.obj.(condition := Ready(false, Updating), finalizer := true) && s'.world == u.world;
    forall e': E | fair(s'.obj, s'.world, e') ensures Sees(a, s'.obj, s'.world, e', Observation(true, true, true)) {
      assert BlindTo(a, fit, fair, u.obj, u.world, e', Ready(false, Updating), true);
      assert Sees(a, u.obj, u.world, e', Observation(true, true, true));
    }
    assert BlindTo(a, fit, fair, u.obj, u.world, e, Ready(false, Updating), true);
  }

  lemma ReadyPass<S(!new), X(!new), W(!new), E(!new)>(
    a: Adapter<S, X, W, E>, fit: Fit<S, X, W>, fair: Fair<S, X, W, E>, t: Timers, s: Snapshot<S, X, W>, e: E)
    requires Contract(a, fit, fair) && Live(fit, s) && s.obj.finalizer && fair(s.obj, s.world, e)
    requires Sees(a, s.obj, s.world, e, Observation(true, true, true))
    ensures var s' := Once(a, t, s, e); Live(fit, s') && Settled(a, fair, s')
  {
    assert ObservedWell(a, fit, fair, s.obj, s.world, e);
    var v := a.observe(s.obj, s.world, e);
    var s' := Once(a, t, s, e);
    assert s'.obj == v.obj.(condition := Ready(true, Available), finalizer := true) && s'.world == v.world;
    forall e': E | fair(s'.obj, s'.world, e')
      ensures a.observe(s'.obj, s'.world, e') == Outcome(s'.obj, s'.world, Ok(Observation(true, true, true)))
    {
      assert BlindTo(a, fit, fair, v.obj, v.world, e', Ready(true, Available), true);
    }
    assert BlindTo(a, fit, fair, v.obj, v.world, e, Ready(true, Available), true);
  }

  /** Every pass keeps the state fit and lowers the number of passes still needed. */
  lemma OnceProgresses<S(!new), X(!new), W(!new), E(!new)>(
    a: Adapter<S, X, W, E>, fit: Fit<S, X, W>, fair: Fair<S, X, W, E>, t: Timers, s: Snapshot<S, X, W>, e: E, n: nat)
    requires Contract(a, fit, fair) && Live(fit, s) && fair(s.obj, s.world, e) && 0 < n <= 4 && Within(a, fair, s, n)
    ensures Live(fit, Once(a, t, s, e)) && Within(a, fair, Once(a, t, s, e), n - 1)
  {
    if Settled(a, fair, s) {
      Quiescent(a, fair, t, s, e);
    } else if !s.obj.finalizer {
      assert BlindTo(a, fit, fair, s.obj, s.world, e, s.obj.condition, true);
    } else {
      assert ObservedWell(a, fit, fair, s.obj, s.world, e);
      var seen := a.observe(s.obj, s.world, e).result.value;
      if !seen.present {
        CreatePass(a, fit, fair, t, s, e);
      } else if !seen.upToDate {
        UpdatePass(a, fit, fair, t, s, e);
        assert InStep(a, fair, Once(a, t, s, e).obj, Once(a, t, s, e).world);
      } else {
        ReadyPass(a, fit, fair, t, s, e);
      }
    }
  }

  lemma {:induction false} SettlesWithin<S(!new), X(!new), W(!new), E(!new)>(
    a: Adapter<S, X, W, E>, fit: Fit<S, X, W>, fair: Fair<S, X, W, E>, t: Timers, s: Snapshot<S, X, W>, es: seq<E>)
    requires Contract(a, fit, fair) && Live(fit, s) && FairRun(a, fair, t, s, es) && |es| <= 4
        && Within(a, fair, s, |es|)
    ensures Live(fit, Passes(a, t, s, es)) && Settled(a, fair, Passes(a, t, s, es))
    decreases |es|
  {
    if es != [] {
      OnceProgresses(a, fit, fair, t, s, es[0], |es|);
      SettlesWithin(a, fit, fair, t, Once(a, t, s, es[0]), es[1..]);
    }
  }

  lemma {:induction false} StaysSettled<S(!new), X(!new), W(!new), E(!new)>(
    a: Adapter<S, X, W, E>, fair: Fair<S, X, W, E>, t: Timers, s: Snapshot<S, X, W>, es: seq<E>)
    requires !s.obj.deleting && Settled(a, fair, s) && FairRun(a, fair, t, s, es)
    ensures Passes(a, t, s, es) == s
    decreases |es|
  {
    if es != [] {
      Quiescent(a, fair, t, s, es[0]);
      StaysSettled(a, fair, t, s, es[1..]);
    }
  }

  lemma {:induction false} PassesAppend<S, X, W, E>(
    a: Adapter<S, X, W, E>, fair: Fair<S, X, W, E>, t: Timers, s: Snapshot<S, X, W>, es: seq<E>, more: seq<E>)
    ensures Passes(a, t, s, es + more) == Passes(a, t, Passes(a, t, s, es), more)
    ensures FairRun(a, fair, t, s, es + more) <==>
        FairRun(a, fair, t, s, es) && FairRun(a, fair, t, Passes(a, t, s, es), more)
    decreases |es|
  {
    if es == [] {
      assert es + more == more;
    } else {
      assert (es + more)[1..] == es[1..] + more;
      PassesAppend(a, fair, t, Once(a, t, s, es[0]), es[1..], more);
    }
  }

  /** A resource within n passes of settling is settled after n, and any further ones change nothing. */
  lemma SettledAfter<S(!new), X(!new), W(!new), E(!new)>(
    a: Adapter<S, X, W, E>, fit: Fit<S, X, W>, fair: Fair<S, X, W, E>, t: Timers, s: Snapshot<S, X, W>, es: seq<E>,
    n: nat)
    requires Contract(a, fit, fair) && Live(fit, s) && FairRun(a, fair, t, s, es) && n <= 4 && n <= |es|
        && Within(a, fair, s, n)
    ensures var s' := Passes(a, t, s, es);
            Live(fit, s') && Settled(a, fair, s') && s' == Passes(a, t, s, es[..n])
  {
    assert es == es[..n] + es[n..];
    PassesAppend(a, fair, t, s, es[..n], es[n..]);
    SettlesWithin(a, fit, fair, t, s, es[..n]);
    StaysSettled(a, fair, t, Passes(a, t, s, es[..n]), es[n..]);
  }

  /** From any live state, in any sequence of fair environments, four passes reach Ready=True, and every
      later pass leaves the world and the stored resource alone and asks to be called again after the
      steady interval. */
  lemma ConvergesInFour<S(!new), X(!new), W(!new), E(!new)>(
    a: Adapter<S, X, W, E>, fit: Fit<S, X, W>, fair: Fair<S, X, W, E>, t: Timers, s: Snapshot<S, X, W>, es: seq<E>,
    e: E)
    requires Contract(a, fit, fair) && Live(fit, s) && FairRun(a, fair, t, s, es) && |es| >= 4
    requires fair(Passes(a, t, s, es).obj, Passes(a, t, s, es).world, e)
    ensures var s' := Passes(a, t, s, es);
            && s' == Passes(a, t, s, es[..4])
            && s'.obj.IsReady()
            && PassOver(a, t, s'.obj, s'.world, e, Done) == Pass(Some(s'.obj), s'.world, t.steady, false)
  {
    SettledAfter(a, fit, fair, t, s, es, 4);
    Quiescent(a, fair, t, Passes(a, t, s, es), e);
  }
}
