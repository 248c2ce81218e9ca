/** What one reconcile pass does, whatever the adapter: which calls it makes and what it keeps of
    the stored resource. */
module PassShape {
  import opened Support
  import opened Reconciler

  /** What a pass keeps of the stored resource. */
  ghost predicate Continues<S, X>(o: CR<S, X>, o': CR<S, X>) {
    o'.uid == o.uid && o'.deleting == o.deleting && o'.spec == o.spec && o'.policy == o.policy
      && (o.finalizer ==> o'.finalizer)
  }

  /** The resource and the world after the adapter calls of a live pass. */
  function AfterCalls<S, X, W, E>(a: Adapter<S, X, W, E>, obj: CR<S, X>, w: W, e: E): (CR<S, X>, W) {
    var v := a.observe(obj, w, e);
    if v.result.Err? || (v.result.value.present && v.result.value.upToDate) then (v.obj, v.world)
    else if !v.result.value.present then var c := a.create(v.obj, v.world, e); (c.obj, c.world)
    else var u := a.update(v.obj, v.world, e); (u.obj, u.world)
  }

  /** A live pass persists what those calls left, or nothing if its write is rejected. */
  lemma LivePassPersists<S, X, W, E>(a: Adapter<S, X, W, E>, t: Timers, obj: CR<S, X>, w: W, e: E, write: Write)
    requires !obj.deleting && obj.finalizer
    ensures var p := PassOver(a, t, obj, w, e, write);
            var (o, w') := AfterCalls(a, obj, w, e);
            && p.world == w' && p.obj.Some? && Continues(obj, p.obj.value)
            && (write.Rejected? ==> p.obj.value == obj)
            && (!write.Rejected? ==> p.obj.value.id == o.id && p.obj.value.status == o.status)
  {
  }

  /** Which adapter call a live pass makes, and whose identity it may record. */
  lemma LivePassShape<S, X, W, E>(a: Adapter<S, X, W, E>, t: Timers, obj: CR<S, X>, w: W, e: E, write: Write)
    requires !obj.deleting && obj.finalizer
    ensures var p := PassOver(a, t, obj, w, e, write);
            var v := a.observe(obj, w, e);
            && p.obj.Some? && Continues(obj, p.obj.value)
            && (v.result.Err? || (v.result.value.present && v.result.value.upToDate) ==>
                  p.world == v.world && p.obj.value.id in {obj.id, v.obj.id})
            && (v.result.Ok? && !v.result.value.present ==>
                  var c := a.create(v.obj, v.world, e);
                  p.world == c.world && p.obj.value.id in {obj.id, c.obj.id})
            && (v.result.Ok? && v.result.value.present && !v.result.value.upToDate ==>
                  var u := a.update(v.obj, v.world, e);
                  p.world == u.world && p.obj.value.id in {obj.id, u.obj.id})
            && (p.obj.value.IsReady() ==>
                  p.obj.value == obj ||
                  (v.result.Ok? && v.result.value.present && v.result.value.upToDate && p.obj.value.id == v.obj.id))
  {
  }

  /** A pass over a deletion-marked resource makes the delete call, or none for the Orphan policy;
      the resource is released exactly when that call succeeds and the write goes through. */
  lemma DeletePassShape<S, X, W, E>(a: Adapter<S, X, W, E>, t: Timers, obj: CR<S, X>, w: W, e: E, write: Write)
    requires obj.deleting && obj.finalizer
    ensures var p := PassOver(a, t, obj, w, e, write);
            var d := a.delete(obj, w, e);
            && p.world == (if obj.policy == OrphanPolicy then w else d.world)
            && (p.obj.None? <==> (obj.policy == OrphanPolicy || d.result.Ok?) && !write.Rejected?)
            && (p.obj.Some? ==> Continues(obj, p.obj.value) && p.obj.value.id in {obj.id, d.obj.id})
            && (p.obj.Some? && obj.IsReady() && p.obj.value.IsReady() ==> write.Rejected?)
  {
  }

  /** A live pass whose write goes through rewrites nothing but finalizer, identity, status and condition. */
  lemma LivePassKeepsRest<S, X, W, E>(a: Adapter<S, X, W, E>, t: Timers, obj: CR<S, X>, w: W, e: E, write: Write)
    requires !obj.deleting
    ensures var p := PassOver(a, t, obj, w, e, write);
            p.obj.Some? && var o := p.obj.value;
              o == obj.(id := o.id, status := o.status, condition := o.condition, finalizer := o.finalizer)
              && (write == Done ==> o.finalizer)
  {
  }

  // ---- What a pass reports

  /** The condition left on the resource, the interval asked for, and whether an error is returned. */
  ghost predicate Reports<S, X, W>(p: Pass<S, X, W>, condition: Condition, requeueAfter: int, failed: bool) {
    p.obj.Some? && p.obj.value.condition == condition && p.requeueAfter == requeueAfter && p.failed == failed
  }

  /** Ready=True means exactly: observed to exist, up to date and ready. */
  lemma LivePassReadyIff<S, X, W, E>(a: Adapter<S, X, W, E>, t: Timers, obj: CR<S, X>, w: W, e: E)
    requires !obj.deleting && obj.finalizer
    ensures var p := PassOver(a, t, obj, w, e, Done);
            p.obj.Some? && (p.obj.value.IsReady() <==> a.observe(obj, w, e).result == Ok(Observation(true, true, true)))
  {
  }

  /** What a live pass reports, case by case, when its write goes through. */
  lemma LivePassReports<S, X, W, E>(a: Adapter<S, X, W, E>, t: Timers, obj: CR<S, X>, w: W, e: E)
    requires !obj.deleting && obj.finalizer
    ensures var p := PassOver(a, t, obj, w, e, Done);
            var v := a.observe(obj, w, e);
            var created, updated := a.create(v.obj, v.world, e).result, a.update(v.obj, v.world, e).result;
            && (v.result == Err(DependencyNotReady) ==>
                  Reports(p, Ready(false, WaitingForDependency), t.dependency, false))
            && (v.result.Err? && v.result.error != DependencyNotReady ==>
                  Reports(p, Ready(false, ObserveFailed), 0, true))
            && (v.result.Ok? && !v.result.value.present && created.Ok? ==>
                  Reports(p, Ready(false, Creating), t.pending, false))
            && (v.result.Ok? && !v.result.value.present && created.Err? ==>
                  Reports(p, Ready(false, CreateFailed), 0, true))
            && (v.result.Ok? && v.result.value.present && !v.result.value.upToDate ==>
                  && (updated.Ok? ==> Reports(p, Ready(false, Updating), t.pending, false))
                  && (updated == Err(Pending) ==> Reports(p, Ready(false, InTransition), t.pending, false))
                  && (updated == Err(DependencyNotReady) ==>
                        Reports(p, Ready(false, WaitingForDependency), t.pending, false))
                  && (updated.Err? && updated.error != Pending && updated.error != DependencyNotReady ==>
                        Reports(p, Ready(false, UpdateFailed), 0, true)))
            && (v.result == Ok(Observation(true, true, false)) ==>
                  Reports(p, Ready(false, InTransition), t.pending, false))
            && (v.result == Ok(Observation(true, true, true)) ==> Reports(p, Ready(true, Available), t.steady, false))
  {
  }

  /** A write that is rejected, or whose reply is lost, turns the pass into a failing one; the interval stays. */
  lemma LostWriteFails<S, X, W, E>(a: Adapter<S, X, W, E>, t: Timers, obj: CR<S, X>, w: W, e: E, write: Write)
    requires obj.deleting ==> obj.finalizer
    ensures var p, done := PassOver(a, t, obj, w, e, write), PassOver(a, t, obj, w, e, Done);
            && p.failed == (done.failed || write != Done) && p.requeueAfter == done.requeueAfter
                 && p.world == done.world
            && (write == Rejected ==> p.obj == Some(obj)) && (write == DoneNoReply ==> p.obj == done.obj)
  {
  }

  /** The first pass over a new resource adds the finalizer and nothing else. */
  lemma FirstPassAddsFinalizer<S, X, W, E>(a: Adapter<S, X, W, E>, t: Timers, obj: CR<S, X>, w: W, e: E)
    requires !obj.deleting && !obj.finalizer
    ensures PassOver(a, t, obj, w, e, Done) == Pass(Some(obj.(finalizer := true)), w, 0, false)
  {
  }

  /** What a pass over a resource being deleted reports, case by case, when its write goes through. */
  lemma DeletePassReports<S, X, W, E>(a: Adapter<S, X, W, E>, t: Timers, obj: CR<S, X>, w: W, e: E)
    requires obj.deleting
    ensures var p, d := PassOver(a, t, obj, w, e, Done), a.delete(obj, w, e);
            && (!obj.finalizer ==> p == Pass(Some(obj), w, 0, false))
            && (obj.finalizer && obj.policy == OrphanPolicy ==> p == Pass(None, w, 0, false))
            && (obj.finalizer && obj.policy == DeletePolicy ==>
                  && p.world == d.world
                  && (d.result.Ok? ==> p.obj.None? && p.requeueAfter == 0 && !p.failed)
                  && (d.result == Err(Pending) ==> Reports(p, Ready(false, Deleting), t.pending, false))
                  && (d.result.Err? && d.result.error != Pending ==> Reports(p, Ready(false, DeleteFailed), 0, true)))
  {
  }
}
