/** The generic reconcile loop (internal/reconciler). An adapter is a record of four
    operations over a custom resource, the outside world, and the environment of one pass
    (which calls fail, and how). */
module Reconciler {
  import opened Support

  datatype DeletionPolicy = DeletePolicy | OrphanPolicy

  datatype Reason = Available | Creating | Updating | InTransition | Deleting | WaitingForDependency
                  | ObserveFailed | CreateFailed | UpdateFailed | DeleteFailed

  datatype Condition = Unset | Ready(status: bool, reason: Reason)

  /** A stored custom resource; `id` is GetExternalID, `status` the rest of the kind's status. */
  datatype CR<+S, +X> = CR(name: string, uid: string, deleting: bool, finalizer: bool, policy: DeletionPolicy,
                           spec: S, id: Uuid, status: X, condition: Condition)
  {
    function SetReady(status: bool, reason: Reason): CR<S, X> { this.(condition := Ready(status, reason)) }

    predicate IsReady() { condition.Ready? && condition.status }
  }

  datatype Observation = Observation(present: bool, upToDate: bool, ready: bool)

  const ABSENT := Observation(false, false, false)

  datatype Outcome<+S, +X, +W, +R> = Outcome(obj: CR<S, X>, world: W, result: Result<R>)

  datatype Adapter<!S, !X, !W, !E> = Adapter(
    observe: (CR<S, X>, W, E) -> Outcome<S, X, W, Observation>,
    create: (CR<S, X>, W, E) -> Outcome<S, X, W, ()>,
    update: (CR<S, X>, W, E) -> Outcome<S, X, W, ()>,
    delete: (CR<S, X>, W, E) -> Outcome<S, X, W, ()>)

  /** Requeue intervals in seconds. */
  datatype Timers = Timers(pending: int, dependency: int, steady: int)

  const DEFAULT_REQUEUE := 15
  const DEFAULT_STEADY := 300

  /** No interval is left at zero, one that was set is kept, and whoever sets none gets 15 seconds while
      waiting and 5 minutes when steady. */
  function Defaulted(t: Timers): (r: Timers)
    ensures r.pending != 0 && r.dependency != 0 && r.steady != 0
    ensures t.pending in {0, r.pending} && t.dependency in {0, r.dependency} && t.steady in {0, r.steady}
    ensures t == Timers(0, 0, 0) ==> r == Timers(15, 15, 5 * 60)
    ensures t.pending >= 0 && t.dependency >= 0 && t.steady >= 0 ==> r.pending > 0 && r.dependency > 0 && r.steady > 0
  {
    Timers(if t.pending == 0 then DEFAULT_REQUEUE else t.pending,
           if t.dependency == 0 then DEFAULT_REQUEUE else t.dependency,
           if t.steady == 0 then DEFAULT_STEADY else t.steady)
  }

  /** What one pass leaves: the stored resource (None once released), the world, and the answer
      given to the work queue. */
  datatype Pass<+S, +X, +W> = Pass(obj: Option<CR<S, X>>, world: W, requeueAfter: int, failed: bool)

  function Stored<T>(before: T, after: T, write: Write): T { if write.Rejected? then before else after }

  /** A status patch touches the status only. */
  function Patched<S, X>(before: CR<S, X>, after: CR<S, X>, write: Write): CR<S, X> {
    Stored(before, before.(id := after.id, status := after.status, condition := after.condition), write)
  }

  /** End of a pass by status patch. */
  function Finish<S, X, W>(
    before: CR<S, X>, after: CR<S, X>, w: W, requeueAfter: int, failed: bool, write: Write): Pass<S, X, W> {
    Pass(Some(Patched(before, after, write)), w, requeueAfter, failed || write != Done)
  }

  function NormalPass<S, X, W, E>(
    a: Adapter<S, X, W, E>, t: Timers, obj: CR<S, X>, w: W, e: E, write: Write): Pass<S, X, W> {
    var o := a.observe(obj, w, e);
    match o.result
    case Err(DependencyNotReady) =>
      Finish(obj, o.obj.SetReady(false, WaitingForDependency), o.world, t.dependency, false, write)
    case Err(_) => Finish(obj, o.obj.SetReady(false, ObserveFailed), o.world, 0, true, write)
    case Ok(seen) =>
      if !seen.present then
        var c := a.create(o.obj, o.world, e);
        if c.result.Err? then Finish(obj, c.obj.SetReady(false, CreateFailed), c.world, 0, true, write)
        else Finish(obj, c.obj.SetReady(false, Creating), c.world, t.pending, false, write)
      else if !seen.upToDate then
        var u := a.update(o.obj, o.world, e);
        match u.result {
          case Err(Pending) => Finish(obj, u.obj.SetReady(false, InTransition), u.world, t.pending, false, write)
          case Err(DependencyNotReady) =>
            Finish(obj, u.obj.SetReady(false, WaitingForDependency), u.world, t.pending, false, write)
          case Err(_) => Finish(obj, u.obj.SetReady(false, UpdateFailed), u.world, 0, true, write)
          case Ok(_) => Finish(obj, u.obj.SetReady(false, Updating), u.world, t.pending, false, write)
        }
      else if !seen.ready then Finish(obj, o.obj.SetReady(false, InTransition), o.world, t.pending, false, write)
      else Finish(obj, o.obj.SetReady(true, Available), o.world, t.steady, false, write)
  }

  /** Removing the last finalizer of a deletion-marked resource makes it disappear. */
  function Release<S, X, W>(obj: CR<S, X>, w: W, write: Write): Pass<S, X, W> {
    Pass(Stored(Some(obj), None, write), w, 0, write != Done)
  }

  function DeletePass<S, X, W, E>(
    a: Adapter<S, X, W, E>, t: Timers, obj: CR<S, X>, w: W, e: E, write: Write): Pass<S, X, W> {
    if !obj.finalizer then Pass(Some(obj), w, 0, false)
    else if obj.policy == OrphanPolicy then Release(obj, w, write)
    else
      var d := a.delete(obj, w, e);
      match d.result
      case Err(Pending) => Finish(obj, d.obj.SetReady(false, Deleting), d.world, t.pending, false, write)
      case Err(_) => Finish(obj, d.obj.SetReady(false, DeleteFailed), d.world, 0, true, write)
      case Ok(_) => Release(obj, d.world, write)
  }

  /** One reconcile of one stored resource. */
  function PassOver<S, X, W, E>(
    a: Adapter<S, X, W, E>, t: Timers, obj: CR<S, X>, w: W, e: E, write: Write): Pass<S, X, W> {
    if obj.deleting then DeletePass(a, t, obj, w, e, write)
    else if !obj.finalizer then Pass(Some(Stored(obj, obj.(finalizer := true), write)), w, 0, write != Done)
    else NormalPass(a, t, obj, w, e, write)
  }

  /** The loop as the source runs it: it fills in its own defaults, works on a copy of the
      resource, and writes that copy back to the API server. */
  class Loop<!S, !X, !W, !E> {
    const adapter: Adapter<S, X, W, E>
    var timers: Timers
    /** The API server's objects of this kind, by name. */
    var objects: map<string, CR<S, X>>
    /** Everything the adapter reads and writes. */
    var world: W

    constructor (adapter: Adapter<S, X, W, E>, timers: Timers, objects: map<string, CR<S, X>>, world: W)
      ensures this.adapter == adapter && this.timers == timers && this.objects == objects && this.world == world
    {
      this.adapter := adapter;
      this.timers := timers;
      this.objects := objects;
      this.world := world;
    }

    method FillDefaults()
      modifies this`timers
      ensures timers == Defaulted(old(timers))
    {
      if timers.pending == 0 { timers := timers.(pending := DEFAULT_REQUEUE); }
      if timers.dependency == 0 { timers := timers.(dependency := DEFAULT_REQUEUE); }
      if timers.steady == 0 { timers := timers.(steady := DEFAULT_STEADY); }
    }

    method PatchStatus(name: string, before: CR<S, X>, after: CR<S, X>, write: Write) returns (failed: bool)
      requires name in objects && objects[name] == before
      modifies this`objects
      ensures objects == old(objects)[name := Patched(before, after, write)]
      ensures failed == (write != Done)
    {
      if !write.Rejected? {
        objects := objects[name := before.(id := after.id, status := after.status, condition := after.condition)];
      }
      failed := write != Done;
    }

    /** Reconcile one request. `getFails` is a failing read of the resource, `write` the fate of the
        one write the pass makes. */
    method Reconcile(name: string, e: E, getFails: bool, write: Write) returns (requeueAfter: int, failed: bool)
      modifies this
      ensures timers == Defaulted(old(timers))
      ensures getFails || name !in old(objects) ==>
                objects == old(objects) && world == old(world) && requeueAfter == 0 && failed == getFails
      ensures !getFails && name in old(objects) ==>
                var p := PassOver(adapter, timers, old(objects)[name], old(world), e, write);
                && world == p.world && requeueAfter == p.requeueAfter && failed == p.failed
                && objects == if p.obj.Some? then old(objects)[name := p.obj.value] else old(objects) - {name}
    {
      FillDefaults();
      if getFails || name !in objects {
        return 0, getFails;
      }
      var obj := objects[name];
      if obj.deleting {
        requeueAfter, failed := ReconcileDelete(name, obj, e, write);
        return;
      }
      if !obj.finalizer {
        if !write.Rejected? { objects := objects[name := obj.(finalizer := true)]; }
        return 0, write != Done;
      }
      requeueAfter, failed := ReconcileNormal(name, obj, e, write);
    }

    method ReconcileNormal(name: string, before: CR<S, X>, e: E, write: Write) returns (requeueAfter: int, failed: bool)
      requires name in objects && objects[name] == before
      modifies this`objects, this`world
      ensures var p := NormalPass(adapter, timers, before, old(world), e, write);
              && world == p.world && requeueAfter == p.requeueAfter && failed == p.failed
              && objects == old(objects)[name := p.obj.value]
    {
      var obj := before;
      var o := adapter.observe(obj, world, e);
      obj, world := o.obj, o.world;
      var err := false;
      requeueAfter := 0;
      if o.result.Err? {
        if o.result.error == DependencyNotReady {
          obj, requeueAfter := obj.SetReady(false, WaitingForDependency), timers.dependency;
        } else {
          obj, err := obj.SetReady(false, ObserveFailed), true;
        }
      } else if !o.result.value.present {
        var c := adapter.create(obj, world, e);
        obj, world := c.obj, c.world;
        if c.result.Err? {
          obj, err := obj.SetReady(false, CreateFailed), true;
        } else {
          obj, requeueAfter := obj.SetReady(false, Creating), timers.pending;
        }
      } else if !o.result.value.upToDate {
        var u := adapter.update(obj, world, e);
        obj, world := u.obj, u.world;
        if u.result.Err? && u.result.error == Pending {
          obj, requeueAfter := obj.SetReady(false, InTransition), timers.pending;
        } else if u.result.Err? && u.result.error == DependencyNotReady {
          obj, requeueAfter := obj.SetReady(false, WaitingForDependency), timers.pending;
        } else if u.result.Err? {
          obj, err := obj.SetReady(false, UpdateFailed), true;
        } else {
          obj, requeueAfter := obj.SetReady(false, Updating), timers.pending;
        }
      } else if !o.result.value.ready {
        obj, requeueAfter := obj.SetReady(false, InTransition), timers.pending;
      } else {
        obj, requeueAfter := obj.SetReady(true, Available), timers.steady;
      }
      var patchFailed := PatchStatus(name, before, obj, write);
      failed := err || patchFailed;
    }

    method ReconcileDelete(name: string, before: CR<S, X>, e: E, write: Write) returns (requeueAfter: int, failed: bool)
      requires name in objects && objects[name] == before
      modifies this`objects, this`world
      ensures var p := DeletePass(adapter, timers, before, old(world), e, write);
              && world == p.world && requeueAfter == p.requeueAfter && failed == p.failed
              && objects == if p.obj.Some? then old(objects)[name := p.obj.value] else old(objects) - {name}
    {
      if !before.finalizer {
        return 0, false;
      }
      if before.policy != OrphanPolicy {
        var d := adapter.delete(before, world, e);
        world := d.world;
        if d.result.Err? {
          var reason := if d.result.error == Pending then Deleting else DeleteFailed;
          var patchFailed := PatchStatus(name, before, d.obj.SetReady(false, reason), write);
          return if d.result.error == Pending then timers.pending else 0, d.result.error != Pending || patchFailed;
        }
      }
      if !write.Rejected? { objects := objects - {name}; }
      return 0, write != Done;
    }
  }
}
