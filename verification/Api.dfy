/** The API server as the operator's client sees it: a mutable store whose calls may fail. */
module Api {
  import opened Text
  import opened Model
  import opened Names
  import opened Resources
  import opened Compare
  import opened Plan
  import opened Probes

  datatype Err = Ok | NotFound | Conflict | Failed

  /** No call fails from some point on. */
  ghost predicate Quiet(outage: nat -> bool, from: nat)
  {
    forall n :: n >= from ==> !outage(n)
  }

  class ApiServer {
    var objects: Store
    const world: World
    /** Which calls fail, counted from the first. */
    const outage: nat -> bool
    var clock: nat
    /** How many calls failed, tests for the ServiceMonitor CRD not counted. */
    var failures: nat
    /** The tests for the CRD so far, and which of them were answered. */
    ghost var tests: Tests

    constructor (world: World, outage: nat -> bool, objects: Store)
      ensures this.objects == objects && this.world == world && this.outage == outage
      ensures clock == 0 && failures == 0 && tests == []
    {
      this.world, this.outage, this.objects := world, outage, objects;
      clock, failures, tests := 0, 0, [];
    }

    /** Time goes on, and failures are due to the outage. */
    ghost predicate Calm(clock0: nat, failures0: nat)
      reads this
    {
      clock >= clock0 && failures >= failures0 && (Quiet(outage, clock0) ==> failures == failures0)
    }

    /** One call reaches the server, or fails on the way. */
    method Tick() returns (failed: bool)
      modifies `clock
      ensures clock == old(clock) + 1 && failed == outage(old(clock))
    {
      failed := outage(clock);
      clock := clock + 1;
    }

    method Call() returns (failed: bool)
      modifies `clock, `failures
      ensures failures == if failed then old(failures) + 1 else old(failures)
      ensures Calm(old(clock), old(failures))
    {
      failed := Tick();
      if failed {
        failures := failures + 1;
      }
    }

    method Get(k: Key) returns (err: Err, found: Slot)
      modifies `clock, `failures
      ensures err != Conflict
      ensures err == Failed <==> failures > old(failures)
      ensures Calm(old(clock), old(failures))
      ensures err != Failed ==> found == At(objects, k) && (err == Ok <==> found.Some?)
    {
      var failed := Call();
      if failed {
        return Failed, None;
      }
      found := At(objects, k);
      err := if found.Some? then Ok else NotFound;
    }

    method Create(k: Key, o: Obj) returns (err: Err)
      modifies `objects, `clock, `failures
      ensures err == Failed <==> failures > old(failures)
      ensures Calm(old(clock), old(failures))
      ensures err == Conflict ==> k in old(objects)
      ensures err == Ok <==> err != Failed && k !in old(objects)
      ensures objects == if err == Ok then old(objects)[k := o] else old(objects)
    {
      var failed := Call();
      if failed {
        return Failed;
      }
      if k in objects {
        return Conflict;
      }
      objects := objects[k := o];
      err := Ok;
    }

    method Update(k: Key, o: Obj) returns (err: Err)
      modifies `objects, `clock, `failures
      ensures err == Failed <==> failures > old(failures)
      ensures Calm(old(clock), old(failures))
      ensures err == Ok <==> err != Failed && k in old(objects)
      ensures objects == if err == Ok then old(objects)[k := o] else old(objects)
    {
      var failed := Call();
      if failed {
        return Failed;
      }
      if k !in objects {
        return NotFound;
      }
      objects := objects[k := o];
      err := Ok;
    }

    method Delete(k: Key) returns (err: Err)
      modifies `objects, `clock, `failures
      ensures err == Failed <==> failures > old(failures)
      ensures Calm(old(clock), old(failures))
      ensures err == Ok <==> err != Failed && k in old(objects)
      ensures objects == if err == Ok then old(objects) - {k} else old(objects)
    {
      var failed := Call();
      if failed {
        return Failed;
      }
      if k !in objects {
        return NotFound;
      }
      objects := objects - {k};
      err := Ok;
    }

    /** The objects of a kind in a namespace that carry both labels of a component. */
    method ListLabelled(kind: Kind, who: Who, c: Component) returns (err: Err, keys: set<Key>)
      modifies `clock, `failures
      ensures err == Ok || err == Failed
      ensures err == Failed <==> failures > old(failures)
      ensures Calm(old(clock), old(failures))
      ensures err == Ok ==> forall k :: k in keys <==> Hit(who, c, kind, ByLabel({}), k, At(objects, k))
    {
      var failed := Call();
      if failed {
        return Failed, {};
      }
      keys := set k | k in objects.Keys && k.kind == kind && k.ns == who.ns && Labelled(objects[k], who.name, c);
      err := Ok;
    }

    /** The objects of a kind in a namespace. */
    method List(kind: Kind, ns: string) returns (err: Err, items: map<Key, Obj>)
      modifies `clock, `failures
      ensures err == Ok || err == Failed
      ensures err == Failed <==> failures > old(failures)
      ensures Calm(old(clock), old(failures))
      ensures err == Ok ==> forall k :: At(items, k) == if k.kind == kind && k.ns == ns then At(objects, k) else None
    {
      var failed := Call();
      if failed {
        return Failed, map[];
      }
      items := map k | k in objects.Keys && k.kind == kind && k.ns == ns :: objects[k];
      err := Ok;
    }

    /** isServiceMonitorCRDAvailable, at the turn of component `c`. */
    method MonitorCrdAvailable(ghost c: Component) returns (err: Err, available: bool)
      modifies `clock, `tests
      ensures err == Ok || err == Failed
      ensures clock == old(clock) + 1 && (err == Failed <==> outage(old(clock)))
      ensures tests == old(tests) + [Test(c, err == Ok)]
      ensures available == (err == Ok && world.crd)
    {
      var failed := Tick();
      tests := tests + [Test(c, !failed)];
      if failed {
        return Failed, false;
      }
      return Ok, world.crd;
    }
  }
}
