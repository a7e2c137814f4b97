/**
 * `D3D10StateObjectSet`: the per-device cache that hands out one state
 * object per distinct descriptor.
 */
module StateObjectSet {

  /**
   * What `Create` does to a cache `objects` whose next new object would be
   * `next`: the cached object for `desc` if there is one, otherwise `next`,
   * entered under `desc`.
   */
  function CreateStep<D>(objects: map<D, nat>, next: nat, desc: D): (r: (nat, map<D, nat>, nat))
    ensures desc in objects ==> r == (objects[desc], objects, next)
    ensures desc !in objects ==> r.0 == next && r.1 == objects[desc := next] && r.2 == next + 1
    ensures desc in r.1 && r.1[desc] == r.0 && objects.Keys <= r.1.Keys
  {
    if desc in objects then (objects[desc], objects, next) else (next, objects[desc := next], next + 1)
  }

  /** Every cached object was handed out before `next`. */
  predicate Fresh<D>(objects: map<D, nat>, next: nat) {
    forall d :: d in objects ==> objects[d] < next
  }

  /**
   * Idempotence: creating from an equal descriptor a second time returns
   * the same object and leaves the cache as the first call left it, which
   * is at most one entry larger than before.
   */
  lemma CreateIdempotent<D>(objects: map<D, nat>, next: nat, desc: D)
    ensures var first := CreateStep(objects, next, desc);
      var second := CreateStep(first.1, first.2, desc);
      second.0 == first.0 && second.1 == first.1 && |first.1| <= |objects| + 1
  {
    var first := CreateStep(objects, next, desc);
    if desc !in objects {
      assert first.1.Keys == objects.Keys + {desc};
    }
  }

  /** A new descriptor gets an object no other descriptor holds. */
  lemma CreateNewIsDistinct<D>(objects: map<D, nat>, next: nat, desc: D, other: D)
    requires Fresh(objects, next) && desc !in objects && other in objects
    ensures CreateStep(objects, next, desc).0 != objects[other]
    ensures Fresh(CreateStep(objects, next, desc).1, CreateStep(objects, next, desc).2)
  {
  }

  /** The cache for one kind of state object, with descriptors of type `D`. */
  class D3D10StateObjectSet<D(==)> {
    var objects: map<D, nat>
    var next: nat

    ghost predicate Valid()
      reads this
    {
      Fresh(objects, next)
    }

    constructor()
      ensures Valid() && objects == map[]
    {
      objects := map[];
      next := 0;
    }

    /**
     * `Create`: the cached object for an equal descriptor, with no insert;
     * otherwise a new object entered under `desc`. Entries are never
     * removed.
     */
    method Create(desc: D) returns (obj: nat)
      requires Valid()
      modifies this
      ensures Valid()
      ensures (obj, objects, next) == CreateStep(old(objects), old(next), desc)
      ensures old(objects).Keys <= objects.Keys && desc in objects && objects[desc] == obj
      ensures desc !in old(objects) ==> forall d :: d in old(objects) ==> old(objects)[d] != obj
    {
      if desc in objects {
        obj := objects[desc];
        return;
      }
      obj := next;
      objects := objects[desc := obj];
      next := next + 1;
    }
  }
}
