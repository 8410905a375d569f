/** The release sequences that end every fixture's cleanup: each held
    Playwright object is closed or disposed in a fixed order, and a release
    call that throws ends the sequence, its exception propagating to the
    caller. */
module Release {
  import opened Common
  import opened World

  /** The resources released, in the order they were released, and the
      exception that escaped. */
  datatype Outcome = Outcome(released: seq<Resource>, thrown: Option<Exception>)

  /** Releasing the resources of `order` that are `held`, one after the
      other; `faults` gives the exception a release call throws. */
  function ReleaseAll(order: seq<Resource>, held: set<Resource>, faults: map<Resource, Exception>): Outcome
  {
    if order == [] then Outcome([], None)
    else
      var r := order[0];
      var rest := ReleaseAll(order[1..], held, faults);
      if r !in held then rest
      else if r in faults then Outcome([], Some(faults[r]))
      else Outcome([r] + rest.released, rest.thrown)
  }

  /** The release calls made, in order. */
  function ReleaseEffects(released: seq<Resource>): seq<Effect>
  {
    if released == [] then [] else [ReleaseEffect(released[0])] + ReleaseEffects(released[1..])
  }

  predicate StrictlyRanked(order: seq<Resource>)
  {
    forall i, j :: 0 <= i < j < |order| ==> Rank(order[i]) < Rank(order[j])
  }

  /** Only resources that are held, listed in `order` and release without
      throwing are released. */
  lemma {:induction false} ReleasedWereHeld(order: seq<Resource>, held: set<Resource>, faults: map<Resource, Exception>)
    ensures forall r :: r in ReleaseAll(order, held, faults).released ==> r in held && r in order && r !in faults
  {
    if order != [] {
      ReleasedWereHeld(order[1..], held, faults);
      assert forall r :: r in order[1..] ==> r in order;
    }
  }

  /** The release calls made are one per released resource, each the call
      that releases it. */
  lemma {:induction false} ReleaseEffectsMatch(released: seq<Resource>)
    ensures |ReleaseEffects(released)| == |released|
    ensures forall i :: 0 <= i < |released| ==> ReleaseEffects(released)[i] == ReleaseEffect(released[i])
  {
    if released != [] {
      ReleaseEffectsMatch(released[1..]);
    }
  }

  /** Releases happen in the order given: when `order` lists the resources
      by rank, so do the releases made. */
  lemma {:induction false} ReleasedInOrder(order: seq<Resource>, held: set<Resource>, faults: map<Resource, Exception>)
    requires StrictlyRanked(order)
    ensures StrictlyRanked(ReleaseAll(order, held, faults).released)
  {
    if order != [] {
      var r := order[0];
      ReleasedInOrder(order[1..], held, faults);
      ReleasedWereHeld(order[1..], held, faults);
      var rest := ReleaseAll(order[1..], held, faults);
      assert forall q :: q in order[1..] ==> Rank(r) < Rank(q);
      assert forall k :: 0 <= k < |rest.released| ==> Rank(r) < Rank(rest.released[k]) by {
        forall k | 0 <= k < |rest.released|
          ensures Rank(r) < Rank(rest.released[k])
        {
          assert rest.released[k] in rest.released;
        }
      }
    }
  }

  /** Without a throwing release call, every held resource is released and
      nothing escapes. */
  lemma {:induction false} NoFaultReleasesAll(order: seq<Resource>, held: set<Resource>, faults: map<Resource, Exception>)
    requires forall r :: r in order && r in held ==> r !in faults
    ensures ReleaseAll(order, held, faults).thrown.None?
    ensures forall r :: r in order && r in held ==> r in ReleaseAll(order, held, faults).released
  {
    if order != [] {
      assert forall r :: r in order[1..] ==> r in order;
      NoFaultReleasesAll(order[1..], held, faults);
    }
  }

  /** An escaping exception is the one thrown by releasing a held resource,
      and that resource stays held. */
  lemma {:induction false} FaultStopsRelease(order: seq<Resource>, held: set<Resource>, faults: map<Resource, Exception>)
    requires ReleaseAll(order, held, faults).thrown.Some?
    ensures exists r :: r in order && r in held && r in faults &&
              r !in ReleaseAll(order, held, faults).released &&
              ReleaseAll(order, held, faults).thrown == Some(faults[r])
  {
    var r := order[0];
    var rest := ReleaseAll(order[1..], held, faults);
    if r !in held || r !in faults {
      FaultStopsRelease(order[1..], held, faults);
      var q :| q in order[1..] && q in held && q in faults && q !in rest.released && rest.thrown == Some(faults[q]);
      assert q in order;
    }
  }

  /** One step of `ReleaseAll`: the first resource, then the rest. */
  lemma ReleaseAllCons(r: Resource, rest: seq<Resource>, held: set<Resource>, faults: map<Resource, Exception>)
    ensures ReleaseAll([r] + rest, held, faults) ==
              if r !in held then ReleaseAll(rest, held, faults)
              else if r in faults then Outcome([], Some(faults[r]))
              else Outcome([r] + ReleaseAll(rest, held, faults).released, ReleaseAll(rest, held, faults).thrown)
  {
    assert ([r] + rest)[1..] == rest;
  }

  lemma ReleaseEffectsCons(r: Resource, rest: seq<Resource>)
    ensures ReleaseEffects([r] + rest) == [ReleaseEffect(r)] + ReleaseEffects(rest)
  {
    assert ([r] + rest)[1..] == rest;
  }

  /** The fixtures' release order lists each resource at its rank. */
  lemma OrderIsRanked()
    ensures forall j :: 0 <= j < |ReleaseOrder| ==> Rank(ReleaseOrder[j]) == j
  {
  }

  /** The order the fixtures that hold no page of their own dispose in. */
  const DisposeOrder: seq<Resource> := [Context, Browser, Playwright]

  /** Release blocks that leave the fields set: each held resource of
      `order` is released in turn, and a release call that throws ends the
      blocks, its exception propagating. */
  method DisposeInOrder(world: World, order: seq<Resource>, held: set<Resource>, faults: map<Resource, Exception>)
    returns (thrown: Option<Exception>)
    modifies world
    ensures world.log == old(world.log) + ReleaseEffects(ReleaseAll(order, held, faults).released)
    ensures thrown == ReleaseAll(order, held, faults).thrown
    decreases |order|
  {
    if order == [] {
      return None;
    }
    var r := order[0];
    if r in held {
      if r in faults {
        return Some(faults[r]);
      }
      world.log := world.log + [ReleaseEffect(r)];
    }
    ReleaseEffectsCons(r, ReleaseAll(order[1..], held, faults).released);
    thrown := DisposeInOrder(world, order[1..], held, faults);
  }
}
