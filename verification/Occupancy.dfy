/** A container is BOOKED exactly while it is empty, whatever the public event endpoint writes. */
module Occupancy {
  import opened Basics
  import opened Statuses
  import opened CargoState
  import opened CargoSteps
  import opened CargoRuns
  import opened CargoEffects

  ghost predicate Occupied(containers: map<ContainerId, Container>, links: seq<Link>) {
    forall c :: c in containers ==> (containers[c].status.Booked? <==> NobodyAboard(links, {InContainer(c)}))
  }

  // The row appended is the only one that can fill an empty unit.
  lemma RowAppended(links: seq<Link>, l: Link)
    requires l.active
    ensures !NobodyAboard(links + [l], {l.unit})
    ensures forall u :: u != l.unit ==> (NobodyAboard(links + [l], {u}) <==> NobodyAboard(links, {u}))
  {
    assert Carries((links + [l])[|links|], {l.unit});
    forall u | u != l.unit && NobodyAboard(links + [l], {u})
      ensures NobodyAboard(links, {u})
    {
      assert forall k :: 0 <= k < |links| ==> (links + [l])[k] == links[k];
    }
  }

  // Retiring a row concerns its own unit only.
  lemma RowRetired(links: seq<Link>, k: nat)
    requires k < |links|
    ensures forall u :: u != links[k].unit ==> (NobodyAboard(Retire(links, k), {u}) <==> NobodyAboard(links, {u}))
  {
    forall u | u != links[k].unit && NobodyAboard(Retire(links, k), {u})
      ensures NobodyAboard(links, {u})
    {
      assert forall j :: 0 <= j < |links| && j != k ==> links[j] == Retire(links, k)[j];
    }
  }

  // Loading and unloading change the rows and the status of one container together.
  lemma LoadKeepsOccupied(s: State, t: State, c: ContainerId, i: ItemId, now: Time)
    requires Wf(s) && Occupied(s.containers, s.links) && Load(s, c, i, now) == Ok(t)
    ensures Occupied(t.containers, t.links)
  {
    LoadEffect(s, t, c, i, now);
    RowAppended(s.links, t.links[|s.links|]);
  }

  lemma UnloadKeepsOccupied(s: State, t: State, c: ContainerId, i: ItemId, now: Time)
    requires Wf(s) && Occupied(s.containers, s.links) && Unload(s, c, i, now) == Ok(t)
    ensures Occupied(t.containers, t.links)
  {
    UnloadEffect(s, t, c, i, now);
    var k := FindRow(s.links, InContainer(c), i);
    assert Carries(s.links[k], {InContainer(c)});
    RowRetired(s.links, k);
  }

  // Rows of flights do not concern containers.
  lemma AssignmentKeepsOccupied(s: State, t: State, call: Call)
    requires Wf(s) && Occupied(s.containers, s.links) && Try(s, call) == Ok(t)
    requires call.step.AssignItemStep? || call.step.UnassignItemStep?
    ensures Occupied(t.containers, t.links)
  {
    match call.step {
      case AssignItemStep(m, i, conflict) =>
        AssignItemEffect(s, t, m, i, conflict, call.now);
        RowAppended(s.links, t.links[|s.links|]);
      case UnassignItemStep(m, i) =>
        UnassignItemEffect(s, t, m, i, call.now);
        RowRetired(s.links, FindRow(s.links, OnManifest(m), i));
    }
  }

  // The statuses move, but no row does.
  lemma TransportKeepsOccupied(s: State, t: State, call: Call)
    requires Wf(s) && Occupied(s.containers, s.links) && Try(s, call) == Ok(t)
    requires call.step.SealStep? || call.step.DepartStep? || call.step.ArriveStep? || call.step.FinalizeStep?
    ensures Occupied(t.containers, t.links)
  {
    hide Seal, Depart, Arrive, FinalizeManifest, CargoRolled, CargoIs, EmptyManifest;
    match call.step {
      case SealStep(c) => SealEffect(s, t, c, call.now);
      case DepartStep(m) => DepartEffect(s, t, m, call.now);
      case ArriveStep(m) => ArriveEffect(s, t, m, call.now);
      case FinalizeStep(m) => FinalizeEffect(s, t, m, call.now);
    }
  }

  lemma StepKeepsOccupied(s: State, t: State, call: Call)
    requires Wf(s) && Occupied(s.containers, s.links) && Try(s, call) == Ok(t)
    ensures Occupied(t.containers, t.links)
  {
    hide Load, Unload, Seal, AssignItem, UnassignItem, FinalizeManifest, Depart, Arrive, AssignContainer, UnassignContainer;
    if DeskStep(call.step) {
      DeskStepEffect(s, t, call);
      return;
    }
    match call.step {
      case LoadStep(c, i) => LoadKeepsOccupied(s, t, c, i, call.now);
      case UnloadStep(c, i) => UnloadKeepsOccupied(s, t, c, i, call.now);
      case AssignItemStep(_, _, _) => AssignmentKeepsOccupied(s, t, call);
      case UnassignItemStep(_, _) => AssignmentKeepsOccupied(s, t, call);
      case SealStep(_) => TransportKeepsOccupied(s, t, call);
      case FinalizeStep(_) => TransportKeepsOccupied(s, t, call);
      case DepartStep(_) => TransportKeepsOccupied(s, t, call);
      case ArriveStep(_) => TransportKeepsOccupied(s, t, call);
      case CreateContainerStep(c, wh) => assert NobodyAboard(s.links, {InContainer(c)});
      case AssignContainerStep(m, c, conflict) => AssignContainerEffect(s, t, m, c, conflict, call.now);
      case UnassignContainerStep(m, c) => UnassignContainerEffect(s, t, m, c, call.now);
      case _ =>
    }
  }

  lemma {:induction false} RunsKeepOccupied(s: State, calls: seq<Call>)
    requires Wf(s) && Occupied(s.containers, s.links)
    ensures Occupied(RunFrom(s, calls).containers, RunFrom(s, calls).links)
  {
    if calls != [] {
      var n := |calls| - 1;
      RunsKeepOccupied(s, calls[..n]);
      var before := RunFrom(s, calls[..n]);
      if Try(before, calls[n]).Ok? {
        StepKeepsOccupied(before, Try(before, calls[n]).value, calls[n]);
      }
    }
  }

  // In every reachable state, manual events included: BOOKED containers are empty, all others are
  // not, and sealing never meets an empty container.
  lemma BookedExactlyWhenEmpty(warehouses: set<WarehouseId>, calls: seq<Call>, c: ContainerId, now: Time)
    requires c in Run(warehouses, calls).containers
    ensures var s := Run(warehouses, calls);
      && (s.containers[c].status.Booked? <==> NobodyAboard(s.links, {InContainer(c)}))
      && Seal(s, c, now) != Err(BadRequest)
  {
    RunsKeepOccupied(Empty(warehouses), calls);
  }
}
