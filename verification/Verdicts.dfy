/**
 The status a call leaves each shipment in, said outright: one decision for each kind of call,
 from the shipment's old status and the statuses its items have afterwards.
 */
module Verdicts {
  import opened Basics
  import opened Statuses
  import opened CargoState
  import opened CargoSteps
  import opened CargoRuns
  import opened CargoEffects
  import opened Lockstep
  import opened Stranding
  import opened StrandingSteps
  import opened Earning
  import opened ClosingRuns

  // --- What is asked of the items -----------------------------------------------------------

  predicate IsReceived(it: Item) {
    it.receivedAt.Some?
  }

  predicate IsProcessed(it: Item) {
    !(it.status.Registered? || it.status.ReceivedOriginWarehouse? || it.status.Exception?)
  }

  predicate IsCommitted(it: Item) {
    IsProcessed(it) && !it.status.Processed?
  }

  predicate IsBoxed(it: Item) {
    it.status.AssignedToContainer? || it.status.Loaded?
  }

  predicate IsLoaded(it: Item) {
    IsCommitted(it) && !it.status.AssignedToContainer? && !it.status.AssignedToManifest?
  }

  predicate HasDeparted(it: Item) {
    IsLoaded(it) && !it.status.Loaded?
  }

  predicate HasArrived(it: Item) {
    HasDeparted(it) && !it.status.DepartedOrigin?
  }

  predicate IsThere(it: Item) {
    it.status.ReceivedDestinationWarehouse? || it.status.OutForDelivery? || it.status.Delivered? || it.status.PickedUp?
  }

  predicate IsOut(it: Item) {
    it.status.OutForDelivery? || it.status.Delivered? || it.status.PickedUp?
  }

  predicate IsHandedOver(it: Item) {
    it.status.Delivered? || it.status.PickedUp?
  }

  datatype Question = Received | Processed | Committed | Boxed | LoadedOnly | LoadedOrFurther | Departed | Arrived | There | Out | HandedOver

  predicate Holds(q: Question, it: Item) {
    match q
    case Received => IsReceived(it)
    case Processed => IsProcessed(it)
    case Committed => IsCommitted(it)
    case Boxed => IsBoxed(it)
    case LoadedOnly => it.status.Loaded?
    case LoadedOrFurther => IsLoaded(it)
    case Departed => HasDeparted(it)
    case Arrived => HasArrived(it)
    case There => IsThere(it)
    case Out => IsOut(it)
    case HandedOver => IsHandedOver(it)
  }

  ghost predicate All(items: map<ItemId, Item>, sh: ShipmentId, q: Question) {
    forall i :: i in items && items[i].shipment == sh ==> Holds(q, items[i])
  }

  ghost predicate Any(items: map<ItemId, Item>, sh: ShipmentId, q: Question) {
    exists i :: i in items && items[i].shipment == sh && Holds(q, items[i])
  }

  // --- The decisions --------------------------------------------------------------------------

  // What the call makes of a shipment it concerns, from its old status and its items as they are now.
  ghost function Verdict(step: Step, items: map<ItemId, Item>, sh: ShipmentId, st: ShipmentStatus): ShipmentStatus {
    var gathering := st.ReadyForConsolidation? || st.Consolidated?;
    var there := st.ArrivedDestination? || st.ReadyForPickup?;
    match step
    case ReceiveStep(_, _) =>
      if st.Draft? && All(items, sh, Received) then ShipmentStatus.WarehouseReceived else st
    case ProcessStep(_, _, _, _) =>
      if !(st.WarehouseReceived? || st.Processing? || st.ReadyForConsolidation?) then st
      else if All(items, sh, Question.Processed) then ShipmentStatus.ReadyForConsolidation else ShipmentStatus.Processing
    case LoadStep(_, _) => if gathering then ShipmentStatus.Consolidated else st
    case UnloadStep(_, _) =>
      if !gathering then st
      else if Any(items, sh, Boxed) then ShipmentStatus.Consolidated else ShipmentStatus.ReadyForConsolidation
    case SealStep(_) =>
      if !gathering then st else if All(items, sh, LoadedOnly) then ShipmentStatus.Loaded else ShipmentStatus.Consolidated
    case AssignItemStep(_, _, _) => if gathering then ShipmentStatus.Consolidated else st
    case UnassignItemStep(_, _) =>
      if !gathering then st
      else if Any(items, sh, Committed) then ShipmentStatus.Consolidated else ShipmentStatus.ReadyForConsolidation
    case FinalizeStep(_) =>
      if !gathering then st else if All(items, sh, LoadedOrFurther) then ShipmentStatus.Loaded else ShipmentStatus.Consolidated
    case DepartStep(_) =>
      if (st.Consolidated? || st.Loaded?) && All(items, sh, Question.Departed) then ShipmentStatus.Departed else st
    case ArriveStep(_) => if st.Departed? && All(items, sh, Question.Arrived) then ShipmentStatus.ArrivedDestination else st
    case DestinationReceiveStep(_, _, _, _, _) =>
      if st.ArrivedDestination? && All(items, sh, There) then ShipmentStatus.ReadyForPickup else st
    case SendOutStep(_, _, _) => if there && All(items, sh, Out) then ShipmentStatus.OutForDelivery else st
    case PickUpStep(_, _) =>
      if (there || st.OutForDelivery?) && All(items, sh, HandedOver) then ShipmentStatus.Completed else st
    case DeliverStep(_, _, _) =>
      if (there || st.OutForDelivery?) && All(items, sh, HandedOver) then ShipmentStatus.Completed else st
    case _ => st
  }

  // The shipment has the item, or has cargo on the transport, of the call. Finalizing anything but a
  // flight moves no item.
  ghost predicate Concerns(s: State, step: Step, sh: ShipmentId) {
    match step
    case SealStep(c) => Touched(s.links, {InContainer(c)}, sh)
    case FinalizeStep(m) => m in s.manifests && s.manifests[m].mode.Air? && Touched(s.links, UnitsOf(s, m), sh)
    case DepartStep(m) => m in s.manifests && Touched(s.links, UnitsOf(s, m), sh)
    case ArriveStep(m) => m in s.manifests && Touched(s.links, UnitsOf(s, m), sh)
    case LoadStep(_, i) => i in s.items && s.items[i].shipment == sh
    case UnloadStep(_, i) => i in s.items && s.items[i].shipment == sh
    case AssignItemStep(_, i, _) => i in s.items && s.items[i].shipment == sh
    case UnassignItemStep(_, i) => i in s.items && s.items[i].shipment == sh
    case _ => WarehouseStep(step) && step.item in s.items && s.items[step.item].shipment == sh
  }

  // --- Questions and stages ---------------------------------------------------------------------

  function StageOf(q: Question): Stage
    requires !q.Received? && !q.Boxed? && !q.LoadedOnly?
  {
    match q
    case Processed => AtLeastProcessed
    case Committed => AtLeastCommitted
    case LoadedOrFurther => AtLeastLoaded
    case Departed => AtLeastDeparted
    case Arrived => AtLeastArrived
    case There => AtLeastAtDestination
    case Out => AtLeastOutForDelivery
    case HandedOver => HandedOff
    case _ => HandedOff
  }

  // On items no manual event has touched, each hand-written list says what its question says.
  lemma StagesMean(it: Item, q: Question)
    requires RegularItem(it) && !q.Received? && !q.Boxed? && !q.LoadedOnly?
    ensures Reached(StageOf(q), it.status) <==> Holds(q, it)
  {
  }

  lemma AllMeans(items: map<ItemId, Item>, sh: ShipmentId, q: Question)
    requires RegularItems(items) && !q.Received? && !q.Boxed? && !q.LoadedOnly?
    ensures AllReached(items, sh, StageOf(q)) <==> All(items, sh, q)
    ensures AnyReached(items, sh, StageOf(q)) <==> Any(items, sh, q)
    ensures HasItems(items, sh) ==> (ApplicableReached(items, sh, StageOf(q)) <==> All(items, sh, q))
  {
    hide Holds, Reached;
    forall i | i in items
      ensures RegularItem(items[i]) && (Reached(StageOf(q), items[i].status) <==> Holds(q, items[i]))
    {
      StagesMean(items[i], q);
    }
  }

  lemma OthersMean(items: map<ItemId, Item>, sh: ShipmentId)
    ensures AllReceived(items, sh) <==> All(items, sh, Received)
    ensures AnyInContainer(items, sh) <==> Any(items, sh, Boxed)
    ensures AllExactlyLoaded(items, sh) <==> All(items, sh, LoadedOnly)
  {
  }

  // --- Rollup by rollup -------------------------------------------------------------------------

  lemma ReceivingVerdict(items: map<ItemId, Item>, sh: ShipmentId, st: ShipmentStatus, step: Step)
    requires step.ReceiveStep? && HasItems(items, sh) && RegularStatus(st)
    ensures Rolled(ReceivingRollup, items, sh, st) == Verdict(step, items, sh, st)
  {
    OthersMean(items, sh);
  }

  lemma ProcessingVerdict(items: map<ItemId, Item>, sh: ShipmentId, st: ShipmentStatus, step: Step)
    requires step.ProcessStep? && RegularItems(items) && AnyProcessingActivity(items, sh)
    ensures Rolled(ProcessingRollup, items, sh, st) == Verdict(step, items, sh, st)
  {
    AllMeans(items, sh, Question.Processed);
  }

  lemma ContainerVerdict(items: map<ItemId, Item>, sh: ShipmentId, st: ShipmentStatus, step: Step, i: ItemId)
    requires i in items && items[i].shipment == sh
    requires (step.LoadStep? && items[i].status.AssignedToContainer?) || (step.UnloadStep? && items[i].status.Processed?)
      || (step.SealStep? && items[i].status.Loaded?)
    ensures Rolled(ContainerRollup, items, sh, st) == Verdict(step, items, sh, st)
  {
    OthersMean(items, sh);
    assert HasItems(items, sh);
    assert !step.UnloadStep? ==> AnyInContainer(items, sh);
    assert !step.SealStep? ==> !AllExactlyLoaded(items, sh);
  }

  lemma OneItemShows(items: map<ItemId, Item>, sh: ShipmentId, i: ItemId)
    requires i in items && items[i].shipment == sh
    ensures HasItems(items, sh)
    ensures Reached(AtLeastCommitted, items[i].status) ==> AnyReached(items, sh, AtLeastCommitted)
    ensures !Reached(AtLeastLoaded, items[i].status) ==> !AllReached(items, sh, AtLeastLoaded)
  {
  }

  lemma ManifestVerdict(items: map<ItemId, Item>, sh: ShipmentId, st: ShipmentStatus, step: Step, i: ItemId)
    requires RegularItems(items) && i in items && items[i].shipment == sh
    requires (step.AssignItemStep? && items[i].status.AssignedToManifest?) || (step.UnassignItemStep? && items[i].status.Processed?)
      || (step.FinalizeStep? && items[i].status.Loaded?)
    ensures Rolled(ManifestRollup, items, sh, st) == Verdict(step, items, sh, st)
  {
    hide Holds, All, AllReached, AnyReached, Any, RegularItems, HasItems;
    AllMeans(items, sh, Committed);
    AllMeans(items, sh, LoadedOrFurther);
    OneItemShows(items, sh, i);
  }

  lemma LegVerdicts(items: map<ItemId, Item>, sh: ShipmentId, st: ShipmentStatus, step: Step)
    requires RegularItems(items) && HasItems(items, sh) && RegularStatus(st)
    ensures step.DepartStep? ==> Rolled(DepartureRollup, items, sh, st) == Verdict(step, items, sh, st)
    ensures step.ArriveStep? ==> Rolled(ArrivalRollup, items, sh, st) == Verdict(step, items, sh, st)
  {
    hide Holds, Reached, All, AllReached, AnyReached, Any, RegularItems, HasItems;
    AllMeans(items, sh, Question.Departed);
    AllMeans(items, sh, Question.Arrived);
  }

  lemma DestinationVerdict(items: map<ItemId, Item>, sh: ShipmentId, st: ShipmentStatus, step: Step)
    requires RegularItems(items) && HasItems(items, sh) && step.DestinationReceiveStep?
    ensures Rolled(ReadyForPickupRollup, items, sh, st) == Verdict(step, items, sh, st)
  {
    hide Holds, Reached, All, AllReached, AnyReached, Any, ApplicableReached, RegularItems, HasItems;
    AllMeans(items, sh, There);
  }

  lemma SendOutVerdict(items: map<ItemId, Item>, sh: ShipmentId, st: ShipmentStatus, step: Step)
    requires RegularItems(items) && HasItems(items, sh) && step.SendOutStep?
    ensures Rolled(OutForDeliveryRollup, items, sh, st) == Verdict(step, items, sh, st)
  {
    hide Holds, Reached, All, AllReached, AnyReached, Any, ApplicableReached, RegularItems, HasItems;
    AllMeans(items, sh, Out);
  }

  lemma PickUpVerdict(items: map<ItemId, Item>, sh: ShipmentId, st: ShipmentStatus, step: Step)
    requires RegularItems(items) && HasItems(items, sh) && !st.Delivered? && step.PickUpStep?
    ensures Rolled(CompletionRollup, items, sh, st) == Verdict(step, items, sh, st)
  {
    hide Holds, Reached, All, AllReached, AnyReached, Any, ApplicableReached, RegularItems, HasItems;
    AllMeans(items, sh, HandedOver);
  }

  lemma DeliveryVerdict(items: map<ItemId, Item>, sh: ShipmentId, st: ShipmentStatus, step: Step)
    requires RegularItems(items) && HasItems(items, sh) && !st.Delivered? && step.DeliverStep?
    ensures AfterDelivery(items, sh, st) == Verdict(step, items, sh, st)
  {
    hide Holds, Reached, All, AllReached, AnyReached, Any, ApplicableReached, RegularItems, HasItems;
    AllMeans(items, sh, HandedOver);
  }

  lemma HandoverVerdicts(items: map<ItemId, Item>, sh: ShipmentId, st: ShipmentStatus, step: Step)
    requires RegularItems(items) && HasItems(items, sh) && !st.Delivered?
    ensures step.PickUpStep? ==> Rolled(CompletionRollup, items, sh, st) == Verdict(step, items, sh, st)
    ensures step.DeliverStep? ==> AfterDelivery(items, sh, st) == Verdict(step, items, sh, st)
  {
    hide Rolled, AfterDelivery, Verdict, RegularItems, HasItems;
    if step.PickUpStep? { PickUpVerdict(items, sh, st, step); }
    if step.DeliverStep? { DeliveryVerdict(items, sh, st, step); }
  }

  // --- Call by call -----------------------------------------------------------------------------

  ghost predicate DecidedFor(s: State, t: State, step: Step, sh: ShipmentId)
    requires sh in s.shipments && sh in t.shipments
  {
    var st := s.shipments[sh].status;
    t.shipments[sh].status == if Concerns(s, step, sh) then Verdict(step, t.items, sh, st) else st
  }

  // The shipments of s are all in t: the concerned ones with their verdict, the others as they were.
  ghost predicate Decided(s: State, t: State, step: Step) {
    && (forall sh :: sh in s.shipments ==> sh in t.shipments)
    && (forall sh :: sh in s.shipments ==> DecidedFor(s, t, step, sh))
  }

  lemma ItemsShipment(s: State, t: State, i: ItemId)
    requires ItemChanged(s, t, i)
    ensures HasItems(t.items, s.items[i].shipment)
  {
    assert t.items[i].shipment == s.items[i].shipment;
  }

  lemma OneDecided(s: State, t: State, rollup: Rollup, step: Step, sh: ShipmentId)
    requires OneRolled(s, t, rollup, sh)
    requires Rolled(rollup, t.items, sh, s.shipments[sh].status) == Verdict(step, t.items, sh, s.shipments[sh].status)
    requires forall other :: other in s.shipments ==> (Concerns(s, step, other) <==> other == sh)
    ensures Decided(s, t, step)
  {
    hide Rolled, Verdict, Concerns;
  }

  lemma WarehouseDecided(s: State, t: State, call: Call)
    requires Wf(s) && Chained(s) && Chained(t) && AtRest(s) && Try(s, call) == Ok(t)
    requires call.step.ReceiveStep? || call.step.ProcessStep? || call.step.DestinationReceiveStep? || call.step.ReturnStep?
    ensures Decided(s, t, call.step)
  {
    hide Receive, Process, DestinationReceive, Return, Rolled, Verdict, Chained, OneRolled;
    var i := call.step.item;
    match call.step {
      case ReceiveStep(_, wh) =>
        ReceiveEffect(s, t, i, wh, call.now);
        ItemsShipment(s, t, i);
        StatusIsRegular(s, s.items[i].shipment);
        ReceivingVerdict(t.items, s.items[i].shipment, s.shipments[s.items[i].shipment].status, call.step);
        OneDecided(s, t, ReceivingRollup, call.step, s.items[i].shipment);
      case ProcessStep(_, wh, again, f) =>
        ProcessEffect(s, t, i, wh, again, f, call.now);
        ItemsAreRegular(t);
        assert t.items[i].shipment == s.items[i].shipment;
        assert AnyProcessingActivity(t.items, s.items[i].shipment);
        ProcessingVerdict(t.items, s.items[i].shipment, s.shipments[s.items[i].shipment].status, call.step);
        OneDecided(s, t, ProcessingRollup, call.step, s.items[i].shipment);
      case DestinationReceiveStep(_, wh, d, x, e) =>
        DestinationReceiveEffect(s, t, i, wh, d, x, e, call.now);
        ItemsShipment(s, t, i);
        ItemsAreRegular(t);
        DestinationVerdict(t.items, s.items[i].shipment, s.shipments[s.items[i].shipment].status, call.step);
        OneDecided(s, t, ReadyForPickupRollup, call.step, s.items[i].shipment);
      case ReturnStep(_, wh, x) =>
        ReturnEffect(s, t, i, wh, x, call.now);
        Undecided(s, t, call.step);
    }
  }

  // DELIVERED is never the status a call leaves behind.
  ghost predicate AtRest(s: State) {
    forall sh :: sh in s.shipments ==> !s.shipments[sh].status.Delivered?
  }

  lemma Undecided(s: State, t: State, step: Step)
    requires forall sh :: sh in s.shipments ==> sh in t.shipments && t.shipments[sh].status == s.shipments[sh].status
    requires step.ReturnStep? || step.CreateShipmentStep? || step.AddItemStep? || step.CreateContainerStep? || step.OpenStep?
      || step.CloseStep? || step.CreateManifestStep? || step.AssignContainerStep? || step.UnassignContainerStep?
    ensures Decided(s, t, step)
  {
    hide Concerns;
  }

  lemma HandoverDecided(s: State, t: State, call: Call)
    requires Wf(s) && Chained(s) && Chained(t) && AtRest(s) && Try(s, call) == Ok(t)
    requires call.step.PickUpStep? || call.step.SendOutStep? || call.step.DeliverStep?
    ensures Decided(s, t, call.step)
  {
    hide PickUp, SendOut, Deliver, Rolled, AfterDelivery, Verdict, Chained, OneRolled;
    var i := call.step.item;
    ItemsAreRegular(t);
    match call.step {
      case PickUpStep(_, wh) =>
        PickUpEffect(s, t, i, wh, call.now);
        ItemsShipment(s, t, i);
        HandoverVerdicts(t.items, s.items[i].shipment, s.shipments[s.items[i].shipment].status, call.step);
        OneDecided(s, t, CompletionRollup, call.step, s.items[i].shipment);
      case SendOutStep(_, wh, carrier) =>
        SendOutEffect(s, t, i, wh, carrier, call.now);
        ItemsShipment(s, t, i);
        SendOutVerdict(t.items, s.items[i].shipment, s.shipments[s.items[i].shipment].status, call.step);
        OneDecided(s, t, OutForDeliveryRollup, call.step, s.items[i].shipment);
      case DeliverStep(_, wh, carrier) =>
        DeliverEffect(s, t, i, wh, carrier, call.now);
        ItemsShipment(s, t, i);
        HandoverVerdicts(t.items, s.items[i].shipment, s.shipments[s.items[i].shipment].status, call.step);
    }
  }

  lemma RowDecided(s: State, t: State, call: Call)
    requires Wf(s) && Chained(t) && Try(s, call) == Ok(t)
    requires call.step.LoadStep? || call.step.UnloadStep? || call.step.AssignItemStep? || call.step.UnassignItemStep?
    ensures Decided(s, t, call.step)
  {
    hide Load, Unload, AssignItem, UnassignItem, Rolled, Verdict, Chained, OneRolled;
    var i := call.step.item;
    ItemsAreRegular(t);
    match call.step {
      case LoadStep(c, _) =>
        LoadEffect(s, t, c, i, call.now);
        ContainerVerdict(t.items, s.items[i].shipment, Before(s, i), call.step, i);
        OneDecided(s, t, ContainerRollup, call.step, s.items[i].shipment);
      case UnloadStep(c, _) =>
        UnloadEffect(s, t, c, i, call.now);
        ContainerVerdict(t.items, s.items[i].shipment, Before(s, i), call.step, i);
        OneDecided(s, t, ContainerRollup, call.step, s.items[i].shipment);
      case AssignItemStep(m, _, conflict) =>
        AssignItemEffect(s, t, m, i, conflict, call.now);
        ManifestVerdict(t.items, s.items[i].shipment, Before(s, i), call.step, i);
        OneDecided(s, t, ManifestRollup, call.step, s.items[i].shipment);
      case UnassignItemStep(m, _) =>
        UnassignItemEffect(s, t, m, i, call.now);
        ManifestVerdict(t.items, s.items[i].shipment, Before(s, i), call.step, i);
        OneDecided(s, t, ManifestRollup, call.step, s.items[i].shipment);
    }
  }

  function Before(s: State, i: ItemId): ShipmentStatus
    requires Wf(s) && i in s.items
  {
    s.shipments[s.items[i].shipment].status
  }

  // A shipment with cargo aboard has an item that took the new status.
  lemma TouchedHas(s: State, t: State, units: set<Unit>, st: ItemStatus, sh: ShipmentId) returns (i: ItemId)
    requires Wf(s) && CargoTook(s, t, units, st) && Touched(s.links, units, sh)
    ensures i in t.items && t.items[i].shipment == sh && t.items[i].status == st
  {
    var k :| 0 <= k < |s.links| && Carries(s.links[k], units) && s.links[k].shipment == sh;
    i := s.links[k].item;
    assert Aboard(s.links, |s.links|, units, i);
  }

  lemma SealDecided(s: State, t: State, c: ContainerId, now: Time)
    requires Wf(s) && Chained(s) && Chained(t) && Seal(s, c, now) == Ok(t)
    ensures Decided(s, t, SealStep(c))
  {
    hide Seal, Rolled, Verdict, Chained, Touched, CargoTook, Aboard;
    SealEffect(s, t, c, now);
    forall sh | sh in s.shipments
      ensures sh in t.shipments && DecidedFor(s, t, SealStep(c), sh)
    {
      if Touched(s.links, {InContainer(c)}, sh) {
        var i := TouchedHas(s, t, {InContainer(c)}, ItemStatus.Loaded, sh);
        ContainerVerdict(t.items, sh, s.shipments[sh].status, SealStep(c), i);
      }
    }
  }

  lemma FinalizeDecided(s: State, t: State, m: ManifestId, now: Time)
    requires Wf(s) && Chained(s) && Chained(t) && FinalizeManifest(s, m, now) == Ok(t)
    ensures Decided(s, t, FinalizeStep(m))
  {
    hide FinalizeManifest, Rolled, Verdict, Chained, Touched, CargoTook, CargoIs, UnitsOf, EmptyManifest, ContainersAre;
    FinalizeEffect(s, t, m, now);
    ItemsAreRegular(t);
    forall sh | sh in s.shipments
      ensures sh in t.shipments && DecidedFor(s, t, FinalizeStep(m), sh)
    {
      if Concerns(s, FinalizeStep(m), sh) {
        var i := TouchedHas(s, t, UnitsOf(s, m), ItemStatus.Loaded, sh);
        ManifestVerdict(t.items, sh, s.shipments[sh].status, FinalizeStep(m), i);
      }
    }
  }

  lemma LegDecided(s: State, t: State, call: Call)
    requires Wf(s) && Chained(s) && Chained(t) && (call.step.DepartStep? || call.step.ArriveStep?) && Try(s, call) == Ok(t)
    ensures Decided(s, t, call.step)
  {
    hide Depart, Arrive, Rolled, Verdict, Chained, Touched, CargoTook, CargoIs, UnitsOf, EmptyManifest, ContainersAre;
    hide ContainersTook;
    var m, st := call.step.manifest, if call.step.DepartStep? then ItemStatus.DepartedOrigin else ItemStatus.ArrivedDestination;
    if call.step.DepartStep? { DepartEffect(s, t, m, call.now); } else { ArriveEffect(s, t, m, call.now); }
    ItemsAreRegular(t);
    forall sh | sh in s.shipments
      ensures sh in t.shipments && DecidedFor(s, t, call.step, sh)
    {
      if Touched(s.links, UnitsOf(s, m), sh) {
        var i := TouchedHas(s, t, UnitsOf(s, m), st, sh);
        assert HasItems(t.items, sh);
        StatusIsRegular(s, sh);
        LegVerdicts(t.items, sh, s.shipments[sh].status, call.step);
      }
    }
  }

  lemma QuietDecided(s: State, t: State, call: Call)
    requires Wf(s) && Try(s, call) == Ok(t)
    requires call.step.CreateShipmentStep? || call.step.AddItemStep? || call.step.CreateContainerStep? || call.step.OpenStep?
      || call.step.CloseStep? || call.step.CreateManifestStep? || call.step.AssignContainerStep?
      || call.step.UnassignContainerStep?
    ensures Decided(s, t, call.step)
  {
    hide CreateShipment, AddItem, AssignContainer, UnassignContainer, Concerns, Verdict, Decided;
    match call.step {
      case CreateShipmentStep(sh, email, ids) => CreateShipmentEffect(s, t, sh, email, ids, call.now);
      case AddItemStep(sh, i) => AddItemEffect(s, t, sh, i, call.now);
      case AssignContainerStep(m, c, conflict) => AssignContainerEffect(s, t, m, c, conflict, call.now);
      case UnassignContainerStep(m, c) => UnassignContainerEffect(s, t, m, c, call.now);
      case _ =>
    }
    Undecided(s, t, call.step);
  }

  lemma CallDecides(s: State, t: State, call: Call)
    requires Wf(s) && Chained(s) && Chained(t) && AtRest(s) && !call.step.ManualStep? && Try(s, call) == Ok(t)
    ensures Decided(s, t, call.step)
  {
    hide Chained, Decided, AtRest, Load, Unload, Seal, AssignItem, UnassignItem, FinalizeManifest, Depart, Arrive;
    hide CreateShipment, AddItem, AssignContainer, UnassignContainer, CreateContainer, CreateManifest, OpenContainer, CloseContainer;
    hide Receive, Process, DestinationReceive, PickUp, SendOut, Deliver, Return, Wf;
    match call.step {
      case ReceiveStep(_, _) => WarehouseDecided(s, t, call);
      case ProcessStep(_, _, _, _) => WarehouseDecided(s, t, call);
      case DestinationReceiveStep(_, _, _, _, _) => WarehouseDecided(s, t, call);
      case ReturnStep(_, _, _) => WarehouseDecided(s, t, call);
      case PickUpStep(_, _) => HandoverDecided(s, t, call);
      case SendOutStep(_, _, _) => HandoverDecided(s, t, call);
      case DeliverStep(_, _, _) => HandoverDecided(s, t, call);
      case LoadStep(_, _) => RowDecided(s, t, call);
      case UnloadStep(_, _) => RowDecided(s, t, call);
      case AssignItemStep(_, _, _) => RowDecided(s, t, call);
      case UnassignItemStep(_, _) => RowDecided(s, t, call);
      case SealStep(c) => SealDecided(s, t, c, call.now);
      case FinalizeStep(m) => FinalizeDecided(s, t, m, call.now);
      case DepartStep(_) => LegDecided(s, t, call);
      case ArriveStep(_) => LegDecided(s, t, call);
      case _ => QuietDecided(s, t, call);
    }
  }

  // --- Over every run ---------------------------------------------------------------------------

  lemma {:induction false} RunsAreAtRest(warehouses: set<WarehouseId>, calls: seq<Call>)
    requires NoManualEvents(calls)
    ensures AtRest(Run(warehouses, calls))
  {
    hide Run;
    forall sh | sh in Run(warehouses, calls).shipments
      ensures !Run(warehouses, calls).shipments[sh].status.Delivered?
    {
      RunsCloseWell(warehouses, calls, sh);
    }
  }

  // In every reachable state an accepted call leaves each shipment it concerns in the status of its
  // verdict, every other one as it was, and a new one a draft.
  lemma {:induction false} EveryCallGivesItsVerdict(warehouses: set<WarehouseId>, calls: seq<Call>, call: Call, t: State)
    requires NoManualEvents(calls) && !call.step.ManualStep? && Try(Run(warehouses, calls), call) == Ok(t)
    ensures Decided(Run(warehouses, calls), t, call.step)
    ensures forall sh :: sh in t.shipments && sh !in Run(warehouses, calls).shipments ==> t.shipments[sh].status.Draft?
  {
    hide Run, Orderly, Decided, AtRest, Try;
    var s := Run(warehouses, calls);
    EveryRunIsOrderly(warehouses, calls);
    RunsAreAtRest(warehouses, calls);
    OrderlyGoesOn(s, t, call);
    ChainOf(s);
    CallDecides(s, t, call);
    forall sh | sh in t.shipments && sh !in s.shipments
      ensures t.shipments[sh].status.Draft?
    {
      BornDraft(s, t, call, sh);
    }
  }

  lemma ChainOf(s: State)
    requires Wf(s) && Orderly(s)
    ensures Chained(s)
  {
  }

  lemma OrderlyGoesOn(s: State, t: State, call: Call)
    requires Wf(s) && Orderly(s) && !call.step.ManualStep? && Try(s, call) == Ok(t)
    ensures Chained(t)
  {
    hide Try, InLockstep, Chained;
    LockstepLinks(s);
    StepKeepsChain(s, t, call);
  }

  // After a dispatch the shipment is at least OUT_FOR_DELIVERY if and only if it already was, or every
  // item of it is out for delivery or handed over.
  lemma {:induction false} SendOutMovesExactlyWhen(s: State, t: State, i: ItemId, wh: WarehouseId, carrier: Carrier, now: Time)
    requires Wf(s) && Orderly(s) && SendOut(s, i, wh, carrier, now) == Ok(t)
    ensures var sh := s.items[i].shipment;
      && sh in t.shipments
      && (Rank(t.shipments[sh].status) >= Rank(ShipmentStatus.OutForDelivery) <==>
        || Rank(s.shipments[sh].status) >= Rank(ShipmentStatus.OutForDelivery)
        || (forall j :: j in t.items && t.items[j].shipment == sh ==>
              t.items[j].status.OutForDelivery? || t.items[j].status.Delivered? || t.items[j].status.PickedUp?))
  {
    hide InLockstep, SendOut, Chained, All, Verdict;
    OrderlyGoesOn(s, t, Call(SendOutStep(i, wh, carrier), now));
    SendOutLeaves(s, t, i, wh, carrier, now);
    var sh := s.items[i].shipment;
    StatusIsRegular(s, sh);
    OutMeans(t.items, sh);
    if All(t.items, sh, Out) { AllWereThere(s, t, i); }
  }

  lemma OutMeans(items: map<ItemId, Item>, sh: ShipmentId)
    ensures All(items, sh, Out) <==>
      forall j :: j in items && items[j].shipment == sh ==>
        items[j].status.OutForDelivery? || items[j].status.Delivered? || items[j].status.PickedUp?
  {
  }

  lemma SendOutLeaves(s: State, t: State, i: ItemId, wh: WarehouseId, carrier: Carrier, now: Time)
    requires Wf(s) && Chained(t) && SendOut(s, i, wh, carrier, now) == Ok(t)
    ensures ItemChanged(s, t, i) && s.items[i].status.ReceivedDestinationWarehouse?
    ensures var sh := s.items[i].shipment; var st := s.shipments[sh].status;
      && sh in t.shipments
      && t.shipments[sh].status ==
        if (st.ArrivedDestination? || st.ReadyForPickup?) && All(t.items, sh, Out) then ShipmentStatus.OutForDelivery else st
  {
    hide SendOut, Rolled, Chained, All;
    SendOutEffect(s, t, i, wh, carrier, now);
    var sh := s.items[i].shipment;
    ItemsAreRegular(t);
    ItemsShipment(s, t, i);
    SendOutVerdict(t.items, sh, s.shipments[sh].status, SendOutStep(i, wh, carrier));
  }

  // Items that are all out now had all arrived before, and so had their shipment.
  lemma AllWereThere(s: State, t: State, i: ItemId)
    requires Wf(s) && Chained(s) && ItemChanged(s, t, i) && s.items[i].status.ReceivedDestinationWarehouse?
    requires All(t.items, s.items[i].shipment, Out)
    ensures Rank(s.shipments[s.items[i].shipment].status) >= Rank(ShipmentStatus.ArrivedDestination)
  {
    var sh := s.items[i].shipment;
    forall j | j in s.items && s.items[j].shipment == sh && j != i
      ensures Reached(AtLeastArrived, s.items[j].status)
    {
      assert t.items[j].shipment == sh && Holds(Out, t.items[j]);
    }
    assert AllReached(s.items, sh, AtLeastArrived) && HasItems(s.items, sh);
    assert Settled(MarksOf(s.items, sh), s.shipments[sh].status);
  }
}
