/**
 Lockstep: manifests, their containers and the items linked to them always agree on how
 far the transport has come, and nothing rides two transports at once.
 */
module Lockstep {
  import opened Basics
  import opened Statuses
  import opened CargoState
  import opened CargoSteps
  import opened CargoEffects

  // How far a unit has come.
  datatype Leg = Boarding | Sealed | Underway | Landed

  function LegOf(s: State, u: Unit): Leg
    requires UnitExists(s.containers, s.manifests, u)
  {
    match u
    case InContainer(c) =>
      (match s.containers[c].status
       case Booked => Boarding
       case Loading => Boarding
       case Loaded => Sealed
       case Departed => Underway
       case _ => Landed)
    case OnManifest(m) =>
      (match s.manifests[m].status
       case Draft => Boarding
       case Finalized => Sealed
       case Departed => Underway
       case _ => Landed)
  }

  // The status an item must have while its unit is on this leg.
  predicate Fits(u: Unit, leg: Leg, st: ItemStatus) {
    match leg
    case Boarding => if u.InContainer? then st.AssignedToContainer? else st.AssignedToManifest?
    case Sealed => st.Loaded?
    case Underway => st.DepartedOrigin?
    case Landed => true
  }

  ghost predicate LinksAgree(s: State)
    requires Wf(s)
  {
    forall k :: 0 <= k < |s.links| && s.links[k].active ==>
      Fits(s.links[k].unit, LegOf(s, s.links[k].unit), s.items[s.links[k].item].status)
  }

  // At most one active row on a transport that has not arrived, containers and flights together.
  ghost predicate OneBerth(s: State)
    requires Wf(s)
  {
    forall j, k :: 0 <= j < k < |s.links| && s.links[j].active && s.links[k].active && s.links[j].item == s.links[k].item
      ==> LegOf(s, s.links[j].unit).Landed? || LegOf(s, s.links[k].unit).Landed?
  }

  ghost predicate HasBerth(s: State, i: ItemId)
    requires Wf(s)
  {
    exists k :: 0 <= k < |s.links| && s.links[k].active && s.links[k].item == i && !LegOf(s, s.links[k].unit).Landed?
  }

  ghost predicate TiedItemsRide(s: State)
    requires Wf(s)
  {
    forall i :: i in s.items && Tied(s.items[i].status) ==> HasBerth(s, i)
  }

  // What a container's status says about its manifest, and the other way round.
  predicate Paired(c: Container, manifests: map<ManifestId, Manifest>) {
    match c.status
    case Booked => c.manifest.None?
    case Loading => c.manifest.None?
    case Loaded =>
      c.manifest.Some? ==>
        c.manifest.value in manifests &&
        (manifests[c.manifest.value].status.Draft? || manifests[c.manifest.value].status.Finalized?)
    case Departed =>
      c.manifest.Some? && c.manifest.value in manifests && manifests[c.manifest.value].status.Departed?
    case Arrived => c.manifest.Some? && c.manifest.value in manifests && manifests[c.manifest.value].status.Arrived?
    case Unloading => c.manifest.Some? && c.manifest.value in manifests && manifests[c.manifest.value].status.Arrived?
    case Closed => c.manifest.Some? && c.manifest.value in manifests && manifests[c.manifest.value].status.Arrived?
    case _ => false
  }

  ghost predicate ContainersPaired(containers: map<ContainerId, Container>, manifests: map<ManifestId, Manifest>) {
    forall c :: c in containers ==> Paired(containers[c], manifests)
  }

  ghost predicate ManifestsStaffed(containers: map<ContainerId, Container>, manifests: map<ManifestId, Manifest>,
                                   links: seq<Link>) {
    forall m :: m in manifests && !manifests[m].status.Draft? ==>
      && (manifests[m].status.Finalized? || manifests[m].status.Departed? || manifests[m].status.Arrived?)
      && !EmptyManifest(containers, links, m, manifests[m])
  }

  ghost predicate Fleet(s: State) {
    && ContainersPaired(s.containers, s.manifests)
    && ManifestsStaffed(s.containers, s.manifests, s.links)
  }

  ghost predicate Berths(s: State)
    requires Wf(s)
  {
    LinksAgree(s) && OneBerth(s) && TiedItemsRide(s)
  }

  ghost predicate InLockstep(s: State)
    requires Wf(s)
  {
    Berths(s) && Fleet(s)
  }

  // --- Steps that touch one unlinked item ---------------------------------------------

  lemma SameLegs(s: State, t: State)
    requires SameTransports(s, t)
    ensures forall u :: UnitExists(s.containers, s.manifests, u) ==>
      UnitExists(t.containers, t.manifests, u) && LegOf(t, u) == LegOf(s, u)
  {
  }

  // Items appear, or move between statuses that tie them to nothing.
  lemma LooseItemsMove(s: State, t: State)
    requires Wf(s) && Wf(t) && InLockstep(s) && SameTransports(s, t)
    requires forall j :: j in s.items ==> j in t.items
    requires forall j :: j in t.items ==>
      if j in s.items && Tied(s.items[j].status) then t.items[j].status == s.items[j].status
      else !Tied(t.items[j].status)
    ensures InLockstep(t)
  {
    SameLegs(s, t);
    assert LinksAgree(t);
    assert OneBerth(t);
    forall j | j in t.items && Tied(t.items[j].status)
      ensures HasBerth(t, j)
    {
      assert HasBerth(s, j);
      var k :| 0 <= k < |s.links| && s.links[k].active && s.links[k].item == j && !LegOf(s, s.links[k].unit).Landed?;
      assert t.links[k].active && t.links[k].item == j;
    }
  }

  // --- Boarding and leaving -----------------------------------------------------------

  lemma Boards(s: State, t: State, u: Unit, i: ItemId)
    requires Wf(s) && Wf(t) && Berths(s)
    requires UnitExists(s.containers, s.manifests, u) && LegOf(s, u).Boarding?
    requires i in s.items && !Tied(s.items[i].status)
    requires t.items.Keys == s.items.Keys && Fits(u, Boarding, t.items[i].status)
    requires forall j :: j in s.items && j != i ==> t.items[j] == s.items[j]
    requires t.links == s.links + [Link(u, s.items[i].shipment, i, true)]
    requires forall v :: UnitExists(s.containers, s.manifests, v) ==>
      UnitExists(t.containers, t.manifests, v) && LegOf(t, v) == LegOf(s, v)
    ensures Berths(t)
  {
    var n := |s.links|;
    forall j | j in t.items && Tied(t.items[j].status)
      ensures HasBerth(t, j)
    {
      if j == i {
        assert t.links[n].active && t.links[n].item == i;
      } else {
        assert HasBerth(s, j);
        var k :| 0 <= k < |s.links| && s.links[k].active && s.links[k].item == j && !LegOf(s, s.links[k].unit).Landed?;
        assert t.links[k] == s.links[k];
      }
    }
  }

  lemma Leaves(s: State, t: State, k: nat)
    requires Wf(s) && Wf(t) && Berths(s)
    requires k < |s.links| && s.links[k].active && !LegOf(s, s.links[k].unit).Landed?
    requires t.items.Keys == s.items.Keys && !Tied(t.items[s.links[k].item].status)
    requires forall j :: j in s.items && j != s.links[k].item ==> t.items[j] == s.items[j]
    requires t.links == Retire(s.links, k)
    requires forall v :: UnitExists(s.containers, s.manifests, v) ==>
      UnitExists(t.containers, t.manifests, v) && LegOf(t, v) == LegOf(s, v)
    ensures Berths(t)
  {
    forall j | j in t.items && Tied(t.items[j].status)
      ensures HasBerth(t, j)
    {
      assert HasBerth(s, j);
      var n :| 0 <= n < |s.links| && s.links[n].active && s.links[n].item == j && !LegOf(s, s.links[n].unit).Landed?;
      assert t.links[n] == s.links[n];
    }
  }

  // --- Bulk steps ---------------------------------------------------------------------

  // The units go one leg further, and their cargo with them.
  lemma UnitsMoveOn(s: State, t: State, units: set<Unit>, st: ItemStatus)
    requires Wf(s) && Wf(t) && Berths(s)
    requires t.links == s.links && t.items.Keys == s.items.Keys
    requires forall i :: i in s.items ==>
      t.items[i].status == if Aboard(s.links, |s.links|, units, i) then st else s.items[i].status
    requires forall u :: UnitExists(s.containers, s.manifests, u) ==>
      && UnitExists(t.containers, t.manifests, u)
      && (u !in units ==> LegOf(t, u) == LegOf(s, u))
      && (u in units ==> !LegOf(s, u).Landed? && Fits(u, LegOf(t, u), st) && (LegOf(t, u).Landed? ==> !Tied(st)))
    ensures Berths(t)
  {
    forall k | 0 <= k < |t.links| && t.links[k].active
      ensures Fits(t.links[k].unit, LegOf(t, t.links[k].unit), t.items[t.links[k].item].status)
    {
      var l := s.links[k];
      if l.unit !in units && Aboard(s.links, |s.links|, units, l.item) {
        var j :| 0 <= j < |s.links| && Carries(s.links[j], units) && s.links[j].item == l.item;
        assert j != k && !LegOf(s, s.links[j].unit).Landed?;
        assert LegOf(s, l.unit).Landed?;
      } else if l.unit in units {
        assert Carries(l, units);
      }
    }
    forall i | i in t.items && Tied(t.items[i].status)
      ensures HasBerth(t, i)
    {
      if Aboard(s.links, |s.links|, units, i) {
        var k :| 0 <= k < |s.links| && Carries(s.links[k], units) && s.links[k].item == i;
        assert UnitExists(s.containers, s.manifests, s.links[k].unit);
        assert t.links[k].active && t.links[k].item == i;
      } else {
        assert HasBerth(s, i);
        var k :| 0 <= k < |s.links| && s.links[k].active && s.links[k].item == i && !LegOf(s, s.links[k].unit).Landed?;
        assert !Carries(s.links[k], units);
        assert UnitExists(s.containers, s.manifests, s.links[k].unit);
        assert t.links[k].active && t.links[k].item == i;
      }
    }
  }
}
