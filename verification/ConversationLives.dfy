/**
 When a conversation is still there: an independent account of its last activity, kept alive by
 what is said in it, ended by a sweep that finds it idle too long or by the cap.
 */
module ConversationLives {
  import opened Basics
  import opened Conversations

  // Idle for more than thirty minutes.
  predicate Idle(activity: int, now: int) {
    now - activity > 1_800_000
  }

  // The last activity of the id, as far as it has been kept alive: started by create, moved on by append,
  // ended by the first create or has, of whatever id, that finds it idle. An append looks at no clock.
  function Activity(uses: seq<Use>, id: Id): Option<int> {
    if uses == [] then None
    else
      var before := Activity(uses[..|uses| - 1], id);
      match uses[|uses| - 1]
      case CreateUse(other, at) => if other == id then Some(at) else Swept(before, at)
      case AppendUse(other, _, at) => if other == id && before.Some? then Some(at) else before
      case HasUse(_, at) => Swept(before, at)
  }

  function Swept(activity: Option<int>, now: int): Option<int> {
    if activity.Some? && Idle(activity.value, now) then None else activity
  }

  // Create n had to make room and dropped the id, which has not been created again.
  ghost predicate EvictedBy(uses: seq<Use>, n: nat, id: Id)
    requires n < |uses|
  {
    && uses[n].CreateUse?
    && |Live(Store(uses[..n]), uses[n].at)| == 2000
    && (uses[n].id == id || Holds(Store(uses[..n]), id))
    && Activity(uses[..n + 1], id).Some?
    && !Holds(Store(uses[..n + 1]), id)
    && (forall m :: n < m < |uses| ==> !(uses[m].CreateUse? && uses[m].id == id))
  }

  ghost predicate Evicted(uses: seq<Use>, id: Id) {
    exists n :: 0 <= n < |uses| && EvictedBy(uses, n, id)
  }

  // --- One use --------------------------------------------------------------------------------

  // The entry of the id, if there is one, is the one for this activity.
  ghost predicate ActiveAs(entries: seq<Entry>, id: Id, activity: Option<int>) {
    forall e :: e in entries && e.id == id ==> activity == Some(e.lastActivityAt)
  }

  ghost predicate Present(entries: seq<Entry>, id: Id) {
    exists e :: e in entries && e.id == id
  }

  lemma HoldsMeans(entries: seq<Entry>, id: Id)
    ensures Holds(entries, id) <==> Present(entries, id)
  {
    if Holds(entries, id) {
      var k :| 0 <= k < |entries| && entries[k].id == id;
      assert entries[k] in entries;
    }
    if Present(entries, id) {
      var e :| e in entries && e.id == id;
      var k :| 0 <= k < |entries| && entries[k] == e;
    }
  }

  lemma SweepKeeps(entries: seq<Entry>, now: int, id: Id, activity: Option<int>)
    requires Distinct(entries) && ActiveAs(entries, id, activity)
    ensures ActiveAs(Live(entries, now), id, Swept(activity, now))
    ensures Present(Live(entries, now), id) <==> Present(entries, id) && Swept(activity, now).Some?
  {
    hide Live;
    LiveWithin(entries, now);
    if Present(entries, id) && Swept(activity, now).Some? {
      var e :| e in entries && e.id == id;
      assert e in Live(entries, now);
    }
  }

  lemma SetMembers(entries: seq<Entry>, e: Entry, x: Entry)
    requires Distinct(entries)
    ensures x in SetEntry(entries, e) <==> x == e || (x in entries && x.id != e.id)
  {
    var k := Find(entries, e.id);
    if k < |entries| {
      assert entries[k := e][k] == e;
      if x in entries && x.id != e.id {
        var j :| 0 <= j < |entries| && entries[j] == x;
        assert entries[k := e][j] == x;
      }
    } else {
      assert (entries + [e])[|entries|] == e;
    }
  }

  lemma CreateKeeps(entries: seq<Entry>, other: Id, at: int, id: Id, activity: Option<int>)
    requires Distinct(entries) && |entries| <= 2000 && ActiveAs(entries, id, activity)
    ensures var now := if other == id then Some(at) else Swept(activity, at);
      ActiveAs(Created(entries, other, at), id, now)
    ensures Present(Created(entries, other, at), id) ==> other == id || Present(entries, id)
    ensures (other == id || (Present(entries, id) && Swept(activity, at).Some?)) && !Present(Created(entries, other, at), id) ==>
      |Live(entries, at)| == 2000
  {
    hide Live, SetEntry, Capped;
    var live := Live(entries, at);
    var e := Entry(other, [], at);
    LiveWithin(entries, at);
    SweepKeeps(entries, at, id, activity);
    SetKeeps(live, e);
    CapEvictsTheOldest(SetEntry(live, e));
    forall x
      ensures x in SetEntry(live, e) <==> x == e || (x in live && x.id != other)
    {
      SetMembers(live, e, x);
    }
    if |SetEntry(live, e)| <= 2000 {
      NothingToEvict(SetEntry(live, e));
      assert e in SetEntry(live, e);
    }
  }

  lemma AppendKeeps(entries: seq<Entry>, other: Id, message: Message, at: int, id: Id, activity: Option<int>)
    requires Distinct(entries) && ActiveAs(entries, id, activity)
    ensures ActiveAs(Appended(entries, other, message, at), id, if other == id && activity.Some? then Some(at) else activity)
    ensures Present(Appended(entries, other, message, at), id) <==> Present(entries, id)
  {
    var k := Find(entries, other);
    if k < |entries| {
      var e := Entry(other, LastSix(entries[k].messages + [message]), at);
      assert Appended(entries, other, message, at) == SetEntry(entries, e);
      forall x
        ensures x in SetEntry(entries, e) <==> x == e || (x in entries && x.id != other)
      {
        SetMembers(entries, e, x);
      }
      assert entries[k] in entries;
    }
  }

  // --- Whole histories ------------------------------------------------------------------------

  lemma {:induction false} EntriesAreActive(uses: seq<Use>, id: Id)
    ensures ActiveAs(Store(uses), id, Activity(uses, id))
  {
    if uses != [] {
      var before := uses[..|uses| - 1];
      EntriesAreActive(before, id);
      StoreRemembers(before);
      hide Live, Created, Appended, Distinct;
      assert Distinct(Store(before)) by { StoreIsDistinct(before); }
      match uses[|uses| - 1] {
        case CreateUse(other, at) => CreateKeeps(Store(before), other, at, id, Activity(before, id));
        case AppendUse(other, message, at) => AppendKeeps(Store(before), other, message, at, id, Activity(before, id));
        case HasUse(_, at) => SweepKeeps(Store(before), at, id, Activity(before, id));
      }
    }
  }

  lemma StoreIsDistinct(uses: seq<Use>)
    ensures Distinct(Store(uses)) && |Store(uses)| <= 2000
  {
    StoreRemembers(uses);
  }

  lemma EvictedOn(uses: seq<Use>, id: Id)
    requires uses != []
    ensures var n := |uses| - 1; var created := uses[n].CreateUse? && uses[n].id == id;
      Evicted(uses, id) <==> EvictedBy(uses, n, id) || (!created && Evicted(uses[..n], id))
  {
    var n := |uses| - 1;
    forall m | 0 <= m < n
      ensures EvictedBy(uses, m, id) <==>
        EvictedBy(uses[..n], m, id) && !(uses[n].CreateUse? && uses[n].id == id)
    {
      SameEviction(uses, m, id);
    }
    hide EvictedBy;
  }

  lemma SameEviction(uses: seq<Use>, m: nat, id: Id)
    requires m < |uses| - 1
    ensures var n := |uses| - 1;
      EvictedBy(uses, m, id) <==> EvictedBy(uses[..n], m, id) && !(uses[n].CreateUse? && uses[n].id == id)
  {
    hide Store, Activity, Live, Holds;
    assert uses[..|uses| - 1][..m] == uses[..m] && uses[..|uses| - 1][..m + 1] == uses[..m + 1];
  }

  // Whatever the order of uses and whatever the clock does: an id is held if and only if its activity has
  // been kept up, no sweep having found it idle for more than thirty minutes, and the cap has not evicted
  // it; and what is held carries the time of that activity.
  lemma {:induction false} HeldExactlyWhileActive(uses: seq<Use>, id: Id)
    ensures Holds(Store(uses), id) <==> Activity(uses, id).Some? && !Evicted(uses, id)
    ensures forall e :: e in Store(uses) && e.id == id ==> Activity(uses, id) == Some(e.lastActivityAt)
  {
    EntriesAreActive(uses, id);
    HoldsMeans(Store(uses), id);
    if uses != [] {
      var n := |uses| - 1;
      var before := uses[..n];
      HeldExactlyWhileActive(before, id);
      HoldsMeans(Store(before), id);
      EvictedOn(uses, id);
      LastUse(uses, id);
      hide Evicted, Present, ActiveAs, Store, Activity, Live;
    }
  }

  // What the last use does to an id that is, or is not, there.
  ghost predicate Follows(uses: seq<Use>, id: Id)
    requires uses != []
  {
    var n := |uses| - 1;
    var created := uses[n].CreateUse? && uses[n].id == id;
    var was, now := Present(Store(uses[..n]), id), Present(Store(uses), id);
    && (now ==> created || was)
    && (now ==> Activity(uses, id).Some?)
    && (created ==> Activity(uses, id).Some?)
    && (!created && Activity(uses, id).Some? ==> Activity(uses[..n], id).Some?)
    && (EvictedBy(uses, n, id) <==> (created || (was && Activity(uses, id).Some?)) && !now)
  }

  lemma {:induction false} CreateFollows(uses: seq<Use>, id: Id)
    requires uses != [] && uses[|uses| - 1].CreateUse?
    ensures Follows(uses, id)
  {
    var n := |uses| - 1;
    var before := uses[..n];
    assert uses[..n + 1] == uses;
    hide Store, Live, Distinct, Holds, Created, Present;
    EntriesAreActive(before, id);
    EntriesAreActive(uses, id);
    StoreIsDistinct(before);
    HoldsMeans(Store(uses), id);
    HoldsMeans(Store(before), id);
    CreateKeeps(Store(before), uses[n].id, uses[n].at, id, Activity(before, id));
    CreatedStore(uses);
    if Present(Store(uses), id) { PresentIsActive(Store(uses), id, Activity(uses, id)); }
  }

  lemma PresentIsActive(entries: seq<Entry>, id: Id, activity: Option<int>)
    requires ActiveAs(entries, id, activity) && Present(entries, id)
    ensures activity.Some?
  {
  }

  lemma CreatedStore(uses: seq<Use>)
    requires uses != [] && uses[|uses| - 1].CreateUse?
    ensures var n := |uses| - 1; Store(uses) == Created(Store(uses[..n]), uses[n].id, uses[n].at)
  {
  }

  lemma {:induction false} OtherwiseFollows(uses: seq<Use>, id: Id)
    requires uses != [] && !uses[|uses| - 1].CreateUse?
    ensures Follows(uses, id)
  {
    var n := |uses| - 1;
    var before := uses[..n];
    EntriesAreActive(before, id);
    EntriesAreActive(uses, id);
    StoreIsDistinct(before);
    match uses[n] {
      case AppendUse(other, message, at) => AppendKeeps(Store(before), other, message, at, id, Activity(before, id));
      case HasUse(_, at) => SweepKeeps(Store(before), at, id, Activity(before, id));
    }
    hide Live, Appended, Distinct, Holds;
  }

  lemma {:induction false} LastUse(uses: seq<Use>, id: Id)
    requires uses != []
    ensures Follows(uses, id)
  {
    if uses[|uses| - 1].CreateUse? { CreateFollows(uses, id); } else { OtherwiseFollows(uses, id); }
  }
}
