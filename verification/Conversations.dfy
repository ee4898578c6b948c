/**
 The website agent's conversation store: a Map in insertion order, bounded in messages, age
 and size, and what it still remembers of a full log.
 */
module Conversations {
  import opened Basics

  const MAX_MESSAGES_PER_CONVERSATION: nat := 6
  const CONVERSATION_TTL_MS: nat := 30 * 60 * 1000
  const MAX_TRACKED_CONVERSATIONS: nat := 2000

  type Id = nat
  type Message = string
  datatype Entry = Entry(id: Id, messages: seq<Message>, lastActivityAt: int)

  // --- The Map's operations on its entries, oldest insertion first ------------------------

  predicate Expired(e: Entry, now: int) {
    now - e.lastActivityAt > CONVERSATION_TTL_MS
  }

  function Live(entries: seq<Entry>, now: int): (r: seq<Entry>)
    ensures |r| <= |entries|
  {
    if entries == [] then []
    else
      var n := |entries| - 1;
      if Expired(entries[n], now) then Live(entries[..n], now) else Live(entries[..n], now) + [entries[n]]
  }

  // The position of a key, or the number of entries when it is absent.
  function Find(entries: seq<Entry>, id: Id): (k: nat)
    ensures k <= |entries|
    ensures k < |entries| ==> entries[k].id == id
    ensures forall j :: 0 <= j < k ==> entries[j].id != id
  {
    if entries == [] then 0
    else
      var n := |entries| - 1;
      var k := Find(entries[..n], id);
      assert forall j :: 0 <= j < n ==> entries[..n][j] == entries[j];
      if k < n then k else if entries[n].id == id then n else |entries|
  }

  predicate Holds(entries: seq<Entry>, id: Id) {
    exists k :: 0 <= k < |entries| && entries[k].id == id
  }

  // Map.set: an existing key keeps its place.
  function SetEntry(entries: seq<Entry>, e: Entry): seq<Entry> {
    var k := Find(entries, e.id);
    if k < |entries| then entries[k := e] else entries + [e]
  }

  // The least recently active entry, the first inserted of them when several are.
  function Oldest(entries: seq<Entry>): (k: nat)
    requires entries != []
    ensures k < |entries|
    ensures forall j :: 0 <= j < |entries| ==> entries[k].lastActivityAt <= entries[j].lastActivityAt
    ensures forall j :: 0 <= j < k ==> entries[k].lastActivityAt < entries[j].lastActivityAt
  {
    var n := |entries| - 1;
    if n == 0 then 0
    else
      var k := Oldest(entries[..n]);
      assert forall j :: 0 <= j < n ==> entries[..n][j] == entries[j];
      if entries[n].lastActivityAt < entries[k].lastActivityAt then n else k
  }

  function Without(entries: seq<Entry>, k: nat): seq<Entry>
    requires k < |entries|
  {
    entries[..k] + entries[k + 1..]
  }

  // Deleting the first of the entries sorted by activity, as many as there are too many.
  function Capped(entries: seq<Entry>): (r: seq<Entry>)
    ensures |r| <= MAX_TRACKED_CONVERSATIONS
    ensures |r| == if |entries| <= MAX_TRACKED_CONVERSATIONS then |entries| else MAX_TRACKED_CONVERSATIONS
    decreases |entries|
  {
    if |entries| <= MAX_TRACKED_CONVERSATIONS then entries else Capped(Without(entries, Oldest(entries)))
  }

  function LastSix(messages: seq<Message>): seq<Message> {
    if |messages| <= MAX_MESSAGES_PER_CONVERSATION then messages
    else messages[|messages| - MAX_MESSAGES_PER_CONVERSATION..]
  }

  function Created(entries: seq<Entry>, id: Id, now: int): seq<Entry> {
    Capped(SetEntry(Live(entries, now), Entry(id, [], now)))
  }

  function Appended(entries: seq<Entry>, id: Id, message: Message, now: int): seq<Entry> {
    var k := Find(entries, id);
    if k == |entries| then entries
    else entries[k := Entry(id, LastSix(entries[k].messages + [message]), now)]
  }

  function HistoryOf(entries: seq<Entry>, id: Id): seq<Message> {
    var k := Find(entries, id);
    if k == |entries| then [] else entries[k].messages
  }

  ghost predicate Distinct(entries: seq<Entry>) {
    forall j, k :: 0 <= j < k < |entries| ==> entries[j].id != entries[k].id
  }

  // --- The class -----------------------------------------------------------------------------

  class PublicAgentConversationStore {
    var conversations: seq<Entry>

    constructor ()
      ensures conversations == []
    {
      conversations := [];
    }

    method CleanupExpired(now: int)
      modifies this
      ensures conversations == Live(old(conversations), now)
    {
      var kept: seq<Entry> := [];
      for k := 0 to |conversations|
        invariant conversations == old(conversations)
        invariant kept == Live(conversations[..k], now)
      {
        assert conversations[..k + 1][..k] == conversations[..k];
        if now - conversations[k].lastActivityAt <= CONVERSATION_TTL_MS {
          kept := kept + [conversations[k]];
        }
      }
      assert conversations[..|conversations|] == conversations;
      conversations := kept;
    }

    method FindKey(id: Id) returns (k: nat)
      ensures k == Find(conversations, id)
    {
      k := 0;
      while k < |conversations| && conversations[k].id != id
        invariant k <= |conversations|
        invariant forall j :: 0 <= j < k ==> conversations[j].id != id
      {
        k := k + 1;
      }
    }

    method FindOldest() returns (oldest: nat)
      requires conversations != []
      ensures oldest == Oldest(conversations)
    {
      oldest := 0;
      for k := 1 to |conversations|
        invariant oldest < k
        invariant forall j :: 0 <= j < k ==> conversations[oldest].lastActivityAt <= conversations[j].lastActivityAt
        invariant forall j :: 0 <= j < oldest ==> conversations[oldest].lastActivityAt < conversations[j].lastActivityAt
      {
        if conversations[k].lastActivityAt < conversations[oldest].lastActivityAt {
          oldest := k;
        }
      }
      var first := Oldest(conversations);
      assert first == oldest;
    }

    method EnforceCap()
      modifies this
      ensures conversations == Capped(old(conversations))
    {
      while |conversations| > MAX_TRACKED_CONVERSATIONS
        invariant Capped(conversations) == Capped(old(conversations))
        decreases |conversations|
      {
        var oldest := FindOldest();
        conversations := conversations[..oldest] + conversations[oldest + 1..];
      }
    }

    method Create(id: Id, now: int)
      modifies this
      ensures conversations == Created(old(conversations), id, now)
    {
      CleanupExpired(now);
      var k := FindKey(id);
      if k < |conversations| {
        conversations := conversations[k := Entry(id, [], now)];
      } else {
        conversations := conversations + [Entry(id, [], now)];
      }
      EnforceCap();
    }

    method Has(id: Id, now: int) returns (live: bool)
      modifies this
      ensures conversations == Live(old(conversations), now)
      ensures live <==> Holds(conversations, id)
    {
      CleanupExpired(now);
      var k := FindKey(id);
      live := k < |conversations|;
    }

    method GetHistory(id: Id) returns (messages: seq<Message>)
      ensures messages == HistoryOf(conversations, id)
    {
      var k := FindKey(id);
      messages := if k == |conversations| then [] else conversations[k].messages;
    }

    method Append(id: Id, message: Message, now: int)
      modifies this
      ensures conversations == Appended(old(conversations), id, message, now)
    {
      var k := FindKey(id);
      if k == |conversations| {
        return;
      }
      var messages := conversations[k].messages + [message];
      if |messages| > MAX_MESSAGES_PER_CONVERSATION {
        messages := messages[|messages| - MAX_MESSAGES_PER_CONVERSATION..];
      }
      conversations := conversations[k := Entry(id, messages, now)];
    }
  }

  // --- Runs against a full log ------------------------------------------------------------------

  datatype Use = CreateUse(id: Id, at: int) | AppendUse(id: Id, message: Message, at: int) | HasUse(id: Id, at: int)

  function Used(entries: seq<Entry>, use: Use): seq<Entry> {
    match use
    case CreateUse(id, at) => Created(entries, id, at)
    case AppendUse(id, message, at) => Appended(entries, id, message, at)
    case HasUse(_, at) => Live(entries, at)
  }

  function Store(uses: seq<Use>): seq<Entry> {
    if uses == [] then [] else Used(Store(uses[..|uses| - 1]), uses[|uses| - 1])
  }

  // Every message appended to the id since it was last created.
  function FullLog(uses: seq<Use>, id: Id): seq<Message> {
    if uses == [] then []
    else
      var before := FullLog(uses[..|uses| - 1], id);
      match uses[|uses| - 1]
      case CreateUse(other, _) => if other == id then [] else before
      case AppendUse(other, message, _) => if other == id then before + [message] else before
      case HasUse(_, _) => before
  }

  ghost predicate Remembers(entries: seq<Entry>, uses: seq<Use>) {
    && Distinct(entries)
    && |entries| <= MAX_TRACKED_CONVERSATIONS
    && (forall k :: 0 <= k < |entries| ==> entries[k].messages == LastSix(FullLog(uses, entries[k].id)))
  }

  // What is kept is a subsequence: entries in their order, none new, none doubled.
  ghost predicate Within(some: seq<Entry>, all: seq<Entry>) {
    && Distinct(some)
    && (forall k :: 0 <= k < |some| ==> some[k] in all)
  }

  lemma {:induction false} LiveMembers(entries: seq<Entry>, now: int, e: Entry)
    ensures e in Live(entries, now) <==> e in entries && !Expired(e, now)
  {
    if entries != [] {
      var n := |entries| - 1;
      LiveMembers(entries[..n], now, e);
      assert entries == entries[..n] + [entries[n]];
    }
  }

  lemma {:induction false} LiveDistinct(entries: seq<Entry>, now: int)
    requires Distinct(entries)
    ensures Distinct(Live(entries, now))
  {
    if entries != [] {
      var n := |entries| - 1;
      LiveDistinct(entries[..n], now);
      forall k | 0 <= k < |Live(entries[..n], now)|
        ensures Live(entries[..n], now)[k].id != entries[n].id
      {
        LiveMembers(entries[..n], now, Live(entries[..n], now)[k]);
      }
    }
  }

  lemma LiveWithin(entries: seq<Entry>, now: int)
    requires Distinct(entries)
    ensures Within(Live(entries, now), entries)
    ensures forall e :: e in Live(entries, now) <==> e in entries && !Expired(e, now)
  {
    LiveDistinct(entries, now);
    forall e
      ensures e in Live(entries, now) <==> e in entries && !Expired(e, now)
    {
      LiveMembers(entries, now, e);
    }
    assert forall k :: 0 <= k < |Live(entries, now)| ==> Live(entries, now)[k] in Live(entries, now);
  }

  lemma WithoutWithin(entries: seq<Entry>, k: nat)
    requires Distinct(entries) && k < |entries|
    ensures Within(Without(entries, k), entries)
    ensures forall e :: e in entries && e != entries[k] ==> e in Without(entries, k)
    ensures entries[k] !in Without(entries, k)
  {
  }

  // Only the least recently active go: whoever stays is at least as recent as whoever went.
  lemma {:induction false} CapEvictsTheOldest(entries: seq<Entry>)
    requires Distinct(entries)
    ensures Within(Capped(entries), entries)
    ensures forall gone, kept :: gone in entries && gone !in Capped(entries) && kept in Capped(entries) ==>
      gone.lastActivityAt <= kept.lastActivityAt
    decreases |entries|
  {
    if |entries| > MAX_TRACKED_CONVERSATIONS {
      var k := Oldest(entries);
      WithoutWithin(entries, k);
      CapEvictsTheOldest(Without(entries, k));
    }
  }

  lemma SetKeeps(entries: seq<Entry>, e: Entry)
    requires Distinct(entries)
    ensures Distinct(SetEntry(entries, e)) && e in SetEntry(entries, e)
    ensures |SetEntry(entries, e)| <= |entries| + 1
    ensures forall other :: other in SetEntry(entries, e) ==> other == e || other in entries
    ensures forall other :: other in SetEntry(entries, e) && other.id == e.id ==> other == e
  {
    var k := Find(entries, e.id);
    if k < |entries| {
      assert entries[k := e][k] == e;
    } else {
      assert (entries + [e])[|entries|] == e;
    }
  }

  lemma LastSixOfMore(log: seq<Message>, message: Message)
    ensures LastSix(LastSix(log) + [message]) == LastSix(log + [message])
  {
  }

  lemma AppendRemembers(entries: seq<Entry>, uses: seq<Use>, id: Id, message: Message, at: int)
    requires Remembers(entries, uses)
    ensures Remembers(Appended(entries, id, message, at), uses + [AppendUse(id, message, at)])
  {
    var more := uses + [AppendUse(id, message, at)];
    assert more[..|uses|] == uses;
    LastSixOfMore(FullLog(uses, id), message);
  }

  lemma CreateRemembers(entries: seq<Entry>, uses: seq<Use>, id: Id, at: int)
    requires Remembers(entries, uses)
    ensures Remembers(Created(entries, id, at), uses + [CreateUse(id, at)])
  {
    var more := uses + [CreateUse(id, at)];
    assert more[..|uses|] == uses;
    LiveWithin(entries, at);
    var live := Live(entries, at);
    var e := Entry(id, [], at);
    SetKeeps(live, e);
    CapEvictsTheOldest(SetEntry(live, e));
    var created := Created(entries, id, at);
    forall k | 0 <= k < |created|
      ensures created[k].messages == LastSix(FullLog(more, created[k].id))
    {
      assert created[k] in SetEntry(live, e);
      if created[k] != e { assert created[k] in live && created[k] in entries; }
    }
  }

  lemma {:induction false} StoreRemembers(uses: seq<Use>)
    ensures Remembers(Store(uses), uses)
  {
    if uses != [] {
      var n := |uses| - 1;
      StoreRemembers(uses[..n]);
      assert uses == uses[..n] + [uses[n]];
      match uses[n] {
        case CreateUse(id, at) => CreateRemembers(Store(uses[..n]), uses[..n], id, at);
        case AppendUse(id, message, at) => AppendRemembers(Store(uses[..n]), uses[..n], id, message, at);
        case HasUse(_, at) => LiveWithin(Store(uses[..n]), at);
      }
    }
  }

  // Whatever the order of uses and whatever the clock does: a conversation that is still there has the
  // last six messages of its full log, and there are never more than 2000 of them.
  lemma HistoryIsTheLogsTail(uses: seq<Use>, id: Id)
    ensures |Store(uses)| <= 2000
    ensures Holds(Store(uses), id) ==> var log := FullLog(uses, id);
      HistoryOf(Store(uses), id) == if |log| <= 6 then log else log[|log| - 6..]
  {
    StoreRemembers(uses);
  }

  // One too many: the new entry goes exactly when all the others are more recent.
  lemma NewestGoesExactlyWhen(live: seq<Entry>, e: Entry)
    requires |live| == MAX_TRACKED_CONVERSATIONS && !Holds(live, e.id)
    ensures Holds(Capped(live + [e]), e.id) <==> Oldest(live + [e]) != |live|
    ensures Oldest(live + [e]) == |live| <==> forall x :: x in live ==> x.lastActivityAt > e.lastActivityAt
  {
    var all := live + [e];
    var k := Oldest(all);
    var rest := Without(all, k);
    assert Capped(all) == rest;
    assert all[|live|] == e;
    if k == |live| {
      assert rest == live;
      forall x | x in live
        ensures x.lastActivityAt > e.lastActivityAt
      {
        var j :| 0 <= j < |live| && live[j] == x;
        assert all[j] == x;
      }
    } else {
      assert rest[|live| - 1] == e;
      assert all[k] == live[k] && live[k] in live;
    }
  }

  // A fresh id is evicted by its own creation if and only if the store is full of conversations that
  // were all active later than the clock now reads.
  lemma CreateLosesOwnIdExactlyWhen(entries: seq<Entry>, id: Id, now: int)
    requires Distinct(entries) && |entries| <= MAX_TRACKED_CONVERSATIONS && !Holds(entries, id)
    ensures !Holds(Created(entries, id, now), id) <==>
      |Live(entries, now)| == MAX_TRACKED_CONVERSATIONS &&
      forall e :: e in Live(entries, now) ==> e.lastActivityAt > now
  {
    hide Live, Oldest, Capped;
    var live := Live(entries, now);
    var e := Entry(id, [], now);
    StillAbsent(entries, now, id);
    assert SetEntry(live, e) == live + [e];
    if |live| == MAX_TRACKED_CONVERSATIONS {
      NewestGoesExactlyWhen(live, e);
    } else {
      NothingToEvict(live + [e]);
      assert (live + [e])[|live|] == e;
    }
  }

  lemma StillAbsent(entries: seq<Entry>, now: int, id: Id)
    requires !Holds(entries, id)
    ensures !Holds(Live(entries, now), id)
  {
    forall k | 0 <= k < |Live(entries, now)|
      ensures Live(entries, now)[k].id != id
    {
      LiveMembers(entries, now, Live(entries, now)[k]);
    }
  }

  lemma NothingToEvict(entries: seq<Entry>)
    requires |entries| <= MAX_TRACKED_CONVERSATIONS
    ensures Capped(entries) == entries
  {
  }

  ghost predicate ClockRuns(uses: seq<Use>) {
    forall j, k :: 0 <= j < k < |uses| ==> uses[j].at <= uses[k].at
  }

  lemma {:induction false} ActivityIsPast(uses: seq<Use>, now: int)
    requires ClockRuns(uses) && (uses != [] ==> uses[|uses| - 1].at <= now)
    ensures forall e :: e in Store(uses) ==> e.lastActivityAt <= now
  {
    if uses != [] {
      var n := |uses| - 1;
      ActivityIsPast(uses[..n], now);
      StoreRemembers(uses[..n]);
      var before := Store(uses[..n]);
      match uses[n] {
        case CreateUse(id, at) =>
          LiveWithin(before, at);
          SetKeeps(Live(before, at), Entry(id, [], at));
          CapEvictsTheOldest(SetEntry(Live(before, at), Entry(id, [], at)));
        case AppendUse(_, _, _) =>
        case HasUse(_, at) => LiveWithin(before, at);
      }
    }
  }

  // With a clock that never goes back, create never evicts the fresh id it returns.
  lemma {:induction false} CreateKeepsItsId(uses: seq<Use>, id: Id, now: int)
    requires ClockRuns(uses) && (uses != [] ==> uses[|uses| - 1].at <= now) && !Holds(Store(uses), id)
    ensures Holds(Created(Store(uses), id, now), id)
  {
    ActivityIsPast(uses, now);
    StoreRemembers(uses);
    LiveWithin(Store(uses), now);
    CreateLosesOwnIdExactlyWhen(Store(uses), id, now);
    var live := Live(Store(uses), now);
    if |live| == MAX_TRACKED_CONVERSATIONS {
      assert live[0] in live && live[0].lastActivityAt <= now;
    }
  }
}
