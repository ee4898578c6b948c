/** WhatsApp delivery callbacks: at-least-once, in any order, and always the same result. */
module Callbacks {

  type MessageId = nat

  datatype NotificationStatus = Pending | Sent | Failed | Read
  datatype Kind = SentKind | DeliveredKind | ReadKind | FailedKind
  datatype Callback = Callback(message: MessageId, kind: Kind)

  // One status after one callback for it.
  function Moved(st: NotificationStatus, kind: Kind): NotificationStatus {
    match kind
    case SentKind => st
    case DeliveredKind => st
    case ReadKind => Read
    case FailedKind => if st.Read? then st else Failed
  }

  function Applied(statuses: map<MessageId, NotificationStatus>, cb: Callback): map<MessageId, NotificationStatus> {
    if cb.message !in statuses then statuses
    else statuses[cb.message := Moved(statuses[cb.message], cb.kind)]
  }

  function Final(statuses: map<MessageId, NotificationStatus>, cbs: seq<Callback>): map<MessageId, NotificationStatus> {
    if cbs == [] then statuses else Applied(Final(statuses, cbs[..|cbs| - 1]), cbs[|cbs| - 1])
  }

  class NotificationsTable {
    var statuses: map<MessageId, NotificationStatus>

    constructor (statuses: map<MessageId, NotificationStatus>)
      ensures this.statuses == statuses
    {
      this.statuses := statuses;
    }

    method UpdateWhatsAppStatusFromWebhook(message: MessageId, kind: Kind)
      modifies this
      ensures statuses == Applied(old(statuses), Callback(message, kind))
    {
      if kind == SentKind || kind == DeliveredKind {
        assert message in statuses ==> statuses[message := statuses[message]] == statuses;
        return;
      }
      if message !in statuses {
        return;
      }
      if kind == FailedKind && statuses[message] == Read {
        assert statuses[message := statuses[message]] == statuses;
        return;
      }
      statuses := statuses[message := if kind == ReadKind then Read else Failed];
    }

    method Deliver(cbs: seq<Callback>)
      modifies this
      ensures statuses == Final(old(statuses), cbs)
    {
      for k := 0 to |cbs|
        invariant statuses == Final(old(statuses), cbs[..k])
      {
        assert cbs[..k + 1][..k] == cbs[..k];
        UpdateWhatsAppStatusFromWebhook(cbs[k].message, cbs[k].kind);
      }
      assert cbs[..|cbs|] == cbs;
    }
  }

  function Strongest(before: NotificationStatus, m: MessageId, cbs: seq<Callback>): NotificationStatus {
    if before.Read? || Callback(m, ReadKind) in cbs then Read
    else if Callback(m, FailedKind) in cbs then Failed
    else before
  }

  // READ wins over FAILED, and FAILED over everything else.
  lemma {:induction false} FinalIsTheStrongest(statuses: map<MessageId, NotificationStatus>, cbs: seq<Callback>, m: MessageId)
    ensures Final(statuses, cbs).Keys == statuses.Keys
    ensures m in statuses ==> Final(statuses, cbs)[m] == Strongest(statuses[m], m, cbs)
  {
    if cbs != [] {
      FinalIsTheStrongest(statuses, cbs[..|cbs| - 1], m);
      assert cbs == cbs[..|cbs| - 1] + [cbs[|cbs| - 1]];
    }
  }

  // Two deliveries of the same callbacks, reordered and repeated at will, leave the same statuses.
  lemma OrderAndRepetitionDoNotMatter(statuses: map<MessageId, NotificationStatus>, a: seq<Callback>, b: seq<Callback>)
    requires forall cb :: cb in a <==> cb in b
    ensures Final(statuses, a) == Final(statuses, b)
  {
    FinalIsTheStrongest(statuses, a, 0);
    FinalIsTheStrongest(statuses, b, 0);
    forall m | m in statuses
      ensures Final(statuses, a)[m] == Final(statuses, b)[m]
    {
      FinalIsTheStrongest(statuses, a, m);
      FinalIsTheStrongest(statuses, b, m);
    }
  }
}
