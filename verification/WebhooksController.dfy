/** The Stripe webhook endpoint: ledger check, dispatch, and the mark that is written last. */
module WebhooksControllers {
  import opened Basics
  import opened Payments
  import opened PaymentsServices
  import Provisioning
  import ProvisioningServices
  import opened Webhooks

  class StripeWebhookLedgerService {
    var processed: set<EventId>

    constructor ()
      ensures processed == {}
    {
      processed := {};
    }

    method HasProcessed(event: EventId) returns (r: bool)
      ensures r <==> event in processed
    {
      r := event in processed;
    }

    // A row that is already there is no error.
    method MarkProcessed(event: EventId)
      modifies this
      ensures processed == old(processed) + {event}
    {
      processed := processed + {event};
    }
  }

  class WebhooksController {
    const ledger: StripeWebhookLedgerService
    const payments: PaymentsService
    const subscriptions: ProvisioningServices.SubscriptionsService

    constructor (accounts: Accounts, sites: ProvisioningServices.SiteTables)
      ensures Wired() && payments.db == accounts && subscriptions.db == sites && fresh(ledger) && ledger.processed == {}
    {
      ledger := new StripeWebhookLedgerService();
      payments := new PaymentsService(accounts);
      var provisioning := new ProvisioningServices.TenantProvisioningService(sites);
      subscriptions := new ProvisioningServices.SubscriptionsService(sites, provisioning);
    }

    ghost predicate Wired() {
      subscriptions.provisioning.db == subscriptions.db
    }

    ghost function View(): Desk
      reads ledger, payments.db, subscriptions.db
    {
      Desk(Shop(payments.db.View(), subscriptions.db.View()), ledger.processed)
    }

    // One delivery of a verified event; `outcome` says where the process dies, if it does. A handler
    // that throws leaves the event unmarked, and the provider delivers it again.
    method HandleStripeWebhook(event: EventId, payloads: map<EventId, Payload>, tenant: Provisioning.TenantId,
                               now: Provisioning.Time, outcome: Outcome)
      returns (received: bool)
      requires Wired()
      modifies ledger, payments.db, subscriptions.db
      ensures View() == Really(old(View()), payloads, Delivery(event, tenant, now, outcome))
    {
      var seen := ledger.HasProcessed(event);
      if seen {
        return true;
      }
      if outcome == DiedBeforeHandler {
        return false;
      }
      match PayloadOf(payloads, event) {
        case PaymentPaid(session) =>
          payments.CompleteOnlinePayment(session);
        case SubscriptionCheckout(purpose, sub) =>
          var r := subscriptions.HandleCheckoutCompleted(purpose, sub, tenant, now);
          if r.Err? {
            return false;
          }
        case Nothing =>
      }
      if outcome == DiedBeforeMark {
        return false;
      }
      ledger.MarkProcessed(event);
      received := true;
    }
  }
}
