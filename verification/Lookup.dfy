/** Finding a subscription by the references a delivery carries. */
module Lookup {
  import opened BillingTypes

  predicate HasSubscriptionReference(row: Subscription, p: Provider, reference: Option<string>) {
    row.provider == p && Truthy(reference) && row.subscriptionReference == reference
  }

  predicate HasCustomerReference(row: Subscription, p: Provider, reference: Option<string>) {
    row.provider == p && Truthy(reference) && row.customerReference == reference
  }

  predicate AnySubscriptionMatch(subs: map<WorkspaceId, Subscription>, p: Provider, reference: Option<string>) {
    exists w :: w in subs && HasSubscriptionReference(subs[w], p, reference)
  }

  predicate AnyCustomerMatch(subs: map<WorkspaceId, Subscription>, p: Provider, reference: Option<string>) {
    exists w :: w in subs && HasCustomerReference(subs[w], p, reference)
  }

  /** `found` is an answer the two `.first()` queries may give: some row with the
      subscription reference, failing that some row with the customer reference. The queries
      name no order, so when several rows match any of them may come back. */
  predicate IsFirstMatch(subs: map<WorkspaceId, Subscription>, p: Provider, subscription: Option<string>,
                         customer: Option<string>, found: Option<WorkspaceId>) {
    match found
    case Some(w) =>
      && w in subs
      && (HasSubscriptionReference(subs[w], p, subscription)
          || (!AnySubscriptionMatch(subs, p, subscription) && HasCustomerReference(subs[w], p, customer)))
    case None => !AnySubscriptionMatch(subs, p, subscription) && !AnyCustomerMatch(subs, p, customer)
  }

  /** The queries always have an answer. */
  lemma FirstMatchExists(subs: map<WorkspaceId, Subscription>, p: Provider, subscription: Option<string>,
                         customer: Option<string>)
    ensures exists found :: IsFirstMatch(subs, p, subscription, customer, found)
  {
    if AnySubscriptionMatch(subs, p, subscription) {
      var w :| w in subs && HasSubscriptionReference(subs[w], p, subscription);
      assert IsFirstMatch(subs, p, subscription, customer, Some(w));
    } else if AnyCustomerMatch(subs, p, customer) {
      var w :| w in subs && HasCustomerReference(subs[w], p, customer);
      assert IsFirstMatch(subs, p, subscription, customer, Some(w));
    } else {
      assert IsFirstMatch(subs, p, subscription, customer, None);
    }
  }

  /** No two rows of the provider share a non-empty subscription or customer reference. */
  ghost predicate ReferencesUnique(subs: map<WorkspaceId, Subscription>, p: Provider) {
    && SubscriptionReferencesUnique(subs, p)
    && CustomerReferencesUnique(subs, p)
  }

  ghost predicate SubscriptionReferencesUnique(subs: map<WorkspaceId, Subscription>, p: Provider) {
    forall v, w :: v in subs && w in subs && subs[v].provider == p && subs[w].provider == p && v != w ==>
                     || !Truthy(subs[v].subscriptionReference)
                     || subs[v].subscriptionReference != subs[w].subscriptionReference
  }

  ghost predicate CustomerReferencesUnique(subs: map<WorkspaceId, Subscription>, p: Provider) {
    forall v, w :: v in subs && w in subs && subs[v].provider == p && subs[w].provider == p && v != w ==>
                     !Truthy(subs[v].customerReference) || subs[v].customerReference != subs[w].customerReference
  }

  /** With unique references the lookup has one answer, whatever order the rows come in. */
  lemma UniqueReferencesDetermineLookup(subs: map<WorkspaceId, Subscription>, p: Provider,
                                        subscription: Option<string>, customer: Option<string>,
                                        a: Option<WorkspaceId>, b: Option<WorkspaceId>)
    requires ReferencesUnique(subs, p)
    requires IsFirstMatch(subs, p, subscription, customer, a)
    requires IsFirstMatch(subs, p, subscription, customer, b)
    ensures a == b
  {
  }

  /** The guarantee is needed: two rows sharing a reference make the answer arbitrary. */
  lemma SharedReferenceIsAmbiguous(subs: map<WorkspaceId, Subscription>, p: Provider, v: WorkspaceId, w: WorkspaceId)
    requires v in subs && w in subs && v != w
    requires HasSubscriptionReference(subs[v], p, subs[w].subscriptionReference)
    requires subs[w].provider == p
    ensures IsFirstMatch(subs, p, subs[w].subscriptionReference, None, Some(v))
    ensures IsFirstMatch(subs, p, subs[w].subscriptionReference, None, Some(w))
  {
  }
}
