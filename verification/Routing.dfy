/** Which provider handles a checkout, and which manages or reconciles a subscription. */
module Routing {
  import opened BillingTypes

  datatype RoutingError = UnknownProvider(raw: string)

  function ConfiguredCheckoutProvider(s: Settings): Result<Provider, RoutingError> {
    if s.billingProvider == "" || s.billingProvider == "stripe" then Success(Stripe)
    else if s.billingProvider == "paddle" then Success(Paddle)
    else if s.billingProvider == "dodo" then Success(Dodo)
    else Failure(UnknownProvider(s.billingProvider))
  }

  function StoredProvider(t: Tables, w: WorkspaceId): Option<Provider> {
    if w in t.subscriptions then Some(t.subscriptions[w].provider) else None
  }

  predicate IsPilotWorkspace(s: Settings, w: WorkspaceId) {
    s.pilotWorkspace == Some(w)
  }

  function PilotOverrideActive(s: Settings, w: WorkspaceId): Result<bool, RoutingError> {
    if !IsPilotWorkspace(s, w) || !s.dodoConfigured then Success(false)
    else
      var configured :- ConfiguredCheckoutProvider(s);
      Success(configured != Dodo)
  }

  function ProviderForCheckout(s: Settings, w: WorkspaceId): Result<Provider, RoutingError> {
    if IsPilotWorkspace(s, w) && s.dodoConfigured then Success(Dodo) else ConfiguredCheckoutProvider(s)
  }

  function ProviderForManagement(t: Tables, s: Settings, w: WorkspaceId): Result<Provider, RoutingError> {
    match StoredProvider(t, w)
    case Some(p) => Success(p)
    case None => ConfiguredCheckoutProvider(s)
  }

  function ProviderForReconciliation(t: Tables, w: WorkspaceId): Option<Provider> {
    StoredProvider(t, w)
  }

  /** The pilot override is active exactly when it changes where a checkout goes, and
      setting a pilot changes the routing of no other workspace and of no subscription. */
  lemma PilotOverrideIsTheOnlyDifference(t: Tables, s: Settings, w: WorkspaceId)
    requires ConfiguredCheckoutProvider(s).Success?
    ensures PilotOverrideActive(s, w)
            == Success(ProviderForCheckout(s, w) != ProviderForCheckout(s.(pilotWorkspace := None), w))
    ensures s.pilotWorkspace != Some(w)
            ==> ProviderForCheckout(s, w) == ProviderForCheckout(s.(pilotWorkspace := None), w)
    ensures ProviderForManagement(t, s, w) == ProviderForManagement(t, s.(pilotWorkspace := None), w)
  {
  }

  /** Where a checkout goes: to Dodo for the pilot workspace once Dodo is configured, else to
      the provider the setting names, Stripe when it is empty; any other name is an error. */
  lemma CheckoutGoesExactly(s: Settings, w: WorkspaceId)
    ensures var isPilot := s.pilotWorkspace == Some(w) && s.dodoConfigured;
            && (ProviderForCheckout(s, w) == Success(Dodo) <==> isPilot || s.billingProvider == "dodo")
            && (ProviderForCheckout(s, w) == Success(Paddle) <==> !isPilot && s.billingProvider == "paddle")
            && (ProviderForCheckout(s, w) == Success(Stripe)
                <==> !isPilot && (s.billingProvider == "" || s.billingProvider == "stripe"))
            && (ProviderForCheckout(s, w) == Failure(UnknownProvider(s.billingProvider))
                <==> !isPilot && s.billingProvider !in {"", "stripe", "paddle", "dodo"})
  {
    assert |"stripe"| == |"paddle"| == 6 && "stripe"[0] == 's' && "paddle"[0] == 'p' && |"dodo"| == 4;
  }

  /** A subscription on file is managed and reconciled by its own provider, whatever the
      settings; without one, management goes by the setting and there is nothing to reconcile. */
  lemma ManagementGoesExactly(t: Tables, s: Settings, w: WorkspaceId)
    ensures w in t.subscriptions ==>
              && ProviderForManagement(t, s, w) == Success(t.subscriptions[w].provider)
              && ProviderForReconciliation(t, w) == Some(t.subscriptions[w].provider)
    ensures w !in t.subscriptions ==>
              && ProviderForManagement(t, s, w) == ProviderForCheckout(s.(pilotWorkspace := None), w)
              && ProviderForReconciliation(t, w) == None
  {
  }
}
