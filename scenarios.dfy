/** End-to-end walks through the dashboard, stated only in terms of the contracts. */
module Scenarios {
  import opened Wrappers
  import opened App
  import opened AnalyticsDisplay
  import BillingInformation

  /** A premium domain: results with the budget and the pinned ranking; Back keeps the input. */
  method PremiumDomainScenario()
  {
    var view := new SearchView();
    assert !view.TrackEnabled();
    view.Edit("panelplayhouse.com");
    view.Track();
    assert view.CurrentPhase() == ResultsShown && view.error == "";
    var data := view.Analytics();
    assert data == Some(Lookup(PanelPlayhouse)) by { ParseName(PanelPlayhouse); }
    view.Back();
    assert view.searchDomain == "panelplayhouse.com" && view.CurrentPhase() == Searching;
  }

  /** An unknown domain: the inline message and no results. */
  method UnknownDomainScenario()
  {
    var view := new SearchView();
    view.Edit("unknown.com");
    view.Track();
    assert !IsDomainAuthorized("unknown.com") by { NearMissesRejected(); }
    assert view.error == "You are not allowed this URL: unknown.com" && !view.showResults;
    assert view.Analytics() == None;
    view.Edit("");
    view.Track();
    assert view.CurrentPhase() == Searching;
  }

  /** Add a card, try to remove the protected head and a missing position, then remove the new card. */
  method BillingScenario(form: BillingInformation.CardForm)
    requires BillingInformation.FormAccepted(form)
  {
    var billing := new BillingInformation.BillingInformation(DefaultCard);
    billing.OpenModal();
    billing.StartAddingCard();
    billing.AddCard(form);
    assert billing.cards == [DefaultCard, BillingInformation.CardOf(form)];
    billing.RemoveCard(0);
    billing.RemoveCard(7);
    assert billing.cards == [DefaultCard, BillingInformation.CardOf(form)];
    billing.RemoveCard(1);
    assert billing.cards == [DefaultCard];
    billing.CloseModal();
    assert !billing.isModalOpen && !billing.isAddingCard;
  }
}
