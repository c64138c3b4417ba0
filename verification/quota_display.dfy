/** The pictures left in the plan, as the four screens that show them read
    the server's `GET /subscription` answer. None of them clamps the figure,
    and all of them agree with the server. */
module QuotaDisplay {
  import opened Base
  import opened Catalog
  import M = MongoBackend
  import Dashboard
  import SubscriptionPage
  import SceneSelection
  import ProductUpload

  /** The `user` object the screens receive: `{subscription: ...}` built
      from the answer, with `null` for an account without a subscription. */
  function ViewerOf(body: Option<M.SubscriptionView>): (u: ProductUpload.Viewer)
    ensures u.Member?
    ensures body.None? <==> u.subscription.Null?
    ensures body.Some? ==> u.subscription == ProductUpload.Present(body.value)
  {
    ProductUpload.Member(if body.None? then ProductUpload.Null else ProductUpload.Present(body.value))
  }

  /** For the subscription the server reports, the dashboard, the plans
      screen, the scene screen and the upload screen all show the tier's quota
      less the pictures generated, and the upload screen can always compute
      its figure. */
  lemma ScreensShowServerQuota(store: M.Store, email: string)
    requires store.Valid() && email in store.users && store.users[email].subscription.Some?
    ensures var body := store.GetSubscription(email).body;
      var s := store.users[email].subscription.value;
      var n := Quota(s.tier) - store.users[email].usage.imagesGenerated;
      && body.Some?
      && Dashboard.RemainingImages(body) == n
      && SubscriptionPage.RemainingShown(SubscriptionTiers, body.value) == n
      && SceneSelection.RemainingShown(body.value) == n
      && ProductUpload.ImagesRemaining(ViewerOf(body)) == Some(n)
  {
    var s := store.users[email].subscription.value;
    assert s.tier in SubscriptionTiers;
  }

  /** An account without a subscription: the dashboard shows 0 and the
      upload screen offers no upload and shows 0. */
  lemma NoSubscriptionShownAsZero(store: M.Store, email: string)
    requires store.Valid() && email in store.users && store.users[email].subscription.None?
    ensures var body := store.GetSubscription(email).body;
      && body.None?
      && Dashboard.RemainingImages(body) == 0
      && !ProductUpload.HasSubscription(ViewerOf(body))
      && ProductUpload.ImagesRemaining(ViewerOf(body)) == Some(0)
  {
  }

  /** The upload screen's figure is positive exactly when the server's
      upload gate lets the account through; the screen itself offers the
      upload either way and leaves the refusal to the server. */
  lemma UploadFigureMatchesGate(store: M.Store, email: string)
    requires store.Valid() && email in store.users && store.users[email].subscription.Some?
    ensures ProductUpload.ImagesRemaining(ViewerOf(store.GetSubscription(email).body)).value > 0
      <==> store.Admitted(email)
  {
    ScreensShowServerQuota(store, email);
  }

  /** The `remaining_images` a generation reports is the figure every screen
      shows once the account's counter has gone up by one. */
  lemma GenerationReportMatchesScreens(v: M.SubscriptionView)
    requires v.tier in SubscriptionTiers && v.tierDetails == SubscriptionTiers[v.tier]
    ensures var after := v.(usage := v.usage.(imagesGenerated := v.usage.imagesGenerated + 1));
      var reported := Quota(v.tier) - (v.usage.imagesGenerated + 1);
      && Dashboard.RemainingImages(Some(after)) == reported
      && SubscriptionPage.RemainingShown(SubscriptionTiers, after) == reported
      && SceneSelection.RemainingShown(after) == reported
      && ProductUpload.ImagesRemaining(ViewerOf(Some(after))) == Some(reported)
  {
  }

  /** Generation does not check the quota, so the counter can pass it; the
      screens then show a negative number of pictures left. */
  lemma OverdrawnShownNegative(v: M.SubscriptionView)
    requires v.usage.imagesGenerated > v.tierDetails.imagesPerMonth
    ensures Dashboard.RemainingImages(Some(v)) < 0
    ensures SceneSelection.RemainingShown(v) < 0
    ensures ProductUpload.ImagesRemaining(ViewerOf(Some(v))).value < 0
    ensures v.tier in SubscriptionTiers && v.tierDetails == SubscriptionTiers[v.tier] ==>
      SubscriptionPage.RemainingShown(SubscriptionTiers, v) < 0
  {
  }
}
