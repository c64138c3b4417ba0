/** The subscription catalog (`SUBSCRIPTION_TIERS`, kept once in the
    configuration module and once more inside the in-memory server) and the
    scene templates the in-memory server offers. */
module Catalog {
  import opened Base

  /** One tier: its monthly price, its monthly image quota and the features
      the plan card lists. */
  datatype Plan = Plan(price: nat, imagesPerMonth: nat, features: seq<string>)

  const Free := Plan(0, 10, ["Basic scenes", "Standard resolution", "Community support"])
  const Starter := Plan(49, 20, ["Basic scenes", "Standard resolution", "Email support"])
  const Business := Plan(149, 100, ["Advanced scenes", "High resolution", "Priority support"])
  const Enterprise := Plan(499, 500, ["Custom backgrounds", "Priority processing", "Dedicated support"])

  /** `SUBSCRIPTION_TIERS`. */
  const SubscriptionTiers: map<string, Plan> :=
    map["free" := Free, "starter" := Starter, "business" := Business, "enterprise" := Enterprise]

  /** The tier keys in the order the dictionary literal lists them. */
  const TierOrder: seq<string> := ["free", "starter", "business", "enterprise"]

  /** `SCENE_TEMPLATES`: scene key to the sentence put into the prompt. */
  const SceneTemplates: map<string, string> :=
    map["living_room" := "A modern living room with natural lighting",
        "kitchen" := "A spacious kitchen with marble countertops",
        "office" := "A professional office setting with a desk and chair",
        "outdoor" := "An outdoor patio with greenery",
        "bedroom" := "A cozy bedroom with contemporary furniture",
        "bathroom" := "A clean bathroom with white tiles"]

  /** `plans[tier].images_per_month`, the quota of a catalog tier. */
  function Quota(tier: string): (q: nat)
    requires tier in SubscriptionTiers
    ensures q > 0
    ensures q == SubscriptionTiers[tier].imagesPerMonth
  {
    SubscriptionTiers[tier].imagesPerMonth
  }

  /** The catalog has exactly the four tiers, listed once each in `TierOrder`. */
  lemma CatalogKeys()
    ensures SubscriptionTiers.Keys == {"free", "starter", "business", "enterprise"}
    ensures |SubscriptionTiers| == 4
    ensures forall i | 0 <= i < |TierOrder| :: TierOrder[i] in SubscriptionTiers
    ensures forall k | k in SubscriptionTiers :: k in TierOrder
    ensures forall i, j | 0 <= i < j < |TierOrder| :: TierOrder[i] != TierOrder[j]
  {
    assert SubscriptionTiers.Keys == {"free", "starter", "business", "enterprise"};
    assert |{"free", "starter", "business", "enterprise"}| == 4 by {
      assert "free" != "starter" && "free" != "business" && "free" != "enterprise";
      assert "starter" != "business" && "starter" != "enterprise" && "business" != "enterprise";
    }
  }

  /** Only the free tier costs nothing; every tier has a positive quota and
      exactly three features. */
  lemma PlanShape()
    ensures forall k | k in SubscriptionTiers :: (SubscriptionTiers[k].price == 0 <==> k == "free")
    ensures forall k | k in SubscriptionTiers :: SubscriptionTiers[k].imagesPerMonth > 0
    ensures forall k | k in SubscriptionTiers :: |SubscriptionTiers[k].features| == 3
  {
  }

  /** Going up the catalog order, both the price and the quota strictly grow. */
  lemma TiersIncrease()
    ensures forall i, j | 0 <= i < j < |TierOrder| ::
      SubscriptionTiers[TierOrder[i]].price < SubscriptionTiers[TierOrder[j]].price
      && SubscriptionTiers[TierOrder[i]].imagesPerMonth < SubscriptionTiers[TierOrder[j]].imagesPerMonth
  {
  }

  /** Code-point order on strings, the order in which Flask's JSON encoder
      writes the keys of a dictionary. */
  predicate KeyBefore(a: string, b: string) {
    if a == [] then b != []
    else if b == [] then false
    else a[0] < b[0] || (a[0] == b[0] && KeyBefore(a[1..], b[1..]))
  }

  /** The tier keys in the order `jsonify(SUBSCRIPTION_TIERS)` sends them:
      the default JSON provider sorts the keys, so this and not the literal's
      order is the order the subscription page receives and iterates. */
  const ServedOrder: seq<string> := ["business", "enterprise", "free", "starter"]

  /** The served order is the catalog's keys, each once, in ascending key
      order. */
  lemma ServedOrderSorted()
    ensures forall k :: k in ServedOrder <==> k in SubscriptionTiers
    ensures forall i, j | 0 <= i < j < |ServedOrder| :: KeyBefore(ServedOrder[i], ServedOrder[j])
  {
    assert "business"[0] == 'b' && "enterprise"[0] == 'e' && "free"[0] == 'f' && "starter"[0] == 's';
  }

  /** `Object.entries(plans).filter(([key]) => key !== 'free')`: the plans
      the subscription page offers for checkout, in the order it received
      them. */
  function PaidPlanKeys(order: seq<string>): (r: seq<string>)
    ensures forall k | k in r :: k in order && k != "free"
    ensures forall k | k in order && k != "free" :: k in r
    ensures |r| <= |order|
  {
    if order == [] then []
    else (if order[0] == "free" then [] else [order[0]]) + PaidPlanKeys(order[1..])
  }

  /** The paid plans are the three non-free tiers, shown in the served
      order: business, enterprise, then starter. */
  lemma PaidPlans()
    ensures PaidPlanKeys(ServedOrder) == ["business", "enterprise", "starter"]
    ensures forall k | k in PaidPlanKeys(ServedOrder) :: SubscriptionTiers[k].price > 0
  {
    assert ServedOrder[1..][1..][1..][1..] == [];
  }

  /** `SCENE_TEMPLATES.get(scene, custom_prompt)` once the route has made sure
      that a scene outside the templates comes with a custom prompt. */
  function ScenePrompt(scene: string, customPrompt: Option<string>): (p: string)
    requires scene in SceneTemplates || customPrompt.Some?
    ensures scene in SceneTemplates ==> p == SceneTemplates[scene]
    ensures scene !in SceneTemplates ==> p == customPrompt.value
  {
    if scene in SceneTemplates then SceneTemplates[scene] else customPrompt.value
  }
}
