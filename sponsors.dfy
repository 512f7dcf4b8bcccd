/** The sponsors page: sponsors grouped by a fixed tier order, the tiers that
    render, the empty-state rule and the per-tier style tables. */
module Sponsors {
  import opened Common
  import opened Entities

  /** `tierOrder`. */
  const TierOrder: seq<string> := ["Platinum", "Gold", "Silver", "Bronze"]

  /** The group of one tier: `sponsors.filter(s => s.tier === tier)`. */
  function Group(sponsors: seq<Sponsor>, tier: string): seq<Sponsor> {
    Filter(sponsors, HasTier(tier))
  }

  /** `s => s.tier === tier`. */
  function HasTier(tier: string): Sponsor -> bool {
    (s: Sponsor) => s.tier == Some(tier)
  }

  /** `tiers.reduce((acc, tier) => { acc[tier] = group; return acc }, {})`:
      one key per tier, bound to that tier's group. */
  function GroupByTier(tiers: seq<string>, sponsors: seq<Sponsor>): (byTier: map<string, seq<Sponsor>>)
    ensures byTier.Keys == set t | t in tiers
    ensures forall t :: t in byTier ==> byTier[t] == Group(sponsors, t)
  {
    if tiers == [] then map[]
    else
      var last := tiers[|tiers| - 1];
      GroupByTier(tiers[..|tiers| - 1], sponsors)[last := Group(sponsors, last)]
  }

  /** `sponsorsByTier`. */
  function SponsorsByTier(sponsors: seq<Sponsor>): map<string, seq<Sponsor>> {
    GroupByTier(TierOrder, sponsors)
  }

  /** The record has exactly the four tier keys, and each holds exactly the
      sponsors of that tier, in their original order. */
  lemma SponsorsByTierSpec(sponsors: seq<Sponsor>)
    ensures SponsorsByTier(sponsors).Keys == {"Platinum", "Gold", "Silver", "Bronze"}
    ensures forall t :: t in SponsorsByTier(sponsors) ==>
              SponsorsByTier(sponsors)[t] == Filter(sponsors, HasTier(t)) &&
              forall s :: s in SponsorsByTier(sponsors)[t] <==> s in sponsors && s.tier == Some(t)
  {
    var byTier := SponsorsByTier(sponsors);
    assert forall t :: t in byTier.Keys <==> t in TierOrder;
    assert TierOrder[0] == "Platinum" && TierOrder[1] == "Gold";
    assert TierOrder[2] == "Silver" && TierOrder[3] == "Bronze";
  }

  /** No sponsor sits in two groups, and a sponsor whose tier is missing or
      not one of the four is in none. */
  lemma GroupsPartition(sponsors: seq<Sponsor>)
    ensures forall t1, t2, s :: (t1 in SponsorsByTier(sponsors) && t2 in SponsorsByTier(sponsors) &&
              s in SponsorsByTier(sponsors)[t1] && s in SponsorsByTier(sponsors)[t2]) ==> t1 == t2
    ensures forall s, t :: (s in sponsors && (s.tier.None? || s.tier.value !in TierOrder) &&
              t in SponsorsByTier(sponsors)) ==> s !in SponsorsByTier(sponsors)[t]
  {
    SponsorsByTierSpec(sponsors);
  }

  /** A tier section renders unless its group is missing or empty. */
  function Rendered(byTier: map<string, seq<Sponsor>>): string -> bool {
    tier => tier in byTier && |byTier[tier]| > 0
  }

  /** The tiers whose sections appear, in the order they appear. */
  function RenderedTiers(sponsors: seq<Sponsor>): seq<string> {
    Filter(TierOrder, Rendered(SponsorsByTier(sponsors)))
  }

  /** A tier's section appears exactly when some sponsor has that tier. */
  lemma RenderedTiersSpec(sponsors: seq<Sponsor>)
    ensures forall t :: t in RenderedTiers(sponsors) <==>
              t in TierOrder && exists s :: s in sponsors && s.tier == Some(t)
  {
    var byTier := SponsorsByTier(sponsors);
    forall t
      ensures t in RenderedTiers(sponsors) <==> t in TierOrder && exists s :: s in sponsors && s.tier == Some(t)
    {
      if t in TierOrder {
        assert t in byTier;
        var g := Group(sponsors, t);
        assert byTier[t] == g;
        if |g| > 0 {
          assert g[0] in g;
        }
        assert Rendered(byTier)(t) <==> |g| > 0;
      }
    }
  }

  /** Sections appear in `tierOrder` order. */
  lemma RenderedTiersOrdered(sponsors: seq<Sponsor>)
    ensures forall i, j :: 0 <= i < j < |RenderedTiers(sponsors)| ==>
              IndexOfTier(RenderedTiers(sponsors)[i]) < IndexOfTier(RenderedTiers(sponsors)[j])
  {
    TierOrderIncreasing();
    FilterKeepsIncreasing(TierOrder, Rendered(SponsorsByTier(sponsors)), IndexOfTier);
  }

  /** When every tier has a sponsor, all four sections render, in order. */
  lemma AllTiersRender(sponsors: seq<Sponsor>)
    requires forall t :: t in TierOrder ==> exists s :: s in sponsors && s.tier == Some(t)
    ensures RenderedTiers(sponsors) == TierOrder
  {
    var byTier := SponsorsByTier(sponsors);
    var rendered := Rendered(byTier);
    forall i | 0 <= i < |TierOrder|
      ensures rendered(TierOrder[i])
    {
      var t := TierOrder[i];
      var s :| s in sponsors && s.tier == Some(t);
      assert t in byTier && byTier[t] == Group(sponsors, t);
      assert s in Group(sponsors, t);
    }
    FilterAll(TierOrder, rendered);
  }

  /** Position of a tier in `tierOrder`. */
  function IndexOfTier(t: string): int {
    if t == "Platinum" then 0 else if t == "Gold" then 1
    else if t == "Silver" then 2 else if t == "Bronze" then 3 else 4
  }

  /** `tierOrder` lists the tiers by increasing position. */
  lemma TierOrderIncreasing()
    ensures forall i, j :: 0 <= i < j < |TierOrder| ==> IndexOfTier(TierOrder[i]) < IndexOfTier(TierOrder[j])
  {
  }

  /** `sponsors.length === 0`: the "No sponsors listed yet" message. */
  predicate ShowsEmptyMessage(sponsors: seq<Sponsor>) {
    |sponsors| == 0
  }

  /** No sections and no empty message either: a non-empty list whose
      sponsors all carry unknown tiers leaves the page blank. */
  lemma UnknownTiersShowNothing(sponsors: seq<Sponsor>)
    requires |sponsors| > 0
    requires forall s :: s in sponsors ==> s.tier.None? || s.tier.value !in TierOrder
    ensures RenderedTiers(sponsors) == [] && !ShowsEmptyMessage(sponsors)
  {
    RenderedTiersSpec(sponsors);
  }

  const TierColors: map<string, string> := map[
    "Platinum" := "from-gray-300 to-gray-100",
    "Gold" := "from-yellow-400 to-yellow-200",
    "Silver" := "from-gray-400 to-gray-300",
    "Bronze" := "from-orange-600 to-orange-400"]

  const TierSizes: map<string, string> := map[
    "Platinum" := "lg:col-span-4",
    "Gold" := "lg:col-span-2",
    "Silver" := "lg:col-span-2",
    "Bronze" := "lg:col-span-2"]

  const DefaultSize := "lg:col-span-2"

  /** `tierSizes[tier] || 'lg:col-span-2'`. */
  function TierSize(tier: string): (size: string)
    ensures tier !in TierSizes ==> size == DefaultSize
    ensures tier in TierSizes ==> size == TierSizes[tier]
  {
    if tier in TierSizes then TierSizes[tier] else DefaultSize
  }

  /** Every rendered tier has a colour and a size of its own; only Platinum
      cards span four columns. */
  lemma RenderedTierStyles(sponsors: seq<Sponsor>, tier: string)
    requires tier in RenderedTiers(sponsors)
    ensures tier in TierColors && tier in TierSizes
    ensures TierSize(tier) == "lg:col-span-4" <==> tier == "Platinum"
  {
  }

  /** The name under a sponsor's card, with a fallback for a missing or empty name. */
  function DisplayName(s: Sponsor): (name: string)
    ensures name != ""
    ensures Truthy(s.name) ==> name == s.name.value
    ensures !Truthy(s.name) ==> name == "Unnamed Sponsor"
  {
    OrElse(s.name, "Unnamed Sponsor")
  }

  /** The state of the sponsors page. */
  class SponsorsPage {
    var sponsors: seq<Sponsor>
    var loading: bool

    constructor ()
      ensures sponsors == [] && loading
    {
      sponsors, loading := [], true;
    }

    /** `loadSponsors`: keeps the fetched list as fetched, or the empty one
        if the fetch threw; loading ends either way. */
    method LoadSponsors(fetched: Fetch<seq<Sponsor>>)
      modifies this
      ensures !loading
      ensures sponsors == if fetched.Fetched? then fetched.items else old(sponsors)
    {
      if fetched.Fetched? {
        sponsors := fetched.items;
      }
      loading := false;
    }
  }
}
