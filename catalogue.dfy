/** What the pages make of the mock catalogue: its rows read as the
    entities the pages consume. */
module Catalogue {
  import opened Common
  import opened Entities
  import WixMocks
  import Profile
  import Sponsors

  /** A mock badge row as the profile page reads it. */
  function ToBadge(r: WixMocks.BadgeRow): Badge {
    Badge(r.id, Some(r.badgeName), Some(r.badgeDescription), Some(r.badgeImage), Some(r.rarity), Some(r.category))
  }

  /** A mock sponsor row as the sponsors page reads it. */
  function ToSponsor(r: WixMocks.SponsorRow): Sponsor {
    Sponsor(r.id, Some(r.name), Some(r.logo), Some(r.websiteUrl), Some(r.description), Some(r.tier))
  }

  function MockBadges(): seq<Badge> {
    seq(|WixMocks.BadgeRows|, i requires 0 <= i < |WixMocks.BadgeRows| => ToBadge(WixMocks.BadgeRows[i]))
  }

  function MockSponsors(): seq<Sponsor> {
    seq(|WixMocks.SponsorRows|, i requires 0 <= i < |WixMocks.SponsorRows| => ToSponsor(WixMocks.SponsorRows[i]))
  }

  /** The mock badges spell their rarities in lower case, which the
      capitalised colour table never matches: every mock badge glows in the
      Common grey, and every rarity pill is grey as well. */
  lemma MockBadgesAllCommon()
    ensures forall b :: b in MockBadges() ==>
              Profile.BadgeGradient(b) == Profile.CommonGradient &&
              Profile.PillGradient(b) == Some(Profile.CommonGradient)
  {
    forall b | b in MockBadges()
      ensures Profile.BadgeGradient(b) == Profile.CommonGradient
      ensures Profile.PillGradient(b) == Some(Profile.CommonGradient)
    {
      var i :| 0 <= i < |MockBadges()| && MockBadges()[i] == b;
      assert b.rarity.value in {"common", "rare", "epic"};
    }
  }

  /** Every mock sponsor has one of the four tiers, so each sits in exactly
      the group of its tier. */
  lemma MockSponsorTiersKnown()
    ensures forall s :: s in MockSponsors() ==> s.tier.Some? && s.tier.value in Sponsors.TierOrder
  {
    forall s | s in MockSponsors()
      ensures s.tier.Some? && s.tier.value in Sponsors.TierOrder
    {
      var i :| 0 <= i < |MockSponsors()| && MockSponsors()[i] == s;
    }
  }

  /** Each of the four tiers has a mock sponsor, so all four sections render. */
  lemma MockSponsorsRenderAllTiers()
    ensures Sponsors.RenderedTiers(MockSponsors()) == Sponsors.TierOrder
  {
    var ss := MockSponsors();
    assert ss[0].tier == Some("Platinum") && ss[1].tier == Some("Gold");
    assert ss[3].tier == Some("Silver") && ss[5].tier == Some("Bronze");
    assert forall t :: t in Sponsors.TierOrder ==> exists s :: s in ss && s.tier == Some(t);
    Sponsors.AllTiersRender(ss);
  }
}
