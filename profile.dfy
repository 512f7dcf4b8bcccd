/** The profile page: the badge collection, its count and empty state, the
    rarity colour lookup with its Common fallback, and the display defaults
    of a badge card. */
module Profile {
  import opened Common
  import opened Entities

  const CommonGradient := "from-gray-500 to-gray-600"

  /** `rarityColors`: keyed by exact, capitalised rarity names. */
  const RarityColors: map<string, string> := map[
    "Common" := CommonGradient,
    "Rare" := "from-blue-500 to-blue-600",
    "Epic" := "from-purple-500 to-purple-600",
    "Legendary" := "from-yellow-500 to-orange-500"]

  /** `rarityColors[key] || rarityColors.Common`: every value of the table is
      a non-empty string, so a hit is kept and a miss falls back. */
  function Lookup(key: string): string {
    if key in RarityColors then RarityColors[key] else CommonGradient
  }

  /** The card glow: `rarityColors[badge.rarity || 'Common'] || rarityColors.Common`. */
  function BadgeGradient(b: Badge): string {
    Lookup(OrElse(b.rarity, "Common"))
  }

  /** The rarity pill, rendered only when `badge.rarity` is truthy. */
  function PillGradient(b: Badge): Option<string> {
    if Truthy(b.rarity) then Some(Lookup(b.rarity.value)) else None
  }

  /** A listed rarity gets its own gradient; a missing, empty or unlisted one
      gets Common's. The gradient is always one of the table's four. */
  lemma BadgeGradientSpec(b: Badge)
    ensures Truthy(b.rarity) && b.rarity.value in RarityColors ==> BadgeGradient(b) == RarityColors[b.rarity.value]
    ensures !(Truthy(b.rarity) && b.rarity.value in RarityColors) ==> BadgeGradient(b) == CommonGradient
    ensures BadgeGradient(b) in RarityColors.Values
  {
    assert RarityColors["Common"] == CommonGradient;
  }

  /** The lookup is case-sensitive: lower-case rarity names fall back to Common. */
  lemma LowerCaseFallsBack(b: Badge)
    requires b.rarity == Some("rare") || b.rarity == Some("epic") || b.rarity == Some("legendary")
    ensures BadgeGradient(b) == CommonGradient
    ensures PillGradient(b) == Some(CommonGradient)
  {
  }

  /** The pill appears exactly for a non-empty rarity, and then has the same
      colour as the card's glow. */
  lemma PillMatchesBadge(b: Badge)
    ensures PillGradient(b).Some? <==> Truthy(b.rarity)
    ensures PillGradient(b).Some? ==> PillGradient(b).value == BadgeGradient(b)
  {
  }

  /** `badge.badgeName || 'Unnamed Badge'`. */
  function DisplayName(b: Badge): (name: string)
    ensures name != ""
    ensures Truthy(b.badgeName) ==> name == b.badgeName.value
    ensures !Truthy(b.badgeName) ==> name == "Unnamed Badge"
  {
    OrElse(b.badgeName, "Unnamed Badge")
  }

  /** `badge.badgeDescription || 'No description'`. */
  function DisplayDescription(b: Badge): (text: string)
    ensures text != ""
    ensures Truthy(b.badgeDescription) ==> text == b.badgeDescription.value
    ensures !Truthy(b.badgeDescription) ==> text == "No description"
  {
    OrElse(b.badgeDescription, "No description")
  }

  /** The state of the profile page. */
  class ProfilePage {
    var badges: seq<Badge>
    var loading: bool

    constructor ()
      ensures badges == [] && loading
    {
      badges, loading := [], true;
    }

    /** The "Earned" counter. */
    function EarnedCount(): (n: nat)
      reads this
      ensures n == |badges|
    {
      |badges|
    }

    /** "No badges earned yet", shown exactly when nothing was earned. */
    predicate ShowsEmptyState()
      reads this
    {
      EarnedCount() == 0
    }

    /** `loadBadges`: keeps the fetched badges, or the empty list if the
        fetch threw; loading ends either way. */
    method LoadBadges(fetched: Fetch<seq<Badge>>)
      modifies this
      ensures !loading
      ensures badges == if fetched.Fetched? then fetched.items else old(badges)
      ensures fetched.Failed? && old(badges) == [] ==> ShowsEmptyState()
      ensures fetched.Fetched? ==> (ShowsEmptyState() <==> fetched.items == [])
    {
      if fetched.Fetched? {
        badges := fetched.items;
      }
      loading := false;
    }
  }
}
