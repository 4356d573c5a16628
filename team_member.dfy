/**
 * The older team-member card (components/team-member.tsx): its own member
 * record, a description cut to 150 characters without trimming, and the
 * "Load more" / "Show less" toggle.
 */
module TeamMember {

  /** The record this component declares for itself (it has a `logo` rather than an avatar). */
  datatype Member = Member(id: nat, name: string, username: string, role: string, logo: string, description: string)

  const DESCRIPTION_LIMIT: nat := 150
  const ELLIPSIS: string := "..."
  const LOGO_PLACEHOLDER: string := "/placeholder.svg"

  /** `description.length > 150`. */
  predicate IsLongDescription(d: string) {
    |d| > DESCRIPTION_LIMIT
  }

  /**
   * `shortDescription`: a long description becomes exactly its first 150
   * characters and an ellipsis, nothing trimmed; a short one is kept.
   */
  function ShortDescription(d: string): (r: string)
    ensures !IsLongDescription(d) ==> r == d
    ensures IsLongDescription(d) ==> |r| == DESCRIPTION_LIMIT + 3
    ensures IsLongDescription(d) ==> r[..DESCRIPTION_LIMIT] == d[..DESCRIPTION_LIMIT] && r[DESCRIPTION_LIMIT..] == ELLIPSIS
  {
    if IsLongDescription(d) then d[..DESCRIPTION_LIMIT] + ELLIPSIS else d
  }

  /**
   * Two descriptions get the same short form exactly when they agree on the
   * first 150 characters: what lies beyond the cut is never seen collapsed.
   */
  lemma SameCutSameShort(d: string, e: string)
    requires IsLongDescription(d) && IsLongDescription(e)
    ensures ShortDescription(d) == ShortDescription(e) <==> d[..DESCRIPTION_LIMIT] == e[..DESCRIPTION_LIMIT]
  {
    if ShortDescription(d) == ShortDescription(e) {
      assert ShortDescription(d)[..DESCRIPTION_LIMIT] == ShortDescription(e)[..DESCRIPTION_LIMIT];
    }
  }

  /** `member.logo || "/placeholder.svg"`: an empty logo falls back to the placeholder. */
  function LogoSource(m: Member): (r: string)
    ensures r != []
    ensures m.logo != [] ==> r == m.logo
    ensures m.logo == [] ==> r == LOGO_PLACEHOLDER
  {
    if m.logo != [] then m.logo else LOGO_PLACEHOLDER
  }

  /** One card's state. */
  class Card {
    const member: Member
    var expanded: bool

    constructor (m: Member)
      ensures member == m && !expanded
    {
      member := m;
      expanded := false;
    }

    /** The paragraph's text: full when expanded, the 153-character cut when collapsed and long. */
    function DisplayedText(): (r: string)
      reads this
      ensures expanded || !IsLongDescription(member.description) ==> r == member.description
      ensures !expanded ==> r == ShortDescription(member.description)
      ensures !expanded && IsLongDescription(member.description) ==>
        |r| == DESCRIPTION_LIMIT + 3 && r[..DESCRIPTION_LIMIT] == member.description[..DESCRIPTION_LIMIT]
        && r[DESCRIPTION_LIMIT..] == ELLIPSIS
    {
      if expanded then member.description else ShortDescription(member.description)
    }

    /** The toggle button is rendered only for a long description. */
    predicate ShowToggle()
      reads this
    {
      IsLongDescription(member.description)
    }

    /** "Load more" when collapsed, "Show less" when expanded. */
    function ToggleLabel(): (r: string)
      reads this
      ensures r == "Load more" <==> !expanded
      ensures r == "Show less" <==> expanded
    {
      if expanded then "Show less" else "Load more"
    }

    /** `setExpanded(!expanded)`. */
    method ToggleExpanded()
      modifies this
      ensures expanded == !old(expanded)
      ensures !ShowToggle() ==> DisplayedText() == old(DisplayedText())
    {
      expanded := !expanded;
    }
  }
}
