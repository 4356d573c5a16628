/**
 * The member card (components/member-card.tsx): the description cut to 120
 * characters and trimmed, the "Read more" / "Show less" toggle, the avatar
 * that falls back to a placeholder once the image fails, and the optional
 * view-profile callback.
 */
module MemberCard {
  import opened Text
  import opened Wrappers
  import Types

  const DESCRIPTION_LIMIT: nat := 120
  const ELLIPSIS: string := "..."
  const AVATAR_PLACEHOLDER: string := "/placeholder.svg?height=64&width=64&query=team member avatar"

  /** `description.length > DESCRIPTION_LIMIT`. */
  predicate IsLongDescription(d: string) {
    |d| > DESCRIPTION_LIMIT
  }

  /**
   * `shortDescription`: a long description becomes its first 120 characters,
   * trimmed, then an ellipsis; a short one is kept as it is.
   */
  function ShortDescription(d: string): (r: string)
    ensures !IsLongDescription(d) ==> r == d
    ensures IsLongDescription(d) ==> |r| >= 3 && r[|r| - 3..] == ELLIPSIS && |r| <= DESCRIPTION_LIMIT + 3
    ensures IsLongDescription(d) ==> Occurs(r[..|r| - 3], d[..DESCRIPTION_LIMIT])
    ensures IsLongDescription(d) && |r| > 3 ==> !IsWhitespace(r[0]) && !IsWhitespace(r[|r| - 4])
    ensures IsLongDescription(d) ==> r == Trim(d[..DESCRIPTION_LIMIT]) + ELLIPSIS
  {
    if IsLongDescription(d) then
      var t := Trim(d[..DESCRIPTION_LIMIT]);
      assert (t + ELLIPSIS)[..|t|] == t;
      t + ELLIPSIS
    else d
  }

  /**
   * A long description's short form is at most two characters longer than
   * it: the cut keeps at most 120 of its at least 121 characters and adds three.
   */
  lemma ShortDescriptionBound(d: string)
    requires IsLongDescription(d)
    ensures |ShortDescription(d)| <= |d| + 2
  {
  }

  /**
   * When the cut neither starts nor ends in white space the trim removes
   * nothing, and the short form is exactly the first 120 characters and "...".
   */
  lemma CutWithoutEdgeSpace(d: string)
    requires IsLongDescription(d)
    requires !IsWhitespace(d[0]) && !IsWhitespace(d[DESCRIPTION_LIMIT - 1])
    ensures ShortDescription(d) == d[..DESCRIPTION_LIMIT] + ELLIPSIS
  {
    TrimNoEdgeSpace(d[..DESCRIPTION_LIMIT]);
  }

  /** Trimming a string that starts and ends with a non-space character leaves it unchanged. */
  lemma TrimNoEdgeSpace(s: string)
    requires s != [] && !IsWhitespace(s[0]) && !IsWhitespace(s[|s| - 1])
    ensures Trim(s) == s
  {
    TrimUnique(s, 0, |s|);
  }

  /** An all-white-space cut leaves nothing but the ellipsis. */
  lemma BlankCutIsEllipsis(d: string)
    requires IsLongDescription(d) && AllWhitespace(d[..DESCRIPTION_LIMIT])
    ensures ShortDescription(d) == ELLIPSIS
  {
  }

  /** One card's state: the member it shows, the toggle, the image-failure flag, and whether a callback was passed. */
  class Card {
    const member: Types.Member
    const hasViewProfile: bool
    var expanded: bool
    var imageError: bool

    constructor (m: Types.Member, onViewProfileGiven: bool)
      ensures member == m && hasViewProfile == onViewProfileGiven
      ensures !expanded && !imageError
    {
      member, hasViewProfile := m, onViewProfileGiven;
      expanded, imageError := false, false;
    }

    /**
     * The paragraph's text: the full description when expanded, the short
     * form otherwise; a short description reads the same either way.
     */
    function DisplayedText(): (r: string)
      reads this
      ensures expanded || !IsLongDescription(member.description) ==> r == member.description
      ensures !expanded ==> r == ShortDescription(member.description)
      ensures !expanded && IsLongDescription(member.description) ==>
        |r| >= 3 && r[|r| - 3..] == ELLIPSIS && |r| <= DESCRIPTION_LIMIT + 3
    {
      if expanded then member.description else ShortDescription(member.description)
    }

    /** The toggle button is rendered only for a long description. */
    predicate ShowToggle()
      reads this
    {
      IsLongDescription(member.description)
    }

    /** "Read more" when collapsed, "Show less" when expanded. */
    function ToggleLabel(): (r: string)
      reads this
      ensures r == "Read more" <==> !expanded
      ensures r == "Show less" <==> expanded
    {
      if expanded then "Show less" else "Read more"
    }

    /** The avatar: the member's image until it fails, the placeholder after. */
    function AvatarSource(): (r: string)
      reads this
      ensures imageError ==> r == AVATAR_PLACEHOLDER
      ensures !imageError ==> r == member.avatar
    {
      if imageError then AVATAR_PLACEHOLDER else member.avatar
    }

    /** `setExpanded(!expanded)`: one click flips the toggle and nothing else. */
    method ToggleExpanded()
      modifies this
      ensures expanded == !old(expanded) && imageError == old(imageError)
      ensures !ShowToggle() ==> DisplayedText() == old(DisplayedText())
    {
      expanded := !expanded;
    }

    /** The image's `onError`: from now on the placeholder is shown. */
    method OnImageError()
      modifies this
      ensures imageError && expanded == old(expanded)
      ensures AvatarSource() == AVATAR_PLACEHOLDER
    {
      imageError := true;
    }

    /**
     * `handleViewProfile`: the callback receives this card's member exactly
     * when one was passed; the card's own state does not change.
     */
    method HandleViewProfile() returns (delivered: Option<Types.Member>)
      ensures delivered.Some? <==> hasViewProfile
      ensures delivered.Some? ==> delivered.value == member
    {
      if hasViewProfile {
        delivered := Some(member);
      } else {
        delivered := None;
      }
    }
  }
}
