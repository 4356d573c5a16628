/**
 * The team page (app/members/page.tsx): the static member list, the
 * free-text and role filter with its catch branch, the handlers that update
 * the filters and clear the error, the retry flow, and the rules that pick
 * the full-page error, the grid's content and the filter summary.
 */
module Members {
  import opened Text
  import opened Lists
  import opened Wrappers
  import opened Types

  const MEMBER_1 := Member(1, "Jane Doe", "@janedoe", "Designer", "/professional-female-designer.png",
    "Jane is an experienced designer with over 8 years in UI/UX design. She specializes in creating intuitive interfaces that enhance user experience while maintaining aesthetic appeal.",
    [Skill("UI Design", 95), Skill("Prototyping", 90), Skill("User Research", 85), Skill("Illustration", 80)],
    45, "8+ years")

  const MEMBER_2 := Member(2, "John Smith", "@johnsmith", "Developer", "/professional-male-developer.png",
    "John is a full-stack developer with expertise in React, Node.js, and database management. He has successfully delivered over 30 projects throughout his career and mentors junior developers in the team.",
    [Skill("React", 95), Skill("Node.js", 90), Skill("TypeScript", 85), Skill("Database Design", 80)],
    30, "6+ years")

  const MEMBER_3 := Member(3, "Alex Johnson", "@alexj", "Marketing", "/marketing-specialist-portrait.png",
    "Alex brings creative marketing strategies to the team with a background in digital marketing and content creation. They excel at social media management and SEO optimization.",
    [Skill("Digital Marketing", 95), Skill("SEO", 90), Skill("Content Strategy", 85), Skill("Analytics", 80)],
    25, "5+ years")

  const MEMBER_4 := Member(4, "Maria Garcia", "@mariag", "Project Manager", "/placeholder.svg?height=120&width=120",
    "Maria is a certified project manager with a strong background in agile methodologies. She ensures that all projects are delivered on time and within budget while maintaining the highest quality standards.",
    [Skill("Agile", 95), Skill("Scrum", 90), Skill("Risk Management", 85), Skill("Team Leadership", 80)],
    38, "7+ years")

  const MEMBER_5 := Member(5, "David Kim", "@davidk", "Developer", "/placeholder.svg?height=120&width=120",
    "David specializes in building robust and scalable backend systems. His expertise in cloud architecture and microservices has been instrumental in developing high-performance applications for our enterprise clients.",
    [Skill("Python", 95), Skill("AWS", 90), Skill("Microservices", 85), Skill("Database Optimization", 80)],
    22, "4+ years")

  const MEMBER_6 := Member(6, "Sophia Lee", "@sophial", "Designer", "/placeholder.svg?height=120&width=120",
    "Sophia has an eye for detail and a passion for creating beautiful, functional interfaces. Her designs combine aesthetic appeal with usability principles to deliver exceptional user experiences.",
    [Skill("UI Design", 95), Skill("Wireframing", 90), Skill("Figma", 85), Skill("Design Systems", 80)],
    28, "5+ years")

  /** `TEAM_MEMBERS`, in the source's order. */
  const TEAM_MEMBERS: seq<Member> := [MEMBER_1, MEMBER_2, MEMBER_3, MEMBER_4, MEMBER_5, MEMBER_6]

  /** The message the catch branch stores. */
  const FILTER_ERROR: string := "Failed to filter team members"

  // ---------------------------------------------------------------- filter

  /** The free-text test: name, username or role contains the term, ignoring case. */
  predicate MatchesSearch(m: Member, term: string) {
    var t := ToLower(term);
    Includes(ToLower(m.name), t) || Includes(ToLower(m.username), t) || Includes(ToLower(m.role), t)
  }

  predicate MatchesRole(m: Member, role: string) {
    role == "All" || m.role == role
  }

  predicate Matches(m: Member, term: string, role: string) {
    MatchesSearch(m, term) && MatchesRole(m, role)
  }

  function Matcher(term: string, role: string): Member -> bool {
    m => Matches(m, term, role)
  }

  /** The `try` branch of `filteredMembers`: the members passing both tests, in their original order. */
  function FilterMembers(ms: seq<Member>, term: string, role: string): (r: seq<Member>)
    ensures IsSubsequence(r, ms) && |r| <= |ms|
    ensures forall i :: 0 <= i < |r| ==> r[i] in ms && Matches(r[i], term, role)
    ensures forall i :: 0 <= i < |ms| && Matches(ms[i], term, role) ==> ms[i] in r
  {
    Filter(ms, Matcher(term, role))
  }

  /** The search is substring containment in the lower-cased name, username or role, and nothing else. */
  lemma SearchSemantics(m: Member, term: string, description: string, skills: seq<Skill>)
    ensures MatchesSearch(m, term) <==>
      Occurs(ToLower(term), ToLower(m.name)) || Occurs(ToLower(term), ToLower(m.username))
      || Occurs(ToLower(term), ToLower(m.role))
    ensures MatchesSearch(m.(description := description, skills := skills), term) == MatchesSearch(m, term)
  {
    IncludesIffOccurs(ToLower(m.name), ToLower(term));
    IncludesIffOccurs(ToLower(m.username), ToLower(term));
    IncludesIffOccurs(ToLower(m.role), ToLower(term));
  }

  /** The empty term matches every member. */
  lemma EmptySearchMatchesAll(m: Member)
    ensures MatchesSearch(m, "")
  {
    IncludesEmpty(ToLower(m.name));
  }

  /** `"All"` passes everyone; any other role must be equal to the member's. */
  lemma RoleSemantics(m: Member, role: string)
    ensures MatchesRole(m, "All")
    ensures role != "All" ==> (MatchesRole(m, role) <==> m.role == role)
  {
  }

  /** Every role in the data is one of the role tabs other than `"All"`. */
  lemma DataRolesAreTabs()
    ensures forall i :: 0 <= i < |TEAM_MEMBERS| ==> TEAM_MEMBERS[i].role in TEAM_ROLES[1..]
    ensures "All" !in TEAM_ROLES[1..]
  {
  }

  /** The term and the role can be applied one after the other, in either order. */
  lemma SearchAndRoleCommute(ms: seq<Member>, term: string, role: string)
    ensures FilterMembers(ms, term, role)
      == Filter(Filter(ms, m => MatchesSearch(m, term)), m => MatchesRole(m, role))
    ensures FilterMembers(ms, term, role)
      == Filter(Filter(ms, m => MatchesRole(m, role)), m => MatchesSearch(m, term))
  {
    var s := (m: Member) => MatchesSearch(m, term);
    var r := (m: Member) => MatchesRole(m, role);
    FilterFuse(ms, s, r, Matcher(term, role));
    FilterCommutes(ms, s, r);
  }

  /** Filtering the result again with the same state changes nothing. */
  lemma FilterMembersIdempotent(ms: seq<Member>, term: string, role: string)
    ensures FilterMembers(FilterMembers(ms, term, role), term, role) == FilterMembers(ms, term, role)
  {
    FilterIdempotent(ms, Matcher(term, role));
  }

  /** The reset state, `""` and `"All"`, passes the whole list. */
  lemma DefaultFiltersKeepAll(ms: seq<Member>)
    ensures FilterMembers(ms, "", "All") == ms
  {
    forall m | m in ms ensures Matcher("", "All")(m) {
      EmptySearchMatchesAll(m);
    }
    FilterKeepsAll(ms, Matcher("", "All"));
  }

  /** Every Developer matches the term `"dev"`, through the role. */
  lemma DevMatchesDevelopers(m: Member)
    requires m.role == "Developer"
    ensures MatchesSearch(m, "dev")
  {
    assert ToLower("dev") == "dev";
    assert ToLower(m.role)[..3] == "dev";
  }

  /** A field with no `v` in either case cannot contain `"dev"` once lower-cased. */
  lemma NoDevWithoutV(s: string)
    requires 'v' !in s && 'V' !in s
    ensures !Includes(ToLower(s), "dev")
  {
    if Includes(ToLower(s), "dev") {
      IncludesNeedsChar(ToLower(s), "dev", 2);
    }
  }

  /** A member none of whose searched fields holds a `v` or `V` does not match `"dev"`. */
  lemma NoDevInMember(m: Member)
    requires 'v' !in m.name && 'V' !in m.name
    requires 'v' !in m.username && 'V' !in m.username
    requires 'v' !in m.role && 'V' !in m.role
    ensures !MatchesSearch(m, "dev")
  {
    assert ToLower("dev") == "dev";
    NoDevWithoutV(m.name);
    NoDevWithoutV(m.username);
    NoDevWithoutV(m.role);
  }

  /** A test passing only the second and fifth of six records keeps exactly those two, in order. */
  lemma KeepsSecondAndFifth(a: Member, b: Member, c: Member, d: Member, e: Member, f: Member, k: Member -> bool)
    requires !k(a) && k(b) && !k(c) && !k(d) && k(e) && !k(f)
    ensures Filter([a, b, c, d, e, f], k) == [b, e]
  {
    assert Filter([f], k) == [];
    assert Filter([e, f], k) == [e];
    assert Filter([d, e, f], k) == [e];
    assert Filter([c, d, e, f], k) == [e];
    assert Filter([b, c, d, e, f], k) == [b, e];
  }

  /** None of the non-Developer names, handles or roles of the team list has a `v` in either case. */
  lemma NoVInTeamFields()
    ensures forall t | t in ["Jane Doe", "@janedoe", "Designer", "Alex Johnson", "@alexj", "Marketing",
                             "Maria Garcia", "@mariag", "Project Manager", "Sophia Lee", "@sophial"]
              :: 'v' !in t && 'V' !in t
  {
  }

  /** Of six records with the searched fields of the team list, only the two Developers match `"dev"`. */
  lemma DevMatchesOnTeamFields(ms: seq<Member>)
    requires |ms| == 6
    requires ms[0].name == "Jane Doe" && ms[0].username == "@janedoe" && ms[0].role == "Designer"
    requires ms[1].role == "Developer"
    requires ms[2].name == "Alex Johnson" && ms[2].username == "@alexj" && ms[2].role == "Marketing"
    requires ms[3].name == "Maria Garcia" && ms[3].username == "@mariag" && ms[3].role == "Project Manager"
    requires ms[4].role == "Developer"
    requires ms[5].name == "Sophia Lee" && ms[5].username == "@sophial" && ms[5].role == "Designer"
    ensures !MatchesSearch(ms[0], "dev") && MatchesSearch(ms[1], "dev") && !MatchesSearch(ms[2], "dev")
    ensures !MatchesSearch(ms[3], "dev") && MatchesSearch(ms[4], "dev") && !MatchesSearch(ms[5], "dev")
  {
    NoVInTeamFields();
    NoDevInMember(ms[0]);
    DevMatchesDevelopers(ms[1]);
    NoDevInMember(ms[2]);
    NoDevInMember(ms[3]);
    DevMatchesDevelopers(ms[4]);
    NoDevInMember(ms[5]);
  }

  /** Six records with the searched fields of the team list: `"dev"` keeps the second and the fifth. */
  lemma DevOnTeamFields(ms: seq<Member>)
    requires |ms| == 6
    requires ms[0].name == "Jane Doe" && ms[0].username == "@janedoe" && ms[0].role == "Designer"
    requires ms[1].role == "Developer"
    requires ms[2].name == "Alex Johnson" && ms[2].username == "@alexj" && ms[2].role == "Marketing"
    requires ms[3].name == "Maria Garcia" && ms[3].username == "@mariag" && ms[3].role == "Project Manager"
    requires ms[4].role == "Developer"
    requires ms[5].name == "Sophia Lee" && ms[5].username == "@sophial" && ms[5].role == "Designer"
    ensures FilterMembers(ms, "dev", "All") == [ms[1], ms[4]]
  {
    DevMatchesOnTeamFields(ms);
    assert ms == [ms[0], ms[1], ms[2], ms[3], ms[4], ms[5]];
    KeepsSecondAndFifth(ms[0], ms[1], ms[2], ms[3], ms[4], ms[5], Matcher("dev", "All"));
  }

  /** The searched fields of the team list, as the data gives them. */
  lemma SearchedFields()
    ensures |TEAM_MEMBERS| == 6
    ensures TEAM_MEMBERS[0].name == "Jane Doe" && TEAM_MEMBERS[0].username == "@janedoe" && TEAM_MEMBERS[0].role == "Designer"
    ensures TEAM_MEMBERS[1].role == "Developer" && TEAM_MEMBERS[1].id == 2
    ensures TEAM_MEMBERS[2].name == "Alex Johnson" && TEAM_MEMBERS[2].username == "@alexj" && TEAM_MEMBERS[2].role == "Marketing"
    ensures TEAM_MEMBERS[3].name == "Maria Garcia" && TEAM_MEMBERS[3].username == "@mariag" && TEAM_MEMBERS[3].role == "Project Manager"
    ensures TEAM_MEMBERS[4].role == "Developer" && TEAM_MEMBERS[4].id == 5
    ensures TEAM_MEMBERS[5].name == "Sophia Lee" && TEAM_MEMBERS[5].username == "@sophial" && TEAM_MEMBERS[5].role == "Designer"
  {
  }

  /** On the static data, the term `"dev"` lists exactly members 2 and 5, the two Developers. */
  lemma DevExample()
    ensures FilterMembers(TEAM_MEMBERS, "dev", "All") == [TEAM_MEMBERS[1], TEAM_MEMBERS[4]]
    ensures TEAM_MEMBERS[1].id == 2 && TEAM_MEMBERS[4].id == 5
  {
    SearchedFields();
    DevOnTeamFields(TEAM_MEMBERS);
  }

  /** On the static data the reset state lists all six members. */
  lemma ResetListsAll()
    ensures FilterMembers(TEAM_MEMBERS, "", "All") == TEAM_MEMBERS
    ensures |FilterMembers(TEAM_MEMBERS, "", "All")| == 6
  {
    DefaultFiltersKeepAll(TEAM_MEMBERS);
  }

  // ---------------------------------------------------------------- display rules

  /** The full-page "Something went wrong" view. */
  predicate ShowFullPageError(error: Option<string>, filtered: seq<Member>, term: string, role: string) {
    error.Some? && |filtered| == 0 && term == "" && role == "All"
  }

  /**
   * The full-page error needs an empty result under the reset filters,
   * which the filter itself never returns: it appears only after the catch
   * branch has emptied the list.
   */
  lemma FullPageErrorNeedsThrow(error: Option<string>, term: string, role: string)
    ensures !ShowFullPageError(error, FilterMembers(TEAM_MEMBERS, term, role), term, role)
    ensures ShowFullPageError(Some(FILTER_ERROR), [], "", "All")
  {
    if term == "" && role == "All" {
      DefaultFiltersKeepAll(TEAM_MEMBERS);
    }
  }

  /** What the grid section shows. */
  datatype GridView = Spinner | LoadError(message: string) | Cards(members: seq<Member>) | NoResults(message: string)

  /** The "No team members found" explanation. */
  function NoResultsMessage(term: string, role: string): string {
    if term != "" then "No members match \"" + term + "\"" + (if role != "All" then " in " + role else "")
    else "No members found in " + role
  }

  /** The grid section: spinner while loading, then the error, then the cards, then the empty state. */
  function Grid(isLoading: bool, error: Option<string>, filtered: seq<Member>, term: string, role: string): (v: GridView)
    ensures v.Spinner? <==> isLoading
    ensures v.LoadError? <==> !isLoading && error.Some? && filtered == []
    ensures v.LoadError? ==> v.message == error.value
    ensures v.Cards? <==> !isLoading && filtered != []
    ensures v.Cards? ==> v.members == filtered
    ensures v.NoResults? <==> !isLoading && error.None? && filtered == []
  {
    if isLoading then Spinner
    else if error.Some? && |filtered| == 0 then LoadError(error.value)
    else if |filtered| > 0 then Cards(filtered)
    else NoResults(NoResultsMessage(term, role))
  }

  /** The filter summary with its "Clear filters" button: shown when a filter is active. */
  predicate ShowFilterSummary(term: string, role: string) {
    term != "" || role != "All"
  }

  /** The summary is hidden exactly in the reset state. */
  lemma FilterSummaryIffNonDefault(term: string, role: string)
    ensures !ShowFilterSummary(term, role) <==> term == "" && role == "All"
  {
  }

  // ---------------------------------------------------------------- page state

  /** The page component's state. */
  class MembersPage {
    var searchTerm: string
    var selectedRole: string
    var isLoading: bool
    var error: Option<string>

    /** The filter's result whenever the `try` block completes. */
    function Filtered(): seq<Member>
      reads this
    {
      FilterMembers(TEAM_MEMBERS, searchTerm, selectedRole)
    }

    constructor ()
      ensures searchTerm == "" && selectedRole == "All" && !isLoading && error == None
    {
      searchTerm, selectedRole, isLoading, error := "", "All", false, None;
    }

    /**
     * `filteredMembers`. The filter over plain strings cannot fail, so
     * whether the `try` block throws is a parameter; when it does, the list
     * is empty and the error message is stored.
     */
    method FilteredMembers(filterThrows: bool) returns (r: seq<Member>)
      modifies this
      ensures filterThrows ==> r == [] && error == Some(FILTER_ERROR)
      ensures !filterThrows ==> r == Filtered() && error == old(error)
      ensures searchTerm == old(searchTerm) && selectedRole == old(selectedRole) && isLoading == old(isLoading)
    {
      if filterThrows {
        error := Some(FILTER_ERROR);
        r := [];
      } else {
        r := FilterMembers(TEAM_MEMBERS, searchTerm, selectedRole);
      }
    }

    /** `handleSearchChange`: store the term and clear the error. */
    method HandleSearchChange(value: string)
      modifies this
      ensures searchTerm == value && error == None
      ensures selectedRole == old(selectedRole) && isLoading == old(isLoading)
    {
      searchTerm := value;
      error := None;
    }

    /** `handleRoleChange`: store the role and clear the error. */
    method HandleRoleChange(role: string)
      modifies this
      ensures selectedRole == role && error == None
      ensures searchTerm == old(searchTerm) && isLoading == old(isLoading)
    {
      selectedRole := role;
      error := None;
    }

    /** `handleResetFilters`: the defaults and no error, under which the filter keeps every member (all six, by `ResetListsAll`). */
    method HandleResetFilters()
      modifies this
      ensures searchTerm == "" && selectedRole == "All" && error == None
      ensures isLoading == old(isLoading)
      ensures forall ms :: FilterMembers(ms, searchTerm, selectedRole) == ms
      ensures !ShowFilterSummary(searchTerm, selectedRole)
    {
      searchTerm := "";
      selectedRole := "All";
      error := None;
      forall ms ensures FilterMembers(ms, searchTerm, selectedRole) == ms {
        DefaultFiltersKeepAll(ms);
      }
    }

    /** `handleRetry`: clear the error and show the spinner until the retry timer fires. */
    method HandleRetry()
      modifies this
      ensures error == None && isLoading
      ensures searchTerm == old(searchTerm) && selectedRole == old(selectedRole)
    {
      error := None;
      isLoading := true;
    }

    /** The retry timer's callback. */
    method RetryTimerFires()
      modifies this
      ensures !isLoading
      ensures searchTerm == old(searchTerm) && selectedRole == old(selectedRole) && error == old(error)
    {
      isLoading := false;
    }
  }
}
