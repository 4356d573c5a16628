/**
 * The project portfolio page (app/projects/page.tsx): the static project
 * list, the four-way conjunctive filter (free text, category, status,
 * featured only), the reset handler, the "Clear Filters" rule, the status
 * badge and the technology badge row.
 */
module Projects {
  import opened Text
  import opened Lists
  import Badges
  import Decimal
  import opened Wrappers

  /** A project record; the image, dates and links are presentation only and are not kept. */
  datatype Project = Project(
    id: nat,
    title: string,
    description: string,
    longDescription: string,
    technologies: seq<string>,
    category: string,
    status: string,
    teamMembers: seq<string>,
    featured: bool)

  const PROJECT_1 := Project(1, "E-Commerce Platform",
      "Modern e-commerce solution with advanced features",
      "A comprehensive e-commerce platform built with Next.js and Stripe integration, featuring real-time inventory management, advanced search capabilities, and seamless checkout experience.",
      ["Next.js", "TypeScript", "Stripe", "PostgreSQL", "Tailwind CSS"],
      "Web Development", "completed", ["John Smith", "Jane Doe", "David Kim"], true)

  const PROJECT_2 := Project(2, "AI-Powered Analytics Dashboard",
      "Real-time analytics with machine learning insights",
      "An intelligent analytics dashboard that leverages AI to provide actionable insights from complex data sets, featuring predictive analytics and automated reporting.",
      ["React", "Python", "TensorFlow", "D3.js", "FastAPI"],
      "AI & Machine Learning", "completed", ["David Kim", "Maria Garcia", "Alex Johnson"], true)

  const PROJECT_3 := Project(3, "Mobile Fitness App",
      "Cross-platform fitness tracking application",
      "A comprehensive fitness tracking app with workout planning, nutrition tracking, and social features to help users achieve their health goals.",
      ["React Native", "Node.js", "MongoDB", "Firebase"],
      "Mobile Development", "completed", ["John Smith", "Sophia Lee", "Alex Johnson"], false)

  const PROJECT_4 := Project(4, "Corporate Website Redesign",
      "Complete brand refresh and website overhaul",
      "A complete redesign of a Fortune 500 company's corporate website, focusing on modern design principles, accessibility, and performance optimization.",
      ["Next.js", "Framer Motion", "Sanity CMS", "Vercel"],
      "UI/UX Design", "completed", ["Jane Doe", "Sophia Lee", "Maria Garcia"], true)

  const PROJECT_5 := Project(5, "Blockchain Voting System",
      "Secure and transparent voting platform",
      "A decentralized voting system built on blockchain technology, ensuring transparency, security, and immutability of voting records.",
      ["Solidity", "Web3.js", "React", "Ethereum", "IPFS"],
      "Blockchain", "in-progress", ["David Kim", "John Smith", "Maria Garcia"], false)

  const PROJECT_6 := Project(6, "Smart Home IoT Platform",
      "Integrated IoT solution for smart homes",
      "A comprehensive IoT platform that connects and manages smart home devices, providing users with centralized control and automation capabilities.",
      ["React", "Node.js", "MQTT", "InfluxDB", "Docker"],
      "IoT", "planned", ["David Kim", "John Smith"], false)

  /** `PROJECTS`, in the source's order. */
  const PROJECTS: seq<Project> := [PROJECT_1, PROJECT_2, PROJECT_3, PROJECT_4, PROJECT_5, PROJECT_6]

  const CATEGORIES: seq<string> := [
    "All", "Web Development", "Mobile Development", "UI/UX Design",
    "AI & Machine Learning", "Blockchain", "IoT"
  ]

  const STATUS_OPTIONS: seq<string> := ["All", "completed", "in-progress", "planned"]

  function Ids(ps: seq<Project>): seq<nat> {
    if ps == [] then [] else [ps[0].id] + Ids(ps[1..])
  }

  // ---------------------------------------------------------------- filter

  /** The page's four filter state variables. */
  datatype ProjectFilters = ProjectFilters(searchTerm: string, category: string, status: string, featuredOnly: bool)

  /** The initial state, and the state the reset handler restores. */
  const DEFAULT_FILTERS := ProjectFilters("", "All", "All", false)

  /** The free-text test: title, description or one of the technologies contains the term, ignoring case. */
  predicate MatchesSearch(p: Project, term: string) {
    var t := ToLower(term);
    Includes(ToLower(p.title), t) || Includes(ToLower(p.description), t)
    || exists tech :: tech in p.technologies && Includes(ToLower(tech), t)
  }

  predicate MatchesCategory(p: Project, category: string) {
    category == "All" || p.category == category
  }

  predicate MatchesStatus(p: Project, status: string) {
    status == "All" || p.status == status
  }

  predicate MatchesFeatured(p: Project, featuredOnly: bool) {
    !featuredOnly || p.featured
  }

  predicate Matches(p: Project, f: ProjectFilters) {
    MatchesSearch(p, f.searchTerm) && MatchesCategory(p, f.category)
    && MatchesStatus(p, f.status) && MatchesFeatured(p, f.featuredOnly)
  }

  /** The filter test of a filter state, as the function handed to `filter`. */
  function Matcher(f: ProjectFilters): Project -> bool {
    p => Matches(p, f)
  }

  /** `filteredProjects`: the projects passing every filter, in their original order. */
  function FilterProjects(ps: seq<Project>, f: ProjectFilters): (r: seq<Project>)
    ensures IsSubsequence(r, ps) && |r| <= |ps|
    ensures forall i :: 0 <= i < |r| ==> r[i] in ps && Matches(r[i], f)
    ensures forall i :: 0 <= i < |ps| && Matches(ps[i], f) ==> ps[i] in r
  {
    Filter(ps, Matcher(f))
  }

  /** "Showing X of Y projects": X never exceeds the six projects there are. */
  lemma ShowingCountBound(f: ProjectFilters)
    ensures |PROJECTS| == 6 && |FilterProjects(PROJECTS, f)| <= 6
  {
  }

  /**
   * The search is substring containment in the lower-cased title, description
   * or some technology, and nothing else: the long description, the category,
   * the status and the team are never searched.
   */
  lemma SearchSemantics(p: Project, term: string, longDescription: string, category: string, status: string, team: seq<string>)
    ensures MatchesSearch(p, term) <==>
      Occurs(ToLower(term), ToLower(p.title)) || Occurs(ToLower(term), ToLower(p.description))
      || exists tech :: tech in p.technologies && Occurs(ToLower(term), ToLower(tech))
    ensures MatchesSearch(p.(longDescription := longDescription, category := category, status := status, teamMembers := team), term)
      == MatchesSearch(p, term)
  {
    var t := ToLower(term);
    IncludesIffOccurs(ToLower(p.title), t);
    IncludesIffOccurs(ToLower(p.description), t);
    forall tech | tech in p.technologies
      ensures Includes(ToLower(tech), t) <==> Occurs(t, ToLower(tech))
    {
      IncludesIffOccurs(ToLower(tech), t);
    }
  }

  /** The empty search term matches every project. */
  lemma EmptySearchMatchesAll(p: Project)
    ensures MatchesSearch(p, "")
  {
    IncludesEmpty(ToLower(p.title));
  }

  /** `"All"` switches a categorical dimension off; any other value demands equality. */
  lemma CategoricalSemantics(p: Project, category: string, status: string)
    ensures MatchesCategory(p, "All") && MatchesStatus(p, "All")
    ensures category != "All" ==> (MatchesCategory(p, category) <==> p.category == category)
    ensures status != "All" ==> (MatchesStatus(p, status) <==> p.status == status)
    ensures MatchesFeatured(p, true) <==> p.featured
  {
  }

  function IsFeatured(p: Project): bool {
    p.featured
  }

  /** With only "Featured Only" on, exactly the featured projects remain. */
  lemma FeaturedOnlyKeepsFeatured(ps: seq<Project>)
    ensures FilterProjects(ps, DEFAULT_FILTERS.(featuredOnly := true)) == Filter(ps, IsFeatured)
  {
    forall p | p in ps
      ensures Matcher(DEFAULT_FILTERS.(featuredOnly := true))(p) == IsFeatured(p)
    {
      EmptySearchMatchesAll(p);
    }
    FilterAgree(ps, Matcher(DEFAULT_FILTERS.(featuredOnly := true)), IsFeatured);
  }

  /** The default filter state keeps every project. */
  lemma DefaultFiltersKeepAll(ps: seq<Project>)
    ensures FilterProjects(ps, DEFAULT_FILTERS) == ps
  {
    forall p | p in ps ensures Matcher(DEFAULT_FILTERS)(p) {
      EmptySearchMatchesAll(p);
    }
    FilterKeepsAll(ps, Matcher(DEFAULT_FILTERS));
  }

  /** Filtering the filtered list again with the same state changes nothing. */
  lemma FilterProjectsIdempotent(ps: seq<Project>, f: ProjectFilters)
    ensures FilterProjects(FilterProjects(ps, f), f) == FilterProjects(ps, f)
  {
    FilterIdempotent(ps, Matcher(f));
  }

  function SearchTest(term: string): Project -> bool {
    p => MatchesSearch(p, term)
  }

  function CategoryTest(category: string): Project -> bool {
    p => MatchesCategory(p, category)
  }

  function StatusTest(status: string): Project -> bool {
    p => MatchesStatus(p, status)
  }

  function FeaturedTest(featuredOnly: bool): Project -> bool {
    p => MatchesFeatured(p, featuredOnly)
  }

  /**
   * The conjunction can be applied one dimension at a time, in the source's
   * order or in the reverse order, with the same result.
   */
  lemma DimensionsInAnyOrder(ps: seq<Project>, f: ProjectFilters)
    ensures FilterProjects(ps, f)
      == Filter(Filter(Filter(Filter(ps, SearchTest(f.searchTerm)), CategoryTest(f.category)), StatusTest(f.status)), FeaturedTest(f.featuredOnly))
    ensures FilterProjects(ps, f)
      == Filter(Filter(Filter(Filter(ps, FeaturedTest(f.featuredOnly)), StatusTest(f.status)), CategoryTest(f.category)), SearchTest(f.searchTerm))
  {
    var s, c, st, fe := SearchTest(f.searchTerm), CategoryTest(f.category), StatusTest(f.status), FeaturedTest(f.featuredOnly);
    var sc := p => s(p) && c(p);
    var scs := p => sc(p) && st(p);
    var all := p => scs(p) && fe(p);
    FilterFuse(ps, s, c, sc);
    FilterFuse(ps, sc, st, scs);
    FilterFuse(ps, scs, fe, all);
    FilterAgree(ps, all, Matcher(f));
    var fs := p => fe(p) && st(p);
    var fsc := p => fs(p) && c(p);
    var all' := p => fsc(p) && s(p);
    FilterFuse(ps, fe, st, fs);
    FilterFuse(ps, fs, c, fsc);
    FilterFuse(ps, fsc, s, all');
    FilterAgree(ps, all', Matcher(f));
  }

  /** Filtering by category then by search text equals the reverse order. */
  lemma CategoryAndSearchCommute(ps: seq<Project>, category: string, term: string)
    ensures Filter(Filter(ps, CategoryTest(category)), SearchTest(term))
      == Filter(Filter(ps, SearchTest(term)), CategoryTest(category))
  {
    FilterCommutes(ps, CategoryTest(category), SearchTest(term));
  }

  /** With the search box empty and the other filters off, only the category decides. */
  lemma CategoryOnlyFilter(ps: seq<Project>, category: string)
    ensures FilterProjects(ps, DEFAULT_FILTERS.(category := category)) == Filter(ps, CategoryTest(category))
  {
    forall p | p in ps
      ensures Matcher(DEFAULT_FILTERS.(category := category))(p) == CategoryTest(category)(p)
    {
      EmptySearchMatchesAll(p);
    }
    FilterAgree(ps, Matcher(DEFAULT_FILTERS.(category := category)), CategoryTest(category));
  }

  /** With the search box empty and the other filters off, only the status decides. */
  lemma StatusOnlyFilter(ps: seq<Project>, status: string)
    ensures FilterProjects(ps, DEFAULT_FILTERS.(status := status)) == Filter(ps, StatusTest(status))
  {
    forall p | p in ps
      ensures Matcher(DEFAULT_FILTERS.(status := status))(p) == StatusTest(status)(p)
    {
      EmptySearchMatchesAll(p);
    }
    FilterAgree(ps, Matcher(DEFAULT_FILTERS.(status := status)), StatusTest(status));
  }

  /** Category "Web Development" selects project 1 alone. */
  lemma WebDevelopmentExample()
    ensures Ids(FilterProjects(PROJECTS, DEFAULT_FILTERS.(category := "Web Development"))) == [1]
  {
    CategoryOnlyFilter(PROJECTS, "Web Development");
    WebDevelopmentCategory();
  }

  lemma WebDevelopmentCategory()
    ensures Filter(PROJECTS, CategoryTest("Web Development")) == [PROJECT_1]
  {
    var k := CategoryTest("Web Development");
    assert Filter([PROJECT_6], k) == [];
    assert Filter([PROJECT_5, PROJECT_6], k) == [];
    assert Filter([PROJECT_4, PROJECT_5, PROJECT_6], k) == [];
    assert Filter([PROJECT_3, PROJECT_4, PROJECT_5, PROJECT_6], k) == [];
    assert Filter([PROJECT_2, PROJECT_3, PROJECT_4, PROJECT_5, PROJECT_6], k) == [];
    assert Filter(PROJECTS, k) == [PROJECT_1];
  }

  /** Status "planned" selects project 6 alone. */
  lemma PlannedExample()
    ensures Ids(FilterProjects(PROJECTS, DEFAULT_FILTERS.(status := "planned"))) == [6]
  {
    StatusOnlyFilter(PROJECTS, "planned");
    PlannedStatus();
  }

  lemma PlannedStatus()
    ensures Filter(PROJECTS, StatusTest("planned")) == [PROJECT_6]
  {
    var k := StatusTest("planned");
    assert Filter([PROJECT_6], k) == [PROJECT_6];
    assert Filter([PROJECT_5, PROJECT_6], k) == [PROJECT_6];
    assert Filter([PROJECT_4, PROJECT_5, PROJECT_6], k) == [PROJECT_6];
    assert Filter([PROJECT_3, PROJECT_4, PROJECT_5, PROJECT_6], k) == [PROJECT_6];
    assert Filter([PROJECT_2, PROJECT_3, PROJECT_4, PROJECT_5, PROJECT_6], k) == [PROJECT_6];
    assert Filter(PROJECTS, k) == [PROJECT_6];
  }

  // ---------------------------------------------------------------- display rules

  /** The "Clear Filters" button: shown when any filter differs from its default. */
  function ShowClearFilters(f: ProjectFilters): bool {
    f.searchTerm != "" || f.category != "All" || f.status != "All" || f.featuredOnly
  }

  lemma ClearFiltersIffNonDefault(f: ProjectFilters)
    ensures ShowClearFilters(f) <==> f != DEFAULT_FILTERS
  {
  }

  datatype StatusColor = Green | Blue | Yellow | Muted

  /** `getStatusColor`: one colour per known status, muted for anything else. */
  function GetStatusColor(status: string): StatusColor {
    if status == "completed" then Green
    else if status == "in-progress" then Blue
    else if status == "planned" then Yellow
    else Muted
  }

  /** The class string behind each colour. */
  function ColorClasses(c: StatusColor): string {
    match c
    case Green => "bg-green-500/20 text-green-400 border-green-500/30"
    case Blue => "bg-blue-500/20 text-blue-400 border-blue-500/30"
    case Yellow => "bg-yellow-500/20 text-yellow-400 border-yellow-500/30"
    case Muted => "bg-muted text-muted-foreground"
  }

  /** The three statuses get three distinct classes, none of them the default one. */
  lemma StatusColorsDistinct(status: string)
    ensures ColorClasses(GetStatusColor("completed")) != ColorClasses(GetStatusColor("in-progress"))
    ensures ColorClasses(GetStatusColor("in-progress")) != ColorClasses(GetStatusColor("planned"))
    ensures ColorClasses(GetStatusColor("completed")) != ColorClasses(GetStatusColor("planned"))
    ensures (GetStatusColor(status) == Muted) <==> status !in STATUS_OPTIONS[1..]
    ensures GetStatusColor(status) == Muted ==> ColorClasses(GetStatusColor(status)) == "bg-muted text-muted-foreground"
  {
    assert |ColorClasses(Green)| == 50 && |ColorClasses(Blue)| == 47 && |ColorClasses(Yellow)| == 53;
  }

  /** The status badge text: only the first character is upper-cased. */
  function StatusLabel(status: string): string {
    Capitalize(status)
  }

  /** A status filter button's text (`"All"` is written as is). */
  function StatusOptionLabel(status: string): string {
    if status == "All" then "All" else Capitalize(status)
  }

  lemma StatusLabels()
    ensures StatusLabel("completed") == "Completed"
    ensures StatusLabel("in-progress") == "In-progress"
    ensures StatusLabel("planned") == "Planned"
    ensures StatusOptionLabel("All") == "All"
  {
  }

  /** A card's technology badges: the first three and `+(n-3) more` when there are more. */
  function TechBadges(p: Project): (b: Badges.BadgeRow)
    ensures |b.shown| == Badges.Min(3, |p.technologies|) && b.shown == p.technologies[..|b.shown|]
    ensures b.hidden > 0 <==> |p.technologies| > 3
    ensures b.hidden > 0 ==> b.hidden == |p.technologies| - 3
  {
    Badges.Overflow(p.technologies, 3)
  }

  /** A project card's overflow badge: `+k more` for the `k` technologies beyond the first three. */
  function TechMoreBadge(p: Project): (r: Option<string>)
    ensures r.Some? <==> |p.technologies| > 3
    ensures r.Some? ==> r.value == "+" + Decimal.NatToString(|p.technologies| - 3) + " more"
  {
    Badges.MoreBadge(TechBadges(p), true)
  }

  // ---------------------------------------------------------------- page state

  /** The page component's state: the four filter variables, changed by the controls. */
  class ProjectsPage {
    var searchTerm: string
    var selectedCategory: string
    var selectedStatus: string
    var showFeaturedOnly: bool

    function Filters(): ProjectFilters
      reads this
    {
      ProjectFilters(searchTerm, selectedCategory, selectedStatus, showFeaturedOnly)
    }

    function FilteredProjects(): seq<Project>
      reads this
    {
      FilterProjects(PROJECTS, Filters())
    }

    constructor ()
      ensures Filters() == DEFAULT_FILTERS
    {
      searchTerm, selectedCategory, selectedStatus, showFeaturedOnly := "", "All", "All", false;
    }

    /** The search box's `onChange`. */
    method SetSearchTerm(value: string)
      modifies this
      ensures Filters() == old(Filters()).(searchTerm := value)
    {
      searchTerm := value;
    }

    /** A category button's `onClick`. */
    method SelectCategory(category: string)
      modifies this
      ensures Filters() == old(Filters()).(category := category)
    {
      selectedCategory := category;
    }

    /** A status button's `onClick`. */
    method SelectStatus(status: string)
      modifies this
      ensures Filters() == old(Filters()).(status := status)
    {
      selectedStatus := status;
    }

    /** The "Featured Only" button flips the featured filter. */
    method ToggleFeaturedOnly()
      modifies this
      ensures Filters() == old(Filters()).(featuredOnly := !old(showFeaturedOnly))
    {
      showFeaturedOnly := !showFeaturedOnly;
    }

    /** `handleResetFilters`: back to the defaults, which show every project and hide "Clear Filters". */
    method ResetFilters()
      modifies this
      ensures Filters() == DEFAULT_FILTERS
      ensures forall ps :: FilterProjects(ps, Filters()) == ps
      ensures !ShowClearFilters(Filters())
    {
      searchTerm := "";
      selectedCategory := "All";
      selectedStatus := "All";
      showFeaturedOnly := false;
      forall ps ensures FilterProjects(ps, DEFAULT_FILTERS) == ps {
        DefaultFiltersKeepAll(ps);
      }
    }
  }
}
