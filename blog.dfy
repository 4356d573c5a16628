/**
 * The blog index page (app/blog/page.tsx): the static post list, the
 * featured posts, the three-way conjunctive filter (free text, category,
 * featured only), the reset handler, the "Clear Filters" rule and the tag
 * badge rows of the two card kinds.
 */
module Blog {
  import opened Text
  import opened Lists
  import Badges
  import Decimal
  import opened Wrappers

  /** A blog post; the avatar, image, date and reading time are presentation only and are not kept. */
  datatype Post = Post(
    id: nat,
    title: string,
    excerpt: string,
    content: string,
    author: string,
    category: string,
    tags: seq<string>,
    featured: bool)

  const POST_1 := Post(1, "The Future of Web Development: Trends to Watch in 2024",
    "Explore the latest trends shaping the future of web development, from AI integration to progressive web apps and beyond.",
    "Full article content would go here...", "John Smith", "Web Development",
    ["React", "Next.js", "AI", "PWA"], true)

  const POST_2 := Post(2, "Designing for Accessibility: A Complete Guide",
    "Learn how to create inclusive designs that work for everyone, with practical tips and best practices for accessibility.",
    "Full article content would go here...", "Jane Doe", "Design",
    ["Accessibility", "UX", "Design", "WCAG"], true)

  const POST_3 := Post(3, "Building Scalable Mobile Apps with React Native",
    "Discover best practices for creating performant and scalable mobile applications using React Native.",
    "Full article content would go here...", "John Smith", "Mobile Development",
    ["React Native", "Mobile", "Performance", "Scalability"], false)

  const POST_4 := Post(4, "AI in Marketing: Transforming Digital Strategies",
    "How artificial intelligence is revolutionizing marketing strategies and what it means for businesses.",
    "Full article content would go here...", "Alex Johnson", "Marketing",
    ["AI", "Marketing", "Digital Strategy", "Automation"], false)

  const POST_5 := Post(5, "The Rise of Blockchain in Enterprise Solutions",
    "Exploring how blockchain technology is being adopted by enterprises for secure and transparent operations.",
    "Full article content would go here...", "David Kim", "Blockchain",
    ["Blockchain", "Enterprise", "Security", "DeFi"], false)

  const POST_6 := Post(6, "IoT Security: Protecting Connected Devices",
    "Essential security practices for IoT devices and how to build secure connected systems.",
    "Full article content would go here...", "Maria Garcia", "IoT",
    ["IoT", "Security", "Connected Devices", "Cybersecurity"], false)

  /** `BLOG_POSTS`, in the source's order. */
  const BLOG_POSTS: seq<Post> := [POST_1, POST_2, POST_3, POST_4, POST_5, POST_6]

  const CATEGORIES: seq<string> := ["All", "Web Development", "Design", "Mobile Development", "Marketing", "Blockchain", "IoT"]

  function Ids(ps: seq<Post>): seq<nat> {
    if ps == [] then [] else [ps[0].id] + Ids(ps[1..])
  }

  // ---------------------------------------------------------------- featured posts

  function IsFeatured(p: Post): bool {
    p.featured
  }

  /** `featuredPosts`: computed from the data alone, whatever the filters say. */
  function FeaturedPosts(): seq<Post> {
    Filter(BLOG_POSTS, IsFeatured)
  }

  /** The featured section holds posts 1 and 2. */
  lemma FeaturedPostsAreOneAndTwo()
    ensures FeaturedPosts() == [POST_1, POST_2]
    ensures Ids(FeaturedPosts()) == [1, 2]
  {
    var k := IsFeatured;
    assert Filter([POST_6], k) == [];
    assert Filter([POST_5, POST_6], k) == [];
    assert Filter([POST_4, POST_5, POST_6], k) == [];
    assert Filter([POST_3, POST_4, POST_5, POST_6], k) == [];
    assert Filter([POST_2, POST_3, POST_4, POST_5, POST_6], k) == [POST_2];
    assert Filter(BLOG_POSTS, k) == [POST_1, POST_2];
  }

  // ---------------------------------------------------------------- filter

  /** The page's three filter state variables. */
  datatype PostFilters = PostFilters(searchTerm: string, category: string, featuredOnly: bool)

  const DEFAULT_FILTERS := PostFilters("", "All", false)

  /** The free-text test: title, excerpt or one of the tags contains the term, ignoring case. */
  predicate MatchesSearch(p: Post, term: string) {
    var t := ToLower(term);
    Includes(ToLower(p.title), t) || Includes(ToLower(p.excerpt), t)
    || exists tag :: tag in p.tags && Includes(ToLower(tag), t)
  }

  predicate MatchesCategory(p: Post, category: string) {
    category == "All" || p.category == category
  }

  predicate MatchesFeatured(p: Post, featuredOnly: bool) {
    !featuredOnly || p.featured
  }

  predicate Matches(p: Post, f: PostFilters) {
    MatchesSearch(p, f.searchTerm) && MatchesCategory(p, f.category) && MatchesFeatured(p, f.featuredOnly)
  }

  function Matcher(f: PostFilters): Post -> bool {
    p => Matches(p, f)
  }

  function SearchTest(term: string): Post -> bool {
    p => MatchesSearch(p, term)
  }

  function CategoryTest(category: string): Post -> bool {
    p => MatchesCategory(p, category)
  }

  function FeaturedTest(featuredOnly: bool): Post -> bool {
    p => MatchesFeatured(p, featuredOnly)
  }

  /** `filteredPosts`: the posts passing every filter, in their original order. */
  function FilterPosts(ps: seq<Post>, f: PostFilters): (r: seq<Post>)
    ensures IsSubsequence(r, ps) && |r| <= |ps|
    ensures forall i :: 0 <= i < |r| ==> r[i] in ps && Matches(r[i], f)
    ensures forall i :: 0 <= i < |ps| && Matches(ps[i], f) ==> ps[i] in r
  {
    Filter(ps, Matcher(f))
  }

  /** "Showing X of Y articles": X never exceeds the six posts there are. */
  lemma ShowingCountBound(f: PostFilters)
    ensures |BLOG_POSTS| == 6 && |FilterPosts(BLOG_POSTS, f)| <= 6
  {
  }

  /**
   * The search is substring containment in the lower-cased title, excerpt or
   * some tag; the content, the author and the category are never searched.
   */
  lemma SearchSemantics(p: Post, term: string, content: string, author: string, category: string)
    ensures MatchesSearch(p, term) <==>
      Occurs(ToLower(term), ToLower(p.title)) || Occurs(ToLower(term), ToLower(p.excerpt))
      || exists tag :: tag in p.tags && Occurs(ToLower(term), ToLower(tag))
    ensures MatchesSearch(p.(content := content, author := author, category := category), term) == MatchesSearch(p, term)
  {
    var t := ToLower(term);
    IncludesIffOccurs(ToLower(p.title), t);
    IncludesIffOccurs(ToLower(p.excerpt), t);
    forall tag | tag in p.tags
      ensures Includes(ToLower(tag), t) <==> Occurs(t, ToLower(tag))
    {
      IncludesIffOccurs(ToLower(tag), t);
    }
  }

  /** The empty search term matches every post. */
  lemma EmptySearchMatchesAll(p: Post)
    ensures MatchesSearch(p, "")
  {
    IncludesEmpty(ToLower(p.title));
  }

  /** `"All"` switches the category off; any other value demands equality; featured-only demands `featured`. */
  lemma CategoricalSemantics(p: Post, category: string)
    ensures MatchesCategory(p, "All")
    ensures category != "All" ==> (MatchesCategory(p, category) <==> p.category == category)
    ensures MatchesFeatured(p, true) <==> p.featured
  {
  }

  /** The default filter state keeps every post. */
  lemma DefaultFiltersKeepAll(ps: seq<Post>)
    ensures FilterPosts(ps, DEFAULT_FILTERS) == ps
  {
    forall p | p in ps ensures Matcher(DEFAULT_FILTERS)(p) {
      EmptySearchMatchesAll(p);
    }
    FilterKeepsAll(ps, Matcher(DEFAULT_FILTERS));
  }

  /** Turning on "Featured Only" alone lists exactly the featured section's posts. */
  lemma FeaturedOnlyIsFeaturedSection()
    ensures FilterPosts(BLOG_POSTS, DEFAULT_FILTERS.(featuredOnly := true)) == FeaturedPosts()
  {
    var f := DEFAULT_FILTERS.(featuredOnly := true);
    forall p | p in BLOG_POSTS ensures Matcher(f)(p) == IsFeatured(p) {
      EmptySearchMatchesAll(p);
    }
    FilterAgree(BLOG_POSTS, Matcher(f), IsFeatured);
  }

  /** Filtering the filtered list again with the same state changes nothing. */
  lemma FilterPostsIdempotent(ps: seq<Post>, f: PostFilters)
    ensures FilterPosts(FilterPosts(ps, f), f) == FilterPosts(ps, f)
  {
    FilterIdempotent(ps, Matcher(f));
  }

  /** Search, category and featured filters can be applied one at a time, in either order. */
  lemma DimensionsInAnyOrder(ps: seq<Post>, f: PostFilters)
    ensures FilterPosts(ps, f)
      == Filter(Filter(Filter(ps, SearchTest(f.searchTerm)), CategoryTest(f.category)), FeaturedTest(f.featuredOnly))
    ensures FilterPosts(ps, f)
      == Filter(Filter(Filter(ps, FeaturedTest(f.featuredOnly)), CategoryTest(f.category)), SearchTest(f.searchTerm))
  {
    var s, c, fe := SearchTest(f.searchTerm), CategoryTest(f.category), FeaturedTest(f.featuredOnly);
    var sc := p => s(p) && c(p);
    var all := p => sc(p) && fe(p);
    FilterFuse(ps, s, c, sc);
    FilterFuse(ps, sc, fe, all);
    FilterAgree(ps, all, Matcher(f));
    var fc := p => fe(p) && c(p);
    var all' := p => fc(p) && s(p);
    FilterFuse(ps, fe, c, fc);
    FilterFuse(ps, fc, s, all');
    FilterAgree(ps, all', Matcher(f));
  }

  // ---------------------------------------------------------------- display rules

  /** The "Clear Filters" button: shown when any filter differs from its default. */
  function ShowClearFilters(f: PostFilters): bool {
    f.searchTerm != "" || f.category != "All" || f.featuredOnly
  }

  lemma ClearFiltersIffNonDefault(f: PostFilters)
    ensures ShowClearFilters(f) <==> f != DEFAULT_FILTERS
  {
  }

  /** A featured card's tags: three of them and `+(n-3) more` when there are more. */
  function FeaturedCardTags(p: Post): (b: Badges.BadgeRow)
    ensures |b.shown| == Badges.Min(3, |p.tags|) && b.shown == p.tags[..|b.shown|]
    ensures b.hidden > 0 <==> |p.tags| > 3
    ensures b.hidden > 0 ==> b.hidden == |p.tags| - 3
  {
    Badges.Overflow(p.tags, 3)
  }

  /** A grid card's tags: two of them and `+(n-2)` when there are more. */
  function GridCardTags(p: Post): (b: Badges.BadgeRow)
    ensures |b.shown| == Badges.Min(2, |p.tags|) && b.shown == p.tags[..|b.shown|]
    ensures b.hidden > 0 <==> |p.tags| > 2
    ensures b.hidden > 0 ==> b.hidden == |p.tags| - 2
  {
    Badges.Overflow(p.tags, 2)
  }

  /** A featured card's overflow badge: `+k more` for the `k` tags beyond the first three. */
  function FeaturedCardMoreBadge(p: Post): (r: Option<string>)
    ensures r.Some? <==> |p.tags| > 3
    ensures r.Some? ==> r.value == "+" + Decimal.NatToString(|p.tags| - 3) + " more"
  {
    Badges.MoreBadge(FeaturedCardTags(p), true)
  }

  /** A grid card's overflow badge: `+k` for the `k` tags beyond the first two. */
  function GridCardMoreBadge(p: Post): (r: Option<string>)
    ensures r.Some? <==> |p.tags| > 2
    ensures r.Some? ==> r.value == "+" + Decimal.NatToString(|p.tags| - 2)
  {
    Badges.MoreBadge(GridCardTags(p), false)
  }

  /** Every post carries four tags: featured cards end in `+1 more`, grid cards in `+2`. */
  lemma StaticTagBadges(p: Post)
    requires p in BLOG_POSTS
    ensures FeaturedCardMoreBadge(p) == Some("+1 more")
    ensures GridCardMoreBadge(p) == Some("+2")
  {
    assert |p.tags| == 4;
    assert Decimal.NatToString(1) == "1" && Decimal.NatToString(2) == "2";
    assert FeaturedCardTags(p).hidden == 1 && GridCardTags(p).hidden == 2;
    assert "+" + "1" + " more" == "+1 more";
    assert "+" + "2" + "" == "+2";
  }

  // ---------------------------------------------------------------- page state

  /** The page component's state: the three filter variables, changed by the controls. */
  class BlogPage {
    var searchTerm: string
    var selectedCategory: string
    var showFeaturedOnly: bool

    function Filters(): PostFilters
      reads this
    {
      PostFilters(searchTerm, selectedCategory, showFeaturedOnly)
    }

    function FilteredPosts(): seq<Post>
      reads this
    {
      FilterPosts(BLOG_POSTS, Filters())
    }

    constructor ()
      ensures Filters() == DEFAULT_FILTERS
    {
      searchTerm, selectedCategory, showFeaturedOnly := "", "All", false;
    }

    /** The search box's `onChange`. */
    method SetSearchTerm(value: string)
      modifies this
      ensures Filters() == old(Filters()).(searchTerm := value)
    {
      searchTerm := value;
    }

    /** A category button's `onClick`. */
    method SelectCategory(category: string)
      modifies this
      ensures Filters() == old(Filters()).(category := category)
    {
      selectedCategory := category;
    }

    /** The "Featured Only" button flips the featured filter. */
    method ToggleFeaturedOnly()
      modifies this
      ensures Filters() == old(Filters()).(featuredOnly := !old(showFeaturedOnly))
    {
      showFeaturedOnly := !showFeaturedOnly;
    }

    /** `handleResetFilters`: back to the defaults, which list every post and hide "Clear Filters". */
    method ResetFilters()
      modifies this
      ensures Filters() == DEFAULT_FILTERS
      ensures forall ps :: FilterPosts(ps, Filters()) == ps
      ensures !ShowClearFilters(Filters())
    {
      searchTerm := "";
      selectedCategory := "All";
      showFeaturedOnly := false;
      forall ps ensures FilterPosts(ps, DEFAULT_FILTERS) == ps {
        DefaultFiltersKeepAll(ps);
      }
    }
  }
}
