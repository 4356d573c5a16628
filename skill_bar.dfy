/**
 * The skill bar (components/skill-bar.tsx): a percentage classified into a
 * level label and a colour band by threshold chains, and a bar whose width
 * starts at 0 and is set to the percentage by a timer once the bar has
 * scrolled into view.
 */
module SkillBar {

  datatype Level = Beginner | Intermediate | Advanced | Expert

  /** `skillLevel`: the first threshold the percentage reaches, from the top. */
  function SkillLevel(percentage: int): Level {
    if percentage >= 90 then Expert
    else if percentage >= 80 then Advanced
    else if percentage >= 60 then Intermediate
    else Beginner
  }

  function LevelLabel(l: Level): string {
    match l
    case Expert => "Expert"
    case Advanced => "Advanced"
    case Intermediate => "Intermediate"
    case Beginner => "Beginner"
  }

  /** The levels in order, lowest first. */
  function Rank(l: Level): (r: nat)
    ensures r < 4
  {
    match l
    case Beginner => 0
    case Intermediate => 1
    case Advanced => 2
    case Expert => 3
  }

  /** The lowest percentage that earns each level. */
  function Threshold(l: Level): int {
    match l
    case Beginner => 0
    case Intermediate => 60
    case Advanced => 80
    case Expert => 90
  }

  /** Each level is a band: from its threshold up to (not including) the next one. */
  lemma LevelBands(p: int)
    ensures SkillLevel(p) == Expert <==> 90 <= p
    ensures SkillLevel(p) == Advanced <==> 80 <= p < 90
    ensures SkillLevel(p) == Intermediate <==> 60 <= p < 80
    ensures SkillLevel(p) == Beginner <==> p < 60
  {
  }

  /** Reference reading: the level is the highest one whose threshold the percentage reaches. */
  lemma LevelIsHighestReached(p: int, l: Level)
    requires 0 <= p
    ensures p >= Threshold(SkillLevel(p))
    ensures p >= Threshold(l) ==> Rank(l) <= Rank(SkillLevel(p))
  {
  }

  /** The three boundaries, on both sides. */
  lemma Boundaries()
    ensures SkillLevel(90) == Expert && SkillLevel(89) == Advanced
    ensures SkillLevel(80) == Advanced && SkillLevel(79) == Intermediate
    ensures SkillLevel(60) == Intermediate && SkillLevel(59) == Beginner
  {
  }

  /** A higher percentage never gets a lower level. */
  lemma LevelMonotone(p: int, q: int)
    requires p <= q
    ensures Rank(SkillLevel(p)) <= Rank(SkillLevel(q))
  {
  }

  /** The three colour bands of `getGradientClasses`. */
  datatype Gradient = PrimaryToAccent | AccentToSecondary | SecondaryToPrimary

  function GradientFor(percentage: int): Gradient {
    if percentage >= 90 then PrimaryToAccent
    else if percentage >= 80 then AccentToSecondary
    else SecondaryToPrimary
  }

  function GradientClasses(g: Gradient): string {
    match g
    case PrimaryToAccent => "from-primary to-accent"
    case AccentToSecondary => "from-accent to-secondary"
    case SecondaryToPrimary => "from-secondary to-primary"
  }

  /** The colour bands coincide with the levels: Expert, Advanced, and the two lower levels together. */
  lemma GradientFollowsLevel(p: int)
    ensures GradientFor(p) == PrimaryToAccent <==> SkillLevel(p) == Expert
    ensures GradientFor(p) == AccentToSecondary <==> SkillLevel(p) == Advanced
    ensures GradientFor(p) == SecondaryToPrimary <==> Rank(SkillLevel(p)) <= 1
  {
  }

  /** `${name} skill level: ${skillLevel}`, the bar's accessible label. */
  function AriaLabel(name: string, percentage: int): (r: string)
    ensures |r| >= |name| && r[..|name|] == name
    ensures r[|name|..] == " skill level: " + LevelLabel(SkillLevel(percentage))
  {
    name + " skill level: " + LevelLabel(SkillLevel(percentage))
  }

  /** Distinct levels have distinct labels. */
  lemma LevelLabelInjective(l: Level, m: Level)
    requires LevelLabel(l) == LevelLabel(m)
    ensures l == m
  {
    assert LevelLabel(l)[0] == LevelLabel(m)[0];
  }

  /**
   * For one skill, two percentages get the same accessible label exactly
   * when they fall in the same level: the label tells the levels apart and
   * says nothing finer about the percentage.
   */
  lemma AriaLabelNamesLevel(name: string, p: int, q: int)
    ensures AriaLabel(name, p) == AriaLabel(name, q) <==> SkillLevel(p) == SkillLevel(q)
  {
    if AriaLabel(name, p) == AriaLabel(name, q) {
      assert AriaLabel(name, p)[|name|..] == AriaLabel(name, q)[|name|..];
      var sp, sq := " skill level: " + LevelLabel(SkillLevel(p)), " skill level: " + LevelLabel(SkillLevel(q));
      assert sp[14..] == sq[14..];
      LevelLabelInjective(SkillLevel(p), SkillLevel(q));
    }
  }

  /**
   * One bar. `isIntersecting` is the observer's flag (`triggerOnce`, so it
   * never goes back to false); the timer's firing after `delay` is `TimerFires`.
   */
  class Bar {
    const percentage: int
    var isIntersecting: bool
    var animatedWidth: int

    /** The width is 0 or the percentage, and it is the percentage only after the bar was seen. */
    predicate Valid()
      reads this
    {
      (animatedWidth == 0 || animatedWidth == percentage)
      && (animatedWidth != 0 ==> isIntersecting)
    }

    constructor (p: int)
      ensures percentage == p && !isIntersecting && animatedWidth == 0 && Valid()
    {
      percentage := p;
      isIntersecting, animatedWidth := false, 0;
    }

    /** The observer reports the bar on screen; the effect then arms the timer. */
    method EnterView()
      modifies this
      requires Valid()
      ensures Valid() && isIntersecting && animatedWidth == old(animatedWidth)
    {
      isIntersecting := true;
    }

    /** The timer armed by the effect fires: `setAnimatedWidth(percentage)`. */
    method TimerFires()
      modifies this
      requires Valid() && isIntersecting
      ensures Valid() && animatedWidth == percentage && isIntersecting
    {
      animatedWidth := percentage;
    }

    /** The CSS width the bar animates to. */
    function WidthStyle(): (r: int)
      reads this
      requires Valid()
      ensures !isIntersecting ==> r == 0
      ensures r == 0 || r == percentage
    {
      animatedWidth
    }
  }
}
