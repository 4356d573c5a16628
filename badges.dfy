/**
 * The badge rows on project and blog cards: the first `limit` items as
 * badges (`items.slice(0, limit)`) followed, when `items.length > limit`, by
 * one overflow badge `+k` or `+k more` counting the rest.
 */
module Badges {
  import opened Wrappers
  import Decimal

  datatype BadgeRow = BadgeRow(shown: seq<string>, hidden: nat)

  function Min(a: nat, b: nat): nat {
    if a <= b then a else b
  }

  /** The items shown and the number hidden behind the overflow badge. */
  function Overflow(items: seq<string>, limit: nat): (b: BadgeRow)
    ensures |b.shown| == Min(limit, |items|) && b.shown == items[..|b.shown|]
    ensures |b.shown| + b.hidden == |items|
    ensures b.hidden > 0 <==> |items| > limit
  {
    if |items| <= limit then BadgeRow(items, 0) else BadgeRow(items[..limit], |items| - limit)
  }

  /** The overflow badge's text, `+k more` or `+k`; none when nothing is hidden. */
  function MoreBadge(b: BadgeRow, withWord: bool): (t: Option<string>)
    ensures t.Some? <==> b.hidden > 0
    ensures t.Some? ==> 1 + |Decimal.NatToString(b.hidden)| <= |t.value| && t.value[0] == '+'
    ensures t.Some? ==> t.value[1..1 + |Decimal.NatToString(b.hidden)|] == Decimal.NatToString(b.hidden)
    ensures t.Some? ==> (|t.value| == 1 + |Decimal.NatToString(b.hidden)| <==> !withWord)
    ensures t.Some? && withWord ==> t.value == "+" + Decimal.NatToString(b.hidden) + " more"
    ensures t.Some? && !withWord ==> t.value == "+" + Decimal.NatToString(b.hidden)
    ensures t.Some? ==> Decimal.ParseDigits(t.value[1..1 + |Decimal.NatToString(b.hidden)|]) == b.hidden
  {
    if b.hidden == 0 then None
    else
      var digits := Decimal.NatToString(b.hidden);
      var text := "+" + digits + (if withWord then " more" else "");
      assert text[1..1 + |digits|] == digits;
      Decimal.ParseNatToString(b.hidden);
      Some(text)
  }
}
