/**
 * The stat card (components/stat-card.tsx): a stat such as "50+" split into
 * its digits, read as a number, and the rest kept as a suffix; the heading
 * shows "0" until the card is in view and then the animated count followed
 * by the suffix.
 */
module StatCard {
  import opened Lists
  import opened Decimal
  import opened Wrappers

  predicate NotDigit(c: char) {
    !IsDigit(c)
  }

  /** `number.replace(/\D/g, "")`: the digits, in their order. */
  function Digits(number: string): (r: string)
    ensures forall i :: 0 <= i < |r| ==> IsDigit(r[i])
    ensures IsSubsequence(r, number)
  {
    Filter(number, IsDigit)
  }

  /** `number.replace(/[0-9]/g, "")`: everything else, in its order. */
  function Suffix(number: string): (r: string)
    ensures forall i :: 0 <= i < |r| ==> !IsDigit(r[i])
    ensures IsSubsequence(r, number)
  {
    Filter(number, NotDigit)
  }

  /** The digit string is empty exactly when the stat has no digit. */
  lemma DigitsEmptyIffNoDigit(number: string)
    ensures Digits(number) == [] <==> forall i :: 0 <= i < |number| ==> !IsDigit(number[i])
  {
    var ds := Digits(number);
    if ds != [] {
      assert ds[0] in number && IsDigit(ds[0]);
      var i :| 0 <= i < |number| && number[i] == ds[0];
    }
  }

  /**
   * `Number.parseInt` of the digit string: nothing (the source's `NaN`)
   * when the stat has no digit at all; otherwise the number whose text,
   * after some zero padding, is the digit string (`ZeroPaddedUnique` makes
   * that number unique).
   */
  function NumberValue(number: string): (r: Option<nat>)
    ensures r.None? <==> Digits(number) == []
    ensures r.None? <==> forall i :: 0 <= i < |number| ==> !IsDigit(number[i])
    ensures r.Some? ==> exists z :: AllZeros(z) && Digits(number) == z + NatToString(r.value)
  {
    var ds := Digits(number);
    DigitsEmptyIffNoDigit(number);
    if ds == [] then None
    else
      ZeroPadded(ds);
      Some(ParseDigits(ds))
  }

  /** Every character lands in exactly one of the two parts. */
  lemma SplitIsPartition(number: string)
    ensures |Digits(number)| + |Suffix(number)| == |number|
    ensures multiset(Digits(number)) + multiset(Suffix(number)) == multiset(number)
  {
    FilterPartition(number, IsDigit, NotDigit);
  }

  /** A stat written as a number's text and a digit-free suffix splits back into those two. */
  lemma {:induction false} SplitNumberAndSuffix(n: nat, suffix: string)
    requires forall i :: 0 <= i < |suffix| ==> !IsDigit(suffix[i])
    ensures Digits(NatToString(n) + suffix) == NatToString(n)
    ensures Suffix(NatToString(n) + suffix) == suffix
    ensures NumberValue(NatToString(n) + suffix) == Some(n)
  {
    var t := NatToString(n);
    FilterAppend(t, suffix, IsDigit);
    FilterAppend(t, suffix, NotDigit);
    FilterKeepsAll(t, IsDigit);
    FilterDropsAll(suffix, IsDigit);
    FilterDropsAll(t, NotDigit);
    FilterKeepsAll(suffix, NotDigit);
    assert t + [] == t && [] + suffix == suffix;
    ParseNatToString(n);
  }

  /** The value of `count`: a whole number, or `NaN` when the animation multiplied by a `NaN` value. */
  datatype Count = Num(n: nat) | NaN

  function CountText(c: Count): (r: string)
    ensures c.Num? ==> AllDigits(r) && ParseDigits(r) == c.n
    ensures c.NaN? ==> r == "NaN"
  {
    match c
    case Num(n) => ParseNatToString(n); NatToString(n)
    case NaN => "NaN"
  }

  /** `inView ? `${count}${suffix}` : "0"`. */
  function DisplayText(inView: bool, count: Count, suffix: string): (r: string)
    ensures !inView ==> r == "0"
    ensures inView && count.Num? ==> r == NatToString(count.n) + suffix
    ensures inView && count.NaN? ==> r == "NaN" + suffix
  {
    if inView then CountText(count) + suffix else "0"
  }

  /**
   * The count the last frame stores: at progress 1 the easing is 1, and
   * `Math.floor(1 * numberValue)` is the value itself (or `NaN`).
   */
  function SettledCount(number: string): (r: Count)
    ensures NumberValue(number).Some? ==> r == Num(NumberValue(number).value)
    ensures NumberValue(number).None? ==> r == NaN
    ensures r.Num? <==> exists i :: 0 <= i < |number| && IsDigit(number[i])
  {
    match NumberValue(number)
    case Some(v) => Num(v)
    case None => NaN
  }

  /**
   * Once the animation has settled, a stat written as a number and a
   * digit-free suffix (as "50+" is) reads exactly as written.
   */
  lemma SettledDisplayIsStat(n: nat, suffix: string)
    requires forall i :: 0 <= i < |suffix| ==> !IsDigit(suffix[i])
    ensures DisplayText(true, SettledCount(NatToString(n) + suffix), Suffix(NatToString(n) + suffix))
      == NatToString(n) + suffix
  {
    SplitNumberAndSuffix(n, suffix);
  }
}
