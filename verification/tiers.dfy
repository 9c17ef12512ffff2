/** Distance brackets: an ordered list of upper limits, each inclusive, tried
    first to last, as in an `if d <= a: … elif d <= b: … else: …` chain. */
module Tiers {

  /** A bracket that covers every distance up to and including `limit`. */
  datatype Tier<T> = Tier(limit: real, value: T)

  /** The brackets in the order they are tried, and the value for a distance
      beyond every one of them. */
  datatype Schedule<T> = Schedule(tiers: seq<Tier<T>>, beyond: T)

  /** The limits strictly increase, so every bracket is reachable. */
  predicate Ascending<T>(tiers: seq<Tier<T>>) {
    forall i, j :: 0 <= i < j < |tiers| ==> tiers[i].limit < tiers[j].limit
  }

  /** The index of the first bracket whose limit is at least `d`, or
      `|tiers|` when `d` exceeds them all. */
  function BracketOf<T>(tiers: seq<Tier<T>>, d: real): (i: nat)
    ensures i <= |tiers|
    ensures i < |tiers| ==> d <= tiers[i].limit
    ensures forall j :: 0 <= j < i ==> tiers[j].limit < d
    decreases |tiers|
  {
    if |tiers| == 0 then 0
    else if d <= tiers[0].limit then 0
    else 1 + BracketOf(tiers[1..], d)
  }

  /** The value of the bracket `d` falls in. */
  function Select<T>(s: Schedule<T>, d: real): (v: T)
    ensures v == s.beyond || exists i :: 0 <= i < |s.tiers| && v == s.tiers[i].value
  {
    var i := BracketOf(s.tiers, d);
    if i < |s.tiers| then s.tiers[i].value else s.beyond
  }

  /** Two distances are priced by the same bracket. */
  predicate SameBracket<T>(s: Schedule<T>, d1: real, d2: real) {
    BracketOf(s.tiers, d1) == BracketOf(s.tiers, d2)
  }

  /** A longer distance never falls in an earlier bracket. */
  lemma BracketOfMonotone<T>(tiers: seq<Tier<T>>, d1: real, d2: real)
    requires d1 <= d2
    ensures BracketOf(tiers, d1) <= BracketOf(tiers, d2)
  {
  }

  /** With ascending limits, bracket `i` is exactly the half-open interval
      (limit of bracket i-1, limit of bracket i]; the first has no lower
      end and the one beyond all brackets no upper end. */
  lemma BracketInterval<T>(tiers: seq<Tier<T>>, d: real, i: nat)
    requires Ascending(tiers)
    requires i <= |tiers|
    ensures BracketOf(tiers, d) == i <==>
      (i == 0 || tiers[i - 1].limit < d) && (i == |tiers| || d <= tiers[i].limit)
  {
  }
}
