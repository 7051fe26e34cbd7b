/** The three listing subsets of a storefront, computed from the listings the
    storage layer reports as visible to the user, in the storage layer's order. */
module Storefront {
  import opened Common

  /** A catalog entry, reduced to the fields the storefront queries use.
      `approvedDate` is a timestamp; `avgRate` is the average rating. */
  datatype Listing = Listing(id: int, isFeatured: bool, approvedDate: int, avgRate: real)

  /** The two `order_by` fields of the storefront queries. */
  datatype SortField = ApprovedDate | AvgRate

  function KeyOf(l: Listing, f: SortField): real
  {
    match f
    case ApprovedDate => l.approvedDate as real
    case AvgRate => l.avgRate
  }

  const FeaturedLimit: nat := 12
  const RecentLimit: nat := 24
  const MostPopularLimit: nat := 36

  predicate SortedBy(s: seq<Listing>, f: SortField)
  {
    forall i, j :: 0 <= i < j < |s| ==> KeyOf(s[i], f) <= KeyOf(s[j], f)
  }

  /** Putting in front an element no larger than any other keeps the order. */
  lemma ConsSorted(h: Listing, s: seq<Listing>, f: SortField)
    requires SortedBy(s, f)
    requires forall i :: 0 <= i < |s| ==> KeyOf(h, f) <= KeyOf(s[i], f)
    ensures SortedBy([h] + s, f)
  {
  }

  /** Ascending `order_by(f)`: insertion into a sorted sequence. */
  function Insert(x: Listing, s: seq<Listing>, f: SortField): (r: seq<Listing>)
    requires SortedBy(s, f)
    ensures SortedBy(r, f)
    ensures forall y :: y in r ==> y == x || y in s
    ensures multiset(r) == multiset(s) + multiset{x}
  {
    if s == [] then [x]
    else if KeyOf(x, f) <= KeyOf(s[0], f) then
      ConsSorted(x, s, f);
      [x] + s
    else
      var rest := Insert(x, s[1..], f);
      assert s == [s[0]] + s[1..];
      assert forall i :: 0 <= i < |rest| ==> rest[i] in rest;
      ConsSorted(s[0], rest, f);
      [s[0]] + rest
  }

  /** Ascending `order_by(f)` of the whole sequence. Ties keep no particular
      order in the source; since `Insert` places an element before those with
      an equal key, this definition keeps the input order among equal keys. */
  function SortBy(s: seq<Listing>, f: SortField): (r: seq<Listing>)
    ensures SortedBy(r, f)
    ensures multiset(r) == multiset(s)
  {
    if s == [] then []
    else
      assert s == [s[0]] + s[1..];
      Insert(s[0], SortBy(s[1..], f), f)
  }

  /** `.filter(is_featured=True)`: the featured listings, in storage order.
      `FilterFeaturedCounts` states that each featured row is kept as often as
      it occurs. */
  function FilterFeatured(s: seq<Listing>): (r: seq<Listing>)
    ensures forall l :: l in r <==> l in s && l.isFeatured
    ensures IsSubsequence(r, s)
  {
    if s == [] then []
    else
      assert s == [s[0]] + s[1..];
      if s[0].isFeatured then [s[0]] + FilterFeatured(s[1..])
      else
        var rest := FilterFeatured(s[1..]);
        assert rest != [] ==> rest[0] != s[0];
        rest
  }

  /** `filter` keeps each featured listing exactly as often as it occurs, and
      no other listing. */
  lemma {:induction false} FilterFeaturedCounts(s: seq<Listing>)
    ensures forall l :: multiset(FilterFeatured(s))[l] == (if l.isFeatured then multiset(s)[l] else 0)
  {
    if s != [] {
      FilterFeaturedCounts(s[1..]);
      FilterFeaturedCons(s[0], s[1..]);
      assert s == [s[0]] + s[1..];
    }
  }

  lemma FilterFeaturedCons(x: Listing, s: seq<Listing>)
    ensures FilterFeatured([x] + s) == (if x.isFeatured then [x] + FilterFeatured(s) else FilterFeatured(s))
  {
    assert ([x] + s)[1..] == s;
  }

  lemma {:induction false} FilterFeaturedConcat(a: seq<Listing>, b: seq<Listing>)
    ensures FilterFeatured(a + b) == FilterFeatured(a) + FilterFeatured(b)
  {
    if a == [] {
      assert a + b == b;
    } else {
      var h, t := a[0], a[1..];
      assert a == [h] + t && a + b == [h] + (t + b);
      FilterFeaturedConcat(t, b);
      FilterFeaturedCons(h, t);
      FilterFeaturedCons(h, t + b);
      if h.isFeatured {
        var ft, fb := FilterFeatured(t), FilterFeatured(b);
        assert [h] + (ft + fb) == ([h] + ft) + fb;
      }
    }
  }

  /** The featured listing at position `i` of the storage order is among the
      first twelve featured ones when fewer than twelve featured listings come
      before it. */
  lemma FirstFeaturedKept(visible: seq<Listing>)
    ensures forall i :: (0 <= i < |visible| && visible[i].isFeatured
                         && |FilterFeatured(visible[..i])| < FeaturedLimit)
                        ==> visible[i] in Take(FilterFeatured(visible), FeaturedLimit)
  {
    forall i | 0 <= i < |visible| && visible[i].isFeatured && |FilterFeatured(visible[..i])| < FeaturedLimit
      ensures visible[i] in Take(FilterFeatured(visible), FeaturedLimit)
    {
      var before, here := visible[..i], visible[i..];
      assert visible == before + here;
      FilterFeaturedConcat(before, here);
      assert here[0] == visible[i];
      var tail := FilterFeatured(here);
      assert tail == [visible[i]] + FilterFeatured(here[1..]);
      var k := |FilterFeatured(before)|;
      var all := FilterFeatured(visible);
      assert all == FilterFeatured(before) + tail;
      assert all[k] == visible[i];
      assert Take(all, FeaturedLimit)[k] == visible[i];
    }
  }

  /** Python's slice `[:n]`: the first `n` elements, or all of them. */
  function Take<T>(s: seq<T>, n: nat): seq<T>
  {
    s[..Min(|s|, n)]
  }

  /** `for_user(...).filter(is_featured=True)[:12]`: the first twelve featured
      listings in storage order (all of them when there are fewer), kept in
      that order. */
  function SelectFeatured(visible: seq<Listing>): (r: seq<Listing>)
    ensures |r| == Min(|FilterFeatured(visible)|, FeaturedLimit)
    ensures forall i :: 0 <= i < |r| ==> r[i].isFeatured
    ensures IsSubsequence(r, visible)
    ensures forall i :: (0 <= i < |visible| && visible[i].isFeatured
                         && |FilterFeatured(visible[..i])| < FeaturedLimit)
                        ==> visible[i] in r
  {
    var all := FilterFeatured(visible);
    SubsequencePrefix(all, visible, Min(|all|, FeaturedLimit));
    FirstFeaturedKept(visible);
    assert forall i :: 0 <= i < Min(|all|, FeaturedLimit) ==> Take(all, FeaturedLimit)[i] in all;
    Take(all, FeaturedLimit)
  }

  /** The first `k` elements of an ascending sequence are no larger than any
      of the remaining ones. */
  lemma PrefixOfSortedIsLowest(t: seq<Listing>, f: SortField, k: nat)
    requires SortedBy(t, f) && k <= |t|
    ensures forall x, y :: x in t[..k] && y in multiset(t) - multiset(t[..k]) ==> KeyOf(x, f) <= KeyOf(y, f)
  {
    assert t == t[..k] + t[k..];
    assert multiset(t) - multiset(t[..k]) == multiset(t[k..]);
    forall x, y | x in t[..k] && y in multiset(t) - multiset(t[..k])
      ensures KeyOf(x, f) <= KeyOf(y, f)
    {
      assert y in t[k..];
      var i :| 0 <= i < k && t[..k][i] == x;
      var j :| 0 <= j < |t| - k && t[k..][j] == y;
      assert t[i] == x && t[k + j] == y;
    }
  }

  /** `for_user(...).order_by(f)[:cap]`: the `cap` listings with the smallest
      key (all of them when fewer are visible), in ascending key order. */
  function SelectLowest(visible: seq<Listing>, f: SortField, cap: nat): (r: seq<Listing>)
    ensures |r| == Min(|visible|, cap)
    ensures SortedBy(r, f)
    ensures multiset(r) <= multiset(visible)
    ensures forall x, y :: x in r && y in multiset(visible) - multiset(r) ==> KeyOf(x, f) <= KeyOf(y, f)
  {
    var t := SortBy(visible, f);
    var k := Min(|t|, cap);
    PrefixOfSortedIsLowest(t, f, k);
    assert t == t[..k] + t[k..];
    t[..k]
  }

  /** The cached storefront bundle. */
  datatype Bundle = Bundle(featured: seq<Listing>, recent: seq<Listing>, mostPopular: seq<Listing>)

  /** What every storefront bundle satisfies: the three caps, only featured
      listings under `featured`, and both ordered subsets in ascending order. */
  predicate WellFormed(b: Bundle)
  {
    && |b.featured| <= FeaturedLimit
    && (forall i :: 0 <= i < |b.featured| ==> b.featured[i].isFeatured)
    && |b.recent| <= RecentLimit
    && SortedBy(b.recent, ApprovedDate)
    && |b.mostPopular| <= MostPopularLimit
    && SortedBy(b.mostPopular, AvgRate)
  }

  /** The bundle computed on a cache miss. `recent` holds the (at most 24)
      listings approved EARLIEST and `mostPopular` the (at most 36) with the
      LOWEST average rating, because both queries sort ascending. */
  function ComputeBundle(visible: seq<Listing>): (b: Bundle)
    ensures WellFormed(b)
    ensures |b.featured| == Min(|FilterFeatured(visible)|, FeaturedLimit)
    ensures IsSubsequence(b.featured, visible)
    ensures forall i :: (0 <= i < |visible| && visible[i].isFeatured
                         && |FilterFeatured(visible[..i])| < FeaturedLimit)
                        ==> visible[i] in b.featured
    ensures multiset(b.recent) <= multiset(visible)
    ensures multiset(b.mostPopular) <= multiset(visible)
    ensures |b.recent| == Min(|visible|, RecentLimit)
    ensures |b.mostPopular| == Min(|visible|, MostPopularLimit)
    ensures forall x, y :: x in b.recent && y in multiset(visible) - multiset(b.recent)
              ==> x.approvedDate <= y.approvedDate
    ensures forall x, y :: x in b.mostPopular && y in multiset(visible) - multiset(b.mostPopular)
              ==> x.avgRate <= y.avgRate
  {
    Bundle(SelectFeatured(visible),
           SelectLowest(visible, ApprovedDate, RecentLimit),
           SelectLowest(visible, AvgRate, MostPopularLimit))
  }
}
