/** The cache-aside read paths of the model access layer: the storefront of a
    user and the global metadata snapshot, both served from one shared cache.

    The shared cache is a `Cache` object whose `entries` map the methods
    update. The storage layer is an oracle: each query is passed in as its
    answer or the fault it raised. `StorefrontRead` and `MetadataRead` give,
    as functions of the cache contents before the call, the reply and the
    cache contents after it; the methods are proved to follow them, and the
    lemmas below state what the reads promise alone and in sequence. */
module ModelAccess {
  import opened Common
  import opened KeySpace
  import opened Storefront
  import opened Metadata

  /** The requesting user's profile as looked up by username: the titles of
      the organisations the user belongs to, in query order, and the title of
      the user's access-control level. */
  datatype Profile = Profile(username: string, orgTitles: seq<string>, accessControlTitle: string)

  /** A value held by the shared cache. */
  datatype CachedView = StorefrontView(bundle: Bundle) | MetadataView(snapshot: Snapshot)

  /** What a read path hands back: the data, the error record
      `{'error': True, 'msg': msg}`, or an exception that escapes the read
      path because it was raised outside the `try`. */
  datatype Reply<T> = Data(value: T) | ErrorRecord(msg: string) | Raised(detail: string)

  const StorefrontErrorPrefix: string := "Error getting storefront: "
  const MetadataErrorPrefix: string := "Error getting metadata: "

  /** The cache key of a user's storefront. */
  function UserKey(p: Profile): string
  {
    StorefrontKey(p.orgTitles, p.accessControlTitle)
  }

  /** The cache holds a snapshot under the metadata key, a bundle under every
      other key, and every cached bundle is well formed. */
  ghost predicate Coherent(m: map<string, CachedView>)
  {
    forall k :: k in m ==>
      && (m[k].MetadataView? <==> k == MetadataKey)
      && (m[k].StorefrontView? ==> WellFormed(m[k].bundle))
  }

  // ---------------------------------------------------------------------------
  // The read paths as functions of the cache contents

  /** `get_storefront`. A failed profile lookup escapes before the cache is
      consulted; a hit returns the cached bundle; a miss computes the bundle
      from the visible listings and stores it under the user's key, unless the
      query fails, in which case the error record is returned and nothing is
      stored. At most one entry is ever written, and it holds the reply. */
  function StorefrontRead(m: map<string, CachedView>, profile: Query<Profile>, visible: Query<seq<Listing>>)
    : (out: (Reply<Bundle>, map<string, CachedView>))
    requires Coherent(m)
    ensures Coherent(out.1)
    ensures out.0.Data? ==> WellFormed(out.0.value)
    ensures !out.0.Data? ==> out.1 == m
    ensures out.1 == m
            || (profile.Answer? && out.0.Data? && out.1 == m[UserKey(profile.value) := StorefrontView(out.0.value)])
  {
    match profile
    case Fault(d) => (Raised(d), m)
    case Answer(p) =>
      var key := UserKey(p);
      if key in m then (Data(m[key].bundle), m)
      else
        match visible
        case Fault(d) => (ErrorRecord(StorefrontErrorPrefix + d), m)
        case Answer(rows) =>
          var bundle := ComputeBundle(rows);
          assert WellFormed(bundle) && key != MetadataKey;
          (Data(bundle), m[key := StorefrontView(bundle)])
  }

  /** `get_metadata`. A hit returns the cached snapshot; a miss assembles the
      snapshot and stores it under the metadata key, unless a query fails, in
      which case the error record is returned and nothing is stored. Nothing
      escapes, and no key other than the metadata key is ever written. */
  function MetadataRead(m: map<string, CachedView>, catalog: Catalog)
    : (out: (Reply<Snapshot>, map<string, CachedView>))
    requires Coherent(m)
    ensures Coherent(out.1)
    ensures !out.0.Raised?
    ensures !out.0.Data? ==> out.1 == m
    ensures out.1 == m || (out.0.Data? && out.1 == m[MetadataKey := MetadataView(out.0.value)])
  {
    if MetadataKey in m then (Data(m[MetadataKey].snapshot), m)
    else
      match AssembleSnapshot(catalog)
      case Fault(d) => (ErrorRecord(MetadataErrorPrefix + d), m)
      case Answer(s) => (Data(s), m[MetadataKey := MetadataView(s)])
  }

  // ---------------------------------------------------------------------------
  // The shared cache and the read paths as the source runs them

  /** The process-wide cache: `get` and `set` over a map from keys to views. */
  class Cache {
    var entries: map<string, CachedView>

    ghost predicate Valid()
      reads this
    {
      Coherent(entries)
    }

    constructor ()
      ensures Valid() && entries == map[]
    {
      entries := map[];
    }

    /** `cache.get(key)`: the stored view, or `None` when the key is absent. */
    method Get(key: string) returns (v: Option<CachedView>)
      ensures v.Some? <==> key in entries
      ensures v.Some? ==> v.value == entries[key]
    {
      if key in entries {
        v := Some(entries[key]);
      } else {
        v := None;
      }
    }

    /** `cache.set(key, value)`: the entry for `key` is replaced, no other changes. */
    method Set(key: string, v: CachedView)
      requires Valid()
      requires v.MetadataView? <==> key == MetadataKey
      requires v.StorefrontView? ==> WellFormed(v.bundle)
      modifies this
      ensures Valid()
      ensures entries == old(entries)[key := v]
    {
      entries := entries[key := v];
    }
  }

  /** `get_storefront(username)`, given the answer of the profile lookup and
      of the visible-listings query for that user. */
  method GetStorefront(cache: Cache, profile: Query<Profile>, visible: Query<seq<Listing>>)
    returns (reply: Reply<Bundle>)
    requires cache.Valid()
    modifies cache
    ensures cache.Valid()
    ensures (reply, cache.entries) == StorefrontRead(old(cache.entries), profile, visible)
  {
    if profile.Fault? {
      // the lookup sits outside the try: its exception propagates
      return Raised(profile.detail);
    }
    var user := profile.value;
    var orgs := JoinOrgTitles(user.orgTitles);
    var orgsKey := MakeKeysafe(orgs);
    var accessControlKey := MakeKeysafe(user.accessControlTitle);
    var key := StorefrontPrefix + orgsKey + ":" + accessControlKey;
    assert key == UserKey(user);
    var data := cache.Get(key);
    if data.Some? {
      return Data(data.value.bundle);
    }
    if visible.Fault? {
      return ErrorRecord(StorefrontErrorPrefix + visible.detail);
    }
    var listings := visible.value;
    var featured := SelectFeatured(listings);
    var recent := SelectLowest(listings, ApprovedDate, RecentLimit);
    var mostPopular := SelectLowest(listings, AvgRate, MostPopularLimit);
    var bundle := Bundle(featured, recent, mostPopular);
    cache.Set(key, StorefrontView(bundle));
    return Data(bundle);
  }

  /** `get_metadata()`: the dictionary is filled one field at a time, and the
      first query that fails ends the read with the error record. */
  method GetMetadata(cache: Cache, catalog: Catalog) returns (reply: Reply<Snapshot>)
    requires cache.Valid()
    modifies cache
    ensures cache.Valid()
    ensures (reply, cache.entries) == MetadataRead(old(cache.entries), catalog)
  {
    var key := MetadataKey;
    var data := cache.Get(key);
    if data.Some? {
      return Data(data.value.snapshot);
    }
    if catalog.categories.Fault? {
      return ErrorRecord(MetadataErrorPrefix + catalog.categories.detail);
    }
    var categories := CategoryValuesOf(catalog.categories.value);
    if catalog.listingTypes.Fault? {
      return ErrorRecord(MetadataErrorPrefix + catalog.listingTypes.detail);
    }
    var listingTypes := ListingTypeValuesOf(catalog.listingTypes.value);
    if catalog.agencies.Fault? {
      return ErrorRecord(MetadataErrorPrefix + catalog.agencies.detail);
    }
    var agencies := AgencyValuesOf(catalog.agencies.value);
    if catalog.contactTypes.Fault? {
      return ErrorRecord(MetadataErrorPrefix + catalog.contactTypes.detail);
    }
    var contactTypes := ContactTypeValuesOf(catalog.contactTypes.value);
    if catalog.intents.Fault? {
      return ErrorRecord(MetadataErrorPrefix + catalog.intents.detail);
    }
    var intents := IntentValuesOf(catalog.intents.value);
    var snapshot := Snapshot(categories, listingTypes, agencies, contactTypes, intents);
    cache.Set(key, MetadataView(snapshot));
    return Data(snapshot);
  }

  // ---------------------------------------------------------------------------
  // Storefront: one read

  /** A failed profile lookup escapes and leaves the cache alone. */
  lemma StorefrontProfileFault(m: map<string, CachedView>, detail: string, visible: Query<seq<Listing>>)
    requires Coherent(m)
    ensures StorefrontRead(m, Fault(detail), visible) == (Raised(detail), m)
  {
  }

  /** On a hit the cached bundle is returned verbatim and the cache is unchanged,
      whatever the storage layer would answer now. */
  lemma StorefrontHit(m: map<string, CachedView>, p: Profile, visible: Query<seq<Listing>>)
    requires Coherent(m) && UserKey(p) in m
    ensures m[UserKey(p)].StorefrontView?
    ensures StorefrontRead(m, Answer(p), visible) == (Data(m[UserKey(p)].bundle), m)
  {
  }

  /** On a miss the computed bundle is returned and stored under the user's
      key; no other key changes. */
  lemma StorefrontMiss(m: map<string, CachedView>, p: Profile, rows: seq<Listing>)
    requires Coherent(m) && UserKey(p) !in m
    ensures var out := StorefrontRead(m, Answer(p), Answer(rows));
      && out.0 == Data(ComputeBundle(rows))
      && out.1.Keys == m.Keys + {UserKey(p)}
      && out.1[UserKey(p)] == StorefrontView(ComputeBundle(rows))
      && forall k :: k in m ==> out.1[k] == m[k]
  {
  }

  /** A query fault during a miss gives the error record and writes nothing. */
  lemma StorefrontQueryFault(m: map<string, CachedView>, p: Profile, detail: string)
    requires Coherent(m) && UserKey(p) !in m
    ensures StorefrontRead(m, Answer(p), Fault(detail)) == (ErrorRecord(StorefrontErrorPrefix + detail), m)
  {
  }

  /** A storefront read never touches the metadata entry. */
  lemma StorefrontKeepsMetadata(m: map<string, CachedView>, profile: Query<Profile>, visible: Query<seq<Listing>>)
    requires Coherent(m)
    ensures var m' := StorefrontRead(m, profile, visible).1;
      && (MetadataKey in m' <==> MetadataKey in m)
      && (MetadataKey in m ==> m'[MetadataKey] == m[MetadataKey])
  {
  }

  // ---------------------------------------------------------------------------
  // Storefront: reads in sequence

  /** Two reads in succession return the same bundle, the second one from the
      cache, even if the visible listings changed in between. */
  lemma StorefrontRepeat(m: map<string, CachedView>, p: Profile, visible: Query<seq<Listing>>, later: Query<seq<Listing>>)
    requires Coherent(m)
    requires StorefrontRead(m, Answer(p), visible).0.Data?
    ensures var first := StorefrontRead(m, Answer(p), visible);
      StorefrontRead(first.1, Answer(p), later) == first
  {
  }

  /** A failed read is never cached: the next read recomputes from scratch. */
  lemma StorefrontRetryAfterFault(m: map<string, CachedView>, p: Profile, visible: Query<seq<Listing>>, rows: seq<Listing>)
    requires Coherent(m)
    requires StorefrontRead(m, Answer(p), visible).0.ErrorRecord?
    ensures var first := StorefrontRead(m, Answer(p), visible);
      StorefrontRead(first.1, Answer(p), Answer(rows)).0 == Data(ComputeBundle(rows))
  {
  }

  /** The cache is scoped by the normalised organisation titles and access
      level alone: once one user's storefront is cached, every user with the
      same normalised titles is served that bundle, whatever listings are
      visible to that user. */
  lemma StorefrontSharedScope(m: map<string, CachedView>, p1: Profile, p2: Profile,
                              visible1: Query<seq<Listing>>, visible2: Query<seq<Listing>>)
    requires Coherent(m)
    requires MakeKeysafe(OrgsSegment(p1.orgTitles)) == MakeKeysafe(OrgsSegment(p2.orgTitles))
    requires MakeKeysafe(p1.accessControlTitle) == MakeKeysafe(p2.accessControlTitle)
    requires StorefrontRead(m, Answer(p1), visible1).0.Data?
    ensures var first := StorefrontRead(m, Answer(p1), visible1);
      StorefrontRead(first.1, Answer(p2), visible2) == first
  {
  }

  // ---------------------------------------------------------------------------
  // Metadata

  /** On a hit the cached snapshot is returned verbatim and the cache is unchanged. */
  lemma MetadataHit(m: map<string, CachedView>, catalog: Catalog)
    requires Coherent(m) && MetadataKey in m
    ensures m[MetadataKey].MetadataView?
    ensures MetadataRead(m, catalog) == (Data(m[MetadataKey].snapshot), m)
  {
  }

  /** On a miss with every query answered, the five projections are returned
      and stored under the metadata key; no other key changes. */
  lemma MetadataMiss(m: map<string, CachedView>, catalog: Catalog)
    requires Coherent(m) && MetadataKey !in m
    requires catalog.categories.Answer? && catalog.listingTypes.Answer? && catalog.agencies.Answer?
    requires catalog.contactTypes.Answer? && catalog.intents.Answer?
    ensures var out := MetadataRead(m, catalog);
      && out.0.Data?
      && out.0.value.categories == CategoryValuesOf(catalog.categories.value)
      && out.0.value.listingTypes == ListingTypeValuesOf(catalog.listingTypes.value)
      && out.0.value.agencies == AgencyValuesOf(catalog.agencies.value)
      && out.0.value.contactTypes == ContactTypeValuesOf(catalog.contactTypes.value)
      && out.0.value.intents == IntentValuesOf(catalog.intents.value)
      && out.1.Keys == m.Keys + {MetadataKey}
      && out.1[MetadataKey] == MetadataView(out.0.value)
      && forall k :: k in m ==> out.1[k] == m[k]
  {
  }

  /** A query fault during a miss gives the error record naming the first
      failing query and writes nothing. */
  lemma MetadataQueryFault(m: map<string, CachedView>, catalog: Catalog)
    requires Coherent(m) && MetadataKey !in m
    requires AssembleSnapshot(catalog).Fault?
    ensures MetadataRead(m, catalog) == (ErrorRecord(MetadataErrorPrefix + AssembleSnapshot(catalog).detail), m)
  {
  }

  /** A metadata read writes no storefront entry. */
  lemma MetadataKeepsStorefronts(m: map<string, CachedView>, catalog: Catalog, k: string)
    requires Coherent(m) && k != MetadataKey
    ensures var m' := MetadataRead(m, catalog).1;
      (k in m' <==> k in m) && (k in m ==> m'[k] == m[k])
  {
  }

  /** Two metadata reads in succession return the same snapshot, the second
      one from the cache, even if the catalog changed in between. */
  lemma MetadataRepeat(m: map<string, CachedView>, catalog: Catalog, later: Catalog)
    requires Coherent(m)
    requires MetadataRead(m, catalog).0.Data?
    ensures var first := MetadataRead(m, catalog);
      MetadataRead(first.1, later) == first
  {
  }
}
