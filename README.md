# Model access layer of the storefront service, in Dafny

This project models `ozpcenter/model_access.py`, the data-access layer behind
the application-catalog storefront. The layer does three things, and the model
covers all three.

- **Cache keys.** `make_keysafe` normalises a string for use in a cache key. It
  deletes every run of non-word characters and then lower-cases the rest. The
  storefront key is `storefront:<orgs>:<access>`. `<orgs>` is the normalised
  concatenation of the user's organisation titles, each followed by `_`.
  `<access>` is the user's normalised access-control title.
- **Storefront read path.** This is cache-aside. A hit returns the cached
  bundle verbatim. A miss builds three subsets of the listings visible to the
  user:
  - up to 12 featured listings;
  - the first 24 listings by ascending approval date;
  - the first 36 listings by ascending average rating.

  The bundle is then stored under the key and returned. A query fault returns
  the error record `Error getting storefront: <detail>` and stores nothing.
- **Metadata read path.** The same cache-aside shape, under the fixed key
  `metadata`. The value is five field projections of catalog tables.

Files:

- `common.dfy`: the shared vocabulary. It holds `Option`, the storage oracle's
  answer `Query` (rows or a fault) and the subsequence relation.
- `keyspace.dfy`: `make_keysafe` and the storefront key.
- `storefront.dfy`: the listing type, the three selections and the bundle.
- `metadata.dfy`: the catalog rows, their projections and the snapshot.
- `model_access.dfy`: the shared cache and the two read paths.
  - The cache is a class whose `entries` map the methods update.
  - `GetStorefront` and `GetMetadata` are methods, proved to follow the pure
    functions `StorefrontRead` and `MetadataRead`.
  - Lemmas state hit, miss and fault behaviour, and what happens over
    consecutive reads.

The word characters are the ASCII ones (`A`–`Z`, `a`–`z`, `0`–`9`, `_`).
Lower-casing maps `A`–`Z` to `a`–`z`.

Four behaviours of the code are easy to miss. The model follows the code in
each:

- The docstring of `make_keysafe` speaks of removing every non-alphanumeric
  character, but `\W+` keeps the underscore. The lemma `UnderscoreCollides`
  shows the consequence.
- The organisation titles are used in query order, with neither sorting nor
  de-duplication. The lemma `OrgOrderMatters` shows that order changes the key.
- The profile lookup and the key construction sit outside the `try`. A fault
  there escapes as an exception and is not turned into the error record. The
  model returns `Raised(detail)` for this case.
- The docstring of `get_storefront` calls the subsets "recent (new)" and
  "most popular", but both ordered queries sort ascending. `recent` therefore
  holds the listings approved earliest, and `most_popular` holds those with
  the lowest rating. `SelectLowest` and `ComputeBundle` state this.

## Model

| member | source | states |
|---|---|---|
| KeySpace.ToLower | ozpcenter/model_access.py:36 | the lower-cased character is never upper case; a character is a word character before lower-casing exactly when it is one after |
| KeySpace.LowerAll | ozpcenter/model_access.py:36 | `lower()` keeps the length and lower-cases each character in place |
| KeySpace.NonWordRun | ozpcenter/model_access.py:36 | the greedy `\W+` match at the start of a string: all of its characters are non-word, and the next character, if any, is a word character |
| KeySpace.SubstituteRuns | ozpcenter/model_access.py:36 | `re.sub(r'\W+', '', s)` keeps only word characters and never lengthens the string |
| KeySpace.MakeKeysafe | ozpcenter/model_access.py:29-36 | the key holds only lower-case letters, digits and underscores (no space, colon or punctuation), and is no longer than the input |
| KeySpace.SubstituteRunsIsStrip | ozpcenter/model_access.py:36 | deleting maximal runs of non-word characters equals deleting every non-word character on its own |
| KeySpace.MakeKeysafeIsLoweredStrip | ozpcenter/model_access.py:36 | the key is the lower-cased sequence of the input's word characters |
| KeySpace.LowerThenStripIsKeysafe | ozpcenter/model_access.py:36 | lower-casing before the deletion gives the same key as lower-casing after it |
| KeySpace.MakeKeysafeConcat | ozpcenter/model_access.py:36 | the key of `a + b` is the key of `a` followed by the key of `b` |
| KeySpace.KeysafeFixpoint | ozpcenter/model_access.py:36 | `make_keysafe` leaves a string unchanged if and only if it is already keysafe |
| KeySpace.MakeKeysafeIdempotent | ozpcenter/model_access.py:36 | applying `make_keysafe` twice equals applying it once |
| KeySpace.MakeKeysafeIsSubsequence | ozpcenter/model_access.py:36 | the key is a subsequence of the lower-cased input |
| KeySpace.KeysafeHasNoColon | ozpcenter/model_access.py:57-60 | a keysafe part contains no colon |
| KeySpace.JoinOrgTitles | ozpcenter/model_access.py:54-56 | the accumulation loop builds the concatenation of every title followed by `_`, in query order |
| KeySpace.OrgsSegmentKeysafe | ozpcenter/model_access.py:54-57 | the normalised organisation part is the concatenation of each title's own key followed by `_` |
| KeySpace.StorefrontKey | ozpcenter/model_access.py:57-60 | the storefront key starts with `storefront:`, has exactly two colons, and is never the metadata key |
| KeySpace.StorefrontKeyInjective | ozpcenter/model_access.py:57-60 | two storefront keys are equal if and only if their normalised organisation parts and normalised access titles are equal |
| KeySpace.StorefrontKeyParts | ozpcenter/model_access.py:57-60 | after `storefront:` the key is the colon-free organisation part, a colon, and the access part |
| KeySpace.SpacesCollide | ozpcenter/model_access.py:54-60 | for any access title, organisations titled `A B` and `AB` get the same key |
| KeySpace.UnderscoreCollides | ozpcenter/model_access.py:54-60 | for any access title, the organisation list `[a, b]` and the single title `a_b` get the same key |
| KeySpace.OrgOrderMatters | ozpcenter/model_access.py:54-60 | for any access title, the organisation lists `[a, b]` and `[b, a]` get different keys |
| Storefront.Insert | ozpcenter/model_access.py:70-71 | inserting into an ascending sequence keeps it ascending and adds exactly the one element |
| Storefront.SortBy | ozpcenter/model_access.py:75-76 | `order_by` yields an ascending permutation of its input |
| Storefront.FilterFeatured | ozpcenter/model_access.py:65-66 | a listing is kept if and only if it is visible and featured, and storage order is kept |
| Storefront.FilterFeaturedCounts | ozpcenter/model_access.py:65-66 | each featured listing is kept exactly as often as it occurs among the visible ones, and no other listing is kept |
| Storefront.FilterFeaturedConcat | ozpcenter/model_access.py:65-66 | filtering a concatenation gives the concatenation of the filtered parts |
| Storefront.FirstFeaturedKept | ozpcenter/model_access.py:65-67 | a featured listing preceded by fewer than 12 featured listings is among the first 12 filtered ones |
| Storefront.SelectFeatured | ozpcenter/model_access.py:65-67 | `filter(is_featured)[:12]` returns `min(featured count, 12)` featured listings in storage order, and contains every featured listing that has fewer than 12 featured listings before it: the first twelve |
| Storefront.SelectLowest | ozpcenter/model_access.py:69-77 | `order_by(f)[:cap]` returns `min(visible, cap)` of the visible listings, ascending by `f`, and none of them has a larger key than a listing left out |
| Storefront.ComputeBundle | ozpcenter/model_access.py:64-83 | the miss-path bundle is well formed (caps 12/24/36, featured only, both ordered parts ascending) and drawn from the visible listings: `featured` is the first twelve featured ones in storage order; `recent` is `min(visible, 24)` of them, approved no later than any left out; `most_popular` is `min(visible, 36)` of them, rated no higher than any left out |
| Metadata.CategoryValuesOf | ozpcenter/model_access.py:107-108 | one row per category, in order, carrying its title and description |
| Metadata.ListingTypeValuesOf | ozpcenter/model_access.py:109-110 | one row per listing type, in order, carrying its title and description |
| Metadata.AgencyValuesOf | ozpcenter/model_access.py:111-112 | one row per agency, in order, carrying its title, short name and icon URL |
| Metadata.ContactTypeValuesOf | ozpcenter/model_access.py:113-114 | one row per contact type, in order, carrying its name and required flag |
| Metadata.IntentValuesOf | ozpcenter/model_access.py:115-116 | one row per intent, in order, carrying its action, media type, label and icon |
| Metadata.AssembleSnapshot | ozpcenter/model_access.py:105-117 | the snapshot is produced if and only if all five queries succeed; otherwise the detail is that of the first failing query in source order |
| ModelAccess.StorefrontRead | ozpcenter/model_access.py:53-88 | a storefront read keeps the cache coherent, returns only well-formed bundles, writes nothing unless it returns data, and writes at most the returned bundle under the user's key |
| ModelAccess.MetadataRead | ozpcenter/model_access.py:102-121 | a metadata read keeps the cache coherent, never raises, writes nothing unless it returns data, and writes at most the returned snapshot under `metadata` |
| ModelAccess.Cache.Get | ozpcenter/model_access.py:61 | `cache.get` returns the stored view exactly when the key is present |
| ModelAccess.Cache.Set | ozpcenter/model_access.py:85 | `cache.set` replaces the one entry and keeps the cache coherent |
| ModelAccess.GetStorefront | ozpcenter/model_access.py:39-88 | the imperative read path returns the reply and leaves the cache contents that `StorefrontRead` gives for the old contents |
| ModelAccess.GetMetadata | ozpcenter/model_access.py:91-121 | the field-by-field read path returns the reply and leaves the cache contents that `MetadataRead` gives for the old contents |
| ModelAccess.StorefrontProfileFault | ozpcenter/model_access.py:53-58 | a failing profile lookup escapes as an exception and leaves the cache unchanged |
| ModelAccess.StorefrontHit | ozpcenter/model_access.py:61-62 | on a hit the cached bundle is returned verbatim and the cache is unchanged |
| ModelAccess.StorefrontMiss | ozpcenter/model_access.py:63-85 | on a successful miss the computed bundle is returned and stored under the user's key, and no other entry changes |
| ModelAccess.StorefrontQueryFault | ozpcenter/model_access.py:86-87 | a query fault on a miss returns `Error getting storefront: <detail>` and leaves the cache unchanged |
| ModelAccess.StorefrontKeepsMetadata | ozpcenter/model_access.py:60-85 | a storefront read never changes the metadata entry |
| ModelAccess.StorefrontRepeat | ozpcenter/model_access.py:61-62 | a second read right after a successful one returns the same bundle from the cache, even if the visible listings changed |
| ModelAccess.StorefrontRetryAfterFault | ozpcenter/model_access.py:86-87 | after a faulted read, the next read recomputes the bundle |
| ModelAccess.StorefrontSharedScope | ozpcenter/model_access.py:54-62 | users with the same normalised organisation titles and access title are served the same cached bundle |
| ModelAccess.MetadataHit | ozpcenter/model_access.py:103-104 | on a hit the cached snapshot is returned verbatim and the cache is unchanged |
| ModelAccess.MetadataMiss | ozpcenter/model_access.py:104-118 | on a successful miss exactly the five projections are returned and stored under `metadata`, and no other entry changes |
| ModelAccess.MetadataQueryFault | ozpcenter/model_access.py:119-120 | a query fault on a miss returns `Error getting metadata: <detail>` and leaves the cache unchanged |
| ModelAccess.MetadataKeepsStorefronts | ozpcenter/model_access.py:102-118 | a metadata read writes no key other than `metadata` |
| ModelAccess.MetadataRepeat | ozpcenter/model_access.py:103-104 | a second metadata read right after a successful one returns the same snapshot from the cache, even if the catalog changed |

## Left out

- KeySpace.MakeKeysafe: only ASCII word characters are modelled. Python 3's `\W` and `lower()` are Unicode-aware: they keep non-ASCII letters and digits and lower-case them. The model deletes every non-ASCII character.
- The storage layer is an oracle whose answers are parameters. This covers the profile lookup by username, the `for_user` visibility rules, `.values()` and queryset laziness. The three storefront queries share one answer for the visible listings.
- The order of listings with equal sort keys is left to the database in the source. The model sorts with a fixed insertion order; the contracts of `SelectLowest` hold for any tie order.
- Listing fields: `avg_rate` is a real number, not a floating-point value. `approved_date` is an integer timestamp and is never null.
- The cache backend: time-to-live, eviction, the memcached key-length limit, and a failure of `cache.get` itself (outside the `try`). The cache is a map with get and set.
- Concurrent misses for the same key, and the last-write-wins race between them. This is concurrency in the serving layer.
- Logging.
- The notification lifecycle lives outside `model_access.py` and is not modelled.
- Timestamp formatting and time-zone handling used by the tests.
