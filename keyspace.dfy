/** Cache key derivation: `make_keysafe` and the storefront key built from a
    user's organisation titles and access-control title.

    Characters are modelled over ASCII: a word character (Python's `\w`) is a
    letter, a digit or the underscore, and lower-casing maps 'A'..'Z' to
    'a'..'z'. Every other character counts as a non-word character. */
module KeySpace {
  import opened Common

  predicate IsWordChar(c: char)
  {
    ('a' <= c <= 'z') || ('A' <= c <= 'Z') || ('0' <= c <= '9') || c == '_'
  }

  predicate IsUpper(c: char)
  {
    'A' <= c <= 'Z'
  }

  /** `str.lower()` on one ASCII character. */
  function ToLower(c: char): (d: char)
    ensures !IsUpper(d)
    ensures IsWordChar(d) <==> IsWordChar(c)
    ensures !IsUpper(c) ==> d == c
  {
    if IsUpper(c) then (c as int + 32) as char else c
  }

  /** `str.lower()`: every character is lower-cased, none is added or dropped. */
  function LowerAll(s: string): (r: string)
    ensures |r| == |s|
    ensures forall i :: 0 <= i < |s| ==> r[i] == ToLower(s[i])
  {
    if s == [] then [] else [ToLower(s[0])] + LowerAll(s[1..])
  }

  /** Length of the maximal run of non-word characters at the start of `s`:
      what the pattern `\W+` matches greedily there (0 when it does not match). */
  function NonWordRun(s: string): (n: nat)
    ensures n <= |s|
    ensures forall i :: 0 <= i < n ==> !IsWordChar(s[i])
    ensures n < |s| ==> IsWordChar(s[n])
  {
    if s == [] || IsWordChar(s[0]) then 0 else 1 + NonWordRun(s[1..])
  }

  /** `re.sub(r'\W+', '', s)`: scanning left to right, a word character is
      copied and a maximal run of non-word characters is replaced by nothing. */
  function SubstituteRuns(s: string): (r: string)
    ensures |r| <= |s|
    ensures forall i :: 0 <= i < |r| ==> IsWordChar(r[i])
    decreases |s|
  {
    if s == [] then []
    else if IsWordChar(s[0]) then [s[0]] + SubstituteRuns(s[1..])
    else SubstituteRuns(s[NonWordRun(s)..])
  }

  /** Reference definition: keep exactly the word characters, in order. */
  function StripNonWord(s: string): string
  {
    if s == [] then []
    else if IsWordChar(s[0]) then [s[0]] + StripNonWord(s[1..])
    else StripNonWord(s[1..])
  }

  /** A string that is already safe to use as (part of) a cache key. */
  predicate IsKeysafe(s: string)
  {
    forall i :: 0 <= i < |s| ==> IsWordChar(s[i]) && !IsUpper(s[i])
  }

  /** `make_keysafe`: delete every run of non-word characters, then lower-case.
      The result holds only lower-case letters, digits and underscores, and is
      never longer than the input. */
  function MakeKeysafe(s: string): (r: string)
    ensures IsKeysafe(r)
    ensures |r| <= |s|
  {
    LowerAll(SubstituteRuns(s))
  }

  // ---------------------------------------------------------------------------
  // Properties of make_keysafe

  lemma {:induction false} StripSkipsNonWordPrefix(s: string, n: nat)
    requires n <= |s|
    requires forall i :: 0 <= i < n ==> !IsWordChar(s[i])
    ensures StripNonWord(s) == StripNonWord(s[n..])
  {
    if n > 0 {
      StripSkipsNonWordPrefix(s[1..], n - 1);
      assert s[1..][n - 1..] == s[n..];
    }
  }

  /** Deleting maximal runs of non-word characters is the same as deleting
      each non-word character on its own. */
  lemma {:induction false} SubstituteRunsIsStrip(s: string)
    ensures SubstituteRuns(s) == StripNonWord(s)
    decreases |s|
  {
    if s != [] {
      if IsWordChar(s[0]) {
        SubstituteRunsIsStrip(s[1..]);
      } else {
        var n := NonWordRun(s);
        SubstituteRunsIsStrip(s[n..]);
        StripSkipsNonWordPrefix(s, n);
      }
    }
  }

  lemma LowerAllConcat(a: string, b: string)
    ensures LowerAll(a + b) == LowerAll(a) + LowerAll(b)
  {
  }

  lemma {:induction false} StripConcat(a: string, b: string)
    ensures StripNonWord(a + b) == StripNonWord(a) + StripNonWord(b)
  {
    if a != [] {
      StripConcat(a[1..], b);
      assert (a + b)[1..] == a[1..] + b;
    } else {
      assert a + b == b;
    }
  }

  /** `make_keysafe` equals lower-casing the word characters kept by the
      reference filter. */
  lemma MakeKeysafeIsLoweredStrip(s: string)
    ensures MakeKeysafe(s) == LowerAll(StripNonWord(s))
  {
    SubstituteRunsIsStrip(s);
  }

  /** Over ASCII, lower-casing before or after the deletion gives the same key:
      lower-casing never turns a word character into a non-word one or back. */
  lemma {:induction false} LowerThenStripIsKeysafe(s: string)
    ensures StripNonWord(LowerAll(s)) == MakeKeysafe(s)
  {
    MakeKeysafeIsLoweredStrip(s);
    if s != [] {
      LowerThenStripIsKeysafe(s[1..]);
      MakeKeysafeIsLoweredStrip(s[1..]);
      assert LowerAll(s) == [ToLower(s[0])] + LowerAll(s[1..]);
      assert LowerAll(s)[1..] == LowerAll(s[1..]);
      if IsWordChar(s[0]) {
        assert StripNonWord(s) == [s[0]] + StripNonWord(s[1..]);
        LowerAllConcat([s[0]], StripNonWord(s[1..]));
      }
    }
  }

  /** The key of a concatenation is the concatenation of the keys. */
  lemma MakeKeysafeConcat(a: string, b: string)
    ensures MakeKeysafe(a + b) == MakeKeysafe(a) + MakeKeysafe(b)
  {
    MakeKeysafeIsLoweredStrip(a + b);
    MakeKeysafeIsLoweredStrip(a);
    MakeKeysafeIsLoweredStrip(b);
    StripConcat(a, b);
    LowerAllConcat(StripNonWord(a), StripNonWord(b));
  }

  /** A string is left unchanged by `make_keysafe` exactly when it is keysafe. */
  lemma {:induction false} KeysafeFixpoint(s: string)
    ensures MakeKeysafe(s) == s <==> IsKeysafe(s)
  {
    MakeKeysafeIsLoweredStrip(s);
    if IsKeysafe(s) && s != [] {
      KeysafeFixpoint(s[1..]);
      MakeKeysafeIsLoweredStrip(s[1..]);
      assert StripNonWord(s) == [s[0]] + StripNonWord(s[1..]);
      LowerAllConcat([s[0]], StripNonWord(s[1..]));
      assert s == [s[0]] + s[1..];
    }
  }

  /** `make_keysafe` is idempotent. */
  lemma MakeKeysafeIdempotent(s: string)
    ensures MakeKeysafe(MakeKeysafe(s)) == MakeKeysafe(s)
  {
    KeysafeFixpoint(MakeKeysafe(s));
  }

  /** The key is obtained from the lower-cased input by deleting characters. */
  lemma {:induction false} MakeKeysafeIsSubsequence(s: string)
    ensures IsSubsequence(MakeKeysafe(s), LowerAll(s))
  {
    MakeKeysafeIsLoweredStrip(s);
    if s != [] {
      MakeKeysafeIsSubsequence(s[1..]);
      MakeKeysafeIsLoweredStrip(s[1..]);
      var k, l := MakeKeysafe(s), LowerAll(s);
      assert l[1..] == LowerAll(s[1..]);
      if IsWordChar(s[0]) {
        assert StripNonWord(s) == [s[0]] + StripNonWord(s[1..]);
        LowerAllConcat([s[0]], StripNonWord(s[1..]));
        assert k[0] == l[0] && k[1..] == MakeKeysafe(s[1..]);
      } else {
        assert k == MakeKeysafe(s[1..]);
        assert k != [] ==> IsWordChar(k[0]) && !IsWordChar(l[0]);
      }
    }
  }

  // ---------------------------------------------------------------------------
  // The storefront key

  const StorefrontPrefix: string := "storefront:"
  const MetadataKey: string := "metadata"

  /** The organisation part of the key before normalisation: each title in the
      order the query returns them, followed by '_' (no sorting, no
      de-duplication). */
  function OrgsSegment(titles: seq<string>): string
  {
    if titles == [] then ""
    else OrgsSegment(titles[..|titles| - 1]) + titles[|titles| - 1] + "_"
  }

  /** The loop that accumulates `orgs` one title at a time. */
  method JoinOrgTitles(titles: seq<string>) returns (orgs: string)
    ensures orgs == OrgsSegment(titles)
  {
    orgs := "";
    var i := 0;
    while i < |titles|
      invariant 0 <= i <= |titles|
      invariant orgs == OrgsSegment(titles[..i])
    {
      assert titles[..i + 1][..i] == titles[..i];
      orgs := orgs + titles[i] + "_";
      i := i + 1;
    }
    assert titles[..|titles|] == titles;
  }

  /** Each title contributes its own key followed by '_': the normalised
      organisation part is the concatenation of those pieces. */
  function KeysafeTitles(titles: seq<string>): string
  {
    if titles == [] then ""
    else KeysafeTitles(titles[..|titles| - 1]) + MakeKeysafe(titles[|titles| - 1]) + "_"
  }

  lemma {:induction false} OrgsSegmentKeysafe(titles: seq<string>)
    ensures MakeKeysafe(OrgsSegment(titles)) == KeysafeTitles(titles)
  {
    if titles != [] {
      var init, last := titles[..|titles| - 1], titles[|titles| - 1];
      OrgsSegmentKeysafe(init);
      MakeKeysafeConcat(OrgsSegment(init) + last, "_");
      MakeKeysafeConcat(OrgsSegment(init), last);
      KeysafeFixpoint("_");
    }
  }

  /** Number of occurrences of `c` in `s`. */
  function CountOf(s: string, c: char): nat
  {
    if s == [] then 0 else (if s[0] == c then 1 else 0) + CountOf(s[1..], c)
  }

  lemma {:induction false} CountOfConcat(a: string, b: string, c: char)
    ensures CountOf(a + b, c) == CountOf(a, c) + CountOf(b, c)
  {
    if a != [] {
      CountOfConcat(a[1..], b, c);
      assert (a + b)[1..] == a[1..] + b;
    } else {
      assert a + b == b;
    }
  }

  lemma {:induction false} KeysafeHasNoColon(s: string)
    requires IsKeysafe(s)
    ensures CountOf(s, ':') == 0
  {
    if s != [] {
      KeysafeHasNoColon(s[1..]);
    }
  }

  /** `'storefront:%s:%s' % (orgs_key, access_control_key)`. The key has exactly
      two colons (the normalised parts contain none) and cannot be the metadata
      key. */
  function StorefrontKey(orgTitles: seq<string>, accessTitle: string): (key: string)
    ensures CountOf(key, ':') == 2
    ensures |key| >= |StorefrontPrefix| + 1 && key[..|StorefrontPrefix|] == StorefrontPrefix
    ensures key != MetadataKey
  {
    var orgsKey, accessKey := MakeKeysafe(OrgsSegment(orgTitles)), MakeKeysafe(accessTitle);
    KeysafeHasNoColon(orgsKey);
    KeysafeHasNoColon(accessKey);
    KeyColonCount(orgsKey, accessKey);
    var key := StorefrontPrefix + orgsKey + ":" + accessKey;
    assert key[0] == 's' != MetadataKey[0];
    key
  }

  lemma KeyColonCount(orgsKey: string, accessKey: string)
    requires CountOf(orgsKey, ':') == 0 && CountOf(accessKey, ':') == 0
    ensures CountOf(StorefrontPrefix + orgsKey + ":" + accessKey, ':') == 2
  {
    CountOfConcat(StorefrontPrefix, orgsKey, ':');
    CountOfConcat(StorefrontPrefix + orgsKey, ":", ':');
    CountOfConcat(StorefrontPrefix + orgsKey + ":", accessKey, ':');
  }

  /** Splitting at the first colon is unambiguous when the head has no colon. */
  lemma SplitAtColon(x1: string, y1: string, x2: string, y2: string)
    requires CountOf(x1, ':') == 0 && CountOf(x2, ':') == 0
    requires x1 + ":" + y1 == x2 + ":" + y2
    ensures x1 == x2 && y1 == y2
  {
    if |x1| < |x2| {
      assert (x1 + ":" + y1)[|x1|] == ':';
      assert (x2 + ":" + y2)[|x1|] == x2[|x1|];
      ColonAt(x2, |x1|);
    } else if |x2| < |x1| {
      assert (x2 + ":" + y2)[|x2|] == ':';
      assert (x1 + ":" + y1)[|x2|] == x1[|x2|];
      ColonAt(x1, |x2|);
    } else {
      assert x1 == (x1 + ":" + y1)[..|x1|];
      assert x2 == (x2 + ":" + y2)[..|x2|];
      assert y1 == (x1 + ":" + y1)[|x1| + 1..];
      assert y2 == (x2 + ":" + y2)[|x2| + 1..];
    }
  }

  lemma {:induction false} ColonAt(s: string, i: nat)
    requires i < |s| && s[i] == ':'
    ensures CountOf(s, ':') > 0
  {
    if i > 0 {
      ColonAt(s[1..], i - 1);
    }
  }

  /** After the prefix, a storefront key is its colon-free organisation part,
      a colon, and its access part. */
  lemma StorefrontKeyParts(orgs: seq<string>, access: string)
    ensures StorefrontKey(orgs, access)[|StorefrontPrefix|..]
            == MakeKeysafe(OrgsSegment(orgs)) + ":" + MakeKeysafe(access)
    ensures CountOf(MakeKeysafe(OrgsSegment(orgs)), ':') == 0
  {
    var o, a := MakeKeysafe(OrgsSegment(orgs)), MakeKeysafe(access);
    var k := StorefrontPrefix + o + ":" + a;
    assert StorefrontKey(orgs, access) == k;
    assert k[|StorefrontPrefix|..] == o + ":" + a;
    KeysafeHasNoColon(o);
  }

  /** Two users share a storefront key exactly when their normalised
      organisation parts and their normalised access-control titles agree. */
  lemma StorefrontKeyInjective(orgs1: seq<string>, access1: string, orgs2: seq<string>, access2: string)
    ensures StorefrontKey(orgs1, access1) == StorefrontKey(orgs2, access2)
        <==> MakeKeysafe(OrgsSegment(orgs1)) == MakeKeysafe(OrgsSegment(orgs2))
             && MakeKeysafe(access1) == MakeKeysafe(access2)
  {
    if StorefrontKey(orgs1, access1) == StorefrontKey(orgs2, access2) {
      StorefrontKeyParts(orgs1, access1);
      StorefrontKeyParts(orgs2, access2);
      SplitAtColon(MakeKeysafe(OrgsSegment(orgs1)), MakeKeysafe(access1),
                   MakeKeysafe(OrgsSegment(orgs2)), MakeKeysafe(access2));
    }
  }

  /** Keys collide for distinct organisation lists: spaces and punctuation
      vanish. */
  lemma SpacesCollide(access: string)
    ensures StorefrontKey(["A B"], access) == StorefrontKey(["AB"], access)
  {
    assert OrgsSegment(["A B"]) == "A B_";
    assert OrgsSegment(["AB"]) == "AB_";
    MakeKeysafeIsLoweredStrip("A B_");
    MakeKeysafeIsLoweredStrip("AB_");
    assert StripNonWord("A B_") == "AB_";
  }

  /** The underscore of a title is indistinguishable from the separator. */
  lemma UnderscoreCollides(access: string)
    ensures StorefrontKey(["a", "b"], access) == StorefrontKey(["a_b"], access)
  {
    assert ["a", "b"][..1] == ["a"];
    assert OrgsSegment(["a", "b"]) == "a_b_";
    assert OrgsSegment(["a_b"]) == "a_b_";
  }

  /** The order in which the organisations are returned matters. */
  lemma OrgOrderMatters(access: string)
    ensures StorefrontKey(["a", "b"], access) != StorefrontKey(["b", "a"], access)
  {
    assert ["a", "b"][..1] == ["a"];
    assert ["b", "a"][..1] == ["b"];
    assert OrgsSegment(["a", "b"]) == "a_b_";
    assert OrgsSegment(["b", "a"]) == "b_a_";
    KeysafeFixpoint("a_b_");
    KeysafeFixpoint("b_a_");
    KeyOrgsHead(["a", "b"], access);
    KeyOrgsHead(["b", "a"], access);
  }

  /** The character right after the prefix is the first one of the normalised
      organisation part. */
  lemma KeyOrgsHead(orgs: seq<string>, access: string)
    requires MakeKeysafe(OrgsSegment(orgs)) != ""
    ensures StorefrontKey(orgs, access)[|StorefrontPrefix|] == MakeKeysafe(OrgsSegment(orgs))[0]
  {
    StorefrontKeyParts(orgs, access);
  }
}
