/** What the digest sees of the labels: the text between the colons of their section, and no more. */
module LabelText {
  import opened WebServerApi
  import opened Sorting
  import opened LabelEncoding
  import opened Digest

  predicate NoColon(s: string) {
    ':' !in s
  }

  /** As Kubernetes demands of keys and values. */
  ghost predicate Legal(labels: Labels) {
    forall k :: k in labels ==> NoColon(k) && NoColon(labels[k])
  }

  /** The text between the colons, `before` standing in front of the first key. */
  function TokensAfter(before: string, labels: Labels, keys: seq<string>): (tokens: seq<string>)
    requires forall k :: k in keys ==> k in labels
    ensures |tokens| == |keys| + 1
    decreases |keys|
  {
    if keys == [] then [before] else [before + keys[0]] + TokensAfter(labels[keys[0]], labels, keys[1..])
  }

  /** The first key; each value with the next key behind it; the last value. */
  ghost function Tokens(labels: Labels): seq<string> {
    SortedKeysAreKeys(labels);
    TokensAfter("", labels, SortedKeys(labels.Keys))
  }

  function Join(tokens: seq<string>): string
    requires tokens != []
  {
    if |tokens| == 1 then tokens[0] else tokens[0] + ":" + Join(tokens[1..])
  }

  lemma Regroup(before: string, key: string, value: string, rest: string)
    ensures before + (key + ":" + value + rest) == (before + key) + ":" + (value + rest)
  {
  }

  lemma {:induction false} PairsAreTokens(before: string, labels: Labels, keys: seq<string>)
    requires forall k :: k in keys ==> k in labels
    ensures before + PairsText(labels, keys) == Join(TokensAfter(before, labels, keys))
    decreases |keys|
  {
    if keys != [] {
      var value, rest := labels[keys[0]], keys[1..];
      PairsAreTokens(value, labels, rest);
      assert TokensAfter(before, labels, keys)[1..] == TokensAfter(value, labels, rest);
      Regroup(before, keys[0], value, PairsText(labels, rest));
    }
  }

  lemma {:induction false} TokensHoldNoColon(before: string, labels: Labels, keys: seq<string>)
    requires (forall k :: k in keys ==> k in labels) && Legal(labels) && NoColon(before)
    ensures forall i :: 0 <= i <= |keys| ==> NoColon(TokensAfter(before, labels, keys)[i])
    decreases |keys|
  {
    if keys != [] {
      TokensHoldNoColon(labels[keys[0]], labels, keys[1..]);
      assert keys[0] in keys;
    }
  }

  /** Up to its first colon a text is determined. */
  lemma FirstColon(a: string, x: string, b: string, y: string)
    requires NoColon(a) && NoColon(b) && a + ":" + x == b + ":" + y
    ensures a == b && x == y
  {
    var s, t := a + ":" + x, b + ":" + y;
    assert s[|a|] == ':' && t[|b|] == ':';
    assert forall i :: 0 <= i < |a| ==> s[i] == a[i];
    assert forall i :: 0 <= i < |b| ==> t[i] == b[i];
    assert |a| == |b|;
    assert a == s[..|a|] && b == t[..|b|] && x == s[|a| + 1..] && y == t[|b| + 1..];
  }

  ghost predicate Colonless(tokens: seq<string>) {
    forall i :: 0 <= i < |tokens| ==> NoColon(tokens[i])
  }

  lemma ColonsMeanSeveral(tokens: seq<string>)
    requires tokens != [] && Colonless(tokens)
    ensures |tokens| > 1 <==> ':' in Join(tokens)
  {
    if |tokens| > 1 {
      assert Join(tokens)[|tokens[0]|] == ':';
    }
  }

  lemma {:induction false} JoinIsInjective(a: seq<string>, b: seq<string>)
    requires a != [] && b != [] && Colonless(a) && Colonless(b) && Join(a) == Join(b)
    ensures a == b
    decreases |a|
  {
    if |a| > 1 && |b| > 1 {
      FirstColon(a[0], Join(a[1..]), b[0], Join(b[1..]));
      JoinIsInjective(a[1..], b[1..]);
      assert a == [a[0]] + a[1..] && b == [b[0]] + b[1..];
    } else {
      ColonsMeanSeveral(a);
      ColonsMeanSeveral(b);
    }
  }

  /** Two legal label maps have the same section exactly when they have the same tokens. */
  lemma SectionsAgreeOnTokens(u: Labels, v: Labels)
    requires Legal(u) && Legal(v)
    ensures LabelSection(u) == LabelSection(v) <==> Tokens(u) == Tokens(v)
  {
    SectionIsJoined(u);
    SectionIsJoined(v);
    if LabelSection(u) == LabelSection(v) {
      JoinIsInjective(Tokens(u), Tokens(v));
    }
  }

  lemma SectionIsJoined(labels: Labels)
    requires Legal(labels)
    ensures LabelSection(labels) == Join(Tokens(labels)) && Colonless(Tokens(labels))
  {
    SortedKeysAreKeys(labels);
    var keys := SortedKeys(labels.Keys);
    PairsAreTokens("", labels, keys);
    TokensHoldNoColon("", labels, keys);
    assert "" + PairsText(labels, keys) == PairsText(labels, keys);
  }

  lemma {:induction false} SameKeysSameValues(b: string, u: Labels, c: string, v: Labels, keys: seq<string>)
    requires forall k :: k in keys ==> k in u && k in v
    requires TokensAfter(b, u, keys) == TokensAfter(c, v, keys)
    ensures b == c && forall k :: k in keys ==> u[k] == v[k]
    decreases |keys|
  {
    var s, t := TokensAfter(b, u, keys), TokensAfter(c, v, keys);
    assert s[0] == t[0];
    if keys != [] {
      assert b == s[0][..|s[0]| - |keys[0]|] && c == t[0][..|t[0]| - |keys[0]|];
      assert s[1..] == TokensAfter(u[keys[0]], u, keys[1..]) && t[1..] == TokensAfter(v[keys[0]], v, keys[1..]);
      SameKeysSameValues(u[keys[0]], u, v[keys[0]], v, keys[1..]);
      assert keys == [keys[0]] + keys[1..];
    }
  }

  /** So label maps of the same keys are told apart: an edit of values alone is always seen. */
  lemma EqualKeysAreToldApart(u: Labels, v: Labels)
    requires Legal(u) && Legal(v) && u.Keys == v.Keys
    ensures LabelSection(u) == LabelSection(v) <==> u == v
  {
    SectionsAgreeOnTokens(u, v);
    if Tokens(u) == Tokens(v) {
      SortedKeysAreKeys(u);
      SortedKeysAreKeys(v);
      var keys := SortedKeys(u.Keys);
      SameKeysSameValues("", u, "", v, keys);
      forall k | k in u ensures u[k] == v[k] {
        KeyIsListed(u.Keys, k);
      }
    }
  }

  lemma KeyIsListed(keys: set<string>, k: string)
    requires k in keys
    ensures k in SortedKeys(keys)
  {
    SortByIsSort(Listing(keys), Itself);
    assert k in multiset(SortedKeys(keys));
  }

  lemma Between(before: string, x: string, y: string, behind: string)
    ensures before + x + behind == before + y + behind <==> x == y
  {
    if before + x + behind == before + y + behind {
      var s, t := before + x + behind, before + y + behind;
      assert x == s[|before|..|s| - |behind|] && y == t[|before|..|t| - |behind|];
    }
  }

  /** The digest of a resource tells two legal label maps apart exactly when their tokens differ, as far as the hash
      function tells the two inputs apart. */
  lemma DigestSeparatesTokens(h: Hashing, w: WebServer, u: Labels, v: Labels)
    requires Legal(u) && Legal(v)
    requires var x, y := HashInput(h, w.(labels := u)), HashInput(h, w.(labels := v));
             h.sha256(x) == h.sha256(y) ==> x == y
    ensures WebServerHash(h, w.(labels := u)) == WebServerHash(h, w.(labels := v)) <==> Tokens(u) == Tokens(v)
  {
    var a, b := w.(labels := u), w.(labels := v);
    SameFrame(h, w, u);
    SameFrame(h, w, v);
    Between(BeforeLabels(w), LabelSection(u), LabelSection(v), BehindLabels(h, w));
    SectionsAgreeOnTokens(u, v);
    DistinctDigestsHaveDistinctLabels(h.sha256(HashInput(h, a)), h.sha256(HashInput(h, b)));
  }

  lemma SameFrame(h: Hashing, w: WebServer, labels: Labels)
    ensures HashInput(h, w.(labels := labels)) == BeforeLabels(w) + LabelSection(labels) + BehindLabels(h, w)
  {
  }
}
