/** `getWebServerHash`: what is fed to the hash, and the label it becomes. */
module Digest {
  import opened WebServerApi
  import opened Sorting
  import opened LabelEncoding

  /** The parts of the specification that are hashed as JSON text. */
  datatype Part =
    | WebImagePart(image: Option<WebImage>)
    | WebImageStreamPart(stream: Option<WebImageStream>)
    | TLSPart(tls: TLSConfig)
    | EnvPart(env: seq<EnvVar>)
    | LogsPart(logs: PersistentLogs)
    | ResourcesPart(resources: string)
    | SecurityPart(context: Option<string>)
    | VolumePart(volume: Option<VolumeSpec>)

  /** SHA-256 and JSON marshalling: any functions. */
  datatype Hashing = Hashing(sha256: string -> Digest, json: Part -> string)

  function BoolText(b: bool): string {
    if b then "true" else "false"
  }

  /** The label pairs of `keys`, in that order, with no separator between pairs. */
  function PairsText(labels: Labels, keys: seq<string>): string
    requires forall k :: k in keys ==> k in labels
  {
    if keys == [] then "" else keys[0] + ":" + labels[keys[0]] + PairsText(labels, keys[1..])
  }

  lemma SortedKeysAreKeys(labels: Labels)
    ensures forall k :: k in SortedKeys(labels.Keys) ==> k in labels
  {
    var keys := SortedKeys(labels.Keys);
    SortByIsSort(Listing(labels.Keys), Itself);
    forall k | k in keys ensures k in labels {
      assert k in multiset(keys) && k in multiset(labels.Keys);
    }
  }

  ghost function LabelSection(labels: Labels): string {
    SortedKeysAreKeys(labels);
    PairsText(labels, SortedKeys(labels.Keys))
  }

  /** What is hashed before the labels, and behind them. */
  function BeforeLabels(w: WebServer): string {
    "ApplicationName:" + w.spec.applicationName
    + "UseSessionClustering:" + BoolText(w.spec.useSessionClustering)
    + "UseInsightsClient:" + BoolText(w.spec.useInsightsClient)
    + "IsNotJWS:" + BoolText(w.spec.isNotJWS)
  }

  function BehindLabels(h: Hashing, w: WebServer): string {
    h.json(WebImagePart(w.spec.webImage))
    + h.json(WebImageStreamPart(w.spec.webImageStream))
    + h.json(TLSPart(w.spec.tls))
    + h.json(EnvPart(w.spec.env))
    + h.json(LogsPart(w.spec.logs))
    + h.json(ResourcesPart(w.spec.podResources))
    + h.json(SecurityPart(w.spec.securityContext))
    + h.json(VolumePart(w.spec.volume))
  }

  ghost function HashInput(h: Hashing, w: WebServer): string {
    BeforeLabels(w) + LabelSection(w.labels) + BehindLabels(h, w)
  }

  ghost function WebServerHash(h: Hashing, w: WebServer): string {
    DigestLabel(h.sha256(HashInput(h, w)))
  }

  function WebImageStreamHash(h: Hashing, w: WebServer): string {
    DigestLabel(h.sha256(h.json(WebImageStreamPart(w.spec.webImageStream))))
  }

  /** The keys of the label map in whatever order the map yields them, sorted, then written pair by pair:
      the text does not depend on that order. */
  method WriteLabels(labels: Labels) returns (text: string)
    ensures text == LabelSection(labels)
  {
    var keys: seq<string> := [];
    var left := labels.Keys;
    while left != {}
      invariant left <= labels.Keys
      invariant multiset(keys) + multiset(left) == multiset(labels.Keys)
      decreases |left|
    {
      var k :| k in left;
      assert multiset(left) == multiset{k} + multiset(left - {k});
      keys := keys + [k];
      left := left - {k};
    }
    SortedKeysOfAnyListing(keys, labels.Keys);
    SortedKeysAreKeys(labels);
    keys := SortBy(keys, Itself);
    text := "";
    var i := 0;
    while i < |keys|
      invariant 0 <= i <= |keys|
      invariant text + PairsText(labels, keys[i..]) == PairsText(labels, keys)
    {
      text := text + (keys[i] + ":" + labels[keys[i]]);
      i := i + 1;
    }
  }

  method GetWebServerHash(h: Hashing, w: WebServer) returns (hash: string)
    ensures hash == WebServerHash(h, w)
  {
    var text := "ApplicationName:" + w.spec.applicationName;
    text := text + "UseSessionClustering:" + BoolText(w.spec.useSessionClustering);
    text := text + "UseInsightsClient:" + BoolText(w.spec.useInsightsClient);
    text := text + "IsNotJWS:" + BoolText(w.spec.isNotJWS);
    assert text == BeforeLabels(w);
    var section := WriteLabels(w.labels);
    text := text + section;
    text := WriteParts(h, w, text);
    hash := DigestLabel(h.sha256(text));
  }

  method WriteParts(h: Hashing, w: WebServer, written: string) returns (text: string)
    ensures text == written + BehindLabels(h, w)
  {
    text := written + h.json(WebImagePart(w.spec.webImage));
    text := text + h.json(WebImageStreamPart(w.spec.webImageStream));
    text := text + h.json(TLSPart(w.spec.tls));
    text := text + h.json(EnvPart(w.spec.env));
    text := text + h.json(LogsPart(w.spec.logs));
    text := text + h.json(ResourcesPart(w.spec.podResources));
    text := text + h.json(SecurityPart(w.spec.securityContext));
    text := text + h.json(VolumePart(w.spec.volume));
  }

  /** The digest depends on the specification and the labels alone, and on no change of the replica count. */
  lemma HashOfUnscaled(h: Hashing, v: WebServer, w: WebServer)
    requires Unscaled(v) == Unscaled(w)
    ensures WebServerHash(h, v) == WebServerHash(h, w)
    ensures WebImageStreamHash(h, v) == WebImageStreamHash(h, w)
  {
  }

  lemma HashIsNeverEmpty(h: Hashing, w: WebServer)
    ensures |WebServerHash(h, w)| == 45 && IsLabelValue(WebServerHash(h, w))
  {
    DigestLabelIsLegalAndLossless(h.sha256(HashInput(h, w)));
  }

  /** Pairs are written without a separator, so the digest does not tell all label maps apart: moving the value
      of one label to the front of the next key is not seen by any hash function. */
  lemma DigestDoesNotSeparateLabels(h: Hashing, w: WebServer, k: string, v: string, l: string, x: string)
    requires Leq(k, l) && k != l && Leq(k, v + l) && k != v + l
    ensures WebServerHash(h, w.(labels := map[k := v, l := x])) ==
            WebServerHash(h, w.(labels := map[k := "", v + l := x]))
  {
    var before, after := map[k := v, l := x], map[k := "", v + l := x];
    assert before.Keys == {k, l} && after.Keys == {k, v + l};
    SectionOfTwo(before, k, l);
    SectionOfTwo(after, k, v + l);
    assert k + ":" + v + l + ":" + x == k + ":" + "" + (v + l) + ":" + x;
    EqualSectionsHashAlike(h, w, before, after);
  }

  /** For instance `a: b, c: d` and `a: "", bc: d`, both legal. */
  lemma TwoLegalLabelMapsHashAlike(h: Hashing, w: WebServer)
    ensures map["a" := "b", "c" := "d"] != map["a" := "", "bc" := "d"]
    ensures WebServerHash(h, w.(labels := map["a" := "b", "c" := "d"])) ==
            WebServerHash(h, w.(labels := map["a" := "", "bc" := "d"]))
  {
    assert "a"[0] < "c"[0] && "a"[0] < "bc"[0];
    assert "b" + "c" == "bc";
    assert map["a" := "b", "c" := "d"]["a"] != map["a" := "", "bc" := "d"]["a"];
    DigestDoesNotSeparateLabels(h, w, "a", "b", "c", "d");
  }

  lemma EqualSectionsHashAlike(h: Hashing, w: WebServer, v: Labels, u: Labels)
    requires LabelSection(v) == LabelSection(u)
    ensures WebServerHash(h, w.(labels := v)) == WebServerHash(h, w.(labels := u))
  {
  }

  lemma SortedPair(k: string, l: string)
    requires Leq(k, l)
    ensures SortBy([k, l], Itself) == [k, l]
  {
    assert [k, l][1..] == [l];
    assert SortBy([l], Itself) == [l];
  }

  lemma PairsOfTwo(labels: Labels, k: string, l: string)
    requires k in labels && l in labels
    ensures PairsText(labels, [k, l]) == k + ":" + labels[k] + l + ":" + labels[l]
  {
    assert [k, l][1..] == [l] && [l][1..] == [];
    assert PairsText(labels, [l]) == l + ":" + labels[l] + "";
    assert k + ":" + labels[k] + (l + ":" + labels[l]) == k + ":" + labels[k] + l + ":" + labels[l];
  }

  lemma SectionOfTwo(labels: Labels, k: string, l: string)
    requires labels.Keys == {k, l} && k != l && Leq(k, l)
    ensures LabelSection(labels) == k + ":" + labels[k] + l + ":" + labels[l]
  {
    assert Lists([k, l], labels.Keys);
    SortedKeysOfAnyListing([k, l], labels.Keys);
    SortedPair(k, l);
    PairsOfTwo(labels, k, l);
  }
}
