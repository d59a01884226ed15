/** What the digests tell apart in a specification, field by field. */
module DigestFields {
  import opened WebServerApi
  import opened LabelEncoding
  import opened Digest

  /** The fields of the specification that `getWebServerHash` hashes: all of them but the replica count. */
  datatype Field =
    | ApplicationName | SessionClustering | InsightsClient | NotJWS
    | ImageField | StreamField | TLSField | EnvField | LogsField | ResourcesField | SecurityField | VolumeField

  /** The two specifications agree in everything but that field and the replica count. */
  predicate AgreeBut(f: Field, v: Spec, w: Spec) {
    match f
    case ApplicationName => v == w.(applicationName := v.applicationName, replicas := v.replicas)
    case SessionClustering => v == w.(useSessionClustering := v.useSessionClustering, replicas := v.replicas)
    case InsightsClient => v == w.(useInsightsClient := v.useInsightsClient, replicas := v.replicas)
    case NotJWS => v == w.(isNotJWS := v.isNotJWS, replicas := v.replicas)
    case ImageField => v == w.(webImage := v.webImage, replicas := v.replicas)
    case StreamField => v == w.(webImageStream := v.webImageStream, replicas := v.replicas)
    case TLSField => v == w.(tls := v.tls, replicas := v.replicas)
    case EnvField => v == w.(env := v.env, replicas := v.replicas)
    case LogsField => v == w.(logs := v.logs, replicas := v.replicas)
    case ResourcesField => v == w.(podResources := v.podResources, replicas := v.replicas)
    case SecurityField => v == w.(securityContext := v.securityContext, replicas := v.replicas)
    case VolumeField => v == w.(volume := v.volume, replicas := v.replicas)
  }

  predicate SameField(f: Field, v: Spec, w: Spec) {
    match f
    case ApplicationName => v.applicationName == w.applicationName
    case SessionClustering => v.useSessionClustering == w.useSessionClustering
    case InsightsClient => v.useInsightsClient == w.useInsightsClient
    case NotJWS => v.isNotJWS == w.isNotJWS
    case ImageField => v.webImage == w.webImage
    case StreamField => v.webImageStream == w.webImageStream
    case TLSField => v.tls == w.tls
    case EnvField => v.env == w.env
    case LogsField => v.logs == w.logs
    case ResourcesField => v.podResources == w.podResources
    case SecurityField => v.securityContext == w.securityContext
    case VolumeField => v.volume == w.volume
  }

  /** Marshalling tells the two values of the field apart; the name and the flags are written as they are. */
  predicate Told(h: Hashing, f: Field, v: Spec, w: Spec) {
    match f
    case ApplicationName | SessionClustering | InsightsClient | NotJWS => true
    case ImageField => h.json(WebImagePart(v.webImage)) == h.json(WebImagePart(w.webImage)) ==> v.webImage == w.webImage
    case StreamField =>
      h.json(WebImageStreamPart(v.webImageStream)) == h.json(WebImageStreamPart(w.webImageStream)) ==>
        v.webImageStream == w.webImageStream
    case TLSField => h.json(TLSPart(v.tls)) == h.json(TLSPart(w.tls)) ==> v.tls == w.tls
    case EnvField => h.json(EnvPart(v.env)) == h.json(EnvPart(w.env)) ==> v.env == w.env
    case LogsField => h.json(LogsPart(v.logs)) == h.json(LogsPart(w.logs)) ==> v.logs == w.logs
    case ResourcesField =>
      h.json(ResourcesPart(v.podResources)) == h.json(ResourcesPart(w.podResources)) ==>
        v.podResources == w.podResources
    case SecurityField =>
      h.json(SecurityPart(v.securityContext)) == h.json(SecurityPart(w.securityContext)) ==>
        v.securityContext == w.securityContext
    case VolumeField => h.json(VolumePart(v.volume)) == h.json(VolumePart(w.volume)) ==> v.volume == w.volume
  }

  /** The hash function does not collide on these two texts. */
  predicate NoCollision(h: Hashing, x: string, y: string) {
    h.sha256(x) == h.sha256(y) ==> x == y
  }

  /* ---------- texts put together from parts ---------- */

  function Concat(parts: seq<string>): string {
    if parts == [] then "" else parts[0] + Concat(parts[1..])
  }

  lemma {:induction false} ConcatAppend(a: seq<string>, b: seq<string>)
    ensures Concat(a + b) == Concat(a) + Concat(b)
  {
    if a == [] {
      assert a + b == b;
    } else {
      assert (a + b)[1..] == a[1..] + b;
      ConcatAppend(a[1..], b);
    }
  }

  lemma SameFront(before: string, x: string, y: string)
    ensures before + x == before + y <==> x == y
  {
    if before + x == before + y {
      assert x == (before + x)[|before|..] && y == (before + y)[|before|..];
    }
  }

  lemma SameEnd(x: string, y: string, behind: string)
    ensures x + behind == y + behind <==> x == y
  {
    if x + behind == y + behind {
      assert |x| == |y|;
      assert x == (x + behind)[..|x|] && y == (y + behind)[..|y|];
    }
  }

  /** Texts of parts that agree but for one are equal exactly when that one is. */
  lemma {:induction false} OnePartMatters(a: seq<string>, b: seq<string>, i: nat)
    requires i < |a| == |b| && forall j :: 0 <= j < |a| && j != i ==> a[j] == b[j]
    ensures Concat(a) == Concat(b) <==> a[i] == b[i]
  {
    if i == 0 {
      assert a[1..] == b[1..];
      SameEnd(a[0], b[0], Concat(a[1..]));
    } else {
      OnePartMatters(a[1..], b[1..], i - 1);
      SameFront(a[0], Concat(a[1..]), Concat(b[1..]));
    }
  }

  /* ---------- the parts of the digest's input ---------- */

  function Texts(w: Spec): seq<string> {
    ["ApplicationName:" + w.applicationName,
     "UseSessionClustering:" + BoolText(w.useSessionClustering),
     "UseInsightsClient:" + BoolText(w.useInsightsClient),
     "IsNotJWS:" + BoolText(w.isNotJWS)]
  }

  function Marshalled(h: Hashing, w: Spec): seq<string> {
    [h.json(WebImagePart(w.webImage)), h.json(WebImageStreamPart(w.webImageStream)), h.json(TLSPart(w.tls)),
     h.json(EnvPart(w.env)), h.json(LogsPart(w.logs)), h.json(ResourcesPart(w.podResources)),
     h.json(SecurityPart(w.securityContext)), h.json(VolumePart(w.volume))]
  }

  ghost function Parts(h: Hashing, w: WebServer): seq<string> {
    Texts(w.spec) + ([LabelSection(w.labels)] + Marshalled(h, w.spec))
  }

  lemma ConcatTwo(a: string, b: string)
    ensures Concat([a, b]) == a + b
  {
    assert [a, b][1..] == [b] && [b][1..] == [];
    assert Concat([b]) == b + "";
  }

  lemma ConcatFour(a: string, b: string, c: string, d: string)
    ensures Concat([a, b, c, d]) == a + b + c + d
  {
    ConcatTwo(a, b);
    ConcatTwo(c, d);
    ConcatAppend([a, b], [c, d]);
    assert [a, b] + [c, d] == [a, b, c, d];
    assert (a + b) + (c + d) == a + b + c + d;
  }

  lemma ConcatEight(a: string, b: string, c: string, d: string, e: string, f: string, g: string, i: string)
    ensures Concat([a, b, c, d, e, f, g, i]) == a + b + c + d + e + f + g + i
  {
    ConcatFour(a, b, c, d);
    ConcatFour(e, f, g, i);
    ConcatAppend([a, b, c, d], [e, f, g, i]);
    assert [a, b, c, d] + [e, f, g, i] == [a, b, c, d, e, f, g, i];
    assert (a + b + c + d) + (e + f + g + i) == a + b + c + d + e + f + g + i;
  }

  lemma TextsComeFirst(w: WebServer)
    ensures BeforeLabels(w) == Concat(Texts(w.spec))
  {
    var t := Texts(w.spec);
    ConcatFour(t[0], t[1], t[2], t[3]);
    assert t == [t[0], t[1], t[2], t[3]];
    FlattenFour(t[0], "UseSessionClustering:", BoolText(w.spec.useSessionClustering),
                "UseInsightsClient:", BoolText(w.spec.useInsightsClient), "IsNotJWS:", BoolText(w.spec.isNotJWS));
  }

  lemma FlattenFour(a: string, b: string, c: string, d: string, e: string, f: string, g: string)
    ensures a + b + c + d + e + f + g == a + (b + c) + (d + e) + (f + g)
  {
  }

  lemma MarshalledComeLast(h: Hashing, w: WebServer)
    ensures BehindLabels(h, w) == Concat(Marshalled(h, w.spec))
  {
    var t := Marshalled(h, w.spec);
    ConcatEight(t[0], t[1], t[2], t[3], t[4], t[5], t[6], t[7]);
    assert t == [t[0], t[1], t[2], t[3], t[4], t[5], t[6], t[7]];
  }

  lemma InputIsConcat(h: Hashing, w: WebServer)
    ensures HashInput(h, w) == Concat(Parts(h, w))
  {
    var labels, rest := [LabelSection(w.labels)], Marshalled(h, w.spec);
    TextsComeFirst(w);
    MarshalledComeLast(h, w);
    ConcatAppend(labels, rest);
    ConcatAppend(Texts(w.spec), labels + rest);
    assert Concat(labels) == LabelSection(w.labels) + "";
    assert BeforeLabels(w) + (LabelSection(w.labels) + BehindLabels(h, w)) == HashInput(h, w);
  }

  function Place(f: Field): nat {
    match f
    case ApplicationName => 0 case SessionClustering => 1 case InsightsClient => 2 case NotJWS => 3
    case ImageField => 5 case StreamField => 6 case TLSField => 7 case EnvField => 8
    case LogsField => 9 case ResourcesField => 10 case SecurityField => 11 case VolumeField => 12
  }

  lemma TextsDiffer(f: Field, v: Spec, w: Spec)
    requires AgreeBut(f, v, w)
    ensures forall j :: 0 <= j < 4 && j != Place(f) ==> Texts(v)[j] == Texts(w)[j]
    ensures Place(f) < 4 ==> (Texts(v)[Place(f)] == Texts(w)[Place(f)] <==> SameField(f, v, w))
  {
    if f.ApplicationName? { SameFront("ApplicationName:", v.applicationName, w.applicationName); }
    if f.SessionClustering? {
      SameFront("UseSessionClustering:", BoolText(v.useSessionClustering), BoolText(w.useSessionClustering));
    }
    if f.InsightsClient? {
      SameFront("UseInsightsClient:", BoolText(v.useInsightsClient), BoolText(w.useInsightsClient));
    }
    if f.NotJWS? { SameFront("IsNotJWS:", BoolText(v.isNotJWS), BoolText(w.isNotJWS)); }
  }

  lemma MarshalledDiffer(h: Hashing, f: Field, v: Spec, w: Spec)
    requires AgreeBut(f, v, w) && Told(h, f, v, w)
    ensures forall j :: 0 <= j < 8 && j + 5 != Place(f) ==> Marshalled(h, v)[j] == Marshalled(h, w)[j]
    ensures Place(f) >= 5 ==> (Marshalled(h, v)[Place(f) - 5] == Marshalled(h, w)[Place(f) - 5] <==> SameField(f, v, w))
  {
  }

  lemma PartsDiffer(h: Hashing, f: Field, v: WebServer, w: WebServer)
    requires v.labels == w.labels && AgreeBut(f, v.spec, w.spec) && Told(h, f, v.spec, w.spec)
    ensures |Parts(h, v)| == |Parts(h, w)| == 13
    ensures forall j :: 0 <= j < 13 && j != Place(f) ==> Parts(h, v)[j] == Parts(h, w)[j]
    ensures Parts(h, v)[Place(f)] == Parts(h, w)[Place(f)] <==> SameField(f, v.spec, w.spec)
  {
    TextsDiffer(f, v.spec, w.spec);
    MarshalledDiffer(h, f, v.spec, w.spec);
    forall j | 0 <= j < 13 && j != Place(f) ensures Parts(h, v)[j] == Parts(h, w)[j] {
      PartAt(h, v, j);
      PartAt(h, w, j);
    }
    PartAt(h, v, Place(f));
    PartAt(h, w, Place(f));
  }

  lemma PartAt(h: Hashing, w: WebServer, j: nat)
    requires j < 13
    ensures |Parts(h, w)| == 13
    ensures Parts(h, w)[j] == if j < 4 then Texts(w.spec)[j] else if j == 4 then LabelSection(w.labels)
                              else Marshalled(h, w.spec)[j - 5]
  {
  }

  /* ---------- what the digests see ---------- */

  /** Every field but the replica count is in the digest: of two resources that differ at most in that field, the
      digests are equal exactly when the field is. */
  lemma DigestSeesField(h: Hashing, f: Field, v: WebServer, w: WebServer)
    requires v.labels == w.labels && AgreeBut(f, v.spec, w.spec) && Told(h, f, v.spec, w.spec)
    requires NoCollision(h, HashInput(h, v), HashInput(h, w))
    ensures WebServerHash(h, v) == WebServerHash(h, w) <==> SameField(f, v.spec, w.spec)
  {
    InputIsConcat(h, v);
    InputIsConcat(h, w);
    PartsDiffer(h, f, v, w);
    OnePartMatters(Parts(h, v), Parts(h, w), Place(f));
    DistinctDigestsHaveDistinctLabels(h.sha256(HashInput(h, v)), h.sha256(HashInput(h, w)));
  }

  /** The digest of a BuildConfig sees the image stream of the specification, and nothing else. */
  lemma SourceDigestSeesStream(h: Hashing, v: WebServer, w: WebServer)
    requires Told(h, StreamField, v.spec, w.spec)
    requires NoCollision(h, h.json(WebImageStreamPart(v.spec.webImageStream)),
                         h.json(WebImageStreamPart(w.spec.webImageStream)))
    ensures WebImageStreamHash(h, v) == WebImageStreamHash(h, w) <==> v.spec.webImageStream == w.spec.webImageStream
  {
    DistinctDigestsHaveDistinctLabels(h.sha256(h.json(WebImageStreamPart(v.spec.webImageStream))),
                                      h.sha256(h.json(WebImageStreamPart(w.spec.webImageStream))));
  }
}
