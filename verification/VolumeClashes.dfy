/** When a claim template takes the name of a volume: both generators make names by spelling, and nothing keeps the
    two apart. */
module VolumeClashes {
  import opened WebServerApi
  import opened ClusterObjects
  import opened Templates
  import opened Generators

  /** A family of volume names: a prefix, and what follows it. */
  datatype Family = Family(prefix: string, rests: seq<string>)

  function If(wanted: bool, name: string): seq<string> {
    if wanted then [name] else []
  }

  function UserVolumeSpec(w: WebServer): VolumeSpec {
    if w.spec.volume.Some? then w.spec.volume.value else VolumeSpec([], [], [], [], false)
  }

  /** Where the names of volumes come from, but for the one that is fixed: the operator's own end in the name of the
      resource, the user's in the names the user lists. */
  function Families(w: WebServer): seq<Family> {
    [Family("volume-pvc-", If(KeepsLogs(w), w.name)),
     Family("webserver-", If(EditsServerXml(w), w.name)),
     Family("start-sh-webserver-", If(w.spec.isNotJWS, w.name)),
     Family("readinessprobescript-sh-webserver-", If(HasReadiness(w), w.name)),
     Family("livenessprobescript-sh-webserver-", If(HasLiveness(w), w.name)),
     Family("persistent-vol-", UserVolumeSpec(w).claims),
     Family("secret-vol-", UserVolumeSpec(w).secrets),
     Family("configmap-vol-", UserVolumeSpec(w).configMaps),
     Family("webserver-tls", If(w.spec.tls.secret != "", w.name))]
  }

  predicate InFamily(f: Family, name: string) {
    f.prefix <= name && name[|f.prefix|..] in f.rests
  }

  function NamesOf(families: seq<Family>): seq<string> {
    if families == [] then [] else Prefixed(families[0].prefix, families[0].rests) + NamesOf(families[1..])
  }

  lemma PrefixedIsInFamily(f: Family, name: string)
    ensures name in Prefixed(f.prefix, f.rests) <==> InFamily(f, name)
  {
    if InFamily(f, name) {
      var i :| 0 <= i < |f.rests| && f.rests[i] == name[|f.prefix|..];
      assert Prefixed(f.prefix, f.rests)[i] == f.prefix + name[|f.prefix|..] == name;
    }
    if name in Prefixed(f.prefix, f.rests) {
      var i :| 0 <= i < |f.rests| && f.prefix + f.rests[i] == name;
      assert name[|f.prefix|..] == f.rests[i];
    }
  }

  lemma {:induction false} NamesAreInFamilies(families: seq<Family>, name: string)
    ensures name in NamesOf(families) <==> exists k :: 0 <= k < |families| && InFamily(families[k], name)
  {
    if families != [] {
      PrefixedIsInFamily(families[0], name);
      NamesAreInFamilies(families[1..], name);
      if k :| 0 <= k < |families| && InFamily(families[k], name) {
        if k > 0 { assert families[1..][k - 1] == families[k]; }
      }
      if k :| 0 <= k < |families[1..]| && InFamily(families[1..][k], name) {
        assert families[k + 1] == families[1..][k];
      }
    }
  }

  lemma OperatorNames(w: WebServer)
    ensures VolumeNames(LogVolumes(w))
            == If(KeepsLogs(w), LOGGING_MAP) + Prefixed("volume-pvc-", If(KeepsLogs(w), w.name))
    ensures VolumeNames(ScriptVolumes(w)) == Prefixed("webserver-", If(EditsServerXml(w), w.name))
    ensures VolumeNames(StartVolumes(w)) == Prefixed("start-sh-webserver-", If(w.spec.isNotJWS, w.name))
  {
  }

  lemma ProbeNames(w: WebServer)
    ensures VolumeNames(ReadinessVolumes(w))
            == Prefixed("readinessprobescript-sh-webserver-", If(HasReadiness(w), w.name))
    ensures VolumeNames(LivenessVolumes(w)) == Prefixed("livenessprobescript-sh-webserver-", If(HasLiveness(w), w.name))
    ensures VolumeNames(TLSVolumes(w)) == Prefixed("webserver-tls", If(w.spec.tls.secret != "", w.name))
  {
  }

  lemma UserNames(w: WebServer)
    ensures VolumeNames(UserVolumes(w))
            == Prefixed("persistent-vol-", UserVolumeSpec(w).claims)
               + Prefixed("secret-vol-", UserVolumeSpec(w).secrets)
               + Prefixed("configmap-vol-", UserVolumeSpec(w).configMaps)
  {
  }

  lemma NamesOfMore(f: Family, rest: seq<Family>)
    ensures NamesOf([f] + rest) == Prefixed(f.prefix, f.rests) + NamesOf(rest)
  {
    assert ([f] + rest)[1..] == rest;
  }

  lemma NamesOfThree(a: Family, b: Family, c: Family, rest: seq<Family>)
    ensures NamesOf([a, b, c] + rest) == Prefixed(a.prefix, a.rests) + (Prefixed(b.prefix, b.rests)
                                         + (Prefixed(c.prefix, c.rests) + NamesOf(rest)))
  {
    NamesOfMore(c, rest);
    NamesOfMore(b, [c] + rest);
    NamesOfMore(a, [b] + ([c] + rest));
    assert [a] + ([b] + ([c] + rest)) == [a, b, c] + rest;
  }

  lemma NamesOfNine(a: Family, b: Family, c: Family, d: Family, e: Family, f: Family, g: Family, h: Family, i: Family)
    ensures NamesOf([a, b, c, d, e, f, g, h, i])
            == Prefixed(a.prefix, a.rests) + (Prefixed(b.prefix, b.rests) + (Prefixed(c.prefix, c.rests)
               + (Prefixed(d.prefix, d.rests) + (Prefixed(e.prefix, e.rests) + (Prefixed(f.prefix, f.rests)
               + (Prefixed(g.prefix, g.rests) + (Prefixed(h.prefix, h.rests) + Prefixed(i.prefix, i.rests))))))))
  {
    NamesOfThree(g, h, i, []);
    NamesOfThree(d, e, f, [g, h, i] + []);
    NamesOfThree(a, b, c, [d, e, f] + ([g, h, i] + []));
    assert [a, b, c] + ([d, e, f] + ([g, h, i] + [])) == [a, b, c, d, e, f, g, h, i];
  }

  lemma NamesByPart(w: WebServer)
    ensures VolumeNames(Volumes(w))
            == VolumeNames(LogVolumes(w)) + VolumeNames(ScriptVolumes(w)) + VolumeNames(StartVolumes(w))
               + VolumeNames(ReadinessVolumes(w)) + VolumeNames(LivenessVolumes(w)) + VolumeNames(UserVolumes(w))
               + VolumeNames(TLSVolumes(w))
  {
    NamesOfParts(LogVolumes(w), ScriptVolumes(w), StartVolumes(w), ReadinessVolumes(w), LivenessVolumes(w),
                 UserVolumes(w), TLSVolumes(w));
  }

  lemma NamesOfParts(a: seq<Volume>, b: seq<Volume>, c: seq<Volume>, d: seq<Volume>, e: seq<Volume>, f: seq<Volume>,
                     g: seq<Volume>)
    ensures VolumeNames(a + b + c + d + e + f + g)
            == VolumeNames(a) + VolumeNames(b) + VolumeNames(c) + VolumeNames(d) + VolumeNames(e) + VolumeNames(f)
               + VolumeNames(g)
  {
  }

  lemma Regroup(x: seq<string>, a: seq<string>, b: seq<string>, c: seq<string>, d: seq<string>, e: seq<string>,
                f: seq<string>, g: seq<string>, h: seq<string>, i: seq<string>)
    ensures (x + a) + b + c + d + e + (f + g + h) + i == x + (a + (b + (c + (d + (e + (f + (g + (h + i))))))))
  {
  }

  /** The generated names are the fixed one and those of the families. */
  lemma NamesByFamily(w: WebServer)
    ensures VolumeNames(Volumes(w)) == If(KeepsLogs(w), LOGGING_MAP) + NamesOf(Families(w))
  {
    NamesByPart(w);
    OperatorNames(w);
    ProbeNames(w);
    UserNames(w);
    var f := Families(w);
    NamesOfNine(f[0], f[1], f[2], f[3], f[4], f[5], f[6], f[7], f[8]);
    assert f == [f[0], f[1], f[2], f[3], f[4], f[5], f[6], f[7], f[8]];
    Regroup(If(KeepsLogs(w), LOGGING_MAP), Prefixed(f[0].prefix, f[0].rests), Prefixed(f[1].prefix, f[1].rests),
            Prefixed(f[2].prefix, f[2].rests), Prefixed(f[3].prefix, f[3].rests), Prefixed(f[4].prefix, f[4].rests),
            Prefixed(f[5].prefix, f[5].rests), Prefixed(f[6].prefix, f[6].rests), Prefixed(f[7].prefix, f[7].rests),
            Prefixed(f[8].prefix, f[8].rests));
  }

  /* ---------- spelling ---------- */

  predicate IsDecimal(c: char) {
    '0' <= c <= '9'
  }

  predicate NoDecimals(s: string) {
    forall i :: 0 <= i < |s| ==> !IsDecimal(s[i])
  }

  lemma {:induction false} ItoaIsDecimal(n: nat)
    ensures |Itoa(n)| > 0 && forall i :: 0 <= i < |Itoa(n)| ==> IsDecimal(Itoa(n)[i])
  {
    if n >= 10 { ItoaIsDecimal(n / 10); }
  }

  /** Application name and index of a claim template spell a name of the family: the application name, with its dash,
      starts with the prefix, and what is left of it is, with the index behind it, one of the rests. */
  predicate Spells(f: Family, app: string, index: nat) {
    f.prefix <= app + "-" && (app + "-")[|f.prefix|..] + Itoa(index) in f.rests
  }

  lemma ClaimInFamily(f: Family, app: string, index: nat)
    requires NoDecimals(f.prefix)
    ensures InFamily(f, app + "-" + Itoa(index)) <==> Spells(f, app, index)
  {
    var stem, digits := app + "-", Itoa(index);
    var name := stem + digits;
    ItoaIsDecimal(index);
    if f.prefix <= name {
      assert name[|stem|] == digits[0];
      assert forall i :: 0 <= i < |f.prefix| ==> f.prefix[i] == name[i];
      assert f.prefix == name[..|f.prefix|] == stem[..|f.prefix|];
      assert name[|f.prefix|..] == stem[|f.prefix|..] + digits;
    }
    if f.prefix <= stem {
      assert name[..|f.prefix|] == stem[..|f.prefix|] == f.prefix;
      assert name[|f.prefix|..] == stem[|f.prefix|..] + digits;
    }
  }

  lemma OperatorPrefixes()
    ensures NoDecimals("volume-pvc-") && NoDecimals("webserver-") && NoDecimals("start-sh-webserver-")
  {
  }

  lemma ReadinessPrefix()
    ensures NoDecimals("readinessprobescript-sh-webserver-")
  {
  }

  lemma LivenessPrefix()
    ensures NoDecimals("livenessprobescript-sh-webserver-")
  {
  }

  lemma UserPrefixes()
    ensures NoDecimals("persistent-vol-") && NoDecimals("secret-vol-") && NoDecimals("configmap-vol-")
    ensures NoDecimals("webserver-tls")
  {
  }

  lemma PrefixesHoldNoDecimals(w: WebServer)
    ensures forall k :: 0 <= k < |Families(w)| ==> NoDecimals(Families(w)[k].prefix)
  {
    OperatorPrefixes();
    ReadinessPrefix();
    LivenessPrefix();
    UserPrefixes();
  }

  lemma FixedNameIsNoClaim(w: WebServer, index: nat)
    ensures ClaimName(w, index) != LOGGING_MAP
  {
    ItoaIsDecimal(index);
    var name := ClaimName(w, index);
    assert name[|name| - 1] == Itoa(index)[|Itoa(index)| - 1];
    assert LOGGING_MAP[|LOGGING_MAP| - 1] == 'e';
  }

  /* ---------- the clashes ---------- */

  /** A claim template carries the name of a volume exactly when its application name and index spell one. */
  lemma ClaimTakesAVolumeName(w: WebServer, index: nat)
    ensures ClaimName(w, index) in VolumeNames(Volumes(w)) <==>
            exists k :: 0 <= k < |Families(w)| && Spells(Families(w)[k], w.spec.applicationName, index)
  {
    var families, name := Families(w), ClaimName(w, index);
    NamesByFamily(w);
    FixedNameIsNoClaim(w, index);
    NamesAreInFamilies(families, name);
    PrefixesHoldNoDecimals(w);
    forall k | 0 <= k < |families|
      ensures InFamily(families[k], name) <==> Spells(families[k], w.spec.applicationName, index)
    {
      ClaimInFamily(families[k], w.spec.applicationName, index);
    }
  }

  /** Some claim template of the specification spells a volume's name. */
  predicate SomeTemplateSpells(w: WebServer) {
    exists index, k :: 0 <= index < |UserVolumeSpec(w).claimTemplates| && 0 <= k < |Families(w)|
                       && Spells(Families(w)[k], w.spec.applicationName, index)
  }

  lemma SplitNoDuplicates(a: seq<string>, b: seq<string>)
    requires NoDuplicates(a) && NoDuplicates(b)
    ensures NoDuplicates(a + b) <==> forall x :: x in b ==> x !in a
  {
    var c := a + b;
    if NoDuplicates(c) {
      forall i, j | 0 <= i < |a| && 0 <= j < |b| ensures a[i] != b[j] {
        assert c[i] == a[i] && c[|a| + j] == b[j];
      }
    }
    forall i, j | 0 <= i < j < |c| && forall x :: x in b ==> x !in a ensures c[i] != c[j] {
      if i < |a| <= j { assert c[i] in a && c[j] == b[j - |a|]; }
    }
  }

  /** What a pod mounts from its volumes and its claim templates is named without ambiguity, the user's lists holding no
      duplicates, exactly when no template spells a volume's name. */
  lemma PodVolumeNamesAreDistinct(w: WebServer)
    requires ListsWithoutDuplicates(w)
    ensures NoDuplicates(VolumeNames(Volumes(w)) + ClaimNames(ClaimTemplates(w))) <==> !SomeTemplateSpells(w)
  {
    var names, claims := VolumeNames(Volumes(w)), ClaimNames(ClaimTemplates(w));
    VolumeNamesAreDistinct(w);
    ClaimNamesAreDistinct(w);
    SplitNoDuplicates(names, claims);
    ClaimsClash(w);
  }

  lemma ClaimsClash(w: WebServer)
    ensures (exists x :: x in ClaimNames(ClaimTemplates(w)) && x in VolumeNames(Volumes(w))) <==> SomeTemplateSpells(w)
  {
    var names, claims := VolumeNames(Volumes(w)), ClaimNames(ClaimTemplates(w));
    assert |claims| == |UserVolumeSpec(w).claimTemplates|;
    forall index | 0 <= index < |claims|
      ensures claims[index] in names <==>
              exists k :: 0 <= k < |Families(w)| && Spells(Families(w)[k], w.spec.applicationName, index)
    {
      ClaimTakesAVolumeName(w, index);
    }
    if SomeTemplateSpells(w) {
      var index, k :| 0 <= index < |claims| && 0 <= k < |Families(w)|
                      && Spells(Families(w)[k], w.spec.applicationName, index);
      assert claims[index] in claims && claims[index] in names;
    }
  }

  /** In particular when the application name does not start like any family that is generated. */
  lemma OtherStemsAreSafe(w: WebServer)
    requires forall k :: 0 <= k < |Families(w)| ==>
                           Families(w)[k].rests == [] || !(Families(w)[k].prefix <= w.spec.applicationName + "-")
    ensures !SomeTemplateSpells(w)
  {
  }

  /** A clash with the operator's own: the resource `x-0` of application `webserver-x` with any use of test.sh. */
  lemma OperatorNameMayClash(w: WebServer)
    requires w.spec.applicationName == "webserver-x" && w.name == "x-0" && EditsServerXml(w)
    requires |UserVolumeSpec(w).claimTemplates| > 0
    ensures SomeTemplateSpells(w) && ClaimName(w, 0) == ScriptsMapName(w)
  {
    assert Itoa(0) == "0";
    var stem := "webserver-x" + "-";
    assert stem[..10] == "webserver-" && stem[10..] + "0" == "x-0";
    assert Spells(Families(w)[1], w.spec.applicationName, 0);
    assert "webserver-x" + "-" + "0" == "webserver-" + "x-0";
  }

  /** A clash with a user's volume: of an application called `secret-vol` the first template is called like the volume
      of a secret called `0`. */
  lemma ClaimMayTakeAVolumeName(w: WebServer)
    requires w.spec.applicationName == "secret-vol" && "0" in UserVolumeSpec(w).secrets
    requires |UserVolumeSpec(w).claimTemplates| > 0
    ensures SomeTemplateSpells(w)
    ensures exists name :: name in ClaimNames(ClaimTemplates(w)) && name in VolumeNames(Volumes(w))
  {
    assert Itoa(0) == "0";
    var stem := "secret-vol" + "-";
    assert stem == "secret-vol-" && stem[11..] + "0" == "0";
    assert Spells(Families(w)[6], w.spec.applicationName, 0);
    ClaimsClash(w);
  }
}
