/**
  validate-workload.py: `validate_workload` walks a registry index once, with early
  rejections; what it accepts is exactly a declarative, order-free predicate of the index.
  Fetching is a pure lookup here: a missing key is a fetch that raises.
  */
module Workload {
  import opened Options

  /** A parsed descriptor annotation; a missing annotation parses as an empty object. */
  datatype Descriptor = Malformed | Parsed(schemaVersion: Option<string>, kind: Option<string>, rest: string)

  datatype Child = Child(digest: string, os: string, architecture: string,
                         referenceType: Option<string>, subject: string)

  /** `predicates` are the layers' in-toto predicate types, "" where absent. */
  datatype Manifest = Manifest(predicates: seq<string>, descriptor: Descriptor, config: string)

  datatype Runtime = Runtime(user: Option<string>, source: Option<string>, version: Option<string>,
                             revision: Option<string>, entrypoint: seq<string>, cmd: seq<string>)

  datatype Index = Index(artifact: bool, manifests: seq<Child>, descriptor: Option<Descriptor>)

  datatype Registry = Registry(manifests: map<string, Manifest>, configs: map<string, Runtime>)

  /** The release the caller expects, where given. */
  datatype Release = Release(version: Option<string>, revision: Option<string>)

  type Platform = (string, string)

  const PLATFORMS: set<Platform> := {("linux", "amd64"), ("linux", "arm64")}

  datatype Kind = Provenance | Sbom

  datatype Fault =
    | NotAnIndex | FetchFailed | UnexpectedManifest | DuplicatePlatform | NotV3Workload
    | WrongUser | WrongSource | WrongVersion | WrongRevision | WrongLauncher
    | MissingPlatform | DescriptorsDisagree | IndexDisagrees | MissingAttestation

  datatype Verdict = Accepted | Rejected(fault: Fault)

  // ---- one child ----------------------------------------------------------------------

  function PlatformOf(c: Child): Platform {
    (c.os, c.architecture)
  }

  predicate IsPlatform(c: Child) {
    PlatformOf(c) in PLATFORMS
  }

  predicate IsV3(d: Descriptor) {
    d.Parsed? && d.schemaVersion == Some("3") && d.kind == Some("workload")
  }

  predicate Expected(wanted: Option<string>, actual: Option<string>) {
    wanted.Some? ==> actual == wanted
  }

  const SOURCE := "https://github.com/band-ai/band-sdk-python"
  const DIRECT: seq<string> := ["/opt/band/venv/bin/python", "-m", "band.docker.launcher"]
  const CONFIGURED: seq<string> := ["/bin/bash", "-c", "exec \"$BAND_SDK_PYTHON\" -m band.docker.launcher"]

  predicate UsesLauncher(r: Runtime) {
    r.entrypoint + r.cmd == DIRECT || r.entrypoint + r.cmd == CONFIGURED
  }

  predicate RuntimeOk(r: Runtime, want: Release) {
    && r.user == Some("agent") && r.source == Some(SOURCE)
    && Expected(want.version, r.version) && Expected(want.revision, r.revision)
    && UsesLauncher(r)
  }

  predicate Fetched(reg: Registry, c: Child) {
    c.digest in reg.manifests
  }

  /** A platform child is a v3 workload run by the agent user through the Band launcher. */
  predicate WorkloadOk(reg: Registry, c: Child, want: Release) {
    && Fetched(reg, c) && IsV3(reg.manifests[c.digest].descriptor)
    && reg.manifests[c.digest].config in reg.configs
    && RuntimeOk(reg.configs[reg.manifests[c.digest].config], want)
  }

  predicate AttestationOk(reg: Registry, c: Child) {
    Fetched(reg, c) && c.referenceType == Some("attestation-manifest")
  }

  predicate ChildOk(reg: Registry, c: Child, want: Release) {
    if IsPlatform(c) then WorkloadOk(reg, c, want) else AttestationOk(reg, c)
  }

  predicate OccursAt(s: string, part: string, i: int) {
    0 <= i <= |s| && part <= s[i..]
  }

  /** Python's `part in s`. */
  predicate Contains(s: string, part: string) {
    exists i :: 0 <= i <= |s| && OccursAt(s, part, i)
  }

  function Marker(k: Kind): string {
    match k
    case Provenance => "slsa.dev/provenance"
    case Sbom => "spdx.dev/Document"
  }

  predicate HasLayer(predicates: seq<string>, k: Kind) {
    exists p :: p in predicates && Contains(p, Marker(k))
  }

  // ---- the whole index ----------------------------------------------------------------

  /** Child `a` attests `kind` for the manifest with this digest. */
  predicate Attests(reg: Registry, a: Child, subject: string, kind: Kind) {
    !IsPlatform(a) && Fetched(reg, a) && a.subject == subject && HasLayer(reg.manifests[a.digest].predicates, kind)
  }

  ghost predicate Attested(reg: Registry, children: seq<Child>, subject: string, kind: Kind) {
    exists a :: a in children && Attests(reg, a, subject, kind)
  }

  function Count(children: seq<Child>, p: Platform): nat {
    if children == [] then 0
    else Count(children[..|children| - 1], p) + if PlatformOf(children[|children| - 1]) == p then 1 else 0
  }

  /** Some platform child carries this descriptor. */
  ghost predicate Carried(reg: Registry, children: seq<Child>, d: Descriptor) {
    exists c :: c in children && IsPlatform(c) && Fetched(reg, c) && reg.manifests[c.digest].descriptor == d
  }

  /** What a complete v3 workload index is, whatever the order of its children. */
  ghost predicate Acceptable(index: Index, reg: Registry, want: Release) {
    var children := index.manifests;
    && !index.artifact && children != []
    && (forall c :: c in children ==> ChildOk(reg, c, want))
    && (forall p :: p in PLATFORMS ==> Count(children, p) == 1)
    && (forall d, e :: Carried(reg, children, d) && Carried(reg, children, e) ==> d == e)
    && (index.descriptor.Some? ==> Carried(reg, children, index.descriptor.value))
    && (forall c, k :: c in children && IsPlatform(c) ==> Attested(reg, children, c.digest, k))
  }

  /** The child runs with a configuration that could be fetched. */
  predicate Deployed(reg: Registry, c: Child) {
    IsPlatform(c) && Fetched(reg, c) && reg.manifests[c.digest].config in reg.configs
  }

  function RuntimeOf(reg: Registry, c: Child): Runtime
    requires Deployed(reg, c)
  {
    reg.configs[reg.manifests[c.digest].config]
  }

  /** A fault of a single child. */
  predicate ChildFault(f: Fault, reg: Registry, c: Child, want: Release) {
    match f
    case FetchFailed => !Fetched(reg, c) || (IsPlatform(c) && reg.manifests[c.digest].config !in reg.configs)
    case UnexpectedManifest => !IsPlatform(c) && c.referenceType != Some("attestation-manifest")
    case NotV3Workload => IsPlatform(c) && Fetched(reg, c) && !IsV3(reg.manifests[c.digest].descriptor)
    case WrongUser => Deployed(reg, c) && RuntimeOf(reg, c).user != Some("agent")
    case WrongSource => Deployed(reg, c) && RuntimeOf(reg, c).source != Some(SOURCE)
    case WrongVersion => Deployed(reg, c) && !Expected(want.version, RuntimeOf(reg, c).version)
    case WrongRevision => Deployed(reg, c) && !Expected(want.revision, RuntimeOf(reg, c).revision)
    case WrongLauncher => Deployed(reg, c) && !UsesLauncher(RuntimeOf(reg, c))
    case _ => false
  }

  ghost predicate SomeChildFault(f: Fault, reg: Registry, children: seq<Child>, want: Release) {
    exists c :: c in children && ChildFault(f, reg, c, want)
  }

  /** A rejection names a fault the index has. */
  ghost predicate Explains(f: Fault, index: Index, reg: Registry, want: Release) {
    var children := index.manifests;
    match f
    case NotAnIndex => index.artifact || children == []
    case DuplicatePlatform => exists p :: p in PLATFORMS && Count(children, p) >= 2
    case MissingPlatform => exists p :: p in PLATFORMS && Count(children, p) == 0
    case DescriptorsDisagree => exists d, e :: Carried(reg, children, d) && Carried(reg, children, e) && d != e
    case IndexDisagrees => index.descriptor.Some? && !Carried(reg, children, index.descriptor.value)
    case MissingAttestation => exists c, k :: c in children && IsPlatform(c) && !Attested(reg, children, c.digest, k)
    case _ => SomeChildFault(f, reg, children, want)
  }

  // ---- the loop -----------------------------------------------------------------------

  /** One layer's contribution to a subject's attestations. */
  method ScanLayer(p: string, before: set<Kind>) returns (kinds: set<Kind>)
    ensures forall k :: k in kinds <==> k in before || Contains(p, Marker(k))
  {
    kinds := before;
    if Contains(p, Marker(Provenance)) {
      kinds := kinds + {Provenance};
    }
    if Contains(p, Marker(Sbom)) {
      kinds := kinds + {Sbom};
    }
    forall k ensures k in kinds <==> k in before || Contains(p, Marker(k)) {
      match k case Provenance => case Sbom =>
    }
  }

  /** The layers' contribution to a subject's attestations. */
  method ScanLayers(predicates: seq<string>, before: set<Kind>) returns (kinds: set<Kind>)
    ensures forall k :: k in kinds <==> k in before || HasLayer(predicates, k)
  {
    kinds := before;
    for i := 0 to |predicates|
      invariant forall k :: k in kinds <==> k in before || HasLayer(predicates[..i], k)
    {
      kinds := ScanLayer(predicates[i], kinds);
      assert predicates[..i + 1] == predicates[..i] + [predicates[i]];
      LayerAppend(predicates[..i], predicates[i]);
    }
    assert predicates[..|predicates|] == predicates;
  }

  /** The checks of one platform child, in the order they are made. */
  method CheckPlatform(reg: Registry, c: Child, want: Release) returns (verdict: Verdict)
    requires IsPlatform(c) && Fetched(reg, c)
    ensures verdict.Accepted? <==> WorkloadOk(reg, c, want)
    ensures verdict.Rejected? ==> ChildFault(verdict.fault, reg, c, want)
  {
    var manifest := reg.manifests[c.digest];
    if !IsV3(manifest.descriptor) {
      return Rejected(NotV3Workload);
    }
    if manifest.config !in reg.configs {
      return Rejected(FetchFailed);
    }
    var runtime := reg.configs[manifest.config];
    if runtime.user != Some("agent") {
      return Rejected(WrongUser);
    }
    if runtime.source != Some(SOURCE) {
      return Rejected(WrongSource);
    }
    if !Expected(want.version, runtime.version) {
      return Rejected(WrongVersion);
    }
    if !Expected(want.revision, runtime.revision) {
      return Rejected(WrongRevision);
    }
    if !UsesLauncher(runtime) {
      return Rejected(WrongLauncher);
    }
    return Accepted;
  }

  lemma LayerAppend(predicates: seq<string>, p: string)
    ensures forall k :: HasLayer(predicates + [p], k) <==> HasLayer(predicates, k) || Contains(p, Marker(k))
  {
    assert forall q :: q in predicates + [p] <==> q in predicates || q == p;
  }

  /** Some platform child has this digest. */
  ghost predicate Listed(walked: seq<Child>, digest: string) {
    exists c :: c in walked && IsPlatform(c) && c.digest == digest
  }

  /** What the loop has collected from the children walked so far. */
  ghost predicate Collected(reg: Registry, walked: seq<Child>, want: Release, platforms: set<Platform>,
                            descriptors: seq<Descriptor>, attestations: map<string, set<Kind>>, digests: set<string>)
  {
    && (forall c :: c in walked ==> ChildOk(reg, c, want))
    && platforms <= PLATFORMS && |descriptors| == |platforms|
    && (forall p :: p in PLATFORMS ==> Count(walked, p) == if p in platforms then 1 else 0)
    && (forall d :: d in descriptors <==> Carried(reg, walked, d))
    && (forall g :: g in digests <==> Listed(walked, g))
    && (forall s, k :: Attested(reg, walked, s, k) <==> s in attestations && k in attestations[s])
  }

  method Validate(index: Index, reg: Registry, want: Release) returns (verdict: Verdict)
    ensures verdict.Accepted? <==> Acceptable(index, reg, want)
    ensures verdict.Rejected? ==> Explains(verdict.fault, index, reg, want)
  {
    if index.artifact || index.manifests == [] {
      return Rejected(NotAnIndex);
    }
    var children := index.manifests;
    var platforms: set<Platform> := {};
    var descriptors: seq<Descriptor> := [];
    var attestations: map<string, set<Kind>> := map[];
    var digests: set<string> := {};
    for i := 0 to |children|
      invariant Collected(reg, children[..i], want, platforms, descriptors, attestations, digests)
    {
      var c := children[i];
      assert children[..i + 1] == children[..i] + [c];
      if c.digest !in reg.manifests {
        ChildFaultRejects(index, reg, want, c, FetchFailed);
        return Rejected(FetchFailed);
      }
      var manifest := reg.manifests[c.digest];
      if !IsPlatform(c) {
        if c.referenceType != Some("attestation-manifest") {
          ChildFaultRejects(index, reg, want, c, UnexpectedManifest);
          return Rejected(UnexpectedManifest);
        }
        var known := if c.subject in attestations then attestations[c.subject] else {};
        var kinds := ScanLayers(manifest.predicates, known);
        AttestationCollected(reg, children[..i], c, want, platforms, descriptors, attestations, digests, kinds);
        attestations := attestations[c.subject := kinds];
        continue;
      }
      if PlatformOf(c) in platforms {
        CountAppend(children[..i], c, PlatformOf(c));
        CountGrows(children, i + 1, PlatformOf(c));
        return Rejected(DuplicatePlatform);
      }
      var checked := CheckPlatform(reg, c, want);
      if checked.Rejected? {
        ChildFaultRejects(index, reg, want, c, checked.fault);
        return checked;
      }
      PlatformCollected(reg, children[..i], c, want, platforms, descriptors, attestations, digests);
      platforms := platforms + {PlatformOf(c)};
      digests := digests + {c.digest};
      descriptors := descriptors + [manifest.descriptor];
    }
    assert children[..|children|] == children;
    verdict := Conclude(index, reg, want, platforms, descriptors, attestations, digests);
  }

  /** What is checked once every child has been walked. */
  method Conclude(index: Index, reg: Registry, want: Release, platforms: set<Platform>,
                  descriptors: seq<Descriptor>, attestations: map<string, set<Kind>>, digests: set<string>)
    returns (verdict: Verdict)
    requires !index.artifact && index.manifests != []
    requires Collected(reg, index.manifests, want, platforms, descriptors, attestations, digests)
    ensures verdict.Accepted? <==> Acceptable(index, reg, want)
    ensures verdict.Rejected? ==> Explains(verdict.fault, index, reg, want)
  {
    if platforms != PLATFORMS {
      assert exists p :: p in PLATFORMS && p !in platforms;
      return Rejected(MissingPlatform);
    }
    assert |PLATFORMS| == 2;
    if descriptors[0] != descriptors[1] {
      assert descriptors[0] in descriptors && descriptors[1] in descriptors;
      return Rejected(DescriptorsDisagree);
    }
    if index.descriptor.Some? && index.descriptor.value != descriptors[0] {
      return Rejected(IndexDisagrees);
    }
    if exists g :: g in digests && (g !in attestations || attestations[g] != {Provenance, Sbom}) {
      MissingAttestationFound(reg, index.manifests, want, platforms, descriptors, attestations, digests);
      return Rejected(MissingAttestation);
    }
    CompleteIsAcceptable(index, reg, want, descriptors, attestations, digests);
    return Accepted;
  }

  lemma CompleteIsAcceptable(index: Index, reg: Registry, want: Release, descriptors: seq<Descriptor>,
                             attestations: map<string, set<Kind>>, digests: set<string>)
    requires !index.artifact && index.manifests != []
    requires Collected(reg, index.manifests, want, PLATFORMS, descriptors, attestations, digests)
    requires |descriptors| == 2 && descriptors[0] == descriptors[1]
    requires index.descriptor.Some? ==> index.descriptor.value == descriptors[0]
    requires forall g :: g in digests ==> g in attestations && attestations[g] == {Provenance, Sbom}
    ensures Acceptable(index, reg, want)
  {
    var children := index.manifests;
    assert forall d :: d in descriptors <==> d == descriptors[0];
    forall c, k | c in children && IsPlatform(c) ensures Attested(reg, children, c.digest, k) {
      assert Listed(children, c.digest);
      match k case Provenance => case Sbom =>
    }
  }

  lemma ChildFaultRejects(index: Index, reg: Registry, want: Release, c: Child, f: Fault)
    requires c in index.manifests && ChildFault(f, reg, c, want)
    ensures Explains(f, index, reg, want) && !Acceptable(index, reg, want)
  {
    assert SomeChildFault(f, reg, index.manifests, want);
  }

  // ---- the loop's steps ---------------------------------------------------------------

  lemma CountAppend(walked: seq<Child>, c: Child, p: Platform)
    ensures Count(walked + [c], p) == Count(walked, p) + if PlatformOf(c) == p then 1 else 0
  {
    assert (walked + [c])[..|walked|] == walked;
  }

  lemma {:induction false} CountGrows(children: seq<Child>, i: nat, p: Platform)
    requires i <= |children|
    ensures Count(children[..i], p) <= Count(children, p)
    decreases |children| - i
  {
    if i == |children| {
      assert children[..i] == children;
    } else {
      assert children[..i + 1][..i] == children[..i];
      CountGrows(children, i + 1, p);
    }
  }

  lemma AttestationCollected(reg: Registry, walked: seq<Child>, c: Child, want: Release, platforms: set<Platform>,
                             descriptors: seq<Descriptor>, attestations: map<string, set<Kind>>, digests: set<string>,
                             kinds: set<Kind>)
    requires Collected(reg, walked, want, platforms, descriptors, attestations, digests)
    requires !IsPlatform(c) && AttestationOk(reg, c)
    requires forall k :: k in kinds <==> (c.subject in attestations && k in attestations[c.subject]) ||
                                         HasLayer(reg.manifests[c.digest].predicates, k)
    ensures Collected(reg, walked + [c], want, platforms, descriptors, attestations[c.subject := kinds], digests)
  {
    var next := walked + [c];
    forall p | p in PLATFORMS ensures Count(next, p) == Count(walked, p) { CountAppend(walked, c, p); }
    assert forall d :: Carried(reg, next, d) <==> Carried(reg, walked, d);
    forall s, k ensures Attested(reg, next, s, k) <==> Attested(reg, walked, s, k) || Attests(reg, c, s, k) {
      if Attests(reg, c, s, k) { assert c in next; }
    }
  }

  lemma PlatformCollected(reg: Registry, walked: seq<Child>, c: Child, want: Release, platforms: set<Platform>,
                          descriptors: seq<Descriptor>, attestations: map<string, set<Kind>>, digests: set<string>)
    requires Collected(reg, walked, want, platforms, descriptors, attestations, digests)
    requires IsPlatform(c) && WorkloadOk(reg, c, want) && PlatformOf(c) !in platforms
    ensures Collected(reg, walked + [c], want, platforms + {PlatformOf(c)},
                      descriptors + [reg.manifests[c.digest].descriptor], attestations, digests + {c.digest})
  {
    var next := walked + [c];
    forall p | p in PLATFORMS
      ensures Count(next, p) == Count(walked, p) + if PlatformOf(c) == p then 1 else 0
    {
      CountAppend(walked, c, p);
    }
    var d0 := reg.manifests[c.digest].descriptor;
    forall d ensures Carried(reg, next, d) <==> Carried(reg, walked, d) || d == d0 {
      if d == d0 { assert c in next; }
    }
    forall s, k ensures Attested(reg, next, s, k) <==> Attested(reg, walked, s, k) {
      if Attested(reg, walked, s, k) {
        var a :| a in walked && Attests(reg, a, s, k);
        assert a in next;
      }
    }
    forall g ensures Listed(next, g) <==> Listed(walked, g) || g == c.digest {
      if g == c.digest { assert c in next; }
    }
  }

  lemma BothKinds(kinds: set<Kind>)
    ensures kinds == {Provenance, Sbom} <==> Provenance in kinds && Sbom in kinds
  {
    assert forall k :: k in kinds ==> k == Provenance || k == Sbom;
  }

  lemma MissingAttestationFound(reg: Registry, children: seq<Child>, want: Release, platforms: set<Platform>,
                                descriptors: seq<Descriptor>, attestations: map<string, set<Kind>>, digests: set<string>)
    requires Collected(reg, children, want, platforms, descriptors, attestations, digests)
    requires exists g :: g in digests && (g !in attestations || attestations[g] != {Provenance, Sbom})
    ensures exists c, k :: c in children && IsPlatform(c) && !Attested(reg, children, c.digest, k)
  {
    var g :| g in digests && (g !in attestations || attestations[g] != {Provenance, Sbom});
    assert Listed(children, g);
    var c :| c in children && IsPlatform(c) && c.digest == g;
    if g in attestations {
      BothKinds(attestations[g]);
    }
    var k := if g in attestations && Provenance in attestations[g] then Sbom else Provenance;
    assert !Attested(reg, children, c.digest, k);
  }

  // ---- order does not matter ----------------------------------------------------------

  lemma {:induction false} CountPermutes(a: seq<Child>, b: seq<Child>, p: Platform)
    requires multiset(a) == multiset(b)
    ensures Count(a, p) == Count(b, p)
    decreases |a|
  {
    if a == [] {
      assert |multiset(b)| == 0;
      assert b == [];
    } else {
      var c := a[|a| - 1];
      assert a == a[..|a| - 1] + [c];
      assert c in multiset(b);
      var i :| 0 <= i < |b| && b[i] == c;
      var rest := b[..i] + b[i + 1..];
      assert b == b[..i] + [c] + b[i + 1..];
      assert multiset(b) == multiset(b[..i]) + multiset{c} + multiset(b[i + 1..]);
      assert multiset(a) == multiset(a[..|a| - 1]) + multiset{c};
      assert multiset(rest) == multiset(b[..i]) + multiset(b[i + 1..]);
      assert multiset(rest) == multiset(a) - multiset{c} == multiset(a[..|a| - 1]);
      CountPermutes(a[..|a| - 1], rest, p);
      CountConcat(b[..i], b[i + 1..], p);
      CountConcat(b[..i] + [c], b[i + 1..], p);
      CountAppend(b[..i], c, p);
    }
  }

  lemma {:induction false} CountConcat(a: seq<Child>, b: seq<Child>, p: Platform)
    ensures Count(a + b, p) == Count(a, p) + Count(b, p)
  {
    if b == [] {
      assert a + b == a;
    } else {
      assert (a + b)[..|a + b| - 1] == a + b[..|b| - 1];
      CountConcat(a, b[..|b| - 1], p);
    }
  }

  /** Listing the children in another order never changes acceptance. */
  lemma OrderDoesNotMatter(index: Index, children: seq<Child>, reg: Registry, want: Release)
    requires multiset(children) == multiset(index.manifests)
    ensures Acceptable(index.(manifests := children), reg, want) <==> Acceptable(index, reg, want)
  {
    assert forall c :: c in children <==> c in multiset(children);
    assert forall c :: c in index.manifests <==> c in multiset(index.manifests);
    assert |multiset(children)| == |children| && |multiset(index.manifests)| == |index.manifests|;
    forall p | p in PLATFORMS ensures Count(children, p) == Count(index.manifests, p) {
      CountPermutes(children, index.manifests, p);
    }
    assert forall d :: Carried(reg, children, d) <==> Carried(reg, index.manifests, d);
    assert forall s, k :: Attested(reg, children, s, k) <==> Attested(reg, index.manifests, s, k);
  }
}
