/** What an accepted index is, spelled out over positions, fields and substrings. */
module WorkloadComplete {
  import opened Options
  import opened Workload

  predicate Runs(c: Child, architecture: string) {
    c.os == "linux" && c.architecture == architecture
  }

  predicate OnPlatform(c: Child) {
    Runs(c, "amd64") || Runs(c, "arm64")
  }

  /** A fetched v3 workload, run as the agent by the Band launcher, of the expected release. */
  predicate GoodWorkload(reg: Registry, c: Child, want: Release) {
    && c.digest in reg.manifests
    && (match reg.manifests[c.digest].descriptor
        case Malformed => false
        case Parsed(schemaVersion, kind, _) => schemaVersion == Some("3") && kind == Some("workload"))
    && reg.manifests[c.digest].config in reg.configs
    && (match reg.configs[reg.manifests[c.digest].config]
        case Runtime(user, source, version, revision, entrypoint, cmd) =>
          && user == Some("agent") && source == Some("https://github.com/band-ai/band-sdk-python")
          && (want.version == None || version == want.version) && (want.revision == None || revision == want.revision)
          && (entrypoint + cmd == ["/opt/band/venv/bin/python", "-m", "band.docker.launcher"] ||
              entrypoint + cmd == ["/bin/bash", "-c", "exec \"$BAND_SDK_PYTHON\" -m band.docker.launcher"]))
  }

  ghost predicate Within(s: string, part: string) {
    exists before, after :: s == before + part + after
  }

  ghost predicate Mentions(predicates: seq<string>, part: string) {
    exists j :: 0 <= j < |predicates| && Within(predicates[j], part)
  }

  /** Some attestation of this digest has a layer whose predicate type mentions the marker. */
  ghost predicate AttestedFor(reg: Registry, children: seq<Child>, digest: string, marker: string) {
    exists a :: 0 <= a < |children| && !OnPlatform(children[a]) && children[a].subject == digest &&
                children[a].digest in reg.manifests && Mentions(reg.manifests[children[a].digest].predicates, marker)
  }

  ghost predicate SomeRuns(children: seq<Child>, architecture: string) {
    exists i :: 0 <= i < |children| && Runs(children[i], architecture)
  }

  ghost predicate AtMostOneRuns(children: seq<Child>, architecture: string) {
    forall i, j :: 0 <= i < j < |children| ==> !(Runs(children[i], architecture) && Runs(children[j], architecture))
  }

  /** Both platforms appear, each once. */
  ghost predicate BothOnce(children: seq<Child>) {
    && SomeRuns(children, "amd64") && AtMostOneRuns(children, "amd64")
    && SomeRuns(children, "arm64") && AtMostOneRuns(children, "arm64")
  }

  /** The child is what its place in the index asks for. */
  predicate Fits(reg: Registry, c: Child, want: Release) {
    if OnPlatform(c) then GoodWorkload(reg, c, want)
    else c.digest in reg.manifests && c.referenceType == Some("attestation-manifest")
  }

  /** Every platform child carries this descriptor, and so does the index if it has one. */
  ghost predicate AgreeOn(index: Index, reg: Registry, d: Descriptor) {
    && (index.descriptor.Some? ==> index.descriptor.value == d)
    && forall i :: 0 <= i < |index.manifests| && OnPlatform(index.manifests[i]) ==>
         index.manifests[i].digest in reg.manifests && reg.manifests[index.manifests[i].digest].descriptor == d
  }

  /** Every platform child is attested by a layer that mentions the marker. */
  ghost predicate AllAttested(reg: Registry, children: seq<Child>, marker: string) {
    forall i :: 0 <= i < |children| && OnPlatform(children[i]) ==> AttestedFor(reg, children, children[i].digest, marker)
  }

  ghost predicate Complete(index: Index, reg: Registry, want: Release) {
    && !index.artifact && BothOnce(index.manifests)
    && (forall i :: 0 <= i < |index.manifests| ==> Fits(reg, index.manifests[i], want))
    && (exists d :: AgreeOn(index, reg, d))
    && AllAttested(reg, index.manifests, "slsa.dev/provenance")
    && AllAttested(reg, index.manifests, "spdx.dev/Document")
  }

  // ---- the two ways of saying it ------------------------------------------------------

  lemma SamePlatforms(c: Child)
    ensures IsPlatform(c) <==> OnPlatform(c)
    ensures PlatformOf(c) == ("linux", "amd64") <==> Runs(c, "amd64")
    ensures PlatformOf(c) == ("linux", "arm64") <==> Runs(c, "arm64")
  {
  }

  lemma SameChildren(reg: Registry, c: Child, want: Release)
    ensures ChildOk(reg, c, want) <==> Fits(reg, c, want)
  {
  }

  lemma ContainsIsWithin(s: string, part: string)
    ensures Contains(s, part) <==> Within(s, part)
  {
    if Contains(s, part) {
      var i :| 0 <= i <= |s| && OccursAt(s, part, i);
      assert s == s[..i] + part + s[i..][|part|..];
    }
    if Within(s, part) {
      var before, after :| s == before + part + after;
      assert s[|before|..] == part + after;
      assert OccursAt(s, part, |before|);
    }
  }

  lemma SameLayers(predicates: seq<string>, k: Kind)
    ensures HasLayer(predicates, k) <==> Mentions(predicates, Marker(k))
  {
    forall j | 0 <= j < |predicates| ensures Contains(predicates[j], Marker(k)) <==> Within(predicates[j], Marker(k)) {
      ContainsIsWithin(predicates[j], Marker(k));
    }
    if HasLayer(predicates, k) {
      var p :| p in predicates && Contains(p, Marker(k));
      var j :| 0 <= j < |predicates| && predicates[j] == p;
    }
  }

  lemma SameAttestations(reg: Registry, children: seq<Child>, digest: string, k: Kind)
    ensures Attested(reg, children, digest, k) <==> AttestedFor(reg, children, digest, Marker(k))
  {
    forall a | 0 <= a < |children| && children[a].digest in reg.manifests
      ensures HasLayer(reg.manifests[children[a].digest].predicates, k) <==>
              Mentions(reg.manifests[children[a].digest].predicates, Marker(k))
    {
      SameLayers(reg.manifests[children[a].digest].predicates, k);
    }
    if Attested(reg, children, digest, k) {
      var c :| c in children && Attests(reg, c, digest, k);
      var a :| 0 <= a < |children| && children[a] == c;
    }
    if a :| 0 <= a < |children| && !OnPlatform(children[a]) && children[a].subject == digest &&
            children[a].digest in reg.manifests && Mentions(reg.manifests[children[a].digest].predicates, Marker(k)) {
      assert Attests(reg, children[a], digest, k);
    }
  }

  /** Counting one is finding one and no second. */
  lemma {:induction false} CountsOne(children: seq<Child>, architecture: string)
    ensures Count(children, ("linux", architecture)) >= 1 <==> SomeRuns(children, architecture)
    ensures Count(children, ("linux", architecture)) <= 1 <==> AtMostOneRuns(children, architecture)
  {
    if children != [] {
      var n := |children| - 1;
      var rest, last := children[..n], children[n];
      CountsOne(rest, architecture);
      assert Runs(last, architecture) <==> PlatformOf(last) == ("linux", architecture);
      assert forall i :: 0 <= i < n ==> rest[i] == children[i];
      if SomeRuns(rest, architecture) {
        var i :| 0 <= i < n && Runs(rest[i], architecture);
        assert Runs(children[i], architecture);
      }
    }
  }

  lemma SameDescriptors(index: Index, reg: Registry, d: Descriptor)
    requires SomeRuns(index.manifests, "amd64")
    requires forall i :: 0 <= i < |index.manifests| && OnPlatform(index.manifests[i]) ==> Fetched(reg, index.manifests[i])
    ensures AgreeOn(index, reg, d) <==>
              (forall e :: Carried(reg, index.manifests, e) <==> e == d) && (index.descriptor.Some? ==> index.descriptor.value == d)
  {
    var children := index.manifests;
    var i :| 0 <= i < |children| && Runs(children[i], "amd64");
    assert children[i] in children && Carried(reg, children, reg.manifests[children[i].digest].descriptor);
    if AgreeOn(index, reg, d) {
      forall e | Carried(reg, children, e) ensures e == d {
        var c :| c in children && IsPlatform(c) && Fetched(reg, c) && reg.manifests[c.digest].descriptor == e;
        var j :| 0 <= j < |children| && children[j] == c;
      }
    } else if forall e :: Carried(reg, children, e) <==> e == d {
      forall j | 0 <= j < |children| && OnPlatform(children[j]) ensures reg.manifests[children[j].digest].descriptor == d {
        assert children[j] in children && Carried(reg, children, reg.manifests[children[j].digest].descriptor);
      }
    }
  }

  lemma SameAttested(reg: Registry, children: seq<Child>)
    ensures (forall c, k :: c in children && IsPlatform(c) ==> Attested(reg, children, c.digest, k)) <==>
            AllAttested(reg, children, "slsa.dev/provenance") && AllAttested(reg, children, "spdx.dev/Document")
  {
    forall digest ensures Attested(reg, children, digest, Provenance) <==> AttestedFor(reg, children, digest, "slsa.dev/provenance") {
      SameAttestations(reg, children, digest, Provenance);
    }
    forall digest ensures Attested(reg, children, digest, Sbom) <==> AttestedFor(reg, children, digest, "spdx.dev/Document") {
      SameAttestations(reg, children, digest, Sbom);
    }
    if AllAttested(reg, children, "slsa.dev/provenance") && AllAttested(reg, children, "spdx.dev/Document") {
      forall c, k | c in children && IsPlatform(c) ensures Attested(reg, children, c.digest, k) {
        var i :| 0 <= i < |children| && children[i] == c;
        match k case Provenance => case Sbom =>
      }
    }
  }

  /** The declarative predicate the validator decides is completeness. */
  lemma AcceptableIsComplete(index: Index, reg: Registry, want: Release)
    ensures Acceptable(index, reg, want) <==> Complete(index, reg, want)
  {
    if Acceptable(index, reg, want) {
      AcceptedIsComplete(index, reg, want);
    }
    if Complete(index, reg, want) {
      CompleteIsAccepted(index, reg, want);
    }
  }

  lemma SameCounts(children: seq<Child>)
    ensures (forall p :: p in PLATFORMS ==> Count(children, p) == 1) <==> BothOnce(children)
  {
    CountsOne(children, "amd64");
    CountsOne(children, "arm64");
    assert ("linux", "amd64") in PLATFORMS && ("linux", "arm64") in PLATFORMS;
  }

  lemma SameFits(reg: Registry, children: seq<Child>, want: Release)
    ensures (forall c :: c in children ==> ChildOk(reg, c, want)) <==>
            (forall i :: 0 <= i < |children| ==> Fits(reg, children[i], want))
    ensures (forall i :: 0 <= i < |children| ==> Fits(reg, children[i], want)) ==>
              forall i :: 0 <= i < |children| && OnPlatform(children[i]) ==> Fetched(reg, children[i])
  {
    forall c ensures ChildOk(reg, c, want) <==> Fits(reg, c, want) {
      SameChildren(reg, c, want);
    }
    if forall i :: 0 <= i < |children| ==> Fits(reg, children[i], want) {
      forall c | c in children ensures ChildOk(reg, c, want) {
        var i :| 0 <= i < |children| && children[i] == c;
        assert Fits(reg, children[i], want);
      }
    }
  }

  lemma AcceptedIsComplete(index: Index, reg: Registry, want: Release)
    requires Acceptable(index, reg, want)
    ensures Complete(index, reg, want)
  {
    var children := index.manifests;
    SameCounts(children);
    SameFits(reg, children, want);
    SameAttested(reg, children);
    var i :| 0 <= i < |children| && Runs(children[i], "amd64");
    var d := reg.manifests[children[i].digest].descriptor;
    assert children[i] in children && Carried(reg, children, d);
    SameDescriptors(index, reg, d);
    assert AgreeOn(index, reg, d);
  }

  lemma CompleteIsAccepted(index: Index, reg: Registry, want: Release)
    requires Complete(index, reg, want)
    ensures Acceptable(index, reg, want)
  {
    SameCounts(index.manifests);
    SameFits(reg, index.manifests, want);
    SameAttested(reg, index.manifests);
    var d :| AgreeOn(index, reg, d);
    SameDescriptors(index, reg, d);
  }
}
