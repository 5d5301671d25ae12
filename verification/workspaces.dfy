/** workspaces.py: which room holds which workspace path, kept in two maps. */
module Workspaces {
  import opened Options

  type Room = string
  type Path = string

  datatype Holdings = Holdings(paths: map<Room, Path>, owners: map<Path, Room>)

  datatype Claim = Claimed(path: Path) | Refused | Unresolved

  /** The two maps are each other's inverse, so no two rooms hold one path. */
  ghost predicate Inverse(h: Holdings) {
    && (forall r :: r in h.paths ==> h.paths[r] in h.owners && h.owners[h.paths[r]] == r)
    && (forall p :: p in h.owners ==> h.owners[p] in h.paths && h.paths[h.owners[p]] == p)
  }

  /** The path a claim is for: the room's own, else the given or resolved one. */
  function Wanted(h: Holdings, room: Room, proposal: Option<Path>): Option<Path> {
    if room in h.paths then Some(h.paths[room]) else proposal
  }

  /** `claim`; `proposal` is the given or resolved path, None when resolving raises. */
  function ClaimIn(h: Holdings, room: Room, proposal: Option<Path>): (Holdings, Claim) {
    match Wanted(h, room, proposal)
    case None => (h, Unresolved)
    case Some(path) =>
      if path in h.owners && h.owners[path] != room then (h, Refused)
      else (Holdings(h.paths[room := path], h.owners[path := room]), Claimed(path))
  }

  /** `release`: nothing unless the room holds a path, and the named one if one is named. */
  function ReleaseIn(h: Holdings, room: Room, workspace: Option<Path>): Holdings {
    if room !in h.paths || (workspace.Some? && workspace.value != h.paths[room]) then h
    else
      var path := h.paths[room];
      Holdings(h.paths - {room}, if path in h.owners && h.owners[path] == room then h.owners - {path} else h.owners)
  }

  /** `claiming` runs its body under the claim and gives the claim back if the body raises. */
  datatype Op =
    | DoClaim(room: Room, proposal: Option<Path>)
    | DoRelease(room: Room, workspace: Option<Path>)
    | DoClaiming(room: Room, proposal: Option<Path>, body: seq<Op>, raises: bool)

  function Perform(h: Holdings, op: Op): Holdings
    decreases op, 1
  {
    match op
    case DoClaim(room, proposal) => ClaimIn(h, room, proposal).0
    case DoRelease(room, workspace) => ReleaseIn(h, room, workspace)
    case DoClaiming(room, proposal, body, raises) =>
      var (held, claim) := ClaimIn(h, room, proposal);
      if !claim.Claimed? then h
      else if raises then ReleaseIn(PerformAll(held, body), room, Some(claim.path))
      else PerformAll(held, body)
  }

  function PerformAll(h: Holdings, ops: seq<Op>): Holdings
    decreases ops, 0
  {
    if ops == [] then h else PerformAll(Perform(h, ops[0]), ops[1..])
  }

  lemma ClaimKeepsInverse(h: Holdings, room: Room, proposal: Option<Path>)
    requires Inverse(h)
    ensures Inverse(ClaimIn(h, room, proposal).0)
  {
  }

  lemma ReleaseKeepsInverse(h: Holdings, room: Room, workspace: Option<Path>)
    requires Inverse(h)
    ensures Inverse(ReleaseIn(h, room, workspace))
  {
  }

  /** Every sequence of claims, releases and (raising, nested) claiming blocks keeps it. */
  lemma {:induction false} EveryRunKeepsInverse(h: Holdings, ops: seq<Op>)
    requires Inverse(h)
    ensures Inverse(PerformAll(h, ops))
    decreases ops, 0
  {
    if ops != [] {
      EveryOpKeepsInverse(h, ops[0]);
      EveryRunKeepsInverse(Perform(h, ops[0]), ops[1..]);
    }
  }

  lemma {:induction false} EveryOpKeepsInverse(h: Holdings, op: Op)
    requires Inverse(h)
    ensures Inverse(Perform(h, op))
    decreases op, 1
  {
    match op
    case DoClaim(room, proposal) => ClaimKeepsInverse(h, room, proposal);
    case DoRelease(room, workspace) => ReleaseKeepsInverse(h, room, workspace);
    case DoClaiming(room, proposal, body, raises) =>
      ClaimKeepsInverse(h, room, proposal);
      var (held, claim) := ClaimIn(h, room, proposal);
      if claim.Claimed? {
        EveryRunKeepsInverse(held, body);
        ReleaseKeepsInverse(PerformAll(held, body), room, Some(claim.path));
      }
  }

  /** Two rooms never hold one path, whatever was done. */
  lemma NoSharedPath(ops: seq<Op>, r: Room, q: Room)
    requires var h := PerformAll(Holdings(map[], map[]), ops);
             r in h.paths && q in h.paths && h.paths[r] == h.paths[q]
    ensures r == q
  {
    EveryRunKeepsInverse(Holdings(map[], map[]), ops);
  }

  /** A claim fails exactly over another room's path, and then changes nothing. */
  lemma RefusedIffTaken(h: Holdings, room: Room, proposal: Option<Path>)
    requires Inverse(h)
    ensures ClaimIn(h, room, proposal).1.Refused? <==>
              room !in h.paths && proposal.Some? && exists q :: q in h.paths && q != room && h.paths[q] == proposal.value
    ensures !ClaimIn(h, room, proposal).1.Claimed? ==> ClaimIn(h, room, proposal).0 == h
  {
    if room !in h.paths && proposal.Some? && proposal.value in h.owners {
      assert h.paths[h.owners[proposal.value]] == proposal.value;
    }
  }

  /** Only the one room's entry differs, and it is now `held`. */
  ghost predicate OnlyMoved(h: Holdings, n: Holdings, room: Room, held: Option<Path>) {
    && (held.Some? ==> room in n.paths && n.paths[room] == held.value)
    && (held.None? ==> room !in n.paths)
    && (forall r :: r != room ==> (r in n.paths <==> r in h.paths))
    && (forall r :: r != room && r in h.paths ==> n.paths[r] == h.paths[r])
  }

  /**
    A room that holds a path keeps it, whatever is proposed; any other gets the proposed
    path unless another room holds it.  No other room's holding changes.
    */
  lemma ClaimsGiveTheRoomItsPath(h: Holdings, room: Room, proposal: Option<Path>)
    requires Inverse(h)
    ensures var (n, claim) := ClaimIn(h, room, proposal);
            && (room in h.paths ==> claim == Claimed(h.paths[room]))
            && (room !in h.paths && proposal.None? ==> claim.Unresolved?)
            && (room !in h.paths && proposal.Some? && !(exists q :: q in h.paths && h.paths[q] == proposal.value) ==>
                  claim == Claimed(proposal.value))
            && (claim.Claimed? ==> OnlyMoved(h, n, room, Some(claim.path)))
  {
    if room !in h.paths && proposal.Some? && proposal.value in h.owners {
      assert h.owners[proposal.value] in h.paths && h.paths[h.owners[proposal.value]] == proposal.value;
    }
  }

  /**
    A release frees the room's path exactly when it names none or names that one, for any
    room to claim; no other room's holding changes.
    */
  lemma ReleasesFreeThePath(h: Holdings, room: Room, workspace: Option<Path>)
    requires Inverse(h) && room in h.paths
    ensures var n, path := ReleaseIn(h, room, workspace), h.paths[room];
            if workspace.None? || workspace.value == path
            then OnlyMoved(h, n, room, None) && forall q :: !ClaimIn(n, q, Some(path)).1.Refused?
            else n == h
  {
    var n, path := ReleaseIn(h, room, workspace), h.paths[room];
    ReleaseKeepsInverse(h, room, workspace);
    if workspace.None? || workspace.value == path {
      forall q ensures !ClaimIn(n, q, Some(path)).1.Refused? {
        RefusedIffTaken(n, q, Some(path));
      }
    }
  }

  /** A room that holds nothing has nothing to release, and a block that ends keeps what it did. */
  lemma NothingElseMoves(h: Holdings, room: Room, workspace: Option<Path>, proposal: Option<Path>, body: seq<Op>)
    requires Inverse(h)
    ensures room !in h.paths ==> ReleaseIn(h, room, workspace) == h
    ensures Perform(h, DoClaiming(room, proposal, body, false)) ==
              if ClaimIn(h, room, proposal).1.Claimed? then PerformAll(ClaimIn(h, room, proposal).0, body) else h
    ensures !ClaimIn(h, room, proposal).1.Claimed? ==> Perform(h, DoClaiming(room, proposal, body, true)) == h
  {
  }

  /**
    Whatever its body did, a `claiming` block that raises leaves its room without the path
    it claimed, and every other room as the body left it.
    */
  lemma RaisingBlockGivesBack(h: Holdings, room: Room, proposal: Option<Path>, body: seq<Op>)
    requires Inverse(h) && ClaimIn(h, room, proposal).1.Claimed?
    ensures var (held, claim) := ClaimIn(h, room, proposal);
            var left := PerformAll(held, body);
            var after := Perform(h, DoClaiming(room, proposal, body, true));
            && !(room in after.paths && after.paths[room] == claim.path)
            && (forall r :: r != room ==> (r in after.paths <==> r in left.paths))
            && (forall r :: r != room && r in left.paths ==> after.paths[r] == left.paths[r])
  {
  }

  /**
    It restores the maps exactly when its claim failed, or its room held nothing before and
    the body left the maps as it found them or as they were before the claim; a room that
    already held its path loses it.
    */
  lemma RaisingBlockRestores(h: Holdings, room: Room, proposal: Option<Path>, body: seq<Op>)
    requires Inverse(h)
    ensures var (held, claim) := ClaimIn(h, room, proposal);
            var left := PerformAll(held, body);
            Perform(h, DoClaiming(room, proposal, body, true)) == h <==>
            (claim.Claimed? ==> room !in h.paths && (left == held || left == h))
  {
    var (held, claim) := ClaimIn(h, room, proposal);
    if claim.Claimed? {
      ClaimKeepsInverse(h, room, proposal);
      EveryRunKeepsInverse(held, body);
      ReleaseExactly(PerformAll(held, body), h, room, claim.path);
    }
  }

  /** Releasing a path leads to maps without the room exactly from those with or without the claim. */
  lemma ReleaseExactly(left: Holdings, h: Holdings, room: Room, path: Path)
    requires Inverse(left) && Inverse(h)
    requires if room in h.paths then h.paths[room] == path else path !in h.owners
    ensures ReleaseIn(left, room, Some(path)) == h <==>
              room !in h.paths && (left == Holdings(h.paths[room := path], h.owners[path := room]) || left == h)
  {
    var after := ReleaseIn(left, room, Some(path));
    var held := Holdings(h.paths[room := path], h.owners[path := room]);
    if room in left.paths && left.paths[room] == path {
      assert room !in after.paths;
      if after == h {
        assert left.paths == held.paths && left.owners == held.owners;
      }
      if left == held && room !in h.paths {
        assert after.paths == h.paths && after.owners == h.owners;
      }
    }
  }

  // ---- where a room's workspace is ----------------------------------------------------

  /** A path below the root as its segments, "." and ".." resolved; ".." at the top stays there. */
  function Normalise(segments: seq<string>): seq<string> {
    if segments == [] then []
    else
      var before := Normalise(segments[..|segments| - 1]);
      var last := segments[|segments| - 1];
      if last == "" || last == "." then before
      else if last == ".." then (if before == [] then [] else before[..|before| - 1])
      else before + [last]
  }

  /** The workspace under a root for a room id's segments; None when it would not be inside. */
  function WorkspaceFor(root: seq<string>, absolute: bool, room: seq<string>): Option<seq<string>> {
    var resolved := Normalise(if absolute then room else Normalise(root) + room);
    if Normalise(root) < resolved then Some(resolved) else None
  }

  predicate Plain(segments: seq<string>) {
    forall i :: 0 <= i < |segments| ==> segments[i] != "" && segments[i] != "." && segments[i] != ".."
  }

  lemma {:induction false} NormalIsPlain(segments: seq<string>)
    ensures Plain(Normalise(segments))
  {
    if segments != [] {
      NormalIsPlain(segments[..|segments| - 1]);
    }
  }

  lemma {:induction false} PlainIsNormal(base: seq<string>, segments: seq<string>)
    requires Plain(segments)
    ensures Normalise(base + segments) == Normalise(base) + segments
  {
    if segments == [] {
      assert base + segments == base;
    } else {
      var n := |segments| - 1;
      PlainIsNormal(base, segments[..n]);
      assert (base + segments)[..|base| + n] == base + segments[..n];
      assert Normalise(base) + segments[..n] + [segments[n]] == Normalise(base) + segments;
    }
  }

  /**
    A workspace lies strictly inside the root, in normal form; a plain non-empty room id
    always gets its own directory there.
    */
  lemma WorkspacesAreInside(root: seq<string>, absolute: bool, room: seq<string>)
    ensures WorkspaceFor(root, absolute, room).Some? ==>
              Plain(WorkspaceFor(root, absolute, room).value) && Normalise(root) < WorkspaceFor(root, absolute, room).value
    ensures !absolute && Plain(room) && room != [] ==>
              WorkspaceFor(root, absolute, room) == Some(Normalise(root) + room)
  {
    NormalIsPlain(if absolute then room else Normalise(root) + room);
    if !absolute && Plain(room) {
      NormalIsPlain(root);
      PlainIsNormal(Normalise(root), room);
      PlainIsNormal([], Normalise(root));
      assert [] + Normalise(root) == Normalise(root);
    }
  }

  /** "." and empty segments change nothing, and ".." undoes the last segment or stays at the top. */
  lemma DotsMoveAsUsual(base: seq<string>, name: string)
    ensures Normalise(base + ["."]) == Normalise(base) && Normalise(base + [""]) == Normalise(base)
    ensures Normalise([".."]) == []
    ensures Plain([name]) ==> Normalise(base + [name] + [".."]) == Normalise(base)
  {
    assert (base + ["."])[..|base|] == base && (base + [""])[..|base|] == base;
    assert [".."][..0] == [];
    if Plain([name]) {
      assert [name][0] == name;
      assert (base + [name])[..|base|] == base;
      assert (base + [name] + [".."])[..|base| + 1] == base + [name];
    }
  }

  lemma {:induction false} NormaliseOnce(base: seq<string>, rest: seq<string>)
    ensures Normalise(Normalise(base) + rest) == Normalise(base + rest)
  {
    if rest == [] {
      assert Normalise(base) + rest == Normalise(base) && base + rest == base;
      NormalIsPlain(base);
      PlainIsNormal([], Normalise(base));
      assert [] + Normalise(base) == Normalise(base);
    } else {
      var n := |rest| - 1;
      NormaliseOnce(base, rest[..n]);
      assert (base + rest)[..|base| + n] == base + rest[..n];
      assert (Normalise(base) + rest)[..|Normalise(base)| + n] == Normalise(base) + rest[..n];
    }
  }

  /** A room gets what its id names below the root, or for an absolute id anywhere, if that is inside the root. */
  lemma WorkspaceIsWhatTheIdNames(root: seq<string>, absolute: bool, room: seq<string>, p: seq<string>)
    ensures WorkspaceFor(root, absolute, room) == Some(p) <==>
              p == Normalise(if absolute then room else root + room) && Normalise(root) < p
  {
    NormaliseOnce(root, room);
  }

  // ---- the object ---------------------------------------------------------------------

  class RoomWorkspaces {
    var paths: map<Room, Path>
    var owners: map<Path, Room>

    function View(): Holdings
      reads this
    {
      Holdings(paths, owners)
    }

    constructor ()
      ensures View() == Holdings(map[], map[])
    {
      paths, owners := map[], map[];
    }

    /** `claim`; an empty given workspace counts as none, and then `resolved` is used. */
    method Claim(room: Room, workspace: Option<Path>, resolved: Option<Path>) returns (claim: Claim)
      requires Inverse(View())
      modifies this
      ensures Inverse(View())
      ensures (View(), claim) ==
              ClaimIn(old(View()), room, if workspace.Some? && workspace.value != "" then workspace else resolved)
    {
      ClaimKeepsInverse(View(), room, if workspace.Some? && workspace.value != "" then workspace else resolved);
      var path: Path;
      if room in paths {
        path := paths[room];
      } else if workspace.Some? && workspace.value != "" {
        path := workspace.value;
      } else if resolved.Some? {
        path := resolved.value;
      } else {
        return Unresolved;
      }
      if path in owners && owners[path] != room {
        return Refused;
      }
      owners := owners[path := room];
      paths := paths[room := path];
      return Claimed(path);
    }

    /** `release`. */
    method Release(room: Room, workspace: Option<Path>)
      requires Inverse(View())
      modifies this
      ensures Inverse(View()) && View() == ReleaseIn(old(View()), room, workspace)
    {
      ReleaseKeepsInverse(View(), room, workspace);
      if room !in paths || (workspace.Some? && workspace.value != paths[room]) {
        return;
      }
      var path := paths[room];
      if path in owners && owners[path] == room {
        owners := owners - {path};
      }
      paths := paths - {room};
    }
  }
}
