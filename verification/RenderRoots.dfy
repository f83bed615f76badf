/**
 Claiming render roots (scripts/k8s/render.py): the component walk against a file tree with symbolic
 links, the output path checks, and the directory-then-marker claim.
 */
module RenderRoots {
  import opened Wrappers
  import opened Collections

  // ----- paths and file trees -----

  /** The components of an absolute path. */
  type Path = seq<string>

  datatype Node = Dir | File | Link(absolute: bool, target: Path)

  type Tree = map<Path, Node>

  predicate WellFormed(tree: Tree) {
    && [] in tree && tree[[]].Dir?
    && forall p :: p in tree && p != [] ==> Parent(p) in tree && tree[Parent(p)].Dir?
  }

  /** The parent of the root is the root. */
  function Parent(p: Path): Path {
    if p == [] then [] else p[..|p| - 1]
  }

  predicate Proper(c: string) {
    c != "." && c != ".."
  }

  function Step(base: Path, c: string): Path {
    if c == "." then base else if c == ".." then Parent(base) else base + [c]
  }

  /** The lexical normal form of a path that continues `base`. */
  function Normal(base: Path, rest: Path): Path
    decreases |rest|
  {
    if rest == [] then base else Normal(Step(base, rest[0]), rest[1..])
  }

  // ----- pathname resolution, POSIX.1-2017 Base Definitions section 4.13 -----

  datatype Lookup = Reached(at: Path) | NoEntry | OtherError

  /** Follows links, up to a number of them; `..` is the parent of the directory reached so far. */
  function Resolve(tree: Tree, base: Path, rest: Path, links: nat): Lookup
    decreases links, |rest|
  {
    if rest == [] then Reached(base)
    else if !(base in tree && tree[base].Dir?) then OtherError
    else if rest[0] == "." then Resolve(tree, base, rest[1..], links)
    else if rest[0] == ".." then Resolve(tree, Parent(base), rest[1..], links)
    else
      var at := base + [rest[0]];
      if at !in tree then NoEntry
      else if !tree[at].Link? then Resolve(tree, at, rest[1..], links)
      else if links == 0 then OtherError
      else Resolve(tree, if tree[at].absolute then [] else base, tree[at].target + rest[1..], links - 1)
  }

  datatype Status = Missing | Found(node: Node) | StatError

  /** Resolution that does not follow a link in the last component. */
  function Lstat(tree: Tree, p: Path, links: nat): Status {
    if p == [] then Found(Dir)
    else
      match Resolve(tree, [], Parent(p), links)
      case NoEntry => Missing
      case OtherError => StatError
      case Reached(d) =>
        if !(d in tree && tree[d].Dir?) then StatError
        else if d + [p[|p| - 1]] in tree then Found(tree[d + [p[|p| - 1]]])
        else Missing
  }

  predicate IsDir(tree: Tree, p: Path, links: nat) {
    var found := Resolve(tree, [], p, links);
    found.Reached? && found.at in tree && tree[found.at].Dir?
  }

  predicate Exists(tree: Tree, p: Path, links: nat) {
    var found := Resolve(tree, [], p, links);
    found.Reached? && found.at in tree
  }

  // ----- the component walk -----

  /** No prefix of the path is a link. */
  ghost predicate Plain(tree: Tree, p: Path) {
    forall i :: 0 <= i <= |p| ==> p[..i] in tree ==> !tree[p[..i]].Link?
  }

  ghost predicate ProperNames(p: Path) {
    forall i :: 0 <= i < |p| ==> Proper(p[i])
  }

  /** The location the walk examines at component i. */
  function Visited(parts: Path, i: nat): Path
    requires i < |parts|
  {
    Normal([], parts[..i + 1])
  }

  /** Component i neither is a link nor makes the status call fail. */
  predicate Passes(tree: Tree, parts: Path, i: nat, links: nat)
    requires i < |parts|
  {
    Proper(parts[i]) ==>
      var status := Lstat(tree, Visited(parts, i), links);
      !status.StatError? && !(status.Found? && status.node.Link?)
  }

  ghost predicate AllPass(tree: Tree, parts: Path, n: nat, links: nat)
    requires n <= |parts|
  {
    forall i :: 0 <= i < n ==> Passes(tree, parts, i, links)
  }

  lemma {:induction false} NormalSnoc(base: Path, rest: Path, i: nat)
    requires i < |rest|
    ensures Normal(base, rest[..i + 1]) == Step(Normal(base, rest[..i]), rest[i])
    decreases |rest|
  {
    if i > 0 {
      NormalSnoc(Step(base, rest[0]), rest[1..], i - 1);
      assert rest[..i + 1][1..] == rest[1..][..i] && rest[..i][1..] == rest[1..][..i - 1];
    }
  }

  lemma {:induction false} PlainResolves(tree: Tree, base: Path, rest: Path, links: nat)
    requires WellFormed(tree) && Plain(tree, base + rest) && ProperNames(rest) && base in tree
    ensures base + rest in tree <==> Resolve(tree, base, rest, links).Reached?
    ensures Resolve(tree, base, rest, links).Reached? ==> Resolve(tree, base, rest, links).at == base + rest
    decreases |rest|
  {
    if rest == [] {
      assert base + rest == base;
    } else {
      var at := base + [rest[0]];
      assert at + rest[1..] == base + rest;
      assert at == (base + rest)[..|base| + 1];
      if at in tree {
        assert Parent(at) == base;
        PlainResolves(tree, at, rest[1..], links);
      } else {
        PrefixesExist(tree, base + rest, |base| + 1);
      }
      if !tree[base].Dir? {
        assert at in tree ==> Parent(at) == base;
      }
    }
  }

  lemma {:induction false} PrefixesExist(tree: Tree, p: Path, n: nat)
    requires WellFormed(tree) && n <= |p|
    ensures p in tree ==> p[..n] in tree && (n < |p| ==> tree[p[..n]].Dir?)
    decreases |p| - n
  {
    if n == |p| {
      assert p[..n] == p;
    } else {
      PrefixesExist(tree, p, n + 1);
      assert Parent(p[..n + 1]) == p[..n];
    }
  }

  /** Below a path without links, the status call reports the entry itself. */
  lemma LstatPlain(tree: Tree, p: Path, links: nat)
    requires WellFormed(tree) && p != [] && Plain(tree, Parent(p)) && ProperNames(p)
    ensures p in tree ==> Lstat(tree, p, links) == Found(tree[p])
    ensures p !in tree ==> !Lstat(tree, p, links).Found?
  {
    var parent := Parent(p);
    assert [] + parent == parent && parent + [p[|p| - 1]] == p;
    PlainResolves(tree, [], parent, links);
    if p in tree {
      PrefixesExist(tree, p, |p| - 1);
    }
  }

  lemma PlainPush(tree: Tree, p: Path, c: string, links: nat)
    requires WellFormed(tree) && Plain(tree, p) && ProperNames(p) && Proper(c)
    requires var status := Lstat(tree, p + [c], links); !(status.Found? && status.node.Link?)
    ensures Plain(tree, p + [c]) && ProperNames(p + [c])
  {
    assert Parent(p + [c]) == p;
    LstatPlain(tree, p + [c], links);
    forall i | 0 <= i <= |p| + 1 ensures (p + [c])[..i] in tree ==> !tree[(p + [c])[..i]].Link? {
      if i <= |p| {
        assert (p + [c])[..i] == p[..i];
      } else {
        assert (p + [c])[..i] == p + [c];
      }
    }
  }

  lemma PlainPop(tree: Tree, p: Path)
    requires Plain(tree, p) && ProperNames(p)
    ensures Plain(tree, Parent(p)) && ProperNames(Parent(p))
  {
    forall i | 0 <= i <= |Parent(p)| ensures Parent(p)[..i] in tree ==> !tree[Parent(p)[..i]].Link? {
      assert Parent(p)[..i] == p[..i];
    }
  }

  datatype WalkError = ThroughLink | StatFailed

  /** The walk; the caller gets what `os.path.abspath` makes of the same components. */
  method AbsolutePathWithoutSymlinks(tree: Tree, parts: Path, links: nat) returns (r: Result<Path, WalkError>)
    requires WellFormed(tree)
    ensures r.Success? <==> AllPass(tree, parts, |parts|, links)
    ensures r.Success? ==> r.value == Normal([], parts) && Plain(tree, r.value) && ProperNames(r.value)
    ensures r == Failure(ThroughLink) ==>
              exists i :: 0 <= i < |parts| && AllPass(tree, parts, i, links) && Proper(parts[i])
                          && Visited(parts, i) in tree && tree[Visited(parts, i)].Link?
  {
    var current: Path := [];
    for i := 0 to |parts|
      invariant current == Normal([], parts[..i])
      invariant Plain(tree, current) && ProperNames(current)
      invariant AllPass(tree, parts, i, links)
    {
      NormalSnoc([], parts, i);
      var component := parts[i];
      PlainPop(tree, current);
      if component == "." {
        continue;
      }
      if component == ".." {
        current := Parent(current);
        continue;
      }
      ghost var earlier := current;
      current := current + [component];
      assert current == Visited(parts, i);
      var status := Lstat(tree, current, links);
      if status.StatError? {
        assert !Passes(tree, parts, i, links);
        return Failure(StatFailed);
      }
      if status.Found? && status.node.Link? {
        assert !Passes(tree, parts, i, links);
        assert ProperNames(current) && Parent(current) == earlier;
        LstatPlain(tree, current, links);
        return Failure(ThroughLink);
      }
      PlainPush(tree, earlier, component, links);
    }
    assert parts[..|parts|] == parts;
    var normal := AbsPath(parts);
    r := Success(normal);
  }

  /** `os.path.abspath` on an absolute path. */
  method AbsPath(parts: Path) returns (normal: Path)
    ensures normal == Normal([], parts)
  {
    normal := [];
    for i := 0 to |parts|
      invariant normal == Normal([], parts[..i]) && ProperNames(normal)
    {
      NormalSnoc([], parts, i);
      if parts[i] == "." {
        continue;
      }
      if parts[i] != ".." || (normal != [] && normal[|normal| - 1] == "..") {
        normal := normal + [parts[i]];
      } else if normal != [] {
        normal := normal[..|normal| - 1];
      }
    }
    assert parts[..|parts|] == parts;
  }

  // ----- what the normal form is -----

  lemma {:induction false} NormalAppends(base: Path, a: Path, b: Path)
    ensures Normal(base, a + b) == Normal(Normal(base, a), b)
    decreases |a|
  {
    if a == [] {
      assert a + b == b;
    } else {
      assert (a + b)[1..] == a[1..] + b;
      NormalAppends(Step(base, a[0]), a[1..], b);
    }
  }

  lemma {:induction false} NormalKeepsProper(base: Path, p: Path)
    requires ProperNames(p)
    ensures Normal(base, p) == base + p
    decreases |p|
  {
    if p == [] {
      assert base + p == base;
    } else {
      NormalKeepsProper(base + [p[0]], p[1..]);
      assert base + [p[0]] + p[1..] == base + p;
    }
  }

  /**
   The normal form is determined by four laws: dots vanish, a name followed by two dots vanishes,
   two dots at the root vanish, and a path of proper names is already normal.
   */
  lemma NormalForm(a: Path, b: Path, name: string)
    requires Proper(name)
    ensures Normal([], a + ["."] + b) == Normal([], a + b)
    ensures Normal([], a + [name, ".."] + b) == Normal([], a + b)
    ensures Normal([], [".."] + b) == Normal([], b)
    ensures ProperNames(a) ==> Normal([], a) == a
    ensures Normal([], Normal([], a) + b) == Normal([], a + b)
  {
    hide Normal;
    DotsVanish(Normal([], a), name);
    Cancels(a, ["."], b);
    Cancels(a, [name, ".."], b);
    DotsVanish([], name);
    Cancels([], [".."], b);
    assert [] + [".."] + b == [".."] + b && [] + b == b;
    NormalIsProper(a);
    NormalKeepsProper([], Normal([], a));
    assert [] + Normal([], a) == Normal([], a) && [] + a == a;
    NormalAppends([], Normal([], a), b);
    NormalAppends([], a, b);
    if ProperNames(a) {
      NormalKeepsProper([], a);
    }
  }

  lemma DotsVanish(base: Path, name: string)
    requires Proper(name)
    ensures Normal(base, ["."]) == base && Normal(base, [name, ".."]) == base && Normal([], [".."]) == Normal([], []) == []
  {
    assert ["."][1..] == [] && [".."][1..] == [] && [name, ".."][1..] == [".."];
    assert Parent(base + [name]) == base;
  }

  lemma Cancels(a: Path, middle: Path, b: Path)
    requires Normal(Normal([], a), middle) == Normal([], a)
    ensures Normal([], a + middle + b) == Normal([], a + b)
  {
    hide Normal;
    NormalAppends([], a + middle, b);
    NormalAppends([], a, middle);
    NormalAppends([], a, b);
  }

  lemma {:induction false} NormalIsProper(p: Path)
    ensures ProperNames(Normal([], p))
  {
    if p != [] {
      NormalIsProper(p[..|p| - 1]);
      NormalSnoc([], p, |p| - 1);
      assert p[..|p|] == p;
    }
  }

  // ----- the walk against pathname resolution -----

  /** None of the names met on the way is a link. */
  predicate LinkFree(tree: Tree, base: Path, rest: Path)
    decreases |rest|
  {
    rest == [] ||
    (&& (Proper(rest[0]) && base + [rest[0]] in tree ==> !tree[base + [rest[0]]].Link?)
     && LinkFree(tree, Step(base, rest[0]), rest[1..]))
  }

  /** Every component is met in an existing directory and, if it is a name, exists. */
  predicate AllPresent(tree: Tree, base: Path, rest: Path)
    decreases |rest|
  {
    rest == [] ||
    (&& base in tree && tree[base].Dir?
     && (Proper(rest[0]) ==> base + [rest[0]] in tree)
     && AllPresent(tree, Step(base, rest[0]), rest[1..]))
  }

  lemma {:induction false} LinkFreeWalk(tree: Tree, base: Path, rest: Path, links: nat)
    requires WellFormed(tree) && LinkFree(tree, base, rest) && base in tree
    ensures Resolve(tree, base, rest, links).Reached? ==> Resolve(tree, base, rest, links).at == Normal(base, rest)
    ensures Resolve(tree, base, rest, links).Reached? <==> AllPresent(tree, base, rest)
    decreases |rest|
  {
    if rest != [] && tree[base].Dir? {
      if rest[0] == "." {
        LinkFreeWalk(tree, base, rest[1..], links);
      } else if rest[0] == ".." {
        LinkFreeWalk(tree, Parent(base), rest[1..], links);
      } else if base + [rest[0]] in tree {
        LinkFreeWalk(tree, base + [rest[0]], rest[1..], links);
      }
    }
  }

  /** What the loop has found of the names met so far, in terms of the tree. */
  lemma {:induction false} PassedIsPlain(tree: Tree, parts: Path, i: nat, links: nat)
    requires WellFormed(tree) && i <= |parts| && AllPass(tree, parts, i, links)
    ensures Plain(tree, Normal([], parts[..i])) && ProperNames(Normal([], parts[..i]))
  {
    if i > 0 {
      PassedIsPlain(tree, parts, i - 1, links);
      NormalSnoc([], parts, i - 1);
      var earlier := Normal([], parts[..i - 1]);
      assert Passes(tree, parts, i - 1, links);
      PlainPop(tree, earlier);
      if Proper(parts[i - 1]) {
        PlainPush(tree, earlier, parts[i - 1], links);
      }
    }
  }

  lemma {:induction false} PassedIsLinkFree(tree: Tree, parts: Path, i: nat, links: nat)
    requires WellFormed(tree) && i <= |parts| && AllPass(tree, parts, |parts|, links)
    ensures LinkFree(tree, Normal([], parts[..i]), parts[i..])
    decreases |parts| - i
  {
    if i < |parts| {
      PassedIsLinkFree(tree, parts, i + 1, links);
      NormalSnoc([], parts, i);
      assert parts[i..][1..] == parts[i + 1..];
      PassedIsPlain(tree, parts, i + 1, links);
      var at := Normal([], parts[..i + 1]);
      assert at[..|at|] == at;
    }
  }

  /**
   When the walk accepts, pathname resolution of the unnormalised path succeeds exactly when every
   component is present, and then it reaches the normal form the walk returned.
   */
  lemma WalkAgreesWithResolution(tree: Tree, parts: Path, links: nat)
    requires WellFormed(tree) && AllPass(tree, parts, |parts|, links)
    ensures Resolve(tree, [], parts, links).Reached? <==> AllPresent(tree, [], parts)
    ensures Resolve(tree, [], parts, links).Reached? ==> Resolve(tree, [], parts, links).at == Normal([], parts)
  {
    PassedIsLinkFree(tree, parts, 0, links);
    assert parts[..0] == [] && parts[0..] == parts;
    LinkFreeWalk(tree, [], parts, links);
  }

  // ----- the output path checks -----

  const MANAGED_MARKER := ".it4931-k8s-render-root"

  datatype RenderError =
    | Walk(error: WalkError)
    | FilesystemRoot
    | ChildOfRoot
    | ParentMissing
    | AlreadyExists
    | RootsUnknown
    | OverlapsProtected
    | GitMetadata
    | UnderManagedRoot
    | OsFailure

  predicate Overlap(a: Path, b: Path) {
    a <= b || b <= a
  }

  function Marker(root: Path): Path {
    root + [MANAGED_MARKER]
  }

  /** Why a destination is refused; the protected roots are None when Git cannot list them. */
  ghost predicate MayClaim(tree: Tree, destination: Path, protected: Option<set<Path>>, links: nat) {
    && |destination| > 1
    && IsDir(tree, Parent(destination), links)
    && !Exists(tree, destination, links)
    && !(Lstat(tree, destination, links).Found? && Lstat(tree, destination, links).node.Link?)
    && protected.Some?
    && (forall root :: root in protected.value ==> !Overlap(destination, root))
    && ".git" !in destination
    && (forall n :: 0 <= n < |destination| ==> !Exists(tree, Marker(destination[..n]), links))
  }

  method ValidateOutputPath(tree: Tree, destination: Path, protected: Option<set<Path>>, links: nat)
    returns (refusal: Option<RenderError>)
    ensures refusal == None <==> MayClaim(tree, destination, protected, links)
  {
    if destination == [] {
      return Some(FilesystemRoot);
    }
    if Parent(destination) == [] {
      return Some(ChildOfRoot);
    }
    if !IsDir(tree, Parent(destination), links) {
      return Some(ParentMissing);
    }
    var status := Lstat(tree, destination, links);
    if Exists(tree, destination, links) || (status.Found? && status.node.Link?) {
      return Some(AlreadyExists);
    }
    if protected.None? {
      return Some(RootsUnknown);
    }
    var roots := protected.value;
    while roots != {}
      invariant roots <= protected.value
      invariant forall root :: root in protected.value - roots ==> !Overlap(destination, root)
      decreases roots
    {
      var root: Path :| root in roots;
      if destination == root || destination <= root || root <= destination {
        assert Overlap(destination, root);
        return Some(OverlapsProtected);
      }
      roots := roots - {root};
    }
    if ".git" in destination {
      return Some(GitMetadata);
    }
    var ancestor := Parent(destination);
    while true
      invariant ancestor == destination[..|ancestor|] && |ancestor| < |destination|
      invariant forall n :: |ancestor| < n < |destination| ==> !Exists(tree, Marker(destination[..n]), links)
      decreases |ancestor|
    {
      if Exists(tree, Marker(ancestor), links) {
        assert Exists(tree, Marker(destination[..|ancestor|]), links);
        return Some(UnderManagedRoot);
      }
      if ancestor == Parent(ancestor) {
        break;
      }
      ancestor := Parent(ancestor);
    }
    return None;
  }

  // ----- claiming roots, over any run -----

  /** The tree only gains entries. */
  predicate Grows(earlier: Tree, later: Tree) {
    forall p :: p in earlier ==> p in later && later[p] == earlier[p]
  }

  ghost predicate NonNested(roots: set<Path>) {
    forall a, b :: a in roots && b in roots && a != b ==> !Overlap(a, b)
  }

  /** A root that was claimed: a real directory that holds a real marker. */
  predicate Marked(tree: Tree, root: Path) {
    root in tree && tree[root].Dir? && Marker(root) in tree && tree[Marker(root)].File?
  }

  /** Claimed roots are marked, lie below the top level and outside Git metadata, do not nest, and do not overlap protected ones. */
  ghost predicate Apart(tree: Tree, claimed: set<Path>, protected: set<Path>) {
    && NonNested(claimed)
    && (forall root :: root in claimed ==> Marked(tree, root) && ProperNames(root) && |root| > 1 && ".git" !in root)
    && (forall root, p :: root in claimed && p in protected ==> !Overlap(root, p))
  }

  lemma ApartGrows(earlier: Tree, later: Tree, claimed: set<Path>, protected: set<Path>)
    requires Apart(earlier, claimed, protected) && Grows(earlier, later)
    ensures Apart(later, claimed, protected)
  {
    forall root | root in claimed ensures Marked(later, root) {
      assert Marked(earlier, root);
    }
  }

  lemma ApartClaims(tree: Tree, destination: Path, claimed: set<Path>, protected: set<Path>)
    requires Apart(tree, claimed, protected) && Marked(tree, destination) && ProperNames(destination)
    requires Separate(destination, claimed, protected) && |destination| > 1 && ".git" !in destination
    ensures Apart(tree, claimed + {destination}, protected)
  {
    assert forall root :: root in claimed ==> !Overlap(destination, root) && !Overlap(root, destination);
  }

  lemma GrowsOn(a: Tree, b: Tree, c: Tree)
    ensures Grows(a, a)
    ensures Grows(a, b) && Grows(b, c) ==> Grows(a, c)
  {
  }

  ghost predicate Separate(destination: Path, claimed: set<Path>, protected: set<Path>) {
    && (forall root :: root in claimed ==> !Overlap(destination, root))
    && (forall p :: p in protected ==> !Overlap(destination, p))
  }

  class RenderHost {
    var tree: Tree
    /** The roots whose marker an attempt has created. */
    ghost var claimed: set<Path>
    /** How many system calls and questions to Git have failed so far. */
    ghost var failures: nat
    const protected: set<Path>
    const links: nat

    constructor (tree: Tree, protected: set<Path>, links: nat)
      requires WellFormed(tree)
      ensures Valid() && claimed == {} && failures == 0 && this.links == links && this.tree == tree && this.protected == protected
    {
      this.tree, this.claimed, this.failures, this.protected, this.links := tree, {}, 0, protected, links;
    }

    ghost predicate Valid()
      reads this`tree, this`claimed
    {
      WellFormed(tree) && Apart(tree, claimed, protected)
    }

    /** Anyone may add entries at any time; nobody deletes. */
    method Disturb()
      requires Valid()
      modifies this`tree
      ensures Valid() && Grows(old(tree), tree)
    {
      var later: Tree := *;
      if WellFormed(later) && Grows(tree, later) {
        ApartGrows(tree, later, claimed, protected);
        tree := later;
      }
    }

    /** `mkdir` and the exclusive `touch`: a new entry in an existing directory, or an error. */
    method Add(p: Path, node: Node) returns (ok: bool)
      requires Valid() && p != []
      modifies this`tree, this`failures
      ensures Valid() && Grows(old(tree), tree)
      ensures failures == old(failures) + if ok then 0 else 1
      ensures ok ==> p !in old(tree) && p in tree && tree[p] == node
    {
      ok := *;
      if p in tree || !(Parent(p) in tree && tree[Parent(p)].Dir?) {
        ok := false;
      }
      failures := failures + if ok then 0 else 1;
      if ok {
        AddedIsWellFormed(tree, p, node);
        ApartGrows(tree, tree[p := node], claimed, protected);
        tree := tree[p := node];
      }
    }

    /** Make the directory, then its marker; the attempt may stop before, between or after. */
    method Claim(destination: Path) returns (r: Result<Path, RenderError>)
      requires Valid() && ProperNames(destination) && Separate(destination, claimed, protected)
      requires |destination| > 1 && ".git" !in destination
      modifies this
      ensures Valid() && Grows(old(tree), tree)
      ensures claimed == old(claimed) || (claimed == old(claimed) + {destination} && destination !in old(tree))
      ensures r.Success? ==> r.value == destination && destination in claimed
      ensures failures >= old(failures) && (r.Success? <==> failures == old(failures))
    {
      hide WellFormed, Apart, Separate;
      Disturb();
      var made := Add(destination, Dir);
      Disturb();
      if !made {
        return Failure(OsFailure);
      }
      var marked := Add(Marker(destination), File);
      if !marked {
        return Failure(OsFailure);
      }
      ApartClaims(tree, destination, claimed, protected);
      claimed := claimed + {destination};
      Disturb();
      r := Success(destination);
    }

    /** One attempt: walk, check, claim. Without a failure it succeeds exactly when the walk and the checks accept. */
    method RenderOverlay(parts: Path) returns (r: Result<Path, RenderError>)
      requires Valid()
      modifies this
      ensures Valid() && Grows(old(tree), tree)
      ensures claimed == old(claimed) ||
              (claimed == old(claimed) + {Normal([], parts)} && Normal([], parts) !in old(tree)
               && AllPass(old(tree), parts, |parts|, links) && MayClaim(old(tree), Normal([], parts), Some(protected), links))
      ensures failures >= old(failures)
      ensures r.Success? <==>
                failures == old(failures) && AllPass(old(tree), parts, |parts|, links)
                && MayClaim(old(tree), Normal([], parts), Some(protected), links)
      ensures r.Success? ==> r.value == Normal([], parts) && r.value in claimed
    {
      hide Grows, WellFormed, Apart, Separate, NonNested, MayClaim, AllPass;
      GrowsOn(tree, tree, tree);
      var walked := AbsolutePathWithoutSymlinks(tree, parts, links);
      if walked.Failure? {
        return Failure(Walk(walked.error));
      }
      var destination := walked.value;
      var gitAnswers: bool := *;
      failures := failures + if gitAnswers then 0 else 1;
      var refusal := ValidateOutputPath(tree, destination, if gitAnswers then Some(protected) else None, links);
      if refusal.Some? {
        return Failure(refusal.value);
      }
      if !gitAnswers {
        UnknownRootsRefused(tree, destination, links);
      }
      ClaimIsSeparate(tree, destination, claimed, protected, links);
      r := Claim(destination);
    }
  }

  lemma UnknownRootsRefused(tree: Tree, destination: Path, links: nat)
    ensures !MayClaim(tree, destination, None, links)
  {
  }

  lemma AddedIsWellFormed(tree: Tree, p: Path, node: Node)
    requires WellFormed(tree) && p !in tree && p != [] && Parent(p) in tree && tree[Parent(p)].Dir?
    ensures WellFormed(tree[p := node]) && Grows(tree, tree[p := node])
  {
  }

  lemma PresentIsPlain(tree: Tree, p: Path)
    requires WellFormed(tree) && p in tree && !tree[p].Link?
    ensures Plain(tree, p)
  {
    forall i | 0 <= i <= |p| ensures p[..i] in tree ==> !tree[p[..i]].Link? {
      PrefixesExist(tree, p, i);
      assert p[..|p|] == p;
    }
  }

  lemma PresentExists(tree: Tree, p: Path, links: nat)
    requires WellFormed(tree) && p in tree && !tree[p].Link? && ProperNames(p)
    ensures Exists(tree, p, links)
  {
    PresentIsPlain(tree, p);
    assert [] + p == p;
    PlainResolves(tree, [], p, links);
  }

  lemma AncestorPresent(tree: Tree, p: Path, q: Path)
    requires WellFormed(tree) && q in tree
    ensures p <= q ==> p in tree
  {
    if p <= q {
      PrefixesExist(tree, q, |p|);
      assert q[..|p|] == p;
    }
  }

  /** A destination that passes the checks neither contains nor lies in a claimed root. */
  lemma ClaimIsSeparate(tree: Tree, destination: Path, claimed: set<Path>, protected: set<Path>, links: nat)
    requires WellFormed(tree) && ProperNames(destination) && MayClaim(tree, destination, Some(protected), links)
    requires Plain(tree, destination) && Apart(tree, claimed, protected)
    ensures destination !in tree && Separate(destination, claimed, protected) && |destination| > 1 && ".git" !in destination
  {
    assert [] + destination == destination;
    PlainResolves(tree, [], destination, links);
    forall root | root in claimed ensures !Overlap(destination, root) {
      assert Marked(tree, root);
      AncestorPresent(tree, destination, root);
      PresentExists(tree, Marker(root), links);
      MarkerAbove(tree, destination, root, links);
    }
  }

  lemma MarkerAbove(tree: Tree, destination: Path, root: Path, links: nat)
    requires Exists(tree, Marker(root), links)
    ensures root <= destination ==> Exists(tree, Marker(destination[..|root|]), links)
  {
    if root <= destination {
      assert destination[..|root|] == root;
    }
  }

  /** No ancestor of the destination, down from the root, holds an entry with the marker's name. */
  ghost predicate Unmarked(tree: Tree, destination: Path) {
    forall n :: 0 <= n < |destination| ==> destination[..n] + [".it4931-k8s-render-root"] !in tree
  }

  /**
   For a destination without links on its way, the checks accept exactly a new entry below the top level, in an
   existing directory, outside Git metadata, apart from the known protected roots, and under no managed root;
   a marker that is no link makes them refuse.
   */
  lemma ClaimSpelledOut(tree: Tree, destination: Path, protected: Option<set<Path>>, links: nat)
    requires WellFormed(tree) && ProperNames(destination) && Plain(tree, destination)
    ensures Unmarked(tree, destination) ==>
              (MayClaim(tree, destination, protected, links) <==>
                 && |destination| > 1 && destination[..|destination| - 1] in tree && tree[destination[..|destination| - 1]].Dir?
                 && destination !in tree && ".git" !in destination && protected.Some?
                 && forall root :: root in protected.value ==> !(root <= destination) && !(destination <= root))
    ensures (exists n :: 0 <= n < |destination| && Marker(destination[..n]) in tree && !tree[Marker(destination[..n])].Link?) ==>
              !MayClaim(tree, destination, protected, links)
  {
    assert [] + destination == destination;
    PlainResolves(tree, [], destination, links);
    if |destination| > 1 {
      ParentResolves(tree, destination, links);
    }
    forall n | 0 <= n < |destination|
      ensures Marker(destination[..n]) !in tree ==> !Exists(tree, Marker(destination[..n]), links)
      ensures Marker(destination[..n]) in tree && !tree[Marker(destination[..n])].Link? ==> Exists(tree, Marker(destination[..n]), links)
    {
      MarkerResolves(tree, destination[..n], destination, n, links);
    }
    if protected.Some? {
      forall root ensures Overlap(destination, root) <==> root <= destination || destination <= root {
      }
    }
  }

  lemma ParentResolves(tree: Tree, destination: Path, links: nat)
    requires WellFormed(tree) && ProperNames(destination) && Plain(tree, destination) && |destination| > 1
    ensures var parent := destination[..|destination| - 1];
            IsDir(tree, Parent(destination), links) <==> parent in tree && tree[parent].Dir?
    ensures Lstat(tree, destination, links).Found? ==> !Lstat(tree, destination, links).node.Link?
  {
    var parent := destination[..|destination| - 1];
    assert [] + parent == parent == Parent(destination);
    assert forall i :: 0 <= i <= |parent| ==> parent[..i] == destination[..i];
    PlainResolves(tree, [], parent, links);
    LstatPlain(tree, destination, links);
    assert destination[..|destination|] == destination;
  }

  lemma MarkerResolves(tree: Tree, above: Path, destination: Path, n: nat, links: nat)
    requires WellFormed(tree) && ProperNames(destination) && Plain(tree, destination) && n < |destination| && above == destination[..n]
    ensures Marker(above) !in tree ==> !Exists(tree, Marker(above), links)
    ensures Marker(above) in tree && !tree[Marker(above)].Link? ==> Exists(tree, Marker(above), links)
  {
    assert forall i :: 0 <= i <= n ==> above[..i] == destination[..i];
    assert ProperNames(above) && Plain(tree, above);
    var marker := Marker(above);
    assert ProperNames(marker) && [] + marker == marker && Parent(marker) == above;
    if marker in tree {
      if !tree[marker].Link? {
        PresentExists(tree, marker, links);
      }
    } else {
      assert Plain(tree, marker) by {
        forall i | 0 <= i <= |marker| ensures marker[..i] in tree ==> !tree[marker[..i]].Link? {
          if i <= n {
            assert marker[..i] == above[..i];
          } else {
            assert marker[..i] == marker;
          }
        }
      }
      PlainResolves(tree, [], marker, links);
    }
  }

  /** Over any sequence of attempts, crashes and additions by others, claimed roots stay apart. */
  method RenderRun(host: RenderHost, attempts: seq<Path>)
    requires host.Valid()
    modifies host
    ensures host.Valid() && NonNested(host.claimed)
    ensures forall root, p :: root in host.claimed && p in host.protected ==> !(root <= p) && !(p <= root)
    ensures forall root :: root in host.claimed ==>
              && ".git" !in root && |root| > 1 && root in host.tree && host.tree[root].Dir?
              && root + [".it4931-k8s-render-root"] in host.tree && host.tree[root + [".it4931-k8s-render-root"]].File?
    ensures Grows(old(host.tree), host.tree) && old(host.claimed) <= host.claimed
  {
    for i := 0 to |attempts|
      invariant host.Valid() && Grows(old(host.tree), host.tree) && old(host.claimed) <= host.claimed
    {
      hide *;
      ghost var first, before := old(host.tree), host.tree;
      host.Disturb();
      GrowsOn(first, before, host.tree);
      before := host.tree;
      var _ := host.RenderOverlay(attempts[i]);
      GrowsOn(first, before, host.tree);
    }
    hide *;
    ApartMeans(host);
  }

  lemma ApartMeans(host: RenderHost)
    requires host.Valid()
    ensures NonNested(host.claimed)
    ensures forall root, p :: root in host.claimed && p in host.protected ==> !(root <= p) && !(p <= root)
    ensures forall root :: root in host.claimed ==>
              && ".git" !in root && |root| > 1 && root in host.tree && host.tree[root].Dir?
              && root + [".it4931-k8s-render-root"] in host.tree && host.tree[root + [".it4931-k8s-render-root"]].File?
  {
    hide WellFormed, NonNested;
    forall root, p | root in host.claimed && p in host.protected ensures !(root <= p) && !(p <= root) {
      assert !Overlap(root, p);
    }
    forall root | root in host.claimed ensures Marker(root) == root + [".it4931-k8s-render-root"] && Marked(host.tree, root) {
    }
  }

  // ----- why attempts must follow one another -----

  lemma AbsentEntry(tree: Tree, d: Path, c: string, links: nat)
    requires WellFormed(tree) && d in tree && !tree[d].Link? && ProperNames(d) && Proper(c) && d + [c] !in tree
    ensures !Exists(tree, d + [c], links) && !Lstat(tree, d + [c], links).Found?
  {
    PresentIsPlain(tree, d);
    assert Parent(d + [c]) == d && [] + (d + [c]) == d + [c];
    LstatPlain(tree, d + [c], links);
    PlainPush(tree, d, c, links);
    PlainResolves(tree, [], d + [c], links);
  }

  lemma DirectClaim(tree: Tree, d: Path, c: string, links: nat)
    requires WellFormed(tree) && d != [] && d in tree && tree[d].Dir? && ProperNames(d) && Proper(c) && d + [c] !in tree
    requires ".git" !in d + [c] && forall n :: 0 <= n <= |d| ==> Marker(d[..n]) !in tree
    ensures MayClaim(tree, d + [c], Some({}), links)
  {
    assert Parent(d + [c]) == d && [] + d == d;
    PresentIsPlain(tree, d);
    PlainResolves(tree, [], d, links);
    AbsentEntry(tree, d, c, links);
    forall n | 0 <= n < |d + [c]| ensures !Exists(tree, Marker((d + [c])[..n]), links) {
      assert (d + [c])[..n] == d[..n];
      PrefixesExist(tree, d, n);
      AbsentEntry(tree, d[..n], MANAGED_MARKER, links);
    }
  }

  /** Two attempts side by side: the second one runs between the directory and the marker of the first. */
  ghost function Interleaved(tree: Tree, outer: Path, inner: Path): Tree {
    tree[outer := Dir][inner := Dir][Marker(inner) := File][Marker(outer) := File]
  }

  /**
   Between the directory and the marker of one attempt, the checks let a second attempt claim a root
   inside it; every name they then create is free, and both roots end up marked, one inside the other.
   */
  lemma InterleavedAttemptsCanNest(tree: Tree, d: Path, outer: string, inner: string, links: nat)
    requires WellFormed(tree) && d != [] && d in tree && tree[d].Dir? && ProperNames(d)
    requires Proper(outer) && Proper(inner) && outer != ".git" && inner != ".git" && ".git" !in d
    requires d + [outer] !in tree && d + [outer, inner] !in tree && Marker(d + [outer]) !in tree
    requires inner != MANAGED_MARKER && outer != MANAGED_MARKER
    requires forall n :: 0 <= n <= |d| ==> Marker(d[..n]) !in tree
    ensures MayClaim(tree, d + [outer], Some({}), links)
    ensures MayClaim(tree[d + [outer] := Dir], d + [outer, inner], Some({}), links)
    ensures var between := tree[d + [outer] := Dir][d + [outer, inner] := Dir];
            && Marker(d + [outer, inner]) !in between
            && Marker(d + [outer]) !in between[Marker(d + [outer, inner]) := File]
    ensures var final := Interleaved(tree, d + [outer], d + [outer, inner]);
            && WellFormed(final) && Marked(final, d + [outer]) && Marked(final, d + [outer, inner])
    ensures Overlap(d + [outer], d + [outer, inner])
  {
    DirectClaim(tree, d, outer, links);
    var parent, between := d + [outer], tree[d + [outer] := Dir];
    assert Parent(parent) == d;
    AddedIsWellFormed(tree, parent, Dir);
    assert d + [outer, inner] == parent + [inner];
    forall n | 0 <= n <= |parent| ensures Marker(parent[..n]) !in between {
      if n <= |d| {
        assert parent[..n] == d[..n];
      } else {
        assert parent[..n] == parent;
      }
    }
    DirectClaim(between, parent, inner, links);
    BothMarked(between, parent, inner);
  }

  lemma BothMarked(tree: Tree, outer: Path, name: string)
    requires WellFormed(tree) && outer != [] && outer in tree && tree[outer].Dir? && name != MANAGED_MARKER
    requires outer + [name] !in tree && Marker(outer) !in tree
    ensures var inner := outer + [name];
            var final := tree[inner := Dir][Marker(inner) := File][Marker(outer) := File];
            && Marker(inner) !in tree[inner := Dir] && Marker(outer) !in tree[inner := Dir][Marker(inner) := File]
            && WellFormed(final) && Marked(final, outer) && Marked(final, inner)
  {
    hide WellFormed;
    var inner := outer + [name];
    assert Parent(inner) == Parent(Marker(outer)) == outer && Parent(Marker(inner)) == inner;
    assert inner[|outer|] == name && Marker(outer)[|outer|] == MANAGED_MARKER;
    if Marker(inner) in tree {
      AncestorPresent(tree, inner, Marker(inner));
    }
    AddedIsWellFormed(tree, inner, Dir);
    AddedIsWellFormed(tree[inner := Dir], Marker(inner), File);
    AddedIsWellFormed(tree[inner := Dir][Marker(inner) := File], Marker(outer), File);
  }
}
