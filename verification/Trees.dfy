/**
 Artifact trees: the recursive fingerprint with exclusions, the byte copier and the size count.
 SHA-256 is taken to be collision-free, so a digest is the digested value itself.
 */
module Trees {
  import opened Common
  import opened Paths

  datatype Node =
    | File(bytes: seq<byte>)
    | Dir(children: map<string, Node>)
    | Symlink
    | Special

  /** What a fingerprint records about one path. */
  datatype Kind = Directory | Regular(size: nat, digest: seq<byte>) | Irregular

  datatype Entry = Entry(relativePath: string, kind: Kind)

  datatype PathEntry = PathEntry(path: seq<string>, kind: Kind)

  datatype Exclusions = Exclusions(files: set<string>, prefixes: set<string>)

  const NO_EXCLUSIONS := Exclusions({}, {})

  function KindOf(n: Node): Kind {
    match n
    case Dir(_) => Directory
    case File(bytes) => Regular(|bytes|, bytes)
    case _ => Irregular
  }

  function Visible(n: Node): set<string>
    requires n.Dir?
  {
    set name | name in n.children && !Hidden(name)
  }

  function Names(n: Node): (names: seq<string>)
    requires n.Dir?
    ensures SortedBy(NameLess, names) && forall x :: x in names <==> x in n.children && !Hidden(x)
  {
    Sorted(Visible(n))
  }

  /** Every name in the tree is one a directory can hold. */
  ghost predicate WellNamed(n: Node) {
    n.Dir? ==> forall name | name in n.children :: IsName(name) && WellNamed(n.children[name])
  }

  /** No symlink and no special entry is reachable through visible names. */
  ghost predicate Safe(n: Node) {
    match n
    case File(_) => true
    case Dir(children) => forall name | name in children && !Hidden(name) :: Safe(children[name])
    case _ => false
  }

  /** The tree with every "._" entry removed at every depth. */
  function Clean(n: Node): Node {
    match n
    case Dir(children) => Dir(map name | name in children && !Hidden(name) :: Clean(children[name]))
    case _ => n
  }

  /** What is found at a relative path when only visible names are followed. */
  function At(n: Node, rel: seq<string>): Option<Kind>
    decreases |rel|
  {
    if rel == [] then Some(KindOf(n))
    else if n.Dir? && rel[0] in n.children && !Hidden(rel[0]) then At(n.children[rel[0]], rel[1..])
    else None
  }

  // ---------------------------------------------------------------- listing

  /** Pre-order listing of the given children of directory `n`, which itself sits at path `at`. */
  function List(n: Node, names: seq<string>, at: seq<string>): seq<PathEntry>
    requires n.Dir? && forall x | x in names :: x in n.children
    decreases n, |names|
  {
    if names == [] then [] else Block(n, names[0], at) + List(n, names[1..], at)
  }

  /** One child's own entry, followed by everything below it. */
  function Block(n: Node, name: string, at: seq<string>): seq<PathEntry>
    requires n.Dir? && name in n.children
    decreases n, 0
  {
    var child, here := n.children[name], at + [name];
    [PathEntry(here, KindOf(child))] + if child.Dir? then List(child, Names(child), here) else []
  }

  function Listing(n: Node): seq<PathEntry>
    requires n.Dir?
  {
    List(n, Names(n), [])
  }

  /** `_fingerprint_path_is_excluded`. */
  predicate IsExcluded(relativePath: string, ex: Exclusions) {
    relativePath in ex.files
    || exists prefix | prefix in ex.prefixes :: relativePath == prefix || prefix + "/" <= relativePath
  }

  function Kept(list: seq<PathEntry>, ex: Exclusions): seq<PathEntry> {
    if list == [] then []
    else KeptOne(list[0], ex) + Kept(list[1..], ex)
  }

  function KeptOne(e: PathEntry, ex: Exclusions): seq<PathEntry> {
    if IsExcluded(Join(e.path), ex) then [] else [e]
  }

  function Render(list: seq<PathEntry>): seq<Entry> {
    seq(|list|, i requires 0 <= i < |list| => Entry(Join(list[i].path), list[i].kind))
  }

  /** The value hashed by `_tree_sha256`, or the refusal of an unsafe tree. */
  ghost function Fingerprint(n: Node, ex: Exclusions, unsafeCode: string): Result<seq<Entry>> {
    if n.Dir? && Safe(n) then Ok(Lines(Listing(n), ex)) else Err(unsafeCode)
  }

  /** An entry list with the excluded paths filtered out afterwards. */
  function Filter(entries: seq<Entry>, ex: Exclusions): seq<Entry> {
    if entries == [] then []
    else (if IsExcluded(entries[0].relativePath, ex) then [] else [entries[0]]) + Filter(entries[1..], ex)
  }

  // ------------------------------------------------- what a listing contains

  /** An entry is listed exactly when it states what is at its path. */
  lemma {:induction false} ListIn(n: Node, names: seq<string>, at: seq<string>, e: PathEntry)
    requires n.Dir? && forall x | x in names :: x in n.children && !Hidden(x)
    ensures e in List(n, names, at) <==> at < e.path && e.path[|at|] in names && At(n, e.path[|at|..]) == Some(e.kind)
    decreases n, |names|
  {
    if names != [] {
      BlockIn(n, names[0], at, e);
      ListIn(n, names[1..], at, e);
      HeadTail(names);
    }
  }

  /** A block lists exactly what lies at or below one visible child. */
  lemma {:induction false} BlockIn(n: Node, name: string, at: seq<string>, e: PathEntry)
    requires n.Dir? && name in n.children && !Hidden(name)
    ensures e in Block(n, name, at) <==> at < e.path && e.path[|at|] == name && At(n, e.path[|at|..]) == Some(e.kind)
    decreases n, 0
  {
    var child, here := n.children[name], at + [name];
    if child.Dir? { ListIn(child, Names(child), here, e); }
    AtBelow(n, name, at, e);
  }

  lemma AtBelow(n: Node, name: string, at: seq<string>, e: PathEntry)
    requires n.Dir? && name in n.children && !Hidden(name)
    ensures var child, here := n.children[name], at + [name];
            at < e.path && e.path[|at|] == name && At(n, e.path[|at|..]) == Some(e.kind) <==>
            (e == PathEntry(here, KindOf(child)) ||
             (child.Dir? && here < e.path && e.path[|here|] in Names(child) && At(child, e.path[|here|..]) == Some(e.kind)))
  {
    var child, here := n.children[name], at + [name];
    if here <= e.path {
      var rel := e.path[|at|..];
      assert rel[0] == name && rel[1..] == e.path[|here|..];
      if here == e.path { assert rel[1..] == []; } else { assert rel[1..][0] == e.path[|here|]; }
    } else {
      assert !(at < e.path && e.path[|at|] == name);
    }
  }

  predicate EntryLess(a: PathEntry, b: PathEntry) { PathLess(a.path, b.path) }

  lemma EntryLessAsymmetric()
    ensures Asymmetric(EntryLess)
  {
    OrdersAsymmetric();
    assert forall a, b :: EntryLess(a, b) ==> PathLess(a.path, b.path);
  }

  /** Pre-order over sorted names is the lexicographic order of component paths. */
  lemma {:induction false} ListSorted(n: Node, names: seq<string>, at: seq<string>)
    requires n.Dir? && SortedBy(NameLess, names)
    requires forall x | x in names :: x in n.children && !Hidden(x)
    ensures SortedBy(EntryLess, List(n, names, at))
    decreases n, |names|
  {
    if names != [] {
      var block, rest := Block(n, names[0], at), List(n, names[1..], at);
      BlockSorted(n, names[0], at);
      ListSorted(n, names[1..], at);
      forall e, f | e in block && f in rest ensures EntryLess(e, f) {
        BlockIn(n, names[0], at, e);
        ListIn(n, names[1..], at, f);
        assert LessAt(NameLess, e.path, f.path, |at|);
      }
      SortedConcat(EntryLess, block, rest);
    }
  }

  lemma {:induction false} BlockSorted(n: Node, name: string, at: seq<string>)
    requires n.Dir? && name in n.children && !Hidden(name)
    ensures SortedBy(EntryLess, Block(n, name, at))
    decreases n, 0
  {
    var child, here := n.children[name], at + [name];
    if child.Dir? {
      ListSorted(child, Names(child), here);
      var head, below := [PathEntry(here, KindOf(child))], List(child, Names(child), here);
      forall e | e in below ensures EntryLess(head[0], e) {
        ListIn(child, Names(child), here, e);
        assert LessAt(NameLess, here, e.path, |here|);
      }
      SortedConcat(EntryLess, head, below);
    }
  }

  lemma SortedConcat<T(!new)>(lt: (T, T) -> bool, a: seq<T>, b: seq<T>)
    requires SortedBy(lt, a) && SortedBy(lt, b)
    requires forall x, y | x in a && y in b :: lt(x, y)
    ensures SortedBy(lt, a + b)
  {
    var c := a + b;
    forall i, j | 0 <= i < j < |c| ensures lt(c[i], c[j]) {
      if i < |a| <= j {
        assert c[i] in a && c[j] in b;
      }
    }
  }

  lemma {:induction false} KeptIn(list: seq<PathEntry>, ex: Exclusions)
    ensures forall e :: e in Kept(list, ex) <==> e in list && !IsExcluded(Join(e.path), ex)
    ensures SortedBy(EntryLess, list) ==> SortedBy(EntryLess, Kept(list, ex))
  {
    if list != [] {
      KeptIn(list[1..], ex);
      assert list == [list[0]] + list[1..];
      if SortedBy(EntryLess, list) && !IsExcluded(Join(list[0].path), ex) {
        SortedConcat(EntryLess, [list[0]], Kept(list[1..], ex));
      }
    }
  }

  lemma {:induction false} KeptConcat(a: seq<PathEntry>, b: seq<PathEntry>, ex: Exclusions)
    ensures Kept(a + b, ex) == Kept(a, ex) + Kept(b, ex)
  {
    if a == [] {
      assert a + b == b;
    } else {
      HeadTail(a);
      Regroup([a[0]], a[1..], b);
      KeptCons(a[0], a[1..] + b, ex);
      KeptConcat(a[1..], b, ex);
      Regroup(KeptOne(a[0], ex), Kept(a[1..], ex), Kept(b, ex));
    }
  }

  lemma KeptCons(e: PathEntry, rest: seq<PathEntry>, ex: Exclusions)
    ensures Kept([e] + rest, ex) == KeptOne(e, ex) + Kept(rest, ex)
  {
    var list := [e] + rest;
    assert list[0] == e && list[1..] == rest;
  }

  lemma {:induction false} ListAppend(n: Node, names: seq<string>, name: string, at: seq<string>)
    requires n.Dir? && name in n.children && forall x | x in names :: x in n.children
    ensures List(n, names + [name], at) == List(n, names, at) + Block(n, name, at)
    decreases |names|
  {
    if names == [] {
      assert names + [name] == [name] && [name][1..] == [];
      assert Block(n, name, at) + [] == [] + Block(n, name, at);
    } else {
      ListAppend(n, names[1..], name, at);
      assert (names + [name])[0] == names[0] && (names + [name])[1..] == names[1..] + [name];
      Regroup(Block(n, names[0], at), List(n, names[1..], at), Block(n, name, at));
    }
  }

  lemma {:induction false} AtIsPath(n: Node, rel: seq<string>)
    requires WellNamed(n) && At(n, rel).Some?
    ensures IsPath(rel)
    decreases |rel|
  {
    if rel != [] {
      AtIsPath(n.children[rel[0]], rel[1..]);
      assert rel == [rel[0]] + rel[1..];
    }
  }

  /** Everything a fingerprint lists is at the path it names, and nothing else is listed. */
  lemma KeptListing(n: Node, ex: Exclusions)
    requires n.Dir? && WellNamed(n)
    ensures SortedBy(EntryLess, Kept(Listing(n), ex))
    ensures forall e :: e in Kept(Listing(n), ex) <==>
                        e.path != [] && At(n, e.path) == Some(e.kind) && !IsExcluded(Join(e.path), ex)
    ensures forall e :: e in Kept(Listing(n), ex) ==> IsPath(e.path)
  {
    ListSorted(n, Names(n), []);
    KeptIn(Listing(n), ex);
    forall e: PathEntry
      ensures e in Listing(n) <==> e.path != [] && At(n, e.path) == Some(e.kind)
      ensures e in Listing(n) ==> IsPath(e.path)
    {
      ListIn(n, Names(n), [], e);
      assert e.path[0..] == e.path;
      if At(n, e.path).Some? { AtIsPath(n, e.path); }
    }
  }

  lemma RenderInjective(a: seq<PathEntry>, b: seq<PathEntry>)
    requires forall e | e in a + b :: e.path != [] && IsPath(e.path)
    requires Render(a) == Render(b)
    ensures a == b
  {
    assert |a| == |Render(a)| == |Render(b)| == |b|;
    forall i | 0 <= i < |a| ensures a[i] == b[i] {
      assert Render(a)[i] == Render(b)[i];
      assert a[i] in a + b && b[i] in a + b;
      JoinPrefix(a[i].path, b[i].path);
    }
  }

  // --------------------------------------------------------- main theorems

  /** Fingerprinting with exclusions is the full fingerprint filtered by path. */
  lemma {:induction false} ExclusionIsFilter(n: Node, ex: Exclusions, unsafeCode: string)
    ensures Fingerprint(n, ex, unsafeCode) ==
            match Fingerprint(n, NO_EXCLUSIONS, unsafeCode)
            case Ok(entries) => Ok(Filter(entries, ex))
            case Err(code) => Err(code)
  {
    if n.Dir? && Safe(n) {
      KeptAll(Listing(n));
      FilterRender(Listing(n), ex);
    }
  }

  lemma {:induction false} KeptAll(list: seq<PathEntry>)
    ensures Kept(list, NO_EXCLUSIONS) == list
  {
    if list != [] { KeptAll(list[1..]); }
  }

  lemma {:induction false} FilterRender(list: seq<PathEntry>, ex: Exclusions)
    ensures Filter(Render(list), ex) == Render(Kept(list, ex))
  {
    if list != [] {
      FilterRender(list[1..], ex);
      assert Render(list)[1..] == Render(list[1..]);
      assert Render(list)[0] == Entry(Join(list[0].path), list[0].kind);
    }
  }

  /**
   An unexcluded prepare-time fingerprint is found again under exclusions exactly when the tree is
   still safe and every path outside the exclusions still holds what it held.
   */
  lemma {:induction false} FoundAgain(prepared: Node, now: Node, ex: Exclusions, code: string)
    requires prepared.Dir? && WellNamed(prepared) && Safe(prepared)
    requires now.Dir? && WellNamed(now)
    requires NoneExcluded(prepared, ex)
    ensures Fingerprint(now, ex, code) == Fingerprint(prepared, NO_EXCLUSIONS, code) <==>
            Safe(now) && SameOutside(prepared, now, ex)
  {
    if Safe(now) {
      var a, b := Kept(Listing(now), ex), Kept(Listing(prepared), NO_EXCLUSIONS);
      KeptListing(now, ex);
      KeptListing(prepared, NO_EXCLUSIONS);
      if Render(a) == Render(b) {
        RenderInjective(a, b);
        SameListSameOutside(prepared, now, ex, a);
      }
      if SameOutside(prepared, now, ex) {
        EntryLessAsymmetric();
        forall e ensures e in a <==> e in b { }
        SortedUnique(EntryLess, a, b);
      }
    }
  }

  /** No path of the tree is excluded. */
  ghost predicate NoneExcluded(n: Node, ex: Exclusions) {
    forall rel | rel != [] && At(n, rel).Some? :: !IsExcluded(Join(rel), ex)
  }

  /** Every path outside the exclusions holds the same in both trees. */
  ghost predicate SameOutside(a: Node, b: Node, ex: Exclusions) {
    forall rel | rel != [] && !IsExcluded(Join(rel), ex) :: At(a, rel) == At(b, rel)
  }

  lemma SameListSameOutside(prepared: Node, now: Node, ex: Exclusions, list: seq<PathEntry>)
    requires forall e :: e in list <==> e.path != [] && At(now, e.path) == Some(e.kind) && !IsExcluded(Join(e.path), ex)
    requires forall e :: e in list <==> e.path != [] && At(prepared, e.path) == Some(e.kind) && !IsExcluded(Join(e.path), NO_EXCLUSIONS)
    ensures SameOutside(prepared, now, ex)
  {
    forall rel | rel != [] && !IsExcluded(Join(rel), ex) ensures At(prepared, rel) == At(now, rel) {
      assert forall kind :: At(now, rel) == Some(kind) <==> PathEntry(rel, kind) in list;
      assert forall kind :: At(prepared, rel) == Some(kind) <==> PathEntry(rel, kind) in list;
    }
  }

  lemma {:induction false} AtClean(n: Node, rel: seq<string>)
    ensures At(Clean(n), rel) == At(n, rel)
    decreases |rel|
  {
    if rel != [] && n.Dir? && rel[0] in n.children && !Hidden(rel[0]) {
      AtClean(n.children[rel[0]], rel[1..]);
    }
  }

  lemma {:induction false} SameAtSameTree(a: Node, b: Node)
    requires Safe(a) && Safe(b)
    requires forall rel :: At(a, rel) == At(b, rel)
    ensures Clean(a) == Clean(b)
    decreases a
  {
    assert At(a, []) == At(b, []);
    if a.Dir? {
      forall name | !Hidden(name)
        ensures name in a.children <==> name in b.children
        ensures name in a.children ==> Clean(a.children[name]) == Clean(b.children[name])
      {
        assert At(a, [name]) == At(b, [name]);
        if name in a.children && name in b.children {
          forall rel ensures At(a.children[name], rel) == At(b.children[name], rel) {
            assert ([name] + rel)[1..] == rel;
            assert At(a, [name] + rel) == At(b, [name] + rel);
          }
          SameAtSameTree(a.children[name], b.children[name]);
        }
      }
    }
  }

  lemma {:induction false} SafeAt(n: Node, rel: seq<string>)
    requires Safe(n)
    ensures At(n, rel) != Some(Irregular)
    decreases |rel|
  {
    if rel != [] && n.Dir? && rel[0] in n.children && !Hidden(rel[0]) {
      SafeAt(n.children[rel[0]], rel[1..]);
    }
  }

  lemma {:induction false} UnsafeAt(n: Node) returns (rel: seq<string>)
    requires !Safe(n)
    ensures At(n, rel) == Some(Irregular)
    decreases n
  {
    rel := [];
    if n.Dir? {
      var name :| name in n.children && !Hidden(name) && !Safe(n.children[name]);
      var below := UnsafeAt(n.children[name]);
      rel := [name] + below;
      assert rel[0] == name && rel[1..] == below;
    }
  }

  /** A tree is refused exactly if a symlink or special entry is found somewhere below visible names. */
  lemma SafeExactly(n: Node)
    ensures Safe(n) <==> forall rel :: At(n, rel) != Some(Irregular)
  {
    if Safe(n) {
      forall rel ensures At(n, rel) != Some(Irregular) { SafeAt(n, rel); }
    } else {
      var rel := UnsafeAt(n);
    }
  }

  /** Two safe trees of any depth have one fingerprint exactly when they agree without "._" names. */
  lemma {:induction false} FingerprintDeterminesTree(a: Node, b: Node, code: string)
    requires a.Dir? && WellNamed(a) && Safe(a)
    requires b.Dir? && WellNamed(b) && Safe(b)
    ensures Fingerprint(a, NO_EXCLUSIONS, code) == Fingerprint(b, NO_EXCLUSIONS, code) <==> Clean(a) == Clean(b)
  {
    FoundAgain(b, a, NO_EXCLUSIONS, code);
    if Fingerprint(a, NO_EXCLUSIONS, code) == Fingerprint(b, NO_EXCLUSIONS, code) {
      assert forall rel :: rel == [] || !IsExcluded(Join(rel), NO_EXCLUSIONS);
      SameAtSameTree(a, b);
    }
    if Clean(a) == Clean(b) {
      forall rel ensures At(a, rel) == At(b, rel) {
        AtClean(a, rel);
        AtClean(b, rel);
      }
    }
  }

  lemma {:induction false} CleanFacts(n: Node)
    ensures Clean(Clean(n)) == Clean(n)
    ensures Safe(n) ==> Safe(Clean(n))
    ensures WellNamed(n) ==> WellNamed(Clean(n))
  {
    if n.Dir? {
      forall name | name in n.children
        ensures Clean(Clean(n.children[name])) == Clean(n.children[name])
        ensures Safe(n.children[name]) ==> Safe(Clean(n.children[name]))
        ensures WellNamed(n.children[name]) ==> WellNamed(Clean(n.children[name]))
      {
        CleanFacts(n.children[name]);
      }
    }
  }

  // -------------------------------------------------------- the walks as code

  ghost predicate SafeChildren(n: Node, names: seq<string>)
    requires n.Dir? && forall x | x in names :: x in n.children
  {
    forall k | 0 <= k < |names| :: Safe(n.children[names[k]])
  }

  lemma SafeStep(n: Node, names: seq<string>, i: nat)
    requires n.Dir? && i < |names| && forall x | x in names :: x in n.children
    ensures SafeChildren(n, names[..i + 1]) <==> SafeChildren(n, names[..i]) && Safe(n.children[names[i]])
  {
  }

  /**
   `_fingerprint_directory_entries` on a tree that nobody changes meanwhile. `at` is the component
   form of `prefix`.
   */
  method FingerprintDirectory(n: Node, prefix: string, unsafeCode: string, ex: Exclusions, ghost at: seq<string>)
    returns (r: Result<seq<Entry>>)
    requires n.Dir? && WellNamed(n) && IsPath(at) && prefix == Join(at)
    ensures r == if Safe(n) then Ok(Lines(List(n, Names(n), at), ex)) else Err(unsafeCode)
    decreases n, 0
  {
    var names := Names(n);
    var entries: seq<Entry> := [];
    for i := 0 to |names|
      invariant entries == Lines(List(n, names[..i], at), ex) && SafeChildren(n, names[..i])
    {
      var name := names[i];
      ChildPath(at, name);
      LinesOfChild(n, names, i, at, ex);
      ChildFacts(n, name);
      SafeStep(n, names, i);
      var relativePath := if prefix != "" then prefix + "/" + name else name;
      var inner := FingerprintChild(n.children[name], relativePath, unsafeCode, ex, at + [name]);
      if inner.Err? {
        return Err(unsafeCode);
      }
      entries := entries + inner.value;
    }
    assert names[..|names|] == names;
    AllSafe(n);
    return Ok(entries);
  }

  method FingerprintChild(child: Node, relativePath: string, unsafeCode: string, ex: Exclusions, ghost here: seq<string>)
    returns (r: Result<seq<Entry>>)
    requires WellNamed(child) && IsPath(here) && relativePath == Join(here)
    ensures r == if Safe(child) then Ok(ChildLines(child, here, ex)) else Err(unsafeCode)
    decreases child, 1
  {
    match child
    case Dir(_) =>
      var entries := if IsExcluded(relativePath, ex) then [] else [Entry(relativePath, Directory)];
      var inner := FingerprintDirectory(child, relativePath, unsafeCode, ex, here);
      if inner.Err? {
        return Err(unsafeCode);
      }
      return Ok(entries + inner.value);
    case File(bytes) =>
      var entries := if IsExcluded(relativePath, ex) then [] else [Entry(relativePath, Regular(|bytes|, bytes))];
      assert entries + [] == entries;
      return Ok(entries);
    case _ =>
      return Err(unsafeCode);
  }

  /** The lines contributed by one child, its own line first. */
  function ChildLines(child: Node, here: seq<string>, ex: Exclusions): seq<Entry> {
    (if IsExcluded(Join(here), ex) then [] else [Entry(Join(here), KindOf(child))])
    + (if child.Dir? then Lines(List(child, Names(child), here), ex) else [])
  }

  lemma ChildFacts(n: Node, name: string)
    requires n.Dir? && WellNamed(n) && name in n.children && !Hidden(name)
    ensures IsName(name) && WellNamed(n.children[name]) && (Safe(n) ==> Safe(n.children[name]))
  {
  }

  lemma AllSafe(n: Node)
    requires n.Dir? && SafeChildren(n, Names(n))
    ensures Safe(n)
  {
    assert forall name | name in n.children && !Hidden(name) :: name in Names(n);
  }

  function Lines(list: seq<PathEntry>, ex: Exclusions): seq<Entry> {
    Render(Kept(list, ex))
  }

  lemma LinesConcat(a: seq<PathEntry>, b: seq<PathEntry>, ex: Exclusions)
    ensures Lines(a + b, ex) == Lines(a, ex) + Lines(b, ex)
  {
    KeptConcat(a, b, ex);
    RenderConcat(Kept(a, ex), Kept(b, ex));
  }

  lemma LinesOfChild(n: Node, names: seq<string>, i: nat, at: seq<string>, ex: Exclusions)
    requires n.Dir? && i < |names| && forall x | x in names :: x in n.children
    ensures var child, here := n.children[names[i]], at + [names[i]];
            Lines(List(n, names[..i + 1], at), ex) ==
            Lines(List(n, names[..i], at), ex) + ChildLines(child, here, ex)
  {
    var name := names[i];
    PrefixStep(names, i);
    ListAppend(n, names[..i], name, at);
    LinesConcat(List(n, names[..i], at), Block(n, name, at), ex);
    LinesOfBlock(n, name, at, ex);
  }

  lemma LinesOfBlock(n: Node, name: string, at: seq<string>, ex: Exclusions)
    requires n.Dir? && name in n.children
    ensures Lines(Block(n, name, at), ex) == ChildLines(n.children[name], at + [name], ex)
  {
    var child, here := n.children[name], at + [name];
    var head := PathEntry(here, KindOf(child));
    var below := if child.Dir? then List(child, Names(child), here) else [];
    KeptCons(head, below, ex);
    RenderOne(head, ex);
    RenderConcat(KeptOne(head, ex), Kept(below, ex));
  }

  lemma RenderOne(e: PathEntry, ex: Exclusions)
    ensures Render(KeptOne(e, ex)) == if IsExcluded(Join(e.path), ex) then [] else [Entry(Join(e.path), e.kind)]
  {
  }

  lemma RenderConcat(a: seq<PathEntry>, b: seq<PathEntry>)
    ensures Render(a + b) == Render(a) + Render(b)
  {
  }

  lemma ChildPath(at: seq<string>, name: string)
    requires IsPath(at)
    ensures Join(at + [name]) == if Join(at) != "" then Join(at) + "/" + name else name
  {
    if at == [] {
      assert at + [name] == [name];
    } else {
      JoinAppend(at, name);
      JoinNonEmpty(at);
    }
  }

  lemma JoinNonEmpty(path: seq<string>)
    requires path != [] && IsPath(path)
    ensures Join(path) != ""
  {
    assert IsName(path[0]);
  }

  /** `_tree_sha256` of a directory. */
  method TreeFingerprint(n: Node, ex: Exclusions, unsafeCode: string) returns (r: Result<seq<Entry>>)
    requires WellNamed(n)
    ensures r == Fingerprint(n, ex, unsafeCode)
  {
    if !n.Dir? {
      return Err(unsafeCode);
    }
    r := FingerprintDirectory(n, "", unsafeCode, ex, []);
  }

  /** Bytes held by the regular files that a copy of these children writes. */
  function BytesOf(n: Node, names: seq<string>): nat
    requires n.Dir? && forall x | x in names :: x in n.children
    decreases n, |names|
  {
    if names == [] then 0
    else
      var child := n.children[names[0]];
      (match child
       case File(bytes) => |bytes|
       case Dir(_) => BytesOf(child, Names(child))
       case _ => 0)
      + BytesOf(n, names[1..])
  }

  lemma {:induction false} BytesAppend(n: Node, names: seq<string>, name: string)
    requires n.Dir? && name in n.children && forall x | x in names :: x in n.children
    ensures BytesOf(n, names + [name]) == BytesOf(n, names) + BytesOf(n, [name])
    decreases |names|
  {
    if names == [] {
      assert names + [name] == [name];
    } else {
      BytesAppend(n, names[1..], name);
      assert (names + [name])[1..] == names[1..] + [name];
    }
  }

  /** `_copy_directory_entries` into a fresh directory, counting the file bytes it writes. */
  method CopyDirectory(source: Node) returns (r: Result<Node>, written: nat)
    requires source.Dir?
    ensures r == if Safe(source) then Ok(Clean(source)) else Err("unsafe_runtime_input")
    ensures written <= BytesOf(source, Names(source))
    ensures r.Ok? ==> written == BytesOf(source, Names(source))
    decreases source, 0
  {
    var names := Names(source);
    var copied: map<string, Node> := map[];
    written := 0;
    for i := 0 to |names|
      invariant forall x :: x in copied <==> x in names[..i]
      invariant forall x | x in copied :: Safe(source.children[x]) && copied[x] == Clean(source.children[x])
      invariant written == BytesOf(source, names[..i])
    {
      BytesOfChild(source, names, i);
      PrefixStep(names, i);
      var inner, bytes := CopyChild(source.children[names[i]]);
      written := written + bytes;
      if inner.Err? {
        return inner, written;
      }
      copied := copied[names[i] := inner.value];
    }
    assert names[..|names|] == names;
    CopiedAll(source, copied);
    r := Ok(Dir(copied));
  }

  method CopyChild(child: Node) returns (r: Result<Node>, written: nat)
    ensures r == if Safe(child) then Ok(Clean(child)) else Err("unsafe_runtime_input")
    ensures written <= ChildBytes(child) && (r.Ok? ==> written == ChildBytes(child))
    decreases child, 1
  {
    match child
    case Dir(_) => r, written := CopyDirectory(child);
    case File(bytes) => return Ok(File(bytes)), |bytes|;
    case _ => return Err("unsafe_runtime_input"), 0;
  }

  function ChildBytes(child: Node): nat {
    match child
    case File(bytes) => |bytes|
    case Dir(_) => BytesOf(child, Names(child))
    case _ => 0
  }

  lemma CopiedAll(source: Node, copied: map<string, Node>)
    requires source.Dir? && forall x :: x in copied <==> x in source.children && !Hidden(x)
    requires forall x | x in copied :: Safe(source.children[x]) && copied[x] == Clean(source.children[x])
    ensures Safe(source) && Dir(copied) == Clean(source)
  {
    assert copied == Clean(source).children;
  }

  lemma BytesOfChild(n: Node, names: seq<string>, i: nat)
    requires n.Dir? && i < |names| && forall x | x in names :: x in n.children
    ensures var child := n.children[names[i]];
            BytesOf(n, names[..i + 1]) == BytesOf(n, names[..i]) + ChildBytes(child)
    ensures BytesOf(n, names[..i]) <= BytesOf(n, names[..i + 1]) <= BytesOf(n, names)
  {
    assert names[..i + 1] == names[..i] + [names[i]];
    BytesAppend(n, names[..i], names[i]);
    assert BytesOf(n, []) == 0;
    BytesPrefix(n, names, i + 1);
  }

  lemma {:induction false} BytesPrefix(n: Node, names: seq<string>, k: nat)
    requires n.Dir? && k <= |names| && forall x | x in names :: x in n.children
    ensures BytesOf(n, names[..k]) <= BytesOf(n, names)
    decreases |names|
  {
    if k > 0 {
      BytesPrefix(n, names[1..], k - 1);
      assert names[..k][1..] == names[1..][..k - 1];
    }
  }

  /** A copy has exactly the fingerprint of its source. */
  lemma {:induction false} CopyKeepsFingerprint(source: Node, code: string)
    requires source.Dir? && WellNamed(source) && Safe(source)
    ensures Fingerprint(Clean(source), NO_EXCLUSIONS, code) == Fingerprint(source, NO_EXCLUSIONS, code)
    ensures Safe(Clean(source)) && WellNamed(Clean(source))
  {
    CleanFacts(source);
    FingerprintDeterminesTree(Clean(source), source, code);
  }

  // -------------------------------------------------------------- size count

  /**
   `_tree_size_regular`: every file below the root counts unless its own name is hidden, so files with
   ordinary names inside a "._" directory count as well.
   */
  function CountedBytes(n: Node, names: seq<string>): nat
    requires n.Dir? && forall x | x in names :: x in n.children
    decreases n, |names|
  {
    if names == [] then 0
    else
      var child := n.children[names[0]];
      (match child
       case File(bytes) => if Hidden(names[0]) then 0 else |bytes|
       case Dir(children) => CountedBytes(child, Sorted(children.Keys))
       case _ => 0)
      + CountedBytes(n, names[1..])
  }

  /** The part of the count that lies below some "._" directory. */
  function ShadowedBytes(n: Node, names: seq<string>): nat
    requires n.Dir? && forall x | x in names :: x in n.children
    decreases n, |names|
  {
    if names == [] then 0
    else
      var child := n.children[names[0]];
      (match child
       case Dir(children) =>
         if Hidden(names[0]) then CountedBytes(child, Sorted(children.Keys))
         else ShadowedBytes(child, Sorted(children.Keys))
       case _ => 0)
      + ShadowedBytes(n, names[1..])
  }

  function VisibleOnly(names: seq<string>): (v: seq<string>)
    ensures forall x :: x in v <==> x in names && !Hidden(x)
  {
    if names == [] then []
    else (if Hidden(names[0]) then [] else [names[0]]) + VisibleOnly(names[1..])
  }

  lemma {:induction false} VisibleOnlySorted(names: seq<string>)
    requires SortedBy(NameLess, names)
    ensures SortedBy(NameLess, VisibleOnly(names))
  {
    if names != [] {
      VisibleOnlySorted(names[1..]);
      if !Hidden(names[0]) { SortedConcat(NameLess, [names[0]], VisibleOnly(names[1..])); }
    }
  }

  lemma VisibleNames(n: Node)
    requires n.Dir?
    ensures Names(n) == VisibleOnly(Sorted(n.children.Keys))
  {
    VisibleOnlySorted(Sorted(n.children.Keys));
    OrdersAsymmetric();
    SortedUnique(NameLess, Names(n), VisibleOnly(Sorted(n.children.Keys)));
  }

  lemma {:induction false} CountSplits(n: Node, names: seq<string>)
    requires n.Dir? && forall x | x in names :: x in n.children
    ensures CountedBytes(n, names) == BytesOf(n, VisibleOnly(names)) + ShadowedBytes(n, names)
    decreases n, |names|
  {
    if names != [] {
      CountSplits(n, names[1..]);
      var child := n.children[names[0]];
      if child.Dir? {
        CountSplits(child, Sorted(child.children.Keys));
        VisibleNames(child);
      }
      if Hidden(names[0]) {
        assert VisibleOnly(names) == VisibleOnly(names[1..]);
      } else {
        assert VisibleOnly(names)[0] == names[0] && VisibleOnly(names)[1..] == VisibleOnly(names[1..]);
      }
    }
  }

  /** The count meets no symlink and no special entry: only entries with hidden names are skipped. */
  ghost predicate Countable(n: Node) {
    n.Dir? ==>
      forall name | name in n.children ::
        (Hidden(name) || n.children[name].File? || n.children[name].Dir?) && Countable(n.children[name])
  }

  ghost function TreeSize(n: Node): Result<nat> {
    if !n.Dir? then Err("missing_runtime_input")
    else if Countable(n) then Ok(CountedBytes(n, Sorted(n.children.Keys)))
    else Err("unsafe_runtime_input")
  }

  lemma {:induction false} CountedAppend(n: Node, names: seq<string>, name: string)
    requires n.Dir? && name in n.children && forall x | x in names :: x in n.children
    ensures CountedBytes(n, names + [name]) == CountedBytes(n, names) + CountedBytes(n, [name])
    decreases |names|
  {
    if names == [] {
      assert names + [name] == [name];
    } else {
      CountedAppend(n, names[1..], name);
      assert (names + [name])[1..] == names[1..] + [name];
    }
  }

  ghost predicate CountableChild(n: Node, name: string)
    requires n.Dir? && name in n.children
  {
    (Hidden(name) || n.children[name].File? || n.children[name].Dir?) && Countable(n.children[name])
  }

  ghost predicate CountableChildren(n: Node, names: seq<string>)
    requires n.Dir? && forall x | x in names :: x in n.children
  {
    forall k | 0 <= k < |names| :: CountableChild(n, names[k])
  }

  lemma AllCountable(n: Node, names: seq<string>)
    requires n.Dir? && names == Sorted(n.children.Keys)
    ensures TreeSize(n) == if CountableChildren(n, names) then Ok(CountedBytes(n, names)) else Err("unsafe_runtime_input")
  {
    if CountableChildren(n, names) {
      forall name | name in n.children ensures CountableChild(n, name) {
        assert name in names;
      }
    } else {
      var k :| 0 <= k < |names| && !CountableChild(n, names[k]);
      assert names[k] in names;
    }
  }

  lemma CountedStep(n: Node, names: seq<string>, i: nat)
    requires n.Dir? && i < |names| && forall x | x in names :: x in n.children
    ensures CountedBytes(n, names[..i + 1]) == CountedBytes(n, names[..i]) + CountedBytes(n, [names[i]])
  {
    PrefixStep(names, i);
    CountedAppend(n, names[..i], names[i]);
  }

  lemma CountableStep(n: Node, names: seq<string>, i: nat)
    requires n.Dir? && i < |names| && forall x | x in names :: x in n.children
    ensures CountableChildren(n, names[..i + 1]) <==> CountableChildren(n, names[..i]) && CountableChild(n, names[i])
    ensures !CountableChild(n, names[i]) ==> !CountableChildren(n, names)
  {
  }

  /** What one child adds to the count. */
  method CountChild(n: Node, name: string) returns (r: Result<nat>)
    requires n.Dir? && name in n.children
    ensures r == if CountableChild(n, name) then Ok(CountedBytes(n, [name])) else Err("unsafe_runtime_input")
    decreases n, 0
  {
    assert CountedBytes(n, [name][1..]) == 0;
    match n.children[name]
    case Dir(_) => r := CountTree(n.children[name]);
    case File(bytes) => return Ok(if Hidden(name) then 0 else |bytes|);
    case _ => return if Hidden(name) then Ok(0) else Err("unsafe_runtime_input");
  }

  method CountNames(n: Node, names: seq<string>) returns (ok: bool, total: nat)
    requires n.Dir? && forall x | x in names :: x in n.children
    ensures ok <==> CountableChildren(n, names)
    ensures ok ==> total == CountedBytes(n, names)
    decreases n, 1
  {
    ok, total := true, 0;
    for i := 0 to |names|
      invariant ok && CountableChildren(n, names[..i])
      invariant total == CountedBytes(n, names[..i])
    {
      CountedStep(n, names, i);
      CountableStep(n, names, i);
      var child := CountChild(n, names[i]);
      if child.Err? {
        return false, total;
      }
      total := total + child.value;
    }
    assert names[..|names|] == names;
  }

  /** The size count of a directory. */
  method CountTree(n: Node) returns (r: Result<nat>)
    requires n.Dir?
    ensures r == TreeSize(n)
    decreases n, 2
  {
    var names := Sorted(n.children.Keys);
    AllCountable(n, names);
    var ok, total := CountNames(n, names);
    return if ok then Ok(total) else Err("unsafe_runtime_input");
  }

  lemma {:induction false} CountableIsSafe(n: Node)
    requires Countable(n) && (n.File? || n.Dir?)
    ensures Safe(n)
  {
    if n.Dir? {
      forall name | name in n.children && !Hidden(name) ensures Safe(n.children[name]) {
        CountableIsSafe(n.children[name]);
      }
    }
  }

  /** What is found at a relative path through all names, hidden ones as well. */
  function Reach(n: Node, rel: seq<string>): Option<Kind>
    decreases |rel|
  {
    if rel == [] then Some(KindOf(n))
    else if n.Dir? && rel[0] in n.children then Reach(n.children[rel[0]], rel[1..])
    else None
  }

  /** The path leads to something that is neither file nor directory, under a name that is not hidden. */
  ghost predicate Obstacle(n: Node, rel: seq<string>) {
    rel != [] && Reach(n, rel) == Some(Irregular) && !Hidden(rel[|rel| - 1])
  }

  lemma {:induction false} CountableHasNone(n: Node, rel: seq<string>)
    requires Countable(n)
    ensures !Obstacle(n, rel)
    decreases |rel|
  {
    if rel != [] && n.Dir? && rel[0] in n.children {
      var child := n.children[rel[0]];
      assert CountableChild(n, rel[0]);
      if |rel| > 1 {
        CountableHasNone(child, rel[1..]);
        assert rel[1..][|rel| - 2] == rel[|rel| - 1];
      } else {
        assert rel[1..] == [] && Reach(n, rel) == Some(KindOf(child));
      }
    }
  }

  lemma {:induction false} UncountableHasOne(n: Node) returns (rel: seq<string>)
    requires !Countable(n)
    ensures Obstacle(n, rel)
    decreases n
  {
    var name :| name in n.children
                && !((Hidden(name) || n.children[name].File? || n.children[name].Dir?) && Countable(n.children[name]));
    var child := n.children[name];
    if !Hidden(name) && !child.File? && !child.Dir? {
      rel := [name];
      assert rel[0] == name && rel[1..] == [] && Reach(n, rel) == Some(KindOf(child));
    } else {
      var below := UncountableHasOne(child);
      rel := [name] + below;
      assert rel[0] == name && rel[1..] == below && Reach(n, rel) == Reach(child, below);
      assert rel[|rel| - 1] == below[|below| - 1];
    }
  }

  /** The count refuses a directory exactly if a symlink or special entry with an ordinary name is anywhere in it. */
  lemma CountableExactly(n: Node)
    requires n.Dir?
    ensures TreeSize(n).Ok? <==> forall rel :: !Obstacle(n, rel)
  {
    if Countable(n) {
      forall rel ensures !Obstacle(n, rel) { CountableHasNone(n, rel); }
    } else {
      var rel := UncountableHasOne(n);
    }
  }

  /**
   A tree that can be counted can be copied, and the count is exactly what the copy writes plus what
   lies below "._" directories, so it never falls short.
   */
  lemma CountCoversCopy(n: Node)
    requires TreeSize(n).Ok?
    ensures Safe(n)
    ensures TreeSize(n).value == BytesOf(n, Names(n)) + ShadowedBytes(n, Sorted(n.children.Keys))
  {
    CountableIsSafe(n);
    CountSplits(n, Sorted(n.children.Keys));
    VisibleNames(n);
  }

  lemma SortedSingle(x: string)
    ensures Sorted({x}) == [x]
  {
    OrdersAsymmetric();
    SortedUnique(NameLess, Sorted({x}), [x]);
  }

  /** The overshoot is real: a file below a "._" directory is counted in full and never copied. */
  lemma CountOvershoots(bytes: seq<byte>)
    ensures var n := Dir(map["._" := Dir(map["a" := File(bytes)])]);
            TreeSize(n) == Ok(|bytes|) && BytesOf(n, Names(n)) == 0
  {
    var inner := Dir(map["a" := File(bytes)]);
    var n := Dir(map["._" := inner]);
    SortedSingle("a");
    SortedSingle("._");
    assert inner.children.Keys == {"a"} && n.children.Keys == {"._"};
    assert Hidden("._") && !Hidden("a");
    assert Countable(inner) && Countable(n);
    assert CountedBytes(inner, ["a"]) == |bytes| + CountedBytes(inner, ["a"][1..]);
    assert CountedBytes(n, ["._"]) == CountedBytes(inner, ["a"]) + CountedBytes(n, ["._"][1..]);
    assert Names(n) == [];
  }
}
