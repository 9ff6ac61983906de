/**
 Re-proving the prepare-time hash of a staging tree: the exclusions derived from a Tracking target
 set, and what finding the hash again means.
 */
module PreparedStaging {
  import opened Common
  import opened Paths
  import opened Trees

  /** A Tracking target; `segment` and `yamlParent` are resolved paths below the staging root. */
  datatype Target = Target(
    segment: seq<string>, yamlParent: seq<string>, yamlName: string, identity: string, yamlSha256: string)

  // ------------------------------------------------------------- identities

  predicate All(p: char -> bool, s: string) { forall c :: c in s ==> p(c) }

  predicate IsDigit(c: char) { '0' <= c <= '9' }

  predicate IsLower(c: char) { 'a' <= c <= 'z' }

  predicate IsHex(c: char) { IsDigit(c) || 'a' <= c <= 'f' }

  predicate IsSha256(s: string) { |s| == 64 && All(IsHex, s) }

  /** The parts of `s` between underscores. */
  function Parts(s: string): seq<string> {
    if s == "" then [""]
    else
      var rest := Parts(s[1..]);
      if s[0] == '_' then [""] + rest else [[s[0]] + rest[0]] + rest[1..]
  }

  /** Full match of `(master|other[0-9]+)_[a-z]+_[a-z]+_[a-z]+`. */
  predicate IsIdentity(s: string) {
    var parts := Parts(s);
    |parts| == 4
    && (parts[0] == "master" || ("other" < parts[0] && All(IsDigit, parts[0][5..])))
    && forall i | 1 <= i < 4 :: parts[i] != "" && All(IsLower, parts[i])
  }

  lemma {:induction false} PartsCover(s: string, c: char)
    requires c in s && c != '_'
    ensures exists part :: part in Parts(s) && c in part
  {
    var parts, rest := Parts(s), Parts(s[1..]);
    if s[0] == c {
      assert c in parts[0] && parts[0] in parts;
    } else {
      PartsCover(s[1..], c);
      var part :| part in rest && c in part;
      if s[0] != '_' && part == rest[0] {
        assert c in parts[0] && parts[0] in parts;
      } else {
        assert part in parts;
      }
    }
  }

  lemma IdentityHasNoSlash(s: string)
    requires IsIdentity(s)
    ensures '/' !in s && s != ""
  {
    var parts := Parts(s);
    assert parts[0] == "master" || parts[0] == "other" + parts[0][5..];
    assert forall i | 0 <= i < 4 :: '/' !in parts[i];
    if '/' in s { PartsCover(s, '/'); }
  }

  /** The parts put together again with underscores. */
  function Underscored(parts: seq<string>): string
    requires parts != []
  {
    if |parts| == 1 then parts[0] else parts[0] + "_" + Underscored(parts[1..])
  }

  predicate NoUnderscore(parts: seq<string>) { forall part :: part in parts ==> '_' !in part }

  lemma {:induction false} PartsJoin(s: string)
    ensures Parts(s) != [] && NoUnderscore(Parts(s)) && Underscored(Parts(s)) == s
  {
    if s != "" {
      PartsJoin(s[1..]);
      var parts, rest := Parts(s), Parts(s[1..]);
      if s[0] == '_' {
        assert parts[1..] == rest;
      } else {
        assert parts[0] == [s[0]] + rest[0] && parts[1..] == rest[1..];
        assert Underscored(parts) == [s[0]] + Underscored(rest);
      }
    }
  }

  lemma {:induction false} JoinParts(parts: seq<string>)
    requires parts != [] && NoUnderscore(parts)
    ensures Parts(Underscored(parts)) == parts
  {
    if |parts| == 1 {
      WordParts(parts[0], "");
    } else {
      assert NoUnderscore(parts[1..]);
      JoinParts(parts[1..]);
      assert parts[0] in parts;
      WordParts(parts[0], Underscored(parts[1..]));
      assert parts == [parts[0]] + parts[1..];
    }
  }

  lemma {:induction false} WordParts(word: string, rest: string)
    requires '_' !in word
    ensures Parts(word) == [word] && Parts(word + "_" + rest) == [word] + Parts(rest)
  {
    var s := word + "_" + rest;
    if word == "" {
      assert s[0] == '_' && s[1..] == rest;
    } else {
      WordParts(word[1..], rest);
      assert s[0] == word[0] && s[1..] == word[1..] + "_" + rest;
      assert [word[0]] + word[1..] == word;
    }
  }

  /** Splitting is exact: `parts` are the parts of `s` if and only if they are free of underscores and make up `s`. */
  lemma SplitExactly(s: string, parts: seq<string>)
    requires parts != []
    ensures Parts(s) == parts <==> NoUnderscore(parts) && Underscored(parts) == s
  {
    PartsJoin(s);
    if NoUnderscore(parts) { JoinParts(parts); }
  }

  // ------------------------------------------------------------- exclusions

  /** The real entry at a path, through hidden names as well, never through a link. */
  function Locate(n: Node, rel: seq<string>): Option<Node>
    decreases |rel|
  {
    if rel == [] then Some(n)
    else if n.Dir? && rel[0] in n.children then Locate(n.children[rel[0]], rel[1..])
    else None
  }

  function SegmentRelative(segment: seq<string>): string {
    if segment == [] then "." else Join(segment)
  }

  function PointsName(t: Target): string { "img_" + t.identity + ".txt" }

  function ImageName(t: Target): string { "tracking_img_" + t.identity }

  function YamlFile(t: Target): string { SegmentRelative(t.segment) + "/" + t.yamlName }

  function PointsFile(t: Target): string { SegmentRelative(t.segment) + "/" + PointsName(t) }

  function ImagePrefix(t: Target): string { SegmentRelative(t.segment) + "/" + ImageName(t) }

  predicate SameIdentity(a: Target, b: Target) {
    SegmentRelative(a.segment) == SegmentRelative(b.segment) && a.identity == b.identity
  }

  /** Why target `i` is refused, if the earlier ones were accepted. */
  ghost function Refusal(staging: Node, targets: seq<Target>, i: nat): Option<string>
    requires i < |targets|
  {
    var t := targets[i];
    var segment := Locate(staging, t.segment);
    if segment == None || !segment.value.Dir? || t.yamlParent != t.segment then Some("unsafe_runtime_path")
    else if !IsIdentity(t.identity) || t.yamlName != t.identity + ".yaml" || !IsSha256(t.yamlSha256)
    then Some("invalid_runtime_request")
    else if exists j | 0 <= j < i :: SameIdentity(targets[j], t) then Some("invalid_runtime_request")
    else None
  }

  ghost predicate Accepted(staging: Node, targets: seq<Target>) {
    targets != [] && PassedBefore(staging, targets, |targets|)
  }

  ghost predicate PassedBefore(staging: Node, targets: seq<Target>, i: nat)
    requires i <= |targets|
  {
    forall j | 0 <= j < i :: Refusal(staging, targets, j) == None
  }

  /** Target `i` is the first one refused, with this code. */
  ghost predicate RefusedAt(staging: Node, targets: seq<Target>, i: nat, code: string) {
    i < |targets| && Refusal(staging, targets, i) == Some(code) && PassedBefore(staging, targets, i)
  }

  function KeyOf(t: Target): (string, string) { (SegmentRelative(t.segment), t.identity) }

  function KeysOf(targets: seq<Target>): set<(string, string)> {
    if targets == [] then {} else KeysOf(targets[..|targets| - 1]) + {KeyOf(targets[|targets| - 1])}
  }

  function Excluding(ex: Exclusions, t: Target): Exclusions {
    Exclusions(ex.files + {YamlFile(t)} + {PointsFile(t)}, ex.prefixes + {ImagePrefix(t)})
  }

  function ExclusionsOf(targets: seq<Target>): Exclusions {
    if targets == [] then Exclusions({}, {".runtime/runs"})
    else Excluding(ExclusionsOf(targets[..|targets| - 1]), targets[|targets| - 1])
  }

  lemma {:induction false} KeyTaken(targets: seq<Target>, i: nat, t: Target)
    requires i <= |targets|
    ensures KeyOf(t) in KeysOf(targets[..i]) <==> exists j | 0 <= j < i :: SameIdentity(targets[j], t)
  {
    if i > 0 {
      KeyTaken(targets, i - 1, t);
      assert targets[..i][..i - 1] == targets[..i - 1];
    }
  }

  lemma OneMore(targets: seq<Target>, i: nat, n: nat)
    requires n == i + 1 <= |targets|
    ensures KeysOf(targets[..n]) == KeysOf(targets[..i]) + {KeyOf(targets[i])}
    ensures ExclusionsOf(targets[..n]) == Excluding(ExclusionsOf(targets[..i]), targets[i])
  {
    assert targets[..n][..i] == targets[..i];
  }

  /** The checks made on one target. */
  method CheckTarget(staging: Node, targets: seq<Target>, i: nat, identities: set<(string, string)>)
    returns (code: Option<string>)
    requires i < |targets| && identities == KeysOf(targets[..i])
    ensures code == Refusal(staging, targets, i)
  {
    var t := targets[i];
    var segment := Locate(staging, t.segment);
    if segment == None || !segment.value.Dir? || t.yamlParent != t.segment {
      return Some("unsafe_runtime_path");
    }
    if !IsIdentity(t.identity) || t.yamlName != t.identity + ".yaml" || !IsSha256(t.yamlSha256) {
      return Some("invalid_runtime_request");
    }
    KeyTaken(targets, i, t);
    if KeyOf(t) in identities {
      return Some("invalid_runtime_request");
    }
    return None;
  }

  /** The loop of `prepared_staging_artifact_sha256` that collects the exclusions. */
  method CollectExclusions(staging: Node, targets: seq<Target>) returns (r: Result<Exclusions>)
    ensures r.Ok? <==> Accepted(staging, targets)
    ensures r.Ok? ==> r.value == ExclusionsOf(targets)
    ensures targets == [] ==> r == Err("no_tracking_targets")
    ensures targets != [] && r.Err? ==>
              exists i: nat :: RefusedAt(staging, targets, i, r.code)
  {
    if targets == [] {
      return Err("no_tracking_targets");
    }
    var ex, identities := ExclusionsOf([]), KeysOf([]);
    for i := 0 to |targets|
      invariant PassedBefore(staging, targets, i)
      invariant identities == KeysOf(targets[..i]) && ex == ExclusionsOf(targets[..i])
    {
      var code := CheckTarget(staging, targets, i, identities);
      if code.Some? {
        assert RefusedAt(staging, targets, i, code.value);
        return Err(code.value);
      }
      OneMore(targets, i, i + 1);
      identities := identities + {KeyOf(targets[i])};
      ex := Excluding(ex, targets[i]);
    }
    assert targets[..|targets|] == targets;
    return Ok(ex);
  }

  /** `prepared_staging_artifact_sha256`. */
  method PreparedStagingFingerprint(staging: Node, targets: seq<Target>) returns (r: Result<seq<Entry>>)
    requires WellNamed(staging)
    ensures !staging.Dir? ==> r == Err("unsafe_runtime_path")
    ensures staging.Dir? && targets == [] ==> r == Err("no_tracking_targets")
    ensures staging.Dir? && targets != [] && !Accepted(staging, targets) ==>
              r.Err? && exists i: nat :: RefusedAt(staging, targets, i, r.code)
    ensures staging.Dir? && Accepted(staging, targets) ==> r == PreparedFingerprint(staging, targets)
  {
    if !staging.Dir? {
      return Err("unsafe_runtime_path");
    }
    var ex := CollectExclusions(staging, targets);
    if ex.Err? {
      return Err(ex.code);
    }
    r := TreeFingerprint(staging, ex.value, "prepared_staging_changed");
  }

  ghost function PreparedFingerprint(staging: Node, targets: seq<Target>): Result<seq<Entry>> {
    Fingerprint(staging, ExclusionsOf(targets), "prepared_staging_changed")
  }

  /** What is asked of one target: a directory to work in, and names and hash in the right form. */
  ghost predicate WellFormed(staging: Node, t: Target) {
    Locate(staging, t.segment).Some? && Locate(staging, t.segment).value.Dir? && t.yamlParent == t.segment
    && IsIdentity(t.identity) && t.yamlName == t.identity + ".yaml" && IsSha256(t.yamlSha256)
  }

  lemma SameIdentityIs(staging: Node, a: Target, b: Target)
    requires WellNamed(staging) && Locate(staging, a.segment).Some? && Locate(staging, b.segment).Some?
    ensures SameIdentity(a, b) <==> a.segment == b.segment && a.identity == b.identity
  {
    LocateIsPath(staging, a.segment);
    LocateIsPath(staging, b.segment);
    var dot := ["."];
    assert Join(dot) == "." && SlashFree(dot);
    if a.segment != [] { NotDot(a.segment); }
    if b.segment != [] { NotDot(b.segment); }
    if a.segment != [] && b.segment != [] { JoinPrefix(a.segment, b.segment); }
  }

  lemma NotDot(path: seq<string>)
    requires IsPath(path) && path != []
    ensures Join(path) != "."
  {
    JoinPrefix(path, ["."]);
    assert path[0] in path;
  }

  /** A target list is accepted exactly if it is not empty, each target is well formed, and no segment has an identity twice. */
  lemma AcceptedExactly(staging: Node, targets: seq<Target>)
    requires WellNamed(staging)
    ensures Accepted(staging, targets) <==>
            targets != [] && (forall i | 0 <= i < |targets| :: WellFormed(staging, targets[i]))
            && forall i, j | 0 <= i < j < |targets| ::
                 targets[i].segment != targets[j].segment || targets[i].identity != targets[j].identity
  {
    if Accepted(staging, targets) {
      forall i | 0 <= i < |targets| ensures WellFormed(staging, targets[i]) {
        assert Refusal(staging, targets, i) == None;
      }
      forall i, j | 0 <= i < j < |targets| ensures !SameIdentity(targets[i], targets[j]) {
        assert Refusal(staging, targets, j) == None;
      }
    }
    if forall i | 0 <= i < |targets| :: WellFormed(staging, targets[i]) {
      forall i, j | 0 <= i < j < |targets|
        ensures SameIdentity(targets[i], targets[j]) <==>
                targets[i].segment == targets[j].segment && targets[i].identity == targets[j].identity
      {
        assert WellFormed(staging, targets[i]) && WellFormed(staging, targets[j]);
        SameIdentityIs(staging, targets[i], targets[j]);
      }
    }
  }

  // ------------------------------------------- what the exclusions stand for

  /** The paths that Tracking of these targets owns, in components. */
  ghost predicate Owned(path: seq<string>, targets: seq<Target>) {
    [".runtime", "runs"] <= path || exists t | t in targets :: OwnedBy(path, t)
  }

  ghost predicate OwnedBy(path: seq<string>, t: Target) {
    t.segment != []
    && (path == t.segment + [t.identity + ".yaml"]
        || path == t.segment + ["img_" + t.identity + ".txt"]
        || t.segment + ["tracking_img_" + t.identity] <= path)
  }

  lemma {:induction false} LocateIsPath(n: Node, rel: seq<string>)
    requires WellNamed(n) && Locate(n, rel).Some?
    ensures IsPath(rel)
    decreases |rel|
  {
    if rel != [] {
      LocateIsPath(n.children[rel[0]], rel[1..]);
      assert rel == [rel[0]] + rel[1..];
    }
  }

  /** Joining the relative segment with one more name. */
  lemma SegmentChild(segment: seq<string>, name: string, path: seq<string>)
    requires IsPath(segment) && IsPath(path) && path != [] && '/' !in name
    ensures Join(path) == SegmentRelative(segment) + "/" + name <==>
            segment != [] && path == segment + [name]
    ensures var prefix := SegmentRelative(segment) + "/" + name;
            Join(path) == prefix || prefix + "/" <= Join(path) <==> segment != [] && segment + [name] <= path
  {
    var base := if segment == [] then ["."] else segment;
    JoinAppend(base, name);
    assert SlashFree(base + [name]) && SlashFree(path);
    JoinPrefix(path, base + [name]);
    if segment == [] {
      assert path[0] in path;
      assert (base + [name])[0] == ".";
    }
  }

  ghost predicate ExcludedBy(s: string, t: Target) {
    s == YamlFile(t) || s == PointsFile(t) || s == ImagePrefix(t) || ImagePrefix(t) + "/" <= s
  }

  lemma ExcludedByIsOwnedBy(staging: Node, targets: seq<Target>, i: nat, path: seq<string>)
    requires WellNamed(staging) && i < |targets| && Refusal(staging, targets, i) == None
    requires IsPath(path) && path != []
    ensures ExcludedBy(Join(path), targets[i]) <==> OwnedBy(path, targets[i])
  {
    var t := targets[i];
    LocateIsPath(staging, t.segment);
    IdentityHasNoSlash(t.identity);
    SegmentChild(t.segment, t.yamlName, path);
    SegmentChild(t.segment, PointsName(t), path);
    SegmentChild(t.segment, ImageName(t), path);
  }

  lemma {:induction false} ExcludedByTargets(s: string, targets: seq<Target>)
    ensures IsExcluded(s, ExclusionsOf(targets)) <==>
            s == ".runtime/runs" || ".runtime/runs" + "/" <= s || exists t | t in targets :: ExcludedBy(s, t)
  {
    if targets != [] {
      var init, last := targets[..|targets| - 1], targets[|targets| - 1];
      ExcludedByTargets(s, init);
      ExcludedByOneMore(s, ExclusionsOf(init), last);
      assert targets == init + [last];
      assert forall t :: t in targets <==> t in init || t == last;
    }
  }

  lemma ExcludedByOneMore(s: string, ex: Exclusions, t: Target)
    ensures IsExcluded(s, Excluding(ex, t)) <==> IsExcluded(s, ex) || ExcludedBy(s, t)
  {
    assert ImagePrefix(t) in Excluding(ex, t).prefixes;
    assert forall x | x in ex.prefixes :: x in Excluding(ex, t).prefixes;
  }

  /** The string exclusions of a target set match exactly the paths its Tracking owns. */
  lemma ExcludedIsOwned(staging: Node, targets: seq<Target>, path: seq<string>)
    requires WellNamed(staging) && Accepted(staging, targets) && IsPath(path) && path != []
    ensures IsExcluded(Join(path), ExclusionsOf(targets)) <==> Owned(path, targets)
  {
    var runs := [".runtime", "runs"];
    assert Join(runs) == ".runtime/runs" && Join(runs) + "/" == ".runtime/runs/";
    JoinPrefix(path, runs);
    ExcludedByTargets(Join(path), targets);
    forall t | t in targets ensures ExcludedBy(Join(path), t) <==> OwnedBy(path, t) {
      var i :| 0 <= i < |targets| && targets[i] == t;
      ExcludedByIsOwnedBy(staging, targets, i, path);
    }
  }

  ghost predicate OwnsNothing(n: Node, targets: seq<Target>) {
    forall rel | rel != [] && At(n, rel).Some? :: !Owned(rel, targets)
  }

  ghost predicate OnlyOwnedChanged(a: Node, b: Node, targets: seq<Target>) {
    forall rel | rel != [] && !Owned(rel, targets) :: At(a, rel) == At(b, rel)
  }

  /**
   The unexcluded hash taken at prepare time is found again, under the exclusions of a target set,
   exactly when the tree is safe and nothing but paths owned by these targets changed.
   */
  lemma {:induction false} PreparedHashFoundAgain(prepared: Node, now: Node, targets: seq<Target>)
    requires prepared.Dir? && WellNamed(prepared) && Safe(prepared) && OwnsNothing(prepared, targets)
    requires now.Dir? && WellNamed(now) && Accepted(now, targets)
    ensures PreparedFingerprint(now, targets) == Fingerprint(prepared, NO_EXCLUSIONS, "prepared_staging_changed") <==>
            Safe(now) && OnlyOwnedChanged(prepared, now, targets)
  {
    var ex := ExclusionsOf(targets);
    forall rel | rel != []
      ensures At(prepared, rel).Some? || At(now, rel).Some? ==> (IsExcluded(Join(rel), ex) <==> Owned(rel, targets))
    {
      if At(prepared, rel).Some? { AtIsPath(prepared, rel); }
      if At(now, rel).Some? { AtIsPath(now, rel); }
      if IsPath(rel) { ExcludedIsOwned(now, targets, rel); }
    }
    FoundAgain(prepared, now, ex, "prepared_staging_changed");
    assert SameOutside(prepared, now, ex) <==> OnlyOwnedChanged(prepared, now, targets);
  }

  /**
   Over a whole Tracking run, given as the successive staging trees, the hash check passes at every
   point as long as each step only writes owned paths and keeps the tree safe.
   */
  lemma {:induction false} PreparedHashThroughRun(prepared: Node, run: seq<Node>, targets: seq<Target>, k: nat)
    requires prepared.Dir? && WellNamed(prepared) && Safe(prepared) && OwnsNothing(prepared, targets)
    requires k < |run| && run[0] == prepared
    requires forall i | 0 <= i < |run| :: run[i].Dir? && WellNamed(run[i]) && Safe(run[i]) && Accepted(run[i], targets)
    requires forall i | 0 < i < |run| :: OnlyOwnedChanged(run[i - 1], run[i], targets)
    ensures PreparedFingerprint(run[k], targets) == Fingerprint(prepared, NO_EXCLUSIONS, "prepared_staging_changed")
    ensures OnlyOwnedChanged(prepared, run[k], targets)
  {
    if k > 0 {
      PreparedHashThroughRun(prepared, run, targets, k - 1);
      assert OnlyOwnedChanged(run[k - 1], run[k], targets);
    }
    PreparedHashFoundAgain(prepared, run[k], targets);
  }

  // ------------------------------------------------------- at postprocessing

  /** The same target but for the YAML hash, which the exclusions do not depend on. */
  predicate SameTarget(a: Target, b: Target) { a == b.(yamlSha256 := a.yamlSha256) }

  /** The two lists name the same targets, in whatever order and however often. */
  ghost predicate SameTargets(a: seq<Target>, b: seq<Target>) {
    Covered(a, b) && Covered(b, a)
  }

  ghost predicate Covered(a: seq<Target>, b: seq<Target>) {
    forall t | t in a :: exists u | u in b :: SameTarget(t, u)
  }

  lemma {:induction false} ExclusionSets(targets: seq<Target>)
    ensures forall s :: s in ExclusionsOf(targets).files <==> exists t | t in targets :: s == YamlFile(t) || s == PointsFile(t)
    ensures forall s :: s in ExclusionsOf(targets).prefixes <==>
                        s == ".runtime/runs" || exists t | t in targets :: s == ImagePrefix(t)
  {
    if targets != [] {
      var init, last := targets[..|targets| - 1], targets[|targets| - 1];
      ExclusionSets(init);
      assert targets == init + [last];
      assert forall t :: t in targets <==> t in init || t == last;
    }
  }

  lemma ExclusionsSubset(a: seq<Target>, b: seq<Target>)
    requires Covered(a, b)
    ensures ExclusionsOf(a).files <= ExclusionsOf(b).files && ExclusionsOf(a).prefixes <= ExclusionsOf(b).prefixes
  {
    ExclusionSets(a);
    ExclusionSets(b);
    forall s | s in ExclusionsOf(a).files ensures s in ExclusionsOf(b).files {
      var t :| t in a && (s == YamlFile(t) || s == PointsFile(t));
      var u :| u in b && SameTarget(t, u);
      assert YamlFile(u) == YamlFile(t) && PointsFile(u) == PointsFile(t);
    }
    forall s | s in ExclusionsOf(a).prefixes ensures s in ExclusionsOf(b).prefixes {
      if s != ".runtime/runs" {
        var t :| t in a && s == ImagePrefix(t);
        var u :| u in b && SameTarget(t, u);
        assert ImagePrefix(u) == ImagePrefix(t);
      }
    }
  }

  /** Postprocessing rebuilds the targets in its own order with a dummy YAML hash; the exclusions stay the same. */
  lemma RebuiltTargetsExcludeTheSame(targets: seq<Target>, rebuilt: seq<Target>)
    requires SameTargets(targets, rebuilt)
    ensures ExclusionsOf(rebuilt) == ExclusionsOf(targets)
  {
    ExclusionsSubset(targets, rebuilt);
    ExclusionsSubset(rebuilt, targets);
    EqualExclusions(ExclusionsOf(targets), ExclusionsOf(rebuilt));
  }

  lemma EqualExclusions(a: Exclusions, b: Exclusions)
    requires a.files <= b.files <= a.files && a.prefixes <= b.prefixes <= a.prefixes
    ensures a == b
  {
  }

  /**
   The check before postprocessing, made with the rebuilt targets, finds the prepare-time hash again
   exactly when the tree is safe and nothing changed but what Tracking of the original targets owns.
   */
  lemma PreparedHashAtPostprocessing(prepared: Node, now: Node, targets: seq<Target>, rebuilt: seq<Target>)
    requires prepared.Dir? && WellNamed(prepared) && Safe(prepared) && OwnsNothing(prepared, targets)
    requires now.Dir? && WellNamed(now) && Accepted(now, targets) && SameTargets(targets, rebuilt)
    ensures PreparedFingerprint(now, rebuilt) == Fingerprint(prepared, NO_EXCLUSIONS, "prepared_staging_changed") <==>
            Safe(now) && OnlyOwnedChanged(prepared, now, targets)
  {
    RebuiltTargetsExcludeTheSame(targets, rebuilt);
    PreparedHashFoundAgain(prepared, now, targets);
  }

  // ------------------------------------------------ targets at the staging root

  /** What a target writes is among the excluded paths exactly when its segment is not the staging root itself. */
  lemma OwnFilesOwnedExactlyBelowRoot(targets: seq<Target>, t: Target)
    requires t in targets && t.yamlName == t.identity + ".yaml"
    ensures Owned(t.segment + [t.yamlName], targets) <==> t.segment != []
    ensures Owned(t.segment + [PointsName(t)], targets) <==> t.segment != []
    ensures Owned(t.segment + [ImageName(t)], targets) <==> t.segment != []
  {
    if t.segment != [] {
      assert OwnedBy(t.segment + [t.yamlName], t) && OwnedBy(t.segment + [PointsName(t)], t) && OwnedBy(t.segment + [ImageName(t)], t);
    }
  }

  /** A target whose segment is the staging root owns nothing, so its own YAML file counts as a change. */
  lemma RootTargetBreaksTheHash(prepared: Node, now: Node, targets: seq<Target>, t: Target)
    requires prepared.Dir? && WellNamed(prepared) && Safe(prepared) && OwnsNothing(prepared, targets)
    requires now.Dir? && WellNamed(now) && Accepted(now, targets)
    requires t in targets && t.segment == [] && At(now, [t.yamlName]) != At(prepared, [t.yamlName])
    ensures PreparedFingerprint(now, targets) != Fingerprint(prepared, NO_EXCLUSIONS, "prepared_staging_changed")
  {
    PreparedHashFoundAgain(prepared, now, targets);
    assert !Owned([t.yamlName], targets);
  }

  /** The failing input: an empty prepared tree, then nothing but the YAML file of an accepted target at the root. */
  lemma RootTargetWitness(identity: string, sha: string)
    requires IsIdentity(identity) && IsSha256(sha)
    ensures var yaml := identity + ".yaml";
            var targets, now := [Target([], [], yaml, identity, sha)], Dir(map[yaml := File([])]);
            Accepted(now, targets)
            && PreparedFingerprint(now, targets) != Fingerprint(Dir(map[]), NO_EXCLUSIONS, "prepared_staging_changed")
  {
    var yaml := identity + ".yaml";
    var targets, now := [Target([], [], yaml, identity, sha)], Dir(map[yaml := File([])]);
    IdentityHasNoSlash(identity);
    IdentityIsVisible(identity);
    assert yaml[0] == identity[0] && "._"[0] == '.';
    assert IsName(yaml) && !Hidden(yaml);
    assert Refusal(now, targets, 0) == None;
    AtName(now, yaml);
    AtName(Dir(map[]), yaml);
    RootTargetBreaksTheHash(Dir(map[]), now, targets, targets[0]);
  }

  lemma AtName(n: Node, name: string)
    requires n.Dir?
    ensures At(n, [name]) == if name in n.children && !Hidden(name) then Some(KindOf(n.children[name])) else None
  {
    assert [name][1..] == [];
  }

  lemma IdentityIsVisible(s: string)
    requires IsIdentity(s)
    ensures s[0] != '.'
  {
    var parts := Parts(s);
    assert parts[0][0] == 'm' || parts[0][0] == 'o';
    assert s[0] == '.' ==> parts[0][0] == '.';
  }
}
