/** `CompatibilityPublisher.publish` against a date directory whose writes may fail at any point. */
module Publisher {
  import opened Common
  import opened Paths
  import opened Trees
  import opened Publication

  /** The first file-system write that raises, and whether its effect had already become durable. */
  datatype Fault = NoFault | FaultAt(countdown: nat, after: bool)

  datatype Outcome = Published(committed: seq<string>) | Failed(code: string)

  function PutJournal(s: Durable, journal: Journal): Durable {
    s.(journals := s.journals[journal.run := journal])
  }

  function PutEntry(s: Durable, name: string, node: Node): Durable {
    s.(entries := s.entries[name := node])
  }

  function RenameEntry(s: Durable, from: string, to: string): Durable
    requires from in s.entries
  {
    s.(entries := (s.entries - {from})[to := s.entries[from]])
  }

  /** Durable storage; `history` is every state it has gone through, so a stop may leave any of them. */
  class DateDirectory {
    var disk: Durable
    var fault: Fault
    ghost var history: seq<Durable>

    constructor (disk: Durable, fault: Fault)
      ensures this.disk == disk && this.fault == fault && history == []
    {
      this.disk, this.fault, history := disk, fault, [];
    }

    /** One atomic durable step. */
    method Write(next: Durable) returns (ok: bool)
      modifies this
      ensures ok ==> disk == next && history == old(history) + [next]
      ensures !ok ==> (disk == old(disk) && history == old(history)) || (disk == next && history == old(history) + [next])
      ensures old(fault) == NoFault ==> ok && fault == NoFault
    {
      match fault
      case NoFault =>
        disk, history, ok := next, history + [next], true;
      case FaultAt(countdown, after) =>
        if countdown > 0 {
          disk, history, ok := next, history + [next], true;
          fault := FaultAt(countdown - 1, after);
        } else {
          if after {
            disk, history := next, history + [next];
          }
          ok := false;
        }
    }
  }

  /** The directory, and every state it held since position `from` of the history, is one a stopped run may leave. */
  ghost predicate Logged(p: Call, fs: DateDirectory, from: nat)
    reads fs
  {
    Reached(p, fs.disk) && Named(fs.disk) && (|fs.history| > from ==> p.run in fs.disk.journals)
    && from <= |fs.history| && forall k | from <= k < |fs.history| :: Reached(p, fs.history[k])
  }

  // ------------------------------------------------------------- transitions

  lemma IntentPhase(p: Call)
    requires Possible(p) && RequestError(p) == None
    ensures Phase(p, PutJournal(p.before, JournalAt(p, 0, 0)), 0, 0, 0)
  {
    FreeTemps(p);
  }

  lemma FilesKept(p: Call, s: Durable, m: nat, n: nat, journal: Journal)
    requires Files(p, s, m, n) && journal.run == p.run
    ensures Files(p, PutJournal(s, journal), m, n)
  {
    var t := PutJournal(s, journal);
    forall run | run != p.run ensures Agree(p.before.journals, t.journals, run) {
      assert Agree(p.before.journals, s.journals, run);
    }
    forall i: nat | i < |p.items| ensures TargetAt(p, t, i, n) {
      assert TargetAt(p, s, i, n);
    }
    forall i: nat | n <= i < m && Missing(p, i) ensures TempReady(p, t, i) {
      assert TempReady(p, s, i);
    }
  }

  lemma StagingPhase(p: Call, s: Durable, m: nat, node: Node)
    requires Distinct(p) && Phase(p, s, m, 0, 0) && s.root == RootDirectory && m < |p.items| && Missing(p, m)
    ensures Phase(p, PutEntry(s, Temp(p, m), node), m, 0, 0)
  {
    NamesApart(p);
    var t := PutEntry(s, Temp(p, m), node);
    assert IsTemp(p, Temp(p, m));
    forall i: nat | i < |p.items| ensures TargetAt(p, t, i, 0) {
      assert TargetAt(p, s, i, 0);
    }
    forall i: nat | i < m && Missing(p, i) ensures TempReady(p, t, i) {
      assert TempReady(p, s, i);
    }
  }

  lemma OneMoreReady(p: Call, s: Durable, m: nat, n: nat)
    requires n == m + 1 <= |p.items| && TempsReady(p, s, 0, m) && (Missing(p, m) ==> TempReady(p, s, m))
    ensures TempsReady(p, s, 0, n)
  {
    forall i: nat | i < n && Missing(p, i) ensures TempReady(p, s, i) {
      if i < m { assert TempReady(p, s, i); }
    }
  }

  /** A clip that is there already leaves no mark in the journal while the others are staged. */
  lemma UnmarkedJournal(p: Call, m: nat, n: nat)
    requires n == m + 1 <= |p.items| && !Missing(p, m)
    ensures JournalAt(p, n, 0) == JournalAt(p, m, 0)
  {
    assert forall i: nat | i < |p.items| :: ItemStateAt(p, i, n, 0) == ItemStateAt(p, i, m, 0);
    assert JournalItems(p, n, 0) == JournalItems(p, m, 0);
    assert forall i: nat | i < n && i < |p.items| && Missing(p, i) :: i < m;
  }

  lemma SameJournalPut(s: Durable, journal: Journal)
    requires journal.run in s.journals && s.journals[journal.run] == journal
    ensures PutJournal(s, journal) == s
  {
    assert s.journals[journal.run := journal] == s.journals;
  }

  lemma StagedPhase(p: Call, s: Durable, m: nat, n: nat)
    requires n == m + 1 <= |p.items| && Phase(p, s, m, 0, 0) && (Missing(p, m) ==> TempReady(p, s, m))
    ensures Phase(p, PutJournal(s, JournalAt(p, n, 0)), n, 0, 0)
    ensures !Missing(p, m) ==> PutJournal(s, JournalAt(p, n, 0)) == s
  {
    OneMoreReady(p, s, m, n);
    assert Files(p, s, n, 0);
    FilesKept(p, s, n, 0, JournalAt(p, n, 0));
    if !Missing(p, m) {
      UnmarkedJournal(p, m, n);
      SameJournalPut(s, JournalAt(p, n, 0));
    }
  }

  lemma KeptTargets(p: Call, s: Durable, i: nat, n: nat)
    requires i < |p.items| && n == i + 1 && TargetsAt(p, s, i) && !Missing(p, i)
    ensures TargetsAt(p, s, n)
  {
    forall k: nat | k < |p.items| ensures TargetAt(p, s, k, n) {
      assert TargetAt(p, s, k, i);
    }
  }

  lemma KeptPhase(p: Call, s: Durable, i: nat, n: nat)
    requires i < |p.items| && n == i + 1 && Phase(p, s, |p.items|, i, i) && !Missing(p, i)
    ensures Phase(p, s, |p.items|, n, i)
  {
    KeptTargets(p, s, i, n);
    KeptReady(p, s, i, n);
    KeptGone(p, s, i, n);
  }

  lemma KeptReady(p: Call, s: Durable, i: nat, n: nat)
    requires i < n <= |p.items| && TempsReady(p, s, i, |p.items|)
    ensures TempsReady(p, s, n, |p.items|)
  {
    forall k: nat | n <= k < |p.items| && Missing(p, k) ensures TempReady(p, s, k) {
      assert TempReady(p, s, k);
    }
  }

  lemma KeptGone(p: Call, s: Durable, i: nat, n: nat)
    requires i < |p.items| && n == i + 1 && !Missing(p, i) && TempsGone(p, s, i, |p.items|)
    ensures TempsGone(p, s, n, |p.items|)
  {
    forall k: nat | k < |p.items| && (k < n || k > |p.items|) && Missing(p, k) ensures TempGone(p, s, k) {
      assert k < i;
    }
  }

  lemma RenamedFrame(p: Call, s: Durable, i: nat)
    requires i < |p.items| && Missing(p, i) && Framed(p, s) && Temp(p, i) in s.entries
    ensures Framed(p, RenameEntry(s, Temp(p, i), p.items[i].clip))
  {
    var t := RenameEntry(s, Temp(p, i), p.items[i].clip);
    assert IsTemp(p, Temp(p, i)) && IsClip(p, p.items[i].clip);
    forall name | !IsClip(p, name) && !IsTemp(p, name) ensures Agree(p.before.entries, t.entries, name) {
      assert Agree(p.before.entries, s.entries, name);
    }
  }

  lemma RenamedTargets(p: Call, s: Durable, i: nat, n: nat)
    requires Distinct(p) && i < |p.items| && n == i + 1 && TargetsAt(p, s, i) && Missing(p, i) && TempReady(p, s, i)
    ensures TargetsAt(p, RenameEntry(s, Temp(p, i), p.items[i].clip), n)
  {
    NamesApart(p);
    var t := RenameEntry(s, Temp(p, i), p.items[i].clip);
    forall k: nat | k < |p.items| ensures TargetAt(p, t, k, n) {
      assert TargetAt(p, s, k, i);
      if k != i { assert Agree(s.entries, t.entries, p.items[k].clip); }
    }
  }

  lemma RenamedTemps(p: Call, s: Durable, i: nat, n: nat)
    requires Distinct(p) && i < |p.items| && n == i + 1 && TempsReady(p, s, i, |p.items|) && Temp(p, i) in s.entries
    ensures TempsReady(p, RenameEntry(s, Temp(p, i), p.items[i].clip), n, |p.items|)
  {
    NamesApart(p);
    var t := RenameEntry(s, Temp(p, i), p.items[i].clip);
    forall k: nat | n <= k < |p.items| && Missing(p, k) ensures TempReady(p, t, k) {
      assert TempReady(p, s, k);
    }
  }

  lemma RenamedPhase(p: Call, s: Durable, i: nat, n: nat)
    requires Distinct(p) && i < |p.items| && n == i + 1 && Phase(p, s, |p.items|, i, i) && Missing(p, i)
    ensures TempReady(p, s, i) && p.items[i].clip !in s.entries
    ensures Phase(p, RenameEntry(s, Temp(p, i), p.items[i].clip), |p.items|, n, i)
  {
    assert TargetAt(p, s, i, i) && TempReady(p, s, i);
    RenamedFrame(p, s, i);
    RenamedTargets(p, s, i, n);
    RenamedTemps(p, s, i, n);
    assert s.root != RootMissing;
  }

  lemma CommittedPhase(p: Call, s: Durable, i: nat, n: nat)
    requires i < |p.items| && n == i + 1 && Phase(p, s, |p.items|, n, i)
    ensures Phase(p, PutJournal(s, JournalAt(p, |p.items|, n)), |p.items|, n, n)
  {
    FilesKept(p, s, |p.items|, n, JournalAt(p, |p.items|, n));
  }

  // ----------------------------------------------------------------- checks

  method CheckCandidate(items: seq<Item>, i: nat, seen: set<string>) returns (e: Option<string>)
    requires i < |items| && WellNamed(items[i].checked) && (items[i].clip in seen <==> Repeated(items, i))
    ensures e == ItemError(items, i)
  {
    var item := items[i];
    if !IsClipName(item.clip) || !item.isHex || item.clip in seen || !item.checked.Dir? {
      return Some("invalid_runtime_request");
    }
    var actual := TreeFingerprint(item.checked, NO_EXCLUSIONS, "unsafe_runtime_output");
    if actual.Err? {
      return Some(actual.code);
    }
    return if actual.value != item.expected then Some("publication_candidate_changed") else None;
  }

  method CheckCandidates(items: seq<Item>) returns (e: Option<string>)
    requires forall x | x in items :: WellNamed(x.checked)
    ensures e == CandidateError(items)
  {
    var seen: set<string> := {};
    for i := 0 to |items|
      invariant seen == set j | 0 <= j < i :: items[j].clip
      invariant forall k | 0 <= k < i :: ItemErrors(items)[k] == None
    {
      assert items[i] in items;
      e := CheckCandidate(items, i, seen);
      if e.Some? {
        FirstCodeAt(ItemErrors(items), i);
        return;
      }
      seen := seen + {items[i].clip};
    }
    return None;
  }

  method PlanItem(disk: Durable, run: string, items: seq<Item>, i: nat) returns (e: Option<string>)
    requires Named(disk) && i < |items|
    ensures e == ItemPlanError(disk.entries, run, items, i)
  {
    if items[i].clip in disk.entries {
      var target := disk.entries[items[i].clip];
      if !target.Dir? {
        return Some("publication_conflict");
      }
      var actual := TreeFingerprint(target, NO_EXCLUSIONS, "publication_target_unsafe");
      if actual.Err? {
        return Some(actual.code);
      }
      return if actual.value != items[i].expected then Some("publication_conflict") else None;
    }
    return if TempName(run, i) in disk.entries then Some("publication_recovery_required") else None;
  }

  method MakePlan(disk: Durable, run: string, items: seq<Item>) returns (e: Option<string>)
    requires Named(disk)
    ensures e == PlanError(disk.entries, run, items)
  {
    for i := 0 to |items|
      invariant forall k | 0 <= k < i :: ItemPlanErrors(disk.entries, run, items)[k] == None
    {
      e := PlanItem(disk, run, items, i);
      if e.Some? {
        FirstCodeAt(ItemPlanErrors(disk.entries, run, items), i);
        return;
      }
    }
    return None;
  }

  method CheckRequest(p: Call) returns (e: Option<string>)
    requires Possible(p)
    ensures e == RequestError(p)
  {
    if !IsOpaqueRef(p.job) || !IsOpaqueRef(p.run) || !IsDate(p.date) || p.items == [] {
      return Some("invalid_runtime_request");
    }
    if p.run in p.before.journals {
      return Some("publication_recovery_required");
    }
    if p.before.root == RootUnavailable {
      return Some("publication_target_unavailable");
    }
    if p.before.root == RootUnsafe {
      return Some("publication_target_unsafe");
    }
    e := CheckCandidates(p.items);
    if e == None {
      e := MakePlan(p.before, p.run, p.items);
    }
  }

  // ------------------------------------------------------------- publication

  lemma PutTwice(s: Durable, name: string, a: Node, b: Node)
    ensures PutEntry(PutEntry(s, name, a), name, b) == PutEntry(s, name, b)
  {
  }

  /** One durable step of the copy: the staging directory of item `i` now holds `node`. */
  method WriteTemp(fs: DateDirectory, p: Call, i: nat, node: Node, ghost from: nat, ghost start: Durable, ghost shown: Node)
    returns (ok: bool)
    requires Distinct(p) && i < |p.items| && Missing(p, i) && Logged(p, fs, from) && WellNamed(node)
    requires Phase(p, fs.disk, i, 0, 0) && fs.disk.root == RootDirectory
    requires fs.disk == start || fs.disk == PutEntry(start, Temp(p, i), shown)
    modifies fs
    ensures Logged(p, fs, from) && old(fs.history) <= fs.history
    ensures ok ==> Phase(p, fs.disk, i, 0, 0) && fs.disk.root == RootDirectory && fs.disk == PutEntry(start, Temp(p, i), node)
    ensures old(fs.fault) == NoFault ==> ok && fs.fault == NoFault
  {
    StagingPhase(p, fs.disk, i, node);
    PutTwice(start, Temp(p, i), shown, node);
    ok := fs.Write(PutEntry(fs.disk, Temp(p, i), node));
  }

  /** `_copy_tree_bytes` into the staging directory of item `i`, then the hash check. */
  method StageItem(fs: DateDirectory, p: Call, i: nat, ghost from: nat) returns (ok: bool)
    requires Possible(p) && Distinct(p) && i < |p.items| && Missing(p, i)
    requires Logged(p, fs, from) && Phase(p, fs.disk, i, 0, 0) && fs.disk.root == RootDirectory
    requires Temp(p, i) !in fs.disk.entries
    modifies fs
    ensures Logged(p, fs, from) && old(fs.history) <= fs.history
    ensures ok ==> Phase(p, fs.disk, i, 0, 0) && TempReady(p, fs.disk, i)
    ensures ok ==> fs.disk == PutEntry(old(fs.disk), Temp(p, i), Complete(p, i))
    ensures old(fs.fault) == NoFault ==> fs.fault == NoFault && (ok <==> CandidateKept(p, i))
  {
    var item, temp := p.items[i], Temp(p, i);
    assert item in p.items;
    ok := false;
    if !item.staged.Dir? || temp in fs.disk.entries {
      return;
    }
    ghost var start := fs.disk;
    ghost var shown := Dir(map[]);
    var written := WriteTemp(fs, p, i, Dir(map[]), from, start, shown);
    if !written {
      return;
    }
    for k := 0 to |item.partial|
      invariant Logged(p, fs, from) && old(fs.history) <= fs.history
      invariant Phase(p, fs.disk, i, 0, 0) && fs.disk.root == RootDirectory
      invariant fs.disk == PutEntry(start, temp, shown)
      invariant old(fs.fault) == NoFault ==> fs.fault == NoFault
    {
      written := WriteTemp(fs, p, i, item.partial[k], from, start, shown);
      shown := item.partial[k];
      if !written {
        return;
      }
    }
    var copied, _ := CopyDirectory(item.staged);
    if copied.Err? {
      return;
    }
    CopyKeepsFingerprint(item.staged, "");
    written := WriteTemp(fs, p, i, copied.value, from, start, shown);
    if !written {
      return;
    }
    var hash := TreeFingerprint(fs.disk.entries[temp], NO_EXCLUSIONS, "");
    ok := hash == Ok(item.expected);
  }

  /** Stage clip `i` and journal it as staged. */
  method StageAndJournal(fs: DateDirectory, p: Call, i: nat, journal: Journal, ghost from: nat)
    returns (ok: bool, next: Journal)
    requires Possible(p) && Distinct(p) && i < |p.items| && Missing(p, i)
    requires Logged(p, fs, from) && Phase(p, fs.disk, i, 0, 0) && fs.disk.root == RootDirectory
    requires Temp(p, i) !in fs.disk.entries && journal == JournalAt(p, i, 0)
    modifies fs
    ensures Logged(p, fs, from) && old(fs.history) <= fs.history
    ensures ok ==> Phase(p, fs.disk, i + 1, 0, 0) && next == JournalAt(p, i + 1, 0) && CandidateKept(p, i)
    ensures ok ==> fs.disk.entries == old(fs.disk.entries)[Temp(p, i) := Complete(p, i)] && fs.disk.root == RootDirectory
    ensures old(fs.fault) == NoFault ==> fs.fault == NoFault && (ok <==> CandidateKept(p, i))
  {
    next := journal.(items := journal.items[i := journal.items[i].(state := Staged)], state := StagedSome);
    ok := StageItem(fs, p, i, from);
    if ok {
      StagedPhase(p, fs.disk, i, i + 1);
      StagedJournal(p, i);
      ok := fs.Write(PutJournal(fs.disk, next));
    }
  }

  /** The staging names of the missing clips from `i` on are unused. */
  ghost predicate TempsFree(p: Call, entries: map<string, Node>, i: nat) {
    forall k: nat | i <= k < |p.items| && Missing(p, k) :: Temp(p, k) !in entries
  }

  /** The missing clips before `i` still had their expected hash when they were copied. */
  ghost predicate KeptBefore(p: Call, i: nat)
    requires i <= |p.items|
  {
    forall k: nat | k < i && Missing(p, k) :: CandidateKept(p, k)
  }

  lemma StillFree(p: Call, entries: map<string, Node>, i: nat, n: nat, node: Node)
    requires Distinct(p) && i < |p.items| && n == i + 1 && TempsFree(p, entries, i)
    ensures TempsFree(p, entries, n) && TempsFree(p, entries[Temp(p, i) := node], n)
  {
    NamesApart(p);
  }

  /** Stage every missing clip, journaling each. */
  method StageAll(fs: DateDirectory, p: Call, ghost from: nat) returns (ok: bool, journal: Journal)
    requires Possible(p) && RequestError(p) == None
    requires Logged(p, fs, from) && Phase(p, fs.disk, 0, 0, 0) && fs.disk.root == RootDirectory
    requires TempsFree(p, fs.disk.entries, 0)
    modifies fs
    ensures Logged(p, fs, from) && old(fs.history) <= fs.history
    ensures ok ==> Phase(p, fs.disk, |p.items|, 0, 0) && journal == JournalAt(p, |p.items|, 0)
    ensures old(fs.fault) == NoFault ==> fs.fault == NoFault && (ok <==> KeptBefore(p, |p.items|))
  {
    AcceptedIsDistinct(p);
    journal := fs.disk.journals[p.run];
    ok := true;
    for i := 0 to |p.items|
      invariant ok && Logged(p, fs, from) && old(fs.history) <= fs.history
      invariant Phase(p, fs.disk, i, 0, 0) && fs.disk.root == RootDirectory && journal == JournalAt(p, i, 0)
      invariant TempsFree(p, fs.disk.entries, i) && KeptBefore(p, i)
      invariant old(fs.fault) == NoFault ==> fs.fault == NoFault
    {
      StillFree(p, fs.disk.entries, i, i + 1, Complete(p, i));
      if Missing(p, i) {
        ok, journal := StageAndJournal(fs, p, i, journal, from);
        if !ok {
          return;
        }
      } else {
        StagedPhase(p, fs.disk, i, i + 1);
      }
    }
  }

  lemma StagedJournal(p: Call, i: nat)
    requires i < |p.items| && Missing(p, i)
    ensures var journal := JournalAt(p, i, 0);
            journal.(items := journal.items[i := journal.items[i].(state := Staged)], state := StagedSome) == JournalAt(p, i + 1, 0)
  {
    var items := JournalItems(p, i, 0);
    assert items[i := items[i].(state := Staged)] == JournalItems(p, i + 1, 0);
  }

  lemma CommittedJournal(p: Call, i: nat)
    requires i < |p.items|
    ensures var journal := JournalAt(p, |p.items|, i);
            journal.(items := journal.items[i := journal.items[i].(state := Committed)],
                     state := if i + 1 == |p.items| then AllCommitted else Committing)
            == JournalAt(p, |p.items|, i + 1)
  {
    var items := JournalItems(p, |p.items|, i);
    assert items[i := items[i].(state := Committed)] == JournalItems(p, |p.items|, i + 1);
  }

  /** No missing target has appeared meanwhile. */
  method TargetsStillMissing(fs: DateDirectory, p: Call) returns (ok: bool)
    ensures ok <==> forall i: nat | i < |p.items| && Missing(p, i) :: p.items[i].clip !in fs.disk.entries
  {
    for i := 0 to |p.items|
      invariant forall k: nat | k < i && Missing(p, k) :: p.items[k].clip !in fs.disk.entries
    {
      if Missing(p, i) && p.items[i].clip in fs.disk.entries {
        return false;
      }
    }
    return true;
  }

  lemma NodesWellNamed(p: Call, s: Durable, m: nat, n: nat, i: nat)
    requires Possible(p) && Files(p, s, m, n) && i < |p.items|
    ensures p.items[i].clip in s.entries ==> WellNamed(s.entries[p.items[i].clip])
    ensures n <= i < m && Missing(p, i) ==> WellNamed(s.entries[Temp(p, i)])
  {
    assert TargetAt(p, s, i, n);
    assert p.items[i] in p.items;
    CleanFacts(p.items[i].staged);
    if n <= i < m && Missing(p, i) { assert TempReady(p, s, i); }
  }

  /** Rename clip `i` into place unless it was there already, and check what is in place now. */
  method PlaceItem(fs: DateDirectory, p: Call, i: nat, ghost from: nat) returns (ok: bool)
    requires Possible(p) && RequestError(p) == None && i < |p.items|
    requires Logged(p, fs, from) && Phase(p, fs.disk, |p.items|, i, i)
    modifies fs
    ensures Logged(p, fs, from) && old(fs.history) <= fs.history
    ensures ok ==> Phase(p, fs.disk, |p.items|, i + 1, i) && InPlace(p, fs.disk, i)
    ensures old(fs.fault) == NoFault ==> ok && fs.fault == NoFault
  {
    AcceptedIsDistinct(p);
    var clip, temp := p.items[i].clip, Temp(p, i);
    ok := false;
    if Missing(p, i) {
      RenamedPhase(p, fs.disk, i, i + 1);
      NodesWellNamed(p, fs.disk, |p.items|, i, i);
      CompleteSha(p, i);
      if clip in fs.disk.entries {
        return;
      }
      var staged := TreeFingerprint(fs.disk.entries[temp], NO_EXCLUSIONS, "");
      if staged != Ok(p.items[i].expected) {
        return;
      }
      var written := fs.Write(RenameEntry(fs.disk, temp, clip));
      if !written {
        return;
      }
    } else {
      KeptPhase(p, fs.disk, i, i + 1);
    }
    assert TargetAt(p, fs.disk, i, i + 1);
    PlacedIsInPlace(p, fs.disk, i + 1, i);
    NodesWellNamed(p, fs.disk, |p.items|, i + 1, i);
    var placed := TreeFingerprint(fs.disk.entries[clip], NO_EXCLUSIONS, "");
    ok := placed == Ok(p.items[i].expected);
  }

  /** Place clip `i` and journal it as committed. */
  method CommitItem(fs: DateDirectory, p: Call, i: nat, journal: Journal, ghost from: nat)
    returns (ok: bool, next: Journal)
    requires Possible(p) && RequestError(p) == None && i < |p.items|
    requires Logged(p, fs, from) && Phase(p, fs.disk, |p.items|, i, i) && journal == JournalAt(p, |p.items|, i)
    modifies fs
    ensures Logged(p, fs, from) && old(fs.history) <= fs.history
    ensures ok ==> Phase(p, fs.disk, |p.items|, i + 1, i + 1) && next == JournalAt(p, |p.items|, i + 1)
    ensures old(fs.fault) == NoFault ==> ok && fs.fault == NoFault
  {
    next := journal.(items := journal.items[i := journal.items[i].(state := Committed)],
                     state := if i + 1 == |p.items| then AllCommitted else Committing);
    ok := PlaceItem(fs, p, i, from);
    if ok {
      CommittedJournal(p, i);
      CommittedPhase(p, fs.disk, i, i + 1);
      ok := fs.Write(PutJournal(fs.disk, next));
    }
  }

  /** Commit the plan clip by clip, rewriting the journal after each. */
  method CommitAll(fs: DateDirectory, p: Call, intent: Journal, ghost from: nat)
    returns (ok: bool, committed: seq<string>)
    requires Possible(p) && RequestError(p) == None
    requires Logged(p, fs, from) && Phase(p, fs.disk, |p.items|, 0, 0) && intent == JournalAt(p, |p.items|, 0)
    modifies fs
    ensures Logged(p, fs, from) && old(fs.history) <= fs.history
    ensures ok ==> Phase(p, fs.disk, |p.items|, |p.items|, |p.items|)
    ensures ok ==> committed == Clips(p)
    ensures old(fs.fault) == NoFault ==> ok && fs.fault == NoFault
  {
    var journal := intent;
    ok, committed := true, [];
    for i := 0 to |p.items|
      invariant ok && Logged(p, fs, from) && old(fs.history) <= fs.history
      invariant Phase(p, fs.disk, |p.items|, i, i) && journal == JournalAt(p, |p.items|, i)
      invariant committed == ClipsBefore(p, i)
      invariant old(fs.fault) == NoFault ==> fs.fault == NoFault
    {
      ok, journal := CommitItem(fs, p, i, journal, from);
      if !ok {
        return;
      }
      committed := committed + [p.items[i].clip];
    }
  }

  ghost function ClipsBefore(p: Call, n: nat): seq<string>
    requires n <= |p.items|
  {
    if n == 0 then [] else ClipsBefore(p, n - 1) + [p.items[n - 1].clip]
  }

  /** The requested clips, in order. */
  ghost function Clips(p: Call): seq<string> { ClipsBefore(p, |p.items|) }

  ghost predicate AllCandidatesKept(p: Call) { KeptBefore(p, |p.items|) }

  /** Write the intent journal and create the date directory if it is missing. */
  method OpenJournal(fs: DateDirectory, p: Call, ghost from: nat) returns (code: Option<string>)
    requires Possible(p) && RequestError(p) == None && fs.disk == p.before && Logged(p, fs, from)
    modifies fs
    ensures old(fs.history) <= fs.history && Logged(p, fs, from)
    ensures code == None ==> Phase(p, fs.disk, 0, 0, 0) && fs.disk.root == RootDirectory && fs.disk.entries == p.before.entries
    ensures code.Some? ==> code.value == "publication_recovery_required" || code.value == "os_error"
    ensures code != Some("os_error") ==> |fs.history| > |old(fs.history)|
    ensures code == Some("os_error") ==> fs.disk == p.before || fs.disk == PutJournal(p.before, JournalAt(p, 0, 0))
    ensures old(fs.fault) == NoFault ==> fs.fault == NoFault && code == None
  {
    IntentPhase(p);
    var ok := fs.Write(PutJournal(fs.disk, JournalAt(p, 0, 0)));
    if !ok {
      return Some("os_error");
    }
    if fs.disk.root == RootMissing {
      assert Phase(p, fs.disk.(root := RootDirectory), 0, 0, 0);
      ok := fs.Write(fs.disk.(root := RootDirectory));
      if !ok {
        return Some("publication_recovery_required");
      }
    }
    return None;
  }

  /** Everything from the intent journal on. */
  method RunPlan(fs: DateDirectory, p: Call) returns (r: Outcome)
    requires Possible(p) && RequestError(p) == None && fs.disk == p.before
    modifies fs
    ensures old(fs.history) <= fs.history && Logged(p, fs, |old(fs.history)|)
    ensures r.Failed? ==> r.code == "publication_recovery_required" || r.code == "os_error"
    ensures r == Failed("publication_recovery_required") ==> p.run in fs.disk.journals
    ensures r == Failed("os_error") ==> fs.disk == p.before || fs.disk == PutJournal(p.before, JournalAt(p, 0, 0))
    ensures r.Published? ==> Phase(p, fs.disk, |p.items|, |p.items|, |p.items|) && r.committed == Clips(p)
    ensures old(fs.fault) == NoFault ==> fs.fault == NoFault && (r.Published? <==> AllCandidatesKept(p))
  {
    ghost var from := |fs.history|;
    var code := OpenJournal(fs, p, from);
    if code.Some? {
      return Failed(code.value);
    }
    FreeTemps(p);
    var ok, journal := StageAll(fs, p, from);
    if !ok {
      return Failed("publication_recovery_required");
    }
    StillMissing(p, fs.disk);
    ok := TargetsStillMissing(fs, p);
    if !ok {
      return Failed("publication_recovery_required");
    }
    var committed;
    ok, committed := CommitAll(fs, p, journal, from);
    if !ok {
      return Failed("publication_recovery_required");
    }
    return Published(committed);
  }

  lemma FreeTemps(p: Call)
    requires RequestError(p) == None
    ensures TempsFree(p, p.before.entries, 0)
  {
    PlanFine(p.before.entries, p.run, p.items);
    forall k: nat | k < |p.items| && Missing(p, k) ensures Temp(p, k) !in p.before.entries {
      assert PlannedFine(p.before.entries, p.run, p.items, k);
    }
  }

  /** What a finished run leaves under one name. */
  ghost predicate LeftUnder(p: Call, s: Durable, name: string) {
    (name in s.entries <==> name in p.before.entries || IsClip(p, name))
    && (name in p.before.entries ==> Agree(p.before.entries, s.entries, name))
  }

  lemma ClipLeft(p: Call, s: Durable, i: nat)
    requires i < |p.items| && TargetAt(p, s, i, |p.items|)
    ensures LeftUnder(p, s, p.items[i].clip)
    ensures Missing(p, i) ==> s.entries[p.items[i].clip] == Complete(p, i)
  {
  }

  lemma TempLeft(p: Call, s: Durable, name: string)
    requires IsTemp(p, name) && !IsClip(p, name) && TempsFree(p, p.before.entries, 0) && TempsGone(p, s, |p.items|, |p.items|)
    ensures LeftUnder(p, s, name)
  {
    var i: nat :| i < |p.items| && Missing(p, i) && Temp(p, i) == name;
    assert TempGone(p, s, i);
  }

  /**
   A finished run leaves exactly what was there before and the clips that were missing, complete: no
   staging directory and nothing else.
   */
  lemma PublishedExactly(p: Call, s: Durable)
    requires RequestError(p) == None && Phase(p, s, |p.items|, |p.items|, |p.items|)
    ensures forall name :: LeftUnder(p, s, name)
    ensures forall i: nat | i < |p.items| && Missing(p, i) :: p.items[i].clip in s.entries && s.entries[p.items[i].clip] == Complete(p, i)
  {
    FreeTemps(p);
    forall i: nat | i < |p.items| && Missing(p, i)
      ensures p.items[i].clip in s.entries && s.entries[p.items[i].clip] == Complete(p, i)
    {
      assert TargetAt(p, s, i, |p.items|);
    }
    forall name ensures LeftUnder(p, s, name) {
      if IsClip(p, name) {
        var i: nat :| i < |p.items| && p.items[i].clip == name;
        ClipLeft(p, s, i);
      } else if IsTemp(p, name) {
        TempLeft(p, s, name);
      } else {
        assert Agree(p.before.entries, s.entries, name);
      }
    }
  }

  lemma StillMissing(p: Call, s: Durable)
    requires TargetsAt(p, s, 0)
    ensures forall i: nat | i < |p.items| && Missing(p, i) :: p.items[i].clip !in s.entries
  {
    forall i: nat | i < |p.items| && Missing(p, i) ensures p.items[i].clip !in s.entries {
      assert TargetAt(p, s, i, 0);
    }
  }

  /**
   `CompatibilityPublisher.publish`. Every state the directory goes through satisfies `Reached`, a
   refused request leaves no trace, a failure that needs recovery leaves its journal, any other failure
   nothing but perhaps the intent journal, and without faults an accepted request succeeds exactly when every
   missing candidate still had its expected hash when it was copied.
   */
  method Publish(fs: DateDirectory, job: string, run: string, date: string, items: seq<Item>) returns (r: Outcome)
    requires Possible(Call(fs.disk, job, run, date, items))
    modifies fs
    ensures old(fs.history) <= fs.history && Logged(Call(old(fs.disk), job, run, date, items), fs, |old(fs.history)|)
    ensures var p := Call(old(fs.disk), job, run, date, items);
            RequestError(p).Some? ==>
              r == Failed(RequestError(p).value) && fs.disk == p.before && fs.history == old(fs.history)
    ensures var p := Call(old(fs.disk), job, run, date, items);
            RequestError(p) == None ==>
              (r.Failed? ==> r.code == "publication_recovery_required" || r.code == "os_error")
              && (r == Failed("publication_recovery_required") ==> run in fs.disk.journals)
              && (r == Failed("os_error") ==> fs.disk == p.before || fs.disk == PutJournal(p.before, JournalAt(p, 0, 0)))
              && (r.Published? ==> Phase(p, fs.disk, |items|, |items|, |items|) && r.committed == Clips(p))
              && (old(fs.fault) == NoFault ==> (r.Published? <==> AllCandidatesKept(p)))
    ensures old(fs.fault) == NoFault ==> fs.fault == NoFault
  {
    var p := Call(fs.disk, job, run, date, items);
    var refusal := CheckRequest(p);
    if refusal.Some? {
      return Failed(refusal.value);
    }
    r := RunPlan(fs, p);
  }

  lemma AgainPossible(p: Call, s: Durable, run: string)
    requires Possible(p) && Reached(p, s) && Named(s)
    ensures Possible(Again(p, s, run))
  {
  }

  /**
   Publishing the same candidates again, under a fresh run reference, from any state a stopped run
   left: without further faults it succeeds, no target that is already there changes, and the targets
   end as an uninterrupted first run would have left them.
   */
  method Resume(fs: DateDirectory, p: Call, run: string) returns (r: Outcome)
    requires Possible(p) && RequestError(p) == None && Reached(p, fs.disk) && Named(fs.disk) && fs.fault == NoFault
    requires IsOpaqueRef(run) && run != p.run && run !in p.before.journals
    requires forall i: nat | i < |p.items| && p.items[i].clip !in fs.disk.entries :: TempName(run, i) !in p.before.entries
    requires forall i: nat | i < |p.items| && p.items[i].clip !in fs.disk.entries :: CandidateKept(p, i)
    modifies fs
    ensures r.Published? && Finished(p, fs.disk)
    ensures forall i: nat | i < |p.items| && p.items[i].clip in old(fs.disk.entries) ::
              Agree(old(fs.disk.entries), fs.disk.entries, p.items[i].clip)
    ensures run in fs.disk.journals && JournalShape(fs.disk.journals[run]) && fs.disk.journals[run].state == AllCommitted
  {
    ghost var stopped := fs.disk;
    ghost var q := Again(p, stopped, run);
    AgainPossible(p, stopped, run);
    ResumeReachesSameTargets(p, stopped, run, stopped);
    assert KeptBefore(q, |q.items|);
    r := Publish(fs, p.job, run, p.date, p.items);
    ResumeReachesSameTargets(p, stopped, run, fs.disk);
    assert Phase(q, fs.disk, |q.items|, |q.items|, |q.items|);
    JournalAtShape(q, |q.items|, |q.items|);
    forall i: nat | i < |p.items| && p.items[i].clip in stopped.entries
      ensures Agree(stopped.entries, fs.disk.entries, p.items[i].clip)
    {
      assert TargetAt(q, fs.disk, i, |q.items|);
    }
  }

  /**
   Publication that survives a fault: an accepted request is run against a directory that may fail at
   any write, and if it does fail it is run once more, under `again`, when the directory works again.
   Either way the targets end as an undisturbed run would have left them.
   */
  method PublishWithRecovery(fs: DateDirectory, p: Call, again: string) returns (r: Outcome)
    requires fs.disk == p.before && Possible(p) && RequestError(p) == None
    requires IsOpaqueRef(again) && again != p.run && again !in p.before.journals
    requires forall i: nat | i < |p.items| && Missing(p, i) ::
               TempName(again, i) !in p.before.entries && CandidateKept(p, i)
    modifies fs
    ensures r.Published? && Finished(p, fs.disk)
  {
    r := Publish(fs, p.job, p.run, p.date, p.items);
    if r.Failed? {
      StillAbsent(p, fs.disk);
      fs.fault := NoFault;
      r := Resume(fs, p, again);
    }
  }

  /** A clip absent in a state the run may leave was absent before. */
  lemma StillAbsent(p: Call, s: Durable)
    requires Possible(p) && RequestError(p) == None && Reached(p, s)
    ensures forall i: nat | i < |p.items| && p.items[i].clip !in s.entries :: Missing(p, i)
  {
    AcceptedIsDistinct(p);
    TargetsOldOrComplete(p, s);
    forall i: nat | i < |p.items| && p.items[i].clip !in s.entries ensures Missing(p, i) {
      assert OldOrComplete(p, s, i);
    }
  }
}
