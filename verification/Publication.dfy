/**
 Journaled publication of candidate clips into one date directory: names, durable states, the phases
 a run goes through, and what every phase guarantees.
 */
module Publication {
  import opened Common
  import opened Paths
  import opened Trees

  // ------------------------------------------------------------------ names

  predicate IsAlnum(c: char) { 'A' <= c <= 'Z' || 'a' <= c <= 'z' || '0' <= c <= '9' }

  predicate IsWord(s: string) {
    s != "" && IsAlnum(s[0]) && forall c :: c in s ==> IsAlnum(c) || c == '_' || c == '-'
  }

  predicate IsClipName(s: string) { IsWord(s) }

  predicate IsOpaqueRef(s: string) { 16 <= |s| <= 128 && IsWord(s) }

  predicate IsDate(s: string) { |s| == 8 && forall c :: c in s ==> '0' <= c <= '9' }

  /** `str(n)`. */
  function Decimal(n: nat): (s: string)
    ensures s != "" && forall c :: c in s ==> '0' <= c <= '9'
  {
    if n < 10 then ['0' + n as char] else Decimal(n / 10) + ['0' + (n % 10) as char]
  }

  /** The directory a missing clip is staged in. */
  function TempName(run: string, index: nat): string {
    ".annotation-" + run + "-" + Decimal(index)
  }

  lemma {:induction false} DecimalInjective(a: nat, b: nat)
    requires Decimal(a) == Decimal(b)
    ensures a == b
  {
    var s, t := Decimal(a), Decimal(b);
    assert s[|s| - 1] == '0' + (a % 10) as char && t[|t| - 1] == '0' + (b % 10) as char;
    if a >= 10 && b >= 10 {
      assert Decimal(a / 10) == s[..|s| - 1] && Decimal(b / 10) == t[..|t| - 1];
      DecimalInjective(a / 10, b / 10);
    }
  }

  lemma LastDash(a: string, b: string, x: string, y: string)
    requires a + "-" + x == b + "-" + y && '-' !in x && '-' !in y
    ensures a == b && x == y
  {
    var s, t := a + "-" + x, b + "-" + y;
    assert s[|a|] == '-' && t[|b|] == '-';
    assert forall i | |a| < i < |s| :: s[i] == x[i - |a| - 1];
    assert forall i | |b| < i < |t| :: t[i] == y[i - |b| - 1];
    assert |a| == |b|;
    assert a == s[..|a|] && b == t[..|b|] && x == s[|a| + 1..] && y == t[|b| + 1..];
  }

  /** Staging names never collide with each other, nor with a clip. */
  lemma TempNames(run: string, i: nat, run': string, j: nat, clip: string)
    requires IsClipName(clip)
    ensures TempName(run, i) == TempName(run', j) <==> run == run' && i == j
    ensures TempName(run, i) != clip
  {
    var head := ".annotation-";
    assert TempName(run, i)[0] == '.';
    if TempName(run, i) == TempName(run', j) {
      assert TempName(run, i) == (head + run) + "-" + Decimal(i);
      assert TempName(run', j) == (head + run') + "-" + Decimal(j);
      LastDash(head + run, head + run', Decimal(i), Decimal(j));
      assert run == (head + run)[|head|..] && run' == (head + run')[|head|..];
      DecimalInjective(i, j);
    }
  }

  // --------------------------------------------------------- durable states

  datatype ItemState = Preexisting | Pending | Staged | Committed

  datatype JournalState = Intent | StagedSome | Committing | AllCommitted

  datatype JournalItem = JournalItem(clip: string, sha256: seq<Entry>, state: ItemState)

  datatype Journal = Journal(job: string, run: string, date: string, state: JournalState, items: seq<JournalItem>)

  /** The date directory; `RootUnavailable` when the directory that is to hold it is not a real one. */
  datatype RootState = RootMissing | RootDirectory | RootUnsafe | RootUnavailable

  /** The date directory and the journals, by run reference. */
  datatype Durable = Durable(root: RootState, entries: map<string, Node>, journals: map<string, Journal>)

  /**
   A candidate: its expected hash and whether that was written as 64 hex digits, its tree when first
   checked, its tree when copied (the two differ if the candidate changed in between) and the contents
   its staging directory shows while the copy is under way.
   */
  datatype Item = Item(clip: string, expected: seq<Entry>, isHex: bool, checked: Node, staged: Node, partial: seq<Node>)

  /** One call: the state it found and its arguments. */
  datatype Call = Call(before: Durable, job: string, run: string, date: string, items: seq<Item>)

  ghost function Sha(n: Node): Option<seq<Entry>> {
    match Fingerprint(n, NO_EXCLUSIONS, "")
    case Ok(entries) => Some(entries)
    case Err(_) => None
  }

  ghost predicate Named(s: Durable) {
    forall name | name in s.entries :: WellNamed(s.entries[name])
  }

  /** What any file system gives: entry names are names, and a missing directory holds nothing. */
  ghost predicate Possible(p: Call) {
    (p.before.root == RootMissing ==> p.before.entries == map[])
    && Named(p.before)
    && (forall x | x in p.items ::
          WellNamed(x.checked) && WellNamed(x.staged) && forall n | n in x.partial :: WellNamed(n))
  }

  // ------------------------------------------------------- refused requests

  ghost predicate Repeated(items: seq<Item>, i: nat)
    requires i < |items|
  {
    exists j | 0 <= j < i :: items[j].clip == items[i].clip
  }

  ghost function ItemError(items: seq<Item>, i: nat): Option<string>
    requires i < |items|
  {
    var x := items[i];
    if !IsClipName(x.clip) || !x.isHex || Repeated(items, i) || !x.checked.Dir? then Some("invalid_runtime_request")
    else if Sha(x.checked) == None then Some("unsafe_runtime_output")
    else if Sha(x.checked) != Some(x.expected) then Some("publication_candidate_changed")
    else None
  }

  ghost function ItemErrors(items: seq<Item>): seq<Option<string>> {
    seq(|items|, i requires 0 <= i < |items| => ItemError(items, i))
  }

  /** The code the candidate loop raises. */
  ghost function CandidateError(items: seq<Item>): Option<string> { FirstCode(ItemErrors(items)) }

  ghost function ItemPlanError(entries: map<string, Node>, run: string, items: seq<Item>, i: nat): Option<string>
    requires i < |items|
  {
    if items[i].clip in entries then
      var target := entries[items[i].clip];
      if !target.Dir? then Some("publication_conflict")
      else if Sha(target) == None then Some("publication_target_unsafe")
      else if Sha(target) != Some(items[i].expected) then Some("publication_conflict")
      else None
    else if TempName(run, i) in entries then Some("publication_recovery_required")
    else None
  }

  ghost function ItemPlanErrors(entries: map<string, Node>, run: string, items: seq<Item>): seq<Option<string>> {
    seq(|items|, i requires 0 <= i < |items| => ItemPlanError(entries, run, items, i))
  }

  /** The code the planning loop raises. */
  ghost function PlanError(entries: map<string, Node>, run: string, items: seq<Item>): Option<string> {
    FirstCode(ItemPlanErrors(entries, run, items))
  }

  /** The code raised before anything durable is written, if any. */
  ghost function RequestError(p: Call): Option<string> {
    if !IsOpaqueRef(p.job) || !IsOpaqueRef(p.run) || !IsDate(p.date) || p.items == [] then Some("invalid_runtime_request")
    else if p.run in p.before.journals then Some("publication_recovery_required")
    else if p.before.root == RootUnavailable then Some("publication_target_unavailable")
    else if p.before.root == RootUnsafe then Some("publication_target_unsafe")
    else if CandidateError(p.items).Some? then CandidateError(p.items)
    else PlanError(p.before.entries, p.run, p.items)
  }

  ghost predicate ClipFine(items: seq<Item>, k: nat)
    requires k < |items|
  {
    IsClipName(items[k].clip) && !Repeated(items, k)
  }

  /** Once the candidate loop has passed, every clip is a proper name that did not occur before. */
  lemma CandidatesFine(items: seq<Item>, k: nat)
    requires k < |items| && CandidateError(items) == None
    ensures ClipFine(items, k)
  {
    assert ItemErrors(items)[k] == None;
  }

  /** The target is absent with a free staging name, or already right. */
  ghost predicate PlannedFine(entries: map<string, Node>, run: string, items: seq<Item>, k: nat)
    requires k < |items|
  {
    if items[k].clip in entries then Sha(entries[items[k].clip]) == Some(items[k].expected)
    else TempName(run, k) !in entries
  }

  lemma ItemPlanFine(entries: map<string, Node>, run: string, items: seq<Item>, k: nat)
    requires k < |items|
    ensures ItemPlanErrors(entries, run, items)[k] == None <==> PlannedFine(entries, run, items, k)
  {
    assert items[k].clip in entries && !entries[items[k].clip].Dir? ==> Sha(entries[items[k].clip]) == None;
  }

  /** The planning loop passes exactly when each target is absent with a free staging name, or already right. */
  lemma PlanFine(entries: map<string, Node>, run: string, items: seq<Item>)
    ensures PlanError(entries, run, items) == None <==>
            forall k: nat | k < |items| :: PlannedFine(entries, run, items, k)
  {
    forall k: nat | k < |items|
      ensures ItemPlanErrors(entries, run, items)[k] == None <==> PlannedFine(entries, run, items, k)
    {
      ItemPlanFine(entries, run, items, k);
    }
  }

  /** What an acceptable item is: named properly and for the first time, unchanged, and free to go or there already. */
  ghost predicate Acceptable(p: Call, k: nat)
    requires k < |p.items|
  {
    var x := p.items[k];
    IsClipName(x.clip) && x.isHex && (forall j | 0 <= j < k :: p.items[j].clip != x.clip)
    && Sha(x.checked) == Some(x.expected) && PlannedFine(p.before.entries, p.run, p.items, k)
  }

  lemma ItemAcceptedExactly(items: seq<Item>, k: nat)
    requires k < |items|
    ensures ItemErrors(items)[k] == None <==>
            ClipFine(items, k) && items[k].isHex && Sha(items[k].checked) == Some(items[k].expected)
  {
    assert !items[k].checked.Dir? ==> Sha(items[k].checked) == None;
  }

  /** A request gets past all checks exactly when its references are well formed and new, its root usable and its items acceptable. */
  lemma RequestAcceptedExactly(p: Call)
    ensures RequestError(p) == None <==>
            IsOpaqueRef(p.job) && IsOpaqueRef(p.run) && IsDate(p.date) && p.items != [] && p.run !in p.before.journals
            && (p.before.root == RootMissing || p.before.root == RootDirectory)
            && forall k: nat | k < |p.items| :: Acceptable(p, k)
  {
    PlanFine(p.before.entries, p.run, p.items);
    forall k: nat | k < |p.items|
      ensures Acceptable(p, k) <==> ItemErrors(p.items)[k] == None && PlannedFine(p.before.entries, p.run, p.items, k)
    {
      ItemAcceptedExactly(p.items, k);
    }
    assert CandidateError(p.items) == None <==> forall k: nat | k < |p.items| :: ItemErrors(p.items)[k] == None;
  }

  ghost predicate Conflicts(entries: map<string, Node>, x: Item) {
    x.clip in entries && Sha(entries[x.clip]) != Some(x.expected)
  }

  /** What the refusal codes mean, once references and root are in order. */
  lemma RefusalMeans(p: Call)
    requires IsOpaqueRef(p.job) && IsOpaqueRef(p.run) && IsDate(p.date) && p.items != [] && p.run !in p.before.journals
    requires p.before.root == RootMissing || p.before.root == RootDirectory
    ensures RequestError(p) == Some("publication_conflict") ==> exists x | x in p.items :: Conflicts(p.before.entries, x)
    ensures RequestError(p) == Some("publication_candidate_changed") ==>
              exists x | x in p.items :: Sha(x.checked).Some? && Sha(x.checked) != Some(x.expected)
    ensures RequestError(p) == Some("publication_recovery_required") ==>
              exists k: nat | k < |p.items| :: p.items[k].clip !in p.before.entries && TempName(p.run, k) in p.before.entries
  {
    var e := RequestError(p);
    if e.Some? {
      var a, b := ItemErrors(p.items), ItemPlanErrors(p.before.entries, p.run, p.items);
      if CandidateError(p.items).Some? {
        var k :| 0 <= k < |a| && a[k] == e;
        CandidateCode(p.items, k);
      } else {
        var k :| 0 <= k < |b| && b[k] == e;
        PlanCode(p, k);
      }
    }
  }

  lemma CandidateCode(items: seq<Item>, k: nat)
    requires k < |items|
    ensures var e := ItemError(items, k);
            e != Some("publication_conflict") && e != Some("publication_recovery_required")
            && (e == Some("publication_candidate_changed") ==> Sha(items[k].checked).Some? && Sha(items[k].checked) != Some(items[k].expected))
  {
    CodesDiffer();
  }

  lemma PlanCode(p: Call, k: nat)
    requires k < |p.items|
    ensures var e := ItemPlanError(p.before.entries, p.run, p.items, k);
            e != Some("publication_candidate_changed")
            && (e == Some("publication_conflict") ==> Conflicts(p.before.entries, p.items[k]))
            && (e == Some("publication_recovery_required") ==>
                  p.items[k].clip !in p.before.entries && TempName(p.run, k) in p.before.entries)
  {
    CodesDiffer();
  }

  /** The codes in question differ in length, or else at index 12. */
  lemma CodesDiffer()
    ensures |"publication_conflict"| == 20 && |"publication_recovery_required"| == 29 && |"publication_candidate_changed"| == 29
    ensures "publication_recovery_required"[12] == 'r' && "publication_candidate_changed"[12] == 'c'
    ensures |"invalid_runtime_request"| == 23 && |"unsafe_runtime_output"| == 21 && |"publication_target_unsafe"| == 25
  {
  }

  // ------------------------------------------------------------ phases

  predicate Agree<V(==)>(a: map<string, V>, b: map<string, V>, k: string) {
    (k in a <==> k in b) && (k in a ==> a[k] == b[k])
  }

  predicate Missing(p: Call, i: nat)
    requires i < |p.items|
  {
    p.items[i].clip !in p.before.entries
  }

  function Temp(p: Call, i: nat): string { TempName(p.run, i) }

  /** The complete tree of clip `i`. */
  function Complete(p: Call, i: nat): Node
    requires i < |p.items|
  {
    Clean(p.items[i].staged)
  }

  ghost predicate CandidateKept(p: Call, i: nat)
    requires i < |p.items|
  {
    Sha(p.items[i].staged) == Some(p.items[i].expected)
  }

  ghost predicate IsClip(p: Call, name: string) {
    exists i | 0 <= i < |p.items| :: p.items[i].clip == name
  }

  ghost predicate IsTemp(p: Call, name: string) {
    exists i: nat | i < |p.items| && Missing(p, i) :: Temp(p, i) == name
  }

  /** Nothing but the requested clips, this run's staging names for missing clips and this run's journal may differ. */
  ghost predicate Framed(p: Call, s: Durable) {
    (forall name | !IsClip(p, name) && !IsTemp(p, name) :: Agree(p.before.entries, s.entries, name))
    && (forall run | run != p.run :: Agree(p.before.journals, s.journals, run))
  }

  /** The first `n` plan entries have been renamed into place. */
  ghost predicate TargetAt(p: Call, s: Durable, i: nat, n: nat)
    requires i < |p.items|
  {
    var clip := p.items[i].clip;
    if !Missing(p, i) then Agree(p.before.entries, s.entries, clip)
    else if i < n then clip in s.entries && s.entries[clip] == Complete(p, i) && CandidateKept(p, i)
    else clip !in s.entries
  }

  ghost predicate TempReady(p: Call, s: Durable, i: nat)
    requires i < |p.items|
  {
    Temp(p, i) in s.entries && s.entries[Temp(p, i)] == Complete(p, i) && CandidateKept(p, i)
  }

  function ItemStateAt(p: Call, i: nat, m: nat, c: nat): ItemState
    requires i < |p.items|
  {
    if i < c then Committed else if !Missing(p, i) then Preexisting else if i < m then Staged else Pending
  }

  function JournalItems(p: Call, m: nat, c: nat): seq<JournalItem> {
    seq(|p.items|, i requires 0 <= i < |p.items| =>
      JournalItem(p.items[i].clip, p.items[i].expected, ItemStateAt(p, i, m, c)))
  }

  /** The journal after `m` plan entries are staged and `c` are committed. */
  function JournalAt(p: Call, m: nat, c: nat): Journal {
    Journal(p.job, p.run, p.date,
            if c > 0 then (if c == |p.items| then AllCommitted else Committing)
            else if exists i: nat | i < m && i < |p.items| :: Missing(p, i) then StagedSome
            else Intent,
            JournalItems(p, m, c))
  }

  ghost predicate TargetsAt(p: Call, s: Durable, n: nat) {
    forall i: nat | i < |p.items| :: TargetAt(p, s, i, n)
  }

  ghost predicate TempsReady(p: Call, s: Durable, n: nat, m: nat)
    requires m <= |p.items|
  {
    forall i: nat | n <= i < m && Missing(p, i) :: TempReady(p, s, i)
  }

  /** No staging directory is left of the clips in place, nor made of those after the one being staged. */
  ghost predicate TempsGone(p: Call, s: Durable, n: nat, m: nat)
  {
    forall i: nat | i < |p.items| && (i < n || i > m) && Missing(p, i) :: TempGone(p, s, i)
  }

  predicate TempGone(p: Call, s: Durable, i: nat) { Temp(p, i) !in s.entries }

  /** The directory when the staging of `m` entries is complete and `n` are renamed into place. */
  ghost predicate Files(p: Call, s: Durable, m: nat, n: nat) {
    n <= |p.items| && m <= |p.items| && (n > 0 ==> m == |p.items|)
    && Framed(p, s) && TargetsAt(p, s, n) && TempsReady(p, s, n, m) && TempsGone(p, s, n, m)
    && (s.root == RootDirectory || (s.root == p.before.root && (s.root == RootMissing ==> s.entries == map[])))
  }

  /** `m` entries staged and journaled, `n` renamed into place, `c` journaled as committed. */
  ghost predicate Phase(p: Call, s: Durable, m: nat, n: nat, c: nat) {
    Files(p, s, m, n) && c <= n <= c + 1 && p.run in s.journals && s.journals[p.run] == JournalAt(p, m, c)
  }

  /** A state the run may leave behind when it stops. */
  ghost predicate Reached(p: Call, s: Durable) {
    s == p.before || exists m: nat, n: nat, c: nat :: Phase(p, s, m, n, c)
  }

  // ------------------------------------------------- what a phase guarantees

  /** Clips are distinct names, and no staging name is a clip. */
  ghost predicate Distinct(p: Call) {
    (forall i, j | 0 <= i < j < |p.items| :: p.items[i].clip != p.items[j].clip)
    && forall x | x in p.items :: IsClipName(x.clip)
  }

  lemma AcceptedIsDistinct(p: Call)
    requires RequestError(p) == None
    ensures Distinct(p)
  {
    forall k: nat | k < |p.items| ensures ClipFine(p.items, k) {
      CandidatesFine(p.items, k);
    }
    forall i, j | 0 <= i < j < |p.items| ensures p.items[i].clip != p.items[j].clip {
      assert ClipFine(p.items, j);
    }
    forall x | x in p.items ensures IsClipName(x.clip) {
      var k: nat :| k < |p.items| && p.items[k] == x;
      assert ClipFine(p.items, k);
    }
  }

  lemma NamesApart(p: Call)
    requires Distinct(p)
    ensures forall i: nat, j: nat | i < |p.items| && j < |p.items| :: Temp(p, i) != p.items[j].clip
    ensures forall i: nat, j: nat | Temp(p, i) == Temp(p, j) :: i == j
  {
    forall i: nat, j: nat | i < |p.items| && j < |p.items| ensures Temp(p, i) != p.items[j].clip {
      assert p.items[j] in p.items;
      TempNames(p.run, i, p.run, i, p.items[j].clip);
    }
    forall i: nat, j: nat | Temp(p, i) == Temp(p, j) ensures i == j {
      TempNames(p.run, i, p.run, j, "a");
    }
  }

  /** A staged tree carries the expected hash. */
  lemma CompleteSha(p: Call, i: nat)
    requires i < |p.items| && WellNamed(p.items[i].staged) && CandidateKept(p, i)
    ensures Sha(Complete(p, i)) == Some(p.items[i].expected)
  {
    CopyKeepsFingerprint(p.items[i].staged, "");
  }

  ghost predicate OldOrComplete(p: Call, s: Durable, i: nat)
    requires i < |p.items|
  {
    var clip := p.items[i].clip;
    Agree(p.before.entries, s.entries, clip)
    || (clip !in p.before.entries && clip in s.entries
        && s.entries[clip] == Clean(p.items[i].staged)
        && Sha(s.entries[clip]) == Some(p.items[i].expected))
  }

  /**
   Whenever the run stops, each clip target holds exactly what it held before or, if it was absent,
   the complete tree with the expected hash; everything outside the request is untouched.
   */
  lemma TargetsOldOrComplete(p: Call, s: Durable)
    requires Possible(p) && Distinct(p) && Reached(p, s)
    ensures forall i: nat | i < |p.items| :: OldOrComplete(p, s, i)
    ensures forall name | name in p.before.entries && !IsTemp(p, name) :: Agree(p.before.entries, s.entries, name)
    ensures forall name | !IsClip(p, name) && !IsTemp(p, name) :: Agree(p.before.entries, s.entries, name)
    ensures forall run | run != p.run :: Agree(p.before.journals, s.journals, run)
  {
    if s != p.before {
      var m: nat, n: nat, c: nat :| Phase(p, s, m, n, c);
      forall i: nat | i < |p.items| ensures OldOrComplete(p, s, i) {
        assert TargetAt(p, s, i, n);
        assert p.items[i] in p.items;
        if CandidateKept(p, i) { CompleteSha(p, i); }
      }
      forall name | name in p.before.entries && !IsTemp(p, name) ensures Agree(p.before.entries, s.entries, name) {
        if IsClip(p, name) {
          var i: nat :| i < |p.items| && p.items[i].clip == name;
          assert TargetAt(p, s, i, n);
        }
      }
    }
  }

  /** A target has changed only once every missing clip is staged complete or already in place. */
  lemma NothingPublishedBeforeAllStaged(p: Call, s: Durable, k: nat)
    requires Distinct(p) && Reached(p, s) && k < |p.items|
    requires !Agree(p.before.entries, s.entries, p.items[k].clip)
    ensures forall i: nat | i < |p.items| && Missing(p, i) :: StagedOrPlaced(p, s, i)
  {
    var m: nat, n: nat, c: nat :| Phase(p, s, m, n, c);
    assert TargetAt(p, s, k, n);
    assert n > 0;
    forall i: nat | i < |p.items| && Missing(p, i) ensures StagedOrPlaced(p, s, i) {
      assert TargetAt(p, s, i, n);
      assert i < n || TempReady(p, s, i);
    }
  }

  ghost predicate StagedOrPlaced(p: Call, s: Durable, i: nat)
    requires i < |p.items|
  {
    CandidateKept(p, i)
    && (TempReady(p, s, i) || (p.items[i].clip in s.entries && s.entries[p.items[i].clip] == Complete(p, i)))
  }

  ghost predicate SomeItem(journal: Journal, state: ItemState) {
    exists i | 0 <= i < |journal.items| :: journal.items[i].state == state
  }

  /** The overall state is "intent" before anything is staged or committed, and "staged" until the first commit. */
  ghost predicate StateSays(journal: Journal) {
    (journal.state == Intent <==> !SomeItem(journal, Staged) && !SomeItem(journal, Committed))
    && (journal.state == StagedSome <==> SomeItem(journal, Staged) && !SomeItem(journal, Committed))
  }

  /** Committed items form a prefix of the plan, and the overall state says so exactly when it is all of it. */
  ghost predicate JournalShape(journal: Journal) {
    StateSays(journal)
    && (journal.state == AllCommitted <==> forall i | 0 <= i < |journal.items| :: journal.items[i].state == Committed)
    && (forall i, j | 0 <= i < j < |journal.items| && journal.items[j].state == Committed :: journal.items[i].state == Committed)
  }

  lemma JournalAtShape(p: Call, m: nat, c: nat)
    requires p.items != [] && c <= |p.items|
    ensures JournalShape(JournalAt(p, m, c))
  {
    var items := JournalAt(p, m, c).items;
    assert forall i | 0 <= i < |items| :: items[i].state == Committed <==> i < c;
    assert c < |p.items| ==> items[c].state != Committed;
    if c > 0 {
      assert items[0].state == Committed;
    } else {
      StagedItems(p, m);
    }
  }

  lemma StagedItems(p: Call, m: nat)
    ensures SomeItem(JournalAt(p, m, 0), Staged) <==> exists i: nat | i < m && i < |p.items| :: Missing(p, i)
    ensures !SomeItem(JournalAt(p, m, 0), Committed)
  {
    var items := JournalAt(p, m, 0).items;
    assert forall i: nat | i < |p.items| :: items[i].state == Staged <==> Missing(p, i) && i < m;
    assert forall i: nat | i < |p.items| :: items[i].state != Committed;
    if i: nat :| i < m && i < |p.items| && Missing(p, i) {
      assert items[i].state == Staged;
    }
  }

  /** The target of item `i` has the expected tree. */
  ghost predicate InPlace(p: Call, s: Durable, i: int)
    requires 0 <= i < |p.items|
  {
    p.items[i].clip in s.entries && Sha(s.entries[p.items[i].clip]) == Some(p.items[i].expected)
  }

  lemma PlacedIsInPlace(p: Call, s: Durable, n: nat, i: nat)
    requires Possible(p) && RequestError(p) == None && i < n <= |p.items| && TargetAt(p, s, i, n)
    ensures InPlace(p, s, i)
  {
    PlanFine(p.before.entries, p.run, p.items);
    assert PlannedFine(p.before.entries, p.run, p.items, i);
    assert p.items[i] in p.items;
    if Missing(p, i) { CompleteSha(p, i); }
  }

  /**
   The durable journal is never ahead of the file system: committed items have their tree in place and
   form a prefix of the plan, at most one clip is renamed but not yet journaled, and the overall state
   is "committed" exactly when every item is.
   */
  lemma JournalNeverAhead(p: Call, s: Durable)
    requires Possible(p) && RequestError(p) == None && Reached(p, s) && p.run in s.journals
    ensures |s.journals[p.run].items| == |p.items| && JournalShape(s.journals[p.run])
    ensures forall i | 0 <= i < |p.items| && s.journals[p.run].items[i].state == Committed :: InPlace(p, s, i)
    ensures forall i, j | 0 <= i < |p.items| && 0 <= j < |p.items|
                          && RenamedUnjournaled(p, s, i) && RenamedUnjournaled(p, s, j) :: i == j
  {
    var m: nat, n: nat, c: nat :| Phase(p, s, m, n, c);
    JournalAtShape(p, m, c);
    forall i | 0 <= i < |p.items|
      ensures s.journals[p.run].items[i].state == Committed ==> InPlace(p, s, i)
      ensures RenamedUnjournaled(p, s, i) ==> i == c
    {
      assert TargetAt(p, s, i, n);
      if i < c { PlacedIsInPlace(p, s, n, i); }
    }
  }

  /** Staged in full, but not yet marked so. */
  ghost predicate StagedUnmarked(p: Call, s: Durable, i: nat)
    requires i < |p.items| && p.run in s.journals && |s.journals[p.run].items| == |p.items|
  {
    Missing(p, i) && TempReady(p, s, i) && s.journals[p.run].items[i].state == Pending
  }

  /** What the mark of one item says about the directory. */
  ghost predicate MarkMeans(p: Call, s: Durable, i: nat, mark: JournalItem)
    requires i < |p.items|
  {
    var x := p.items[i];
    var placed := x.clip in s.entries && s.entries[x.clip] == Complete(p, i) && CandidateKept(p, i);
    mark.clip == x.clip && mark.sha256 == x.expected
    && (mark.state == Preexisting ==> x.clip in p.before.entries)
    && (x.clip in p.before.entries ==> mark.state == Preexisting || mark.state == Committed)
    && (mark.state == Staged ==> Missing(p, i) && (TempReady(p, s, i) || placed))
    && (mark.state == Committed ==> Missing(p, i) ==> placed && Temp(p, i) !in s.entries)
    && (Missing(p, i) && Temp(p, i) !in s.entries && x.clip !in s.entries ==> mark.state == Pending)
    && (mark.state == Pending ==> x.clip !in s.entries)
  }

  /**
   In every state a stop may leave, the journal names the call and its items, and each mark means what
   it says: in particular a clip is marked staged only when its staging directory is complete (or has
   already become the target), and at most one clip is staged in full and not yet marked.
   */
  lemma JournalMarksMean(p: Call, s: Durable)
    requires RequestError(p) == None && Reached(p, s) && p.run in s.journals
    ensures var journal := s.journals[p.run];
            journal.job == p.job && journal.run == p.run && journal.date == p.date && |journal.items| == |p.items|
    ensures forall i: nat | i < |p.items| :: MarkMeans(p, s, i, s.journals[p.run].items[i])
    ensures forall i: nat, j: nat | i < |p.items| && j < |p.items| && StagedUnmarked(p, s, i) && StagedUnmarked(p, s, j) :: i == j
  {
    var m: nat, n: nat, c: nat :| Phase(p, s, m, n, c);
    var journal := s.journals[p.run];
    forall i: nat | i < |p.items|
      ensures MarkMeans(p, s, i, journal.items[i])
      ensures StagedUnmarked(p, s, i) ==> i == m
    {
      assert journal.items[i] == JournalItem(p.items[i].clip, p.items[i].expected, ItemStateAt(p, i, m, c));
      assert TargetAt(p, s, i, n);
      if n <= i < m && Missing(p, i) { assert TempReady(p, s, i); }
    }
  }

  ghost predicate RenamedUnjournaled(p: Call, s: Durable, i: int)
    requires 0 <= i < |p.items| && p.run in s.journals && |s.journals[p.run].items| == |p.items|
  {
    Missing(p, i) && p.items[i].clip in s.entries && s.journals[p.run].items[i].state != Committed
  }

  // --------------------------------------------------------------- resuming

  /** The targets an undisturbed run leaves. */
  ghost predicate Finished(p: Call, s: Durable) {
    forall i: nat | i < |p.items| :: TargetAt(p, s, i, |p.items|)
  }

  /** The same candidates published again under another run reference. */
  function Again(p: Call, s: Durable, run: string): Call {
    p.(before := s, run := run)
  }

  /**
   After a stop at any point the same candidates are accepted again under a fresh run reference, and
   finishing that second run leaves every target as an uninterrupted first run would have.
   */
  lemma ResumeReachesSameTargets(p: Call, s: Durable, run: string, final: Durable)
    requires Possible(p) && RequestError(p) == None && Reached(p, s)
    requires IsOpaqueRef(run) && run != p.run && run !in p.before.journals
    requires forall i: nat | i < |p.items| && p.items[i].clip !in s.entries :: TempName(run, i) !in p.before.entries
    ensures RequestError(Again(p, s, run)) == None
    ensures Finished(Again(p, s, run), final) ==> Finished(p, final)
  {
    AcceptedIsDistinct(p);
    var q := Again(p, s, run);
    TargetsOldOrComplete(p, s);
    forall k: nat | k < |p.items| ensures PlannedFine(s.entries, run, p.items, k) {
      PlannedAgain(p, s, run, k);
    }
    PlanFine(s.entries, run, p.items);
    assert Agree(p.before.journals, s.journals, run);
    RootStaysUsable(p, s);
    if Finished(q, final) { ResumedTargets(p, s, q, final); }
  }

  lemma RootStaysUsable(p: Call, s: Durable)
    requires RequestError(p) == None && Reached(p, s)
    ensures s.root != RootUnsafe && s.root != RootUnavailable
  {
  }

  lemma PlannedBefore(p: Call, k: nat)
    requires RequestError(p) == None && k < |p.items|
    ensures PlannedFine(p.before.entries, p.run, p.items, k)
  {
    PlanFine(p.before.entries, p.run, p.items);
  }

  lemma PlannedAgain(p: Call, s: Durable, run: string, k: nat)
    requires Possible(p) && RequestError(p) == None && Distinct(p) && run != p.run && k < |p.items| && OldOrComplete(p, s, k)
    requires p.items[k].clip !in s.entries ==> TempName(run, k) !in p.before.entries
    requires forall name | !IsClip(p, name) && !IsTemp(p, name) :: Agree(p.before.entries, s.entries, name)
    ensures PlannedFine(s.entries, run, p.items, k)
  {
    PlannedBefore(p, k);
    FreshTemp(p, run, k);
    assert Agree(p.before.entries, s.entries, TempName(run, k));
  }

  lemma FreshTemp(p: Call, run: string, i: nat)
    requires Distinct(p) && run != p.run
    ensures !IsClip(p, TempName(run, i)) && !IsTemp(p, TempName(run, i))
  {
    forall j | 0 <= j < |p.items| ensures p.items[j].clip != TempName(run, i) {
      assert p.items[j] in p.items;
      TempNames(run, i, run, i, p.items[j].clip);
    }
    forall j: nat ensures Temp(p, j) != TempName(run, i) {
      TempNames(run, i, p.run, j, "a");
    }
  }

  lemma ResumedTargets(p: Call, s: Durable, q: Call, final: Durable)
    requires Distinct(p) && Reached(p, s) && q == Again(p, s, q.run) && Finished(q, final)
    ensures Finished(p, final)
  {
    forall i: nat | i < |p.items| ensures TargetAt(p, final, i, |p.items|) {
      assert TargetAt(q, final, i, |p.items|);
      if s != p.before {
        var m: nat, n: nat, c: nat :| Phase(p, s, m, n, c);
        assert TargetAt(p, s, i, n);
      }
    }
  }
}
