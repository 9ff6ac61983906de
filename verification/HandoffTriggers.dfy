/**
 The SQLite trigger set that pins workflow handoffs to the processing authority: plain INSERT, UPDATE
 and DELETE statements against four tables, each accepted or aborted as a whole.
 */
module HandoffTriggers {
  import opened Common

  type Id = nat

  datatype Kind =
    | InitialAnnotationReady | InitialAnnotationSubmitted | TrackingCompleted | PostprocessingCompleted
    | PostprocessingFailed | FixReady | FixRevisionSubmitted | ReviewReturned | ReviewCompleted

  predicate IsProcessing(kind: Kind) {
    kind in {InitialAnnotationSubmitted, TrackingCompleted, PostprocessingCompleted, PostprocessingFailed}
  }

  datatype Link = Link(job: Id, processing: bool)

  datatype Authority = Authority(link: Id, revision: int)

  datatype Handoff = Handoff(job: Id, kind: Kind)

  /** Task links, processing authorities by job, handoffs, and handoff pins by handoff. */
  datatype Tables = Tables(
    links: map<Id, Link>, authorities: map<Id, Authority>, handoffs: map<Id, Handoff>, pins: map<Id, Id>)

  datatype Statement =
    | InsertLink(id: Id, link: Link) | UpdateLink(id: Id) | DeleteLink(id: Id)
    | InsertAuthority(job: Id, authority: Authority)
    | UpdateAuthority(job: Id, newJob: Id, authority: Authority)
    | DeleteAuthority(job: Id)
    | InsertHandoff(id: Id, handoff: Handoff) | UpdateHandoff(id: Id) | DeleteHandoff(id: Id)
    | InsertPin(handoffId: Id, linkId: Id) | UpdatePin(handoffId: Id) | DeletePin(handoffId: Id)

  predicate ProcessingLinkOf(t: Tables, link: Id, job: Id) {
    link in t.links && t.links[link] == Link(job, true)
  }

  /** `annotation_processing_authorities.link_id` is unique. */
  predicate LinkTaken(t: Tables, link: Id, exceptJob: Id) {
    exists job | job in t.authorities :: job != exceptJob && t.authorities[job].link == link
  }

  /** The guard on, and effect of, inserting a pin. */
  function PinHandoff(t: Tables, handoffId: Id, link: Id): Option<Tables> {
    if handoffId in t.pins || handoffId !in t.handoffs || !IsProcessing(t.handoffs[handoffId].kind)
       || !ProcessingLinkOf(t, link, t.handoffs[handoffId].job)
    then None
    else Some(t.(pins := t.pins[handoffId := link]))
  }

  /** Statements that an immutability trigger aborts as soon as they reach a row. */
  function Immutable(t: Tables, rowExists: bool): Option<Tables> { if rowExists then None else Some(t) }

  /** A statement's effect, or `None` when a constraint or trigger aborts it. */
  function Execute(t: Tables, s: Statement): Option<Tables> {
    match s
    case InsertLink(id, link) => if id in t.links then None else Some(t.(links := t.links[id := link]))
    case UpdateLink(id) => Immutable(t, id in t.links)
    case DeleteLink(id) => Immutable(t, id in t.links)
    case InsertAuthority(job, a) =>
      if job in t.authorities || a.revision < 0 || LinkTaken(t, a.link, job) || !ProcessingLinkOf(t, a.link, job) then None
      else Some(t.(authorities := t.authorities[job := a]))
    case UpdateAuthority(job, newJob, a) =>
      if job !in t.authorities then Some(t)
      else
        var before := t.authorities[job];
        if newJob != job || a.link == before.link || a.revision != before.revision + 1
           || !ProcessingLinkOf(t, a.link, job) || LinkTaken(t, a.link, job)
        then None
        else Some(t.(authorities := t.authorities[job := a]))
    case DeleteAuthority(job) => Immutable(t, job in t.authorities)
    case InsertHandoff(id, handoff) =>
      if id in t.handoffs then None
      else
        var t1 := t.(handoffs := t.handoffs[id := handoff]);
        if IsProcessing(handoff.kind) && handoff.job in t.authorities
        then PinHandoff(t1, id, t.authorities[handoff.job].link)
        else Some(t1)
    case UpdateHandoff(id) => Immutable(t, id in t.handoffs)
    case DeleteHandoff(id) => Immutable(t, id in t.handoffs)
    case InsertPin(handoffId, linkId) => PinHandoff(t, handoffId, linkId)
    case UpdatePin(handoffId) => Immutable(t, handoffId in t.pins)
    case DeletePin(handoffId) => Immutable(t, handoffId in t.pins)
  }

  /** The database: an aborted statement leaves it as it was. */
  class Database {
    var links: map<Id, Link>
    var authorities: map<Id, Authority>
    var handoffs: map<Id, Handoff>
    var pins: map<Id, Id>

    function View(): Tables
      reads this
    {
      Tables(links, authorities, handoffs, pins)
    }

    constructor ()
      ensures View() == Tables(map[], map[], map[], map[])
    {
      links, authorities, handoffs, pins := map[], map[], map[], map[];
    }

    /** Inserts a pin under its guard; `ok` is false when the guard aborts. */
    method AddPin(handoffId: Id, link: Id) returns (ok: bool)
      modifies this`pins
      ensures ok == PinHandoff(old(View()), handoffId, link).Some?
      ensures View() == if ok then PinHandoff(old(View()), handoffId, link).value else old(View())
    {
      ok := handoffId !in pins && handoffId in handoffs && IsProcessing(handoffs[handoffId].kind)
            && link in links && links[link] == Link(handoffs[handoffId].job, true);
      if ok {
        pins := pins[handoffId := link];
      }
    }

    /** Inserting a handoff runs the pinning trigger; if that aborts, the handoff is rolled back. */
    method AddHandoff(id: Id, handoff: Handoff) returns (ok: bool)
      modifies this
      ensures ok == Execute(old(View()), InsertHandoff(id, handoff)).Some?
      ensures View() == if ok then Execute(old(View()), InsertHandoff(id, handoff)).value else old(View())
    {
      if id in handoffs {
        return false;
      }
      var saved := handoffs;
      handoffs := handoffs[id := handoff];
      ok := true;
      if IsProcessing(handoff.kind) && handoff.job in authorities {
        ok := AddPin(id, authorities[handoff.job].link);
        if !ok {
          handoffs := saved;
        }
      }
    }

    /** Moves a job's authority to another processing link of the job. */
    method MoveAuthority(job: Id, newJob: Id, a: Authority) returns (ok: bool)
      modifies this`authorities
      ensures ok == Execute(old(View()), UpdateAuthority(job, newJob, a)).Some?
      ensures View() == if ok then Execute(old(View()), UpdateAuthority(job, newJob, a)).value else old(View())
    {
      if job !in authorities {
        return true;
      }
      var before := authorities[job];
      if newJob != job || a.link == before.link || a.revision != before.revision + 1
         || !ProcessingLinkOf(View(), a.link, job) || LinkTaken(View(), a.link, job)
      {
        return false;
      }
      authorities := authorities[job := a];
      return true;
    }
  }

  // ------------------------------------------------------------------ invariant

  ghost predicate Inv(t: Tables) {
    (forall job | job in t.authorities :: ProcessingLinkOf(t, t.authorities[job].link, job))
    && (forall job | job in t.authorities :: !LinkTaken(t, t.authorities[job].link, job))
    && (forall id | id in t.pins ::
          id in t.handoffs && IsProcessing(t.handoffs[id].kind) && ProcessingLinkOf(t, t.pins[id], t.handoffs[id].job))
  }

  /** A run of statements; aborted ones change nothing. */
  ghost predicate IsRun(states: seq<Tables>, statements: seq<Statement>) {
    |states| == |statements| + 1 && Inv(states[0])
    && forall i: nat | i < |statements| :: Follows(states, statements, i)
  }

  ghost predicate Follows(states: seq<Tables>, statements: seq<Statement>, i: nat)
    requires i < |statements| < |states|
  {
    states[i + 1] == After(states[i], statements[i])
  }

  function After(t: Tables, s: Statement): Tables {
    var r := Execute(t, s);
    if r.Some? then r.value else t
  }

  lemma AuthorityMoveKeepsInv(t: Tables, job: Id, a: Authority)
    requires Inv(t) && ProcessingLinkOf(t, a.link, job) && !LinkTaken(t, a.link, job)
    ensures Inv(t.(authorities := t.authorities[job := a]))
  {
    var t' := t.(authorities := t.authorities[job := a]);
    forall j, k | j in t'.authorities && k in t'.authorities && j != k
      ensures t'.authorities[j].link != t'.authorities[k].link
    {
      if j != job && k != job { assert !LinkTaken(t, t.authorities[j].link, j); }
    }
  }

  lemma StatementKeepsInv(t: Tables, s: Statement)
    requires Inv(t)
    ensures Inv(After(t, s))
  {
    match s
    case InsertAuthority(job, a) => if Execute(t, s).Some? { AuthorityMoveKeepsInv(t, job, a); }
    case UpdateAuthority(job, newJob, a) => if Execute(t, s).Some? && job in t.authorities { AuthorityMoveKeepsInv(t, job, a); }
    case InsertLink(id, link) =>
      var t' := After(t, s);
      forall job | job in t'.authorities ensures !LinkTaken(t', t'.authorities[job].link, job) {
        assert !LinkTaken(t, t.authorities[job].link, job);
      }
    case _ =>
      var t' := After(t, s);
      forall job | job in t'.authorities ensures !LinkTaken(t', t'.authorities[job].link, job) {
        assert !LinkTaken(t, t.authorities[job].link, job);
      }
  }

  // ------------------------------------------------------------------- theorems

  /** Every authority always names a processing link of its own job, and no two share a link. */
  lemma {:induction false} AuthoritiesStayValid(states: seq<Tables>, statements: seq<Statement>, k: nat)
    requires IsRun(states, statements) && k < |states|
    ensures Inv(states[k])
  {
    if k > 0 {
      AuthoritiesStayValid(states, statements, k - 1);
      assert Follows(states, statements, k - 1);
      StatementKeepsInv(states[k - 1], statements[k - 1]);
    }
  }

  /** The pinning trigger never aborts: a handoff is refused only for its own id. */
  lemma HandoffInsertAlwaysPins(t: Tables, id: Id, handoff: Handoff)
    requires Inv(t)
    ensures Execute(t, InsertHandoff(id, handoff)).Some? <==> id !in t.handoffs
    ensures id !in t.handoffs && IsProcessing(handoff.kind) && handoff.job in t.authorities ==>
              var t' := After(t, InsertHandoff(id, handoff)); id in t'.pins && t'.pins[id] == t.authorities[handoff.job].link
  {
    assert id !in t.handoffs ==> id !in t.pins;
  }

  /** No authority of another job holds the link. */
  ghost predicate LinkFree(t: Tables, link: Id, job: Id) {
    forall j | j in t.authorities && t.authorities[j].link == link :: j == job
  }

  /** When an authority is accepted: the first of its job, or the next revision of it on another link. */
  lemma AuthorityAcceptedExactly(t: Tables, job: Id, newJob: Id, a: Authority)
    ensures Execute(t, InsertAuthority(job, a)).Some? <==>
            job !in t.authorities && a.revision >= 0 && a.link in t.links
            && t.links[a.link].job == job && t.links[a.link].processing && LinkFree(t, a.link, job)
    ensures job in t.authorities ==>
              (Execute(t, UpdateAuthority(job, newJob, a)).Some? <==>
               newJob == job && a.link != t.authorities[job].link && a.revision == t.authorities[job].revision + 1
               && a.link in t.links && t.links[a.link].job == job && t.links[a.link].processing && LinkFree(t, a.link, job))
    ensures Execute(t, InsertAuthority(job, a)).Some? ==>
              After(t, InsertAuthority(job, a)) == t.(authorities := t.authorities[job := a])
    ensures job in t.authorities && Execute(t, UpdateAuthority(job, newJob, a)).Some? ==>
              After(t, UpdateAuthority(job, newJob, a)) == t.(authorities := t.authorities[job := a])
  {
    assert ProcessingLinkOf(t, a.link, job) <==>
           a.link in t.links && t.links[a.link].job == job && t.links[a.link].processing;
    assert LinkTaken(t, a.link, job) <==> !LinkFree(t, a.link, job);
  }

  /** No accepted statement changes or removes a link, a handoff or an authority's row. */
  ghost predicate RowsKept(t: Tables, t': Tables) {
    (forall id | id in t.links :: id in t'.links && t'.links[id] == t.links[id])
    && (forall id | id in t.handoffs :: id in t'.handoffs && t'.handoffs[id] == t.handoffs[id])
    && t.authorities.Keys <= t'.authorities.Keys
  }

  lemma StatementKeepsRows(t: Tables, s: Statement)
    ensures RowsKept(t, After(t, s))
  {
  }

  lemma {:induction false} RowsNeverLost(states: seq<Tables>, statements: seq<Statement>, i: nat, k: nat)
    requires IsRun(states, statements) && i <= k < |states|
    ensures RowsKept(states[i], states[k])
    decreases k
  {
    if i < k {
      RowsNeverLost(states, statements, i, k - 1);
      assert Follows(states, statements, k - 1);
      StatementKeepsRows(states[k - 1], statements[k - 1]);
    }
  }

  lemma PinSurvives(t: Tables, s: Statement, id: Id)
    requires id in t.pins
    ensures id in After(t, s).pins && After(t, s).pins[id] == t.pins[id]
  {
  }

  lemma {:induction false} PinnedForever(states: seq<Tables>, statements: seq<Statement>, i: nat, k: nat, id: Id)
    requires IsRun(states, statements) && i <= k < |states| && id in states[i].pins
    ensures id in states[k].pins && states[k].pins[id] == states[i].pins[id]
    decreases k
  {
    if i < k {
      PinnedForever(states, statements, i, k - 1, id);
      assert Follows(states, statements, k - 1);
      PinSurvives(states[k - 1], statements[k - 1], id);
    }
  }

  /**
   A processing handoff inserted while its job has an authority stays pinned forever to the link that
   held the authority at insertion, however often the authority moves later.
   */
  lemma HandoffStaysWithItsAuthority(states: seq<Tables>, statements: seq<Statement>, i: nat, k: nat, id: Id, handoff: Handoff)
    requires IsRun(states, statements) && i < |statements| && i < k < |states|
    requires statements[i] == InsertHandoff(id, handoff) && id !in states[i].handoffs
    requires IsProcessing(handoff.kind) && handoff.job in states[i].authorities
    ensures id in states[k].pins && states[k].pins[id] == states[i].authorities[handoff.job].link
  {
    AuthoritiesStayValid(states, statements, i);
    HandoffInsertAlwaysPins(states[i], id, handoff);
    assert Follows(states, statements, i);
    PinnedForever(states, statements, i + 1, k, id);
  }

  /** How often the link of the job's authority changed between two states of a run. */
  ghost function Moves(states: seq<Tables>, job: Id, i: nat, k: nat): nat
    requires i <= k < |states|
  {
    if i == k then 0
    else
      Moves(states, job, i, k - 1)
      + if job in states[k - 1].authorities && job in states[k].authorities
           && states[k - 1].authorities[job].link != states[k].authorities[job].link then 1 else 0
  }

  lemma AuthorityStep(t: Tables, s: Statement, job: Id)
    requires job in t.authorities
    ensures job in After(t, s).authorities
    ensures var (a, b) := (t.authorities[job], After(t, s).authorities[job]);
            b.revision == a.revision + if a.link != b.link then 1 else 0
  {
  }

  /** An authority is never lost, and its revision grows by exactly one per change of link. */
  lemma {:induction false} RevisionCountsMoves(states: seq<Tables>, statements: seq<Statement>, i: nat, k: nat, job: Id)
    requires IsRun(states, statements) && i <= k < |states| && job in states[i].authorities
    ensures job in states[k].authorities
    ensures states[k].authorities[job].revision == states[i].authorities[job].revision + Moves(states, job, i, k)
    decreases k
  {
    if i < k {
      RevisionCountsMoves(states, statements, i, k - 1, job);
      assert Follows(states, statements, k - 1);
      AuthorityStep(states[k - 1], statements[k - 1], job);
    }
  }
}
