/**
 The store's replay layer: which events are applied to a run, and why replaying history is harmless.
 The layer is the same for any way of applying one event, so its laws are stated for all of them.
 */
module Replay {
  import opened Common
  import opened EventReducer

  /** The source joins these parts into one string. */
  datatype EventKey =
    | PersistedId(id: string)
    | PersistedSeq(sessionId: string, seq_: int)
    | LiveKeyed(typ: string, turnId: string, timestamp: string, payload: map<string, Json>)

  function PersistedKey(e: Event): Option<EventKey> {
    if e.id != "" then Some(PersistedId(e.id))
    else if e.sessionId != "" && e.seq_.Some? then Some(PersistedSeq(e.sessionId, e.seq_.value))
    else None
  }

  function LiveKey(e: Event): EventKey { LiveKeyed(e.typ, e.turnId, e.timestamp, e.payload) }

  /** A run: its content and the keys of the events applied to it. */
  datatype Run<B> = Run(body: B, applied: set<EventKey>)

  type Apply<!B> = (B, Event) -> B

  function ApplyAndMark<B>(apply: Apply<B>, run: Run<B>, e: Event, key: EventKey): Run<B> {
    Run(apply(run.body, e), run.applied + {key})
  }

  /** `applyEventIfNew`. */
  function ApplyIfNew<B>(apply: Apply<B>, run: Run<B>, e: Event): Run<B> {
    var persisted := PersistedKey(e);
    if persisted.Some? && persisted.value in run.applied then run
    else if LiveKey(e) in run.applied then
      if persisted.Some? then run.(applied := run.applied + {persisted.value}) else run
    else ApplyAndMark(apply, run, e, if persisted.Some? then persisted.value else LiveKey(e))
  }

  /** `applyLiveEvent`: events with neither id nor sequence number are applied unconditionally. */
  function ApplyLive<B>(apply: Apply<B>, run: Run<B>, e: Event): Run<B> {
    if e.id != "" || e.seq_.Some? then ApplyIfNew(apply, run, e) else ApplyAndMark(apply, run, e, LiveKey(e))
  }

  /** `mergeRunFromEvents`. */
  function Merge<B>(apply: Apply<B>, run: Run<B>, history: seq<Event>): Run<B>
    decreases |history|
  {
    if history == [] then run else Merge(apply, ApplyIfNew(apply, run, history[0]), history[1..])
  }

  function ApplyLiveAll<B>(apply: Apply<B>, run: Run<B>, events: seq<Event>): Run<B>
    decreases |events|
  {
    if events == [] then run else ApplyLiveAll(apply, ApplyLive(apply, run, events[0]), events[1..])
  }

  /** Plain application of events, with no regard to keys. */
  function ApplyAll<B>(apply: Apply<B>, body: B, events: seq<Event>): B
    decreases |events|
  {
    if events == [] then body else ApplyAll(apply, apply(body, events[0]), events[1..])
  }

  // -------------------------------------------------------------- what is applied

  /** The event's persisted or live key was applied before. */
  predicate Skipped(applied: set<EventKey>, e: Event) {
    LiveKey(e) in applied || (PersistedKey(e).Some? && PersistedKey(e).value in applied)
  }

  function Marked(applied: set<EventKey>, e: Event): set<EventKey> {
    if PersistedKey(e).Some? then applied + {PersistedKey(e).value} else applied + {LiveKey(e)}
  }

  /** The events of a history that are really applied to a run with these keys. */
  function Fresh(applied: set<EventKey>, history: seq<Event>): seq<Event>
    decreases |history|
  {
    if history == [] then []
    else
      var rest := Fresh(Marked(applied, history[0]), history[1..]);
      if Skipped(applied, history[0]) then rest else [history[0]] + rest
  }

  lemma ApplyIfNewIs<B>(apply: Apply<B>, run: Run<B>, e: Event)
    ensures ApplyIfNew(apply, run, e) ==
            Run(if Skipped(run.applied, e) then run.body else apply(run.body, e), Marked(run.applied, e))
  {
  }

  /** Into any run whatever, live or loaded, merging a history applies its fresh events and no others, in order. */
  lemma {:induction false} MergeAppliesFresh<B>(apply: Apply<B>, run: Run<B>, history: seq<Event>)
    ensures Merge(apply, run, history).body == ApplyAll(apply, run.body, Fresh(run.applied, history))
    decreases |history|
  {
    if history != [] {
      ApplyIfNewIs(apply, run, history[0]);
      var run1 := ApplyIfNew(apply, run, history[0]);
      MergeAppliesFresh(apply, run1, history[1..]);
      var rest := Fresh(run1.applied, history[1..]);
      assert ([history[0]] + rest)[1..] == rest;
    }
  }

  // ------------------------------------------------------------- first occurrences

  ghost predicate AllPersisted(events: seq<Event>) {
    forall i | 0 <= i < |events| :: PersistedKey(events[i]).Some?
  }

  function Without(events: seq<Event>, key: Option<EventKey>): (r: seq<Event>)
    ensures |r| <= |events|
  {
    if events == [] then []
    else if PersistedKey(events[0]) == key then Without(events[1..], key)
    else [events[0]] + Without(events[1..], key)
  }

  /** The history with every event dropped whose key occurred before. */
  function Firsts(events: seq<Event>): seq<Event>
    decreases |events|
  {
    if events == [] then [] else [events[0]] + Firsts(Without(events[1..], PersistedKey(events[0])))
  }

  lemma {:induction false} WithoutPersisted(events: seq<Event>, key: Option<EventKey>)
    requires AllPersisted(events)
    ensures AllPersisted(Without(events, key))
    ensures forall i | 0 <= i < |Without(events, key)| :: PersistedKey(Without(events, key)[i]) != key
  {
    if events != [] { WithoutPersisted(events[1..], key); }
  }

  /** Events whose key is already applied change nothing. */
  lemma {:induction false} MergeSkipsApplied<B>(apply: Apply<B>, run: Run<B>, history: seq<Event>, key: EventKey)
    requires key in run.applied
    ensures Merge(apply, run, history) == Merge(apply, run, Without(history, Some(key)))
    decreases |history|
  {
    if history != [] {
      MergeSkipsApplied(apply, ApplyIfNew(apply, run, history[0]), history[1..], key);
      if PersistedKey(history[0]) != Some(key) {
        var w := Without(history, Some(key));
        assert w[0] == history[0] && w[1..] == Without(history[1..], Some(key));
      }
    }
  }

  lemma ApplyIfNewMarks<B>(apply: Apply<B>, run: Run<B>, e: Event)
    ensures run.applied <= ApplyIfNew(apply, run, e).applied
    ensures PersistedKey(e).Some? ==> PersistedKey(e).value in ApplyIfNew(apply, run, e).applied
  {
  }

  /** Into any run at all, merging a history with repetitions is merging its first occurrences. */
  lemma {:induction false} MergeIgnoresRepetitions<B>(apply: Apply<B>, run: Run<B>, history: seq<Event>)
    requires AllPersisted(history)
    ensures Merge(apply, run, history) == Merge(apply, run, Firsts(history))
    decreases |history|
  {
    if history != [] {
      var key := PersistedKey(history[0]);
      var rest := Without(history[1..], key);
      var run1 := ApplyIfNew(apply, run, history[0]);
      ApplyIfNewMarks(apply, run, history[0]);
      MergeSkipsApplied(apply, run1, history[1..], key.value);
      assert AllPersisted(history[1..]);
      WithoutPersisted(history[1..], key);
      MergeIgnoresRepetitions(apply, run1, rest);
      assert Firsts(history)[0] == history[0] && Firsts(history)[1..] == Firsts(rest);
    }
  }

  ghost predicate NoLiveKeys(applied: set<EventKey>) { forall key | key in applied :: !key.LiveKeyed? }

  ghost predicate Unseen(events: seq<Event>, applied: set<EventKey>) {
    forall i | 0 <= i < |events| :: PersistedKey(events[i]).Some? && PersistedKey(events[i]).value !in applied
  }

  /** Distinct, unseen events are all applied, in order. */
  lemma {:induction false} FirstsAreApplied<B>(apply: Apply<B>, run: Run<B>, history: seq<Event>)
    requires NoLiveKeys(run.applied) && Unseen(history, run.applied)
    ensures Merge(apply, run, Firsts(history)).body == ApplyAll(apply, run.body, Firsts(history))
    decreases |history|
  {
    if history != [] {
      var key := PersistedKey(history[0]);
      var rest := Without(history[1..], key);
      var run1 := ApplyIfNew(apply, run, history[0]);
      assert AllPersisted(history[1..]);
      WithoutPersisted(history[1..], key);
      WithoutUnseen(history[1..], key, run.applied);
      FirstsAreApplied(apply, run1, rest);
      assert Firsts(history)[0] == history[0] && Firsts(history)[1..] == Firsts(rest);
    }
  }

  lemma {:induction false} WithoutUnseen(events: seq<Event>, key: Option<EventKey>, applied: set<EventKey>)
    requires Unseen(events, applied)
    ensures Unseen(Without(events, key), applied)
  {
    if events != [] { WithoutUnseen(events[1..], key, applied); }
  }

  // -------------------------------------------------------------------- theorems

  /**
   `runFromEvents`: whatever repetitions a persisted history contains, building a run from it applies
   each event exactly once, at its first occurrence.
   */
  lemma RunFromEventsAppliesFirsts<B>(apply: Apply<B>, empty: B, history: seq<Event>)
    requires AllPersisted(history)
    ensures Merge(apply, Run(empty, {}), history).body == ApplyAll(apply, empty, Firsts(history))
  {
    MergeIgnoresRepetitions(apply, Run(empty, {}), history);
    FirstsAreApplied(apply, Run(empty, {}), history);
  }

  lemma {:induction false} MergeMarks<B>(apply: Apply<B>, run: Run<B>, history: seq<Event>)
    requires AllPersisted(history)
    ensures run.applied <= Merge(apply, run, history).applied
    ensures forall i | 0 <= i < |history| :: PersistedKey(history[i]).value in Merge(apply, run, history).applied
    decreases |history|
  {
    if history != [] {
      ApplyIfNewMarks(apply, run, history[0]);
      assert AllPersisted(history[1..]);
      MergeMarks(apply, ApplyIfNew(apply, run, history[0]), history[1..]);
      assert forall i | 1 <= i < |history| :: history[i] == history[1..][i - 1];
    }
  }

  lemma {:induction false} MergeSeenIsNoop<B>(apply: Apply<B>, run: Run<B>, history: seq<Event>)
    requires forall i | 0 <= i < |history| :: PersistedKey(history[i]).Some? && PersistedKey(history[i]).value in run.applied
    ensures Merge(apply, run, history) == run
    decreases |history|
  {
    if history != [] { MergeSeenIsNoop(apply, run, history[1..]); }
  }

  /**
   Merging a persisted history into any run, and then merging again any events whose keys occur in it
   (the same history, a part of it, in any order), equals merging it once.
   */
  lemma MergeAgainIsNoop<B>(apply: Apply<B>, run: Run<B>, history: seq<Event>, again: seq<Event>)
    requires AllPersisted(history) && AllPersisted(again)
    requires forall j | 0 <= j < |again| :: exists i | 0 <= i < |history| :: PersistedKey(history[i]) == PersistedKey(again[j])
    ensures Merge(apply, Merge(apply, run, history), again) == Merge(apply, run, history)
  {
    MergeMarks(apply, run, history);
    MergeSeenIsNoop(apply, Merge(apply, run, history), again);
  }

  lemma {:induction false} MergeLiveSeen<B>(apply: Apply<B>, run: Run<B>, history: seq<Event>)
    requires forall i | 0 <= i < |history| :: LiveKey(history[i]) in run.applied
    ensures Merge(apply, run, history).body == run.body
    decreases |history|
  {
    if history != [] {
      ApplyIfNewMarks(apply, run, history[0]);
      MergeLiveSeen(apply, ApplyIfNew(apply, run, history[0]), history[1..]);
    }
  }

  lemma {:induction false} LiveMarks<B>(apply: Apply<B>, run: Run<B>, events: seq<Event>)
    requires forall i | 0 <= i < |events| :: events[i].id == "" && events[i].seq_ == None
    ensures run.applied <= ApplyLiveAll(apply, run, events).applied
    ensures forall i | 0 <= i < |events| :: LiveKey(events[i]) in ApplyLiveAll(apply, run, events).applied
    decreases |events|
  {
    if events != [] {
      LiveMarks(apply, ApplyLive(apply, run, events[0]), events[1..]);
      assert forall i | 1 <= i < |events| :: events[i] == events[1..][i - 1];
    }
  }

  /** Events seen live are not applied a second time when the history brings their persisted copies. */
  lemma LiveThenHistory<B>(apply: Apply<B>, run: Run<B>, live: seq<Event>, history: seq<Event>)
    requires forall i | 0 <= i < |live| :: live[i].id == "" && live[i].seq_ == None
    requires forall j | 0 <= j < |history| :: exists i | 0 <= i < |live| :: LiveKey(live[i]) == LiveKey(history[j])
    ensures Merge(apply, ApplyLiveAll(apply, run, live), history).body == ApplyLiveAll(apply, run, live).body
  {
    LiveMarks(apply, run, live);
    MergeLiveSeen(apply, ApplyLiveAll(apply, run, live), history);
  }

  // --------------------------------------------------------- which events repeat

  predicate HasId(e: Event) { e.id != "" || (e.sessionId != "" && e.seq_.Some?) }

  /** The event is the other one again: by id, by session and sequence number, or in all that a live event shows. */
  predicate Repeats(e: Event, f: Event) {
    (e.id != "" && f.id == e.id)
    || (e.id == "" && f.id == "" && HasId(e) && f.sessionId == e.sessionId && f.seq_ == e.seq_)
    || (!HasId(e) && f.typ == e.typ && f.turnId == e.turnId && f.timestamp == e.timestamp && f.payload == e.payload)
  }

  /** Of two events merged one after the other the second is left out exactly if it repeats the first. */
  lemma SecondAppliedUnlessRepeated<B>(apply: Apply<B>, body: B, e: Event, f: Event)
    ensures Merge(apply, Run(body, {}), [e, f]).body == if Repeats(e, f) then apply(body, e) else apply(apply(body, e), f)
  {
    var run := Run(body, {});
    assert [e, f][1..] == [f] && [f][1..] == [];
    var run1 := ApplyIfNew(apply, run, e);
    ApplyIfNewIs(apply, run, e);
    ApplyIfNewIs(apply, run1, f);
    assert Skipped(run1.applied, f) <==> Repeats(e, f);
    assert Merge(apply, run, [e, f]) == Merge(apply, run1, [f]) == ApplyIfNew(apply, run1, f);
  }

  /** A live event without id and number is always applied, even if it was before; any other is applied if it is new. */
  lemma LiveIsApplied<B>(apply: Apply<B>, run: Run<B>, e: Event)
    ensures ApplyLive(apply, run, e).body ==
            if (e.id == "" && e.seq_ == None) || !Skipped(run.applied, e) then apply(run.body, e) else run.body
    ensures e.id == "" && e.seq_ == None ==> LiveKey(e) in ApplyLive(apply, run, e).applied
  {
    ApplyIfNewIs(apply, run, e);
  }
}
