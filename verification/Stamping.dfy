/**
 The store applies an event by reducing it and then stamping the new items. Stamps decide nothing, so
 the laws of the reducer hold of every run of the store.
 */
module Stamping {
  import opened Common
  import opened EventReducer
  import opened Replay
  import opened ReplyRefinement
  import ProgressItems
  import opened ProgressText
  import opened ItemIdentity

  /** A run's reducer state together with the module-level sequence counter. */
  datatype Body = Body(state: RunState, counter: int)

  function Serials(items: seq<Item>): set<nat> { set x | x in items :: x.serial }

  function StampOf(e: Event, counter: int): Stamp {
    Stamp(Either(Either(e.timestamp, e.createdAt), e.arrival), if e.seq_.Some? then e.seq_.value else counter)
  }

  function StampNew(items: seq<Item>, existing: set<nat>, stamp: Stamp): seq<Item> {
    MapItems(items, (x: Item) => if x.serial in existing then x else x.(stamp := Some(stamp)))
  }

  function CountNew(items: seq<Item>, existing: set<nat>): nat {
    if items == [] then 0
    else CountNew(items[..|items| - 1], existing) + if items[|items| - 1].serial in existing then 0 else 1
  }

  /** What stamping makes of the reduced state `s` when the event was applied to `b`. */
  function Stamped(b: Body, s: RunState, e: Event): Body {
    var existing := Serials(b.state.timeline);
    Body(s.(timeline := StampNew(s.timeline, existing, StampOf(e, b.counter))),
         if e.seq_.Some? then b.counter else b.counter + CountNew(s.timeline, existing))
  }

  /** `applyAgentEvent` followed by `stampNewTimelineItems`. */
  function ApplyStamped(b: Body, e: Event): Body { Stamped(b, Reduce(b.state, e), e) }

  // ---------------------------------------------------------- stamps do not matter

  /** The same items up to their stamps. */
  ghost predicate SameButStamps(a: seq<Item>, b: seq<Item>) {
    |a| == |b| && forall i | 0 <= i < |a| :: b[i] == a[i].(stamp := b[i].stamp)
  }

  lemma StampingOnlyStamps(b: Body, s: RunState, e: Event)
    ensures var s' := Stamped(b, s, e).state; SameButStamps(s.timeline, s'.timeline) && s'.terminal == s.terminal
  {
  }

  /** The predicate does not look at stamps. */
  ghost predicate StampBlind(p: Item -> bool) { forall x: Item, st: Option<Stamp> :: p(x.(stamp := st)) == p(x) }

  lemma {:induction false} FilterSameButStamps(a: seq<Item>, b: seq<Item>, p: Item -> bool)
    requires SameButStamps(a, b) && StampBlind(p)
    ensures SameButStamps(Filter(a, p), Filter(b, p))
  {
    if a != [] {
      var n := |a| - 1;
      FilterSameButStamps(a[..n], b[..n], p);
      assert b[n] == a[n].(stamp := b[n].stamp);
      assert p(b[n]) == p(a[n]);
    }
  }

  lemma StampsKeepReplies(s: RunState, s': RunState, key: ReplyKey, r: Reply)
    requires ShowsOk(s, key, r) && SameButStamps(s.timeline, s'.timeline)
    ensures ShowsOk(s', key, r)
  {
    FilterSameButStamps(s.timeline, s'.timeline, HasKey(key));
    forall i | 0 <= i < |s'.timeline| ensures ItemOk(s'.timeline[i]) {
      assert ItemOk(s.timeline[i]);
    }
  }

  lemma StampsKeepText(s: RunState, s': RunState, key: ProgressKey, text: string, streams: bool)
    requires ShowsText(s, key, text, streams) && SameButStamps(s.timeline, s'.timeline) && s'.terminal == s.terminal
    ensures ShowsText(s', key, text, streams)
  {
    FilterSameButStamps(s.timeline, s'.timeline, Has(key));
  }

  lemma StampsKeepInv(s: RunState, s': RunState)
    requires ProgressItems.Inv(s) && SameButStamps(s.timeline, s'.timeline) && s'.terminal == s.terminal
    ensures ProgressItems.Inv(s')
  {
    forall i, j | 0 <= i < j < |s'.timeline| ensures ProgressItems.Distinct(s'.timeline[i], s'.timeline[j]) {
      assert ProgressItems.Distinct(s.timeline[i], s.timeline[j]);
    }
    forall i | 0 <= i < |s'.timeline| ensures ProgressItems.Settled(s'.timeline[i], s'.terminal) {
      assert ProgressItems.Settled(s.timeline[i], s.terminal);
    }
  }

  // ------------------------------------------------------------------ stamped runs

  function MapEvents<T>(events: seq<Event>, f: Event -> T): seq<T> {
    seq(|events|, i requires 0 <= i < |events| => f(events[i]))
  }

  /** The events as the reducer reads them. */
  function Inputs(events: seq<Event>): seq<Input> { MapEvents(events, Parse) }

  lemma MapEventsCons<T>(events: seq<Event>, f: Event -> T)
    requires events != []
    ensures MapEvents(events, f)[0] == f(events[0]) && MapEvents(events, f)[1..] == MapEvents(events[1..], f)
  {
  }

  ghost predicate NoneAnonymous(inputs: seq<Input>, turn: string) {
    forall i | 0 <= i < |inputs| :: !Anonymous(inputs[i], turn)
  }

  lemma StampedStepRefines(b: Body, e: Event, n: Input, key: ReplyKey, r: Reply)
    requires n == Parse(e) && ShowsOk(b.state, key, r) && key.1 != "" && !Anonymous(n, key.0)
    ensures ShowsOk(ApplyStamped(b, e).state, key, Machine(r, n, key))
  {
    StepRefines(b.state, n, key, r);
    StampingOnlyStamps(b, Step(b.state, n), e);
    StampsKeepReplies(Step(b.state, n), ApplyStamped(b, e).state, key, Machine(r, n, key));
  }

  /** Each application of one event moves the reply as its machine does. */
  ghost predicate StepsRefine(apply: Apply<Body>, parse: Event -> Input, key: ReplyKey) {
    forall b: Body, e: Event, r: Reply | ShowsOk(b.state, key, r) && !Anonymous(parse(e), key.0) ::
      ShowsOk(apply(b, e).state, key, Machine(r, parse(e), key))
  }

  lemma {:induction false} RunRefines(
    apply: Apply<Body>, parse: Event -> Input, b: Body, events: seq<Event>, key: ReplyKey, r: Reply)
    requires StepsRefine(apply, parse, key) && ShowsOk(b.state, key, r) && NoneAnonymous(MapEvents(events, parse), key.0)
    ensures ShowsOk(ApplyAll(apply, b, events).state, key, MachineFrom(r, MapEvents(events, parse), key))
    decreases |events|
  {
    if events != [] {
      var n := parse(events[0]);
      MapEventsCons(events, parse);
      assert !Anonymous(MapEvents(events, parse)[0], key.0);
      assert ShowsOk(apply(b, events[0]).state, key, Machine(r, n, key));
      assert forall i | 0 <= i < |events| - 1 :: MapEvents(events[1..], parse)[i] == MapEvents(events, parse)[i + 1];
      RunRefines(apply, parse, apply(b, events[0]), events[1..], key, Machine(r, n, key));
    }
  }

  /** The stamped fold moves a reply as its machine does, from whatever it shows at the beginning. */
  lemma StampedRunRefines(b: Body, events: seq<Event>, key: ReplyKey, r: Reply)
    requires ShowsOk(b.state, key, r) && key.1 != "" && NoneAnonymous(Inputs(events), key.0)
    ensures ShowsOk(ApplyAll(ApplyStamped, b, events).state, key, MachineFrom(r, Inputs(events), key))
  {
    forall b: Body, e: Event, r: Reply | ShowsOk(b.state, key, r) && !Anonymous(Parse(e), key.0)
      ensures ShowsOk(ApplyStamped(b, e).state, key, Machine(r, Parse(e), key))
    {
      StampedStepRefines(b, e, Parse(e), key, r);
    }
    RunRefines(ApplyStamped, Parse, b, events, key, r);
  }

  lemma StampedStepKeeps(b: Body, e: Event, n: Input)
    requires n == Parse(e) && ProgressItems.Inv(b.state)
    ensures ProgressItems.Inv(ApplyStamped(b, e).state) && b.state.terminal <= ApplyStamped(b, e).state.terminal
    ensures Ends(n) ==> ById(n.turn, n.progressId) in ApplyStamped(b, e).state.terminal
  {
    ProgressItems.StepKeeps(b.state, n);
    StampingOnlyStamps(b, Step(b.state, n), e);
    StampsKeepInv(Step(b.state, n), ApplyStamped(b, e).state);
    if Ends(n) { EndIsTerminal(b.state, n); }
  }

  predicate Ends(n: Input) { n.typ == ProgressEnd && n.progressId != "" }

  lemma EndIsTerminal(s: RunState, n: Input)
    requires Ends(n)
    ensures ById(n.turn, n.progressId) in Step(s, n).terminal
  {
  }

  /** Some of the events ends this progress. */
  ghost predicate Ended(inputs: seq<Input>, key: TerminalKey) {
    exists k | 0 <= k < |inputs| :: Ends(inputs[k]) && key == ById(inputs[k].turn, inputs[k].progressId)
  }

  ghost predicate StepKept(b: Body, n: Input, b': Body) {
    ProgressItems.Inv(b'.state) && b.state.terminal <= b'.state.terminal
    && (Ends(n) ==> ById(n.turn, n.progressId) in b'.state.terminal)
  }

  ghost predicate StepsKeep(apply: Apply<Body>, parse: Event -> Input) {
    forall b: Body, e: Event | ProgressItems.Inv(b.state) :: StepKept(b, parse(e), apply(b, e))
  }

  ghost predicate AllTerminal(inputs: seq<Input>, s: RunState) { forall key | Ended(inputs, key) :: key in s.terminal }

  lemma {:induction false} RunKeeps(apply: Apply<Body>, parse: Event -> Input, b: Body, events: seq<Event>)
    requires StepsKeep(apply, parse) && ProgressItems.Inv(b.state)
    ensures var s := ApplyAll(apply, b, events).state; ProgressItems.Inv(s) && b.state.terminal <= s.terminal
    ensures AllTerminal(MapEvents(events, parse), ApplyAll(apply, b, events).state)
    decreases |events|
  {
    if events != [] {
      var b1, inputs, rest := apply(b, events[0]), MapEvents(events, parse), MapEvents(events[1..], parse);
      MapEventsCons(events, parse);
      assert StepKept(b, parse(events[0]), b1);
      RunKeeps(apply, parse, b1, events[1..]);
      forall key | Ended(inputs, key) ensures key in b1.state.terminal || Ended(rest, key) {
        var k :| 0 <= k < |inputs| && Ends(inputs[k]) && key == ById(inputs[k].turn, inputs[k].progressId);
        if k > 0 { assert rest[k - 1] == inputs[k]; }
      }
    }
  }

  lemma StampedRunKeeps(b: Body, events: seq<Event>)
    requires ProgressItems.Inv(b.state)
    ensures ProgressItems.Inv(ApplyAll(ApplyStamped, b, events).state)
    ensures AllTerminal(Inputs(events), ApplyAll(ApplyStamped, b, events).state)
  {
    forall b: Body, e: Event | ProgressItems.Inv(b.state) ensures StepKept(b, Parse(e), ApplyStamped(b, e)) {
      StampedStepKeeps(b, e, Parse(e));
    }
    RunKeeps(ApplyStamped, Parse, b, events);
  }

  /** Each application of one event extends what the progress shows by what is its own. */
  ghost predicate StepsShowText(apply: Apply<Body>, parse: Event -> Input, key: ProgressKey) {
    forall b: Body, e: Event, text: string, streams: bool | ShowsText(b.state, key, text, streams) ::
      ShowsText(apply(b, e).state, key, Grown(text, parse(e), key), streams && !MayEnd(parse(e), key))
  }

  lemma {:induction false} RunShowsText(
    apply: Apply<Body>, parse: Event -> Input, b: Body, events: seq<Event>, key: ProgressKey, text: string, streams: bool)
    requires StepsShowText(apply, parse, key) && ShowsText(b.state, key, text, streams)
    ensures var inputs := MapEvents(events, parse);
            ShowsText(ApplyAll(apply, b, events).state, key, text + Deltas(inputs, key), streams && NoEnd(inputs, key))
    decreases |events|
  {
    var inputs := MapEvents(events, parse);
    if events == [] {
      assert text + Deltas(inputs, key) == text;
    } else {
      var n := parse(events[0]);
      MapEventsCons(events, parse);
      DeltasCons(text, inputs, key);
      NoEndCons(inputs, key);
      assert ShowsText(apply(b, events[0]).state, key, Grown(text, n, key), streams && !MayEnd(n, key));
      RunShowsText(apply, parse, apply(b, events[0]), events[1..], key, Grown(text, n, key), streams && !MayEnd(n, key));
    }
  }

  lemma DeltasCons(text: string, inputs: seq<Input>, key: ProgressKey)
    requires inputs != []
    ensures Grown(text, inputs[0], key) + Deltas(inputs[1..], key) == text + Deltas(inputs, key)
  {
  }

  lemma NoEndCons(inputs: seq<Input>, key: ProgressKey)
    requires inputs != []
    ensures NoEnd(inputs, key) <==> !MayEnd(inputs[0], key) && NoEnd(inputs[1..], key)
  {
    assert forall i | 1 <= i < |inputs| :: inputs[i] == inputs[1..][i - 1];
  }

  lemma StampedStepShowsText(b: Body, e: Event, n: Input, key: ProgressKey, text: string, streams: bool)
    requires n == Parse(e) && ShowsText(b.state, key, text, streams) && key.1 != ""
    ensures ShowsText(ApplyStamped(b, e).state, key, Grown(text, n, key), streams && !MayEnd(n, key))
  {
    StepShowsText(b.state, n, key, text, streams);
    StampingOnlyStamps(b, Step(b.state, n), e);
    StampsKeepText(Step(b.state, n), ApplyStamped(b, e).state, key, Grown(text, n, key), streams && !MayEnd(n, key));
  }

  /** The stamped fold extends what a progress shows by its own deltas, from whatever it shows at the beginning. */
  lemma StampedRunShowsText(b: Body, events: seq<Event>, key: ProgressKey, text: string, streams: bool)
    requires ShowsText(b.state, key, text, streams) && key.1 != ""
    ensures ShowsText(ApplyAll(ApplyStamped, b, events).state, key,
                      text + Deltas(Inputs(events), key), streams && NoEnd(Inputs(events), key))
  {
    forall b: Body, e: Event, text: string, streams: bool | ShowsText(b.state, key, text, streams)
      ensures ShowsText(ApplyStamped(b, e).state, key, Grown(text, Parse(e), key), streams && !MayEnd(Parse(e), key))
    {
      StampedStepShowsText(b, e, Parse(e), key, text, streams);
    }
    RunShowsText(ApplyStamped, Parse, b, events, key, text, streams);
  }

  // ---------------------------------------------------------------- laws of the store

  /** Every reply whose turn has no anonymous answer among the events moved as its machine says. */
  ghost predicate RepliesFollow(before: RunState, after: RunState, inputs: seq<Input>) {
    forall key: ReplyKey, r: Reply | ShowsOk(before, key, r) && key.1 != "" && NoneAnonymous(inputs, key.0) ::
      ShowsOk(after, key, MachineFrom(r, inputs, key))
  }

  /** Every progress that some event ended is completed, wherever it is shown. */
  ghost predicate EndedAreCompleted(s: RunState, inputs: seq<Input>) {
    forall i | 0 <= i < |s.timeline| && ProgressItems.Tracked(s.timeline[i])
               && Ended(inputs, ById(s.timeline[i].turn, s.timeline[i].progressId)) ::
      s.timeline[i].phase == Completed
  }

  /** Every progress shows what it showed before, and then the deltas of its own events. */
  ghost predicate ProgressFollows(before: RunState, after: RunState, inputs: seq<Input>) {
    forall key: ProgressKey, text: string, streams: bool | key.1 != "" && ShowsText(before, key, text, streams) ::
      ShowsText(after, key, text + Deltas(inputs, key), streams && NoEnd(inputs, key))
  }

  lemma StoreProgress(b: Body, events: seq<Event>)
    ensures ProgressFollows(b.state, ApplyAll(ApplyStamped, b, events).state, Inputs(events))
  {
    var s := ApplyAll(ApplyStamped, b, events).state;
    forall key: ProgressKey, text: string, streams: bool | key.1 != "" && ShowsText(b.state, key, text, streams)
      ensures ShowsText(s, key, text + Deltas(Inputs(events), key), streams && NoEnd(Inputs(events), key))
    {
      StampedRunShowsText(b, events, key, text, streams);
    }
  }

  /** Of a loaded run: every progress shows the deltas of the loaded events that are its own. */
  lemma LoadedProgress(counter: int, events: seq<Event>, key: ProgressKey)
    requires key.1 != ""
    ensures ShowsText(ApplyAll(ApplyStamped, Body(EMPTY, counter), events).state, key,
                      Deltas(Inputs(events), key), NoEnd(Inputs(events), key))
  {
    StampedRunShowsText(Body(EMPTY, counter), events, key, "", true);
    assert "" + Deltas(Inputs(events), key) == Deltas(Inputs(events), key);
  }

  lemma StoreLaws(b: Body, events: seq<Event>)
    ensures RepliesFollow(b.state, ApplyAll(ApplyStamped, b, events).state, Inputs(events))
    ensures ProgressItems.Inv(b.state) ==>
              var s := ApplyAll(ApplyStamped, b, events).state; ProgressItems.Inv(s) && EndedAreCompleted(s, Inputs(events))
  {
    var s := ApplyAll(ApplyStamped, b, events).state;
    forall key: ReplyKey, r: Reply | ShowsOk(b.state, key, r) && key.1 != "" && NoneAnonymous(Inputs(events), key.0)
      ensures ShowsOk(s, key, MachineFrom(r, Inputs(events), key))
    {
      StampedRunRefines(b, events, key, r);
    }
    if ProgressItems.Inv(b.state) {
      StampedRunKeeps(b, events);
      forall i | 0 <= i < |s.timeline| && ProgressItems.Tracked(s.timeline[i])
                 && Ended(Inputs(events), ById(s.timeline[i].turn, s.timeline[i].progressId))
        ensures s.timeline[i].phase == Completed
      {
        assert ProgressItems.Settled(s.timeline[i], s.terminal);
      }
    }
  }

  /** Of a loaded run: every reply is what its machine makes of the loaded events. */
  lemma LoadedReplies(counter: int, events: seq<Event>, key: ReplyKey)
    requires key.1 != "" && NoneAnonymous(Inputs(events), key.0)
    ensures Shows(ApplyAll(ApplyStamped, Body(EMPTY, counter), events).state, key, MachineAll(Inputs(events), key))
  {
    StampedRunRefines(Body(EMPTY, counter), events, key, NoReply);
    MachineFromStart(Inputs(events), key);
  }

  // ------------------------------------------------------------- what is stamped

  /** The stamp is of the event's own time, or else of its arrival, and of its own number, or else of the counter. */
  lemma StampSource(e: Event, counter: int)
    ensures var st := StampOf(e, counter);
            (e.timestamp != "" ==> st.createdAt == e.timestamp)
            && (e.timestamp == "" && e.createdAt != "" ==> st.createdAt == e.createdAt)
            && (e.timestamp == "" && e.createdAt == "" ==> st.createdAt == e.arrival)
            && (e.seq_.Some? ==> st.sequence == e.seq_.value) && (e.seq_ == None ==> st.sequence == counter)
  {
  }

  lemma StampNewAt(items: seq<Item>, existing: set<nat>, stamp: Stamp, i: nat)
    requires i < |items|
    ensures StampNew(items, existing, stamp)[i] ==
            if items[i].serial in existing then items[i] else items[i].(stamp := Some(stamp))
  {
  }

  /** The counter advances by the number of new items. */
  lemma {:induction false} CountNewIs(items: seq<Item>, existing: set<nat>)
    ensures CountNew(items, existing) == |Filter(items, (x: Item) => x.serial !in existing)|
  {
    if items != [] { CountNewIs(items[..|items| - 1], existing); }
  }

  /** An event stamps the item it makes, with its own stamp, and every other item keeps the stamp it has. */
  lemma StampedExactly(b: Body, s: RunState, e: Event)
    requires Numbered(b.state) && Descends(b.state, s)
    ensures var s' := Stamped(b, s, e).state;
            Numbered(s') && forall i | 0 <= i < |s'.timeline| ::
              if s'.timeline[i].serial == b.state.next then s'.timeline[i].stamp == Some(StampOf(e, b.counter))
              else Old(b.state.timeline, s'.timeline[i])
  {
    var s' := Stamped(b, s, e).state;
    var existing := Serials(b.state.timeline);
    assert forall k | k in existing :: k < b.state.next;
    forall i | 0 <= i < |s'.timeline|
      ensures if s'.timeline[i].serial == b.state.next then s'.timeline[i].stamp == Some(StampOf(e, b.counter))
              else Old(b.state.timeline, s'.timeline[i])
      ensures s'.timeline[i].serial == s.timeline[i].serial
    {
      var y := s.timeline[i];
      StampNewAt(s.timeline, existing, StampOf(e, b.counter), i);
      if Old(b.state.timeline, y) {
        var j :| 0 <= j < |b.state.timeline| && Same(b.state.timeline[j], y);
        assert b.state.timeline[j] in b.state.timeline && y.serial in existing;
      } else {
        assert y.serial == b.state.next && y.serial !in existing;
      }
    }
  }

  /** The same of applying a raw event. */
  lemma AppliedIsStamped(b: Body, e: Event, n: Input)
    requires n == Parse(e) && Numbered(b.state)
    ensures var s' := ApplyStamped(b, e).state;
            Numbered(s') && forall i | 0 <= i < |s'.timeline| ::
              if s'.timeline[i].serial == b.state.next then s'.timeline[i].stamp == Some(StampOf(e, b.counter))
              else Old(b.state.timeline, s'.timeline[i])
  {
    StepDescends(b.state, n);
    StampedExactly(b, Step(b.state, n), e);
  }
}
