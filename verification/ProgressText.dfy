/**
 What a progress item shows: the deltas of its own events put together, streaming until an end is seen.
 */
module ProgressText {
  import opened Common
  import opened EventReducer
  import opened ReplyRefinement

  /** (turn, progress id), the id not being "". */
  type ProgressKey = (string, string)

  function Has(key: ProgressKey): Item -> bool { HasProgress(key.0, key.1) }

  // ------------------------------------------------------------- what is to be shown

  predicate Grows(n: Input, key: ProgressKey) { n.typ == ProgressDelta && n.turn == key.0 && n.progressId == key.1 }

  /** The deltas of the key's own events, in order. */
  function Deltas(inputs: seq<Input>, key: ProgressKey): string
    decreases |inputs|
  {
    if inputs == [] then "" else (if Grows(inputs[0], key) then inputs[0].delta else "") + Deltas(inputs[1..], key)
  }

  /** The event ends this progress, or a phase of its turn. */
  predicate MayEnd(n: Input, key: ProgressKey) {
    n.typ == ProgressEnd && n.turn == key.0 && (n.progressId == key.1 || n.progressId == "")
  }

  predicate NoEnd(inputs: seq<Input>, key: ProgressKey) { forall i | 0 <= i < |inputs| :: !MayEnd(inputs[i], key) }

  /** No end of this progress or of a phase of its turn was seen. */
  ghost predicate Open(terminal: set<TerminalKey>, key: ProgressKey) {
    forall k | k in terminal && k.turn == key.0 :: k.ById? && k.progressId != key.1
  }

  /** No item before the first text, and then one item with just this text, which is streaming if `streams`. */
  ghost predicate ItemsShow(items: seq<Item>, text: string, streams: bool) {
    if text == "" then items == []
    else |items| == 1 && items[0].text == text && (streams ==> items[0].phase == Streaming)
  }

  ghost predicate ShowsText(s: RunState, key: ProgressKey, text: string, streams: bool) {
    ItemsShow(Filter(s.timeline, Has(key)), text, streams) && (streams ==> Open(s.terminal, key))
  }

  /** The text after one more event. */
  function Grown(text: string, n: Input, key: ProgressKey): string { if Grows(n, key) then text + n.delta else text }

  // ----------------------------------------------------------- changes of the timeline

  lemma PushOther(items: seq<Item>, x: Item, key: ProgressKey)
    requires !Has(key)(x)
    ensures Filter(items + [x], Has(key)) == Filter(items, Has(key))
  {
    FilterPush(items, x, Has(key));
  }

  /** Rewriting one item by another with the same text, phase and identity, or that is no item of the key before and after. */
  lemma SetAlike(items: seq<Item>, i: nat, x: Item, key: ProgressKey, text: string, streams: bool)
    requires i < |items| && Has(key)(x) == Has(key)(items[i]) && ItemsShow(Filter(items, Has(key)), text, streams)
    requires Has(key)(x) ==> x.text == items[i].text && (streams ==> x.phase == items[i].phase)
    ensures ItemsShow(Filter(items[i := x], Has(key)), text, streams)
  {
    if Has(key)(x) {
      SetOwn(items, i, x, key);
    } else {
      FilterSet(items, i, x, Has(key));
    }
  }

  lemma SetOwn(items: seq<Item>, i: nat, x: Item, key: ProgressKey)
    requires i < |items| && Has(key)(items[i]) && Has(key)(x) && |Filter(items, Has(key))| <= 1
    ensures Filter(items, Has(key)) == [items[i]] && Filter(items[i := x], Has(key)) == [x]
  {
    LastIsOnly(items, Has(key));
    FilterOne(items[i := x], i, Has(key));
  }

  /** A change that leaves every progress item alone. */
  ghost predicate Aside(a: seq<Item>, b: seq<Item>) {
    a == b
    || (exists x: Item :: x.kind != Progress && b == a + [x])
    || (exists i: nat, x: Item :: i < |a| && a[i].kind != Progress && x.kind != Progress && b == a[i := x])
    || (exists key: ReplyKey :: b == Filter(a, NotDraftOf(key)))
  }

  lemma AsideKeeps(a: seq<Item>, b: seq<Item>, key: ProgressKey)
    requires Aside(a, b)
    ensures Filter(b, Has(key)) == Filter(a, Has(key))
  {
    if x: Item :| x.kind != Progress && b == a + [x] {
      PushOther(a, x, key);
    } else if i: nat, x: Item :| i < |a| && a[i].kind != Progress && x.kind != Progress && b == a[i := x] {
      FilterSet(a, i, x, Has(key));
    } else if reply: ReplyKey :| b == Filter(a, NotDraftOf(reply)) {
      FilterImplied(a, Has(key), NotDraftOf(reply));
    }
  }

  lemma PushIsAside(s: RunState, x: Item)
    requires x.kind != Progress
    ensures Aside(s.timeline, Push(s, x).timeline)
  {
    assert x.(serial := s.next).kind != Progress;
  }

  lemma SetIsAside(s: RunState, i: nat, x: Item)
    requires i < |s.timeline| && s.timeline[i].kind != Progress && x.kind != Progress
    ensures Aside(s.timeline, Set(s, i, x).timeline)
  {
  }

  lemma ActionIsAside(s: RunState, n: Input)
    ensures Aside(s.timeline, OnAction(s, n).timeline)
  {
    if n.actionRef != "" {
      var i := LastIndex(s.timeline, HasAction(n.turn, n.actionRef, n.instance));
      if i >= 0 {
        SetIsAside(s, i, ActionItem(s.timeline[i], n));
      } else {
        PushIsAside(s, ActionItem(Blank(Action, n.actionName, n.turn), n));
      }
    }
  }

  lemma RequiredIsAside(s: RunState, n: Input)
    ensures Aside(s.timeline, OnInteractionRequired(s, n).timeline)
  {
    var i := FirstIndex(s.timeline, HasInteraction(n.interactionId));
    if i >= 0 {
      SetIsAside(s, i, s.timeline[i].(text := n.question, status := "waiting", interactionId := n.interactionId, turn := n.turn));
    } else {
      PushIsAside(s, Blank(Interaction, n.question, n.turn).(status := "waiting", interactionId := n.interactionId));
    }
  }

  lemma ResolvedIsAside(s: RunState, n: Input)
    ensures Aside(s.timeline, OnInteractionResolved(s, n).timeline)
  {
    var i := FirstIndex(s.timeline, HasInteraction(n.interactionId));
    if i >= 0 {
      SetIsAside(s, i, s.timeline[i].(text := n.resolution, status := "completed"));
    } else {
      PushIsAside(s, Blank(Interaction, n.resolution, n.turn).(status := "completed", interactionId := n.interactionId));
    }
  }

  lemma DeltaIsAside(s: RunState, n: Input)
    ensures Aside(s.timeline, OnAnswerDelta(s, n).timeline)
  {
    var i := FindAssistant(s, n.turn, n.reply);
    if i >= 0 {
      SetIsAside(s, i, s.timeline[i].(text := s.timeline[i].text + n.delta));
    } else {
      PushIsAside(s, NewAssistant(n.turn, n.reply, n.delta));
    }
  }

  lemma FinalIsAside(s: RunState, n: Input)
    ensures Aside(s.timeline, OnFinal(s, n).timeline)
  {
    var i := FindAssistant(s, n.turn, n.reply);
    if i >= 0 {
      SetIsAside(s, i, Finished(s.timeline[i], n));
    } else {
      PushIsAside(s, Finished(NewAssistant(n.turn, n.reply, n.answer), n));
    }
  }

  predicate OnProgressItems(typ: EventType) { typ in {TurnStart, ProgressStart, ProgressDelta, ProgressEnd, Warning, Error} }

  lemma OthersAreAside(s: RunState, n: Input)
    requires !OnProgressItems(n.typ)
    ensures Aside(s.timeline, Step(s, n).timeline) && Step(s, n).terminal == s.terminal
  {
    match n.typ
    case ActionStart => ActionIsAside(s, n);
    case ActionEnd => ActionIsAside(s, n);
    case InteractionRequired => RequiredIsAside(s, n);
    case InteractionResolved => ResolvedIsAside(s, n);
    case AnswerDelta => DeltaIsAside(s, n);
    case FinalAnswer => FinalIsAside(s, n);
    case _ =>
  }

  // ------------------------------------------------------------------ the handlers

  /** A progress item without an id is none of the key's. */
  lemma PlainPush(s: RunState, x: Item, key: ProgressKey, text: string, streams: bool)
    requires ShowsText(s, key, text, streams) && key.1 != "" && x.progressId == ""
    ensures ShowsText(Push(s, x), key, text, streams)
  {
    PushOther(s.timeline, x.(serial := s.next), key);
  }

  lemma StartShows(s: RunState, n: Input, key: ProgressKey, text: string, streams: bool)
    requires ShowsText(s, key, text, streams) && key.1 != ""
    ensures ShowsText(OnProgressStart(s, n), key, text, streams)
  {
    var i := FirstIndex(s.timeline, HasPhaseText(n.turn, n.phase, n.summary));
    if n.summary != "" && i >= 0 {
      if PhaseKey(n.turn, n.phase) in s.terminal {
        assert streams ==> n.turn != key.0;
        SetAlike(s.timeline, i, s.timeline[i].(phase := Completed), key, text, streams);
      }
    } else if n.summary != "" {
      PlainPush(s, Blank(Progress, n.summary, n.turn)
                   .(phaseName := n.phase, phase := PhaseFor(PhaseKey(n.turn, n.phase) in s.terminal)), key, text, streams);
    }
  }

  /** The text grows by what is added to this progress, and by nothing added to another. */
  lemma AddShows(s: RunState, turn: string, progressId: string, delta: string, key: ProgressKey, text: string, streams: bool)
    requires ShowsText(s, key, text, streams) && delta != ""
    ensures ShowsText(AddProgress(s, turn, progressId, delta), key,
                      if (turn, progressId) == key then text + delta else text, streams)
  {
    var terminal := ById(turn, progressId) in s.terminal;
    var i := FirstIndex(s.timeline, HasProgress(turn, progressId));
    if i >= 0 {
      var x := s.timeline[i].(text := s.timeline[i].text + delta, phase := if terminal then s.timeline[i].phase else Streaming);
      if (turn, progressId) == key { SetOwn(s.timeline, i, x, key); } else { SetAlike(s.timeline, i, x, key, text, streams); }
    } else {
      var x := Blank(Progress, delta, turn).(progressId := progressId, phase := PhaseFor(terminal), serial := s.next);
      FilterPush(s.timeline, x, Has(key));
      if (turn, progressId) == key { FilterNone(s.timeline, Has(key)); }
    }
  }

  lemma DeltaShows(s: RunState, n: Input, key: ProgressKey, text: string, streams: bool)
    requires ShowsText(s, key, text, streams) && key.1 != "" && n.typ == ProgressDelta
    ensures ShowsText(OnProgressDelta(s, n), key, Grown(text, n, key), streams)
  {
    if n.progressId == "" {
      PlainPush(s, Blank(Progress, n.summary, n.turn)
                   .(phaseName := n.phase, phase := PhaseFor(PhaseKey(n.turn, n.phase) in s.terminal)), key, text, streams);
    } else if n.delta == "" {
      assert text + n.delta == text;
    } else {
      var s1 := if n.reply != "" then RemoveDraft(s, (n.turn, n.reply)) else s;
      if n.reply != "" { FilterImplied(s.timeline, Has(key), NotDraftOf((n.turn, n.reply))); }
      AddShows(s1, n.turn, n.progressId, n.delta, key, text, streams);
    }
  }

  /** Completing a phase changes no text. */
  lemma {:induction false} CompletionShows(items: seq<Item>, turn: string, phase: string, key: ProgressKey)
    ensures var a, b := Filter(items, Has(key)), Filter(MapItems(items, CompletePhase(turn, phase)), Has(key));
            |a| == |b| && (forall i | 0 <= i < |a| :: b[i].text == a[i].text) && (turn != key.0 ==> a == b)
  {
    if items != [] {
      var n := |items| - 1;
      CompletionShows(items[..n], turn, phase, key);
      assert MapItems(items, CompletePhase(turn, phase))[..n] == MapItems(items[..n], CompletePhase(turn, phase));
    }
  }

  lemma EndShows(s: RunState, n: Input, key: ProgressKey, text: string, streams: bool)
    requires ShowsText(s, key, text, streams) && key.1 != "" && n.typ == ProgressEnd
    ensures ShowsText(OnProgressEnd(s, n), key, text, streams && !MayEnd(n, key))
  {
    if n.progressId != "" {
      var i := FirstIndex(s.timeline, HasProgress(n.turn, n.progressId));
      if i >= 0 {
        SetAlike(s.timeline, i, s.timeline[i].(phase := Completed), key, text, streams && !MayEnd(n, key));
      }
    } else {
      CompletionShows(s.timeline, n.turn, n.phase, key);
    }
  }

  lemma NoticesShow(s: RunState, n: Input, key: ProgressKey, text: string, streams: bool)
    requires ShowsText(s, key, text, streams) && key.1 != "" && n.typ in {TurnStart, Warning, Error}
    ensures ShowsText(Step(s, n), key, text, streams)
  {
    match n.typ
    case TurnStart => PlainPush(s, Blank(Progress, INITIAL_TEXT, n.turn), key, text, streams);
    case Warning => PlainPush(s, Blank(Progress, n.notice, n.turn).(status := "warning"), key, text, streams);
    case Error => PlainPush(s, Blank(Progress, n.notice, n.turn).(status := "error"), key, text, streams);
  }

  lemma DeltaStepShows(s: RunState, n: Input, key: ProgressKey, text: string, streams: bool)
    requires ShowsText(s, key, text, streams) && key.1 != "" && n.typ == ProgressDelta
    ensures ShowsText(Step(s, n), key, Grown(text, n, key), streams)
  {
    DeltaShows(s, n, key, text, streams);
  }

  lemma BoundsShow(s: RunState, n: Input, key: ProgressKey, text: string, streams: bool)
    requires ShowsText(s, key, text, streams) && key.1 != "" && (n.typ == ProgressStart || n.typ == ProgressEnd)
    ensures ShowsText(Step(s, n), key, text, streams && !MayEnd(n, key))
  {
    if n.typ == ProgressStart { StartShows(s, n, key, text, streams); } else { EndShows(s, n, key, text, streams); }
  }

  lemma OthersShow(s: RunState, n: Input, key: ProgressKey, text: string, streams: bool)
    requires ShowsText(s, key, text, streams) && !OnProgressItems(n.typ)
    ensures ShowsText(Step(s, n), key, text, streams)
  {
    OthersAreAside(s, n);
    AsideKeeps(s.timeline, Step(s, n).timeline, key);
  }

  /** Each event extends what a progress shows by its delta if it is the progress's own, and else by nothing. */
  lemma StepShowsText(s: RunState, n: Input, key: ProgressKey, text: string, streams: bool)
    requires ShowsText(s, key, text, streams) && key.1 != ""
    ensures ShowsText(Step(s, n), key, Grown(text, n, key), streams && !MayEnd(n, key))
  {
    if n.typ == ProgressDelta {
      DeltaStepShows(s, n, key, text, streams);
    } else if n.typ == ProgressStart || n.typ == ProgressEnd {
      BoundsShow(s, n, key, text, streams);
    } else if OnProgressItems(n.typ) {
      NoticesShow(s, n, key, text, streams);
    } else {
      OthersShow(s, n, key, text, streams);
    }
  }

  // --------------------------------------------------------------------- theorems

  lemma {:induction false} DeltasLast(inputs: seq<Input>, key: ProgressKey)
    requires inputs != []
    ensures Deltas(inputs, key) == Grown(Deltas(inputs[..|inputs| - 1], key), inputs[|inputs| - 1], key)
    decreases |inputs|
  {
    var n := |inputs| - 1;
    if n > 0 {
      DeltasLast(inputs[1..], key);
      assert inputs[1..][..n - 1] == inputs[..n][1..] && inputs[1..][n - 1] == inputs[n];
    }
  }

  lemma NoEndLast(inputs: seq<Input>, key: ProgressKey)
    requires inputs != []
    ensures NoEnd(inputs, key) <==> NoEnd(inputs[..|inputs| - 1], key) && !MayEnd(inputs[|inputs| - 1], key)
  {
    var init := inputs[..|inputs| - 1];
    assert forall i | 0 <= i < |init| :: init[i] == inputs[i];
  }

  lemma TextStep(s: RunState, inputs: seq<Input>, init: seq<Input>, n: Input, key: ProgressKey)
    requires key.1 != "" && inputs != [] && init == inputs[..|inputs| - 1] && n == inputs[|inputs| - 1]
    requires ShowsText(s, key, Deltas(init, key), NoEnd(init, key))
    ensures ShowsText(Step(s, n), key, Deltas(inputs, key), NoEnd(inputs, key))
  {
    DeltasLast(inputs, key);
    NoEndLast(inputs, key);
    StepShowsText(s, n, key, Deltas(init, key), NoEnd(init, key));
  }

  /**
   In every run the item of a progress appears with its first non-empty delta, is the only one, shows the
   deltas of exactly its own events in order, whatever else interleaves, and streams until an end of it
   or of a phase of its turn is seen.
   */
  lemma {:induction false} TextIsOwnDeltas(inputs: seq<Input>, key: ProgressKey)
    requires key.1 != ""
    ensures ShowsText(StepAll(EMPTY, inputs), key, Deltas(inputs, key), NoEnd(inputs, key))
  {
    if inputs != [] {
      var init := inputs[..|inputs| - 1];
      TextIsOwnDeltas(init, key);
      TextStep(StepAll(EMPTY, init), inputs, init, inputs[|inputs| - 1], key);
    }
  }
}
