/**
 Progress and interaction items of the reducer: one per (turn, progress id) and one per interaction, and
 progress completed for good once ended.
 */
module ProgressItems {
  import opened Common
  import opened EventReducer

  predicate Tracked(x: Item) { x.kind == Progress && x.progressId != "" }

  predicate Distinct(x: Item, y: Item) {
    (Tracked(x) && Tracked(y) ==> x.turn != y.turn || x.progressId != y.progressId)
    && (x.kind == Interaction && y.kind == Interaction ==> x.interactionId != y.interactionId)
  }

  predicate Settled(x: Item, terminal: set<TerminalKey>) {
    Tracked(x) && ById(x.turn, x.progressId) in terminal ==> x.phase == Completed
  }

  ghost predicate Unique(items: seq<Item>) {
    forall i, j | 0 <= i < j < |items| :: Distinct(items[i], items[j])
  }

  ghost predicate AllSettled(items: seq<Item>, terminal: set<TerminalKey>) {
    forall i | 0 <= i < |items| :: Settled(items[i], terminal)
  }

  ghost predicate Inv(s: RunState) { Unique(s.timeline) && AllSettled(s.timeline, s.terminal) }

  // --------------------------------------------------------- elementary changes

  lemma SetKeeps(s: RunState, i: nat, x: Item)
    requires Inv(s) && i < |s.timeline| && Settled(x, s.terminal)
    requires x.kind == s.timeline[i].kind && x.progressId == s.timeline[i].progressId
    requires (x.turn == s.timeline[i].turn || x.kind != Progress) && x.interactionId == s.timeline[i].interactionId
    ensures Inv(Set(s, i, x))
  {
    var t := s.timeline[i := x];
    forall a, b | 0 <= a < b < |t| ensures Distinct(t[a], t[b]) {
      assert Distinct(s.timeline[a], s.timeline[b]);
    }
  }

  lemma PushKeeps(s: RunState, x: Item)
    requires Inv(s) && Settled(x, s.terminal) && forall i | 0 <= i < |s.timeline| :: Distinct(s.timeline[i], x)
    ensures Inv(Push(s, x))
  {
  }

  lemma {:induction false} FilterKeeps(items: seq<Item>, p: Item -> bool, terminal: set<TerminalKey>)
    requires Unique(items) && AllSettled(items, terminal)
    ensures Unique(Filter(items, p)) && AllSettled(Filter(items, p), terminal)
    ensures forall x | x in Filter(items, p) :: x in items
  {
    if items != [] {
      var n := |items| - 1;
      FilterKeeps(items[..n], p, terminal);
      var rest := Filter(items[..n], p);
      forall i | 0 <= i < |rest| ensures Distinct(rest[i], items[n]) {
        assert rest[i] in rest;
        var j :| 0 <= j < n && items[j] == rest[i];
      }
    }
  }

  // ---------------------------------------------------------------- the handlers

  lemma AddProgressKeeps(s: RunState, turn: string, progressId: string, delta: string)
    requires Inv(s) && progressId != ""
    ensures Inv(AddProgress(s, turn, progressId, delta))
  {
    var terminal := ById(turn, progressId) in s.terminal;
    var i := FirstIndex(s.timeline, HasProgress(turn, progressId));
    if i >= 0 {
      var x := s.timeline[i];
      assert Settled(x, s.terminal);
      SetKeeps(s, i, x.(text := x.text + delta, phase := if terminal then x.phase else Streaming));
    } else {
      PushKeeps(s, Blank(Progress, delta, turn).(progressId := progressId, phase := PhaseFor(terminal)));
    }
  }

  lemma ProgressStartKeeps(s: RunState, n: Input)
    requires Inv(s)
    ensures Inv(OnProgressStart(s, n))
  {
    var i := FirstIndex(s.timeline, HasPhaseText(n.turn, n.phase, n.summary));
    if i >= 0 {
      SetKeeps(s, i, s.timeline[i].(phase := Completed));
    } else {
      PushKeeps(s, Blank(Progress, n.summary, n.turn)
                   .(phaseName := n.phase, phase := PhaseFor(PhaseKey(n.turn, n.phase) in s.terminal)));
    }
  }

  lemma ProgressDeltaKeeps(s: RunState, n: Input)
    requires Inv(s)
    ensures Inv(OnProgressDelta(s, n))
  {
    if n.progressId == "" {
      PushKeeps(s, Blank(Progress, n.summary, n.turn)
                   .(phaseName := n.phase, phase := PhaseFor(PhaseKey(n.turn, n.phase) in s.terminal)));
    } else if n.delta != "" {
      FilterKeeps(s.timeline, NotDraftOf((n.turn, n.reply)), s.terminal);
      var s1 := if n.reply != "" then RemoveDraft(s, (n.turn, n.reply)) else s;
      AddProgressKeeps(s1, n.turn, n.progressId, n.delta);
    }
  }

  lemma ProgressEndKeeps(s: RunState, n: Input)
    requires Inv(s)
    ensures Inv(OnProgressEnd(s, n))
  {
    var s' := OnProgressEnd(s, n);
    if n.progressId != "" {
      var i := FirstIndex(s.timeline, HasProgress(n.turn, n.progressId));
      forall j | 0 <= j < |s'.timeline| ensures Settled(s'.timeline[j], s'.terminal) {
        assert Settled(s.timeline[j], s.terminal);
        if i >= 0 && i != j { assert Distinct(s.timeline[if i < j then i else j], s.timeline[if i < j then j else i]); }
      }
      forall a, b | 0 <= a < b < |s'.timeline| ensures Distinct(s'.timeline[a], s'.timeline[b]) {
        assert Distinct(s.timeline[a], s.timeline[b]);
      }
    } else {
      forall j | 0 <= j < |s'.timeline| ensures Settled(s'.timeline[j], s'.terminal) {
        assert Settled(s.timeline[j], s.terminal);
      }
      forall a, b | 0 <= a < b < |s'.timeline| ensures Distinct(s'.timeline[a], s'.timeline[b]) {
        assert Distinct(s.timeline[a], s.timeline[b]);
      }
    }
  }

  predicate Plain(x: Item) { x.kind == Action || x.kind == Assistant }

  /** Items that are neither progress nor interactions do not matter. */
  lemma OtherKindKeeps(s: RunState, s': RunState, i: int)
    requires Inv(s) && s'.terminal == s.terminal && -1 <= i < |s.timeline|
    requires if i >= 0
             then |s'.timeline| == |s.timeline| && s'.timeline == s.timeline[i := s'.timeline[i]]
                  && Plain(s.timeline[i]) && Plain(s'.timeline[i])
             else |s'.timeline| == |s.timeline| + 1 && s'.timeline == s.timeline + [s'.timeline[|s.timeline|]]
                  && Plain(s'.timeline[|s.timeline|])
    ensures Inv(s')
  {
    forall a, b | 0 <= a < b < |s'.timeline| ensures Distinct(s'.timeline[a], s'.timeline[b]) {
      if b < |s.timeline| { assert Distinct(s.timeline[a], s.timeline[b]); }
    }
    forall a | 0 <= a < |s'.timeline| ensures Settled(s'.timeline[a], s'.terminal) {
      if a < |s.timeline| { assert Settled(s.timeline[a], s.terminal); }
    }
  }

  lemma ActionKeeps(s: RunState, n: Input)
    requires Inv(s)
    ensures Inv(OnAction(s, n))
  {
    if n.actionRef != "" {
      OtherKindKeeps(s, OnAction(s, n), LastIndex(s.timeline, HasAction(n.turn, n.actionRef, n.instance)));
    }
  }

  lemma RequiredKeeps(s: RunState, n: Input)
    requires Inv(s)
    ensures Inv(OnInteractionRequired(s, n))
  {
    if n.interactionId != "" {
      var i := FirstIndex(s.timeline, HasInteraction(n.interactionId));
      if i >= 0 {
        var x := s.timeline[i].(text := n.question, status := "waiting", interactionId := n.interactionId, turn := n.turn);
        SetKeeps(s, i, x);
        assert Inv(Set(s, i, x).(running := false, interrupting := false));
      } else {
        var x := Blank(Interaction, n.question, n.turn).(status := "waiting", interactionId := n.interactionId);
        PushKeeps(s, x);
        assert Inv(Push(s, x).(running := false, interrupting := false));
      }
    }
  }

  lemma ResolvedKeeps(s: RunState, n: Input)
    requires Inv(s)
    ensures Inv(OnInteractionResolved(s, n))
  {
    if n.interactionId != "" {
      var i := FirstIndex(s.timeline, HasInteraction(n.interactionId));
      if i >= 0 {
        SetKeeps(s, i, s.timeline[i].(text := n.resolution, status := "completed"));
      } else {
        PushKeeps(s, Blank(Interaction, n.resolution, n.turn).(status := "completed", interactionId := n.interactionId));
      }
    }
  }

  lemma AnswerKeeps(s: RunState, n: Input)
    requires Inv(s)
    ensures Inv(OnAnswerDelta(s, n)) && Inv(OnFinal(s, n))
  {
    var i := FindAssistant(s, n.turn, n.reply);
    if n.delta != "" && !(i >= 0 && s.timeline[i].status == "final") { OtherKindKeeps(s, OnAnswerDelta(s, n), i); }
    if !n.answerIsBlank { OtherKindKeeps(s, OnFinal(s, n), i); }
  }

  /** A progress item without an id. */
  lemma PlainPushKeeps(s: RunState, x: Item)
    requires Inv(s) && x.kind == Progress && x.progressId == ""
    ensures Inv(Push(s, x))
  {
    PushKeeps(s, x);
  }

  predicate ProgressType(typ: EventType) { typ in {TurnStart, ProgressStart, ProgressDelta, ProgressEnd, Warning, Error} }

  lemma ProgressStepKeeps(s: RunState, n: Input)
    requires Inv(s) && ProgressType(n.typ)
    ensures Inv(Step(s, n))
  {
    match n.typ
    case TurnStart => PlainPushKeeps(s, Blank(Progress, INITIAL_TEXT, n.turn));
    case ProgressStart => ProgressStartKeeps(s, n);
    case ProgressDelta => ProgressDeltaKeeps(s, n);
    case ProgressEnd => ProgressEndKeeps(s, n);
    case Warning => PlainPushKeeps(s, Blank(Progress, n.notice, n.turn).(status := "warning"));
    case Error => PlainPushKeeps(s, Blank(Progress, n.notice, n.turn).(status := "error"));
  }

  lemma OtherStepKeeps(s: RunState, n: Input)
    requires Inv(s) && !ProgressType(n.typ)
    ensures Inv(Step(s, n))
  {
    match n.typ
    case ActionStart => ActionKeeps(s, n);
    case ActionEnd => ActionKeeps(s, n);
    case InteractionRequired => RequiredKeeps(s, n);
    case InteractionResolved => ResolvedKeeps(s, n);
    case AnswerReset => FilterKeeps(s.timeline, NotDraftOf((n.turn, n.reply)), s.terminal);
    case AnswerDelta => AnswerKeeps(s, n);
    case FinalAnswer => AnswerKeeps(s, n);
    case _ =>
  }

  lemma StepKeeps(s: RunState, n: Input)
    requires Inv(s)
    ensures Inv(Step(s, n))
  {
    if ProgressType(n.typ) { ProgressStepKeeps(s, n); } else { OtherStepKeeps(s, n); }
  }

  // ------------------------------------------------------------------- theorems

  /** In every run there is at most one progress item per turn and progress id, and one item per interaction. */
  lemma {:induction false} RunsKeepInv(inputs: seq<Input>)
    ensures Inv(StepAll(EMPTY, inputs))
  {
    if inputs != [] {
      RunsKeepInv(inputs[..|inputs| - 1]);
      StepKeeps(StepAll(EMPTY, inputs[..|inputs| - 1]), inputs[|inputs| - 1]);
    }
  }

  /**
   Once the end of a progress was seen, its item is completed in every later state, whether the end
   came before the first delta or deltas came after it.
   */
  lemma {:induction false} EndedIsCompletedForever(inputs: seq<Input>, k: nat, i: int)
    requires k < |inputs| && inputs[k].typ == ProgressEnd && inputs[k].progressId != ""
    requires 0 <= i < |StepAll(EMPTY, inputs).timeline|
    requires HasProgress(inputs[k].turn, inputs[k].progressId)(StepAll(EMPTY, inputs).timeline[i])
    ensures StepAll(EMPTY, inputs).timeline[i].phase == Completed
  {
    RunsKeepInv(inputs);
    TerminalForever(inputs, k);
    assert Settled(StepAll(EMPTY, inputs).timeline[i], StepAll(EMPTY, inputs).terminal);
  }

  lemma {:induction false} TerminalForever(inputs: seq<Input>, k: nat)
    requires k < |inputs| && inputs[k].typ == ProgressEnd && inputs[k].progressId != ""
    ensures ById(inputs[k].turn, inputs[k].progressId) in StepAll(EMPTY, inputs).terminal
  {
    var n := |inputs| - 1;
    if k < n {
      TerminalForever(inputs[..n], k);
      assert StepAll(EMPTY, inputs) == Step(StepAll(EMPTY, inputs[..n]), inputs[n]);
    }
  }

  /** The interaction is shown by exactly one item, with this text and status. */
  ghost predicate ShownOnce(items: seq<Item>, interactionId: string, text: string, status: string) {
    exists i | 0 <= i < |items| ::
      HasInteraction(interactionId)(items[i]) && items[i].text == text && items[i].status == status
      && forall j | 0 <= j < |items| && j != i :: !HasInteraction(interactionId)(items[j])
  }

  lemma OnlyOne(items: seq<Item>, interactionId: string, i: nat)
    requires Unique(items) && i < |items| && HasInteraction(interactionId)(items[i])
    ensures ShownOnce(items, interactionId, items[i].text, items[i].status)
  {
    forall j | 0 <= j < |items| && j != i ensures !HasInteraction(interactionId)(items[j]) {
      assert Distinct(items[if i < j then i else j], items[if i < j then j else i]);
    }
  }

  /** A question is shown once as waiting, and once as completed when it is resolved, whatever was shown before. */
  lemma InteractionShownOnce(s: RunState, n: Input)
    requires Inv(s) && n.interactionId != ""
    ensures n.typ == InteractionRequired ==> ShownOnce(Step(s, n).timeline, n.interactionId, n.question, "waiting")
    ensures n.typ == InteractionResolved ==> ShownOnce(Step(s, n).timeline, n.interactionId, n.resolution, "completed")
  {
    var i := FirstIndex(s.timeline, HasInteraction(n.interactionId));
    var at := if i >= 0 then i else |s.timeline|;
    if n.typ == InteractionRequired {
      RequiredKeeps(s, n);
      OnlyOne(OnInteractionRequired(s, n).timeline, n.interactionId, at);
    } else if n.typ == InteractionResolved {
      ResolvedKeeps(s, n);
      OnlyOne(OnInteractionResolved(s, n).timeline, n.interactionId, at);
    }
  }

  /** A phase that starts is shown, completed if it ended before, and starting it again changes nothing. */
  lemma PhaseShownOnce(s: RunState, n: Input)
    requires n.typ == ProgressStart && n.summary != ""
    ensures var s' := Step(s, n);
            var i := FirstIndex(s'.timeline, HasPhaseText(n.turn, n.phase, n.summary));
            i >= 0 && (PhaseKey(n.turn, n.phase) in s.terminal ==> s'.timeline[i].phase == Completed)
            && (PhaseKey(n.turn, n.phase) !in s.terminal && i >= |s.timeline| ==> s'.timeline[i].phase == Streaming)
            && Step(s', n) == s'
  {
    var s' := OnProgressStart(s, n);
    var p := HasPhaseText(n.turn, n.phase, n.summary);
    var i := FirstIndex(s.timeline, p);
    var at := if i >= 0 then i else |s.timeline|;
    assert p(s'.timeline[at]) && forall j | 0 <= j < at :: s'.timeline[j] == s.timeline[j];
    assert FirstIndex(s'.timeline, p) == at;
    assert s'.timeline[at := s'.timeline[at]] == s'.timeline;
  }

  /** The status an action event gives its item. */
  predicate StatusSays(n: Input, status: string) {
    (n.status == "background" ==> status == "background")
    && (n.status != "background" && n.typ == ActionStart ==> status == "running")
    && (n.status != "background" && n.typ != ActionStart && (n.status == "failed" || n.status == "interrupted") ==> status == n.status)
    && (n.status !in {"background", "failed", "interrupted"} && n.typ != ActionStart ==> status == "completed")
  }

  predicate ShowsAction(x: Item, n: Input) {
    HasAction(n.turn, n.actionRef, n.instance)(x) && x.text == n.actionName
    && StatusSays(n, x.actionStatus) && x.status == x.actionStatus
    && x.actionCode == n.actionCode && x.actionPhase == n.phase && x.actionInstance == n.instance
  }

  /** Item `i` is the last that matches the action and shows its name and status; no other item changed. */
  ghost predicate ShownAt(before: seq<Item>, after: seq<Item>, n: Input, i: nat) {
    |before| <= |after| && i < |after| && ShowsAction(after[i], n)
    && (forall j | i < j < |after| :: !HasAction(n.turn, n.actionRef, n.instance)(after[j]))
    && (forall j | 0 <= j < |before| && j != i :: after[j] == before[j])
  }

  lemma ActionItemShows(x: Item, n: Input)
    requires x.kind == Action
    ensures ShowsAction(ActionItem(x, n), n)
  {
  }

  /** Every action event with a reference is shown. */
  lemma ActionShown(s: RunState, n: Input)
    requires (n.typ == ActionStart || n.typ == ActionEnd) && n.actionRef != ""
    ensures exists i: nat :: ShownAt(s.timeline, Step(s, n).timeline, n, i)
  {
    var t := Step(s, n).timeline;
    var i := LastIndex(s.timeline, HasAction(n.turn, n.actionRef, n.instance));
    if i >= 0 {
      ActionItemShows(s.timeline[i], n);
      assert t == s.timeline[i := ActionItem(s.timeline[i], n)];
      assert ShownAt(s.timeline, t, n, i);
    } else {
      var x := ActionItem(Blank(Action, n.actionName, n.turn), n);
      ActionItemShows(Blank(Action, n.actionName, n.turn), n);
      assert t == s.timeline + [x.(serial := s.next)];
      var at: nat := |s.timeline|;
      assert ShownAt(s.timeline, t, n, at);
    }
  }

  /** A warning or error with text becomes one more item with its text and status, and one without changes nothing. */
  lemma NoticeShown(s: RunState, n: Input)
    requires n.typ == Warning || n.typ == Error
    ensures n.notice == "" ==> Step(s, n) == s
    ensures n.notice != "" ==>
              var t := Step(s, n).timeline;
              |t| == |s.timeline| + 1 && t[..|s.timeline|] == s.timeline
              && t[|s.timeline|].kind == Progress && t[|s.timeline|].turn == n.turn && t[|s.timeline|].text == n.notice
              && t[|s.timeline|].status == (if n.typ == Warning then "warning" else "error")
  {
  }

  /** A turn that starts shows that the request is being understood, once however often it starts. */
  lemma TurnStartShownOnce(s: RunState, n: Input)
    requires n.typ == TurnStart
    ensures var s' := Step(s, n);
            FirstIndex(s'.timeline, IsInitial(n.turn)) >= 0 && s.timeline <= s'.timeline && Step(s', n).timeline == s'.timeline
  {
    var s' := OnTurnStart(s, n);
    if FirstIndex(s.timeline, IsInitial(n.turn)) < 0 {
      assert IsInitial(n.turn)(s'.timeline[|s.timeline|]);
    }
  }

  /** The end of a phase completes the turn's progress of that phase, or of all phases if it names none, and nothing else. */
  lemma PhaseEndCompletes(s: RunState, n: Input)
    requires n.typ == ProgressEnd && n.progressId == ""
    ensures var t := Step(s, n).timeline;
            |t| == |s.timeline| && forall i | 0 <= i < |t| ::
              if s.timeline[i].kind == Progress && s.timeline[i].turn == n.turn && (n.phase == "" || s.timeline[i].phaseName == n.phase)
              then t[i] == s.timeline[i].(phase := Completed) else t[i] == s.timeline[i]
    ensures PhaseKey(n.turn, n.phase) in Step(s, n).terminal
  {
  }

  /** A delta without a progress id shows its summary once, under its phase, and leaves all else alone. */
  lemma SummaryShownOnce(s: RunState, n: Input)
    requires n.typ == ProgressDelta && n.progressId == ""
    ensures var s' := Step(s, n);
            s.timeline <= s'.timeline && Step(s', n) == s' && (n.summary == "" ==> s' == s)
            && (n.summary != "" ==> FirstIndex(s'.timeline, HasPhaseText(n.turn, n.phase, n.summary)) >= 0)
            && (|s'.timeline| > |s.timeline| ==>
                  s'.timeline[|s.timeline|].phase == (if PhaseKey(n.turn, n.phase) in s.terminal then Completed else Streaming))
  {
    var s', p := OnProgressDelta(s, n), HasPhaseText(n.turn, n.phase, n.summary);
    if n.summary != "" && FirstIndex(s.timeline, p) < 0 {
      assert p(s'.timeline[|s.timeline|]);
    }
  }
}
