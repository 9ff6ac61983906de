/** The run state as the store mutates it: `applyAgentEvent` in place, stamping and replay. */
module TimelineStore {
  import opened Common
  import opened EventReducer
  import opened Replay
  import opened Stamping
  import opened ReplyRefinement
  import ProgressItems
  import opened ProgressText

  class RunStore {
    var timeline: seq<Item>
    var running: bool
    var interrupting: bool
    var terminal: set<TerminalKey>
    var next: nat
    var counter: int
    var applied: set<EventKey>

    function View(): RunState
      reads this
    {
      RunState(timeline, running, interrupting, terminal, next)
    }

    function Content(): Run<Body>
      reads this
    {
      Run(Body(View(), counter), applied)
    }

    constructor (counter: int)
      ensures Content() == Run(Body(EMPTY, counter), {})
    {
      timeline, running, interrupting, terminal, next := [], false, false, {}, 0;
      applied := {};
      this.counter := counter;
    }

    method FindFirst(p: Item -> bool) returns (i: int)
      ensures i == FirstIndex(timeline, p)
    {
      i := 0;
      while i < |timeline|
        invariant 0 <= i <= |timeline| && forall j | 0 <= j < i :: !p(timeline[j])
      {
        if p(timeline[i]) {
          return;
        }
        i := i + 1;
      }
      i := -1;
    }

    method FindLast(p: Item -> bool) returns (i: int)
      ensures i == LastIndex(timeline, p)
    {
      i := |timeline| - 1;
      while i >= 0
        invariant -1 <= i < |timeline| && forall j | i < j < |timeline| :: !p(timeline[j])
      {
        if p(timeline[i]) {
          return;
        }
        i := i - 1;
      }
    }

    method PushItem(x: Item)
      modifies this
      ensures View() == Push(old(View()), x) && Unstamped(old(counter), old(applied))
    {
      timeline := timeline + [x.(serial := next)];
      next := next + 1;
    }

    /** The reducer touches neither the applied keys nor the sequence counter. */
    predicate Unstamped(c: int, keys: set<EventKey>)
      reads this
    {
      counter == c && applied == keys
    }

    method SetItem(i: nat, x: Item)
      requires i < |timeline|
      modifies this
      ensures View() == Set(old(View()), i, x) && Unstamped(old(counter), old(applied))
    {
      timeline := timeline[i := x];
    }

    method RemoveAssistantDraft(key: ReplyKey)
      modifies this
      ensures View() == RemoveDraft(old(View()), key) && Unstamped(old(counter), old(applied))
    {
      var kept: seq<Item> := [];
      for i := 0 to |timeline|
        invariant kept == Filter(timeline[..i], NotDraftOf(key))
        invariant View() == old(View()) && Unstamped(old(counter), old(applied))
      {
        assert timeline[..i + 1][..i] == timeline[..i];
        if NotDraftOf(key)(timeline[i]) {
          kept := kept + [timeline[i]];
        }
      }
      assert timeline[..|timeline|] == timeline;
      timeline := kept;
    }

    method ProgressStarted(n: Input)
      modifies this
      ensures View() == OnProgressStart(old(View()), n) && Unstamped(old(counter), old(applied))
    {
      if n.summary == "" {
        return;
      }
      var existing := FindFirst(HasPhaseText(n.turn, n.phase, n.summary));
      var isTerminal := PhaseKey(n.turn, n.phase) in terminal;
      if existing >= 0 {
        if isTerminal {
          SetItem(existing, timeline[existing].(phase := Completed));
        }
        return;
      }
      PushItem(Blank(Progress, n.summary, n.turn).(phaseName := n.phase, phase := PhaseFor(isTerminal)));
    }

    method ProgressGrew(n: Input)
      modifies this
      ensures View() == OnProgressDelta(old(View()), n) && Unstamped(old(counter), old(applied))
    {
      if n.progressId == "" {
        var shown := FindFirst(HasPhaseText(n.turn, n.phase, n.summary));
        if n.summary == "" || shown >= 0 {
          return;
        }
        PushItem(Blank(Progress, n.summary, n.turn)
                 .(phaseName := n.phase, phase := PhaseFor(PhaseKey(n.turn, n.phase) in terminal)));
        return;
      }
      if n.delta == "" {
        return;
      }
      if n.reply != "" {
        RemoveAssistantDraft((n.turn, n.reply));
      }
      var isTerminal := ById(n.turn, n.progressId) in terminal;
      var existing := FindFirst(HasProgress(n.turn, n.progressId));
      if existing >= 0 {
        var x := timeline[existing];
        SetItem(existing, x.(text := x.text + n.delta, phase := if isTerminal then x.phase else Streaming));
      } else {
        PushItem(Blank(Progress, n.delta, n.turn).(progressId := n.progressId, phase := PhaseFor(isTerminal)));
      }
    }

    method ProgressEnded(n: Input)
      modifies this
      ensures View() == OnProgressEnd(old(View()), n) && Unstamped(old(counter), old(applied))
    {
      if n.progressId != "" {
        var existing := FindFirst(HasProgress(n.turn, n.progressId));
        terminal := terminal + {ById(n.turn, n.progressId)};
        if existing >= 0 {
          SetItem(existing, timeline[existing].(phase := Completed));
        }
        return;
      }
      terminal := terminal + {PhaseKey(n.turn, n.phase)};
      CompleteAll(n.turn, n.phase);
    }

    method CompleteAll(turn: string, phase: string)
      modifies this`timeline
      ensures timeline == MapItems(old(timeline), CompletePhase(turn, phase))
    {
      for i := 0 to |timeline|
        invariant |timeline| == |old(timeline)|
        invariant forall j | 0 <= j < i :: timeline[j] == CompletePhase(turn, phase)(old(timeline)[j])
        invariant forall j | i <= j < |timeline| :: timeline[j] == old(timeline)[j]
      {
        var item := timeline[i];
        if item.kind == Progress && item.turn == turn && (phase == "" || item.phaseName == phase) {
          timeline := timeline[i := item.(phase := Completed)];
        }
      }
    }

    method ActionChanged(n: Input)
      modifies this
      ensures View() == OnAction(old(View()), n) && Unstamped(old(counter), old(applied))
    {
      if n.actionRef == "" {
        return;
      }
      var existing := FindLast(HasAction(n.turn, n.actionRef, n.instance));
      if existing >= 0 {
        SetItem(existing, ActionItem(timeline[existing], n));
      } else {
        PushItem(ActionItem(Blank(Action, n.actionName, n.turn), n));
      }
      if n.typ == ActionStart {
        running, interrupting := true, false;
      }
    }

    method InteractionAsked(n: Input)
      modifies this
      ensures View() == OnInteractionRequired(old(View()), n) && Unstamped(old(counter), old(applied))
    {
      if n.interactionId == "" {
        return;
      }
      var existing := FindFirst(HasInteraction(n.interactionId));
      if existing >= 0 {
        SetItem(existing, timeline[existing]
                .(text := n.question, status := "waiting", interactionId := n.interactionId, turn := n.turn));
      } else {
        PushItem(Blank(Interaction, n.question, n.turn).(status := "waiting", interactionId := n.interactionId));
      }
      running, interrupting := false, false;
    }

    method InteractionAnswered(n: Input)
      modifies this
      ensures View() == OnInteractionResolved(old(View()), n) && Unstamped(old(counter), old(applied))
    {
      if n.interactionId == "" {
        return;
      }
      var existing := FindFirst(HasInteraction(n.interactionId));
      if existing >= 0 {
        SetItem(existing, timeline[existing].(text := n.resolution, status := "completed"));
      } else {
        PushItem(Blank(Interaction, n.resolution, n.turn).(status := "completed", interactionId := n.interactionId));
      }
    }

    method FindAssistantItem(turn: string, reply: string) returns (i: int)
      ensures i == FindAssistant(View(), turn, reply)
    {
      i := FindLast(if reply != "" then HasKey((turn, reply)) else InTurn(turn));
    }

    method AnswerGrew(n: Input)
      modifies this
      ensures View() == OnAnswerDelta(old(View()), n) && Unstamped(old(counter), old(applied))
    {
      if n.delta == "" {
        return;
      }
      var candidate := FindAssistantItem(n.turn, n.reply);
      if candidate >= 0 && timeline[candidate].status == "final" {
        return;
      }
      if candidate >= 0 {
        SetItem(candidate, timeline[candidate].(text := timeline[candidate].text + n.delta));
      } else {
        PushItem(NewAssistant(n.turn, n.reply, n.delta));
      }
      running, interrupting := true, false;
    }

    method AnswerFinished(n: Input)
      modifies this
      ensures View() == OnFinal(old(View()), n) && Unstamped(old(counter), old(applied))
    {
      if !n.answerIsBlank {
        var existing := FindAssistantItem(n.turn, n.reply);
        if existing >= 0 {
          SetItem(existing, Finished(timeline[existing], n));
        } else {
          PushItem(Finished(NewAssistant(n.turn, n.reply, n.answer), n));
        }
      }
      running, interrupting := false, false;
    }

    /** `applyAgentEvent`, branch by branch. */
    method ApplyAgentEvent(n: Input)
      modifies this
      ensures View() == Step(old(View()), n) && Unstamped(old(counter), old(applied))
    {
      match n.typ
      case TurnStart =>
        var shown := FindFirst(IsInitial(n.turn));
        if shown < 0 {
          PushItem(Blank(Progress, INITIAL_TEXT, n.turn));
        }
        running, interrupting := true, false;
      case TurnPending => running, interrupting := true, false;
      case TurnSubmissionFailed =>
        var active := FindFirst(IsRunningAction());
        running, interrupting := active >= 0, false;
      case TurnState =>
        running := n.status == "running" || n.status == "waiting";
        if !running {
          interrupting := false;
        }
      case ProgressStart => ProgressStarted(n);
      case ProgressDelta => ProgressGrew(n);
      case ProgressEnd => ProgressEnded(n);
      case ActionStart => ActionChanged(n);
      case ActionEnd => ActionChanged(n);
      case InteractionRequired => InteractionAsked(n);
      case InteractionResolved => InteractionAnswered(n);
      case Warning =>
        if n.notice != "" {
          PushItem(Blank(Progress, n.notice, n.turn).(status := "warning"));
        }
      case Error =>
        if n.notice != "" {
          PushItem(Blank(Progress, n.notice, n.turn).(status := "error"));
        }
      case AnswerReset =>
        if n.reply != "" {
          RemoveAssistantDraft((n.turn, n.reply));
        }
      case AnswerDelta => AnswerGrew(n);
      case FinalAnswer => AnswerFinished(n);
      case Ignored =>
    }

    /** `stampNewTimelineItems`: only items that did not exist before the event are stamped. */
    method StampNewItems(e: Event, existing: set<nat>)
      modifies this`timeline, this`counter
      ensures timeline == StampNew(old(timeline), existing, StampOf(e, old(counter)))
      ensures counter == if e.seq_.Some? then old(counter) else old(counter) + CountNew(old(timeline), existing)
    {
      var stamp := StampOf(e, counter);
      for i := 0 to |timeline|
        invariant |timeline| == |old(timeline)|
        invariant forall j | 0 <= j < i :: timeline[j] == StampNew(old(timeline), existing, stamp)[j]
        invariant forall j | i <= j < |timeline| :: timeline[j] == old(timeline)[j]
        invariant counter == if e.seq_.Some? then old(counter) else old(counter) + CountNew(old(timeline)[..i], existing)
      {
        assert old(timeline)[..i + 1][..i] == old(timeline)[..i];
        if timeline[i].serial !in existing {
          timeline := timeline[i := timeline[i].(stamp := Some(stamp))];
          if e.seq_ == None {
            counter := counter + 1;
          }
        }
      }
      assert old(timeline)[..|old(timeline)|] == old(timeline);
    }

    method ApplyEventAndMark(e: Event, key: EventKey)
      modifies this
      ensures Content() == ApplyAndMark(ApplyStamped, old(Content()), e, key)
    {
      ghost var before := Body(View(), counter);
      var existing := Serials(timeline);
      ApplyParsed(e);
      MarkAndStamp(e, key, existing, before);
    }

    method MarkAndStamp(e: Event, key: EventKey, existing: set<nat>, ghost before: Body)
      requires counter == before.counter && existing == Serials(before.state.timeline)
      modifies this
      ensures Content() == Run(Stamped(before, old(View()), e), old(applied) + {key})
    {
      applied := applied + {key};
      StampNewItems(e, existing);
    }

    method ApplyParsed(e: Event)
      modifies this
      ensures View() == Reduce(old(View()), e) && Unstamped(old(counter), old(applied))
    {
      ApplyAgentEvent(Parse(e));
    }

    method ApplyEventIfNew(e: Event)
      modifies this
      ensures Content() == ApplyIfNew(ApplyStamped, old(Content()), e)
    {
      var persisted := PersistedKey(e);
      if persisted.Some? && persisted.value in applied {
        return;
      }
      if LiveKey(e) in applied {
        if persisted.Some? {
          applied := applied + {persisted.value};
        }
        return;
      }
      ApplyEventAndMark(e, if persisted.Some? then persisted.value else LiveKey(e));
    }

    /** `applyLiveEvent`. */
    method ApplyLiveEvent(e: Event)
      modifies this
      ensures Content() == ApplyLive(ApplyStamped, old(Content()), e)
    {
      if e.id != "" || e.seq_.Some? {
        ApplyEventIfNew(e);
      } else {
        ApplyEventAndMark(e, LiveKey(e));
      }
    }

    /**
     `mergeRunFromEvents`, into a run built in whatever way: the fresh events move every reply as its
     machine says and extend every progress by its own deltas, and progress and interaction items stay
     unique, and completed once ended.
     */
    method MergeEvents(history: seq<Event>)
      modifies this
      ensures Content() == Merge(ApplyStamped, old(Content()), history)
      ensures RepliesFollow(old(View()), View(), Inputs(Fresh(old(applied), history)))
      ensures ProgressFollows(old(View()), View(), Inputs(Fresh(old(applied), history)))
      ensures ProgressItems.Inv(old(View())) ==>
                ProgressItems.Inv(View()) && EndedAreCompleted(View(), Inputs(Fresh(old(applied), history)))
    {
      MergeAppliesFresh(ApplyStamped, Content(), history);
      StoreLaws(Body(View(), counter), Fresh(applied, history));
      StoreProgress(Body(View(), counter), Fresh(applied, history));
      for i := 0 to |history|
        invariant Merge(ApplyStamped, old(Content()), history) == Merge(ApplyStamped, Content(), history[i..])
      {
        assert history[i..][0] == history[i] && history[i..][1..] == history[i + 1..];
        ApplyEventIfNew(history[i]);
      }
      assert history[|history|..] == [];
    }
  }

  /** `runFromEvents`: the loaded run is each persisted event applied once, however often it is repeated. */
  method RunFromEvents(history: seq<Event>, counter: int) returns (run: RunStore)
    ensures run.Content() == Merge(ApplyStamped, Run(Body(EMPTY, counter), {}), history)
    ensures AllPersisted(history) ==>
              run.Content().body == ApplyAll(ApplyStamped, Body(EMPTY, counter), Firsts(history))
    ensures AllPersisted(history) ==>
              forall key: ReplyKey | key.1 != "" && NoneAnonymous(Inputs(Firsts(history)), key.0) ::
                Shows(run.View(), key, MachineAll(Inputs(Firsts(history)), key))
    ensures AllPersisted(history) ==>
              forall key: ProgressKey | key.1 != "" ::
                ShowsText(run.View(), key, Deltas(Inputs(Firsts(history)), key), NoEnd(Inputs(Firsts(history)), key))
    ensures ProgressItems.Inv(run.View())
    ensures AllPersisted(history) ==> EndedAreCompleted(run.View(), Inputs(Firsts(history)))
  {
    run := new RunStore(counter);
    run.MergeEvents(history);
    if AllPersisted(history) {
      RunFromEventsAppliesFirsts(ApplyStamped, Body(EMPTY, counter), history);
      StoreLaws(Body(EMPTY, counter), Firsts(history));
      forall key: ReplyKey | key.1 != "" && NoneAnonymous(Inputs(Firsts(history)), key.0)
        ensures Shows(run.View(), key, MachineAll(Inputs(Firsts(history)), key))
      {
        LoadedReplies(counter, Firsts(history), key);
      }
      forall key: ProgressKey | key.1 != ""
        ensures ShowsText(run.View(), key, Deltas(Inputs(Firsts(history)), key), NoEnd(Inputs(Firsts(history)), key))
      {
        LoadedProgress(counter, Firsts(history), key);
      }
    }
  }
}
