/** Timeline items as objects: an event makes at most one, and neither renames nor restamps any other. */
module ItemIdentity {
  import opened Common
  import opened EventReducer

  predicate Same(x: Item, y: Item) { x.serial == y.serial && x.stamp == y.stamp }

  ghost predicate Old(items: seq<Item>, y: Item) { exists i | 0 <= i < |items| :: Same(items[i], y) }

  /** Each item of `b` is one of `a`, or the new one, numbered `next` and not stamped yet. */
  ghost predicate From(a: seq<Item>, next: nat, b: seq<Item>) {
    forall i | 0 <= i < |b| :: (b[i].serial == next && b[i].stamp == None) || Old(a, b[i])
  }

  /** Numbers below `next` are used up. */
  ghost predicate Numbered(s: RunState) { forall i | 0 <= i < |s.timeline| :: s.timeline[i].serial < s.next }

  ghost predicate Descends(s: RunState, s': RunState) {
    From(s.timeline, s.next, s'.timeline) && (s'.next == s.next || s'.next == s.next + 1) && (Numbered(s) ==> Numbered(s'))
  }

  lemma SelfFrom(a: seq<Item>, next: nat)
    ensures From(a, next, a)
  {
    forall i | 0 <= i < |a| ensures Old(a, a[i]) { assert Same(a[i], a[i]); }
  }

  lemma PushDescends(s: RunState, x: Item)
    requires x.stamp == None
    ensures Descends(s, Push(s, x))
  {
    SelfFrom(s.timeline, s.next);
  }

  lemma SetDescends(s: RunState, i: nat, x: Item)
    requires i < |s.timeline| && Same(s.timeline[i], x)
    ensures Descends(s, Set(s, i, x))
  {
    SelfFrom(s.timeline, s.next);
    assert Old(s.timeline, x);
  }

  lemma {:induction false} FilterFrom(items: seq<Item>, p: Item -> bool)
    ensures forall y | y in Filter(items, p) :: y in items
  {
    if items != [] { FilterFrom(items[..|items| - 1], p); }
  }

  /** Removing a draft makes nothing new. */
  lemma RemoveDescends(s: RunState, key: ReplyKey)
    ensures Descends(s, RemoveDraft(s, key)) && RemoveDraft(s, key).next == s.next
    ensures forall i | 0 <= i < |RemoveDraft(s, key).timeline| :: Old(s.timeline, RemoveDraft(s, key).timeline[i])
  {
    var t := RemoveDraft(s, key).timeline;
    FilterFrom(s.timeline, NotDraftOf(key));
    forall i | 0 <= i < |t| ensures Old(s.timeline, t[i]) && (Numbered(s) ==> t[i].serial < s.next) {
      assert t[i] in t;
      var j :| 0 <= j < |s.timeline| && s.timeline[j] == t[i];
      assert Same(s.timeline[j], t[i]);
    }
  }

  lemma MapDescends(s: RunState, f: Item -> Item, s': RunState)
    requires s'.timeline == MapItems(s.timeline, f) && s'.next == s.next && forall x: Item :: Same(x, f(x))
    ensures Descends(s, s')
  {
    forall i | 0 <= i < |s'.timeline| ensures Old(s.timeline, s'.timeline[i]) {
      assert Same(s.timeline[i], s'.timeline[i]);
    }
  }

  lemma AddDescends(s: RunState, turn: string, progressId: string, delta: string)
    ensures Descends(s, AddProgress(s, turn, progressId, delta))
  {
    var terminal := ById(turn, progressId) in s.terminal;
    var i := FirstIndex(s.timeline, HasProgress(turn, progressId));
    if i >= 0 {
      var x := s.timeline[i];
      SetDescends(s, i, x.(text := x.text + delta, phase := if terminal then x.phase else Streaming));
    } else {
      PushDescends(s, Blank(Progress, delta, turn).(progressId := progressId, phase := PhaseFor(terminal)));
    }
  }

  lemma ThroughRemoval(s: RunState, s1: RunState, s': RunState)
    requires Descends(s, s1) && s1.next == s.next && Descends(s1, s')
    requires forall i | 0 <= i < |s1.timeline| :: Old(s.timeline, s1.timeline[i])
    ensures Descends(s, s')
  {
    forall i | 0 <= i < |s'.timeline| && Old(s1.timeline, s'.timeline[i]) ensures Old(s.timeline, s'.timeline[i]) {
      var j :| 0 <= j < |s1.timeline| && Same(s1.timeline[j], s'.timeline[i]);
      var k :| 0 <= k < |s.timeline| && Same(s.timeline[k], s1.timeline[j]);
      assert Same(s.timeline[k], s'.timeline[i]);
    }
  }

  /** States that differ in flags and ended progress only. */
  lemma FlagsDescend(s: RunState, s1: RunState, s': RunState)
    requires Descends(s, s1) && s'.timeline == s1.timeline && s'.next == s1.next
    ensures Descends(s, s')
  {
  }

  lemma StaysDescends(s: RunState, s': RunState)
    requires s'.timeline == s.timeline && s'.next == s.next
    ensures Descends(s, s')
  {
    SelfFrom(s.timeline, s.next);
  }

  lemma StartDescends(s: RunState, n: Input)
    ensures Descends(s, OnProgressStart(s, n))
  {
    StaysDescends(s, s);
    var i := FirstIndex(s.timeline, HasPhaseText(n.turn, n.phase, n.summary));
    if i >= 0 {
      SetDescends(s, i, s.timeline[i].(phase := Completed));
    } else {
      PushDescends(s, Blank(Progress, n.summary, n.turn)
                      .(phaseName := n.phase, phase := PhaseFor(PhaseKey(n.turn, n.phase) in s.terminal)));
    }
  }

  lemma DeltaDescends(s: RunState, n: Input)
    ensures Descends(s, OnProgressDelta(s, n))
  {
    StaysDescends(s, s);
    if n.progressId == "" {
      PushDescends(s, Blank(Progress, n.summary, n.turn)
                      .(phaseName := n.phase, phase := PhaseFor(PhaseKey(n.turn, n.phase) in s.terminal)));
    } else if n.delta != "" {
      if n.reply != "" {
        var s1 := RemoveDraft(s, (n.turn, n.reply));
        RemoveDescends(s, (n.turn, n.reply));
        AddDescends(s1, n.turn, n.progressId, n.delta);
        ThroughRemoval(s, s1, OnProgressDelta(s, n));
      } else {
        AddDescends(s, n.turn, n.progressId, n.delta);
      }
    }
  }

  lemma EndDescends(s: RunState, n: Input)
    ensures Descends(s, OnProgressEnd(s, n))
  {
    var s' := OnProgressEnd(s, n);
    if n.progressId != "" {
      var i := FirstIndex(s.timeline, HasProgress(n.turn, n.progressId));
      if i >= 0 {
        SetDescends(s, i, s.timeline[i].(phase := Completed));
        FlagsDescend(s, Set(s, i, s.timeline[i].(phase := Completed)), s');
      } else {
        StaysDescends(s, s');
      }
    } else {
      MapDescends(s, CompletePhase(n.turn, n.phase), s');
    }
  }

  lemma ActionDescends(s: RunState, n: Input)
    ensures Descends(s, OnAction(s, n))
  {
    StaysDescends(s, s);
    var i := LastIndex(s.timeline, HasAction(n.turn, n.actionRef, n.instance));
    if i >= 0 {
      SetDescends(s, i, ActionItem(s.timeline[i], n));
    } else {
      PushDescends(s, ActionItem(Blank(Action, n.actionName, n.turn), n));
    }
  }

  lemma InteractionDescends(s: RunState, n: Input)
    ensures Descends(s, OnInteractionRequired(s, n)) && Descends(s, OnInteractionResolved(s, n))
  {
    StaysDescends(s, s);
    var i := FirstIndex(s.timeline, HasInteraction(n.interactionId));
    if i >= 0 {
      SetDescends(s, i, s.timeline[i].(text := n.question, status := "waiting", interactionId := n.interactionId, turn := n.turn));
      SetDescends(s, i, s.timeline[i].(text := n.resolution, status := "completed"));
    } else {
      PushDescends(s, Blank(Interaction, n.question, n.turn).(status := "waiting", interactionId := n.interactionId));
      PushDescends(s, Blank(Interaction, n.resolution, n.turn).(status := "completed", interactionId := n.interactionId));
    }
  }

  lemma AnswerDescends(s: RunState, n: Input)
    ensures Descends(s, OnAnswerDelta(s, n))
  {
    StaysDescends(s, s);
    var i := FindAssistant(s, n.turn, n.reply);
    if i >= 0 {
      SetDescends(s, i, s.timeline[i].(text := s.timeline[i].text + n.delta));
    } else {
      PushDescends(s, NewAssistant(n.turn, n.reply, n.delta));
    }
  }

  lemma FinalDescends(s: RunState, n: Input)
    ensures Descends(s, OnFinal(s, n))
  {
    StaysDescends(s, OnFinal(s, n).(timeline := s.timeline, next := s.next));
    var i := FindAssistant(s, n.turn, n.reply);
    if i >= 0 {
      SetDescends(s, i, Finished(s.timeline[i], n));
    } else {
      PushDescends(s, Finished(NewAssistant(n.turn, n.reply, n.answer), n));
    }
  }

  lemma PlainDescends(s: RunState, n: Input)
    requires n.typ in {TurnStart, TurnPending, TurnSubmissionFailed, TurnState, Warning, Error, AnswerReset, Ignored}
    ensures Descends(s, Step(s, n))
  {
    StaysDescends(s, Step(s, n).(timeline := s.timeline, next := s.next));
    match n.typ
    case TurnStart => PushDescends(s, Blank(Progress, INITIAL_TEXT, n.turn));
    case Warning => PushDescends(s, Blank(Progress, n.notice, n.turn).(status := "warning"));
    case Error => PushDescends(s, Blank(Progress, n.notice, n.turn).(status := "error"));
    case AnswerReset => RemoveDescends(s, (n.turn, n.reply));
    case _ =>
  }

  /** Every event makes at most one item, with a number never used before, and keeps number and stamp of all others. */
  lemma StepDescends(s: RunState, n: Input)
    ensures Descends(s, Step(s, n))
  {
    match n.typ
    case ProgressStart => StartDescends(s, n);
    case ProgressDelta => DeltaDescends(s, n);
    case ProgressEnd => EndDescends(s, n);
    case ActionStart => ActionDescends(s, n);
    case ActionEnd => ActionDescends(s, n);
    case InteractionRequired => InteractionDescends(s, n);
    case InteractionResolved => InteractionDescends(s, n);
    case AnswerDelta => AnswerDescends(s, n);
    case FinalAnswer => FinalDescends(s, n);
    case _ => PlainDescends(s, n);
  }
}
