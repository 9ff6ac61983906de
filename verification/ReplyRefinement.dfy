/**
 The reducer's assistant items refine one small machine per reply: append, drop, finish.
 */
module ReplyRefinement {
  import opened Common
  import opened EventReducer

  // ------------------------------------------------------------- the machine

  datatype Reply = NoReply | Draft(text: string) | Final(text: string, message: string)

  predicate Owns(key: ReplyKey, n: Input) { n.turn == key.0 && n.reply == key.1 }

  function DropDraft(r: Reply): Reply { if r.Draft? then NoReply else r }

  /** One reply's own life: other replies' and other turns' events do nothing. */
  function Machine(r: Reply, n: Input, key: ReplyKey): Reply {
    if !Owns(key, n) then r
    else if n.typ == AnswerReset || (n.typ == ProgressDelta && n.progressId != "" && n.delta != "") then DropDraft(r)
    else if n.typ == AnswerDelta && n.delta != "" then
      (match r
       case NoReply => Draft(n.delta)
       case Draft(before) => Draft(before + n.delta)
       case Final(_, _) => r)
    else if n.typ == FinalAnswer && !n.answerIsBlank then
      Final(n.answer, Either(n.message, if r.Final? then r.message else ""))
    else r
  }

  function MachineAll(inputs: seq<Input>, key: ReplyKey): Reply {
    if inputs == [] then NoReply
    else Machine(MachineAll(inputs[..|inputs| - 1], key), inputs[|inputs| - 1], key)
  }

  /** The machine run on from a given state of the reply. */
  function MachineFrom(r: Reply, inputs: seq<Input>, key: ReplyKey): Reply
    decreases |inputs|
  {
    if inputs == [] then r else MachineFrom(Machine(r, inputs[0], key), inputs[1..], key)
  }

  lemma {:induction false} MachineFromLast(r: Reply, inputs: seq<Input>, key: ReplyKey)
    requires inputs != []
    ensures MachineFrom(r, inputs, key) == Machine(MachineFrom(r, inputs[..|inputs| - 1], key), inputs[|inputs| - 1], key)
    decreases |inputs|
  {
    var n := |inputs| - 1;
    if n > 0 {
      MachineFromLast(Machine(r, inputs[0], key), inputs[1..], key);
      assert inputs[1..][..n - 1] == inputs[..n][1..] && inputs[1..][n - 1] == inputs[n];
    }
  }

  lemma {:induction false} MachineFromStart(inputs: seq<Input>, key: ReplyKey)
    ensures MachineFrom(NoReply, inputs, key) == MachineAll(inputs, key)
  {
    if inputs != [] {
      MachineFromLast(NoReply, inputs, key);
      MachineFromStart(inputs[..|inputs| - 1], key);
    }
  }

  function View(x: Item): Reply {
    if x.status == "final" then Final(x.text, x.finalMessageId) else Draft(x.text)
  }

  function Replies(s: RunState, key: ReplyKey): seq<Item> { Filter(s.timeline, HasKey(key)) }

  /** The timeline shows exactly this reply: no item, or one item with this text and status. */
  predicate Shows(s: RunState, key: ReplyKey, r: Reply) {
    var items := Replies(s, key);
    if r.NoReply? then items == [] else |items| == 1 && View(items[0]) == r
  }

  /** An answer event that names no reply, in this turn. */
  predicate Anonymous(n: Input, turn: string) {
    (n.typ == AnswerDelta || n.typ == FinalAnswer) && n.turn == turn && n.reply == ""
  }

  ghost predicate ShowsOk(s: RunState, key: ReplyKey, r: Reply) { Consistent(s) && Shows(s, key, r) }

  // ------------------------------------------------------------------ filters

  lemma FilterPush(items: seq<Item>, x: Item, p: Item -> bool)
    ensures Filter(items + [x], p) == if p(x) then Filter(items, p) + [x] else Filter(items, p)
  {
    assert (items + [x])[..|items|] == items;
  }

  lemma {:induction false} FilterSet(items: seq<Item>, i: nat, x: Item, p: Item -> bool)
    requires i < |items| && !p(items[i]) && !p(x)
    ensures Filter(items[i := x], p) == Filter(items, p)
  {
    var n := |items| - 1;
    if i < n {
      FilterSet(items[..n], i, x, p);
      assert items[i := x][..n] == items[..n][i := x];
    } else {
      assert items[i := x][..n] == items[..n];
    }
  }

  lemma {:induction false} FilterNone(items: seq<Item>, p: Item -> bool)
    ensures Filter(items, p) == [] <==> forall j | 0 <= j < |items| :: !p(items[j])
  {
    if items != [] {
      var n := |items| - 1;
      FilterNone(items[..n], p);
      if p(items[n]) {
        assert |Filter(items, p)| > 0;
      } else {
        assert forall j | 0 <= j < |items| :: j < n ==> items[j] == items[..n][j];
        assert Filter(items, p) == Filter(items[..n], p);
      }
    }
  }

  lemma {:induction false} FilterOne(items: seq<Item>, i: nat, p: Item -> bool)
    requires i < |items| && p(items[i]) && forall j | 0 <= j < |items| && j != i :: !p(items[j])
    ensures Filter(items, p) == [items[i]]
  {
    var n := |items| - 1;
    if i < n {
      FilterOne(items[..n], i, p);
    } else {
      FilterNone(items[..n], p);
    }
  }

  /** If at most one item satisfies `p`, it is the one found from the end. */
  lemma {:induction false} LastIsOnly(items: seq<Item>, p: Item -> bool)
    requires |Filter(items, p)| <= 1
    ensures var i := LastIndex(items, p);
            Filter(items, p) == (if i < 0 then [] else [items[i]])
            && forall j | 0 <= j < |items| && j != i :: !p(items[j])
  {
    var i := LastIndex(items, p);
    if i < 0 {
      FilterNone(items, p);
    } else if i == |items| - 1 {
      FilterNone(items[..i], p);
      assert forall j | 0 <= j < i :: items[j] == items[..i][j];
    } else {
      var n := |items| - 1;
      LastIsOnly(items[..n], p);
      assert LastIndex(items[..n], p) == i;
    }
  }

  lemma {:induction false} FilterCommutes(items: seq<Item>, p: Item -> bool, q: Item -> bool)
    ensures Filter(Filter(items, q), p) == Filter(Filter(items, p), q)
  {
    if items != [] {
      var n := |items| - 1;
      FilterCommutes(items[..n], p, q);
      if q(items[n]) { FilterPush(Filter(items[..n], q), items[n], p); }
      if p(items[n]) { FilterPush(Filter(items[..n], p), items[n], q); }
    }
  }

  lemma {:induction false} FilterImplied(items: seq<Item>, p: Item -> bool, q: Item -> bool)
    requires forall x :: p(x) ==> q(x)
    ensures Filter(Filter(items, q), p) == Filter(items, p)
  {
    if items != [] {
      var n := |items| - 1;
      FilterImplied(items[..n], p, q);
      if q(items[n]) { FilterPush(Filter(items[..n], q), items[n], p); }
    }
  }

  lemma {:induction false} FilterMap(items: seq<Item>, f: Item -> Item, p: Item -> bool)
    requires forall x :: p(f(x)) == p(x) && (p(x) ==> f(x) == x)
    ensures Filter(MapItems(items, f), p) == Filter(items, p)
  {
    if items != [] {
      var n := |items| - 1;
      FilterMap(items[..n], f, p);
      assert MapItems(items, f)[..n] == MapItems(items[..n], f);
    }
  }

  // ---------------------------------------------------------- item consistency

  /** An assistant item's key agrees with its turn and reply, and only final items carry a message id. */
  predicate ItemOk(x: Item) {
    x.kind == Assistant ==>
      x.replyKey == (if x.replyId == "" then None else Some((x.turn, x.replyId)))
      && (x.status != "final" ==> x.finalMessageId == "")
  }

  ghost predicate Consistent(s: RunState) { forall i | 0 <= i < |s.timeline| :: ItemOk(s.timeline[i]) }

  lemma {:induction false} FilterConsistent(items: seq<Item>, p: Item -> bool)
    requires forall i | 0 <= i < |items| :: ItemOk(items[i])
    ensures forall i | 0 <= i < |Filter(items, p)| :: ItemOk(Filter(items, p)[i])
  {
    if items != [] { FilterConsistent(items[..|items| - 1], p); }
  }

  // ------------------------------------------------------ events without answers

  /** A change that neither adds, removes nor rewrites an assistant item. */
  ghost predicate Neutral(a: seq<Item>, b: seq<Item>) {
    a == b
    || (exists x: Item :: x.kind != Assistant && b == a + [x])
    || (exists i: nat, x: Item :: i < |a| && a[i].kind != Assistant && x.kind != Assistant && b == a[i := x])
  }

  lemma PushIsNeutral(s: RunState, x: Item)
    requires x.kind != Assistant
    ensures Neutral(s.timeline, Push(s, x).timeline)
  {
    assert x.(serial := s.next).kind != Assistant;
  }

  lemma SetIsNeutral(s: RunState, i: nat, x: Item)
    requires i < |s.timeline| && s.timeline[i].kind != Assistant && x.kind != Assistant
    ensures Neutral(s.timeline, Set(s, i, x).timeline)
  {
  }

  lemma NeutralKeepsReplies(a: seq<Item>, b: seq<Item>, key: ReplyKey)
    requires Neutral(a, b)
    ensures Filter(b, HasKey(key)) == Filter(a, HasKey(key))
    ensures (forall i | 0 <= i < |a| :: ItemOk(a[i])) ==> forall i | 0 <= i < |b| :: ItemOk(b[i])
  {
    if x: Item :| x.kind != Assistant && b == a + [x] {
      FilterPush(a, x, HasKey(key));
    } else if i: nat, x: Item :| i < |a| && a[i].kind != Assistant && x.kind != Assistant && b == a[i := x] {
      FilterSet(a, i, x, HasKey(key));
    }
  }

  lemma ProgressStartIsNeutral(s: RunState, n: Input)
    ensures Neutral(s.timeline, OnProgressStart(s, n).timeline)
  {
    var i := FirstIndex(s.timeline, HasPhaseText(n.turn, n.phase, n.summary));
    if i < 0 {
      PushIsNeutral(s, Blank(Progress, n.summary, n.turn)
                       .(phaseName := n.phase, phase := PhaseFor(PhaseKey(n.turn, n.phase) in s.terminal)));
    } else {
      SetIsNeutral(s, i, s.timeline[i].(phase := Completed));
    }
  }

  lemma AddProgressIsNeutral(s: RunState, turn: string, progressId: string, delta: string)
    ensures Neutral(s.timeline, AddProgress(s, turn, progressId, delta).timeline)
  {
    var i := FirstIndex(s.timeline, HasProgress(turn, progressId));
    var terminal := ById(turn, progressId) in s.terminal;
    if i < 0 {
      PushIsNeutral(s, Blank(Progress, delta, turn).(progressId := progressId, phase := PhaseFor(terminal)));
    } else {
      var x := s.timeline[i];
      SetIsNeutral(s, i, x.(text := x.text + delta, phase := if terminal then x.phase else Streaming));
    }
  }

  lemma ActionIsNeutral(s: RunState, n: Input)
    ensures Neutral(s.timeline, OnAction(s, n).timeline)
  {
    if n.actionRef != "" {
      var i := LastIndex(s.timeline, HasAction(n.turn, n.actionRef, n.instance));
      var t := OnAction(s, n).timeline;
      if i < 0 {
        assert t == s.timeline + [t[|s.timeline|]] && t[|s.timeline|].kind == Action;
      } else {
        assert t == s.timeline[i := t[i]] && t[i].kind == Action;
      }
    }
  }

  lemma InteractionIsNeutral(s: RunState, n: Input)
    ensures Neutral(s.timeline, OnInteractionRequired(s, n).timeline)
    ensures Neutral(s.timeline, OnInteractionResolved(s, n).timeline)
  {
    if n.interactionId != "" {
      var i := FirstIndex(s.timeline, HasInteraction(n.interactionId));
      var t, u := OnInteractionRequired(s, n).timeline, OnInteractionResolved(s, n).timeline;
      if i < 0 {
        assert t == s.timeline + [t[|s.timeline|]] && t[|s.timeline|].kind == Interaction;
        assert u == s.timeline + [u[|s.timeline|]] && u[|s.timeline|].kind == Interaction;
      } else {
        assert t == s.timeline[i := t[i]] && t[i].kind == Interaction;
        assert u == s.timeline[i := u[i]] && u[i].kind == Interaction;
      }
    }
  }

  predicate TouchesAnswers(typ: EventType) { typ in {AnswerReset, AnswerDelta, FinalAnswer, ProgressDelta, ProgressEnd} }

  lemma OthersAreNeutral(s: RunState, n: Input)
    requires !TouchesAnswers(n.typ)
    ensures Neutral(s.timeline, Step(s, n).timeline)
  {
    match n.typ
    case TurnStart => PushIsNeutral(s, Blank(Progress, INITIAL_TEXT, n.turn));
    case ProgressStart => ProgressStartIsNeutral(s, n);
    case ActionStart => ActionIsNeutral(s, n);
    case ActionEnd => ActionIsNeutral(s, n);
    case InteractionRequired => InteractionIsNeutral(s, n);
    case InteractionResolved => InteractionIsNeutral(s, n);
    case Warning => PushIsNeutral(s, Blank(Progress, n.notice, n.turn).(status := "warning"));
    case Error => PushIsNeutral(s, Blank(Progress, n.notice, n.turn).(status := "error"));
    case _ =>
  }

  // -------------------------------------------------------------- answer events

  lemma {:induction false} FilterKeeps(items: seq<Item>, p: Item -> bool)
    ensures forall i | 0 <= i < |Filter(items, p)| :: p(Filter(items, p)[i])
  {
    if items != [] { FilterKeeps(items[..|items| - 1], p); }
  }

  lemma FilterSingle(x: Item, p: Item -> bool)
    ensures Filter([x], p) == if p(x) then [x] else []
  {
    FilterPush([], x, p);
    assert [] + [x] == [x];
  }

  /** Of the items of one reply, at most one, dropping the draft leaves what the machine says. */
  lemma DropFromOwn(items: seq<Item>, key: ReplyKey, r: Reply)
    requires if r.NoReply? then items == [] else |items| == 1 && View(items[0]) == r
    requires forall i | 0 <= i < |items| :: HasKey(key)(items[i])
    ensures var left, r' := Filter(items, NotDraftOf(key)), DropDraft(r);
            if r'.NoReply? then left == [] else |left| == 1 && View(left[0]) == r'
  {
    if r != NoReply {
      assert HasKey(key)(items[0]) && items == [items[0]];
      FilterSingle(items[0], NotDraftOf(key));
    }
  }

  lemma DropOwn(s: RunState, key: ReplyKey, r: Reply)
    requires Shows(s, key, r)
    ensures Shows(RemoveDraft(s, key), key, DropDraft(r))
  {
    FilterCommutes(s.timeline, HasKey(key), NotDraftOf(key));
    FilterKeeps(s.timeline, HasKey(key));
    DropFromOwn(Replies(s, key), key, r);
  }

  lemma DropRefines(s: RunState, dropped: ReplyKey, key: ReplyKey, r: Reply)
    requires Consistent(s) && Shows(s, key, r)
    ensures var s' := RemoveDraft(s, dropped);
            Consistent(s') && Shows(s', key, if dropped == key then DropDraft(r) else r)
  {
    FilterConsistent(s.timeline, NotDraftOf(dropped));
    if dropped == key {
      DropOwn(s, key, r);
    } else {
      FilterImplied(s.timeline, HasKey(key), NotDraftOf(dropped));
    }
  }

  lemma ProgressDeltaRefines(s: RunState, n: Input, key: ReplyKey, r: Reply)
    requires Consistent(s) && Shows(s, key, r) && n.typ == ProgressDelta && key.1 != ""
    ensures ShowsOk(OnProgressDelta(s, n), key, Machine(r, n, key))
  {
    if n.progressId == "" {
      SummaryKeepsReplies(s, n, key, r);
    } else if n.delta != "" {
      if n.reply != "" { DropRefines(s, (n.turn, n.reply), key, r); }
      var s1 := if n.reply != "" then RemoveDraft(s, (n.turn, n.reply)) else s;
      AddProgressIsNeutral(s1, n.turn, n.progressId, n.delta);
      NeutralShows(s1, OnProgressDelta(s, n), key, Machine(r, n, key));
    }
  }

  lemma NeutralShows(s: RunState, s': RunState, key: ReplyKey, r: Reply)
    requires ShowsOk(s, key, r) && Neutral(s.timeline, s'.timeline)
    ensures ShowsOk(s', key, r)
  {
    NeutralKeepsReplies(s.timeline, s'.timeline, key);
  }

  /** A delta without a progress id only adds a summary. */
  lemma SummaryKeepsReplies(s: RunState, n: Input, key: ReplyKey, r: Reply)
    requires ShowsOk(s, key, r) && n.typ == ProgressDelta && n.progressId == ""
    ensures ShowsOk(OnProgressDelta(s, n), key, Machine(r, n, key))
  {
    PushIsNeutral(s, Blank(Progress, n.summary, n.turn)
                     .(phaseName := n.phase, phase := PhaseFor(PhaseKey(n.turn, n.phase) in s.terminal)));
    NeutralShows(s, OnProgressDelta(s, n), key, r);
  }

  lemma CompletionKeepsReplies(items: seq<Item>, turn: string, phase: string, key: ReplyKey)
    ensures Filter(MapItems(items, CompletePhase(turn, phase)), HasKey(key)) == Filter(items, HasKey(key))
    ensures (forall i | 0 <= i < |items| :: ItemOk(items[i])) ==>
              forall i | 0 <= i < |items| :: ItemOk(MapItems(items, CompletePhase(turn, phase))[i])
  {
    FilterMap(items, CompletePhase(turn, phase), HasKey(key));
  }

  lemma ProgressEndRefines(s: RunState, n: Input, key: ReplyKey, r: Reply)
    requires Consistent(s) && Shows(s, key, r) && n.typ == ProgressEnd
    ensures ShowsOk(OnProgressEnd(s, n), key, Machine(r, n, key))
  {
    if n.progressId != "" {
      var i := FirstIndex(s.timeline, HasProgress(n.turn, n.progressId));
      if i >= 0 {
        SetIsNeutral(s, i, s.timeline[i].(phase := Completed));
        NeutralKeepsReplies(s.timeline, OnProgressEnd(s, n).timeline, key);
      }
    } else {
      CompletionKeepsReplies(s.timeline, n.turn, n.phase, key);
    }
  }

  /** Rewriting the assistant item an event finds changes no reply but the one the event names. */
  lemma RewriteFound(s: RunState, n: Input, x: Item, i: int, key: ReplyKey)
    requires Consistent(s) && 0 <= i == FindAssistant(s, n.turn, n.reply) && !(n.reply == "" && n.turn == key.0)
    requires x.kind == Assistant && ItemOk(x) && x.turn == s.timeline[i].turn && x.replyId == s.timeline[i].replyId
    requires |Replies(s, key)| <= 1 && key.1 != ""
    ensures Owns(key, n) ==> Replies(s, key) == [s.timeline[i]] && Replies(Set(s, i, x), key) == [x]
    ensures !Owns(key, n) ==> Replies(Set(s, i, x), key) == Replies(s, key)
  {
    var p := HasKey(key);
    var before := s.timeline[i];
    assert ItemOk(before) && before.kind == Assistant && before.turn == n.turn;
    assert p(before) <==> Owns(key, n);
    assert p(x) <==> p(before);
    if Owns(key, n) {
      LastIsOnly(s.timeline, p);
      FilterOne(s.timeline[i := x], i, p);
    } else {
      FilterSet(s.timeline, i, x, p);
    }
  }

  lemma PushNew(s: RunState, n: Input, x: Item, key: ReplyKey)
    requires Consistent(s) && FindAssistant(s, n.turn, n.reply) < 0 && !(n.reply == "" && n.turn == key.0)
    requires x.kind == Assistant && ItemOk(x) && x.turn == n.turn && x.replyId == n.reply && key.1 != ""
    ensures Owns(key, n) ==> Replies(s, key) == [] && Replies(Push(s, x), key) == [x.(serial := s.next)]
    ensures !Owns(key, n) ==> Replies(Push(s, x), key) == Replies(s, key)
  {
    var p := HasKey(key);
    FilterPush(s.timeline, x.(serial := s.next), p);
    if Owns(key, n) { FilterNone(s.timeline, p); }
  }

  lemma SetConsistent(s: RunState, i: nat, x: Item)
    requires Consistent(s) && i < |s.timeline| && ItemOk(x)
    ensures Consistent(Set(s, i, x))
  {
  }

  lemma PushConsistent(s: RunState, x: Item)
    requires Consistent(s) && ItemOk(x)
    ensures Consistent(Push(s, x))
  {
  }

  /** Only the timeline decides what is shown. */
  lemma SameTimelineShows(s: RunState, s': RunState, key: ReplyKey, r: Reply)
    requires ShowsOk(s, key, r) && s'.timeline == s.timeline
    ensures ShowsOk(s', key, r)
  {
  }

  lemma RewriteShows(s: RunState, n: Input, x: Item, i: int, key: ReplyKey, r: Reply)
    requires ShowsOk(s, key, r) && 0 <= i == FindAssistant(s, n.turn, n.reply) && !(n.reply == "" && n.turn == key.0)
    requires x.kind == Assistant && ItemOk(x) && x.turn == s.timeline[i].turn && x.replyId == s.timeline[i].replyId
    requires key.1 != ""
    ensures ShowsOk(Set(s, i, x), key, if Owns(key, n) then View(x) else r)
    ensures Owns(key, n) ==> r == View(s.timeline[i])
  {
    SetConsistent(s, i, x);
    RewriteFound(s, n, x, i, key);
  }

  lemma PushShows(s: RunState, n: Input, x: Item, key: ReplyKey, r: Reply)
    requires ShowsOk(s, key, r) && FindAssistant(s, n.turn, n.reply) < 0 && !(n.reply == "" && n.turn == key.0)
    requires x.kind == Assistant && ItemOk(x) && x.turn == n.turn && x.replyId == n.reply && key.1 != ""
    ensures ShowsOk(Push(s, x), key, if Owns(key, n) then View(x) else r)
    ensures Owns(key, n) ==> r == NoReply
  {
    PushConsistent(s, x);
    PushNew(s, n, x, key);
  }

  lemma AnswerDeltaRefines(s: RunState, n: Input, key: ReplyKey, r: Reply)
    requires ShowsOk(s, key, r) && n.typ == AnswerDelta && key.1 != "" && !Anonymous(n, key.0)
    ensures ShowsOk(OnAnswerDelta(s, n), key, Machine(r, n, key))
  {
    var i := FindAssistant(s, n.turn, n.reply);
    if n.delta != "" {
      if i < 0 {
        var x := NewAssistant(n.turn, n.reply, n.delta);
        PushShows(s, n, x, key, r);
        SameTimelineShows(Push(s, x), OnAnswerDelta(s, n), key, if Owns(key, n) then View(x) else r);
      } else {
        var x := s.timeline[i].(text := s.timeline[i].text + n.delta);
        assert ItemOk(s.timeline[i]);
        RewriteShows(s, n, x, i, key, r);
        if s.timeline[i].status != "final" {
          SameTimelineShows(Set(s, i, x), OnAnswerDelta(s, n), key, if Owns(key, n) then View(x) else r);
        }
      }
    }
  }

  lemma FinalRefines(s: RunState, n: Input, key: ReplyKey, r: Reply)
    requires ShowsOk(s, key, r) && n.typ == FinalAnswer && key.1 != "" && !Anonymous(n, key.0)
    ensures ShowsOk(OnFinal(s, n), key, Machine(r, n, key))
  {
    var i := FindAssistant(s, n.turn, n.reply);
    if !n.answerIsBlank && i >= 0 {
      var x := Finished(s.timeline[i], n);
      assert ItemOk(s.timeline[i]);
      RewriteShows(s, n, x, i, key, r);
      SameTimelineShows(Set(s, i, x), OnFinal(s, n), key, if Owns(key, n) then View(x) else r);
    } else if !n.answerIsBlank {
      var x := Finished(NewAssistant(n.turn, n.reply, n.answer), n);
      PushShows(s, n, x, key, r);
      SameTimelineShows(Push(s, x), OnFinal(s, n), key, if Owns(key, n) then View(x) else r);
    }
  }

  // ------------------------------------------------------------------- theorems

  lemma OthersRefine(s: RunState, n: Input, key: ReplyKey, r: Reply)
    requires Consistent(s) && Shows(s, key, r) && !TouchesAnswers(n.typ)
    ensures ShowsOk(Step(s, n), key, Machine(r, n, key))
  {
    OthersAreNeutral(s, n);
    NeutralKeepsReplies(s.timeline, Step(s, n).timeline, key);
  }

  /** Each event moves the reply's item exactly as its machine says. */
  lemma StepRefines(s: RunState, n: Input, key: ReplyKey, r: Reply)
    requires Consistent(s) && Shows(s, key, r) && key.1 != "" && !Anonymous(n, key.0)
    ensures ShowsOk(Step(s, n), key, Machine(r, n, key))
  {
    if !TouchesAnswers(n.typ) {
      OthersRefine(s, n, key, r);
    } else if n.typ == AnswerReset {
      ResetRefines(s, n, key, r);
    } else if n.typ == AnswerDelta {
      DeltaStepRefines(s, n, key, r);
    } else if n.typ == FinalAnswer {
      FinalStepRefines(s, n, key, r);
    } else {
      ProgressRefines(s, n, key, r);
    }
  }

  lemma DeltaStepRefines(s: RunState, n: Input, key: ReplyKey, r: Reply)
    requires ShowsOk(s, key, r) && n.typ == AnswerDelta && key.1 != "" && !Anonymous(n, key.0)
    ensures ShowsOk(Step(s, n), key, Machine(r, n, key))
  {
    AnswerDeltaRefines(s, n, key, r);
  }

  lemma FinalStepRefines(s: RunState, n: Input, key: ReplyKey, r: Reply)
    requires ShowsOk(s, key, r) && n.typ == FinalAnswer && key.1 != "" && !Anonymous(n, key.0)
    ensures ShowsOk(Step(s, n), key, Machine(r, n, key))
  {
    FinalRefines(s, n, key, r);
  }

  lemma ProgressRefines(s: RunState, n: Input, key: ReplyKey, r: Reply)
    requires Consistent(s) && Shows(s, key, r) && key.1 != ""
    requires n.typ == ProgressDelta || n.typ == ProgressEnd
    ensures ShowsOk(Step(s, n), key, Machine(r, n, key))
  {
    match n.typ
    case ProgressDelta => ProgressDeltaRefines(s, n, key, r);
    case ProgressEnd => ProgressEndRefines(s, n, key, r);
  }

  lemma ResetRefines(s: RunState, n: Input, key: ReplyKey, r: Reply)
    requires Consistent(s) && Shows(s, key, r) && n.typ == AnswerReset && key.1 != ""
    ensures ShowsOk(Step(s, n), key, Machine(r, n, key))
  {
    if n.reply != "" { DropRefines(s, (n.turn, n.reply), key, r); }
  }

  /**
   In a turn whose answer events all name a reply, the timeline shows for each reply exactly what its
   machine computes, whatever other events interleave; in particular at most one item per reply.
   */
  lemma {:induction false} ReducerRefinesMachine(inputs: seq<Input>, key: ReplyKey)
    requires key.1 != "" && forall i | 0 <= i < |inputs| :: !Anonymous(inputs[i], key.0)
    ensures Consistent(StepAll(EMPTY, inputs)) && Shows(StepAll(EMPTY, inputs), key, MachineAll(inputs, key))
    ensures |Replies(StepAll(EMPTY, inputs), key)| <= 1
  {
    if inputs != [] {
      var n := |inputs| - 1;
      ReducerRefinesMachine(inputs[..n], key);
      StepRefines(StepAll(EMPTY, inputs[..n]), inputs[n], key, MachineAll(inputs[..n], key));
    }
  }

  function Own(inputs: seq<Input>, key: ReplyKey): seq<Input> {
    if inputs == [] then []
    else if Owns(key, inputs[|inputs| - 1]) then Own(inputs[..|inputs| - 1], key) + [inputs[|inputs| - 1]]
    else Own(inputs[..|inputs| - 1], key)
  }

  /** The machine depends on the reply's own events alone. */
  lemma {:induction false} MachineReadsOwnEvents(inputs: seq<Input>, key: ReplyKey)
    ensures MachineAll(inputs, key) == MachineAll(Own(inputs, key), key)
  {
    if inputs != [] {
      var n := |inputs| - 1;
      MachineReadsOwnEvents(inputs[..n], key);
      if Owns(key, inputs[n]) {
        assert Own(inputs, key)[..|Own(inputs, key)| - 1] == Own(inputs[..n], key);
      }
    }
  }

  /** In a turn whose answer events all name a reply, a final item is never removed, doubled or appended to. */
  lemma FinalItemKept(inputs: seq<Input>, more: seq<Input>, key: ReplyKey)
    requires key.1 != "" && forall i | 0 <= i < |inputs + more| :: !Anonymous((inputs + more)[i], key.0)
    requires Replies(StepAll(EMPTY, inputs), key) != [] && Replies(StepAll(EMPTY, inputs), key)[0].status == "final"
    ensures var kept := Replies(StepAll(EMPTY, inputs + more), key);
            |kept| == 1 && kept[0].status == "final"
            && ((forall i | 0 <= i < |more| :: !(Owns(key, more[i]) && more[i].typ == FinalAnswer)) ==>
                  kept[0].text == Replies(StepAll(EMPTY, inputs), key)[0].text)
  {
    assert forall i | 0 <= i < |inputs| :: inputs[i] == (inputs + more)[i];
    ReducerRefinesMachine(inputs, key);
    ReducerRefinesMachine(inputs + more, key);
    FinalStaysFinal(inputs, more, key);
  }

  /** Once final, a reply stays final, and only another final answer of its own changes it. */
  lemma {:induction false} FinalStaysFinal(inputs: seq<Input>, more: seq<Input>, key: ReplyKey)
    requires MachineAll(inputs, key).Final?
    ensures MachineAll(inputs + more, key).Final?
    ensures (forall i | 0 <= i < |more| :: !(Owns(key, more[i]) && more[i].typ == FinalAnswer)) ==>
              MachineAll(inputs + more, key) == MachineAll(inputs, key)
  {
    if more == [] {
      assert inputs + more == inputs;
    } else {
      var n := |more| - 1;
      FinalStaysFinal(inputs, more[..n], key);
      var all := inputs + more;
      assert all[..|all| - 1] == inputs + more[..n] && all[|all| - 1] == more[n];
    }
  }

  // ----------------------------------------------------- exactly when it holds

  /** An anonymous answer event would rewrite this very reply's item: it comes last in the turn and changes. */
  ghost predicate Hijacks(s: RunState, n: Input, key: ReplyKey) {
    var i := LastIndex(s.timeline, InTurn(key.0));
    Anonymous(n, key.0) && i >= 0 && HasKey(key)(s.timeline[i])
    && ((n.typ == AnswerDelta && n.delta != "" && s.timeline[i].status != "final")
        || (n.typ == FinalAnswer && !n.answerIsBlank && View(Finished(s.timeline[i], n)) != View(s.timeline[i])))
  }

  /** What an anonymous rewrite of the turn's last assistant item does to a reply. */
  lemma AnonymousRewrite(s: RunState, x: Item, i: int, key: ReplyKey, r: Reply)
    requires Consistent(s) && Shows(s, key, r) && key.1 != ""
    requires 0 <= i == LastIndex(s.timeline, InTurn(key.0))
    requires x.kind == Assistant && ItemOk(x) && x.turn == s.timeline[i].turn && x.replyId == s.timeline[i].replyId
    ensures Consistent(Set(s, i, x))
    ensures Shows(Set(s, i, x), key, r) <==> !HasKey(key)(s.timeline[i]) || View(x) == View(s.timeline[i])
  {
    var p := HasKey(key);
    SetConsistent(s, i, x);
    assert ItemOk(s.timeline[i]) && (p(x) <==> p(s.timeline[i]));
    if p(s.timeline[i]) {
      LastIsOnly(s.timeline, p);
      FilterOne(s.timeline[i := x], i, p);
    } else {
      FilterSet(s.timeline, i, x, p);
    }
  }

  lemma AnonymousPush(s: RunState, x: Item, key: ReplyKey, r: Reply)
    requires Consistent(s) && Shows(s, key, r) && key.1 != "" && x.kind == Assistant && ItemOk(x) && x.replyId == ""
    ensures Consistent(Push(s, x)) && Shows(Push(s, x), key, r)
  {
    PushConsistent(s, x);
    FilterPush(s.timeline, x.(serial := s.next), HasKey(key));
  }

  /** The event's handling of an anonymous answer keeps what `r` says exactly when it is no hijack. */
  ghost predicate ShowsUnlessHijacked(s: RunState, n: Input, s': RunState, key: ReplyKey, r: Reply) {
    Consistent(s') && (Shows(s', key, r) <==> !Hijacks(s, n, key))
  }

  lemma AnonymousDelta(s: RunState, n: Input, key: ReplyKey, r: Reply)
    requires Consistent(s) && Shows(s, key, r) && key.1 != "" && Anonymous(n, key.0) && n.typ == AnswerDelta
    ensures ShowsUnlessHijacked(s, n, OnAnswerDelta(s, n), key, r)
  {
    var i := FindAssistant(s, n.turn, n.reply);
    if n.delta != "" {
      if i < 0 {
        AnonymousPush(s, NewAssistant(n.turn, "", n.delta), key, r);
      } else if s.timeline[i].status != "final" {
        assert ItemOk(s.timeline[i]);
        AnonymousRewrite(s, s.timeline[i].(text := s.timeline[i].text + n.delta), i, key, r);
      }
    }
  }

  lemma AnonymousFinal(s: RunState, n: Input, key: ReplyKey, r: Reply)
    requires Consistent(s) && Shows(s, key, r) && key.1 != "" && Anonymous(n, key.0) && n.typ == FinalAnswer
    ensures ShowsUnlessHijacked(s, n, OnFinal(s, n), key, r)
  {
    var i := FindAssistant(s, n.turn, n.reply);
    if !n.answerIsBlank {
      if i < 0 {
        AnonymousPush(s, Finished(NewAssistant(n.turn, "", n.answer), n), key, r);
      } else {
        assert ItemOk(s.timeline[i]);
        AnonymousRewrite(s, Finished(s.timeline[i], n), i, key, r);
      }
    }
  }

  lemma AnonymousDeltaStep(s: RunState, n: Input, key: ReplyKey, r: Reply)
    requires Consistent(s) && Shows(s, key, r) && key.1 != "" && Anonymous(n, key.0) && n.typ == AnswerDelta
    ensures ShowsUnlessHijacked(s, n, Step(s, n), key, Machine(r, n, key))
  {
    assert Machine(r, n, key) == r;
    AnonymousDelta(s, n, key, r);
  }

  lemma AnonymousFinalStep(s: RunState, n: Input, key: ReplyKey, r: Reply)
    requires Consistent(s) && Shows(s, key, r) && key.1 != "" && Anonymous(n, key.0) && n.typ == FinalAnswer
    ensures ShowsUnlessHijacked(s, n, Step(s, n), key, Machine(r, n, key))
  {
    assert Machine(r, n, key) == r;
    AnonymousFinal(s, n, key, r);
  }

  lemma StepRefinesExactly(s: RunState, n: Input, key: ReplyKey, r: Reply)
    requires Consistent(s) && Shows(s, key, r) && key.1 != ""
    ensures ShowsUnlessHijacked(s, n, Step(s, n), key, Machine(r, n, key))
  {
    if !Anonymous(n, key.0) {
      StepRefines(s, n, key, r);
    } else {
      if n.typ == AnswerDelta { AnonymousDeltaStep(s, n, key, r); } else { AnonymousFinalStep(s, n, key, r); }
    }
  }

  /** After `k` events the timeline shows what the machine computes. */
  ghost predicate RefinesAt(inputs: seq<Input>, key: ReplyKey, k: nat)
    requires k <= |inputs|
  {
    Shows(StepAll(EMPTY, inputs[..k]), key, MachineAll(inputs[..k], key))
  }

  ghost predicate HijackedAt(inputs: seq<Input>, key: ReplyKey, k: nat)
    requires k < |inputs|
  {
    Hijacks(StepAll(EMPTY, inputs[..k]), inputs[k], key)
  }

  ghost predicate RefinesThroughout(inputs: seq<Input>, key: ReplyKey) {
    forall k: nat | k <= |inputs| :: RefinesAt(inputs, key, k)
  }

  ghost predicate NeverHijacked(inputs: seq<Input>, key: ReplyKey) {
    forall k: nat | k < |inputs| :: !HijackedAt(inputs, key, k)
  }

  lemma StepAt(inputs: seq<Input>, key: ReplyKey, k: nat)
    requires k < |inputs| && key.1 != "" && RefinesAt(inputs, key, k) && Consistent(StepAll(EMPTY, inputs[..k]))
    ensures Consistent(StepAll(EMPTY, inputs[..k + 1])) && (RefinesAt(inputs, key, k + 1) <==> !HijackedAt(inputs, key, k))
  {
    assert inputs[..k + 1][..k] == inputs[..k];
    StepRefinesExactly(StepAll(EMPTY, inputs[..k]), inputs[k], key, MachineAll(inputs[..k], key));
  }

  lemma {:induction false} Along(inputs: seq<Input>, key: ReplyKey, k: nat)
    requires k <= |inputs| && key.1 != "" && (RefinesThroughout(inputs, key) || NeverHijacked(inputs, key))
    ensures RefinesAt(inputs, key, k) && Consistent(StepAll(EMPTY, inputs[..k]))
  {
    if k > 0 {
      Along(inputs, key, k - 1);
      StepAt(inputs, key, k - 1);
    }
  }

  /** For every run at all: the refinement holds throughout exactly when no anonymous answer hijacks the reply. */
  lemma RefinementIsExact(inputs: seq<Input>, key: ReplyKey)
    requires key.1 != ""
    ensures RefinesThroughout(inputs, key) <==> NeverHijacked(inputs, key)
  {
    if RefinesThroughout(inputs, key) {
      forall k: nat | k < |inputs| ensures !HijackedAt(inputs, key, k) {
        Along(inputs, key, k);
        StepAt(inputs, key, k);
        assert RefinesAt(inputs, key, k + 1);
      }
    }
    if NeverHijacked(inputs, key) {
      forall k: nat | k <= |inputs| ensures RefinesAt(inputs, key, k) {
        Along(inputs, key, k);
      }
    }
  }

  lemma LastIsHijacked(s: RunState, n: Input, key: ReplyKey)
    requires Anonymous(n, key.0) && n.typ == AnswerDelta && n.delta != "" && s.timeline != []
    requires var x := s.timeline[|s.timeline| - 1]; HasKey(key)(x) && x.turn == key.0 && x.status != "final"
    ensures Hijacks(s, n, key)
  {
    assert LastIndex(s.timeline, InTurn(key.0)) == |s.timeline| - 1;
  }

  /** The failing family is not empty: an anonymous delta right after a reply's first delta. */
  lemma HijackWitness(first: Input, second: Input, key: ReplyKey)
    requires first.typ == second.typ == AnswerDelta && first.delta != "" && second.delta != ""
    requires Owns(key, first) && key.1 != "" && Anonymous(second, key.0)
    ensures !RefinesThroughout([first, second], key)
  {
    var s := StepAll(EMPTY, [first]);
    assert [first, second][..1] == [first] && [first][..0] == [];
    assert StepAll(EMPTY, [first][..0]) == EMPTY;
    assert s == Step(EMPTY, first);
    assert s.timeline == [NewAssistant(first.turn, first.reply, first.delta)];
    LastIsHijacked(s, second, key);
    assert HijackedAt([first, second], key, 1);
    RefinementIsExact([first, second], key);
  }
}
