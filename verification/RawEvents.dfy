/** Raw events: how their text fields are normalized, which names are known, and what they make of a run's flags. */
module RawEvents {
  import opened Common
  import opened EventReducer

  // ------------------------------------------------------------------ trimming

  predicate Space(c: char) { c as int in SPACES }

  predicate Blanks(s: string) { forall i | 0 <= i < |s| :: Space(s[i]) }

  predicate StartsBare(s: string) { s == "" || !Space(s[0]) }

  predicate EndsBare(s: string) { s == "" || !Space(s[|s| - 1]) }

  lemma {:induction false} TrimLeftIs(s: string) returns (blanks: string)
    ensures s == blanks + TrimLeft(s) && Blanks(blanks) && StartsBare(TrimLeft(s))
  {
    blanks := "";
    if s != "" && Space(s[0]) {
      var more := TrimLeftIs(s[1..]);
      blanks := [s[0]] + more;
      assert s == [s[0]] + s[1..];
    }
  }

  lemma {:induction false} TrimRightIs(s: string) returns (blanks: string)
    ensures s == TrimRight(s) + blanks && Blanks(blanks) && EndsBare(TrimRight(s))
    ensures StartsBare(s) ==> StartsBare(TrimRight(s))
  {
    blanks := "";
    if s != "" && Space(s[|s| - 1]) {
      var more := TrimRightIs(s[..|s| - 1]);
      blanks := more + [s[|s| - 1]];
      assert s == s[..|s| - 1] + [s[|s| - 1]];
      assert TrimRight(s) + (more + [s[|s| - 1]]) == (TrimRight(s) + more) + [s[|s| - 1]];
      assert TrimRight(s) != "" ==> TrimRight(s)[0] == s[0];
    }
  }

  /** Trimming takes blanks away from both ends, and all of them. */
  lemma TrimExactly(s: string) returns (before: string, after: string)
    ensures s == before + Trim(s) + after && Blanks(before) && Blanks(after)
    ensures StartsBare(Trim(s)) && EndsBare(Trim(s))
  {
    before := TrimLeftIs(s);
    after := TrimRightIs(TrimLeft(s));
    Regroup(before, Trim(s), after);
  }

  // ---------------------------------------------------------------- event names

  /** The name an event type has on the wire. */
  function Name(typ: EventType): string
    requires typ != Ignored
  {
    match typ
    case TurnStart => "turn_start"
    case TurnPending => "turn_pending"
    case TurnSubmissionFailed => "turn_submission_failed"
    case TurnState => "turn_state"
    case ProgressStart => "progress_start"
    case ProgressDelta => "progress_delta"
    case ProgressEnd => "progress_end"
    case ActionStart => "action_start"
    case ActionEnd => "action_end"
    case InteractionRequired => "interaction_required"
    case InteractionResolved => "interaction_resolved"
    case Warning => "warning"
    case Error => "error"
    case AnswerReset => "answer_reset"
    case AnswerDelta => "answer_delta"
    case FinalAnswer => "final"
  }

  /** Names are read exactly: each known one as its type, and nothing else as any. */
  lemma ClassifyExactly(name: string, typ: EventType)
    requires typ != Ignored
    ensures Classify(name) == typ <==> name == Name(typ)
  {
    NamesDiffer();
  }

  /** Names of one length differ at some index. */
  lemma NamesDiffer()
    ensures |"turn_start"| == 10 && |"turn_pending"| == 12 && |"turn_submission_failed"| == 22 && |"turn_state"| == 10
    ensures |"progress_start"| == 14 && |"progress_delta"| == 14 && |"progress_end"| == 12 && |"action_start"| == 12
    ensures |"action_end"| == 10 && |"interaction_required"| == 20 && |"interaction_resolved"| == 20 && |"warning"| == 7
    ensures |"error"| == 5 && |"answer_reset"| == 12 && |"answer_delta"| == 12 && |"final"| == 5
    ensures "turn_start"[8] == 'r' && "turn_state"[8] == 't' && "action_end"[8] == 'n'
    ensures "turn_pending"[0] == 't' && "progress_end"[0] == 'p' && "action_start"[1] == 'c' && "answer_reset"[1] == 'n'
    ensures "action_start"[0] == 'a' && "answer_reset"[0] == 'a' && "answer_delta"[0] == 'a' && "answer_delta"[1] == 'n'
    ensures "answer_reset"[7] == 'r' && "answer_delta"[7] == 'd' && "progress_start"[9] == 's' && "progress_delta"[9] == 'd'
    ensures "interaction_required"[14] == 'q' && "interaction_resolved"[14] == 's'
    ensures "error"[0] == 'e' && "final"[0] == 'f'
  {
  }

  lemma RawType(e: Event, typ: EventType)
    requires typ != Ignored
    ensures Parse(e).typ == typ <==> Trim(e.typ) == Name(typ)
  {
    ClassifyExactly(Trim(e.typ), typ);
  }

  /** Every other name is unknown. */
  lemma IgnoredExactly(name: string, typ: EventType)
    requires typ == Classify(name)
    ensures typ == Ignored <==> forall t: EventType | t != Ignored :: name != Name(t)
  {
    if typ != Ignored {
      ClassifyExactly(name, typ);
    } else {
      forall t: EventType | t != Ignored ensures name != Name(t) { ClassifyExactly(name, t); }
    }
  }

  /** An event of an unknown name changes nothing at all. */
  lemma UnknownIsIgnored(s: RunState, n: Input)
    requires n.typ == Ignored
    ensures Step(s, n) == s
  {
  }

  // --------------------------------------------------------------------- fields

  /** The text of a field without blanks around it; "" if it is missing or no text. */
  function Shown(e: Event, key: string): string {
    if key in e.payload && e.payload[key].Text? then Trim(e.payload[key].s) else ""
  }

  /** The value is the field's under its wire name, or under its other name if that is blank. */
  predicate ReadAs(e: Event, key: string, alias: string, value: string) {
    value == if Shown(e, key) != "" then Shown(e, key) else Shown(e, alias)
  }

  /** Where the reducer reads what decides about replies, progress, actions and interactions. */
  lemma FieldsRead(e: Event, n: Input)
    requires n == Parse(e)
    ensures n.turn == Trim(e.turnId) && ReadAs(e, "reply_id", "replyId", n.reply)
    ensures ReadAs(e, "progress_id", "progressId", n.progressId) && ReadAs(e, "message_id", "messageId", n.message)
    ensures ReadAs(e, "action_ref", "actionRef", n.actionRef) && ReadAs(e, "phase_instance_id", "phaseInstanceId", n.instance)
    ensures "delta" in e.payload && e.payload["delta"].Text? ==> n.delta == e.payload["delta"].s
    ensures "text" in e.payload && e.payload["text"].Text? ==> n.answer == e.payload["text"].s
    ensures n.answerIsBlank <==> Shown(e, "text") == ""
    ensures n.summary == Shown(e, "summary") && n.phase == Shown(e, "phase") && n.status == Shown(e, "status")
  {
  }

  // ---------------------------------------------------------------------- flags

  ghost predicate Busy(items: seq<Item>) {
    exists i | 0 <= i < |items| :: items[i].kind == Action && items[i].actionStatus == "running"
  }

  lemma BusyExactly(items: seq<Item>)
    ensures FirstIndex(items, IsRunningAction()) >= 0 <==> Busy(items)
  {
    var i := FirstIndex(items, IsRunningAction());
    if i >= 0 { assert items[i].kind == Action && items[i].actionStatus == "running"; }
    assert forall j | 0 <= j < |items| ::
        IsRunningAction()(items[j]) <==> items[j].kind == Action && items[j].actionStatus == "running";
  }

  /** The event's answer belongs to an item that is final already. */
  predicate AnswersFinal(s: RunState, n: Input) {
    var i := FindAssistant(s, n.turn, n.reply);
    i >= 0 && s.timeline[i].status == "final"
  }

  /** Events that show the run at work, or waiting for the user or at its end. */
  predicate SetsWorking(s: RunState, n: Input) {
    n.typ == TurnStart || n.typ == TurnPending || (n.typ == ActionStart && n.actionRef != "")
    || (n.typ == AnswerDelta && n.delta != "" && !AnswersFinal(s, n))
  }

  predicate SetsIdle(n: Input) { n.typ == FinalAnswer || (n.typ == InteractionRequired && n.interactionId != "") }

  /** What an event makes of the flags of a run. */
  ghost predicate FlagsAfter(s: RunState, n: Input, running: bool, interrupting: bool) {
    if SetsWorking(s, n) then running && !interrupting
    else if SetsIdle(n) then !running && !interrupting
    else if n.typ == TurnSubmissionFailed then running == Busy(s.timeline) && !interrupting
    else if n.typ == TurnState then
      running == (n.status == "running" || n.status == "waiting") && interrupting == (s.interrupting && running)
    else running == s.running && interrupting == s.interrupting
  }

  lemma StepFlags(s: RunState, n: Input)
    ensures FlagsAfter(s, n, Step(s, n).running, Step(s, n).interrupting)
  {
    if n.typ == TurnSubmissionFailed || n.typ == TurnState {
      TurnFlags(s, n);
    } else if SetsWorking(s, n) || SetsIdle(n) {
      DecidedFlags(s, n);
    } else {
      OtherFlags(s, n);
    }
  }

  lemma TurnFlags(s: RunState, n: Input)
    requires n.typ == TurnSubmissionFailed || n.typ == TurnState
    ensures FlagsAfter(s, n, Step(s, n).running, Step(s, n).interrupting)
  {
    BusyExactly(s.timeline);
  }

  lemma DecidedFlags(s: RunState, n: Input)
    requires SetsWorking(s, n) || SetsIdle(n)
    ensures FlagsAfter(s, n, Step(s, n).running, Step(s, n).interrupting)
  {
  }

  lemma OtherFlags(s: RunState, n: Input)
    requires !SetsWorking(s, n) && !SetsIdle(n) && n.typ != TurnSubmissionFailed && n.typ != TurnState
    ensures Step(s, n).running == s.running && Step(s, n).interrupting == s.interrupting
  {
  }

  /** A raw event is of the type its trimmed name says, and moves the flags as that type does. */
  lemma RawFlags(s: RunState, e: Event, n: Input)
    requires n == Parse(e)
    ensures n.typ != Ignored ==> Trim(e.typ) == Name(n.typ)
    ensures FlagsAfter(s, n, Reduce(s, e).running, Reduce(s, e).interrupting)
  {
    if n.typ != Ignored { RawType(e, n.typ); }
    StepFlags(s, n);
  }
}
