/** `applyAgentEvent`: the reducer that turns agent events into the timeline of a run. */
module EventReducer {
  import opened Common

  // ------------------------------------------------------------------ events

  datatype Json = Text(s: string) | Other(encoded: string)

  datatype Event = Event(
    typ: string, turnId: string, payload: map<string, Json>,
    id: string, sessionId: string, seq_: Option<int>, timestamp: string, createdAt: string, arrival: string)

  const SPACES: set<int> := {
    0x09, 0x0A, 0x0B, 0x0C, 0x0D, 0x20, 0xA0, 0x1680, 0x2000, 0x2001, 0x2002, 0x2003, 0x2004, 0x2005, 0x2006,
    0x2007, 0x2008, 0x2009, 0x200A, 0x2028, 0x2029, 0x202F, 0x205F, 0x3000, 0xFEFF}

  function TrimLeft(s: string): string {
    if s != "" && s[0] as int in SPACES then TrimLeft(s[1..]) else s
  }

  function TrimRight(s: string): string {
    if s != "" && s[|s| - 1] as int in SPACES then TrimRight(s[..|s| - 1]) else s
  }

  function Trim(s: string): string { TrimRight(TrimLeft(s)) }

  function Raw(e: Event, key: string): string {
    if key in e.payload && e.payload[key].Text? then e.payload[key].s else ""
  }

  function Field(e: Event, key: string): string { Trim(Raw(e, key)) }

  function Either(a: string, b: string): string { if a != "" then a else b }

  /** A field under its wire name or its camel-case name. */
  function Field2(e: Event, key: string, alias: string): string { Either(Field(e, key), Field(e, alias)) }

  datatype EventType =
    | TurnStart | TurnPending | TurnSubmissionFailed | TurnState
    | ProgressStart | ProgressDelta | ProgressEnd
    | ActionStart | ActionEnd
    | InteractionRequired | InteractionResolved
    | Warning | Error
    | AnswerReset | AnswerDelta | FinalAnswer
    | Ignored

  function Classify(typ: string): EventType {
    match typ
    case "turn_start" => TurnStart
    case "turn_pending" => TurnPending
    case "turn_submission_failed" => TurnSubmissionFailed
    case "turn_state" => TurnState
    case "progress_start" => ProgressStart
    case "progress_delta" => ProgressDelta
    case "progress_end" => ProgressEnd
    case "action_start" => ActionStart
    case "action_end" => ActionEnd
    case "interaction_required" => InteractionRequired
    case "interaction_resolved" => InteractionResolved
    case "warning" => Warning
    case "error" => Error
    case "answer_reset" => AnswerReset
    case "answer_delta" => AnswerDelta
    case "final" => FinalAnswer
    case _ => Ignored
  }

  /** The fields the reducer reads, normalized; the turn is "" for none. */
  datatype Input = Input(
    typ: EventType, turn: string, reply: string, progressId: string, summary: string, phase: string, status: string,
    delta: string, answer: string, answerIsBlank: bool, message: string,
    actionRef: string, actionCode: string, instance: string, actionName: string,
    interactionId: string, question: string, resolution: string, notice: string)

  function Parse(e: Event): Input {
    Input(
      Classify(Trim(e.typ)), Trim(e.turnId), Field2(e, "reply_id", "replyId"), Field2(e, "progress_id", "progressId"),
      Field(e, "summary"), Field(e, "phase"), Field(e, "status"),
      Raw(e, "delta"), Raw(e, "text"), Trim(Raw(e, "text")) == "", Field2(e, "message_id", "messageId"),
      Field2(e, "action_ref", "actionRef"), Field2(e, "action_code", "actionCode"),
      Field2(e, "phase_instance_id", "phaseInstanceId"), Either(Field2(e, "display_name", "displayName"), "处理数据"),
      Either(Field2(e, "interaction_id", "interactionId"), Field2(e, "interaction_ref", "interactionRef")),
      Either(Field2(e, "summary", "title"), "等待你的选择"),
      Either(Field2(e, "result_label", "resultLabel"), "已提交选择"),
      Field2(e, "text", "message"))
  }

  // ------------------------------------------------------------------- state

  datatype Kind = Progress | Action | Interaction | Assistant

  datatype Phase = NoPhase | Streaming | Completed

  /** (turn, reply id); the source joins the two with a NUL. */
  type ReplyKey = (string, string)

  datatype TerminalKey = ById(turn: string, progressId: string) | ByPhase(turn: string, phase: string)

  datatype Stamp = Stamp(createdAt: string, sequence: int)

  /** A timeline item; absent optional strings are "". `serial` is its object identity. */
  datatype Item = Item(
    serial: nat, kind: Kind, text: string, turn: string, status: string,
    progressId: string, phase: Phase, phaseName: string,
    actionRef: string, actionCode: string, actionPhase: string, actionInstance: string, actionStatus: string,
    interactionId: string, replyId: string, replyKey: Option<ReplyKey>, finalMessageId: string, stamp: Option<Stamp>)

  function Blank(kind: Kind, text: string, turn: string): Item {
    Item(0, kind, text, turn, "", "", NoPhase, "", "", "", "", "", "", "", "", None, "", None)
  }

  datatype RunState = RunState(
    timeline: seq<Item>, running: bool, interrupting: bool, terminal: set<TerminalKey>, next: nat)

  const EMPTY := RunState([], false, false, {}, 0)

  const INITIAL_TEXT := "正在理解你的请求"

  // ----------------------------------------------------------------- finders

  function FirstIndex(items: seq<Item>, p: Item -> bool): (i: int)
    ensures -1 <= i < |items|
    ensures i >= 0 ==> p(items[i]) && forall j | 0 <= j < i :: !p(items[j])
    ensures i < 0 ==> forall j | 0 <= j < |items| :: !p(items[j])
  {
    if items == [] then -1
    else if p(items[0]) then 0
    else
      var i := FirstIndex(items[1..], p);
      assert forall j | 1 <= j < |items| :: items[j] == items[1..][j - 1];
      if i < 0 then -1 else i + 1
  }

  function LastIndex(items: seq<Item>, p: Item -> bool): (i: int)
    ensures -1 <= i < |items|
    ensures i >= 0 ==> p(items[i]) && forall j | i < j < |items| :: !p(items[j])
    ensures i < 0 ==> forall j | 0 <= j < |items| :: !p(items[j])
  {
    if items == [] then -1
    else if p(items[|items| - 1]) then |items| - 1
    else LastIndex(items[..|items| - 1], p)
  }

  function KeyOf(x: Item): Option<ReplyKey> {
    if x.replyKey.Some? then x.replyKey else if x.replyId != "" then Some((x.turn, x.replyId)) else None
  }

  function HasKey(key: ReplyKey): Item -> bool {
    (x: Item) => x.kind == Assistant && KeyOf(x) == Some(key)
  }

  function InTurn(turn: string): Item -> bool {
    (x: Item) => x.kind == Assistant && x.turn == turn
  }

  function HasProgress(turn: string, progressId: string): Item -> bool {
    (x: Item) => x.kind == Progress && x.turn == turn && x.progressId == progressId
  }

  function HasPhaseText(turn: string, phase: string, text: string): Item -> bool {
    (x: Item) => x.kind == Progress && x.turn == turn && x.phaseName == phase && x.text == text
  }

  function HasAction(turn: string, actionRef: string, instance: string): Item -> bool {
    (x: Item) => x.kind == Action && x.turn == turn && x.actionRef == actionRef
                 && (instance == "" || x.actionInstance == instance)
  }

  function HasInteraction(interactionId: string): Item -> bool {
    (x: Item) => x.kind == Interaction && x.interactionId == interactionId
  }

  function IsInitial(turn: string): Item -> bool {
    (x: Item) => x.kind == Progress && x.turn == turn && x.text == INITIAL_TEXT
  }

  function IsRunningAction(): Item -> bool {
    (x: Item) => x.kind == Action && x.actionStatus == "running"
  }

  function FindAssistant(s: RunState, turn: string, reply: string): int {
    LastIndex(s.timeline, if reply != "" then HasKey((turn, reply)) else InTurn(turn))
  }

  // ------------------------------------------------------------- elementary changes

  function Push(s: RunState, x: Item): RunState {
    s.(timeline := s.timeline + [x.(serial := s.next)], next := s.next + 1)
  }

  function Set(s: RunState, i: nat, x: Item): RunState
    requires i < |s.timeline|
  {
    s.(timeline := s.timeline[i := x])
  }

  function Filter(items: seq<Item>, p: Item -> bool): seq<Item> {
    if items == [] then []
    else if p(items[|items| - 1]) then Filter(items[..|items| - 1], p) + [items[|items| - 1]]
    else Filter(items[..|items| - 1], p)
  }

  function NotDraftOf(key: ReplyKey): Item -> bool {
    (x: Item) => x.kind != Assistant || KeyOf(x) != Some(key) || x.status == "final"
  }

  function RemoveDraft(s: RunState, key: ReplyKey): RunState {
    s.(timeline := Filter(s.timeline, NotDraftOf(key)))
  }

  function MapItems(items: seq<Item>, f: Item -> Item): seq<Item> {
    seq(|items|, i requires 0 <= i < |items| => f(items[i]))
  }

  // -------------------------------------------------------------- event handlers

  function PhaseKey(turn: string, phase: string): TerminalKey { ByPhase(turn, Either(phase, "generic")) }

  function PhaseFor(terminal: bool): Phase { if terminal then Completed else Streaming }

  function OnTurnStart(s: RunState, n: Input): (r: RunState)
    ensures r.terminal == s.terminal
  {
    var s1 := if FirstIndex(s.timeline, IsInitial(n.turn)) >= 0 then s else Push(s, Blank(Progress, INITIAL_TEXT, n.turn));
    s1.(running := true, interrupting := false)
  }

  function OnProgressStart(s: RunState, n: Input): (r: RunState)
    ensures r.terminal == s.terminal
  {
    if n.summary == "" then s
    else
      var i := FirstIndex(s.timeline, HasPhaseText(n.turn, n.phase, n.summary));
      var terminal := PhaseKey(n.turn, n.phase) in s.terminal;
      if i >= 0 then (if terminal then Set(s, i, s.timeline[i].(phase := Completed)) else s)
      else Push(s, Blank(Progress, n.summary, n.turn).(phaseName := n.phase, phase := PhaseFor(terminal)))
  }

  function OnProgressDelta(s: RunState, n: Input): (r: RunState)
    ensures r.terminal == s.terminal
  {
    if n.progressId == "" then
      if n.summary == "" || FirstIndex(s.timeline, HasPhaseText(n.turn, n.phase, n.summary)) >= 0 then s
      else Push(s, Blank(Progress, n.summary, n.turn)
                   .(phaseName := n.phase, phase := PhaseFor(PhaseKey(n.turn, n.phase) in s.terminal)))
    else if n.delta == "" then s
    else
      var s1 := if n.reply != "" then RemoveDraft(s, (n.turn, n.reply)) else s;
      AddProgress(s1, n.turn, n.progressId, n.delta)
  }

  function AddProgress(s: RunState, turn: string, progressId: string, delta: string): RunState {
    var terminal := ById(turn, progressId) in s.terminal;
    var i := FirstIndex(s.timeline, HasProgress(turn, progressId));
    if i >= 0 then
      var x := s.timeline[i];
      Set(s, i, x.(text := x.text + delta, phase := if terminal then x.phase else Streaming))
    else Push(s, Blank(Progress, delta, turn).(progressId := progressId, phase := PhaseFor(terminal)))
  }

  function CompletePhase(turn: string, phase: string): Item -> Item {
    (x: Item) => if x.kind == Progress && x.turn == turn && (phase == "" || x.phaseName == phase) then x.(phase := Completed) else x
  }

  function OnProgressEnd(s: RunState, n: Input): (r: RunState)
    ensures s.terminal <= r.terminal
  {
    if n.progressId != "" then
      var s1 := s.(terminal := s.terminal + {ById(n.turn, n.progressId)});
      var i := FirstIndex(s.timeline, HasProgress(n.turn, n.progressId));
      if i >= 0 then Set(s1, i, s.timeline[i].(phase := Completed)) else s1
    else
      s.(terminal := s.terminal + {PhaseKey(n.turn, n.phase)},
         timeline := MapItems(s.timeline, CompletePhase(n.turn, n.phase)))
  }

  function ActionStatus(start: bool, status: string): string {
    if status == "background" then "background"
    else if start then "running"
    else if status == "failed" || status == "interrupted" then status
    else "completed"
  }

  /** An action item rewritten by an action event. */
  function ActionItem(x: Item, n: Input): Item {
    var status := ActionStatus(n.typ == ActionStart, n.status);
    x.(text := n.actionName, turn := n.turn, actionRef := n.actionRef, actionCode := n.actionCode,
       actionPhase := n.phase, actionInstance := n.instance, actionStatus := status, status := status)
  }

  function OnAction(s: RunState, n: Input): (r: RunState)
    ensures r.terminal == s.terminal
  {
    if n.actionRef == "" then s
    else
      var i := LastIndex(s.timeline, HasAction(n.turn, n.actionRef, n.instance));
      var s1 := if i >= 0 then Set(s, i, ActionItem(s.timeline[i], n))
                else Push(s, ActionItem(Blank(Action, n.actionName, n.turn), n));
      if n.typ == ActionStart then s1.(running := true, interrupting := false) else s1
  }

  function OnInteractionRequired(s: RunState, n: Input): (r: RunState)
    ensures r.terminal == s.terminal
  {
    if n.interactionId == "" then s
    else
      var i := FirstIndex(s.timeline, HasInteraction(n.interactionId));
      var base := if i >= 0 then s.timeline[i] else Blank(Interaction, n.question, n.turn);
      var x := base.(text := n.question, status := "waiting", interactionId := n.interactionId, turn := n.turn);
      (if i >= 0 then Set(s, i, x) else Push(s, x)).(running := false, interrupting := false)
  }

  function OnInteractionResolved(s: RunState, n: Input): (r: RunState)
    ensures r.terminal == s.terminal
  {
    if n.interactionId == "" then s
    else
      var i := FirstIndex(s.timeline, HasInteraction(n.interactionId));
      if i >= 0 then Set(s, i, s.timeline[i].(text := n.resolution, status := "completed"))
      else Push(s, Blank(Interaction, n.resolution, n.turn).(status := "completed", interactionId := n.interactionId))
  }

  function OnNotice(s: RunState, n: Input): (r: RunState)
    ensures r.terminal == s.terminal
  {
    if n.notice == "" then s
    else Push(s, Blank(Progress, n.notice, n.turn).(status := if n.typ == Warning then "warning" else "error"))
  }

  function NewAssistant(turn: string, reply: string, text: string): Item {
    if reply != "" then Blank(Assistant, text, turn).(replyId := reply, replyKey := Some((turn, reply)))
    else Blank(Assistant, text, turn)
  }

  function OnAnswerDelta(s: RunState, n: Input): (r: RunState)
    ensures r.terminal == s.terminal
  {
    if n.delta == "" then s
    else
      var i := FindAssistant(s, n.turn, n.reply);
      if i >= 0 && s.timeline[i].status == "final" then s
      else
        var s1 := if i >= 0 then Set(s, i, s.timeline[i].(text := s.timeline[i].text + n.delta))
                  else Push(s, NewAssistant(n.turn, n.reply, n.delta));
        s1.(running := true, interrupting := false)
  }

  /** An existing assistant item rewritten by a final answer. */
  function Finished(x: Item, n: Input): Item {
    var y := x.(text := n.answer, status := "final", finalMessageId := Either(n.message, x.finalMessageId));
    if n.reply != "" then y.(replyId := n.reply, replyKey := Some((n.turn, n.reply))) else y
  }

  function OnFinal(s: RunState, n: Input): (r: RunState)
    ensures r.terminal == s.terminal
  {
    var i := FindAssistant(s, n.turn, n.reply);
    var s1 := if n.answerIsBlank then s
              else if i >= 0 then Set(s, i, Finished(s.timeline[i], n))
              else Push(s, Finished(NewAssistant(n.turn, n.reply, n.answer), n));
    s1.(running := false, interrupting := false)
  }

  function Step(s: RunState, n: Input): (r: RunState)
    ensures s.terminal <= r.terminal
  {
    match n.typ
    case TurnStart => OnTurnStart(s, n)
    case TurnPending => s.(running := true, interrupting := false)
    case TurnSubmissionFailed => s.(running := FirstIndex(s.timeline, IsRunningAction()) >= 0, interrupting := false)
    case TurnState =>
      var running := n.status == "running" || n.status == "waiting";
      s.(running := running, interrupting := s.interrupting && running)
    case ProgressStart => OnProgressStart(s, n)
    case ProgressDelta => OnProgressDelta(s, n)
    case ProgressEnd => OnProgressEnd(s, n)
    case ActionStart => OnAction(s, n)
    case ActionEnd => OnAction(s, n)
    case InteractionRequired => OnInteractionRequired(s, n)
    case InteractionResolved => OnInteractionResolved(s, n)
    case Warning => OnNotice(s, n)
    case Error => OnNotice(s, n)
    case AnswerReset => if n.reply != "" then RemoveDraft(s, (n.turn, n.reply)) else s
    case AnswerDelta => OnAnswerDelta(s, n)
    case FinalAnswer => OnFinal(s, n)
    case Ignored => s
  }

  /** `applyAgentEvent`. */
  function Reduce(s: RunState, e: Event): RunState { Step(s, Parse(e)) }

  /** A whole run of the reducer, given by the normalized inputs. */
  function StepAll(s: RunState, inputs: seq<Input>): RunState {
    if inputs == [] then s else Step(StepAll(s, inputs[..|inputs| - 1]), inputs[|inputs| - 1])
  }
}
