/**
 One turn of the agent, as a deterministic program that asks for journaled steps
 and goes on with their answers.  `Ask` is the step a state waits for, `Next` what
 the program does with the answer; everything between two steps is pure.
 */
module Turn {
  import opened Prelude
  import opened Transcript
  import Durable

  // ----- What comes in -----

  /** The fields of an inbound payload that the turn looks at, and its whole JSON. */
  datatype Payload = Payload(text: Option<string>, quotedMessageId: Option<string>, reminder: Option<string>,
                             actionUpdate: Option<string>, json: string)

  datatype Item = Item(senderId: string, payload: Payload)

  /** Only a person's utterance has a text. */
  function MessageText(item: Item): Option<string> {
    item.payload.text
  }

  datatype Quote = Quote(text: string, quotedMessageId: string)

  function QuotedReply(item: Item): Option<Quote> {
    match (item.payload.text, item.payload.quotedMessageId)
    case (Some(text), Some(id)) => if id == "" then None else Some(Quote(text, id))
    case _ => None
  }

  function ModelMessage(item: Item): Message {
    var p := item.payload;
    if p.text.Some? then User(item.senderId, p.text.value)
    else if p.reminder.Some? then User(item.senderId, "[reminder] " + p.reminder.value)
    else if p.actionUpdate.Some? then User(item.senderId, p.actionUpdate.value)
    else User(item.senderId, p.json)
  }

  function ModelMessages(batch: seq<Item>): seq<Message> {
    seq(|batch|, i requires 0 <= i < |batch| => ModelMessage(batch[i]))
  }

  /** The texts of the batch's utterances with their senders, in order. */
  function Utterances(batch: seq<Item>): seq<(string, string)>
    decreases |batch|
  {
    if batch == [] then []
    else
      var rest := Utterances(batch[..|batch| - 1]);
      var item := batch[|batch| - 1];
      if MessageText(item).Some? then rest + [(item.senderId, MessageText(item).value)] else rest
  }

  // ----- Steps and their answers -----

  datatype Approval =
    | Unbound
    | Unclear(actionId: string)
    | Executed(actionId: string, toolName: string, result: string)
    | Denied(actionId: string, toolName: string)
    | Stale(actionId: string, toolName: string)
    | Failed(actionId: string, toolName: string, message: string)
    | AlreadyResolved(actionId: string, status: string)

  /** A settled outcome's context line; an outcome that changed nothing has none. */
  function OutcomeLine(outcome: Approval, approver: string): Option<string> {
    match outcome
    case Unbound => None
    case Unclear(_) => None
    case Executed(id, tool, result) => Some("[action update] " + id + " (" + tool + ") approved by " + approver + " and done: " + result)
    case Denied(id, tool) => Some("[action update] " + id + " (" + tool + ") declined by " + approver + " — nothing was executed.")
    case Stale(id, tool) =>
      Some("[action update] " + id + " (" + tool + ") was approved by " + approver
           + " but failed its revalidation check — it is no longer valid and was NOT executed.")
    case Failed(id, tool, message) =>
      Some("[action update] " + id + " (" + tool + ") was approved by " + approver + " but the action could not be completed ("
           + message + ") — it is STILL PENDING and was not executed; approving it again will retry.")
    case AlreadyResolved(id, status) =>
      Some("[action update] " + approver + " answered the prompt for " + id + ", but it was already " + status + " — nothing changed.")
  }

  function Updates(outcome: Approval, approver: string): seq<Message> {
    match OutcomeLine(outcome, approver)
    case None => []
    case Some(line) => [User("system:hitl", line)]
  }

  datatype Refinement =
    | RefineUnbound
    | RefineInvalid
    | Refined(summary: string)
    | RefineAlreadyResolved(actionId: string, status: string)

  datatype Verdict = Approve | Deny | Refine(updatedArgs: string) | Unrelated

  datatype Entry = Entry(actionId: string, toolName: string, summary: string, argsJson: Option<string>)

  datatype Request =
    | LoadContext
    | ResolveApproval(quote: Quote)
    | LoadDigest
    | Classify(senderId: string, message: string, toolName: string, action: string, recent: seq<Message>)
    | ResolveDecision(actionId: string, approve: bool)
    | RefineAction(actionId: string, updatedArgs: string)
    | RouteTurn(earlier: seq<Message>, latest: seq<(string, string)>, hasPending: bool, hasQuote: bool)
    | LogRoute(tier: string)
    | CallModel(msgs: seq<Message>, forceFinal: bool, digest: Option<string>, modelTier: Option<string>)
    | RunTool(call: ToolCall)
    | Persist(transcript: seq<Message>)
    | Summarize(head: seq<Message>)
    | EmbedSummary(summary: string)
    | WriteMemory(content: string, embedding: string)
    | WriteCompactionLog(logged: seq<Message>, logSummary: string, cutIndex: int, tailCount: int)

  /** The steps that are database transactions; the others are plain. */
  predicate Transactional(r: Request) {
    !r.Classify? && !r.RouteTurn? && !r.CallModel? && !r.Summarize? && !r.EmbedSummary?
  }

  datatype Answer =
    | Loaded(transcript: seq<Message>)
    | Resolved(outcome: Approval)
    | Digest(entries: seq<Entry>)
    | Judged(verdict: Verdict)
    | Refining(refinement: Refinement)
    | Routed(tier: string)
    | Reply(content: string, calls: seq<ToolCall>)
    | Result(toolUseId: string, content: string, parked: bool, actionId: Option<string>)
    | Text(text: string)
    | Done
    | Throws

  // ----- The program -----

  /** Which optional parts are wired, and the pure renderers. */
  datatype Config = Config(resolves: bool, digests: bool, relates: bool, routes: bool, logsRoute: bool,
                           compaction: Option<CompactionConfig>, maxRounds: int, workflowId: Option<string>,
                           proposal: ToolCall -> string, digest: seq<Entry> -> string)

  datatype TurnStatus = Completed | Parked | CapHit

  datatype Pc =
    | Loading
    | Resolving(i: nat)
    | Digesting
    | Classifying(i: nat, target: Entry)
    | Deciding(i: nat, target: Entry, approve: bool)
    | AtRefine(i: nat, target: Entry, updatedArgs: string)
    | Redigesting
    | Reprompting
    | Routing
    | LoggingRoute
    | Modeling
    | Tooling(calls: seq<ToolCall>, k: nat, parked: bool, prompts: seq<ToolCall>)
    | Forcing
    | Persisting(status: TurnStatus)
    | Summarizing(status: TurnStatus, cut: int)
    | Embedding(status: TurnStatus, cut: int, summary: string)
    | Remembering(status: TurnStatus, cut: int, summary: string, embedding: string)
    | Logging(status: TurnStatus, cut: int, summary: string)
    | PersistingCompacted(status: TurnStatus, cut: int, summary: string)
    | Finished(status: TurnStatus)
    | Threw

  /** `priorCount` is the length of the loaded transcript; `rounds` counts model rounds. */
  datatype Turn = Turn(pc: Pc, msgs: seq<Message>, priorCount: nat, quoted: map<nat, Approval>, entries: seq<Entry>,
                       reprompt: Option<string>, tier: Option<string>, rounds: nat)

  const Start := Turn(Loading, [], 0, map[], [], None, None, 0)

  function PromptText(summary: string): string {
    summary + "\n\nApprove? Reply to this message with yes or no."
  }

  function DigestText(cfg: Config, entries: seq<Entry>): Option<string> {
    if entries == [] then None else Some(cfg.digest(entries))
  }

  /** The last six messages of the loaded transcript. */
  function Recent(t: Turn): seq<Message> {
    var prior := Prior(t);
    if |prior| <= 6 then prior else prior[|prior| - 6..]
  }

  function Prior(t: Turn): seq<Message> {
    if t.priorCount <= |t.msgs| then t.msgs[..t.priorCount] else t.msgs
  }

  function Say(t: Turn, more: seq<Message>): Turn {
    t.(msgs := t.msgs + more)
  }

  /** The quoted replies from item i on. */
  function ResolveFrom(cfg: Config, batch: seq<Item>, t: Turn, i: nat): Turn
    decreases |batch| - i
  {
    if !cfg.resolves || i >= |batch| then
      if cfg.digests then t.(pc := Digesting) else RelateAll(cfg, batch, t.(entries := []))
    else if QuotedReply(batch[i]).Some? then t.(pc := Resolving(i))
    else ResolveFrom(cfg, batch, t, i + 1)
  }

  function RelateAll(cfg: Config, batch: seq<Item>, t: Turn): Turn {
    if cfg.relates && t.entries != [] then RelateFrom(cfg, batch, t, 0) else Compose(cfg, batch, t)
  }

  function Find(entries: seq<Entry>, id: string): Option<Entry>
    decreases |entries|
  {
    if entries == [] then None else if entries[0].actionId == id then Some(entries[0]) else Find(entries[1..], id)
  }

  /**
   The action item i may speak about: the one its quote bound; without a binding,
   the only pending one; otherwise none.
   */
  function Target(t: Turn, i: nat): Option<Entry> {
    if i in t.quoted && t.quoted[i].Unclear? then Find(t.entries, t.quoted[i].actionId)
    else if i !in t.quoted || t.quoted[i].Unbound? then
      if |t.entries| == 1 then Some(t.entries[0]) else None
    else None
  }

  /** The classifier's questions from item i on. */
  function RelateFrom(cfg: Config, batch: seq<Item>, t: Turn, i: nat): Turn
    decreases |batch| - i
  {
    if i >= |batch| then Compose(cfg, batch, t)
    else if Target(t, i).Some? && MessageText(batch[i]).Some? then t.(pc := Classifying(i, Target(t, i).value))
    else RelateFrom(cfg, batch, t, i + 1)
  }

  /** Something settled or changed: the digest is read again. */
  function Reread(cfg: Config, batch: seq<Item>, t: Turn): Turn {
    if cfg.digests then t.(pc := Redigesting) else Compose(cfg, batch, t)
  }

  function Compose(cfg: Config, batch: seq<Item>, t: Turn): Turn {
    if t.reprompt.Some? then Say(t, [Assistant(PromptText(t.reprompt.value), [])]).(pc := Reprompting)
    else if cfg.routes then t.(pc := Routing)
    else Round(cfg, t)
  }

  function Round(cfg: Config, t: Turn): Turn {
    t.(pc := if t.rounds < cfg.maxRounds then Modeling else Forcing)
  }

  function Prompts(cfg: Config, calls: seq<ToolCall>): seq<Message> {
    seq(|calls|, i requires 0 <= i < |calls| => Assistant(PromptText(cfg.proposal(calls[i])), []))
  }

  function AfterTools(cfg: Config, t: Turn, parked: bool, prompts: seq<ToolCall>): Turn {
    if parked then Say(t, Prompts(cfg, prompts)).(pc := Persisting(Parked)) else Round(cfg, t)
  }

  function Compact(cfg: Config, t: Turn, status: TurnStatus): Turn {
    if cfg.compaction.Some? && ShouldCompact(t.msgs, cfg.compaction.value) && CompactionCut(t.msgs, cfg.compaction.value).Some? then
      if cfg.workflowId.None? then t.(pc := Threw)
      else t.(pc := Summarizing(status, CompactionCut(t.msgs, cfg.compaction.value).value))
    else t.(pc := Finished(status))
  }

  function Head(t: Turn, cut: int): seq<Message> {
    if 0 <= cut <= |t.msgs| then t.msgs[..cut] else t.msgs
  }

  function Tail(t: Turn, cut: int): seq<Message> {
    if 0 <= cut <= |t.msgs| then t.msgs[cut..] else []
  }

  function Ask(cfg: Config, batch: seq<Item>, t: Turn): Option<Request> {
    match t.pc
    case Loading => Some(LoadContext)
    case Resolving(i) => if i < |batch| && QuotedReply(batch[i]).Some? then Some(ResolveApproval(QuotedReply(batch[i]).value)) else None
    case Digesting => Some(LoadDigest)
    case Classifying(i, target) =>
      if i < |batch| && MessageText(batch[i]).Some? then
        Some(Classify(batch[i].senderId, MessageText(batch[i]).value, target.toolName,
                      if target.argsJson.Some? then target.argsJson.value else target.summary, Recent(t)))
      else None
    case Deciding(_, target, approve) => Some(ResolveDecision(target.actionId, approve))
    case AtRefine(_, target, updatedArgs) => Some(RefineAction(target.actionId, updatedArgs))
    case Redigesting => Some(LoadDigest)
    case Reprompting => Some(Persist(t.msgs))
    case Routing => Some(RouteTurn(Prior(t), Utterances(batch), t.entries != [], exists i :: 0 <= i < |batch| && QuotedReply(batch[i]).Some?))
    case LoggingRoute => Some(LogRoute(if t.tier.Some? then t.tier.value else ""))
    case Modeling => Some(CallModel(t.msgs, false, DigestText(cfg, t.entries), t.tier))
    case Tooling(calls, k, _, _) => if k < |calls| then Some(RunTool(calls[k])) else None
    case Forcing => Some(CallModel(t.msgs, true, DigestText(cfg, t.entries), t.tier))
    case Persisting(_) => Some(Persist(t.msgs))
    case Summarizing(_, cut) => Some(Summarize(Head(t, cut)))
    case Embedding(_, _, summary) => Some(EmbedSummary(summary))
    case Remembering(_, _, summary, embedding) => Some(WriteMemory(summary, embedding))
    case Logging(_, cut, summary) => Some(WriteCompactionLog(Head(t, cut), summary, cut, |t.msgs| - cut))
    case PersistingCompacted(_, cut, summary) => Some(Persist(BuildCompacted(summary, Tail(t, cut))))
    case Finished(_) => None
    case Threw => None
  }

  /** A step that throws, or answers what it cannot, ends the turn in an error. */
  function Next(cfg: Config, batch: seq<Item>, t: Turn, a: Answer): Turn {
    match t.pc
    case Loading =>
      if a.Loaded? then
        ResolveFrom(cfg, batch, t.(msgs := a.transcript + ModelMessages(batch), priorCount := |a.transcript|), 0)
      else t.(pc := Threw)
    case Resolving(i) =>
      if a.Resolved? && i < |batch| then
        ResolveFrom(cfg, batch, Say(t.(quoted := t.quoted[i := a.outcome]), Updates(a.outcome, batch[i].senderId)), i + 1)
      else t.(pc := Threw)
    case Digesting =>
      if a.Digest? then RelateAll(cfg, batch, t.(entries := a.entries)) else t.(pc := Threw)
    case Classifying(i, target) => if a.Judged? then AfterVerdict(cfg, batch, t, i, target, a.verdict) else t.(pc := Threw)
    case Deciding(i, _, _) =>
      if a.Resolved? && i < |batch| then Reread(cfg, batch, Say(t, Updates(a.outcome, batch[i].senderId))) else t.(pc := Threw)
    case AtRefine(i, _, _) =>
      if a.Refining? && i < |batch| then AfterRefinement(cfg, batch, t, i, a.refinement) else t.(pc := Threw)
    case Redigesting => if a.Digest? then Compose(cfg, batch, t.(entries := a.entries)) else t.(pc := Threw)
    case Reprompting => t.(pc := if a.Done? then Finished(Parked) else Threw)
    case Routing =>
      if a.Routed? then
        var t1 := t.(tier := Some(a.tier));
        if cfg.logsRoute then t1.(pc := if cfg.workflowId.None? then Threw else LoggingRoute) else Round(cfg, t1)
      else t.(pc := Threw)
    case LoggingRoute => if a.Done? then Round(cfg, t) else t.(pc := Threw)
    case Modeling =>
      if a.Reply? then
        var t1 := Say(t, [Assistant(a.content, a.calls)]).(rounds := t.rounds + 1);
        t1.(pc := if a.calls == [] then Persisting(Completed) else Tooling(a.calls, 0, false, []))
      else t.(pc := Threw)
    case Tooling(calls, k, parked, prompts) =>
      if a.Result? && k < |calls| then AfterResult(cfg, t, calls, k, parked, prompts, a) else t.(pc := Threw)
    case Forcing =>
      if a.Reply? && a.calls == [] then Say(t, [Assistant(a.content, [])]).(pc := Persisting(CapHit)) else t.(pc := Threw)
    case Persisting(status) => if a.Done? then Compact(cfg, t, status) else t.(pc := Threw)
    case Summarizing(status, cut) => t.(pc := if a.Text? then Embedding(status, cut, a.text) else Threw)
    case Embedding(status, cut, summary) => t.(pc := if a.Text? then Remembering(status, cut, summary, a.text) else Threw)
    case Remembering(status, cut, summary, _) => t.(pc := if a.Done? then Logging(status, cut, summary) else Threw)
    case Logging(status, cut, summary) => t.(pc := if a.Done? then PersistingCompacted(status, cut, summary) else Threw)
    case PersistingCompacted(status, _, _) => t.(pc := if a.Done? then Finished(status) else Threw)
    case Finished(_) => t
    case Threw => t
  }

  function AfterVerdict(cfg: Config, batch: seq<Item>, t: Turn, i: nat, target: Entry, verdict: Verdict): Turn {
    match verdict
    case Approve => t.(pc := Deciding(i, target, true))
    case Deny => t.(pc := Deciding(i, target, false))
    case Refine(updatedArgs) => t.(pc := AtRefine(i, target, updatedArgs))
    case Unrelated => RelateFrom(cfg, batch, t, i + 1)
  }

  function AfterRefinement(cfg: Config, batch: seq<Item>, t: Turn, i: nat, r: Refinement): Turn
    requires i < |batch|
  {
    match r
    case Refined(summary) => Reread(cfg, batch, t.(reprompt := Some(summary)))
    case RefineAlreadyResolved(id, status) =>
      Reread(cfg, batch, Say(t, Updates(AlreadyResolved(id, status), batch[i].senderId)))
    case RefineUnbound => RelateFrom(cfg, batch, t, i + 1)
    case RefineInvalid => RelateFrom(cfg, batch, t, i + 1)
  }

  function AfterResult(cfg: Config, t: Turn, calls: seq<ToolCall>, k: nat, parked: bool, prompts: seq<ToolCall>, a: Answer): Turn
    requires a.Result? && k < |calls|
  {
    var t1 := Say(t, [Tool(a.toolUseId, a.content)]);
    var parked1 := parked || a.parked;
    var prompts1 := if a.parked && a.actionId.Some? then prompts + [calls[k]] else prompts;
    if k + 1 < |calls| then t1.(pc := Tooling(calls, k + 1, parked1, prompts1)) else AfterTools(cfg, t1, parked1, prompts1)
  }

  function TheProgram(cfg: Config, batch: seq<Item>): Durable.Program<Turn, Request, Answer> {
    Durable.Program(Start, t => Ask(cfg, batch, t), (t, a) => Next(cfg, batch, t, a), Transactional, a => a != Throws)
  }
}
