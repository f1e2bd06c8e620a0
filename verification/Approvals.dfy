/**
 The human approval protocol as one transition system: the rows of
 `pending_actions`, the workflow steps that read and update them, the shared
 calendars, and the prompts that went out on the wire.

 A step that runs inside a database transaction is split at every point where
 something else may happen, so a state distinguishes the committed row from the
 row the transaction sees.  An UPDATE takes the row lock and keeps it until
 commit or rollback; a plain read takes none.
 */
module Approvals {
  import opened Prelude

  type ActionId = string
  type ConversationId = string
  type MessageId = string
  type OpId = nat

  datatype Status = Pending | Approved | Denied | Executed | Expired | Stale

  /** Terminal statuses: an action that has one is settled. */
  predicate Settled(status: Status) {
    status.Denied? || status.Executed? || status.Expired? || status.Stale?
  }

  datatype Owner = Husband | Wife

  /** A stored argument value: a plain object, or anything else JSON can hold. */
  datatype Json = Object(fields: map<string, string>) | Scalar(text: string)

  /** The stored tool call; `Garbled` is one that no longer parses. */
  datatype StoredCall = Call(toolUseId: string, name: string, args: Json) | Garbled

  datatype CalendarArgs = CalendarArgs(owner: Owner, title: string, date: string, time: string, durationMin: int)

  datatype Row = Row(conversation: ConversationId, call: StoredCall, status: Status,
                     prompt: Option<MessageId>, expiresAt: int)

  /**
   What the protocol is parameterised by: whether the conversation lane
   serialises the steps of a conversation, the tool registry (`parse` is None for
   an unknown tool and for arguments the schema rejects), and the event-id hash.
   */
  datatype Config = Config(serial: bool,
                           parse: (string, Json) -> Option<CalendarArgs>,
                           toJson: CalendarArgs -> Json,
                           hash: ActionId -> string)

  function ParseCall(cfg: Config, call: StoredCall): Option<CalendarArgs> {
    match call
    case Garbled => None
    case Call(_, name, args) => cfg.parse(name, args)
  }

  /** The spreadable shape of a value: an object's fields, nothing for the rest. */
  function AsRecord(value: Json): map<string, string> {
    if value.Object? then value.fields else map[]
  }

  /** The call a refinement writes, or None when the merged arguments are refused. */
  function RefinedCall(cfg: Config, call: StoredCall, patch: Json): Option<StoredCall> {
    match call
    case Garbled => None
    case Call(toolUseId, name, args) =>
      match cfg.parse(name, Object(AsRecord(args) + AsRecord(patch)))
      case None => None
      case Some(parsed) => Some(Call(toolUseId, name, cfg.toJson(parsed)))
  }

  // ----- The calendars -----

  /** An event a calendar accepted; `poster` is the action whose attempt posted it. */
  datatype Event = Event(owner: Owner, eventId: string, args: CalendarArgs, poster: ActionId)

  predicate OnCalendar(events: seq<Event>, owner: Owner, eventId: string) {
    exists i :: 0 <= i < |events| && events[i].owner == owner && events[i].eventId == eventId
  }

  /** Put-if-absent on the event id: a second create of an id changes nothing. */
  function Create(events: seq<Event>, e: Event): seq<Event> {
    if OnCalendar(events, e.owner, e.eventId) then events else events + [e]
  }

  datatype RevalidateAnswer = Free | Busy | RevalidateThrows
  datatype CreateAnswer = Answered | NotLanded | LandedThenThrew

  // ----- Workflow steps in flight -----

  datatype Decision = Approve | Deny

  datatype Outcome =
    | OutUnbound
    | OutExecuted(created: bool)
    | OutDenied
    | OutStale
    | OutFailed
    | OutAlreadyResolved(status: Status)

  datatype Pc =
    | AtFlip
    | AtRevalidate(args: CalendarArgs)
    | AtClaim(args: CalendarArgs)
    | AtExecute(args: CalendarArgs)
    | AtCommit(outcome: Outcome)

  /**
   `snap` is the row as the step's first, unlocked read returned it; `work` is
   the locked row inside the transaction, absent before the first UPDATE hits.
   */
  datatype Op =
    | Settling(conversation: ConversationId, id: ActionId, snap: Row, decision: Decision,
               via: Option<MessageId>, work: Option<Row>, pc: Pc)
    | Refining(conversation: ConversationId, id: ActionId, snap: Row, patch: Json)
    | Prompting(conversation: ConversationId, todo: seq<(ActionId, Row)>, inFlight: Option<MessageId>)

  /** What a prompt on the wire showed. */
  datatype Shown = Shown(id: ActionId, call: StoredCall)

  /** One call of the tool's execute: the action, the arguments, the quoted prompt if any. */
  datatype Attempt = Attempt(id: ActionId, args: CalendarArgs, via: Option<MessageId>)

  /**
   `rows` are the committed rows.  The last three components are history: every
   execute attempt, how often each action's 'executed' was committed, and the
   actions with an attempt that landed and then threw or crashed before commit.
   */
  datatype State = State(rows: map<ActionId, Row>, ops: map<OpId, Op>, events: seq<Event>,
                         shown: map<MessageId, Shown>,
                         attempts: seq<Attempt>, commits: multiset<ActionId>, orphans: set<ActionId>)

  const Initial := State(map[], map[], [], map[], [], multiset{}, {})

  ghost predicate Holds(op: Op, id: ActionId) {
    op.Settling? && op.id == id && op.work.Some?
  }

  /** Some transaction holds the row's lock. */
  ghost predicate Locked(s: State, id: ActionId) {
    exists o :: o in s.ops && Holds(s.ops[o], id)
  }

  /** With a serial lane, a conversation runs one step at a time. */
  ghost predicate LaneFree(cfg: Config, s: State, c: ConversationId) {
    cfg.serial ==> forall o :: o in s.ops ==> s.ops[o].conversation != c
  }

  datatype Label =
    | Park(id: ActionId, conversation: ConversationId, call: StoredCall, expiresAt: int)
    | OpenQuoted(o: OpId, conversation: ConversationId, quoted: MessageId, id: ActionId, decision: Decision)
    | OpenClassified(o: OpId, conversation: ConversationId, id: ActionId, decision: Decision)
    | Flip(o: OpId)
    | Revalidate(o: OpId, revalidate: RevalidateAnswer)
    | Claim(o: OpId)
    | Execute(o: OpId, create: CreateAnswer)
    | Commit(o: OpId)
    | OpenRefine(o: OpId, conversation: ConversationId, id: ActionId, patch: Json)
    | Refine(o: OpId)
    | OpenPrompts(o: OpId, conversation: ConversationId, order: seq<ActionId>)
    | SendPrompt(o: OpId, m: MessageId)
    | StampPrompt(o: OpId)
    | SkipPrompt(o: OpId)
    | EndPrompts(o: OpId)
    | Crash(o: OpId)
    | Expire(id: ActionId)

  // ----- The steps; a label that is not enabled leaves the state as it is -----

  ghost function DoPark(s: State, id: ActionId, c: ConversationId, call: StoredCall, expiresAt: int): State {
    if id in s.rows then s
    else s.(rows := s.rows[id := Row(c, call, Pending, None, expiresAt)])
  }

  ghost predicate CanOpen(cfg: Config, s: State, o: OpId, c: ConversationId) {
    o !in s.ops && LaneFree(cfg, s, c)
  }

  ghost function OpenSettle(s: State, o: OpId, id: ActionId, d: Decision, via: Option<MessageId>): State
    requires id in s.rows
  {
    var row := s.rows[id];
    s.(ops := s.ops[o := Settling(row.conversation, id, row, d, via, None, AtFlip)])
  }

  /** The quoted reply binds by conversation and stamped prompt id, whatever the status. */
  ghost function DoOpenQuoted(cfg: Config, s: State, o: OpId, c: ConversationId, q: MessageId, id: ActionId, d: Decision): State {
    if CanOpen(cfg, s, o, c) && id in s.rows && s.rows[id].conversation == c && s.rows[id].prompt == Some(q)
    then OpenSettle(s, o, id, d, Some(q)) else s
  }

  ghost function DoOpenClassified(cfg: Config, s: State, o: OpId, c: ConversationId, id: ActionId, d: Decision): State {
    if CanOpen(cfg, s, o, c) && id in s.rows && s.rows[id].conversation == c
    then OpenSettle(s, o, id, d, None) else s
  }

  /** The first UPDATE of the settle core, with the parse that follows an approval. */
  ghost function Flipped(cfg: Config, op: Op, row: Row): Op
    requires op.Settling?
  {
    if row.status != Pending then op.(pc := AtCommit(OutAlreadyResolved(row.status)))
    else if op.decision.Deny? then op.(work := Some(row.(status := Denied)), pc := AtCommit(OutDenied))
    else match ParseCall(cfg, op.snap.call)
      case None => op.(work := Some(row.(status := Stale)), pc := AtCommit(OutStale))
      case Some(args) => op.(work := Some(row.(status := Approved)), pc := AtRevalidate(args))
  }

  ghost function DoFlip(cfg: Config, s: State, o: OpId): State {
    if o in s.ops && s.ops[o].Settling? && s.ops[o].pc.AtFlip? && s.ops[o].id in s.rows && !Locked(s, s.ops[o].id)
    then s.(ops := s.ops[o := Flipped(cfg, s.ops[o], s.rows[s.ops[o].id])]) else s
  }

  ghost predicate Working(s: State, o: OpId) {
    o in s.ops && s.ops[o].Settling? && s.ops[o].work.Some?
  }

  ghost function DoRevalidate(s: State, o: OpId, a: RevalidateAnswer): State {
    if Working(s, o) && s.ops[o].pc.AtRevalidate? then
      var op := s.ops[o];
      s.(ops := s.ops[o := match a
                           case Free => op.(pc := AtClaim(op.pc.args))
                           case Busy => op.(work := Some(op.work.value.(status := Stale)), pc := AtCommit(OutStale))
                           case RevalidateThrows => op.(work := Some(op.work.value.(status := Pending)), pc := AtCommit(OutFailed))])
    else s
  }

  ghost function DoClaim(s: State, o: OpId): State {
    if Working(s, o) && s.ops[o].pc.AtClaim? then
      var op := s.ops[o];
      s.(ops := s.ops[o := op.(work := Some(op.work.value.(status := Executed)), pc := AtExecute(op.pc.args))])
    else s
  }

  ghost function DoExecute(cfg: Config, s: State, o: OpId, a: CreateAnswer): State {
    if Working(s, o) && s.ops[o].pc.AtExecute? then
      var op := s.ops[o];
      var args := op.pc.args;
      var e := Event(args.owner, cfg.hash(op.id), args, op.id);
      var failed := op.(work := Some(op.work.value.(status := Pending)), pc := AtCommit(OutFailed));
      var s1 := s.(attempts := s.attempts + [Attempt(op.id, args, op.via)]);
      match a
      case Answered =>
        var created := !OnCalendar(s.events, e.owner, e.eventId);
        s1.(events := Create(s.events, e), ops := s.ops[o := op.(pc := AtCommit(OutExecuted(created)))])
      case NotLanded =>
        s1.(ops := s.ops[o := failed])
      case LandedThenThrew =>
        var created := !OnCalendar(s.events, e.owner, e.eventId);
        s1.(events := Create(s.events, e), ops := s.ops[o := failed],
            orphans := if created then s.orphans + {op.id} else s.orphans)
    else s
  }

  ghost function DoCommit(s: State, o: OpId): State {
    if o in s.ops && s.ops[o].Settling? && s.ops[o].pc.AtCommit? then
      var op := s.ops[o];
      var s1 := s.(ops := s.ops - {o});
      if op.work.None? then s1
      else s1.(rows := s.rows[op.id := op.work.value],
               commits := if op.work.value.status.Executed? then s.commits + multiset{op.id} else s.commits)
    else s
  }

  ghost function DoOpenRefine(cfg: Config, s: State, o: OpId, c: ConversationId, id: ActionId, patch: Json): State {
    if CanOpen(cfg, s, o, c) && id in s.rows && s.rows[id].conversation == c
    then s.(ops := s.ops[o := Refining(c, id, s.rows[id], patch)]) else s
  }

  /** The guarded UPDATE of a refinement and its commit. */
  ghost function DoRefine(cfg: Config, s: State, o: OpId): State {
    if o in s.ops && s.ops[o].Refining? && s.ops[o].id in s.rows && !Locked(s, s.ops[o].id) then
      var op := s.ops[o];
      var row := s.rows[op.id];
      var call := RefinedCall(cfg, op.snap.call, op.patch);
      var s1 := s.(ops := s.ops - {o});
      if call.Some? && row.status.Pending?
      then s1.(rows := s.rows[op.id := row.(call := call.value, prompt := None)]) else s1
    else s
  }

  /** `order` lists exactly the conversation's pending rows without a stamp. */
  ghost predicate Unstamped(s: State, c: ConversationId, order: seq<ActionId>) {
    && (forall i :: 0 <= i < |order| ==>
          && order[i] in s.rows && s.rows[order[i]].conversation == c
          && s.rows[order[i]].status.Pending? && s.rows[order[i]].prompt.None?)
    && (forall id :: id in s.rows && s.rows[id].conversation == c && s.rows[id].status.Pending? && s.rows[id].prompt.None?
          ==> id in order)
    && (forall i, j :: 0 <= i < j < |order| ==> order[i] != order[j])
  }

  ghost function DoOpenPrompts(cfg: Config, s: State, o: OpId, c: ConversationId, order: seq<ActionId>): State {
    if CanOpen(cfg, s, o, c) && Unstamped(s, c, order)
    then s.(ops := s.ops[o := Prompting(c, seq(|order|, i requires 0 <= i < |order| => (order[i], s.rows[order[i]])), None)])
    else s
  }

  /** A send returns a message id no earlier send had. */
  ghost function DoSendPrompt(s: State, o: OpId, m: MessageId): State {
    if o in s.ops && s.ops[o].Prompting? && s.ops[o].todo != [] && s.ops[o].inFlight.None? && m !in s.shown then
      var (id, snap) := s.ops[o].todo[0];
      s.(ops := s.ops[o := s.ops[o].(inFlight := Some(m))], shown := s.shown[m := Shown(id, snap.call)])
    else s
  }

  /** The stamp is status-blind, as the source's UPDATE is. */
  ghost function DoStampPrompt(s: State, o: OpId): State {
    if o in s.ops && s.ops[o].Prompting? && s.ops[o].todo != [] && s.ops[o].inFlight.Some?
       && s.ops[o].todo[0].0 in s.rows && !Locked(s, s.ops[o].todo[0].0) then
      var op := s.ops[o];
      var id := op.todo[0].0;
      s.(ops := s.ops[o := op.(todo := op.todo[1..], inFlight := None)],
         rows := s.rows[id := s.rows[id].(prompt := op.inFlight)])
    else s
  }

  /** A permanently unroutable prompt is dead-lettered and stays unstamped. */
  ghost function DoSkipPrompt(s: State, o: OpId): State {
    if o in s.ops && s.ops[o].Prompting? && s.ops[o].todo != [] && s.ops[o].inFlight.None?
    then s.(ops := s.ops[o := s.ops[o].(todo := s.ops[o].todo[1..])]) else s
  }

  ghost function DoEndPrompts(s: State, o: OpId): State {
    if o in s.ops && s.ops[o].Prompting? && s.ops[o].todo == [] then s.(ops := s.ops - {o}) else s
  }

  /** A crash rolls the step's transaction back; what left the process stays. */
  ghost function DoCrash(s: State, o: OpId): State {
    if o in s.ops then
      var op := s.ops[o];
      var landed := op.Settling? && op.pc == AtCommit(OutExecuted(true));
      s.(ops := s.ops - {o}, orphans := if landed then s.orphans + {op.id} else s.orphans)
    else s
  }

  ghost function DoExpire(s: State, id: ActionId): State {
    if id in s.rows && !Locked(s, id) && s.rows[id].status.Pending?
    then s.(rows := s.rows[id := s.rows[id].(status := Expired)]) else s
  }

  ghost function Next(cfg: Config, s: State, l: Label): State {
    match l
    case Park(id, c, call, x) => DoPark(s, id, c, call, x)
    case OpenQuoted(o, c, q, id, d) => DoOpenQuoted(cfg, s, o, c, q, id, d)
    case OpenClassified(o, c, id, d) => DoOpenClassified(cfg, s, o, c, id, d)
    case Flip(o) => DoFlip(cfg, s, o)
    case Revalidate(o, a) => DoRevalidate(s, o, a)
    case Claim(o) => DoClaim(s, o)
    case Execute(o, a) => DoExecute(cfg, s, o, a)
    case Commit(o) => DoCommit(s, o)
    case OpenRefine(o, c, id, patch) => DoOpenRefine(cfg, s, o, c, id, patch)
    case Refine(o) => DoRefine(cfg, s, o)
    case OpenPrompts(o, c, order) => DoOpenPrompts(cfg, s, o, c, order)
    case SendPrompt(o, m) => DoSendPrompt(s, o, m)
    case StampPrompt(o) => DoStampPrompt(s, o)
    case SkipPrompt(o) => DoSkipPrompt(s, o)
    case EndPrompts(o) => DoEndPrompts(s, o)
    case Crash(o) => DoCrash(s, o)
    case Expire(id) => DoExpire(s, id)
  }

  ghost function Run(cfg: Config, s: State, labels: seq<Label>): State
    decreases |labels|
  {
    if labels == [] then s else Run(cfg, Next(cfg, s, labels[0]), labels[1..])
  }
}
