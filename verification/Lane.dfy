/**
 The conversation lane as a transition system with crashes: durable enqueue
 workflows, the inbox, one queued drain per message, one running drain per
 conversation, and the turns the drains start.

 A drain workflow is a program driven by journaled answers (`Advance`).  Its
 memory is lost in a crash and rebuilt by replaying the journal; a transactional
 step commits its write and its journal entry together.
 */
module Lane {
  import opened Prelude
  import opened Debounce

  type MessageId = string
  type ConversationId = string
  type WorkflowId = string

  // ----- The drain workflow -----

  datatype Answer = Rows(rows: seq<Item>) | Slept | BatchDone | Marked

  datatype Pc =
    | AtRead
    | AtSleep(pending: seq<Item>, waitedMs: int)
    | AtReread(pending: seq<Item>, waitedMs: int)
    | AtBatch(rest: seq<seq<Item>>)
    | AtMark(rest: seq<seq<Item>>)
    | Returned

  /** `home` gives a message id's conversation: a redelivery carries the same one. */
  datatype Config = Config(silenceWindowMs: int, maxQuietWaitMs: int, home: MessageId -> ConversationId)

  function ToBatches(items: seq<Item>): Pc {
    var batches := Batches(SortByNum(items));
    if batches == [] then AtRead else AtBatch(batches)
  }

  /** What the workflow body does with the next answer; an answer of another kind never comes. */
  function Advance(cfg: Config, pc: Pc, a: Answer): Pc {
    match (pc, a)
    case (AtRead, Rows(rows)) => if rows == [] then Returned else AtSleep(rows, 0)
    case (AtSleep(pending, waited), Slept) => AtReread(pending, waited + cfg.silenceWindowMs)
    case (AtReread(pending, waited), Rows(next)) =>
      if |next| > |pending| && waited < cfg.maxQuietWaitMs then AtSleep(next, waited) else ToBatches(next)
    case (AtBatch(rest), BatchDone) => AtMark(rest)
    case (AtMark(rest), Marked) => if |rest| <= 1 then AtRead else AtBatch(rest[1..])
    case (_, _) => pc
  }

  function Replay(cfg: Config, journal: seq<Answer>): Pc
    decreases |journal|
  {
    if journal == [] then AtRead
    else Advance(cfg, Replay(cfg, journal[..|journal| - 1]), journal[|journal| - 1])
  }

  lemma ReplaySnoc(cfg: Config, journal: seq<Answer>, a: Answer)
    ensures Replay(cfg, journal + [a]) == Advance(cfg, Replay(cfg, journal), a)
  {
    assert (journal + [a])[..|journal|] == journal;
  }

  // ----- The state -----

  datatype Draft = Draft(conversation: ConversationId, kind: Kind, sender: string, messageId: MessageId)
  datatype EnqueuePc = ToInsert | ToStartDrain | Enqueued
  datatype Enqueue = Enqueue(draft: Draft, pc: EnqueuePc)

  datatype Status = Queued | Running | Finished | Failed
  datatype Drain = Drain(conversation: ConversationId, status: Status, journal: seq<Answer>, memory: Option<Pc>)

  /**
   `asked` records every (turn id, batch) with which a turn was ever started, and
   `completed` the batches whose rows were marked, per conversation: history.
   */
  datatype State = State(inbox: seq<Item>, processed: set<nat>, enqueues: map<WorkflowId, Enqueue>,
                         drains: map<MessageId, Drain>, asked: set<(MessageId, seq<Item>)>,
                         completed: map<ConversationId, seq<seq<Item>>>)

  const Initial := State([], {}, map[], map[], {}, map[])

  /** A conversation's rows in commit order. */
  function Mine(inbox: seq<Item>, c: ConversationId): seq<Item>
    decreases |inbox|
  {
    if inbox == [] then []
    else
      var n := |inbox| - 1;
      Mine(inbox[..n], c) + if inbox[n].conversation == c then [inbox[n]] else []
  }

  /** What a read returns: the conversation's unprocessed rows in commit order. */
  function Pending(inbox: seq<Item>, processed: set<nat>, c: ConversationId): seq<Item>
    decreases |inbox|
  {
    if inbox == [] then []
    else
      var n := |inbox| - 1;
      Pending(inbox[..n], processed, c)
      + if inbox[n].conversation == c && inbox[n].num !in processed then [inbox[n]] else []
  }

  predicate Contains(inbox: seq<Item>, m: MessageId) {
    exists i :: 0 <= i < |inbox| && inbox[i].messageId == m
  }

  function Completed(s: State, c: ConversationId): seq<seq<Item>> {
    if c in s.completed then s.completed[c] else []
  }

  function Nums(batch: seq<Item>): set<nat> {
    set i | 0 <= i < |batch| :: batch[i].num
  }

  datatype Label =
    | StartEnqueue(w: WorkflowId, draft: Draft)
    | InsertRow(w: WorkflowId)
    | StartDrain(w: WorkflowId)
    | BeginDrain(m: MessageId)
    | Sleep(m: MessageId)
    | Read(m: MessageId)
    | StartTurn(m: MessageId)
    | FinishTurn(m: MessageId)
    | FailTurn(m: MessageId)
    | Mark(m: MessageId)
    | Crash
    | Recover(m: MessageId)

  // ----- The steps; a label that is not enabled leaves the state as it is -----

  /** A workflow id starts at most one workflow. */
  function DoStartEnqueue(cfg: Config, s: State, w: WorkflowId, d: Draft): State {
    if w !in s.enqueues && d.conversation == cfg.home(d.messageId)
    then s.(enqueues := s.enqueues[w := Enqueue(d, ToInsert)]) else s
  }

  /** Insert-if-absent on the message id, with the step's checkpoint. */
  function DoInsertRow(s: State, w: WorkflowId): State {
    if w in s.enqueues && s.enqueues[w].pc.ToInsert? then
      var d := s.enqueues[w].draft;
      var s1 := s.(enqueues := s.enqueues[w := Enqueue(d, ToStartDrain)]);
      if Contains(s.inbox, d.messageId) then s1
      else s1.(inbox := s.inbox + [Item(|s.inbox|, d.conversation, d.kind, d.sender, d.messageId)])
    else s
  }

  /** The drain's id comes from the message, so a second start of it is a no-op. */
  function DoStartDrain(s: State, w: WorkflowId): State {
    if w in s.enqueues && s.enqueues[w].pc.ToStartDrain? then
      var d := s.enqueues[w].draft;
      var s1 := s.(enqueues := s.enqueues[w := Enqueue(d, Enqueued)]);
      if d.messageId in s.drains then s1
      else s1.(drains := s.drains[d.messageId := Drain(d.conversation, Queued, [], None)])
    else s
  }

  /** The partition's slot admits one drain. */
  ghost function DoBeginDrain(s: State, m: MessageId): State {
    if m in s.drains && s.drains[m].status.Queued?
       && (forall k :: k in s.drains && s.drains[k].status.Running? ==> s.drains[k].conversation != s.drains[m].conversation)
    then s.(drains := s.drains[m := s.drains[m].(status := Running, memory := Some(AtRead))]) else s
  }

  predicate Live(s: State, m: MessageId) {
    m in s.drains && s.drains[m].status.Running? && s.drains[m].memory.Some?
  }

  /** Journals an answer and goes on from memory. */
  function Take(cfg: Config, d: Drain, a: Answer): Drain
    requires d.memory.Some?
  {
    var pc := Advance(cfg, d.memory.value, a);
    d.(journal := d.journal + [a], memory := Some(pc), status := if pc.Returned? then Finished else d.status)
  }

  function DoSleep(cfg: Config, s: State, m: MessageId): State {
    if Live(s, m) && s.drains[m].memory.value.AtSleep?
    then s.(drains := s.drains[m := Take(cfg, s.drains[m], Slept)]) else s
  }

  function DoRead(cfg: Config, s: State, m: MessageId): State {
    if Live(s, m) && (s.drains[m].memory.value.AtRead? || s.drains[m].memory.value.AtReread?)
    then s.(drains := s.drains[m := Take(cfg, s.drains[m], Rows(Pending(s.inbox, s.processed, s.drains[m].conversation)))])
    else s
  }

  predicate AtTurn(s: State, m: MessageId) {
    Live(s, m) && s.drains[m].memory.value.AtBatch?
    && s.drains[m].memory.value.rest != [] && s.drains[m].memory.value.rest[0] != []
  }

  function Current(s: State, m: MessageId): seq<Item>
    requires AtTurn(s, m)
  {
    s.drains[m].memory.value.rest[0]
  }

  /** Starting the turn is a plain effect: it may happen again after a crash. */
  function DoStartTurn(s: State, m: MessageId): State {
    if AtTurn(s, m) then s.(asked := s.asked + {(Current(s, m)[0].messageId, Current(s, m))}) else s
  }

  function DoFinishTurn(cfg: Config, s: State, m: MessageId): State {
    if AtTurn(s, m) && (Current(s, m)[0].messageId, Current(s, m)) in s.asked
    then s.(drains := s.drains[m := Take(cfg, s.drains[m], BatchDone)]) else s
  }

  /** The turn ends in ERROR, and so does the drain: it is never recovered. */
  function DoFailTurn(s: State, m: MessageId): State {
    if AtTurn(s, m) && (Current(s, m)[0].messageId, Current(s, m)) in s.asked
    then s.(drains := s.drains[m := s.drains[m].(status := Failed)]) else s
  }

  /** The rows' mark and the step's checkpoint commit together. */
  function DoMark(cfg: Config, s: State, m: MessageId): State {
    if Live(s, m) && s.drains[m].memory.value.AtMark? && s.drains[m].memory.value.rest != [] then
      var d := s.drains[m];
      var batch := d.memory.value.rest[0];
      s.(processed := s.processed + Nums(batch), drains := s.drains[m := Take(cfg, d, Marked)],
         completed := s.completed[d.conversation := Completed(s, d.conversation) + [batch]])
    else s
  }

  /** Every drain's memory goes; journals, queue slots and rows stay. */
  function DoCrash(s: State): State {
    s.(drains := map m | m in s.drains :: s.drains[m].(memory := None))
  }

  function DoRecover(cfg: Config, s: State, m: MessageId): State {
    if m in s.drains && s.drains[m].status.Running? && s.drains[m].memory.None?
    then s.(drains := s.drains[m := s.drains[m].(memory := Some(Replay(cfg, s.drains[m].journal)))]) else s
  }

  ghost function Next(cfg: Config, s: State, l: Label): State {
    match l
    case StartEnqueue(w, d) => DoStartEnqueue(cfg, s, w, d)
    case InsertRow(w) => DoInsertRow(s, w)
    case StartDrain(w) => DoStartDrain(s, w)
    case BeginDrain(m) => DoBeginDrain(s, m)
    case Sleep(m) => DoSleep(cfg, s, m)
    case Read(m) => DoRead(cfg, s, m)
    case StartTurn(m) => DoStartTurn(s, m)
    case FinishTurn(m) => DoFinishTurn(cfg, s, m)
    case FailTurn(m) => DoFailTurn(s, m)
    case Mark(m) => DoMark(cfg, s, m)
    case Crash => DoCrash(s)
    case Recover(m) => DoRecover(cfg, s, m)
  }

  ghost function Run(cfg: Config, s: State, labels: seq<Label>): State
    decreases |labels|
  {
    if labels == [] then s else Run(cfg, Next(cfg, s, labels[0]), labels[1..])
  }
}
