/**
 Ingestion over a transport that redelivers what was never acknowledged: handlers
 run concurrently, enqueues fail with or without their row, the process crashes.
 */
module Ingest {
  import opened Prelude

  type MessageId = string

  /** What the seam decides on: whether the payload parses, whether the chat is the household's, whether the bot sent it. */
  datatype Message = Message(valid: bool, household: bool, echo: bool)

  datatype Outcome = Enqueued | SelfEcho | IgnoredConversation | Invalid | EnqueueFailed

  /** The message must reach the inbox. */
  predicate Wanted(m: Message) {
    m.valid && m.household && !m.echo
  }

  /** How the durable enqueue ends; one that fails may have committed its row all the same. */
  datatype EnqueueAnswer = Works | Fails(landed: bool)

  /** One call of the ingestion seam: what it does to the inbox, and whether it acknowledges. */
  method IngestOne(id: MessageId, m: Message, answer: EnqueueAnswer, inbox: seq<MessageId>)
    returns (outcome: Outcome, inbox': seq<MessageId>, acks: bool)
    ensures inbox' == if Wanted(m) && (answer.Works? || answer.landed) then InsertIfAbsent(inbox, id) else inbox
    ensures acks <==> (Wanted(m) ==> answer.Works?)
    ensures acks && Wanted(m) ==> id in inbox'
    ensures outcome == if !m.valid then Invalid else if !m.household then IgnoredConversation
                       else if m.echo then SelfEcho else if answer.Works? then Enqueued else EnqueueFailed
  {
    inbox' := inbox;
    if !m.valid { return Invalid, inbox, true; }
    if !m.household { return IgnoredConversation, inbox, true; }
    if m.echo { return SelfEcho, inbox, true; }
    if answer.Works? || answer.landed { inbox' := InsertIfAbsent(inbox, id); }
    if answer.Fails? { return EnqueueFailed, inbox', false; }
    return Enqueued, inbox', true;
  }

  // ----- The transport -----

  function Remove(ids: seq<MessageId>, id: MessageId): (r: seq<MessageId>)
    ensures forall x :: x in r <==> x in ids && x != id
  {
    if ids == [] then [] else (if ids[0] == id then [] else [ids[0]]) + Remove(ids[1..], id)
  }

  class StubTransport {
    var open: bool
    var unacked: seq<MessageId>
    var dispatched: seq<MessageId>

    /** A server delivery: remembered until acknowledged, dispatched when the socket is open. */
    method Deliver(id: MessageId)
      modifies this
      ensures open == old(open) && unacked == if id in old(unacked) then old(unacked) else old(unacked) + [id]
      ensures dispatched == if open then old(dispatched) + [id] else old(dispatched)
    {
      if id !in unacked { unacked := unacked + [id]; }
      if open { dispatched := dispatched + [id]; }
    }

    /** Every (re)connect redelivers whatever was never acknowledged, in the original order. */
    method Connect()
      modifies this
      ensures open && unacked == old(unacked) && dispatched == old(dispatched) + old(unacked)
    {
      open := true;
      var all := unacked;
      for i := 0 to |all|
        invariant open && unacked == all == old(unacked) && dispatched == old(dispatched) + all[..i]
      {
        dispatched := dispatched + [all[i]];
      }
      assert all[..|all|] == all;
    }

    method Ack(id: MessageId)
      modifies this`unacked
      ensures unacked == Remove(old(unacked), id)
    {
      unacked := Remove(unacked, id);
    }
  }

  // ----- Handlers in flight -----

  datatype Pc = Filtering | Enqueueing | Acking
  datatype Handler = Handler(id: MessageId, pc: Pc)

  /** `delivered` and `acked` are history. */
  datatype State = State(open: bool, unacked: seq<MessageId>, handlers: multiset<Handler>, inbox: seq<MessageId>,
                         delivered: set<MessageId>, acked: set<MessageId>)

  const Initial := State(false, [], multiset{}, [], {}, {})

  datatype Label =
    | Deliver(id: MessageId)
    | Connect
    | Disconnect
    | Filter(id: MessageId)
    | EnqueueWorks(id: MessageId)
    | EnqueueFails(id: MessageId, landed: bool)
    | Ack(id: MessageId)
    | Crash

  function Dispatch(ids: seq<MessageId>): multiset<Handler> {
    if ids == [] then multiset{} else multiset{Handler(ids[0], Filtering)} + Dispatch(ids[1..])
  }

  function Move(s: State, id: MessageId, from: Pc, to: Pc): State {
    s.(handlers := s.handlers - multiset{Handler(id, from)} + multiset{Handler(id, to)})
  }

  /** `message` is what each id carries. */
  function Next(message: MessageId -> Message, s: State, l: Label): State {
    match l
    case Deliver(id) =>
      s.(unacked := InsertIfAbsent(s.unacked, id), delivered := s.delivered + {id},
         handlers := if s.open then s.handlers + multiset{Handler(id, Filtering)} else s.handlers)
    case Connect => s.(open := true, handlers := s.handlers + Dispatch(s.unacked))
    case Disconnect => s.(open := false)
    case Filter(id) =>
      if Handler(id, Filtering) in s.handlers then Move(s, id, Filtering, if Wanted(message(id)) then Enqueueing else Acking) else s
    case EnqueueWorks(id) =>
      if Handler(id, Enqueueing) in s.handlers
      then Move(s, id, Enqueueing, Acking).(inbox := InsertIfAbsent(s.inbox, id)) else s
    case EnqueueFails(id, landed) =>
      if Handler(id, Enqueueing) in s.handlers
      then s.(handlers := s.handlers - multiset{Handler(id, Enqueueing)}, inbox := if landed then InsertIfAbsent(s.inbox, id) else s.inbox)
      else s
    case Ack(id) =>
      if Handler(id, Acking) in s.handlers
      then s.(handlers := s.handlers - multiset{Handler(id, Acking)}, unacked := Remove(s.unacked, id), acked := s.acked + {id})
      else s
    case Crash => s.(open := false, handlers := multiset{})
  }

  function Run(message: MessageId -> Message, s: State, labels: seq<Label>): State
    decreases |labels|
  {
    if labels == [] then s else Run(message, Next(message, s, labels[0]), labels[1..])
  }

  // ----- Nothing is lost -----

  ghost predicate AckingHasRow(message: MessageId -> Message, s: State) {
    forall id :: Handler(id, Acking) in s.handlers && Wanted(message(id)) ==> id in s.inbox
  }

  ghost predicate Kept(message: MessageId -> Message, s: State) {
    && (forall id :: id in s.acked && Wanted(message(id)) ==> id in s.inbox)
    && (forall id :: id in s.delivered ==> id in s.unacked || id in s.acked)
    && (forall i, j :: 0 <= i < j < |s.inbox| ==> s.inbox[i] != s.inbox[j])
  }

  ghost predicate Safe(message: MessageId -> Message, s: State) {
    AckingHasRow(message, s) && Kept(message, s)
  }

  lemma {:induction false} DispatchFilters(ids: seq<MessageId>, h: Handler)
    ensures h in Dispatch(ids) <==> h.id in ids && h.pc.Filtering?
  {
    if ids != [] { DispatchFilters(ids[1..], h); }
  }

  lemma AckingStep(message: MessageId -> Message, s: State, l: Label)
    requires AckingHasRow(message, s)
    ensures AckingHasRow(message, Next(message, s, l))
  {
    var t := Next(message, s, l);
    forall id | Handler(id, Acking) in t.handlers && Wanted(message(id)) ensures id in t.inbox {
      if l.Connect? { DispatchFilters(s.unacked, Handler(id, Acking)); }
      assert Handler(id, Acking) in s.handlers || (l.EnqueueWorks? && l.id == id);
    }
  }

  lemma KeptStep(message: MessageId -> Message, s: State, l: Label)
    requires Safe(message, s)
    ensures Kept(message, Next(message, s, l))
  {
  }

  lemma SafeStep(message: MessageId -> Message, s: State, l: Label)
    requires Safe(message, s)
    ensures Safe(message, Next(message, s, l))
  {
    AckingStep(message, s, l);
    KeptStep(message, s, l);
  }

  lemma {:induction false} SafeRun(message: MessageId -> Message, s: State, labels: seq<Label>)
    requires Safe(message, s)
    ensures Safe(message, Run(message, s, labels))
    decreases |labels|
  {
    if labels != [] {
      SafeStep(message, s, labels[0]);
      SafeRun(message, Next(message, s, labels[0]), labels[1..]);
    }
  }

  /**
   Under any order of deliveries, crashes, reconnects and enqueue failures: a wanted
   message that was delivered is still to be redelivered or has its inbox row, an
   acknowledged one has it, and no message has two.
   */
  lemma NoMessageLost(message: MessageId -> Message, labels: seq<Label>)
    ensures var s := Run(message, Initial, labels);
      && (forall id :: id in s.delivered && Wanted(message(id)) ==> id in s.unacked || id in s.inbox)
      && (forall id :: id in s.acked && Wanted(message(id)) ==> id in s.inbox)
      && (forall i, j :: 0 <= i < j < |s.inbox| ==> s.inbox[i] != s.inbox[j])
  {
    SafeRun(message, Initial, labels);
  }

  // ----- A reconnect that works -----

  /** Steps of handlers that all succeed. */
  predicate Smooth(l: Label) {
    l.Filter? || l.EnqueueWorks? || l.Ack?
  }

  ghost predicate InHand(s: State, id: MessageId) {
    Handler(id, Filtering) in s.handlers || Handler(id, Enqueueing) in s.handlers || Handler(id, Acking) in s.handlers
  }

  ghost predicate AllInHand(s: State) {
    forall id :: id in s.unacked ==> InHand(s, id)
  }

  lemma SmoothStep(message: MessageId -> Message, s: State, l: Label)
    requires AllInHand(s) && Smooth(l)
    ensures AllInHand(Next(message, s, l))
  {
    var t := Next(message, s, l);
    forall id | id in t.unacked ensures InHand(t, id) {
      SmoothUnacked(message, s, l, id);
      if id == l.id { StillInHand(message, s, l); } else { OthersInHand(message, s, l, id); }
    }
  }

  lemma SmoothUnacked(message: MessageId -> Message, s: State, l: Label, id: MessageId)
    requires Smooth(l) && id in Next(message, s, l).unacked
    ensures id in s.unacked
  {
  }

  lemma OthersInHand(message: MessageId -> Message, s: State, l: Label, id: MessageId)
    requires Smooth(l) && InHand(s, id) && id != l.id
    ensures InHand(Next(message, s, l), id)
  {
    OthersKeep(message, s, l, Handler(id, Filtering));
    OthersKeep(message, s, l, Handler(id, Enqueueing));
    OthersKeep(message, s, l, Handler(id, Acking));
    hide Next;
  }

  lemma OthersKeep(message: MessageId -> Message, s: State, l: Label, h: Handler)
    requires Smooth(l) && h.id != l.id
    ensures Next(message, s, l).handlers[h] >= s.handlers[h]
  {
    hide InsertIfAbsent, Remove;
  }

  lemma StillInHand(message: MessageId -> Message, s: State, l: Label)
    requires Smooth(l) && InHand(s, l.id) && l.id in Next(message, s, l).unacked
    ensures InHand(Next(message, s, l), l.id)
  {
  }

  lemma {:induction false} SmoothRun(message: MessageId -> Message, s: State, labels: seq<Label>)
    requires AllInHand(s) && forall i :: 0 <= i < |labels| ==> Smooth(labels[i])
    ensures AllInHand(Run(message, s, labels))
    decreases |labels|
  {
    if labels != [] {
      SmoothStep(message, s, labels[0]);
      SmoothRun(message, Next(message, s, labels[0]), labels[1..]);
    }
  }

  /**
   A reconnect after which every handler succeeds, in whatever order they interleave,
   leaves nothing unacknowledged, and every wanted message delivered has its row.
   */
  lemma ReconnectClears(message: MessageId -> Message, before: seq<Label>, after: seq<Label>)
    requires forall i :: 0 <= i < |after| ==> Smooth(after[i])
    requires Run(message, Next(message, Run(message, Initial, before), Connect), after).handlers == multiset{}
    ensures var t := Run(message, Next(message, Run(message, Initial, before), Connect), after);
      t.unacked == [] && forall id :: id in t.delivered && Wanted(message(id)) ==> id in t.inbox
  {
    var s := Run(message, Initial, before);
    var s1 := Next(message, s, Connect);
    SafeRun(message, Initial, before);
    SafeStep(message, s, Connect);
    SafeRun(message, s1, after);
    forall id | id in s1.unacked ensures InHand(s1, id) {
      DispatchFilters(s.unacked, Handler(id, Filtering));
    }
    SmoothRun(message, s1, after);
    var t := Run(message, s1, after);
    assert t.unacked != [] ==> InHand(t, t.unacked[0]);
  }
}
