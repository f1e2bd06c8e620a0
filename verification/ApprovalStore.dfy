/**
 The bodies the protocol's transactions run, in the order the source runs them:
 guarded in-place row updates, the settle core, refinement, prompting and parking.
 `SettleIsItsSteps` ties the settle core, run without interruption, to the
 transition system.
 */
module ApprovalStore {
  import opened Prelude
  import opened Approvals
  import opened ApprovalSafety
  import AR = ApprovalRefine

  // ----- What one uninterrupted settle does -----

  /** The outcome, from the row's status, the decision and the answers of the outside world. */
  function SettleOutcome(cfg: Config, snap: Row, id: ActionId, status: Status, d: Decision,
                         revalidate: RevalidateAnswer, create: CreateAnswer, events: seq<Event>): Outcome {
    if !status.Pending? then OutAlreadyResolved(status)
    else if d.Deny? then OutDenied
    else match ParseCall(cfg, snap.call)
      case None => OutStale
      case Some(args) =>
        match revalidate
        case Busy => OutStale
        case RevalidateThrows => OutFailed
        case Free => if create.Answered? then OutExecuted(!OnCalendar(events, args.owner, cfg.hash(id))) else OutFailed
  }

  /** The status an outcome leaves: a failed attempt is approvable again, a lost race changes nothing. */
  function StatusAfter(outcome: Outcome, before: Status): Status {
    match outcome
    case OutUnbound => before
    case OutExecuted(_) => Executed
    case OutDenied => Denied
    case OutStale => Stale
    case OutFailed => Pending
    case OutAlreadyResolved(_) => before
  }

  /** Whether the attempt reaches the calendar: approved, parsed, free, and the request not lost on the way out. */
  predicate Posts(cfg: Config, snap: Row, status: Status, d: Decision, revalidate: RevalidateAnswer, create: CreateAnswer) {
    status.Pending? && d.Approve? && ParseCall(cfg, snap.call).Some? && revalidate.Free? && !create.NotLanded?
  }

  function EventsAfter(cfg: Config, snap: Row, id: ActionId, status: Status, d: Decision,
                       revalidate: RevalidateAnswer, create: CreateAnswer, events: seq<Event>): seq<Event> {
    if Posts(cfg, snap, status, d, revalidate, create) then
      var args := ParseCall(cfg, snap.call).value;
      Create(events, Event(args.owner, cfg.hash(id), args, id))
    else events
  }

  /** The five steps of a settle, none of them interleaved; a step whose branch is not taken does nothing. */
  ghost function Uninterrupted(cfg: Config, s: State, o: OpId, revalidate: RevalidateAnswer, create: CreateAnswer): State {
    DoCommit(DoExecute(cfg, DoClaim(DoRevalidate(DoFlip(cfg, s, o), o, revalidate), o), o, create), o)
  }

  lemma SettleIsItsSteps(cfg: Config, s: State, o: OpId, revalidate: RevalidateAnswer, create: CreateAnswer)
    requires o in s.ops && s.ops[o].Settling? && s.ops[o].pc.AtFlip? && s.ops[o].work.None?
    requires s.ops[o].id in s.rows && !Locked(s, s.ops[o].id)
    ensures var op := s.ops[o];
      var status := s.rows[op.id].status;
      var t := Uninterrupted(cfg, s, o, revalidate, create);
      var outcome := SettleOutcome(cfg, op.snap, op.id, status, op.decision, revalidate, create, s.events);
      && t.rows == s.rows[op.id := s.rows[op.id].(status := StatusAfter(outcome, status))]
      && t.events == EventsAfter(cfg, op.snap, op.id, status, op.decision, revalidate, create, s.events)
      && t.ops == s.ops - {o} && t.shown == s.shown
  {
    var s1 := DoFlip(cfg, s, o);
    FlipEffect(cfg, s, o);
    var s4 := DoExecute(cfg, DoClaim(DoRevalidate(s1, o, revalidate), o), o, create);
    if s1.ops[o].pc.AtRevalidate? {
      AttemptSteps(cfg, s1, o, revalidate, create);
    } else {
      assert s4 == s1;
    }
    CommitEffect(s4, o);
  }

  lemma FlipEffect(cfg: Config, s: State, o: OpId)
    requires o in s.ops && s.ops[o].Settling? && s.ops[o].pc.AtFlip? && s.ops[o].work.None?
    requires s.ops[o].id in s.rows && !Locked(s, s.ops[o].id)
    ensures var t := DoFlip(cfg, s, o);
      var op := s.ops[o];
      var row := s.rows[op.id];
      && t == s.(ops := t.ops) && o in t.ops && t.ops - {o} == s.ops - {o}
      && t.ops[o].Settling? && t.ops[o].id == op.id
      && (if !row.status.Pending? then t.ops[o].work.None? && t.ops[o].pc.AtCommit?
          else if op.decision.Deny? then t.ops[o].work == Some(row.(status := Denied)) && t.ops[o].pc.AtCommit?
          else match ParseCall(cfg, op.snap.call)
               case None => t.ops[o].work == Some(row.(status := Stale)) && t.ops[o].pc.AtCommit?
               case Some(args) => t.ops[o].work == Some(row.(status := Approved)) && t.ops[o].pc == AtRevalidate(args))
  {
    assert DoFlip(cfg, s, o) == s.(ops := s.ops[o := Flipped(cfg, s.ops[o], s.rows[s.ops[o].id])]);
  }

  lemma CommitEffect(s: State, o: OpId)
    requires o in s.ops && s.ops[o].Settling? && s.ops[o].pc.AtCommit?
    ensures var t := DoCommit(s, o);
      && t.rows == (if s.ops[o].work.Some? then s.rows[s.ops[o].id := s.ops[o].work.value] else s.rows)
      && t.events == s.events && t.ops == s.ops - {o} && t.shown == s.shown
  {
  }

  lemma AttemptSteps(cfg: Config, s: State, o: OpId, revalidate: RevalidateAnswer, create: CreateAnswer)
    requires Working(s, o) && s.ops[o].pc.AtRevalidate?
    ensures var op := s.ops[o];
      var t := DoExecute(cfg, DoClaim(DoRevalidate(s, o, revalidate), o), o, create);
      var e := Event(op.pc.args.owner, cfg.hash(op.id), op.pc.args, op.id);
      var status := match revalidate
                    case Busy => Stale
                    case RevalidateThrows => Pending
                    case Free => if create.Answered? then Executed else Pending;
      && o in t.ops && t.ops[o].Settling? && t.ops[o].id == op.id && t.ops[o].pc.AtCommit? && t.ops - {o} == s.ops - {o}
      && t.ops[o].work == Some(op.work.value.(status := status))
      && t.rows == s.rows && t.shown == s.shown
      && t.events == if revalidate.Free? && !create.NotLanded? then Create(s.events, e) else s.events
  {
    var op := s.ops[o];
    var s2 := DoRevalidate(s, o, revalidate);
    var s3 := DoClaim(s2, o);
    if revalidate.Free? {
      assert s3.ops[o] == op.(work := Some(op.work.value.(status := Executed)), pc := AtExecute(op.pc.args));
    } else {
      assert s3 == s2;
    }
  }

  // ----- The statements, over the rows the transaction sees -----

  class PendingActions {
    var rows: map<ActionId, Row>

    constructor ()
      ensures rows == map[]
    {
      rows := map[];
    }

    /** Whether the guard `status = from` holds, and the row with its status moved. */
    predicate Has(id: ActionId, from: Status)
      reads this
    {
      id in rows && rows[id].status == from
    }

    function With(id: ActionId, status: Status): map<ActionId, Row>
      reads this
      requires id in rows
    {
      rows[id := rows[id].(status := status)]
    }

    method MarkApproved(id: ActionId) returns (flipped: bool)
      modifies this
      ensures flipped == old(Has(id, Pending))
      ensures rows == if flipped then old(With(id, Approved)) else old(rows)
    {
      flipped := id in rows && rows[id].status == Pending;
      if flipped { rows := rows[id := rows[id].(status := Approved)]; }
    }

    method MarkDenied(id: ActionId) returns (flipped: bool)
      modifies this
      ensures flipped == old(Has(id, Pending))
      ensures rows == if flipped then old(With(id, Denied)) else old(rows)
    {
      flipped := id in rows && rows[id].status == Pending;
      if flipped { rows := rows[id := rows[id].(status := Denied)]; }
    }

    method MarkStale(id: ActionId) returns (flipped: bool)
      modifies this
      ensures flipped == old(Has(id, Approved))
      ensures rows == if flipped then old(With(id, Stale)) else old(rows)
    {
      flipped := id in rows && rows[id].status == Approved;
      if flipped { rows := rows[id := rows[id].(status := Stale)]; }
    }

    method MarkExpired(id: ActionId) returns (flipped: bool)
      modifies this
      ensures flipped == old(Has(id, Pending))
      ensures rows == if flipped then old(With(id, Expired)) else old(rows)
    {
      flipped := id in rows && rows[id].status == Pending;
      if flipped { rows := rows[id := rows[id].(status := Expired)]; }
    }

    method ReturnToPending(id: ActionId) returns (flipped: bool)
      modifies this
      ensures flipped == old(Has(id, Approved) || Has(id, Executed))
      ensures rows == if flipped then old(With(id, Pending)) else old(rows)
    {
      flipped := id in rows && (rows[id].status == Approved || rows[id].status == Executed);
      if flipped { rows := rows[id := rows[id].(status := Pending)]; }
    }

    method ClaimForExecution(id: ActionId) returns (claimed: Option<StoredCall>)
      modifies this
      ensures claimed == if old(Has(id, Approved)) then Some(old(rows[id].call)) else None
      ensures rows == if claimed.Some? then old(With(id, Executed)) else old(rows)
    {
      claimed := None;
      if id in rows && rows[id].status == Approved {
        claimed := Some(rows[id].call);
        rows := rows[id := rows[id].(status := Executed)];
      }
    }

    /** Parks a confirm-before call: a fresh pending row, unstamped. None when the id is taken (the INSERT fails). */
    method Park(id: ActionId, conversation: ConversationId, call: StoredCall, expiresAt: int) returns (inserted: bool)
      modifies this
      ensures inserted == (id !in old(rows))
      ensures rows == if inserted then old(rows)[id := Row(conversation, call, Pending, None, expiresAt)] else old(rows)
    {
      inserted := id !in rows;
      if inserted { rows := rows[id := Row(conversation, call, Pending, None, expiresAt)]; }
    }
  }

  class CalendarClient {
    var events: seq<Event>

    constructor ()
      ensures events == []
    {
      events := [];
    }

    /** One POST: `reached` says whether it got to the calendar; 409 folds into `created == false`. */
    method CreateEvent(e: Event, reached: bool) returns (created: bool)
      modifies this
      ensures created == (reached && !old(OnCalendar(events, e.owner, e.eventId)))
      ensures events == if reached then Create(old(events), e) else old(events)
    {
      created := false;
      if reached {
        var taken := false;
        for i := 0 to |events|
          invariant taken <==> exists k :: 0 <= k < i && events[k].owner == e.owner && events[k].eventId == e.eventId
          invariant events == old(events)
        {
          if events[i].owner == e.owner && events[i].eventId == e.eventId { taken := true; }
        }
        if !taken {
          events := events + [e];
          created := true;
        }
      }
    }
  }

  /**
   The settle core, as one transaction that nothing else enters.  `snap` is the
   row its caller read; the calendar keeps what reached it whatever happens next.
   */
  method SettleDecision(db: PendingActions, calendar: CalendarClient, cfg: Config, id: ActionId, snap: Row, d: Decision,
                        revalidate: RevalidateAnswer, create: CreateAnswer) returns (outcome: Outcome)
    requires id in db.rows
    modifies db, calendar
    ensures outcome == SettleOutcome(cfg, snap, id, old(db.rows[id].status), d, revalidate, create, old(calendar.events))
    ensures db.rows == old(db.rows)[id := old(db.rows[id]).(status := StatusAfter(outcome, old(db.rows[id].status)))]
    ensures calendar.events == EventsAfter(cfg, snap, id, old(db.rows[id].status), d, revalidate, create, old(calendar.events))
  {
    hide Create, OnCalendar, ParseCall;
    if d == Deny {
      var denied := db.MarkDenied(id);
      if !denied { return OutAlreadyResolved(db.rows[id].status); }
      return OutDenied;
    }
    var approved := db.MarkApproved(id);
    if !approved { return OutAlreadyResolved(db.rows[id].status); }
    outcome := ExecuteApproved(db, calendar, cfg, id, snap, revalidate, create);
  }

  /** The settle core behind the approving flip: parse, revalidate, claim, execute. */
  method ExecuteApproved(db: PendingActions, calendar: CalendarClient, cfg: Config, id: ActionId, snap: Row,
                         revalidate: RevalidateAnswer, create: CreateAnswer) returns (outcome: Outcome)
    requires id in db.rows && db.rows[id].status.Approved?
    modifies db, calendar
    ensures outcome == SettleOutcome(cfg, snap, id, Pending, Approve, revalidate, create, old(calendar.events))
    ensures db.rows == old(db.rows)[id := old(db.rows[id]).(status := StatusAfter(outcome, Pending))]
    ensures calendar.events == EventsAfter(cfg, snap, id, Pending, Approve, revalidate, create, old(calendar.events))
  {
    hide Create, OnCalendar, ParseCall;
    var args := ParseCall(cfg, snap.call);
    if args == None {
      var _ := db.MarkStale(id);
      return OutStale;
    }
    if revalidate == RevalidateThrows {
      var _ := db.ReturnToPending(id);
      return OutFailed;
    }
    if revalidate == Busy {
      var _ := db.MarkStale(id);
      return OutStale;
    }
    var claimed := db.ClaimForExecution(id);
    // The source also answers a failed claim here; the row was flipped above, so none fails.
    assert claimed != None;
    var created := calendar.CreateEvent(Event(args.value.owner, cfg.hash(id), args.value, id), create != NotLanded);
    if create != Answered {
      var _ := db.ReturnToPending(id);
      return OutFailed;
    }
    return OutExecuted(created);
  }

  datatype ReplyOutcome = Unbound | Unclear(id: ActionId) | Resolved(id: ActionId, outcome: Outcome)

  /** The quoted path: bind by conversation and stamp, then the shared core; an unclear reply touches nothing. */
  method ResolveApprovalReply(db: PendingActions, calendar: CalendarClient, cfg: Config, c: ConversationId, q: MessageId,
                              bound: Option<ActionId>, reply: Option<Decision>,
                              revalidate: RevalidateAnswer, create: CreateAnswer) returns (r: ReplyOutcome)
    requires match bound
             case Some(id) => id in db.rows && db.rows[id].conversation == c && db.rows[id].prompt == Some(q)
             case None => forall id :: id in db.rows && db.rows[id].conversation == c ==> db.rows[id].prompt != Some(q)
    modifies db, calendar
    ensures bound.None? ==> r == Unbound
    ensures bound.Some? && reply.None? ==> r == Unclear(bound.value)
    ensures bound.None? || reply.None? ==> db.rows == old(db.rows) && calendar.events == old(calendar.events)
    ensures bound.Some? && reply.Some? ==>
      var id := bound.value;
      var row := old(db.rows[id]);
      && r == Resolved(id, SettleOutcome(cfg, row, id, row.status, reply.value, revalidate, create, old(calendar.events)))
      && db.rows == old(db.rows)[id := row.(status := StatusAfter(r.outcome, row.status))]
      && calendar.events == EventsAfter(cfg, row, id, row.status, reply.value, revalidate, create, old(calendar.events))
  {
    if bound == None { return Unbound; }
    if reply == None { return Unclear(bound.value); }
    var outcome := SettleDecision(db, calendar, cfg, bound.value, db.rows[bound.value], reply.value, revalidate, create);
    return Resolved(bound.value, outcome);
  }

  /** The classified path: an id from another conversation settles nothing. */
  method ResolveClassifiedDecision(db: PendingActions, calendar: CalendarClient, cfg: Config, c: ConversationId, id: ActionId,
                                   d: Decision, revalidate: RevalidateAnswer, create: CreateAnswer) returns (outcome: Outcome)
    modifies db, calendar
    ensures !(id in old(db.rows) && old(db.rows)[id].conversation == c) ==>
      outcome == OutUnbound && db.rows == old(db.rows) && calendar.events == old(calendar.events)
    ensures id in old(db.rows) && old(db.rows)[id].conversation == c ==>
      var row := old(db.rows[id]);
      && outcome == SettleOutcome(cfg, row, id, row.status, d, revalidate, create, old(calendar.events))
      && db.rows == old(db.rows)[id := row.(status := StatusAfter(outcome, row.status))]
      && calendar.events == EventsAfter(cfg, row, id, row.status, d, revalidate, create, old(calendar.events))
  {
    if id !in db.rows || db.rows[id].conversation != c { return OutUnbound; }
    outcome := SettleDecision(db, calendar, cfg, id, db.rows[id], d, revalidate, create);
  }

  datatype RefineOutcome = RefineUnbound | RefineInvalid | Refined(call: StoredCall) | RefineAlreadyResolved(status: Status)

  /** Merge over the stored arguments, re-validate, and swap arguments and stamp in one guarded update. */
  method RefineAction(db: PendingActions, cfg: Config, c: ConversationId, id: ActionId, patch: Json) returns (r: RefineOutcome)
    modifies db
    ensures r.Refined? <==>
      && id in old(db.rows) && old(db.rows)[id].conversation == c && old(db.rows)[id].status.Pending?
      && RefinedCall(cfg, old(db.rows)[id].call, patch).Some?
    ensures r.Refined? ==>
      && Some(r.call) == RefinedCall(cfg, old(db.rows)[id].call, patch)
      && AR.Patched(cfg, old(db.rows)[id].call, patch, Some(r.call))
      && db.rows == old(db.rows)[id := old(db.rows[id]).(call := r.call, prompt := None)]
    ensures !r.Refined? ==> db.rows == old(db.rows)
    ensures r.RefineUnbound? <==> !(id in old(db.rows) && old(db.rows)[id].conversation == c)
    ensures r.RefineInvalid? <==> !r.RefineUnbound? && RefinedCall(cfg, old(db.rows)[id].call, patch).None?
    ensures r.RefineInvalid? ==> AR.Patched(cfg, old(db.rows)[id].call, patch, None)
    ensures r.RefineAlreadyResolved? ==> r.status == old(db.rows)[id].status && !r.status.Pending?
  {
    if id !in db.rows || db.rows[id].conversation != c { return RefineUnbound; }
    var row := db.rows[id];
    var call := RefinedCall(cfg, row.call, patch);
    AR.RefinedCallPatches(cfg, row.call, patch);
    if call == None { return RefineInvalid; }
    if row.status != Pending { return RefineAlreadyResolved(row.status); }
    db.rows := db.rows[id := row.(call := call.value, prompt := None)];
    return Refined(call.value);
  }

  lemma RefinedCallKeepsIdentity(cfg: Config, call: StoredCall, patch: Json)
    requires RefinedCall(cfg, call, patch).Some?
    ensures var next := RefinedCall(cfg, call, patch).value;
      && next.Call? && call.Call? && next.toolUseId == call.toolUseId && next.name == call.name
  {
  }

  /** What one prompt send can come back with. */
  datatype SendAnswer = Sent(m: MessageId) | Unroutable | SendThrows

  function Stamp(rows: map<ActionId, Row>, id: ActionId, a: SendAnswer): map<ActionId, Row> {
    if a.Sent? && id in rows then rows[id := rows[id].(prompt := Some(a.m))] else rows
  }

  /** Rows after stamping the listed actions, in order, with what their sends answered. */
  function StampAll(rows: map<ActionId, Row>, ids: seq<ActionId>, answer: ActionId -> SendAnswer): map<ActionId, Row>
    decreases |ids|
  {
    if ids == [] then rows
    else Stamp(StampAll(rows, ids[..|ids| - 1], answer), ids[|ids| - 1], answer(ids[|ids| - 1]))
  }

  /**
   Send, then stamp, one unstamped row at a time.  `pending` is the conversation's
   pending rows in creation order; a thrown send ends the pass at once.
   */
  method SendApprovalPrompts(db: PendingActions, pending: seq<ActionId>, answer: ActionId -> SendAnswer)
    returns (prompted: seq<ActionId>, todo: seq<ActionId>, threw: bool)
    requires forall i :: 0 <= i < |pending| ==> pending[i] in db.rows
    modifies db
    ensures todo == Without(pending, old(db.rows))
    ensures var n := UntilThrow(todo, answer);
      && (threw <==> n < |todo|)
      && db.rows == StampAll(old(db.rows), todo[..n], answer)
      && prompted == SentOnly(todo[..n], answer)
  {
    hide StampAll, SentOnly, UntilThrow, Without, Stamp;
    prompted, threw := [], false;
    todo := Without(pending, db.rows);
    NothingSent(db.rows, answer);
    var i := 0;
    while i < |todo|
      invariant 0 <= i <= |todo|
      invariant forall k :: 0 <= k < i ==> answer(todo[k]) != SendThrows
      invariant db.rows == StampAll(old(db.rows), todo[..i], answer)
      invariant prompted == SentOnly(todo[..i], answer)
    {
      OneMoreSend(old(db.rows), todo, i, answer);
      match answer(todo[i]) {
        case SendThrows =>
          threw := true;
          UntilThrowIs(todo, answer, i);
          return;
        case Unroutable =>
        case Sent(m) =>
          db.rows := Stamp(db.rows, todo[i], Sent(m));
          prompted := prompted + [todo[i]];
      }
      i := i + 1;
    }
    UntilThrowIs(todo, answer, i);
  }

  lemma NothingSent(rows: map<ActionId, Row>, answer: ActionId -> SendAnswer)
    ensures StampAll(rows, [], answer) == rows && SentOnly([], answer) == []
  {
  }

  lemma OneMoreSend(rows: map<ActionId, Row>, ids: seq<ActionId>, i: nat, answer: ActionId -> SendAnswer)
    requires i < |ids|
    ensures var before := StampAll(rows, ids[..i], answer);
      StampAll(rows, ids[..i + 1], answer) == if answer(ids[i]).Sent? then Stamp(before, ids[i], answer(ids[i])) else before
    ensures SentOnly(ids[..i + 1], answer) == SentOnly(ids[..i], answer) + if answer(ids[i]).Sent? then [ids[i]] else []
  {
    assert ids[..i + 1][..i] == ids[..i];
  }

  lemma UntilThrowIs(ids: seq<ActionId>, answer: ActionId -> SendAnswer, n: nat)
    requires n <= |ids| && forall i :: 0 <= i < n ==> !answer(ids[i]).SendThrows?
    requires n < |ids| ==> answer(ids[n]).SendThrows?
    ensures UntilThrow(ids, answer) == n
  {
  }

  /** The rows among `ids` that carry no stamp: the durable to-send marker. */
  function Without(ids: seq<ActionId>, rows: map<ActionId, Row>): (r: seq<ActionId>)
    ensures forall id :: id in r <==> id in ids && id in rows && rows[id].prompt.None?
  {
    if ids == [] then []
    else
      var rest := Without(ids[1..], rows);
      if ids[0] in rows && rows[ids[0]].prompt.None? then [ids[0]] + rest else rest
  }

  /** The number of sends before the first that throws. */
  function UntilThrow(ids: seq<ActionId>, answer: ActionId -> SendAnswer): (n: nat)
    ensures n <= |ids| && forall i :: 0 <= i < n ==> !answer(ids[i]).SendThrows?
    ensures n < |ids| ==> answer(ids[n]).SendThrows?
  {
    if ids == [] || answer(ids[0]).SendThrows? then 0 else 1 + UntilThrow(ids[1..], answer)
  }

  function SentOnly(ids: seq<ActionId>, answer: ActionId -> SendAnswer): seq<ActionId>
    decreases |ids|
  {
    if ids == [] then []
    else
      var n := |ids| - 1;
      SentOnly(ids[..n], answer) + if answer(ids[n]).Sent? then [ids[n]] else []
  }

  /** After a pass, a listed action is stamped with its own send's id, or its send was dead-lettered; no other row changed. */
  lemma {:induction false} StampAllStamps(rows: map<ActionId, Row>, ids: seq<ActionId>, answer: ActionId -> SendAnswer, id: ActionId)
    ensures StampAll(rows, ids, answer).Keys == rows.Keys
    ensures id in rows ==>
      StampAll(rows, ids, answer)[id] == if id in ids && answer(id).Sent? then rows[id].(prompt := Some(answer(id).m)) else rows[id]
    decreases |ids|
  {
    if ids != [] {
      var n := |ids| - 1;
      StampAllStamps(rows, ids[..n], answer, id);
      assert ids == ids[..n] + [ids[n]];
    }
  }
}
