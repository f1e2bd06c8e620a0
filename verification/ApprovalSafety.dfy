/**
 What every interleaving of the approval protocol keeps.  `Safe` needs no lane;
 `Bound` is what the serial conversation lane adds.
 */
module ApprovalSafety {
  import opened Prelude
  import opened Approvals

  // ----- Safety without a lane -----

  ghost predicate NeverApproved(s: State) {
    forall id :: id in s.rows ==> s.rows[id].status != Approved
  }

  ghost predicate OneLock(s: State) {
    forall o, p, id :: o in s.ops && p in s.ops && Holds(s.ops[o], id) && Holds(s.ops[p], id) ==> o == p
  }

  /** The transaction's view agrees with its program counter and differs from the committed row in status only. */
  ghost predicate OpOk(cfg: Config, rows: map<ActionId, Row>, events: seq<Event>, op: Op) {
    match op
    case Settling(c, id, snap, decision, via, work, pc) =>
      && id in rows && rows[id].conversation == c
      && (work.Some? ==> rows[id].status.Pending? && work.value == rows[id].(status := work.value.status))
      && (match pc
          case AtFlip => work.None?
          case AtRevalidate(args) => work.Some? && work.value.status.Approved? && ParseCall(cfg, snap.call) == Some(args)
          case AtClaim(args) => work.Some? && work.value.status.Approved? && ParseCall(cfg, snap.call) == Some(args)
          case AtExecute(args) => work.Some? && work.value.status.Executed? && ParseCall(cfg, snap.call) == Some(args)
          case AtCommit(out) =>
            match out
            case OutUnbound => false
            case OutAlreadyResolved(_) => work.None?
            case OutDenied => work.Some? && work.value.status.Denied?
            case OutStale => work.Some? && work.value.status.Stale?
            case OutFailed => work.Some? && work.value.status.Pending?
            case OutExecuted(_) =>
              && work.Some? && work.value.status.Executed?
              && ParseCall(cfg, snap.call).Some?
              && OnCalendar(events, ParseCall(cfg, snap.call).value.owner, cfg.hash(id)))
    case Refining(c, id, snap, patch) => id in rows && rows[id].conversation == c
    case Prompting(c, todo, inFlight) =>
      && (forall i :: 0 <= i < |todo| ==> todo[i].0 in rows && rows[todo[i].0].conversation == c)
      && (inFlight.Some? ==> todo != [])
  }

  ghost predicate OpsOk(cfg: Config, s: State) {
    forall o :: o in s.ops ==> OpOk(cfg, s.rows, s.events, s.ops[o])
  }

  /** A calendar holds at most one event with a given id. */
  ghost predicate OneEventPerId(events: seq<Event>) {
    forall i, j :: 0 <= i < j < |events| ==>
      events[i].owner != events[j].owner || events[i].eventId != events[j].eventId
  }

  /** The step has created its event and waits for its commit. */
  ghost predicate Posted(op: Op) {
    op.Settling? && op.pc == AtCommit(OutExecuted(true))
  }

  ghost predicate Uncommitted(s: State, id: ActionId) {
    exists o :: o in s.ops && Posted(s.ops[o]) && s.ops[o].id == id
  }

  /** Where an event can come from. */
  ghost predicate Accounted(cfg: Config, s: State, e: Event) {
    && e.poster in s.rows && e.eventId == cfg.hash(e.poster)
    && (s.rows[e.poster].status.Executed? || e.poster in s.orphans || Uncommitted(s, e.poster))
  }

  ghost predicate EventsAccounted(cfg: Config, s: State) {
    forall i :: 0 <= i < |s.events| ==> Accounted(cfg, s, s.events[i])
  }

  ghost predicate ExecutedOnce(s: State) {
    && (forall id :: id in s.rows ==> s.commits[id] == if s.rows[id].status.Executed? then 1 else 0)
    && (forall id :: id in s.commits ==> id in s.rows)
  }

  ghost predicate ExecutedHasEvent(cfg: Config, s: State) {
    forall id :: id in s.rows && s.rows[id].status.Executed? ==>
      OnCalendar(s.events, Husband, cfg.hash(id)) || OnCalendar(s.events, Wife, cfg.hash(id))
  }

  ghost predicate Safe(cfg: Config, s: State) {
    && NeverApproved(s) && OneLock(s) && OpsOk(cfg, s) && OneEventPerId(s.events)
    && EventsAccounted(cfg, s) && ExecutedOnce(s) && ExecutedHasEvent(cfg, s)
  }

  lemma CreateKeeps(events: seq<Event>, e: Event)
    ensures OnCalendar(Create(events, e), e.owner, e.eventId)
    ensures forall ow, x :: OnCalendar(events, ow, x) ==> OnCalendar(Create(events, e), ow, x)
    ensures OneEventPerId(events) ==> OneEventPerId(Create(events, e))
  {
    var after := Create(events, e);
    if !OnCalendar(events, e.owner, e.eventId) {
      assert after[|events|] == e;
    }
    forall ow, x | OnCalendar(events, ow, x) ensures OnCalendar(after, ow, x) {
      var i :| 0 <= i < |events| && events[i].owner == ow && events[i].eventId == x;
      assert after[i] == events[i];
    }
  }

  /** Events stay accounted when executed rows, orphans and posted steps are kept or moved on. */
  lemma EventsKept(cfg: Config, s: State, t: State)
    requires EventsAccounted(cfg, s) && t.events == s.events
    requires forall id :: id in s.rows ==> id in t.rows && (s.rows[id].status.Executed? ==> t.rows[id].status.Executed?)
    requires s.orphans <= t.orphans
    requires forall o :: o in s.ops && Posted(s.ops[o]) ==>
               || (o in t.ops && t.ops[o] == s.ops[o])
               || s.ops[o].id in t.orphans
               || (s.ops[o].id in t.rows && t.rows[s.ops[o].id].status.Executed?)
    ensures EventsAccounted(cfg, t)
  {
    forall i | 0 <= i < |t.events| ensures Accounted(cfg, t, t.events[i]) {
      var e := s.events[i];
      assert Accounted(cfg, s, e);
      if Uncommitted(s, e.poster) {
        var o :| o in s.ops && Posted(s.ops[o]) && s.ops[o].id == e.poster;
        assert o in t.ops ==> o in t.ops;
      }
    }
  }

  ghost predicate RowsGrow(rows: map<ActionId, Row>, after: map<ActionId, Row>) {
    forall id :: id in rows ==> id in after && after[id].conversation == rows[id].conversation
  }

  ghost predicate EventsGrow(events: seq<Event>, after: seq<Event>) {
    forall ow, x :: OnCalendar(events, ow, x) ==> OnCalendar(after, ow, x)
  }

  /** A step is unaffected by changes to rows it has not locked. */
  lemma OpKept(cfg: Config, rows: map<ActionId, Row>, events: seq<Event>, rows': map<ActionId, Row>, events': seq<Event>, op: Op)
    requires OpOk(cfg, rows, events, op)
    requires RowsGrow(rows, rows') && EventsGrow(events, events')
    requires op.Settling? && op.work.Some? ==> rows'[op.id] == rows[op.id]
    ensures OpOk(cfg, rows', events', op)
  {
  }

  lemma OpIsOk(cfg: Config, s: State, o: OpId)
    requires Safe(cfg, s) && o in s.ops
    ensures OpOk(cfg, s.rows, s.events, s.ops[o])
  {
  }

  /** A step that moves only itself: committed rows, events and commits stay. */
  lemma OpStep(cfg: Config, s: State, t: State, o: OpId)
    requires Safe(cfg, s)
    requires t.rows == s.rows && t.events == s.events && t.commits == s.commits && s.orphans <= t.orphans
    requires forall p :: p in t.ops && p != o ==> p in s.ops && t.ops[p] == s.ops[p]
    requires forall p :: p in s.ops && p != o ==> p in t.ops
    requires o in t.ops ==> OpOk(cfg, s.rows, s.events, t.ops[o])
    requires o in t.ops ==> forall id :: Holds(t.ops[o], id) ==> (o in s.ops && Holds(s.ops[o], id)) || !Locked(s, id)
    requires o in s.ops && Posted(s.ops[o]) ==> s.ops[o].id in t.orphans
    ensures Safe(cfg, t)
  {
    EventsKept(cfg, s, t);
    hide EventsAccounted;
    forall p | p in t.ops ensures OpOk(cfg, t.rows, t.events, t.ops[p]) {
      if p != o { OpIsOk(cfg, s, p); }
    }
  }

  /** One unlocked row is written; it was and stays executed or not, and is not 'approved'. */
  lemma RowStep(cfg: Config, s: State, id: ActionId, row: Row)
    requires Safe(cfg, s) && !Locked(s, id) && !row.status.Approved?
    requires id in s.rows ==> row.conversation == s.rows[id].conversation
    requires row.status.Executed? <==> id in s.rows && s.rows[id].status.Executed?
    ensures Safe(cfg, s.(rows := s.rows[id := row]))
  {
    var t := s.(rows := s.rows[id := row]);
    EventsKept(cfg, s, t);
    hide EventsAccounted;
    forall p | p in t.ops ensures OpOk(cfg, t.rows, t.events, t.ops[p]) {
      OpIsOk(cfg, s, p);
      assert s.ops[p].Settling? && s.ops[p].work.Some? ==> Holds(s.ops[p], s.ops[p].id);
      OpKept(cfg, s.rows, s.events, t.rows, t.events, s.ops[p]);
    }
  }

  lemma SafePark(cfg: Config, s: State, id: ActionId, c: ConversationId, call: StoredCall, x: int)
    requires Safe(cfg, s)
    ensures Safe(cfg, DoPark(s, id, c, call, x))
  {
    if id !in s.rows {
      forall o | o in s.ops ensures !Holds(s.ops[o], id) { OpIsOk(cfg, s, o); }
      hide Safe;
      RowStep(cfg, s, id, Row(c, call, Pending, None, x));
    }
  }

  lemma SafeOpenQuoted(cfg: Config, s: State, o: OpId, c: ConversationId, q: MessageId, id: ActionId, d: Decision)
    requires Safe(cfg, s)
    ensures Safe(cfg, DoOpenQuoted(cfg, s, o, c, q, id, d))
  {
    hide Safe;
    var t := DoOpenQuoted(cfg, s, o, c, q, id, d);
    if t != s {
      OpStep(cfg, s, t, o);
    }
  }

  lemma SafeOpenClassified(cfg: Config, s: State, o: OpId, c: ConversationId, id: ActionId, d: Decision)
    requires Safe(cfg, s)
    ensures Safe(cfg, DoOpenClassified(cfg, s, o, c, id, d))
  {
    hide Safe;
    var t := DoOpenClassified(cfg, s, o, c, id, d);
    if t != s {
      OpStep(cfg, s, t, o);
    }
  }

  lemma SafeFlip(cfg: Config, s: State, o: OpId)
    requires Safe(cfg, s)
    ensures Safe(cfg, DoFlip(cfg, s, o))
  {
    hide Safe;
    var t := DoFlip(cfg, s, o);
    if t != s {
      OpIsOk(cfg, s, o);
      OpStep(cfg, s, t, o);
    }
  }

  lemma SafeRevalidate(cfg: Config, s: State, o: OpId, a: RevalidateAnswer)
    requires Safe(cfg, s)
    ensures Safe(cfg, DoRevalidate(s, o, a))
  {
    hide Safe;
    var t := DoRevalidate(s, o, a);
    if t != s {
      OpIsOk(cfg, s, o);
      OpStep(cfg, s, t, o);
    }
  }

  lemma SafeClaim(cfg: Config, s: State, o: OpId)
    requires Safe(cfg, s)
    ensures Safe(cfg, DoClaim(s, o))
  {
    hide Safe;
    var t := DoClaim(s, o);
    if t != s {
      OpIsOk(cfg, s, o);
      OpStep(cfg, s, t, o);
    }
  }

  lemma ExecuteOps(cfg: Config, s: State, o: OpId, a: CreateAnswer)
    requires OpsOk(cfg, s)
    ensures OpsOk(cfg, DoExecute(cfg, s, o, a))
  {
    var t := DoExecute(cfg, s, o, a);
    if t != s {
      var op := s.ops[o];
      assert OpOk(cfg, s.rows, s.events, op);
      CreateKeeps(s.events, Event(op.pc.args.owner, cfg.hash(op.id), op.pc.args, op.id));
      forall p | p in t.ops && p != o ensures OpOk(cfg, t.rows, t.events, t.ops[p]) {
        OpKept(cfg, s.rows, s.events, t.rows, t.events, s.ops[p]);
      }
    }
  }

  lemma ExecuteEvents(cfg: Config, s: State, o: OpId, a: CreateAnswer)
    requires EventsAccounted(cfg, s) && (o in s.ops ==> OpOk(cfg, s.rows, s.events, s.ops[o]))
    ensures EventsAccounted(cfg, DoExecute(cfg, s, o, a))
  {
    var t := DoExecute(cfg, s, o, a);
    if t != s {
      forall i | 0 <= i < |t.events| ensures Accounted(cfg, t, t.events[i]) {
        if i < |s.events| {
          var e := s.events[i];
          assert Accounted(cfg, s, e);
          if Uncommitted(s, e.poster) {
            var p :| p in s.ops && Posted(s.ops[p]) && s.ops[p].id == e.poster;
            assert p != o && Posted(t.ops[p]);
          }
        } else {
          assert a.Answered? ==> Posted(t.ops[o]);
        }
      }
    }
  }

  lemma ExecuteHistory(cfg: Config, s: State, o: OpId, a: CreateAnswer)
    requires OneEventPerId(s.events) && ExecutedHasEvent(cfg, s)
    ensures var t := DoExecute(cfg, s, o, a);
      OneEventPerId(t.events) && ExecutedHasEvent(cfg, t) && t.rows == s.rows && t.commits == s.commits
  {
    var t := DoExecute(cfg, s, o, a);
    if t != s {
      var op := s.ops[o];
      CreateKeeps(s.events, Event(op.pc.args.owner, cfg.hash(op.id), op.pc.args, op.id));
    }
  }

  lemma ExecuteLocks(cfg: Config, s: State, o: OpId, a: CreateAnswer)
    requires OneLock(s)
    ensures OneLock(DoExecute(cfg, s, o, a))
  {
    var t := DoExecute(cfg, s, o, a);
    forall p, id | p in t.ops && Holds(t.ops[p], id) ensures p in s.ops && Holds(s.ops[p], id) { }
  }

  lemma SafeExecute(cfg: Config, s: State, o: OpId, a: CreateAnswer)
    requires Safe(cfg, s)
    ensures Safe(cfg, DoExecute(cfg, s, o, a))
  {
    ExecuteOps(cfg, s, o, a);
    ExecuteEvents(cfg, s, o, a);
    ExecuteHistory(cfg, s, o, a);
    ExecuteLocks(cfg, s, o, a);
    hide DoExecute, OpsOk, EventsAccounted, OneEventPerId, ExecutedHasEvent, OneLock;
  }

  lemma CommitOps(cfg: Config, s: State, o: OpId)
    requires OneLock(s) && OpsOk(cfg, s)
    ensures OpsOk(cfg, DoCommit(s, o))
  {
    var t := DoCommit(s, o);
    forall p | p in t.ops ensures OpOk(cfg, t.rows, t.events, t.ops[p]) {
      assert t != s ==> !Holds(s.ops[p], s.ops[o].id) || !Holds(s.ops[o], s.ops[o].id);
      OpKept(cfg, s.rows, s.events, t.rows, t.events, s.ops[p]);
    }
  }

  lemma CommitHistory(cfg: Config, s: State, o: OpId)
    requires OpsOk(cfg, s) && NeverApproved(s) && ExecutedOnce(s) && ExecutedHasEvent(cfg, s)
    ensures NeverApproved(DoCommit(s, o)) && ExecutedOnce(DoCommit(s, o)) && ExecutedHasEvent(cfg, DoCommit(s, o))
  {
    if o in s.ops {
      assert OpOk(cfg, s.rows, s.events, s.ops[o]);
    }
  }

  lemma SafeCommit(cfg: Config, s: State, o: OpId)
    requires Safe(cfg, s)
    ensures Safe(cfg, DoCommit(s, o))
  {
    CommitOps(cfg, s, o);
    CommitHistory(cfg, s, o);
    if o in s.ops {
      assert OpOk(cfg, s.rows, s.events, s.ops[o]);
    }
    EventsKept(cfg, s, DoCommit(s, o));
  }

  lemma SafeOpenRefine(cfg: Config, s: State, o: OpId, c: ConversationId, id: ActionId, patch: Json)
    requires Safe(cfg, s)
    ensures Safe(cfg, DoOpenRefine(cfg, s, o, c, id, patch))
  {
    hide Safe;
    var t := DoOpenRefine(cfg, s, o, c, id, patch);
    if t != s {
      OpStep(cfg, s, t, o);
    }
  }

  lemma SafeRefine(cfg: Config, s: State, o: OpId)
    requires Safe(cfg, s)
    ensures Safe(cfg, DoRefine(cfg, s, o))
  {
    hide Safe;
    var t := DoRefine(cfg, s, o);
    if t != s {
      var op := s.ops[o];
      var s1 := s.(ops := s.ops - {o});
      OpStep(cfg, s, s1, o);
      assert !Locked(s1, op.id);
      var call := RefinedCall(cfg, op.snap.call, op.patch);
      if call.Some? && s.rows[op.id].status.Pending? {
        RowStep(cfg, s1, op.id, s.rows[op.id].(call := call.value, prompt := None));
      }
    }
  }

  lemma SafeOpenPrompts(cfg: Config, s: State, o: OpId, c: ConversationId, order: seq<ActionId>)
    requires Safe(cfg, s)
    ensures Safe(cfg, DoOpenPrompts(cfg, s, o, c, order))
  {
    hide Safe;
    var t := DoOpenPrompts(cfg, s, o, c, order);
    if t != s {
      OpStep(cfg, s, t, o);
    }
  }

  lemma SafeSendPrompt(cfg: Config, s: State, o: OpId, m: MessageId)
    requires Safe(cfg, s)
    ensures Safe(cfg, DoSendPrompt(s, o, m))
  {
    hide Safe;
    var t := DoSendPrompt(s, o, m);
    if t != s {
      OpIsOk(cfg, s, o);
      OpStep(cfg, s, t, o);
    }
  }

  lemma SafeStampPrompt(cfg: Config, s: State, o: OpId)
    requires Safe(cfg, s)
    ensures Safe(cfg, DoStampPrompt(s, o))
  {
    var t := DoStampPrompt(s, o);
    if t != s {
      OpIsOk(cfg, s, o);
      var op := s.ops[o];
      var id := op.todo[0].0;
      var s1 := s.(ops := s.ops[o := op.(todo := op.todo[1..], inFlight := None)]);
      assert !s.rows[id].status.Approved?;
      hide Safe;
      OpStep(cfg, s, s1, o);
      assert !Locked(s1, id);
      RowStep(cfg, s1, id, s.rows[id].(prompt := op.inFlight));
    }
  }

  lemma SafeSkipPrompt(cfg: Config, s: State, o: OpId)
    requires Safe(cfg, s)
    ensures Safe(cfg, DoSkipPrompt(s, o))
  {
    hide Safe;
    var t := DoSkipPrompt(s, o);
    if t != s {
      OpIsOk(cfg, s, o);
      OpStep(cfg, s, t, o);
    }
  }

  lemma SafeEndPrompts(cfg: Config, s: State, o: OpId)
    requires Safe(cfg, s)
    ensures Safe(cfg, DoEndPrompts(s, o))
  {
    hide Safe;
    var t := DoEndPrompts(s, o);
    if t != s {
      OpStep(cfg, s, t, o);
    }
  }

  lemma SafeCrash(cfg: Config, s: State, o: OpId)
    requires Safe(cfg, s)
    ensures Safe(cfg, DoCrash(s, o))
  {
    hide Safe;
    var t := DoCrash(s, o);
    if t != s {
      OpStep(cfg, s, t, o);
    }
  }

  lemma SafeExpire(cfg: Config, s: State, id: ActionId)
    requires Safe(cfg, s)
    ensures Safe(cfg, DoExpire(s, id))
  {
    hide Safe;
    if DoExpire(s, id) != s { RowStep(cfg, s, id, s.rows[id].(status := Expired)); }
  }

  lemma SafeStep(cfg: Config, s: State, l: Label)
    requires Safe(cfg, s)
    ensures Safe(cfg, Next(cfg, s, l))
  {
    hide Safe;
    match l
    case Park(id, c, call, x) => SafePark(cfg, s, id, c, call, x);
    case OpenQuoted(o, c, q, id, d) => SafeOpenQuoted(cfg, s, o, c, q, id, d);
    case OpenClassified(o, c, id, d) => SafeOpenClassified(cfg, s, o, c, id, d);
    case Flip(o) => SafeFlip(cfg, s, o);
    case Revalidate(o, a) => SafeRevalidate(cfg, s, o, a);
    case Claim(o) => SafeClaim(cfg, s, o);
    case Execute(o, a) => SafeExecute(cfg, s, o, a);
    case Commit(o) => SafeCommit(cfg, s, o);
    case OpenRefine(o, c, id, patch) => SafeOpenRefine(cfg, s, o, c, id, patch);
    case Refine(o) => SafeRefine(cfg, s, o);
    case OpenPrompts(o, c, order) => SafeOpenPrompts(cfg, s, o, c, order);
    case SendPrompt(o, m) => SafeSendPrompt(cfg, s, o, m);
    case StampPrompt(o) => SafeStampPrompt(cfg, s, o);
    case SkipPrompt(o) => SafeSkipPrompt(cfg, s, o);
    case EndPrompts(o) => SafeEndPrompts(cfg, s, o);
    case Crash(o) => SafeCrash(cfg, s, o);
    case Expire(id) => SafeExpire(cfg, s, id);
  }

  lemma {:induction false} SafeRun(cfg: Config, s: State, labels: seq<Label>)
    requires Safe(cfg, s)
    ensures Safe(cfg, Run(cfg, s, labels))
    decreases |labels|
  {
    if labels != [] {
      SafeStep(cfg, s, labels[0]);
      SafeRun(cfg, Next(cfg, s, labels[0]), labels[1..]);
    }
  }

  lemma SettledStep(cfg: Config, s: State, l: Label, id: ActionId)
    requires OpsOk(cfg, s) && id in s.rows && Settled(s.rows[id].status)
    ensures id in Next(cfg, s, l).rows
    ensures Next(cfg, s, l).rows[id] == s.rows[id].(prompt := Next(cfg, s, l).rows[id].prompt)
  {
    assert l.Commit? && l.o in s.ops ==> OpOk(cfg, s.rows, s.events, s.ops[l.o]);
    hide OpsOk;
  }

  /** A settled action stays settled as it was: status, call, conversation and deadline. */
  lemma {:induction false} SettledForever(cfg: Config, s: State, labels: seq<Label>, id: ActionId)
    requires Safe(cfg, s) && id in s.rows && Settled(s.rows[id].status)
    ensures id in Run(cfg, s, labels).rows
    ensures Run(cfg, s, labels).rows[id] == s.rows[id].(prompt := Run(cfg, s, labels).rows[id].prompt)
    decreases |labels|
  {
    if labels != [] {
      SettledStep(cfg, s, labels[0], id);
      SafeStep(cfg, s, labels[0]);
      SettledForever(cfg, Next(cfg, s, labels[0]), labels[1..], id);
    }
  }

  // ----- What the serial lane adds -----

  ghost predicate SerialLane(s: State) {
    forall o, p :: o in s.ops && p in s.ops && s.ops[o].conversation == s.ops[p].conversation ==> o == p
  }

  /** What a step read is what the row still holds, and a quoted prompt showed exactly that. */
  ghost predicate FreshOp(rows: map<ActionId, Row>, shown: map<MessageId, Shown>, op: Op) {
    match op
    case Settling(c, id, snap, decision, via, work, pc) =>
      && id in rows && rows[id].conversation == c && snap.call == rows[id].call
      && (via.Some? ==> rows[id].prompt == via && via.value in shown && shown[via.value] == Shown(id, snap.call))
    case Refining(c, id, snap, patch) =>
      id in rows && rows[id].conversation == c && snap.call == rows[id].call
    case Prompting(c, todo, inFlight) =>
      && (forall i :: 0 <= i < |todo| ==>
            && todo[i].0 in rows && rows[todo[i].0].conversation == c && todo[i].1.call == rows[todo[i].0].call
            && (rows[todo[i].0].status.Pending? || rows[todo[i].0].status.Expired?))
      && (inFlight.Some? ==>
            todo != [] && inFlight.value in shown && shown[inFlight.value] == Shown(todo[0].0, todo[0].1.call))
  }

  ghost predicate FreshOps(s: State) {
    forall o :: o in s.ops ==> FreshOp(s.rows, s.shown, s.ops[o])
  }

  /** A stamped row's prompt showed the row's current call. */
  ghost predicate StampsShow(s: State) {
    forall id :: id in s.rows && s.rows[id].prompt.Some? ==>
      s.rows[id].prompt.value in s.shown && s.shown[s.rows[id].prompt.value] == Shown(id, s.rows[id].call)
  }

  ghost predicate ExecutedOnOwner(cfg: Config, s: State) {
    forall id :: id in s.rows && s.rows[id].status.Executed? ==>
      && ParseCall(cfg, s.rows[id].call).Some?
      && OnCalendar(s.events, ParseCall(cfg, s.rows[id].call).value.owner, cfg.hash(id))
  }

  ghost predicate ShownThenRun(cfg: Config, shown: map<MessageId, Shown>, a: Attempt) {
    a.via.Some? ==>
      && a.via.value in shown && shown[a.via.value].id == a.id
      && ParseCall(cfg, shown[a.via.value].call) == Some(a.args)
  }

  ghost predicate AttemptsShown(cfg: Config, s: State) {
    forall i :: 0 <= i < |s.attempts| ==> ShownThenRun(cfg, s.shown, s.attempts[i])
  }

  ghost predicate Bound(cfg: Config, s: State) {
    SerialLane(s) && FreshOps(s) && StampsShow(s) && ExecutedOnOwner(cfg, s) && AttemptsShown(cfg, s)
  }

  ghost predicate SameLane(rows: map<ActionId, Row>, rows': map<ActionId, Row>, c: ConversationId) {
    forall id :: id in rows && rows[id].conversation == c ==>
      && id in rows'
      && (rows'[id] == rows[id] || (rows[id].status.Pending? && rows'[id] == rows[id].(status := Expired)))
  }

  ghost predicate ShownGrow(shown: map<MessageId, Shown>, shown': map<MessageId, Shown>) {
    forall m :: m in shown ==> m in shown' && shown'[m] == shown[m]
  }

  /** A step stays fresh when its own conversation's rows change at most by an expiry. */
  lemma FreshKept(rows: map<ActionId, Row>, shown: map<MessageId, Shown>,
                  rows': map<ActionId, Row>, shown': map<MessageId, Shown>, op: Op)
    requires FreshOp(rows, shown, op) && SameLane(rows, rows', op.conversation) && ShownGrow(shown, shown')
    ensures FreshOp(rows', shown', op)
  {
  }

  lemma AttemptsKept(cfg: Config, s: State, t: State)
    requires AttemptsShown(cfg, s) && ShownGrow(s.shown, t.shown)
    requires |s.attempts| <= |t.attempts| <= |s.attempts| + 1 && t.attempts[..|s.attempts|] == s.attempts
    requires |t.attempts| == |s.attempts| + 1 ==> ShownThenRun(cfg, t.shown, t.attempts[|s.attempts|])
    ensures AttemptsShown(cfg, t)
  {
    forall i | 0 <= i < |t.attempts| ensures ShownThenRun(cfg, t.shown, t.attempts[i]) {
      if i < |s.attempts| {
        assert t.attempts[i] == s.attempts[i];
        assert ShownThenRun(cfg, s.shown, s.attempts[i]);
      }
    }
  }

  /** Steps that neither changed nor share a conversation with a changed row stay fresh. */
  lemma OthersFresh(s: State, t: State, o: OpId)
    requires FreshOps(s) && ShownGrow(s.shown, t.shown)
    requires forall p :: p in t.ops && p != o ==> p in s.ops && t.ops[p] == s.ops[p] && SameLane(s.rows, t.rows, s.ops[p].conversation)
    ensures forall p :: p in t.ops && p != o ==> FreshOp(t.rows, t.shown, t.ops[p])
  {
    forall p | p in t.ops && p != o ensures FreshOp(t.rows, t.shown, t.ops[p]) {
      FreshKept(s.rows, s.shown, t.rows, t.shown, s.ops[p]);
    }
  }

  lemma BoundPark(cfg: Config, s: State, id: ActionId, c: ConversationId, call: StoredCall, x: int)
    requires cfg.serial && Bound(cfg, s)
    ensures Bound(cfg, DoPark(s, id, c, call, x))
  {
    var t := DoPark(s, id, c, call, x);
    if t != s {
      forall p | p in t.ops ensures FreshOp(t.rows, t.shown, t.ops[p]) {
        FreshKept(s.rows, s.shown, t.rows, t.shown, s.ops[p]);
      }
      AttemptsKept(cfg, s, t);
    }
  }

  lemma BoundOpenQuoted(cfg: Config, s: State, o: OpId, c: ConversationId, q: MessageId, id: ActionId, d: Decision)
    requires cfg.serial && Bound(cfg, s)
    ensures Bound(cfg, DoOpenQuoted(cfg, s, o, c, q, id, d))
  {
  }

  lemma BoundOpenClassified(cfg: Config, s: State, o: OpId, c: ConversationId, id: ActionId, d: Decision)
    requires cfg.serial && Bound(cfg, s)
    ensures Bound(cfg, DoOpenClassified(cfg, s, o, c, id, d))
  {
  }

  lemma FlippedSame(cfg: Config, op: Op, row: Row)
    requires op.Settling?
    ensures Flipped(cfg, op, row).Settling?
    ensures Flipped(cfg, op, row) == op.(work := Flipped(cfg, op, row).work, pc := Flipped(cfg, op, row).pc)
  {
  }

  lemma BoundFlip(cfg: Config, s: State, o: OpId)
    requires cfg.serial && Bound(cfg, s)
    ensures Bound(cfg, DoFlip(cfg, s, o))
  {
    var t := DoFlip(cfg, s, o);
    if t != s {
      var op := s.ops[o];
      FlippedSame(cfg, op, s.rows[op.id]);
      assert FreshOp(s.rows, s.shown, op);
      var op' := Flipped(cfg, op, s.rows[op.id]);
      assert t.ops[o] == op' && t.rows == s.rows && t.shown == s.shown;
      assert FreshOp(t.rows, t.shown, op');
      OthersFresh(s, t, o);
    }
  }

  lemma BoundRevalidate(cfg: Config, s: State, o: OpId, a: RevalidateAnswer)
    requires cfg.serial && Bound(cfg, s)
    ensures Bound(cfg, DoRevalidate(s, o, a))
  {
  }

  lemma BoundClaim(cfg: Config, s: State, o: OpId)
    requires cfg.serial && Bound(cfg, s)
    ensures Bound(cfg, DoClaim(s, o))
  {
  }

  lemma ExecuteFresh(cfg: Config, s: State, o: OpId, a: CreateAnswer)
    requires SerialLane(s) && FreshOps(s)
    ensures SerialLane(DoExecute(cfg, s, o, a)) && FreshOps(DoExecute(cfg, s, o, a))
  {
    hide OnCalendar, Create;
    var t := DoExecute(cfg, s, o, a);
    if t != s {
      assert FreshOp(s.rows, s.shown, s.ops[o]);
      OthersFresh(s, t, o);
    }
  }

  lemma ExecuteOnOwner(cfg: Config, s: State, o: OpId, a: CreateAnswer)
    requires ExecutedOnOwner(cfg, s)
    ensures ExecutedOnOwner(cfg, DoExecute(cfg, s, o, a))
  {
    if DoExecute(cfg, s, o, a) != s {
      var op := s.ops[o];
      CreateKeeps(s.events, Event(op.pc.args.owner, cfg.hash(op.id), op.pc.args, op.id));
    }
  }

  lemma ExecuteShown(cfg: Config, s: State, o: OpId, a: CreateAnswer)
    requires AttemptsShown(cfg, s) && FreshOps(s)
    requires o in s.ops ==> OpOk(cfg, s.rows, s.events, s.ops[o])
    ensures AttemptsShown(cfg, DoExecute(cfg, s, o, a))
  {
    hide OnCalendar, Create;
    var t := DoExecute(cfg, s, o, a);
    if t != s {
      var op := s.ops[o];
      assert FreshOp(s.rows, s.shown, op);
      assert ShownThenRun(cfg, s.shown, Attempt(op.id, op.pc.args, op.via));
      AttemptsKept(cfg, s, t);
    }
  }

  lemma BoundExecute(cfg: Config, s: State, o: OpId, a: CreateAnswer)
    requires cfg.serial && Bound(cfg, s)
    requires o in s.ops ==> OpOk(cfg, s.rows, s.events, s.ops[o])
    ensures Bound(cfg, DoExecute(cfg, s, o, a))
  {
    ExecuteFresh(cfg, s, o, a);
    ExecuteOnOwner(cfg, s, o, a);
    ExecuteShown(cfg, s, o, a);
    hide OpOk, FreshOps, SerialLane, ExecutedOnOwner, AttemptsShown;
  }

  lemma CommitFresh(cfg: Config, s: State, o: OpId)
    requires SerialLane(s) && FreshOps(s) && (o in s.ops ==> OpOk(cfg, s.rows, s.events, s.ops[o]))
    ensures SerialLane(DoCommit(s, o)) && FreshOps(DoCommit(s, o))
  {
    var t := DoCommit(s, o);
    if t != s {
      assert FreshOp(s.rows, s.shown, s.ops[o]);
      OthersFresh(s, t, o);
    }
  }

  lemma CommitRows(cfg: Config, s: State, o: OpId)
    requires FreshOps(s) && StampsShow(s) && ExecutedOnOwner(cfg, s)
    requires o in s.ops ==> OpOk(cfg, s.rows, s.events, s.ops[o])
    ensures StampsShow(DoCommit(s, o)) && ExecutedOnOwner(cfg, DoCommit(s, o))
  {
    hide OnCalendar;
    if o in s.ops { assert FreshOp(s.rows, s.shown, s.ops[o]); }
  }

  lemma BoundCommit(cfg: Config, s: State, o: OpId)
    requires cfg.serial && Bound(cfg, s)
    requires o in s.ops ==> OpOk(cfg, s.rows, s.events, s.ops[o])
    ensures Bound(cfg, DoCommit(s, o))
  {
    CommitFresh(cfg, s, o);
    CommitRows(cfg, s, o);
    AttemptsKept(cfg, s, DoCommit(s, o));
    hide OpOk, FreshOps, SerialLane, ExecutedOnOwner, AttemptsShown, StampsShow;
  }

  lemma BoundOpenRefine(cfg: Config, s: State, o: OpId, c: ConversationId, id: ActionId, patch: Json)
    requires cfg.serial && Bound(cfg, s)
    ensures Bound(cfg, DoOpenRefine(cfg, s, o, c, id, patch))
  {
  }

  lemma RefineFresh(cfg: Config, s: State, o: OpId)
    requires SerialLane(s) && FreshOps(s)
    ensures SerialLane(DoRefine(cfg, s, o)) && FreshOps(DoRefine(cfg, s, o))
  {
    hide Locked, RefinedCall;
    var t := DoRefine(cfg, s, o);
    if t != s {
      assert FreshOp(s.rows, s.shown, s.ops[o]);
      OthersFresh(s, t, o);
    }
  }

  lemma BoundRefine(cfg: Config, s: State, o: OpId)
    requires cfg.serial && Bound(cfg, s)
    ensures Bound(cfg, DoRefine(cfg, s, o))
  {
    RefineFresh(cfg, s, o);
    AttemptsKept(cfg, s, DoRefine(cfg, s, o));
    hide FreshOps, SerialLane, AttemptsShown, Locked, RefinedCall;
  }

  lemma BoundOpenPrompts(cfg: Config, s: State, o: OpId, c: ConversationId, order: seq<ActionId>)
    requires cfg.serial && Bound(cfg, s)
    ensures Bound(cfg, DoOpenPrompts(cfg, s, o, c, order))
  {
  }

  lemma BoundSendPrompt(cfg: Config, s: State, o: OpId, m: MessageId)
    requires cfg.serial && Bound(cfg, s)
    ensures Bound(cfg, DoSendPrompt(s, o, m))
  {
    var t := DoSendPrompt(s, o, m);
    if t != s {
      assert FreshOp(s.rows, s.shown, s.ops[o]);
      OthersFresh(s, t, o);
      AttemptsKept(cfg, s, t);
    }
  }

  lemma StampFresh(s: State, o: OpId)
    requires SerialLane(s) && FreshOps(s)
    ensures FreshOps(DoStampPrompt(s, o)) && SerialLane(DoStampPrompt(s, o))
  {
    var t := DoStampPrompt(s, o);
    if t != s {
      assert FreshOp(s.rows, s.shown, s.ops[o]);
      OthersFresh(s, t, o);
      var todo := s.ops[o].todo;
      assert forall i :: 0 <= i < |todo| - 1 ==> todo[1..][i] == todo[i + 1];
      assert FreshOp(t.rows, t.shown, t.ops[o]);
    }
  }

  lemma BoundStampPrompt(cfg: Config, s: State, o: OpId)
    requires cfg.serial && Bound(cfg, s)
    ensures Bound(cfg, DoStampPrompt(s, o))
  {
    StampFresh(s, o);
    hide FreshOps, SerialLane;
    var t := DoStampPrompt(s, o);
    if t != s {
      assert FreshOp(s.rows, s.shown, s.ops[o]);
      AttemptsKept(cfg, s, t);
    }
  }

  lemma BoundSkipPrompt(cfg: Config, s: State, o: OpId)
    requires cfg.serial && Bound(cfg, s)
    ensures Bound(cfg, DoSkipPrompt(s, o))
  {
  }

  lemma BoundEndPrompts(cfg: Config, s: State, o: OpId)
    requires cfg.serial && Bound(cfg, s)
    ensures Bound(cfg, DoEndPrompts(s, o))
  {
  }

  lemma BoundCrash(cfg: Config, s: State, o: OpId)
    requires cfg.serial && Bound(cfg, s)
    ensures Bound(cfg, DoCrash(s, o))
  {
  }

  lemma BoundExpire(cfg: Config, s: State, id: ActionId)
    requires cfg.serial && Bound(cfg, s)
    ensures Bound(cfg, DoExpire(s, id))
  {
  }

  lemma BoundStep(cfg: Config, s: State, l: Label)
    requires cfg.serial && Safe(cfg, s) && Bound(cfg, s)
    ensures Bound(cfg, Next(cfg, s, l))
  {
    hide Safe, Bound, OpOk;
    hide DoPark, DoOpenQuoted, DoOpenClassified, DoFlip, DoRevalidate, DoClaim, DoExecute, DoCommit, DoOpenRefine, DoRefine;
    hide DoOpenPrompts, DoSendPrompt, DoStampPrompt, DoSkipPrompt, DoEndPrompts, DoCrash, DoExpire;
    match l
    case Park(id, c, call, x) => BoundPark(cfg, s, id, c, call, x);
    case OpenQuoted(o, c, q, id, d) => BoundOpenQuoted(cfg, s, o, c, q, id, d);
    case OpenClassified(o, c, id, d) => BoundOpenClassified(cfg, s, o, c, id, d);
    case Flip(o) => BoundFlip(cfg, s, o);
    case Revalidate(o, a) => BoundRevalidate(cfg, s, o, a);
    case Claim(o) => BoundClaim(cfg, s, o);
    case Execute(o, a) =>
      if o in s.ops { OpIsOk(cfg, s, o); }
      BoundExecute(cfg, s, o, a);
    case Commit(o) =>
      if o in s.ops { OpIsOk(cfg, s, o); }
      BoundCommit(cfg, s, o);
    case OpenRefine(o, c, id, patch) => BoundOpenRefine(cfg, s, o, c, id, patch);
    case Refine(o) => BoundRefine(cfg, s, o);
    case OpenPrompts(o, c, order) => BoundOpenPrompts(cfg, s, o, c, order);
    case SendPrompt(o, m) => BoundSendPrompt(cfg, s, o, m);
    case StampPrompt(o) => BoundStampPrompt(cfg, s, o);
    case SkipPrompt(o) => BoundSkipPrompt(cfg, s, o);
    case EndPrompts(o) => BoundEndPrompts(cfg, s, o);
    case Crash(o) => BoundCrash(cfg, s, o);
    case Expire(id) => BoundExpire(cfg, s, id);
  }

  lemma {:induction false} BoundRun(cfg: Config, s: State, labels: seq<Label>)
    requires cfg.serial && Safe(cfg, s) && Bound(cfg, s)
    ensures Safe(cfg, Run(cfg, s, labels)) && Bound(cfg, Run(cfg, s, labels))
    decreases |labels|
  {
    if labels != [] {
      SafeStep(cfg, s, labels[0]);
      BoundStep(cfg, s, labels[0]);
      BoundRun(cfg, Next(cfg, s, labels[0]), labels[1..]);
    }
  }

  // ----- The protocol's promises, over every run from an empty store -----

  /**
   In every interleaving: no committed row is 'approved'; 'executed' is committed
   at most once per action, and exactly for the rows that are executed; an event
   id is at most once on a calendar; and an event of an action that is not
   executed comes from an attempt that landed and then threw or crashed, or whose
   commit is still due.
   */
  lemma EveryRunIsSafe(cfg: Config, labels: seq<Label>)
    ensures var s := Run(cfg, Initial, labels);
      && (forall id :: id in s.rows ==> !s.rows[id].status.Approved?)
      && (forall id :: id in s.rows ==> s.commits[id] <= 1 && (s.rows[id].status.Executed? <==> s.commits[id] == 1))
      && (forall i, j :: 0 <= i < j < |s.events| ==>
            (s.events[i].owner, s.events[i].eventId) != (s.events[j].owner, s.events[j].eventId))
      && (forall i :: 0 <= i < |s.events| ==>
            var id := s.events[i].poster;
            && id in s.rows && s.events[i].eventId == cfg.hash(id)
            && (s.rows[id].status.Executed? || id in s.orphans || Uncommitted(s, id)))
  {
    SafeRun(cfg, Initial, labels);
    var s := Run(cfg, Initial, labels);
    forall i | 0 <= i < |s.events| ensures Accounted(cfg, s, s.events[i]) {
    }
  }

  /**
   With a serial lane: a quoted reply runs exactly the arguments its prompt
   showed; an executed action's event is on the stored owner's calendar; a prompt
   binds at most one action, and only while it shows the action's current call.
   */
  lemma ApprovedIsShown(cfg: Config, labels: seq<Label>)
    requires cfg.serial
    ensures var s := Run(cfg, Initial, labels);
      && (forall i :: 0 <= i < |s.attempts| && s.attempts[i].via.Some? ==>
            var a := s.attempts[i];
            && a.via.value in s.shown && s.shown[a.via.value].id == a.id
            && ParseCall(cfg, s.shown[a.via.value].call) == Some(a.args))
      && (forall id :: id in s.rows && s.rows[id].status.Executed? ==>
            && ParseCall(cfg, s.rows[id].call).Some?
            && OnCalendar(s.events, ParseCall(cfg, s.rows[id].call).value.owner, cfg.hash(id)))
      && (forall id, m :: id in s.rows && s.rows[id].prompt == Some(m) ==>
            m in s.shown && s.shown[m] == Shown(id, s.rows[id].call))
      && (forall id, id' | id in s.rows && id' in s.rows ::
            s.rows[id].prompt.Some? && s.rows[id].prompt == s.rows[id'].prompt ==> id == id')
  {
    BoundRun(cfg, Initial, labels);
    var s := Run(cfg, Initial, labels);
    forall i | 0 <= i < |s.attempts| ensures ShownThenRun(cfg, s.shown, s.attempts[i]) {
    }
  }
}
