/**
 The reminder sweep and the expiry sweep, which have one shape: read the due rows,
 and for each start the enqueue of its notice, wait for it, then flip the row under
 a guard.  Sweeps overlap, rows settle under them, and a start may be tried again
 after a crash before its checkpoint; a flip commits with its checkpoint.
 */
module Sweeps {
  import opened Prelude
  import Debounce
  import Lane

  type RowId = string
  type MessageId = string

  /** `Waiting` is scheduled or pending; `Fired` is fired or expired; `Settled` is cancelled, or answered in some way. */
  datatype Status = Waiting | Fired | Settled

  datatype Row = Row(status: Status, due: int)

  function ReminderFiringId(id: string, dueAtIso: string): MessageId {
    "remind-" + id + "-" + dueAtIso
  }

  function ExpiryFiringId(actionId: string): MessageId {
    "expire-" + actionId
  }

  /** The inbox row of a reminder's firing, and of an expiry's. */
  function ReminderDraft(conversation: string, id: string, dueAtIso: string): Lane.Draft {
    Lane.Draft(conversation, Debounce.Proactive, "system", ReminderFiringId(id, dueAtIso))
  }

  function ExpiryDraft(conversation: string, actionId: string): Lane.Draft {
    Lane.Draft(conversation, Debounce.Proactive, "system:hitl", ExpiryFiringId(actionId))
  }

  /** Instants print in 24 characters, so two firings share an id only if they are one. */
  lemma ReminderFiringsDiffer(a: string, atA: string, b: string, atB: string)
    requires |atA| == 24 && |atB| == 24 && ReminderFiringId(a, atA) == ReminderFiringId(b, atB)
    ensures a == b && atA == atB
  {
    var x, y := ReminderFiringId(a, atA), ReminderFiringId(b, atB);
    assert x[7..|x| - 25] == a && y[7..|y| - 25] == b && x[|x| - 24..] == atA && y[|y| - 24..] == atB;
  }

  lemma ExpiryFiringsDiffer(a: string, b: string, id: string, at: string)
    ensures ExpiryFiringId(a) == ExpiryFiringId(b) ==> a == b
    ensures ExpiryFiringId(a) != ReminderFiringId(id, at)
  {
    assert ExpiryFiringId(a)[7..] == a && ExpiryFiringId(b)[7..] == b;
    assert ExpiryFiringId(a)[0] == 'e' && ReminderFiringId(id, at)[0] == 'r';
  }

  // ----- The machine -----

  /** The enqueue workflow of a firing: its row is still to be inserted, or its drain to be started, or it is done. */
  datatype Enqueue = ToInsert | ToStartDrain | Enqueued

  /** `listed` is what the sweep read, `todo` what is left of it; `waiting` says the head's enqueue was started. */
  datatype Sweep = Sweep(listed: seq<RowId>, todo: seq<RowId>, waiting: bool)

  /** `firings` counts, per row, the flips that went through. */
  datatype State = State(rows: map<RowId, Row>, inbox: seq<MessageId>, enqueues: map<MessageId, Enqueue>,
                         sweeps: map<nat, Sweep>, firings: multiset<RowId>)

  const Initial := State(map[], [], map[], map[], multiset{})

  datatype Label =
    | Create(id: RowId, due: int)
    | Settle(id: RowId)
    | InsertOther(m: MessageId)
    | Begin(w: nat, asOf: int, order: seq<RowId>)
    | TryStart(w: nat)
    | Started(w: nat)
    | InsertNotice(m: MessageId)
    | StartDrain(m: MessageId)
    | Mark(w: nat)

  /** The query's answer: every waiting row that is due, once. */
  ghost predicate IsDue(rows: map<RowId, Row>, asOf: int, order: seq<RowId>) {
    && (forall id :: id in order <==> id in rows && rows[id].status.Waiting? && rows[id].due <= asOf)
    && (forall i, j :: 0 <= i < j < |order| ==> order[i] != order[j])
  }

  predicate AtHead(s: State, w: nat) {
    w in s.sweeps && s.sweeps[w].todo != []
  }

  /** A workflow id starts at most one workflow. */
  function Start(s: State, m: MessageId): State {
    if m in s.enqueues then s else s.(enqueues := s.enqueues[m := ToInsert])
  }

  ghost function Next(firing: RowId -> MessageId, s: State, l: Label): State {
    match l
    case Create(id, due) => if id in s.rows then s else s.(rows := s.rows[id := Row(Waiting, due)])
    case Settle(id) =>
      if id in s.rows && s.rows[id].status.Waiting? then s.(rows := s.rows[id := s.rows[id].(status := Settled)]) else s
    case InsertOther(m) => s.(inbox := InsertIfAbsent(s.inbox, m))
    case Begin(w, asOf, order) =>
      if w !in s.sweeps && IsDue(s.rows, asOf, order) then s.(sweeps := s.sweeps[w := Sweep(order, order, false)]) else s
    case TryStart(w) => if AtHead(s, w) && !s.sweeps[w].waiting then Start(s, firing(s.sweeps[w].todo[0])) else s
    case Started(w) =>
      if AtHead(s, w) && !s.sweeps[w].waiting
      then Start(s, firing(s.sweeps[w].todo[0])).(sweeps := s.sweeps[w := s.sweeps[w].(waiting := true)]) else s
    case InsertNotice(m) =>
      if m in s.enqueues && s.enqueues[m].ToInsert?
      then s.(inbox := InsertIfAbsent(s.inbox, m), enqueues := s.enqueues[m := ToStartDrain]) else s
    case StartDrain(m) =>
      if m in s.enqueues && s.enqueues[m].ToStartDrain? then s.(enqueues := s.enqueues[m := Enqueued]) else s
    case Mark(w) => DoMark(firing, s, w)
  }

  /** When the head's enqueue has finished: the guarded flip, with the sweep's next row. */
  function DoMark(firing: RowId -> MessageId, s: State, w: nat): State {
    if AtHead(s, w) && s.sweeps[w].waiting then
      var id := s.sweeps[w].todo[0];
      if firing(id) in s.enqueues && s.enqueues[firing(id)].Enqueued? then
        var s1 := s.(sweeps := s.sweeps[w := s.sweeps[w].(todo := s.sweeps[w].todo[1..], waiting := false)]);
        if id in s.rows && s.rows[id].status.Waiting?
        then s1.(rows := s.rows[id := s.rows[id].(status := Fired)], firings := s.firings + multiset{id})
        else s1
      else s
    else s
  }

  ghost function Run(firing: RowId -> MessageId, s: State, labels: seq<Label>): State
    decreases |labels|
  {
    if labels == [] then s else Run(firing, Next(firing, s, labels[0]), labels[1..])
  }

  // ----- What every run keeps -----

  ghost predicate FiredHasNotice(firing: RowId -> MessageId, s: State) {
    forall id :: id in s.rows && s.rows[id].status.Fired? ==> firing(id) in s.inbox
  }

  ghost predicate FiredOnce(s: State) {
    && (forall id :: id in s.rows ==> s.firings[id] == if s.rows[id].status.Fired? then 1 else 0)
    && (forall id :: id in s.firings ==> id in s.rows)
  }

  ghost predicate OneRowPerId(inbox: seq<MessageId>) {
    forall i, j :: 0 <= i < j < |inbox| ==> inbox[i] != inbox[j]
  }

  ghost predicate EnqueuedHasRow(s: State) {
    forall m :: m in s.enqueues && !s.enqueues[m].ToInsert? ==> m in s.inbox
  }

  /** What a sweep read and has passed is no longer waiting. */
  ghost predicate SweepOk(rows: map<RowId, Row>, sweep: Sweep) {
    && |sweep.todo| <= |sweep.listed| && sweep.todo == sweep.listed[|sweep.listed| - |sweep.todo|..]
    && (forall id :: id in sweep.listed ==> id in rows)
    && (forall i :: 0 <= i < |sweep.listed| - |sweep.todo| ==> !rows[sweep.listed[i]].status.Waiting?)
  }

  ghost predicate Ok(firing: RowId -> MessageId, s: State) {
    && FiredHasNotice(firing, s) && FiredOnce(s) && OneRowPerId(s.inbox) && EnqueuedHasRow(s)
    && (forall w :: w in s.sweeps ==> SweepOk(s.rows, s.sweeps[w]))
  }

  /** Rows only leave 'waiting', and no row goes away. */
  ghost predicate RowsAdvance(rows: map<RowId, Row>, after: map<RowId, Row>) {
    forall id :: id in rows ==> id in after && (rows[id].status.Waiting? || after[id] == rows[id])
  }

  lemma SweepKept(rows: map<RowId, Row>, after: map<RowId, Row>, sweep: Sweep, later: Sweep)
    requires SweepOk(rows, sweep) && RowsAdvance(rows, after) && later.listed == sweep.listed && later.todo == sweep.todo
    ensures SweepOk(after, later)
  {
  }

  lemma RowsAdvanceStep(firing: RowId -> MessageId, s: State, l: Label)
    ensures RowsAdvance(s.rows, Next(firing, s, l).rows)
  {
  }

  lemma MarkSweep(firing: RowId -> MessageId, s: State, w: nat)
    requires AtHead(s, w) && SweepOk(s.rows, s.sweeps[w])
    ensures SweepOk(DoMark(firing, s, w).rows, DoMark(firing, s, w).sweeps[w])
  {
    var t := DoMark(firing, s, w);
    if t != s {
      var old', new' := s.sweeps[w], t.sweeps[w];
      var k := |old'.listed| - |old'.todo|;
      assert old'.listed[k] == old'.todo[0] && old'.listed[k] in old'.listed;
      assert old'.listed[k..][1..] == old'.listed[k + 1..];
      forall i | 0 <= i < k + 1 ensures !t.rows[old'.listed[i]].status.Waiting? {
        assert old'.listed[i] in old'.listed;
      }
    }
  }

  lemma BeginSweep(rows: map<RowId, Row>, asOf: int, order: seq<RowId>)
    requires IsDue(rows, asOf, order)
    ensures SweepOk(rows, Sweep(order, order, false))
  {
  }

  /** Which sweeps a step touches. */
  lemma SweepsTouched(firing: RowId -> MessageId, s: State, l: Label, w: nat)
    requires w in Next(firing, s, l).sweeps
    ensures var t := Next(firing, s, l);
      || (w in s.sweeps && (t.sweeps[w] == s.sweeps[w] || t.sweeps[w] == s.sweeps[w].(waiting := true)))
      || (l == Mark(w) && AtHead(s, w))
      || (l.Begin? && t.sweeps[w] == Sweep(l.order, l.order, false) && IsDue(s.rows, l.asOf, l.order) && t.rows == s.rows)
  {
    hide IsDue;
  }

  lemma SweepStep(firing: RowId -> MessageId, s: State, l: Label, w: nat)
    requires w in s.sweeps ==> SweepOk(s.rows, s.sweeps[w])
    requires w in Next(firing, s, l).sweeps
    ensures SweepOk(Next(firing, s, l).rows, Next(firing, s, l).sweeps[w])
  {
    SweepsTouched(firing, s, l, w);
    if l == Mark(w) && AtHead(s, w) {
      MarkSweep(firing, s, w);
    } else {
      RowsAdvanceStep(firing, s, l);
      hide *;
      if l.Begin? && Next(firing, s, l).sweeps[w] == Sweep(l.order, l.order, false) && IsDue(s.rows, l.asOf, l.order) && Next(firing, s, l).rows == s.rows {
        BeginSweep(s.rows, l.asOf, l.order);
      } else {
        SweepKept(s.rows, Next(firing, s, l).rows, s.sweeps[w], Next(firing, s, l).sweeps[w]);
      }
    }
  }

  lemma SweepsOk(firing: RowId -> MessageId, s: State, l: Label)
    requires forall w :: w in s.sweeps ==> SweepOk(s.rows, s.sweeps[w])
    ensures forall w :: w in Next(firing, s, l).sweeps ==> SweepOk(Next(firing, s, l).rows, Next(firing, s, l).sweeps[w])
  {
    hide *;
    forall w | w in Next(firing, s, l).sweeps ensures SweepOk(Next(firing, s, l).rows, Next(firing, s, l).sweeps[w]) {
      SweepStep(firing, s, l, w);
    }
  }

  lemma InboxOk(firing: RowId -> MessageId, s: State, l: Label)
    requires OneRowPerId(s.inbox) && EnqueuedHasRow(s)
    ensures var t := Next(firing, s, l);
      OneRowPerId(t.inbox) && EnqueuedHasRow(t) && forall m :: m in s.inbox ==> m in t.inbox
  {
  }

  lemma NoticesOk(firing: RowId -> MessageId, s: State, l: Label)
    requires FiredHasNotice(firing, s) && EnqueuedHasRow(s)
    ensures FiredHasNotice(firing, Next(firing, s, l))
  {
    hide IsDue;
  }

  lemma MarkFires(firing: RowId -> MessageId, s: State, w: nat)
    requires FiredOnce(s)
    ensures FiredOnce(DoMark(firing, s, w))
  {
  }

  lemma FiredOk(firing: RowId -> MessageId, s: State, l: Label)
    requires FiredOnce(s)
    ensures FiredOnce(Next(firing, s, l))
  {
    if l.Mark? {
      MarkFires(firing, s, l.w);
    } else {
      hide IsDue, InsertIfAbsent;
    }
  }

  lemma OkStep(firing: RowId -> MessageId, s: State, l: Label)
    requires Ok(firing, s)
    ensures Ok(firing, Next(firing, s, l))
  {
    SweepsOk(firing, s, l);
    InboxOk(firing, s, l);
    NoticesOk(firing, s, l);
    FiredOk(firing, s, l);
    hide Next;
  }

  lemma {:induction false} OkRun(firing: RowId -> MessageId, s: State, labels: seq<Label>)
    requires Ok(firing, s)
    ensures Ok(firing, Run(firing, s, labels)) && RowsAdvance(s.rows, Run(firing, s, labels).rows)
    decreases |labels|
  {
    if labels != [] {
      OkStep(firing, s, labels[0]);
      RowsAdvanceStep(firing, s, labels[0]);
      OkRun(firing, Next(firing, s, labels[0]), labels[1..]);
    }
  }

  /**
   In every overlap of sweeps, settlements and repeated starts: a fired row's notice
   is in the inbox; no message id is there twice; a row fires at most once; and when
   a sweep is through, no row it read is still waiting.
   */
  lemma SweepsAreRight(firing: RowId -> MessageId, labels: seq<Label>)
    ensures var s := Run(firing, Initial, labels);
      && (forall id :: id in s.rows && s.rows[id].status.Fired? ==> firing(id) in s.inbox)
      && (forall i, j :: 0 <= i < j < |s.inbox| ==> s.inbox[i] != s.inbox[j])
      && (forall id :: s.firings[id] <= 1)
      && (forall w :: w in s.sweeps && s.sweeps[w].todo == [] ==>
            forall id :: id in s.sweeps[w].listed ==> id in s.rows && !s.rows[id].status.Waiting?)
  {
    OkRun(firing, Initial, labels);
    var s := Run(firing, Initial, labels);
    forall id ensures s.firings[id] <= 1 {
      assert id in s.firings ==> id in s.rows;
    }
    forall w | w in s.sweeps && s.sweeps[w].todo == []
      ensures forall id :: id in s.sweeps[w].listed ==> id in s.rows && !s.rows[id].status.Waiting?
    {
      assert SweepOk(s.rows, s.sweeps[w]);
    }
  }

  /** A settled row never fires, and a fired one never settles. */
  lemma SettledStays(firing: RowId -> MessageId, labels: seq<Label>, more: seq<Label>, id: RowId)
    requires var s := Run(firing, Initial, labels);
      id in s.rows && !s.rows[id].status.Waiting?
    ensures var s := Run(firing, Initial, labels);
      var t := Run(firing, s, more);
      id in t.rows && t.rows[id] == s.rows[id]
  {
    OkRun(firing, Initial, labels);
    OkRun(firing, Run(firing, Initial, labels), more);
  }

  /**
   The price of enqueue-then-mark: a row that settles between the two has its notice
   in the inbox although it never fires.
   */
  lemma NoticeWithoutFiring(firing: RowId -> MessageId, id: RowId)
    ensures var m := firing(id);
      var labels := [Create(id, 0), Begin(0, 0, [id]), Started(0), InsertNotice(m), StartDrain(m), Settle(id), Mark(0)];
      var s := Run(firing, Initial, labels);
      && s.inbox == [m] && id in s.rows && s.rows[id].status.Settled?
      && 0 in s.sweeps && s.sweeps[0].todo == [] && id !in s.firings
  {
    var m := firing(id);
    var labels := [Create(id, 0), Begin(0, 0, [id]), Started(0), InsertNotice(m), StartDrain(m), Settle(id), Mark(0)];
    EnqueuesNotice(firing, id);
    SettlesBeforeMark(firing, id);
    hide *;
    assert labels == [Create(id, 0), Begin(0, 0, [id]), Started(0), InsertNotice(m)] + [StartDrain(m), Settle(id), Mark(0)];
    RunConcat(firing, Initial, [Create(id, 0), Begin(0, 0, [id]), Started(0), InsertNotice(m)], [StartDrain(m), Settle(id), Mark(0)]);
  }

  /** The sweep has read the row, and its notice is in the inbox. */
  function NoticeSent(firing: RowId -> MessageId, id: RowId): State {
    State(map[id := Row(Waiting, 0)], [firing(id)], map[firing(id) := ToStartDrain], map[0 := Sweep([id], [id], true)], multiset{})
  }

  lemma EnqueuesNotice(firing: RowId -> MessageId, id: RowId)
    ensures Run(firing, Initial, [Create(id, 0), Begin(0, 0, [id]), Started(0), InsertNotice(firing(id))]) == NoticeSent(firing, id)
  {
    var m := firing(id);
    var s1 := Next(firing, Initial, Create(id, 0));
    assert IsDue(s1.rows, 0, [id]);
    var s2 := Next(firing, s1, Begin(0, 0, [id]));
    assert s2.sweeps == map[0 := Sweep([id], [id], false)];
    var labels := [Create(id, 0), Begin(0, 0, [id]), Started(0), InsertNotice(m)];
    RunTwo(firing, Initial, labels);
    RunTwo(firing, s2, labels[2..]);
  }

  lemma SettlesBeforeMark(firing: RowId -> MessageId, id: RowId)
    ensures Run(firing, NoticeSent(firing, id), [StartDrain(firing(id)), Settle(id), Mark(0)]) ==
      State(map[id := Row(Settled, 0)], [firing(id)], map[firing(id) := Enqueued], map[0 := Sweep([id], [], false)], multiset{})
  {
    var s4 := NoticeSent(firing, id);
    var s6 := Next(firing, Next(firing, s4, StartDrain(firing(id))), Settle(id));
    var labels := [StartDrain(firing(id)), Settle(id), Mark(0)];
    RunTwo(firing, s4, labels);
    assert labels[2..] == [Mark(0)] && [Mark(0)][1..] == [];
    assert [id][1..] == [];
    assert Run(firing, s6, [Mark(0)]) == Run(firing, Next(firing, s6, Mark(0)), []);
  }

  lemma {:induction false} RunConcat(firing: RowId -> MessageId, s: State, a: seq<Label>, b: seq<Label>)
    ensures Run(firing, s, a + b) == Run(firing, Run(firing, s, a), b)
    decreases |a|
  {
    if a == [] {
      assert a + b == b;
    } else {
      assert (a + b)[1..] == a[1..] + b;
      RunConcat(firing, Next(firing, s, a[0]), a[1..], b);
    }
  }

  lemma RunTwo(firing: RowId -> MessageId, s: State, l: seq<Label>)
    requires |l| >= 2
    ensures Run(firing, s, l) == Run(firing, Next(firing, Next(firing, s, l[0]), l[1]), l[2..])
  {
    hide Next;
    assert l[1..][0] == l[1] && l[1..][1..] == l[2..];
    assert Run(firing, s, l) == Run(firing, Next(firing, s, l[0]), l[1..]);
  }
}
