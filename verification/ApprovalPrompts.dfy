/**
 Prompts over whole runs: what a prompt that lost its action can still do, and which
 settled rows a late stamp can still reach.
 */
module ApprovalPrompts {
  import opened Prelude
  import opened Approvals
  import opened ApprovalSafety

  /** The prompt a step has sent and not yet stamped. */
  function InFlight(op: Op): Option<MessageId> {
    if op.Prompting? then op.inFlight else None
  }

  /** Prompts that can matter were shown, and each is in flight once or stamped on one row. */
  ghost predicate PromptsOk(s: State) {
    && (forall o :: o in s.ops && InFlight(s.ops[o]).Some? ==> InFlight(s.ops[o]).value in s.shown)
    && (forall id :: id in s.rows && s.rows[id].prompt.Some? ==> s.rows[id].prompt.value in s.shown)
    && (forall o, p | o in s.ops && p in s.ops ::
          InFlight(s.ops[o]).Some? && InFlight(s.ops[o]) == InFlight(s.ops[p]) ==> o == p)
    && (forall o, id | o in s.ops && id in s.rows :: InFlight(s.ops[o]).Some? ==> s.rows[id].prompt != InFlight(s.ops[o]))
    && (forall a, b | a in s.rows && b in s.rows :: s.rows[a].prompt.Some? && s.rows[a].prompt == s.rows[b].prompt ==> a == b)
  }

  ghost predicate QuietRows(rows: map<ActionId, Row>, after: map<ActionId, Row>) {
    forall id :: id in after && after[id].prompt.Some? ==> id in rows && after[id].prompt == rows[id].prompt
  }

  ghost predicate QuietOps(ops: map<OpId, Op>, after: map<OpId, Op>) {
    forall o :: o in after && InFlight(after[o]).Some? ==> o in ops && InFlight(after[o]) == InFlight(ops[o])
  }

  /** No prompt is sent or stamped: stamps and prompts in flight can only go away. */
  ghost predicate Quiet(s: State, t: State) {
    t.shown == s.shown && QuietRows(s.rows, t.rows) && QuietOps(s.ops, t.ops)
  }

  lemma QuietRowsStep(cfg: Config, s: State, l: Label)
    requires !l.StampPrompt?
    requires l.Commit? && l.o in s.ops ==> OpOk(cfg, s.rows, s.events, s.ops[l.o])
    ensures QuietRows(s.rows, Next(cfg, s, l).rows)
  {
    hide Locked, LaneFree, Unstamped, RefinedCall, OnCalendar, Create;
  }

  lemma QuietFlip(cfg: Config, s: State, o: OpId)
    ensures QuietOps(s.ops, DoFlip(cfg, s, o).ops) && DoFlip(cfg, s, o).shown == s.shown
  {
    if o in s.ops && s.ops[o].Settling? && s.ops[o].id in s.rows {
      FlippedSame(cfg, s.ops[o], s.rows[s.ops[o].id]);
    }
    hide Locked, Flipped;
  }

  /** A settling step after its flip. */
  predicate Works(l: Label) {
    l.Revalidate? || l.Claim? || l.Execute? || l.Commit?
  }

  lemma QuietWork(cfg: Config, s: State, l: Label)
    requires Works(l)
    ensures QuietOps(s.ops, Next(cfg, s, l).ops) && Next(cfg, s, l).shown == s.shown
  {
    hide OnCalendar, Create;
  }

  lemma QuietRest(cfg: Config, s: State, l: Label)
    requires !Works(l) && !l.Flip? && !l.SendPrompt? && !l.StampPrompt?
    ensures QuietOps(s.ops, Next(cfg, s, l).ops) && Next(cfg, s, l).shown == s.shown
  {
    hide Locked, LaneFree, Unstamped, RefinedCall;
  }

  lemma QuietOpsStep(cfg: Config, s: State, l: Label)
    requires !l.SendPrompt? && !l.StampPrompt?
    ensures QuietOps(s.ops, Next(cfg, s, l).ops) && Next(cfg, s, l).shown == s.shown
  {
    hide QuietOps;
    if l.Flip? {
      QuietFlip(cfg, s, l.o);
    } else if Works(l) {
      QuietWork(cfg, s, l);
    } else {
      QuietRest(cfg, s, l);
    }
  }

  lemma QuietStep(cfg: Config, s: State, l: Label)
    requires !l.SendPrompt? && !l.StampPrompt?
    requires l.Commit? && l.o in s.ops ==> OpOk(cfg, s.rows, s.events, s.ops[l.o])
    ensures Quiet(s, Next(cfg, s, l))
  {
    QuietRowsStep(cfg, s, l);
    QuietOpsStep(cfg, s, l);
    hide Next, QuietRows, QuietOps;
  }

  lemma QuietKeeps(s: State, t: State)
    requires PromptsOk(s) && Quiet(s, t)
    ensures PromptsOk(t)
  {
  }

  lemma SendKeeps(s: State, o: OpId, m: MessageId)
    requires PromptsOk(s)
    ensures PromptsOk(DoSendPrompt(s, o, m))
  {
  }

  lemma StampKeeps(s: State, o: OpId)
    requires PromptsOk(s)
    ensures PromptsOk(DoStampPrompt(s, o))
  {
  }

  lemma PromptsStep(cfg: Config, s: State, l: Label)
    requires Safe(cfg, s) && PromptsOk(s)
    ensures PromptsOk(Next(cfg, s, l))
  {
    if l.SendPrompt? {
      SendKeeps(s, l.o, l.m);
    } else if l.StampPrompt? {
      StampKeeps(s, l.o);
    } else {
      if l.Commit? && l.o in s.ops { OpIsOk(cfg, s, l.o); }
      hide Safe, PromptsOk;
      QuietStep(cfg, s, l);
      QuietKeeps(s, Next(cfg, s, l));
    }
  }

  lemma {:induction false} PromptsRun(cfg: Config, s: State, labels: seq<Label>)
    requires Safe(cfg, s) && PromptsOk(s)
    ensures Safe(cfg, Run(cfg, s, labels)) && PromptsOk(Run(cfg, s, labels))
    decreases |labels|
  {
    if labels != [] {
      SafeStep(cfg, s, labels[0]);
      PromptsStep(cfg, s, labels[0]);
      PromptsRun(cfg, Next(cfg, s, labels[0]), labels[1..]);
    }
  }

  // ----- A prompt that lost its action -----

  /** The prompt went out, nobody is about to stamp it, and it binds no row. */
  ghost predicate Gone(s: State, m: MessageId) {
    && m in s.shown
    && (forall o :: o in s.ops ==> InFlight(s.ops[o]) != Some(m))
    && (forall id :: id in s.rows ==> s.rows[id].prompt != Some(m))
  }

  lemma GoneStep(cfg: Config, s: State, l: Label, m: MessageId)
    requires Safe(cfg, s) && Gone(s, m)
    ensures Gone(Next(cfg, s, l), m)
  {
    if !l.SendPrompt? && !l.StampPrompt? {
      if l.Commit? && l.o in s.ops { OpIsOk(cfg, s, l.o); }
      hide Safe;
      QuietStep(cfg, s, l);
    }
  }

  /** Such a prompt never binds an action again, whatever happens. */
  lemma {:induction false} GoneForever(cfg: Config, s: State, labels: seq<Label>, m: MessageId)
    requires Safe(cfg, s) && Gone(s, m)
    ensures Gone(Run(cfg, s, labels), m)
    decreases |labels|
  {
    if labels != [] {
      GoneStep(cfg, s, labels[0], m);
      SafeStep(cfg, s, labels[0]);
      GoneForever(cfg, Next(cfg, s, labels[0]), labels[1..], m);
    }
  }

  /** Whatever takes a prompt off its row, a refinement or a newer stamp, leaves it bound nowhere. */
  lemma LosingIsGone(cfg: Config, s: State, l: Label, id: ActionId, m: MessageId)
    requires Safe(cfg, s) && PromptsOk(s)
    requires id in s.rows && s.rows[id].prompt == Some(m)
    requires id in Next(cfg, s, l).rows && Next(cfg, s, l).rows[id].prompt != Some(m)
    ensures Gone(Next(cfg, s, l), m)
  {
    if !l.SendPrompt? && !l.StampPrompt? {
      if l.Commit? && l.o in s.ops { OpIsOk(cfg, s, l.o); }
      hide Safe;
      QuietStep(cfg, s, l);
    }
  }

  /**
   Once a refinement or a re-send took an action's prompt away, that prompt binds no
   action in any further run, and quoting it opens nothing, under any claimed id.
   */
  lemma SupersededPromptIsInert(cfg: Config, before: seq<Label>, l: Label, more: seq<Label>, id: ActionId, m: MessageId)
    requires var s := Run(cfg, Initial, before);
      && id in s.rows && s.rows[id].prompt == Some(m)
      && id in Next(cfg, s, l).rows && Next(cfg, s, l).rows[id].prompt != Some(m)
    ensures var u := Run(cfg, Next(cfg, Run(cfg, Initial, before), l), more);
      && (forall k :: k in u.rows ==> u.rows[k].prompt != Some(m))
      && (forall o, c, k, d :: DoOpenQuoted(cfg, u, o, c, m, k, d) == u)
  {
    var s := Run(cfg, Initial, before);
    PromptsRun(cfg, Initial, before);
    LosingIsGone(cfg, s, l, id, m);
    SafeStep(cfg, s, l);
    GoneForever(cfg, Next(cfg, s, l), more, m);
  }

  // ----- Settled rows and late stamps -----

  /** The step will still send a prompt for the action, or stamp it. */
  ghost predicate Lists(op: Op, id: ActionId) {
    op.Prompting? && exists i :: 0 <= i < |op.todo| && op.todo[i].0 == id
  }

  ghost predicate Listed(s: State, id: ActionId) {
    exists o :: o in s.ops && Lists(s.ops[o], id)
  }

  ghost predicate SettledAt(s: State, id: ActionId) {
    id in s.rows && Settled(s.rows[id].status)
  }

  lemma HeadIsListed(op: Op, id: ActionId)
    requires op.Prompting? && op.todo != []
    ensures op.todo[0].0 == id ==> Lists(op, id)
  {
  }

  lemma OthersKeepPrompt(cfg: Config, s: State, l: Label, id: ActionId)
    requires !l.StampPrompt? && id in s.rows && !s.rows[id].status.Pending?
    requires l.Commit? && l.o in s.ops ==> OpOk(cfg, s.rows, s.events, s.ops[l.o])
    ensures id in Next(cfg, s, l).rows && Next(cfg, s, l).rows[id] == s.rows[id]
  {
    hide Locked, LaneFree, Unstamped, RefinedCall, OnCalendar, Create;
  }

  lemma UnlistedRow(cfg: Config, s: State, l: Label, id: ActionId)
    requires SettledAt(s, id) && !Listed(s, id)
    requires l.Commit? && l.o in s.ops ==> OpOk(cfg, s.rows, s.events, s.ops[l.o])
    ensures id in Next(cfg, s, l).rows && Next(cfg, s, l).rows[id] == s.rows[id]
  {
    if l.StampPrompt? {
      if l.o in s.ops && s.ops[l.o].Prompting? && s.ops[l.o].todo != [] { HeadIsListed(s.ops[l.o], id); }
    } else {
      OthersKeepPrompt(cfg, s, l, id);
    }
  }

  /** A prompting step that goes on lists no more than it did. */
  lemma ListsLess(before: Op, after: Op, id: ActionId)
    requires before.Prompting? && after.Prompting? && Lists(after, id)
    requires after.todo == before.todo || (before.todo != [] && after.todo == before.todo[1..])
    ensures Lists(before, id)
  {
    var i :| 0 <= i < |after.todo| && after.todo[i].0 == id;
    assert before.todo[if after.todo == before.todo then i else i + 1].0 == id;
  }

  /** Where a prompting step comes from. */
  lemma PromptingFrom(cfg: Config, s: State, l: Label, o: OpId)
    requires o in Next(cfg, s, l).ops && Next(cfg, s, l).ops[o].Prompting?
    ensures var after := Next(cfg, s, l).ops[o];
      || (o in s.ops && s.ops[o].Prompting?
          && (after.todo == s.ops[o].todo || (s.ops[o].todo != [] && after.todo == s.ops[o].todo[1..])))
      || (forall i :: 0 <= i < |after.todo| ==> after.todo[i].0 in s.rows && s.rows[after.todo[i].0].status.Pending?)
  {
    hide Locked, LaneFree, RefinedCall, OnCalendar, Create;
  }

  /** Which prompting steps a step leaves, and what they list. */
  lemma ListsFrom(cfg: Config, s: State, l: Label, o: OpId, id: ActionId)
    requires o in Next(cfg, s, l).ops && Lists(Next(cfg, s, l).ops[o], id)
    ensures (o in s.ops && Lists(s.ops[o], id)) || (id in s.rows && s.rows[id].status.Pending?)
  {
    PromptingFrom(cfg, s, l, o);
    hide Next;
    var after := Next(cfg, s, l).ops[o];
    if o in s.ops && s.ops[o].Prompting? && (after.todo == s.ops[o].todo || (s.ops[o].todo != [] && after.todo == s.ops[o].todo[1..])) {
      ListsLess(s.ops[o], after, id);
    }
  }

  lemma UnlistedStep(cfg: Config, s: State, l: Label, id: ActionId)
    requires Safe(cfg, s) && SettledAt(s, id) && !Listed(s, id)
    ensures SettledAt(Next(cfg, s, l), id) && !Listed(Next(cfg, s, l), id) && Next(cfg, s, l).rows[id] == s.rows[id]
  {
    if l.Commit? && l.o in s.ops { OpIsOk(cfg, s, l.o); }
    hide Safe;
    UnlistedRow(cfg, s, l, id);
    forall o | o in Next(cfg, s, l).ops ensures !Lists(Next(cfg, s, l).ops[o], id) {
      if Lists(Next(cfg, s, l).ops[o], id) { ListsFrom(cfg, s, l, o, id); }
    }
  }

  /** A settled row that no prompting step lists never changes again, in any column, lane or no lane. */
  lemma {:induction false} UnlistedForever(cfg: Config, s: State, labels: seq<Label>, id: ActionId)
    requires Safe(cfg, s) && SettledAt(s, id) && !Listed(s, id)
    ensures id in Run(cfg, s, labels).rows && Run(cfg, s, labels).rows[id] == s.rows[id]
    decreases |labels|
  {
    if labels != [] {
      UnlistedStep(cfg, s, labels[0], id);
      SafeStep(cfg, s, labels[0]);
      UnlistedForever(cfg, Next(cfg, s, labels[0]), labels[1..], id);
    }
  }

  lemma {:induction false} LongerThanAll(used: set<string>) returns (n: nat)
    ensures forall x :: x in used ==> |x| < n
    decreases |used|
  {
    n := 0;
    if used != {} {
      var x :| x in used;
      var k := LongerThanAll(used - {x});
      n := if k > |x| then k else |x| + 1;
    }
  }

  lemma FreshId(used: set<string>) returns (m: MessageId)
    ensures m !in used
  {
    var n := LongerThanAll(used);
    m := seq(n, _ => 'm');
  }

  lemma SettledIsUnlocked(cfg: Config, s: State, id: ActionId)
    requires Safe(cfg, s) && SettledAt(s, id)
    ensures !Locked(s, id)
  {
    forall o | o in s.ops ensures !Holds(s.ops[o], id) { OpIsOk(cfg, s, o); }
  }

  /** One label that stamps a settled row with the prompt in flight for it. */
  lemma StampsIt(cfg: Config, s: State, o: OpId, id: ActionId)
    requires PromptsOk(s) && id in s.rows && !Locked(s, id)
    requires o in s.ops && s.ops[o].Prompting? && s.ops[o].todo != [] && s.ops[o].todo[0].0 == id && s.ops[o].inFlight.Some?
    ensures var t := Run(cfg, s, [StampPrompt(o)]);
      id in t.rows && t.rows[id] != s.rows[id] && t.rows[id].prompt == s.ops[o].inFlight
  {
    assert Run(cfg, s, [StampPrompt(o)]) == Run(cfg, Next(cfg, s, StampPrompt(o)), [StampPrompt(o)][1..]) == DoStampPrompt(s, o);
    assert s.rows[id].prompt != InFlight(s.ops[o]);
  }

  lemma SendsIt(cfg: Config, s: State, o: OpId, id: ActionId, m: MessageId)
    requires PromptsOk(s) && id in s.rows && !Locked(s, id) && m !in s.shown
    requires o in s.ops && s.ops[o].Prompting? && s.ops[o].todo != [] && s.ops[o].todo[0].0 == id && s.ops[o].inFlight.None?
    ensures var t := DoSendPrompt(s, o, m);
      && PromptsOk(t) && t.rows == s.rows && !Locked(t, id) && Run(cfg, s, [SendPrompt(o, m)]) == t
      && o in t.ops && t.ops[o] == s.ops[o].(inFlight := Some(m))
  {
    SendKeeps(s, o, m);
    hide PromptsOk;
    var t := DoSendPrompt(s, o, m);
    assert forall p :: p in t.ops && p != o ==> p in s.ops && t.ops[p] == s.ops[p];
    forall p | p in t.ops ensures !Holds(t.ops[p], id) { }
    assert Run(cfg, s, [SendPrompt(o, m)]) == Run(cfg, Next(cfg, s, SendPrompt(o, m)), [SendPrompt(o, m)][1..]);
  }

  /** The action is next in line: its prompt can go out and be stamped. */
  lemma NextInLine(cfg: Config, s: State, o: OpId, id: ActionId) returns (labels: seq<Label>)
    requires Safe(cfg, s) && PromptsOk(s) && SettledAt(s, id)
    requires o in s.ops && s.ops[o].Prompting? && s.ops[o].todo != [] && s.ops[o].todo[0].0 == id
    ensures id in Run(cfg, s, labels).rows && Run(cfg, s, labels).rows[id] != s.rows[id]
  {
    SettledIsUnlocked(cfg, s, id);
    assert id in s.rows;
    hide *;
    if s.ops[o].inFlight.Some? {
      labels := [StampPrompt(o)];
      StampsIt(cfg, s, o, id);
    } else {
      var m := FreshId(s.shown.Keys);
      SendsIt(cfg, s, o, id, m);
      StampsIt(cfg, DoSendPrompt(s, o, m), o, id);
      RunConcat(cfg, s, [SendPrompt(o, m)], [StampPrompt(o)]);
      labels := [SendPrompt(o, m)] + [StampPrompt(o)];
    }
  }

  /** Releases the lock on a row by crashing the step that holds it. */
  lemma Unlock(cfg: Config, s: State, h: ActionId, o: OpId) returns (labels: seq<Label>, t: State)
    requires Safe(cfg, s) && o in s.ops && s.ops[o].Prompting?
    ensures Run(cfg, s, labels) == t && !Locked(t, h)
    ensures o in t.ops && t.ops[o] == s.ops[o] && t.rows == s.rows && t.shown == s.shown
  {
    if Locked(s, h) {
      var p :| p in s.ops && Holds(s.ops[p], h);
      labels, t := [Crash(p)], DoCrash(s, p);
      assert Run(cfg, s, labels) == Run(cfg, t, labels[1..]);
      assert forall q :: q in t.ops ==> t.ops[q] == s.ops[q];
    } else {
      labels, t := [], s;
    }
  }

  lemma {:induction false} RunConcat(cfg: Config, s: State, a: seq<Label>, b: seq<Label>)
    ensures Run(cfg, s, a + b) == Run(cfg, Run(cfg, s, a), b)
    decreases |a|
  {
    if a == [] {
      assert a + b == b;
    } else {
      assert (a + b)[1..] == a[1..] + b;
      RunConcat(cfg, Next(cfg, s, a[0]), a[1..], b);
    }
  }

  /** A stamp that is due and not in the way of anything moves the line up. */
  lemma StampMoves(cfg: Config, s: State, o: OpId, id: ActionId)
    requires id in s.rows && o in s.ops && s.ops[o].Prompting? && s.ops[o].todo != [] && s.ops[o].inFlight.Some?
    requires s.ops[o].todo[0].0 != id && s.ops[o].todo[0].0 in s.rows && !Locked(s, s.ops[o].todo[0].0)
    ensures var t := Run(cfg, s, [StampPrompt(o)]);
      && id in t.rows && t.rows[id] == s.rows[id]
      && o in t.ops && t.ops[o].Prompting? && t.ops[o].todo == s.ops[o].todo[1..]
  {
    assert Run(cfg, s, [StampPrompt(o)]) == Run(cfg, Next(cfg, s, StampPrompt(o)), [StampPrompt(o)][1..]) == DoStampPrompt(s, o);
  }

  /** One more action ahead of it in line: it is stamped, or skipped as undeliverable, and the line moves up. */
  lemma LineMoves(cfg: Config, s: State, o: OpId, id: ActionId) returns (labels: seq<Label>)
    requires Safe(cfg, s) && SettledAt(s, id)
    requires o in s.ops && s.ops[o].Prompting? && s.ops[o].todo != [] && s.ops[o].todo[0].0 != id
    ensures var t := Run(cfg, s, labels);
      && id in t.rows && t.rows[id] == s.rows[id]
      && o in t.ops && t.ops[o].Prompting? && t.ops[o].todo == s.ops[o].todo[1..]
  {
    if s.ops[o].inFlight.None? {
      labels := [SkipPrompt(o)];
      assert Run(cfg, s, labels) == Run(cfg, Next(cfg, s, labels[0]), labels[1..]) == DoSkipPrompt(s, o);
    } else {
      OpIsOk(cfg, s, o);
      var t;
      labels, t := Unlock(cfg, s, s.ops[o].todo[0].0, o);
      hide Safe, Run, Next, Locked;
      RunConcat(cfg, s, labels, [StampPrompt(o)]);
      StampMoves(cfg, t, o, id);
      labels := labels + [StampPrompt(o)];
    }
  }

  /** The line has moved up by one, and nothing else that matters has changed. */
  lemma OneCloser(cfg: Config, s: State, o: OpId, i: nat, id: ActionId) returns (labels: seq<Label>)
    requires Safe(cfg, s) && PromptsOk(s) && SettledAt(s, id)
    requires o in s.ops && s.ops[o].Prompting? && 0 < i < |s.ops[o].todo| && s.ops[o].todo[i].0 == id && s.ops[o].todo[0].0 != id
    ensures var t := Run(cfg, s, labels);
      && Safe(cfg, t) && PromptsOk(t) && SettledAt(t, id) && t.rows[id] == s.rows[id]
      && o in t.ops && t.ops[o].Prompting? && i - 1 < |t.ops[o].todo| && t.ops[o].todo[i - 1].0 == id
  {
    labels := LineMoves(cfg, s, o, id);
    PromptsRun(cfg, s, labels);
    hide Run, Safe, PromptsOk;
    assert s.ops[o].todo[1..][i - 1] == s.ops[o].todo[i];
  }

  /** A settled row that is still listed can change: a run ends in its stamp. */
  lemma {:induction false} ListedCanChange(cfg: Config, s: State, o: OpId, i: nat, id: ActionId) returns (labels: seq<Label>)
    requires Safe(cfg, s) && PromptsOk(s) && SettledAt(s, id)
    requires o in s.ops && s.ops[o].Prompting? && i < |s.ops[o].todo| && s.ops[o].todo[i].0 == id
    ensures id in Run(cfg, s, labels).rows && Run(cfg, s, labels).rows[id] != s.rows[id]
    decreases i
  {
    hide *;
    if s.ops[o].todo[0].0 == id {
      labels := NextInLine(cfg, s, o, id);
    } else {
      var first := OneCloser(cfg, s, o, i, id);
      var rest := ListedCanChange(cfg, Run(cfg, s, first), o, i - 1, id);
      RunConcat(cfg, s, first, rest);
      labels := first + rest;
    }
  }

  /**
   Exactly when a settled row is final: in every reachable state, with or without the
   lane, a denied, executed, stale or expired row keeps every column over every
   further run if and only if no prompting step still lists it.
   */
  lemma SettledRowIsFinalIff(cfg: Config, before: seq<Label>, id: ActionId)
    requires SettledAt(Run(cfg, Initial, before), id)
    ensures var s := Run(cfg, Initial, before);
      (forall labels :: id in Run(cfg, s, labels).rows && Run(cfg, s, labels).rows[id] == s.rows[id]) <==> !Listed(s, id)
  {
    var s := Run(cfg, Initial, before);
    PromptsRun(cfg, Initial, before);
    if Listed(s, id) {
      var o :| o in s.ops && Lists(s.ops[o], id);
      var i :| 0 <= i < |s.ops[o].todo| && s.ops[o].todo[i].0 == id;
      var labels := ListedCanChange(cfg, s, o, i, id);
      assert Run(cfg, s, labels).rows[id] != s.rows[id];
    } else {
      forall labels ensures id in Run(cfg, s, labels).rows && Run(cfg, s, labels).rows[id] == s.rows[id] {
        UnlistedForever(cfg, s, labels, id);
      }
    }
  }

  /** With the serial lane only pending and expired rows are ever listed, so the other settled rows are final. */
  lemma SettledRowForever(cfg: Config, s: State, labels: seq<Label>, id: ActionId)
    requires Safe(cfg, s) && FreshOps(s) && SettledAt(s, id) && !s.rows[id].status.Expired?
    ensures id in Run(cfg, s, labels).rows && Run(cfg, s, labels).rows[id] == s.rows[id]
  {
    forall o | o in s.ops ensures !Lists(s.ops[o], id) { assert FreshOp(s.rows, s.shown, s.ops[o]); }
    UnlistedForever(cfg, s, labels, id);
  }
}
