/** Runs that show where the approval protocol's promises end. */
module ApprovalWitnesses {
  import opened Prelude
  import opened Approvals

  /** Extends a run by one label. */
  lemma {:induction false} RunSnoc(cfg: Config, s: State, labels: seq<Label>, l: Label)
    ensures Run(cfg, s, labels + [l]) == Next(cfg, Run(cfg, s, labels), l)
    decreases |labels|
  {
    if labels == [] {
      assert ([] + [l])[1..] == [];
    } else {
      assert (labels + [l])[1..] == labels[1..] + [l];
      RunSnoc(cfg, Next(cfg, s, labels[0]), labels[1..], l);
    }
  }

  lemma Then(cfg: Config, s: State, labels: seq<Label>, l: Label, t: State) returns (labels': seq<Label>)
    requires Run(cfg, Initial, labels) == s && Next(cfg, s, l) == t
    ensures Run(cfg, Initial, labels') == t
  {
    labels' := labels + [l];
    RunSnoc(cfg, Initial, labels, l);
  }

  /**
   Without the lane an action can be executed with arguments other than the ones
   its row holds: the settle core runs the call its first read returned, and a
   refinement may commit between that read and the flip.
   */
  lemma LaneIsNeeded(cfg: Config, a: ActionId, c: ConversationId, call: StoredCall, patch: Json, x: int)
    returns (labels: seq<Label>)
    requires !cfg.serial && ParseCall(cfg, call).Some? && RefinedCall(cfg, call, patch).Some?
    ensures var s := Run(cfg, Initial, labels);
      var args := ParseCall(cfg, call).value;
      && a in s.rows && s.rows[a].status.Executed? && s.rows[a].call == RefinedCall(cfg, call, patch).value
      && s.events == [Event(args.owner, cfg.hash(a), args, a)]
  {
    var args := ParseCall(cfg, call).value;
    var r := Row(c, call, Pending, None, x);
    var r' := r.(call := RefinedCall(cfg, call, patch).value);
    var op := Settling(c, a, r, Approve, None, None, AtFlip);
    labels := [];
    var s1 := Initial.(rows := map[a := r]);
    labels := Then(cfg, Initial, labels, Park(a, c, call, x), s1);
    var s2 := s1.(ops := map[0 := op]);
    labels := Then(cfg, s1, labels, OpenClassified(0, c, a, Approve), s2);
    var s3 := s2.(ops := map[0 := op, 1 := Refining(c, a, r, patch)]);
    labels := Then(cfg, s2, labels, OpenRefine(1, c, a, patch), s3);
    var s4 := s2.(rows := map[a := r']);
    assert s3.ops - {1} == s2.ops;
    labels := Then(cfg, s3, labels, Refine(1), s4);
    labels := ApproveFrom(cfg, s4, labels, a, args);
  }

  /** The rows, calendars and prompts an approval leaves when nothing interleaves and the calendar answers. */
  ghost predicate ApprovedOver(cfg: Config, s: State, a: ActionId, args: CalendarArgs, t: State)
    requires a in s.rows
  {
    && t.rows == s.rows[a := s.rows[a].(status := Executed)] && t.ops == map[] && t.shown == s.shown
    && t.events == Create(s.events, Event(args.owner, cfg.hash(a), args, a))
  }

  /** From an unlocked flip to the commit of an approval the calendar accepts. */
  lemma ApproveFrom(cfg: Config, s: State, labels: seq<Label>, a: ActionId, args: CalendarArgs) returns (labels': seq<Label>)
    requires Run(cfg, Initial, labels) == s
    requires a in s.rows && s.rows[a].status.Pending? && s.ops.Keys == {0}
    requires s.ops[0].Settling? && s.ops[0].id == a && s.ops[0].decision.Approve? && s.ops[0].pc.AtFlip? && s.ops[0].work.None?
    requires ParseCall(cfg, s.ops[0].snap.call) == Some(args)
    ensures ApprovedOver(cfg, s, a, args, Run(cfg, Initial, labels'))
  {
    ApproveSteps(cfg, s, a, args);
    hide *;
    var s1 := DoFlip(cfg, s, 0);
    var s2 := DoRevalidate(s1, 0, Free);
    var s3 := DoClaim(s2, 0);
    var s4 := DoExecute(cfg, s3, 0, Answered);
    var s5 := DoCommit(s4, 0);
    NextIs(cfg, s);
    labels' := Then(cfg, s, labels, Flip(0), s1);
    NextIs(cfg, s1);
    labels' := Then(cfg, s1, labels', Revalidate(0, Free), s2);
    NextIs(cfg, s2);
    labels' := Then(cfg, s2, labels', Claim(0), s3);
    NextIs(cfg, s3);
    labels' := Then(cfg, s3, labels', Execute(0, Answered), s4);
    NextIs(cfg, s4);
    labels' := Then(cfg, s4, labels', Commit(0), s5);
  }

  lemma NextIs(cfg: Config, s: State)
    ensures Next(cfg, s, Flip(0)) == DoFlip(cfg, s, 0) && Next(cfg, s, Revalidate(0, Free)) == DoRevalidate(s, 0, Free)
    ensures Next(cfg, s, Claim(0)) == DoClaim(s, 0) && Next(cfg, s, Execute(0, Answered)) == DoExecute(cfg, s, 0, Answered)
    ensures Next(cfg, s, Commit(0)) == DoCommit(s, 0)
  {
    hide DoFlip, DoRevalidate, DoClaim, DoExecute, DoCommit;
  }

  lemma ApproveSteps(cfg: Config, s: State, a: ActionId, args: CalendarArgs)
    requires a in s.rows && s.rows[a].status.Pending? && s.ops.Keys == {0}
    requires s.ops[0].Settling? && s.ops[0].id == a && s.ops[0].decision.Approve? && s.ops[0].pc.AtFlip? && s.ops[0].work.None?
    requires ParseCall(cfg, s.ops[0].snap.call) == Some(args)
    ensures ApprovedOver(cfg, s, a, args,
                         DoCommit(DoExecute(cfg, DoClaim(DoRevalidate(DoFlip(cfg, s, 0), 0, Free), 0), 0, Answered), 0))
  {
    var row := s.rows[a];
    var op1 := s.ops[0].(work := Some(row.(status := Approved)), pc := AtRevalidate(args));
    var s1 := DoFlip(cfg, s, 0);
    assert s1 == s.(ops := s.ops[0 := op1]);
    var s2 := DoRevalidate(s1, 0, Free);
    assert s2 == s.(ops := s1.ops[0 := op1.(pc := AtClaim(args))]);
    var s3 := DoClaim(s2, 0);
    var op3 := op1.(work := Some(row.(status := Executed)), pc := AtExecute(args));
    assert s3 == s.(ops := s2.ops[0 := op3]);
  }

  /** A parked action whose prompt is on the wire and not yet stamped. */
  ghost function PromptedState(a: ActionId, c: ConversationId, r: Row, m: MessageId): State {
    State(map[a := r], map[0 := Prompting(c, [(a, r)], Some(m))], [], map[m := Shown(a, r.call)], [], multiset{}, {})
  }

  lemma SendFirstPrompt(cfg: Config, a: ActionId, c: ConversationId, call: StoredCall, m: MessageId, x: int)
    returns (labels: seq<Label>)
    ensures Run(cfg, Initial, labels) == PromptedState(a, c, Row(c, call, Pending, None, x), m)
  {
    var r := Row(c, call, Pending, None, x);
    var s1 := Initial.(rows := map[a := r]);
    labels := Then(cfg, Initial, [], Park(a, c, call, x), s1);
    var s2 := s1.(ops := map[0 := Prompting(c, [(a, r)], None)]);
    assert Unstamped(s1, c, [a]);
    assert seq(1, i requires 0 <= i < 1 => ([a][i], s1.rows[[a][i]])) == [(a, r)];
    labels := Then(cfg, s1, labels, OpenPrompts(0, c, [a]), s2);
    labels := Then(cfg, s2, labels, SendPrompt(0, m), PromptedState(a, c, r, m));
  }

  /** Even with the lane, an expired row can still change: its prompt stamp may land after the sweep. */
  lemma ExpiredRowIsStamped(cfg: Config, a: ActionId, c: ConversationId, call: StoredCall, m: MessageId, x: int)
    returns (labels: seq<Label>)
    ensures var s := Run(cfg, Initial, labels);
      && a in s.rows && s.rows[a].status.Expired? && s.rows[a].prompt == None
      && a in Next(cfg, s, StampPrompt(0)).rows && Next(cfg, s, StampPrompt(0)).rows[a].prompt == Some(m)
  {
    labels := SendFirstPrompt(cfg, a, c, call, m, x);
    var s := PromptedState(a, c, Row(c, call, Pending, None, x), m);
    labels := Then(cfg, s, labels, Expire(a), s.(rows := map[a := Row(c, call, Expired, None, x)]));
  }

  lemma StampLands(s: State, a: ActionId, m: MessageId)
    requires 0 in s.ops && s.ops[0].Prompting? && s.ops[0].todo != [] && s.ops[0].todo[0].0 == a
    requires s.ops[0].inFlight == Some(m) && a in s.rows && forall o :: o in s.ops ==> !s.ops[o].Settling?
    ensures DoStampPrompt(s, 0).rows == s.rows[a := s.rows[a].(prompt := Some(m))]
    ensures DoStampPrompt(s, 0).shown == s.shown
  {
  }

  lemma RefineSteps(cfg: Config, a: ActionId, c: ConversationId, r: Row, patch: Json, m: MessageId)
    requires !cfg.serial && RefinedCall(cfg, r.call, patch).Some? && r.status.Pending? && r.conversation == c && r.prompt.None?
    ensures var s := PromptedState(a, c, r, m);
      DoRefine(cfg, DoOpenRefine(cfg, s, 1, c, a, patch), 1) ==
        s.(rows := map[a := r.(call := RefinedCall(cfg, r.call, patch).value)])
  {
    var s := PromptedState(a, c, r, m);
    var s1 := s.(ops := s.ops[1 := Refining(c, a, r, patch)]);
    assert DoOpenRefine(cfg, s, 1, c, a, patch) == s1;
    assert s1.ops - {1} == s.ops;
    assert !Locked(s1, a);
    assert s1.rows[a := r.(call := RefinedCall(cfg, r.call, patch).value)] == map[a := r.(call := RefinedCall(cfg, r.call, patch).value)];
  }

  lemma RefineUnderPrompt(cfg: Config, a: ActionId, c: ConversationId, r: Row, patch: Json, m: MessageId, labels: seq<Label>)
    returns (labels': seq<Label>)
    requires !cfg.serial && RefinedCall(cfg, r.call, patch).Some? && r.status.Pending? && r.conversation == c && r.prompt.None?
    requires Run(cfg, Initial, labels) == PromptedState(a, c, r, m)
    ensures Run(cfg, Initial, labels') ==
      PromptedState(a, c, r, m).(rows := map[a := r.(call := RefinedCall(cfg, r.call, patch).value)])
  {
    RefineSteps(cfg, a, c, r, patch, m);
    hide DoOpenRefine, DoRefine, Run;
    var s := PromptedState(a, c, r, m);
    var s1 := DoOpenRefine(cfg, s, 1, c, a, patch);
    labels' := Then(cfg, s, labels, OpenRefine(1, c, a, patch), s1);
    labels' := Then(cfg, s1, labels', Refine(1), DoRefine(cfg, s1, 1));
  }

  /** Without the lane a stamp can bind an action to a prompt that showed its earlier call. */
  lemma LaneKeepsStampsHonest(cfg: Config, a: ActionId, c: ConversationId, call: StoredCall, patch: Json, m: MessageId, x: int)
    returns (labels: seq<Label>)
    requires !cfg.serial && RefinedCall(cfg, call, patch).Some?
    ensures var s := Run(cfg, Initial, labels);
      && a in s.rows && s.rows[a].prompt == Some(m) && m in s.shown
      && s.rows[a].call == RefinedCall(cfg, call, patch).value && s.shown[m].call == call
  {
    labels := SendFirstPrompt(cfg, a, c, call, m, x);
    labels := RefineUnderPrompt(cfg, a, c, Row(c, call, Pending, None, x), patch, m, labels);
    var s := Run(cfg, Initial, labels);
    StampLands(s, a, m);
    labels := Then(cfg, s, labels, StampPrompt(0), DoStampPrompt(s, 0));
  }

  /** One approval whose create lands and whose answer is lost: the row is pending again, the event is an orphan. */
  lemma LostResponse(cfg: Config, a: ActionId, c: ConversationId, call: StoredCall, x: int) returns (labels: seq<Label>)
    requires ParseCall(cfg, call).Some?
    ensures var s := Run(cfg, Initial, labels);
      var args := ParseCall(cfg, call).value;
      && s.rows == map[a := Row(c, call, Pending, None, x)] && s.ops == map[] && s.shown == map[]
      && s.events == [Event(args.owner, cfg.hash(a), args, a)] && s.orphans == {a}
  {
    var args := ParseCall(cfg, call).value;
    var r := Row(c, call, Pending, None, x);
    var op := Settling(c, a, r, Approve, None, None, AtFlip);
    var s1 := Initial.(rows := map[a := r]);
    labels := Then(cfg, Initial, [], Park(a, c, call, x), s1);
    var s2 := s1.(ops := map[0 := op]);
    labels := Then(cfg, s1, labels, OpenClassified(0, c, a, Approve), s2);
    var op3 := op.(work := Some(r.(status := Approved)), pc := AtRevalidate(args));
    assert DoFlip(cfg, s2, 0) == s1.(ops := map[0 := op3]);
    labels := Then(cfg, s2, labels, Flip(0), s1.(ops := map[0 := op3]));
    var s4 := DoRevalidate(s1.(ops := map[0 := op3]), 0, Free);
    assert s4 == s1.(ops := map[0 := op3.(pc := AtClaim(args))]);
    labels := Then(cfg, s1.(ops := map[0 := op3]), labels, Revalidate(0, Free), s4);
    labels := LoseTheAnswer(cfg, s1, labels, op3.(pc := AtClaim(args)), r, args);
  }

  lemma LoseTheAnswer(cfg: Config, s: State, labels: seq<Label>, op: Op, r: Row, args: CalendarArgs) returns (labels': seq<Label>)
    requires op.Settling? && op.pc == AtClaim(args) && op.work == Some(r.(status := Approved)) && r.status.Pending?
    requires s.rows == map[op.id := r] && s.ops == map[] && s.shown == map[] && s.events == [] && s.orphans == {}
    requires Run(cfg, Initial, labels) == s.(ops := map[0 := op])
    ensures var t := Run(cfg, Initial, labels');
      && t.rows == s.rows && t.ops == map[] && t.shown == map[]
      && t.events == [Event(args.owner, cfg.hash(op.id), args, op.id)] && t.orphans == {op.id}
  {
    var s0 := s.(ops := map[0 := op]);
    var s1 := DoClaim(s0, 0);
    var op1 := op.(work := Some(r.(status := Executed)), pc := AtExecute(args));
    assert s1 == s.(ops := map[0 := op1]);
    labels' := Then(cfg, s0, labels, Claim(0), s1);
    var s2 := DoExecute(cfg, s1, 0, LandedThenThrew);
    assert s2.ops[0] == op1.(work := Some(r), pc := AtCommit(OutFailed));
    labels' := Then(cfg, s1, labels', Execute(0, LandedThenThrew), s2);
    labels' := Then(cfg, s2, labels', Commit(0), DoCommit(s2, 0));
    assert DoCommit(s2, 0).ops == map[];
  }

  /**
   A refinement after a lost response, with the lane in force.  The executed row
   holds the refined call; the calendar keeps the event of the first attempt, and
   gets a second one only when the refinement moved the action to another owner.
   */
  lemma RefineAfterLostResponse(cfg: Config, a: ActionId, c: ConversationId, call: StoredCall, patch: Json, x: int)
    returns (labels: seq<Label>)
    requires ParseCall(cfg, call).Some? && RefinedCall(cfg, call, patch).Some?
    requires ParseCall(cfg, RefinedCall(cfg, call, patch).value).Some?
    ensures var s := Run(cfg, Initial, labels);
      var first := ParseCall(cfg, call).value;
      var second := ParseCall(cfg, RefinedCall(cfg, call, patch).value).value;
      && a in s.rows && s.rows[a].status.Executed? && s.rows[a].call == RefinedCall(cfg, call, patch).value
      && s.events == [Event(first.owner, cfg.hash(a), first, a)]
                     + if first.owner == second.owner then [] else [Event(second.owner, cfg.hash(a), second, a)]
  {
    var first := ParseCall(cfg, call).value;
    var call' := RefinedCall(cfg, call, patch).value;
    var second := ParseCall(cfg, call').value;
    labels := LostResponse(cfg, a, c, call, x);
    var s := Run(cfg, Initial, labels);
    var r := Row(c, call, Pending, None, x);
    var s1 := s.(ops := map[0 := Refining(c, a, r, patch)]);
    labels := Then(cfg, s, labels, OpenRefine(0, c, a, patch), s1);
    var s2 := s.(rows := map[a := r.(call := call')]);
    assert s1.ops - {0} == map[];
    labels := Then(cfg, s1, labels, Refine(0), s2);
    var s3 := s2.(ops := map[0 := Settling(c, a, r.(call := call'), Approve, None, None, AtFlip)]);
    labels := Then(cfg, s2, labels, OpenClassified(0, c, a, Approve), s3);
    labels := ApproveFrom(cfg, s3, labels, a, second);
    var e := Event(second.owner, cfg.hash(a), second, a);
    assert s.events[0].owner == second.owner ==> OnCalendar(s.events, second.owner, e.eventId);
  }
}
