/** What every turn keeps, whatever its steps answer: the transcript grammar and the call budget. */
module TurnSafety {
  import opened Prelude
  import opened Transcript
  import opened Turn
  import D = Durable

  /** What a turn may persist: the loaded transcript, the batch, and more, closed; or that compacted. */
  ghost predicate Full(batch: seq<Item>, stored: seq<Message>, msgs: seq<Message>) {
    stored + ModelMessages(batch) <= msgs && Closed(msgs) && Ended(msgs)
  }

  ghost predicate CompactionOf(cfg: Config, full: seq<Message>, summary: string, msgs: seq<Message>) {
    && cfg.compaction.Some? && ShouldCompact(full, cfg.compaction.value)
    && CompactionCut(full, cfg.compaction.value).Some?
    && msgs == BuildCompacted(summary, full[CompactionCut(full, cfg.compaction.value).value..])
  }

  ghost predicate Persistable(cfg: Config, batch: seq<Item>, stored: seq<Message>, msgs: seq<Message>) {
    && Closed(msgs) && Ended(msgs)
    && (Full(batch, stored, msgs)
        || exists full, summary :: Full(batch, stored, full) && CompactionOf(cfg, full, summary, msgs))
  }

  ghost predicate GoodRequest(cfg: Config, batch: seq<Item>, stored: seq<Message>, r: Request) {
    && (r.Persist? ==> Persistable(cfg, batch, stored, r.transcript))
    && (r.CallModel? ==> Grammar(r.msgs) && stored + ModelMessages(batch) <= r.msgs)
  }

  /**
   What the steps promise: loading returns what is stored, and a tool answers its
   own call and names an action exactly when it parks.
   */
  predicate Fits(stored: seq<Message>, r: Option<Request>, a: Answer) {
    && (r == Some(LoadContext) && a.Loaded? ==> a.transcript == stored)
    && (r.Some? && r.value.RunTool? && a.Result? ==>
          a.toolUseId == r.value.call.id && (a.parked <==> a.actionId.Some?))
  }

  /** Every answer fits the step it answers. */
  predicate Fitting(cfg: Config, batch: seq<Item>, stored: seq<Message>, answers: seq<Answer>)
    decreases |answers|
  {
    answers == [] ||
    var n := |answers| - 1;
    && Fitting(cfg, batch, stored, answers[..n])
    && Fits(stored, Ask(cfg, batch, D.Fold(TheProgram(cfg, batch), answers[..n])), answers[n])
  }

  // ----- The invariant -----

  /** Every call so far is answered. */
  predicate Even(msgs: seq<Message>) {
    Scan([], msgs) == Some([])
  }

  ghost predicate Compacting(cfg: Config, msgs: seq<Message>, cut: int) {
    && Ended(msgs) && cfg.compaction.Some? && ShouldCompact(msgs, cfg.compaction.value)
    && CompactionCut(msgs, cfg.compaction.value) == Some(cut)
  }

  ghost predicate Shape(cfg: Config, pc: Pc, msgs: seq<Message>) {
    match pc
    case Tooling(calls, k, parked, prompts) => k < |calls| && Scan([], msgs) == Some(calls[k..]) && (parked <==> prompts != [])
    case Reprompting => Even(msgs) && Ended(msgs)
    case Persisting(_) => Even(msgs) && Ended(msgs)
    case Summarizing(_, cut) => Even(msgs) && Compacting(cfg, msgs, cut)
    case Embedding(_, cut, _) => Even(msgs) && Compacting(cfg, msgs, cut)
    case Remembering(_, cut, _, _) => Even(msgs) && Compacting(cfg, msgs, cut)
    case Logging(_, cut, _) => Even(msgs) && Compacting(cfg, msgs, cut)
    case PersistingCompacted(_, cut, _) => Even(msgs) && Compacting(cfg, msgs, cut)
    case Finished(_) => Even(msgs) && Ended(msgs)
    case Threw => true
    case _ => Even(msgs)
  }

  function Rounds(cfg: Config): nat {
    if cfg.maxRounds < 0 then 0 else cfg.maxRounds
  }

  ghost predicate Ok(cfg: Config, batch: seq<Item>, stored: seq<Message>, t: Turn) {
    && t.rounds <= Rounds(cfg) && (t.pc.Modeling? ==> t.rounds < cfg.maxRounds)
    && (if t.pc.Loading? then t == Start
        else t.pc.Threw? || (stored + ModelMessages(batch) <= t.msgs && Shape(cfg, t.pc, t.msgs)))
  }

  /** Ready to go on: grammatical, with the batch in. */
  ghost predicate Ready(cfg: Config, batch: seq<Item>, stored: seq<Message>, t: Turn) {
    && t.rounds <= Rounds(cfg) && stored + ModelMessages(batch) <= t.msgs && Even(t.msgs)
  }

  lemma SayKeepsPrefix(base: seq<Message>, msgs: seq<Message>, more: seq<Message>)
    requires base <= msgs
    ensures base <= msgs + more
  {
  }

  lemma SayReady(cfg: Config, batch: seq<Item>, stored: seq<Message>, t: Turn, more: seq<Message>)
    requires Ready(cfg, batch, stored, t)
    requires forall i :: 0 <= i < |more| ==> more[i].User? || (more[i].Assistant? && more[i].calls == [])
    ensures Ready(cfg, batch, stored, Say(t, more))
    ensures more != [] && more[|more| - 1].Assistant? ==> Ended(Say(t, more).msgs)
  {
    ScanPlain(more);
    ScanConcat([], t.msgs, more);
    SayKeepsPrefix(stored + ModelMessages(batch), t.msgs, more);
  }

  lemma ComposeOk(cfg: Config, batch: seq<Item>, stored: seq<Message>, t: Turn)
    requires Ready(cfg, batch, stored, t)
    ensures Ok(cfg, batch, stored, Compose(cfg, batch, t))
    ensures !Compose(cfg, batch, t).pc.Loading? && Compose(cfg, batch, t).rounds == t.rounds
  {
    if t.reprompt.Some? { SayReady(cfg, batch, stored, t, [Assistant(PromptText(t.reprompt.value), [])]); }
  }

  lemma {:induction false} RelateFromOk(cfg: Config, batch: seq<Item>, stored: seq<Message>, t: Turn, i: nat)
    requires Ready(cfg, batch, stored, t)
    ensures Ok(cfg, batch, stored, RelateFrom(cfg, batch, t, i))
    ensures !RelateFrom(cfg, batch, t, i).pc.Loading? && RelateFrom(cfg, batch, t, i).rounds == t.rounds
    decreases |batch| - i
  {
    if i >= |batch| {
      ComposeOk(cfg, batch, stored, t);
    } else if !(Target(t, i).Some? && MessageText(batch[i]).Some?) {
      RelateFromOk(cfg, batch, stored, t, i + 1);
    }
  }

  lemma {:induction false} ResolveFromOk(cfg: Config, batch: seq<Item>, stored: seq<Message>, t: Turn, i: nat)
    requires Ready(cfg, batch, stored, t)
    ensures Ok(cfg, batch, stored, ResolveFrom(cfg, batch, t, i)) && ResolveFrom(cfg, batch, t, i).rounds == t.rounds
    decreases |batch| - i
  {
    if !cfg.resolves || i >= |batch| {
      if !cfg.digests { ComposeOk(cfg, batch, stored, t.(entries := [])); }
    } else if QuotedReply(batch[i]).None? {
      ResolveFromOk(cfg, batch, stored, t, i + 1);
    }
  }

  lemma RelateAllOk(cfg: Config, batch: seq<Item>, stored: seq<Message>, t: Turn)
    requires Ready(cfg, batch, stored, t)
    ensures Ok(cfg, batch, stored, RelateAll(cfg, batch, t)) && RelateAll(cfg, batch, t).rounds == t.rounds
  {
    if cfg.relates && t.entries != [] { RelateFromOk(cfg, batch, stored, t, 0); } else { ComposeOk(cfg, batch, stored, t); }
  }

  lemma RereadOk(cfg: Config, batch: seq<Item>, stored: seq<Message>, t: Turn)
    requires Ready(cfg, batch, stored, t)
    ensures Ok(cfg, batch, stored, Reread(cfg, batch, t)) && Reread(cfg, batch, t).rounds == t.rounds
  {
    if !cfg.digests { ComposeOk(cfg, batch, stored, t); }
  }

  /** One more result answers the next call. */
  lemma ScanResult(msgs: seq<Message>, calls: seq<ToolCall>, k: nat, result: Message)
    requires k < |calls| && Scan([], msgs) == Some(calls[k..]) && result.Tool? && result.toolUseId == calls[k].id
    ensures Scan([], msgs + [result]) == Some(calls[k + 1..])
  {
    ScanConcat([], msgs, [result]);
    assert calls[k..][1..] == calls[k + 1..];
    assert [result][1..] == [];
  }

  lemma AfterToolsOk(cfg: Config, batch: seq<Item>, stored: seq<Message>, t: Turn, parked: bool, prompts: seq<ToolCall>)
    requires Ready(cfg, batch, stored, t) && (parked <==> prompts != [])
    ensures Ok(cfg, batch, stored, AfterTools(cfg, t, parked, prompts))
  {
    if parked { SayReady(cfg, batch, stored, t, Prompts(cfg, prompts)); }
  }

  lemma AfterResultOk(cfg: Config, batch: seq<Item>, stored: seq<Message>, t: Turn, calls: seq<ToolCall>, k: nat,
                      parked: bool, prompts: seq<ToolCall>, a: Answer)
    requires t.rounds <= Rounds(cfg) && stored + ModelMessages(batch) <= t.msgs
    requires k < |calls| && Scan([], t.msgs) == Some(calls[k..]) && (parked <==> prompts != [])
    requires a.Result? && a.toolUseId == calls[k].id && (a.parked <==> a.actionId.Some?)
    ensures Ok(cfg, batch, stored, AfterResult(cfg, t, calls, k, parked, prompts, a))
  {
    var result := Tool(a.toolUseId, a.content);
    ScanResult(t.msgs, calls, k, result);
    SayKeepsPrefix(stored + ModelMessages(batch), t.msgs, [result]);
    var prompts1 := if a.parked && a.actionId.Some? then prompts + [calls[k]] else prompts;
    if k + 1 == |calls| {
      assert calls[k + 1..] == [];
      AfterToolsOk(cfg, batch, stored, Say(t, [result]), parked || a.parked, prompts1);
    }
  }

  lemma LoadedOk(cfg: Config, batch: seq<Item>, stored: seq<Message>)
    requires Closed(stored)
    ensures Ok(cfg, batch, stored, Next(cfg, batch, Start, Loaded(stored)))
  {
    ScanIsGrammar(stored);
    ScanPlain(ModelMessages(batch));
    ScanConcat([], stored, ModelMessages(batch));
    ResolveFromOk(cfg, batch, stored, Start.(msgs := stored + ModelMessages(batch), priorCount := |stored|), 0);
  }

  lemma EarlyOk(cfg: Config, batch: seq<Item>, stored: seq<Message>, t: Turn, a: Answer)
    requires Ok(cfg, batch, stored, t)
    requires Early(t.pc)
    ensures Ok(cfg, batch, stored, Next(cfg, batch, t, a))
  {
    match t.pc
    case Resolving(i) =>
      if a.Resolved? && i < |batch| {
        var t1 := t.(quoted := t.quoted[i := a.outcome]);
        SayReady(cfg, batch, stored, t1, Updates(a.outcome, batch[i].senderId));
        ResolveFromOk(cfg, batch, stored, Say(t1, Updates(a.outcome, batch[i].senderId)), i + 1);
      }
    case Digesting => if a.Digest? { RelateAllOk(cfg, batch, stored, t.(entries := a.entries)); }
    case Classifying(i, target) => if a.Judged? && a.verdict.Unrelated? { RelateFromOk(cfg, batch, stored, t, i + 1); }
    case Deciding(i, _, _) =>
      if a.Resolved? && i < |batch| {
        SayReady(cfg, batch, stored, t, Updates(a.outcome, batch[i].senderId));
        RereadOk(cfg, batch, stored, Say(t, Updates(a.outcome, batch[i].senderId)));
      }
    case AtRefine(i, _, _) => if a.Refining? && i < |batch| { AfterRefinementOk(cfg, batch, stored, t, i, a.refinement); }
    case Redigesting => if a.Digest? { ComposeOk(cfg, batch, stored, t.(entries := a.entries)); }
    case _ =>
  }

  lemma AfterRefinementOk(cfg: Config, batch: seq<Item>, stored: seq<Message>, t: Turn, i: nat, r: Refinement)
    requires Ready(cfg, batch, stored, t) && i < |batch|
    ensures Ok(cfg, batch, stored, AfterRefinement(cfg, batch, t, i, r))
  {
    match r
    case Refined(summary) => RereadOk(cfg, batch, stored, t.(reprompt := Some(summary)));
    case RefineAlreadyResolved(id, status) =>
      var more := Updates(AlreadyResolved(id, status), batch[i].senderId);
      SayReady(cfg, batch, stored, t, more);
      RereadOk(cfg, batch, stored, Say(t, more));
    case _ => RelateFromOk(cfg, batch, stored, t, i + 1);
  }

  lemma ModelOk(cfg: Config, batch: seq<Item>, stored: seq<Message>, t: Turn, a: Answer)
    requires Ok(cfg, batch, stored, t) && (t.pc.Modeling? || t.pc.Forcing?)
    ensures Ok(cfg, batch, stored, Next(cfg, batch, t, a))
  {
    if a.Reply? {
      if a.calls == [] {
        SayReady(cfg, batch, stored, t, [Assistant(a.content, [])]);
      } else if t.pc.Modeling? {
        var after := t.msgs + [Assistant(a.content, a.calls)];
        SayKeepsPrefix(stored + ModelMessages(batch), t.msgs, [Assistant(a.content, a.calls)]);
        ScanConcat([], t.msgs, [Assistant(a.content, a.calls)]);
        assert [Assistant(a.content, a.calls)][1..] == [] && a.calls[0..] == a.calls;
      }
    }
  }

  lemma CompactOk(cfg: Config, batch: seq<Item>, stored: seq<Message>, t: Turn, status: TurnStatus)
    requires Ready(cfg, batch, stored, t) && Ended(t.msgs)
    ensures Ok(cfg, batch, stored, Compact(cfg, t, status))
  {
  }

  lemma LateOk(cfg: Config, batch: seq<Item>, stored: seq<Message>, t: Turn, a: Answer)
    requires Ok(cfg, batch, stored, t)
    requires PastModel(t.pc) || t.pc.Routing? || t.pc.LoggingRoute?
    ensures Ok(cfg, batch, stored, Next(cfg, batch, t, a))
  {
    hide ModelMessages, ResolveFrom, RelateFrom, AfterVerdict, AfterRefinement, AfterResult, Compact;
    if t.pc.Persisting? { CompactOk(cfg, batch, stored, t, t.pc.status); }
  }

  predicate Early(pc: Pc) {
    pc.Resolving? || pc.Digesting? || pc.Classifying? || pc.Deciding? || pc.AtRefine? || pc.Redigesting?
  }

  lemma StepOk(cfg: Config, batch: seq<Item>, stored: seq<Message>, t: Turn, a: Answer)
    requires Closed(stored) && Ok(cfg, batch, stored, t) && Fits(stored, Ask(cfg, batch, t), a)
    ensures Ok(cfg, batch, stored, Next(cfg, batch, t, a))
  {
    if t.pc.Loading? {
      if a.Loaded? { LoadedOk(cfg, batch, stored); }
    } else if t.pc.Tooling? {
      if a.Result? { AfterResultOk(cfg, batch, stored, t, t.pc.calls, t.pc.k, t.pc.parked, t.pc.prompts, a); }
    } else if t.pc.Modeling? || t.pc.Forcing? {
      ModelOk(cfg, batch, stored, t, a);
    } else if Early(t.pc) {
      EarlyOk(cfg, batch, stored, t, a);
    } else {
      LateOk(cfg, batch, stored, t, a);
    }
  }

  lemma {:induction false} RunOk(cfg: Config, batch: seq<Item>, stored: seq<Message>, answers: seq<Answer>)
    requires Closed(stored) && Fitting(cfg, batch, stored, answers)
    ensures Ok(cfg, batch, stored, D.Fold(TheProgram(cfg, batch), answers))
    decreases |answers|
  {
    if answers != [] {
      var n := |answers| - 1;
      RunOk(cfg, batch, stored, answers[..n]);
      StepOk(cfg, batch, stored, D.Fold(TheProgram(cfg, batch), answers[..n]), answers[n]);
    }
  }

  lemma AskIsGood(cfg: Config, batch: seq<Item>, stored: seq<Message>, t: Turn)
    requires Ok(cfg, batch, stored, t) && Ask(cfg, batch, t).Some?
    ensures GoodRequest(cfg, batch, stored, Ask(cfg, batch, t).value)
  {
    ScanIsGrammar(t.msgs);
    if t.pc.PersistingCompacted? {
      var cut, summary := t.pc.cut, t.pc.summary;
      CompactionKeepsClosed(t.msgs, cfg.compaction.value, summary);
      assert Full(batch, stored, t.msgs) && CompactionOf(cfg, t.msgs, summary, BuildCompacted(summary, Tail(t, cut)));
    }
  }

  // ----- Main theorems about the turn's steps -----

  ghost predicate AllGood(cfg: Config, batch: seq<Item>, stored: seq<Message>, requests: seq<Request>) {
    forall i :: 0 <= i < |requests| ==> GoodRequest(cfg, batch, stored, requests[i])
  }

  /**
   Every transcript a turn persists is closed: each tool call answered once, in
   order, right after it, no other result, and an assistant's plain message last.
   It is what was loaded, the batch and more, or that with its head summarised.
   And every model call sees a grammatical transcript with the batch in it.
   */
  lemma {:induction false} EveryRequestIsGood(cfg: Config, batch: seq<Item>, stored: seq<Message>, answers: seq<Answer>)
    requires Closed(stored) && Fitting(cfg, batch, stored, answers)
    ensures AllGood(cfg, batch, stored, D.Requests(TheProgram(cfg, batch), answers))
    decreases |answers|
  {
    if answers != [] {
      var n := |answers| - 1;
      EveryRequestIsGood(cfg, batch, stored, answers[..n]);
      RunOk(cfg, batch, stored, answers[..n]);
      LastRequestIsGood(cfg, batch, stored, D.Requests(TheProgram(cfg, batch), answers[..n]), D.Fold(TheProgram(cfg, batch), answers[..n]));
    }
  }

  lemma LastRequestIsGood(cfg: Config, batch: seq<Item>, stored: seq<Message>, before: seq<Request>, t: Turn)
    requires AllGood(cfg, batch, stored, before) && Ok(cfg, batch, stored, t)
    ensures AllGood(cfg, batch, stored, before + if Ask(cfg, batch, t).Some? then [Ask(cfg, batch, t).value] else [])
  {
    if Ask(cfg, batch, t).Some? { AskIsGood(cfg, batch, stored, t); }
  }

  /** So converting what the model is shown never meets a result without its call. */
  lemma ModelInputConverts(cfg: Config, batch: seq<Item>, stored: seq<Message>, answers: seq<Answer>, r: nat, i: nat)
    requires Closed(stored) && Fitting(cfg, batch, stored, answers)
    requires var requests := D.Requests(TheProgram(cfg, batch), answers);
      r < |requests| && requests[r].CallModel? && i < |requests[r].msgs| && requests[r].msgs[i].Tool?
    ensures var msgs := D.Requests(TheProgram(cfg, batch), answers)[r].msgs;
      Called(msgs, msgs[i].toolUseId)
  {
    EveryRequestIsGood(cfg, batch, stored, answers);
    var requests := D.Requests(TheProgram(cfg, batch), answers);
    assert GoodRequest(cfg, batch, stored, requests[r]);
    GrammarConverts(requests[r].msgs, i);
  }

  function ModelCalls(requests: seq<Request>): nat
    decreases |requests|
  {
    if requests == [] then 0
    else ModelCalls(requests[..|requests| - 1]) + if requests[|requests| - 1].CallModel? then 1 else 0
  }

  /** No further model call can follow. */
  predicate PastModel(pc: Pc) {
    || pc.Persisting? || pc.Summarizing? || pc.Embedding? || pc.Remembering? || pc.Logging?
    || pc.PersistingCompacted? || pc.Finished? || pc.Threw? || pc.Reprompting?
  }

  ghost predicate Spent(calls: nat, t: Turn) {
    if PastModel(t.pc) then calls <= t.rounds + 1 else calls == t.rounds
  }

  lemma PassingKeepsRounds(cfg: Config, batch: seq<Item>, t: Turn, i: nat)
    ensures RelateFrom(cfg, batch, t, i).rounds == t.rounds && ResolveFrom(cfg, batch, t, i).rounds == t.rounds
    decreases |batch| - i
  {
    if i < |batch| { PassingKeepsRounds(cfg, batch, t, i + 1); }
    if !cfg.resolves || i >= |batch| { RelateKeepsRounds(cfg, batch, t.(entries := []), 0); }
  }

  lemma {:induction false} RelateKeepsRounds(cfg: Config, batch: seq<Item>, t: Turn, i: nat)
    ensures RelateFrom(cfg, batch, t, i).rounds == t.rounds
    decreases |batch| - i
  {
    if i < |batch| { RelateKeepsRounds(cfg, batch, t, i + 1); }
  }

  lemma SpentLate(cfg: Config, batch: seq<Item>, t: Turn, a: Answer)
    requires PastModel(t.pc)
    ensures PastModel(Next(cfg, batch, t, a).pc) && Next(cfg, batch, t, a).rounds == t.rounds
    ensures Ask(cfg, batch, t).Some? ==> !Ask(cfg, batch, t).value.CallModel?
  {
  }

  lemma SpentEarly(cfg: Config, batch: seq<Item>, t: Turn, a: Answer)
    requires t.pc.Loading? || Early(t.pc)
    ensures Ask(cfg, batch, t).Some? ==> !Ask(cfg, batch, t).value.CallModel?
    ensures Next(cfg, batch, t, a).rounds == t.rounds
  {
    hide ResolveFrom, RelateFrom, ModelMessages, Updates, Compact, AfterResult;
    match t.pc
    case Loading =>
      if a.Loaded? {
        PassingKeepsRounds(cfg, batch, t.(msgs := a.transcript + ModelMessages(batch), priorCount := |a.transcript|), 0);
      }
    case Resolving(i) =>
      if a.Resolved? && i < |batch| {
        PassingKeepsRounds(cfg, batch, Say(t.(quoted := t.quoted[i := a.outcome]), Updates(a.outcome, batch[i].senderId)), i + 1);
      }
    case Digesting => if a.Digest? { RelateKeepsRounds(cfg, batch, t.(entries := a.entries), 0); }
    case Classifying(i, _) => RelateKeepsRounds(cfg, batch, t, i + 1);
    case AtRefine(i, _, _) => RelateKeepsRounds(cfg, batch, t, i + 1);
    case _ =>
  }

  lemma SpentStep(cfg: Config, batch: seq<Item>, t: Turn, a: Answer, calls: nat)
    requires Spent(calls, t)
    ensures Spent(calls + if Ask(cfg, batch, t).Some? && Ask(cfg, batch, t).value.CallModel? then 1 else 0, Next(cfg, batch, t, a))
  {
    if PastModel(t.pc) {
      SpentLate(cfg, batch, t, a);
      hide Next, Ask;
    } else if t.pc.Loading? || Early(t.pc) {
      SpentEarly(cfg, batch, t, a);
      hide Next, Ask;
    }
  }

  lemma {:induction false} SpentRun(cfg: Config, batch: seq<Item>, answers: seq<Answer>)
    ensures Spent(ModelCalls(D.Requests(TheProgram(cfg, batch), answers)), D.Fold(TheProgram(cfg, batch), answers))
    decreases |answers|
  {
    if answers != [] {
      var n := |answers| - 1;
      var before := D.Requests(TheProgram(cfg, batch), answers[..n]);
      var t := D.Fold(TheProgram(cfg, batch), answers[..n]);
      SpentRun(cfg, batch, answers[..n]);
      SpentStep(cfg, batch, t, answers[n], ModelCalls(before));
      if Ask(cfg, batch, t).Some? {
        var after := before + [Ask(cfg, batch, t).value];
        assert after[..|after| - 1] == before;
      } else {
        assert before + [] == before;
      }
    }
  }

  ghost predicate RoundsOk(cfg: Config, t: Turn) {
    t.rounds <= Rounds(cfg) && (t.pc.Modeling? ==> t.rounds < cfg.maxRounds)
  }

  lemma {:induction false} PassingKeepsRoundsOk(cfg: Config, batch: seq<Item>, t: Turn, i: nat)
    requires t.rounds <= Rounds(cfg)
    ensures RoundsOk(cfg, RelateFrom(cfg, batch, t, i))
    decreases |batch| - i
  {
    if i < |batch| { PassingKeepsRoundsOk(cfg, batch, t, i + 1); }
  }

  lemma {:induction false} ResolvingKeepsRoundsOk(cfg: Config, batch: seq<Item>, t: Turn, i: nat)
    requires t.rounds <= Rounds(cfg)
    ensures RoundsOk(cfg, ResolveFrom(cfg, batch, t, i))
    decreases |batch| - i
  {
    if i < |batch| { ResolvingKeepsRoundsOk(cfg, batch, t, i + 1); }
    PassingKeepsRoundsOk(cfg, batch, t.(entries := []), 0);
  }

  lemma RoundsStepEarly(cfg: Config, batch: seq<Item>, t: Turn, a: Answer)
    requires RoundsOk(cfg, t) && (t.pc.Loading? || Early(t.pc))
    ensures RoundsOk(cfg, Next(cfg, batch, t, a))
  {
    hide ResolveFrom, RelateFrom, ModelMessages, Updates, Compact, AfterResult;
    match t.pc
    case Loading =>
      if a.Loaded? {
        ResolvingKeepsRoundsOk(cfg, batch, t.(msgs := a.transcript + ModelMessages(batch), priorCount := |a.transcript|), 0);
      }
    case Resolving(i) =>
      if a.Resolved? && i < |batch| {
        ResolvingKeepsRoundsOk(cfg, batch, Say(t.(quoted := t.quoted[i := a.outcome]), Updates(a.outcome, batch[i].senderId)), i + 1);
      }
    case Digesting => if a.Digest? { PassingKeepsRoundsOk(cfg, batch, t.(entries := a.entries), 0); }
    case Classifying(i, _) => PassingKeepsRoundsOk(cfg, batch, t, i + 1);
    case AtRefine(i, _, _) => PassingKeepsRoundsOk(cfg, batch, t, i + 1);
    case _ =>
  }

  lemma RoundsStep(cfg: Config, batch: seq<Item>, t: Turn, a: Answer)
    requires RoundsOk(cfg, t)
    ensures RoundsOk(cfg, Next(cfg, batch, t, a))
  {
    if t.pc.Loading? || Early(t.pc) {
      RoundsStepEarly(cfg, batch, t, a);
      hide Next;
    }
  }

  lemma {:induction false} RoundsRun(cfg: Config, batch: seq<Item>, answers: seq<Answer>)
    ensures RoundsOk(cfg, D.Fold(TheProgram(cfg, batch), answers))
    decreases |answers|
  {
    if answers != [] {
      var n := |answers| - 1;
      RoundsRun(cfg, batch, answers[..n]);
      RoundsStep(cfg, batch, D.Fold(TheProgram(cfg, batch), answers[..n]), answers[n]);
    }
  }

  /** A turn calls the model at most maxRounds + 1 times, whatever is stored and whatever its steps answer. */
  lemma ModelCallsBounded(cfg: Config, batch: seq<Item>, answers: seq<Answer>)
    ensures ModelCalls(D.Requests(TheProgram(cfg, batch), answers)) <= Rounds(cfg) + 1
  {
    SpentRun(cfg, batch, answers);
    RoundsRun(cfg, batch, answers);
  }
}
