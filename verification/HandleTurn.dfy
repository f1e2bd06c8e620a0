/**
 The turn workflow as it is written: loops over mutable locals, each step awaited
 where it is needed.  Run over a journal it is the program of `Turn`, so what is
 proved about that program's requests holds of this code.
 */
module HandleTurn {
  import opened Prelude
  import opened Transcript
  import opened Turn
  import D = Durable
  import TurnDurable
  import TurnOutcome

  datatype Ending = Returned(status: TurnStatus, rounds: nat) | Raised | Suspended

  function EndingOf(t: Turn): Ending {
    match t.pc
    case Finished(status) => Returned(status, t.rounds)
    case Threw => Raised
    case _ => Suspended
  }

  /** The answers the steps of one workflow get; the code stops where they end. */
  class Journal {
    const cfg: Config
    const batch: seq<Item>
    const script: seq<Answer>
    var taken: nat
    var requests: seq<Request>
    ghost var mem: Turn

    constructor (cfg: Config, batch: seq<Item>, script: seq<Answer>)
      ensures this.cfg == cfg && this.batch == batch && this.script == script && taken == 0 && mem == Start && Valid()
    {
      this.cfg, this.batch, this.script := cfg, batch, script;
      taken, requests, mem := 0, [], Start;
    }

    /** `mem` is the program's state after the answers taken so far. */
    ghost predicate Valid()
      reads this
    {
      && taken <= |script| && requests == D.Requests(TheProgram(cfg, batch), script[..taken])
      && mem == D.Fold(TheProgram(cfg, batch), script[..taken])
    }

    /** One journaled step: its answer, or None where the journal ends. */
    method Step(r: Request) returns (a: Option<Answer>)
      requires Valid() && Ask(cfg, batch, mem) == Some(r)
      modifies this
      ensures Valid()
      ensures a.None? ==> taken == old(taken) == |script| && mem == old(mem)
      ensures a.Some? ==> taken == old(taken) + 1 && mem == Next(cfg, batch, old(mem), a.value)
    {
      if taken == |script| { return None; }
      assert script[..taken + 1][..taken] == script[..taken];
      a := Some(script[taken]);
      requests := requests + [r];
      mem := Next(cfg, batch, mem, a.value);
      taken := taken + 1;
    }
  }

  /** The code stopped, as the program is. */
  ghost predicate Stops(j: Journal, e: Ending)
    reads j
  {
    j.Valid() && e == EndingOf(j.mem) && (e.Suspended? ==> j.taken == |j.script|)
  }

  /** Quoted replies first: each settled outcome enters as a new message. */
  method ResolveQuotes(j: Journal, start: seq<Message>, ghost t: Turn)
    returns (e: Option<Ending>, msgs: seq<Message>, quoted: map<nat, Approval>, ghost u: Turn)
    requires j.Valid() && j.cfg.resolves
    requires j.mem == ResolveFrom(j.cfg, j.batch, t, 0) && t.msgs == start && t.quoted == map[]
    modifies j
    ensures j.Valid()
    ensures e.Some? ==> Stops(j, e.value)
    ensures e.None? ==>
      && j.mem == ResolveFrom(j.cfg, j.batch, u, |j.batch|) && u == t.(pc := u.pc, msgs := msgs, quoted := quoted)
      && start <= msgs
  {
    hide Journal.Valid;
    e, msgs, quoted, u := None, start, map[], t;
    for i := 0 to |j.batch|
      invariant j.Valid() && start <= msgs
      invariant j.mem == ResolveFrom(j.cfg, j.batch, u, i) && u == t.(pc := u.pc, msgs := msgs, quoted := quoted)
    {
      var item := j.batch[i];
      if QuotedReply(item).Some? {
        ghost var before := j.mem;
        var a := j.Step(ResolveApproval(QuotedReply(item).value));
        if a.None? { e := Some(Suspended); return; }
        if !a.value.Resolved? { e := Some(Raised); return; }
        quoted := quoted[i := a.value.outcome];
        msgs := msgs + Updates(a.value.outcome, item.senderId);
        u := Say(before.(quoted := quoted), Updates(a.value.outcome, item.senderId));
      }
    }
  }

  /**
   Asks the classifier whether item i speaks about the target, and does what it
   says.  `changed` when the action settled or was refined; an unrelated message or
   a refinement that did not apply leaves everything as it was.
   */
  method Consult(j: Journal, i: nat, target: Entry, start: seq<Message>, recent: seq<Message>, ghost t: Turn)
    returns (e: Option<Ending>, changed: bool, msgs: seq<Message>, reprompt: Option<string>, ghost u: Turn)
    requires j.Valid() && i < |j.batch| && MessageText(j.batch[i]).Some?
    requires j.mem == t.(pc := Classifying(i, target)) && t.msgs == start && t.reprompt.None? && recent == Recent(t)
    modifies j
    ensures j.Valid()
    ensures e.Some? ==> Stops(j, e.value)
    ensures e.None? ==> u == t.(pc := u.pc, msgs := msgs, reprompt := reprompt) && start <= msgs
    ensures e.None? && changed ==> j.mem == Reread(j.cfg, j.batch, u)
    ensures e.None? && !changed ==> j.mem == RelateFrom(j.cfg, j.batch, u, i + 1) && msgs == start && reprompt.None?
  {
    hide Journal.Valid;
    e, changed, msgs, reprompt, u := None, false, start, None, j.mem;
    var item := j.batch[i];
    var action := if target.argsJson.Some? then target.argsJson.value else target.summary;
    var a := j.Step(Classify(item.senderId, MessageText(item).value, target.toolName, action, recent));
    if a.None? { e := Some(Suspended); return; }
    if !a.value.Judged? { e := Some(Raised); return; }
    var verdict := a.value.verdict;
    if verdict.Approve? || verdict.Deny? {
      u := j.mem;
      a := j.Step(ResolveDecision(target.actionId, verdict.Approve?));
      if a.None? { e := Some(Suspended); return; }
      if !a.value.Resolved? { e := Some(Raised); return; }
      msgs := msgs + Updates(a.value.outcome, item.senderId);
      u := Say(u, Updates(a.value.outcome, item.senderId));
      changed := true;
    } else if verdict.Refine? {
      u := j.mem;
      a := j.Step(RefineAction(target.actionId, verdict.updatedArgs));
      if a.None? { e := Some(Suspended); return; }
      if !a.value.Refining? { e := Some(Raised); return; }
      var outcome := a.value.refinement;
      if outcome.Refined? {
        reprompt := Some(outcome.summary);
        u := u.(reprompt := reprompt);
        changed := true;
      } else if outcome.RefineAlreadyResolved? {
        var update := Updates(AlreadyResolved(outcome.actionId, outcome.status), item.senderId);
        msgs := msgs + update;
        u := Say(u, update);
        changed := true;
      }
    }
  }

  /** Goes through the batch until some message changes its target, then reads the digest again. */
  method Relate(j: Journal, start: seq<Message>, recent: seq<Message>, quoted: map<nat, Approval>, pending: seq<Entry>, ghost t: Turn)
    returns (e: Option<Ending>, msgs: seq<Message>, entries: seq<Entry>, reprompt: Option<string>, ghost u: Turn)
    requires j.Valid() && j.cfg.relates && pending != []
    requires j.mem == RelateFrom(j.cfg, j.batch, t, 0)
    requires t.msgs == start && t.quoted == quoted && t.entries == pending && t.reprompt.None?
    requires t.priorCount <= |start| && recent == Recent(t)
    modifies j
    ensures j.Valid()
    ensures e.Some? ==> Stops(j, e.value)
    ensures e.None? ==> j.mem == Compose(j.cfg, j.batch, u) && start <= msgs
    ensures e.None? ==> u == t.(pc := u.pc, msgs := msgs, entries := entries, reprompt := reprompt)
  {
    hide Journal.Valid;
    e, msgs, entries, reprompt, u := None, start, pending, None, t;
    var changed := false;
    for i := 0 to |j.batch|
      invariant j.Valid() && u == t.(pc := u.pc) && e.None? && msgs == start && reprompt.None? && !changed
      invariant j.mem == RelateFrom(j.cfg, j.batch, u, i)
    {
      var target := None;
      if i in quoted && quoted[i].Unclear? {
        target := Find(entries, quoted[i].actionId);
      } else if i !in quoted || quoted[i].Unbound? {
        target := if |entries| == 1 then Some(entries[0]) else None;
      }
      if target.Some? && MessageText(j.batch[i]).Some? {
        e, changed, msgs, reprompt, u := Consult(j, i, target.value, msgs, recent, u);
        if e.Some? { return; }
        if changed { break; }
      }
    }
    if changed && j.cfg.digests {
      u := j.mem;
      var a := j.Step(LoadDigest);
      if a.None? { e := Some(Suspended); return; }
      if !a.value.Digest? { e := Some(Raised); return; }
      entries := a.value.entries;
      u := u.(entries := entries);
    }
  }

  /** Answers every call of one assistant message, in order. */
  method RunTools(j: Journal, start: seq<Message>, calls: seq<ToolCall>, ghost t: Turn)
    returns (e: Option<Ending>, msgs: seq<Message>, parked: bool, prompts: seq<ToolCall>, ghost u: Turn)
    requires j.Valid() && calls != []
    requires j.mem == t.(pc := Tooling(calls, 0, false, [])) && t.msgs == start
    modifies j
    ensures j.Valid()
    ensures e.Some? ==> Stops(j, e.value)
    ensures e.None? ==> j.mem == AfterTools(j.cfg, u, parked, prompts) && u == t.(pc := u.pc, msgs := msgs)
  {
    hide Journal.Valid;
    e, msgs, parked, prompts, u := None, start, false, [], t;
    for k := 0 to |calls|
      invariant j.Valid() && u == t.(pc := u.pc, msgs := msgs)
      invariant k < |calls| ==> j.mem == u.(pc := Tooling(calls, k, parked, prompts))
      invariant k == |calls| ==> j.mem == AfterTools(j.cfg, u, parked, prompts)
    {
      ghost var before := j.mem;
      var a := j.Step(RunTool(calls[k]));
      if a.None? { e := Some(Suspended); return; }
      if !a.value.Result? { e := Some(Raised); return; }
      msgs := msgs + [Tool(a.value.toolUseId, a.value.content)];
      u := Say(before, [Tool(a.value.toolUseId, a.value.content)]);
      if a.value.parked {
        parked := true;
        if a.value.actionId.Some? { prompts := prompts + [calls[k]]; }
      }
    }
  }

  /** One tier for the whole turn, decided once and logged. */
  method Route(j: Journal, prior: seq<Message>, hasPending: bool, ghost t: Turn)
    returns (e: Option<Ending>, tier: Option<string>, ghost u: Turn)
    requires j.Valid() && j.cfg.routes
    requires j.mem == t.(pc := Routing) && prior == Prior(t) && hasPending == (t.entries != [])
    modifies j
    ensures j.Valid()
    ensures e.Some? ==> Stops(j, e.value)
    ensures e.None? ==> j.mem == Round(j.cfg, u) && u == t.(pc := u.pc, tier := tier)
  {
    hide Journal.Valid;
    e, tier, u := None, None, t;
    var hasQuote := exists i :: 0 <= i < |j.batch| && QuotedReply(j.batch[i]).Some?;
    var a := j.Step(RouteTurn(prior, Utterances(j.batch), hasPending, hasQuote));
    if a.None? { e := Some(Suspended); return; }
    if !a.value.Routed? { e := Some(Raised); return; }
    tier := Some(a.value.tier);
    u := t.(pc := Routing, tier := tier);
    if j.cfg.logsRoute {
      if j.cfg.workflowId.None? { e := Some(Raised); return; }
      u := j.mem;
      a := j.Step(LogRoute(tier.value));
      if a.None? { e := Some(Suspended); return; }
      if !a.value.Done? { e := Some(Raised); return; }
    }
  }

  /** At the cap: one last call that must answer without tools. */
  method ForceFinal(j: Journal, start: seq<Message>, digest: Option<string>, tier: Option<string>, ghost t: Turn)
    returns (e: Option<Ending>, msgs: seq<Message>, ghost u: Turn)
    requires j.Valid() && j.mem == t.(pc := Forcing)
    requires t.msgs == start && t.tier == tier && digest == DigestText(j.cfg, t.entries)
    modifies j
    ensures j.Valid()
    ensures e.Some? ==> Stops(j, e.value)
    ensures e.None? ==> j.mem == u.(pc := Persisting(CapHit)) && u == t.(pc := u.pc, msgs := msgs)
  {
    hide Journal.Valid;
    e, msgs, u := None, start, t;
    var a := j.Step(CallModel(msgs, true, digest, tier));
    if a.None? { e := Some(Suspended); return; }
    if !a.value.Reply? || a.value.calls != [] { e := Some(Raised); return; }
    msgs := msgs + [Assistant(a.value.content, [])];
    u := Say(t, [Assistant(a.value.content, [])]);
  }

  /** One approval prompt per parked call. */
  method AddPrompts(cfg: Config, start: seq<Message>, calls: seq<ToolCall>) returns (msgs: seq<Message>)
    ensures msgs == start + Prompts(cfg, calls)
  {
    msgs := start;
    for k := 0 to |calls|
      invariant msgs == start + Prompts(cfg, calls)[..k]
    {
      msgs := msgs + [Assistant(PromptText(cfg.proposal(calls[k])), [])];
    }
    assert Prompts(cfg, calls)[..|calls|] == Prompts(cfg, calls);
  }

  /** What the steps asked for so far and their answers say about how the turn ends, or that it goes on. */
  ghost predicate EndsAs(j: Journal, ended: Option<TurnStatus>)
    requires j.taken <= |j.script|
    reads j
  {
    var h := TurnOutcome.Record(j.cfg, j.batch, j.script[..j.taken]);
    if ended.Some? then TurnOutcome.Told(j.cfg, h, ended.value) else TurnOutcome.Unanswered(h) && !TurnOutcome.Parks(h)
  }

  lemma RoundEnds(j: Journal, ended: Option<TurnStatus>)
    requires j.Valid() && j.mem.reprompt.None?
    requires if ended.Some? then j.mem.pc == Persisting(ended.value) else j.mem.pc.Modeling? || j.mem.pc.Forcing?
    ensures j.taken <= |j.script| && EndsAs(j, ended)
  {
    TurnOutcome.TellingRun(j.cfg, j.batch, j.script[..j.taken]);
  }

  /** On the way to a model call nothing was refined. */
  lemma NothingRefined(j: Journal)
    requires j.Valid() && j.mem.pc.Modeling?
    ensures j.mem.reprompt.None?
  {
    TurnOutcome.TellingRun(j.cfg, j.batch, j.script[..j.taken]);
  }

  /** One model round; `ended` is how it ends the rounds, None when the next one follows. */
  method RunRound(j: Journal, start: seq<Message>, digest: Option<string>, tier: Option<string>, ghost t: Turn)
    returns (e: Option<Ending>, msgs: seq<Message>, ended: Option<TurnStatus>, ghost u: Turn)
    requires j.Valid() && j.mem == t.(pc := Modeling)
    requires t.msgs == start && t.tier == tier && digest == DigestText(j.cfg, t.entries)
    modifies j
    ensures j.Valid()
    ensures e.Some? ==> Stops(j, e.value)
    ensures e.None? ==> u == t.(pc := u.pc, msgs := msgs, rounds := t.rounds + 1)
    ensures e.None? ==> ended != Some(CapHit) && j.taken <= |j.script| && EndsAs(j, ended)
    ensures e.None? ==> j.mem == if ended.Some? then u.(pc := Persisting(ended.value)) else Round(j.cfg, u)
  {
    NothingRefined(j);
    hide Journal.Valid, EndsAs;
    e, msgs, ended, u := None, start, None, t;
    var a := j.Step(CallModel(msgs, false, digest, tier));
    if a.None? { e := Some(Suspended); return; }
    if !a.value.Reply? { e := Some(Raised); return; }
    var assistant := Assistant(a.value.content, a.value.calls);
    msgs := msgs + [assistant];
    u := Say(t, [assistant]).(rounds := t.rounds + 1);
    if a.value.calls == [] {
      ended := Some(Completed);
      RoundEnds(j, ended);
      return;
    }
    e, msgs, ended, u := RunCalls(j, msgs, a.value.calls, u);
  }

  /** The calls of a round: a park ends the rounds with one prompt for each parked call. */
  method RunCalls(j: Journal, start: seq<Message>, calls: seq<ToolCall>, ghost t: Turn)
    returns (e: Option<Ending>, msgs: seq<Message>, ended: Option<TurnStatus>, ghost u: Turn)
    requires j.Valid() && calls != [] && t.reprompt.None?
    requires j.mem == t.(pc := Tooling(calls, 0, false, [])) && t.msgs == start
    modifies j
    ensures j.Valid()
    ensures e.Some? ==> Stops(j, e.value)
    ensures e.None? ==> u == t.(pc := u.pc, msgs := msgs)
    ensures e.None? ==> ended != Some(CapHit) && j.taken <= |j.script| && EndsAs(j, ended)
    ensures e.None? ==> j.mem == if ended.Some? then u.(pc := Persisting(ended.value)) else Round(j.cfg, u)
  {
    hide Journal.Valid, EndsAs, Stops;
    ended := None;
    var parked, prompts;
    e, msgs, parked, prompts, u := RunTools(j, start, calls, t);
    if e.Some? { return; }
    if parked {
      msgs := AddPrompts(j.cfg, msgs, prompts);
      u := Say(u, Prompts(j.cfg, prompts));
      ended := Some(Parked);
    }
    RoundEnds(j, ended);
  }

  /** Model rounds until an answer without calls, a park, or the cap, which forces a final answer. */
  method RunRounds(j: Journal, start: seq<Message>, digest: Option<string>, tier: Option<string>, ghost t: Turn)
    returns (e: Option<Ending>, msgs: seq<Message>, status: TurnStatus, rounds: nat, ghost u: Turn)
    requires j.Valid() && j.mem == Round(j.cfg, t)
    requires t.msgs == start && t.tier == tier && t.rounds == 0 && digest == DigestText(j.cfg, t.entries)
    modifies j
    ensures j.Valid()
    ensures e.Some? ==> Stops(j, e.value)
    ensures e.None? ==> j.mem == u.(pc := Persisting(status)) && u == t.(pc := u.pc, msgs := msgs, rounds := rounds)
  {
    hide Journal.Valid, Stops;
    e, msgs, status, rounds, u := None, start, CapHit, 0, t;
    while rounds < j.cfg.maxRounds
      invariant j.Valid() && e.None? && u == t.(pc := u.pc, msgs := msgs, rounds := rounds)
      invariant status == CapHit && j.mem == Round(j.cfg, u)
      decreases j.cfg.maxRounds - rounds
    {
      var ended;
      e, msgs, ended, u := RunRound(j, msgs, digest, tier, u);
      if e.Some? { return; }
      rounds := rounds + 1;
      if ended.Some? {
        status := ended.value;
        return;
      }
    }
    e, msgs, u := ForceFinal(j, msgs, digest, tier, u);
  }

  /** Stores the summary and its log row, then the transcript behind the summary. */
  method StoreCompacted(j: Journal, msgs: seq<Message>, status: TurnStatus, cut: int, summary: string, embedding: string, ghost t: Turn)
    returns (e: Option<Ending>)
    requires j.Valid() && j.mem == t.(pc := Remembering(status, cut, summary, embedding)) && t.msgs == msgs && 0 <= cut <= |msgs|
    modifies j
    ensures j.Valid()
    ensures e.Some? ==> Stops(j, e.value)
    ensures e.None? ==> j.mem == t.(pc := Finished(status))
  {
    hide Journal.Valid;
    var a := j.Step(WriteMemory(summary, embedding));
    if a.None? { return Some(Suspended); }
    if !a.value.Done? { return Some(Raised); }
    a := j.Step(WriteCompactionLog(msgs[..cut], summary, cut, |msgs| - cut));
    if a.None? { return Some(Suspended); }
    if !a.value.Done? { return Some(Raised); }
    a := j.Step(Persist(BuildCompacted(summary, msgs[cut..])));
    if a.None? { return Some(Suspended); }
    if !a.value.Done? { return Some(Raised); }
    e := None;
  }

  /** Summarises the head of a long transcript and persists the rest behind the summary. */
  method CompactContext(j: Journal, msgs: seq<Message>, status: TurnStatus, ghost t: Turn) returns (e: Option<Ending>)
    requires j.Valid() && j.mem == Compact(j.cfg, t, status) && t.msgs == msgs
    modifies j
    ensures j.Valid()
    ensures e.Some? ==> Stops(j, e.value)
    ensures e.None? ==> j.mem == t.(pc := Finished(status))
  {
    hide Journal.Valid;
    e := None;
    if j.cfg.compaction.Some? && ShouldCompact(msgs, j.cfg.compaction.value) {
      var cut := FindCompactionCut(msgs, j.cfg.compaction.value);
      if cut.Some? {
        if j.cfg.workflowId.None? { return Some(Raised); }
        var a := j.Step(Summarize(msgs[..cut.value]));
        if a.None? { return Some(Suspended); }
        if !a.value.Text? { return Some(Raised); }
        var summary := a.value.text;
        a := j.Step(EmbedSummary(summary));
        if a.None? { return Some(Suspended); }
        if !a.value.Text? { return Some(Raised); }
        e := StoreCompacted(j, msgs, status, cut.value, summary, a.value.text, t);
      }
    }
  }

  /** Loads the transcript, adds the batch and resolves its quoted replies. */
  method LoadAndResolve(j: Journal)
    returns (e: Option<Ending>, msgs: seq<Message>, prior: seq<Message>, quoted: map<nat, Approval>, ghost t: Turn)
    requires j.Valid() && j.mem == Start
    modifies j
    ensures j.Valid()
    ensures e.Some? ==> Stops(j, e.value)
    ensures e.None? ==>
      && j.mem == ResolveFrom(j.cfg, j.batch, t, |j.batch|) && (!j.cfg.resolves ==> j.mem == ResolveFrom(j.cfg, j.batch, t, 0))
      && t == Start.(pc := t.pc, msgs := msgs, priorCount := |prior|, quoted := quoted) && prior <= msgs
  {
    hide Journal.Valid;
    hide RelateAll;
    e, msgs, prior, quoted, t := None, [], [], map[], Start;
    var a := j.Step(LoadContext);
    if a.None? { e := Some(Suspended); return; }
    if !a.value.Loaded? { e := Some(Raised); return; }
    prior := a.value.transcript;
    msgs := prior + ModelMessages(j.batch);
    t := Start.(msgs := msgs, priorCount := |prior|);
    if j.cfg.resolves {
      e, msgs, quoted, t := ResolveQuotes(j, msgs, t);
    }
  }

  /** What has to be settled before the model: the quotes, the digest, the classifier. */
  method Prepare(j: Journal)
    returns (e: Option<Ending>, msgs: seq<Message>, prior: seq<Message>, entries: seq<Entry>, reprompt: Option<string>, ghost t: Turn)
    requires j.Valid() && j.mem == Start
    modifies j
    ensures j.Valid()
    ensures e.Some? ==> Stops(j, e.value)
    ensures e.None? ==>
      && j.mem == Compose(j.cfg, j.batch, t) && t.msgs == msgs && Prior(t) == prior && t.entries == entries
      && t.reprompt == reprompt && t.tier.None? && t.rounds == 0
  {
    hide Journal.Valid;
    hide Compose, Reread, AfterVerdict, AfterRefinement, Compact, AfterResult, AfterTools, Round;
    entries, reprompt := [], None;
    var quoted;
    e, msgs, prior, quoted, t := LoadAndResolve(j);
    if e.Some? { return; }
    var recent := if |prior| <= 6 then prior else prior[|prior| - 6..];

    if j.cfg.digests {
      t := j.mem;
      var a := j.Step(LoadDigest);
      if a.None? { e := Some(Suspended); return; }
      if !a.value.Digest? { e := Some(Raised); return; }
      entries := a.value.entries;
    }
    t := t.(entries := entries);

    if j.cfg.relates && entries != [] {
      e, msgs, entries, reprompt, t := Relate(j, msgs, recent, quoted, entries, t);
    }
  }

  /** The whole turn, step by step where the program is. */
  method RunTurn(j: Journal) returns (e: Ending)
    requires j.Valid() && j.mem == Start
    modifies j
    ensures Stops(j, e)
  {
    hide Journal.Valid;
    ghost var t;
    var ending, msgs, prior, entries, reprompt;
    ending, msgs, prior, entries, reprompt, t := Prepare(j);
    if ending.Some? { return ending.value; }

    if reprompt.Some? {
      msgs := msgs + [Assistant(PromptText(reprompt.value), [])];
      var a := j.Step(Persist(msgs));
      if a.None? { return Suspended; }
      if !a.value.Done? { return Raised; }
      return Returned(Parked, 0);
    }
    e := AnswerBatch(j, msgs, prior, entries, t);
  }

  /** The model's part of the turn: route, rounds, persist, compact. */
  method AnswerBatch(j: Journal, start: seq<Message>, prior: seq<Message>, entries: seq<Entry>, ghost t: Turn) returns (e: Ending)
    requires j.Valid() && j.mem == Compose(j.cfg, j.batch, t) && t.reprompt.None? && t.msgs == start && Prior(t) == prior
    requires t.entries == entries && t.tier.None? && t.rounds == 0
    modifies j
    ensures Stops(j, e)
  {
    hide Journal.Valid;
    var ending: Option<Ending> := None;
    var tier: Option<string> := None;
    ghost var u := t;
    if j.cfg.routes {
      ending, tier, u := Route(j, prior, entries != [], t);
      if ending.Some? { return ending.value; }
    }

    var msgs, status, rounds;
    ending, msgs, status, rounds, u := RunRounds(j, start, DigestText(j.cfg, entries), tier, u);
    if ending.Some? { return ending.value; }

    u := j.mem;
    var a := j.Step(Persist(msgs));
    if a.None? { return Suspended; }
    if !a.value.Done? { return Raised; }
    ending := CompactContext(j, msgs, status, u);
    if ending.Some? { return ending.value; }
    return Returned(status, rounds);
  }

  /**
   The turn workflow over the answers its steps get.  It stops exactly where the
   program stops, with the program's result, after asking for exactly the
   program's steps in their order.
   */
  method HandleTurn(cfg: Config, batch: seq<Item>, script: seq<Answer>) returns (e: Ending, taken: nat, requests: seq<Request>)
    ensures taken <= |script| && (e.Suspended? ==> taken == |script|)
    ensures requests == D.Requests(TheProgram(cfg, batch), script[..taken])
    ensures e == EndingOf(D.Fold(TheProgram(cfg, batch), script[..taken]))
    ensures e.Returned? ==>
      var h := TurnOutcome.Record(cfg, batch, script[..taken]);
      TurnOutcome.Told(cfg, h, e.status) && e.rounds == TurnOutcome.ModelRounds(h)
  {
    var j := new Journal(cfg, batch, script);
    e := RunTurn(j);
    taken, requests := j.taken, j.requests;
    TurnOutcome.TellingRun(cfg, batch, script[..taken]);
  }
}
