/** Turns under crashes and replays, and the transcript they leave behind. */
module TurnDurable {
  import opened Prelude
  import opened Transcript
  import opened Turn
  import opened TurnSafety
  import D = Durable

  /** The transcript in the store after the writes. */
  function StoredAfter(before: seq<Message>, writes: seq<Request>): seq<Message>
    decreases |writes|
  {
    if writes == [] then before
    else
      var last := writes[|writes| - 1];
      if last.Persist? then last.transcript else StoredAfter(before, writes[..|writes| - 1])
  }

  /** One turn with its schedule of attempts, crashes and replays. */
  datatype TurnRun = TurnRun(cfg: Config, batch: seq<Item>, labels: seq<D.Label<Answer>>)

  function Outcome(run: TurnRun): D.System<Turn, Request, Answer> {
    D.Run(TheProgram(run.cfg, run.batch), D.Begin(TheProgram(run.cfg, run.batch)), run.labels)
  }

  /**
   Crash refinement of the turn: under every schedule the store sees exactly the
   committed writes of the uninterrupted turn over the same answers, each once and
   in its order; the plain steps it issues are that turn's, repeated in place, and
   perhaps the pending one; and a turn that is up to date is in that turn's state.
   */
  lemma TurnSurvivesCrashes(run: TurnRun)
    ensures var g := TheProgram(run.cfg, run.batch);
      var s := Outcome(run);
      && s.writes == D.Committed(g, s.journal)
      && D.Stutters(D.Straight(g, s.journal).effects, s.effects, D.PendingEffect(g, s.journal))
      && (s.memory.Some? && s.memory.value.1 == |s.journal| ==> s.memory.value.0 == D.Fold(g, s.journal))
  {
    var g := TheProgram(run.cfg, run.batch);
    D.CrashRefinement(g, run.labels);
    D.StraightWrites(g, Outcome(run).journal);
  }

  /**
   Which steps a crash can repeat: the model's, the classifier's, the router's, the
   summary and its embedding.  Everything else a turn does is written with its
   checkpoint, tool calls and settlements included.
   */
  lemma OnlyThinkingRepeats(run: TurnRun)
    ensures var s := Outcome(run);
      && (forall r :: r in s.effects ==> r.CallModel? || r.Classify? || r.RouteTurn? || r.Summarize? || r.EmbedSummary?)
      && (forall r :: r in s.writes ==> !r.CallModel? && !r.Classify? && !r.RouteTurn? && !r.Summarize? && !r.EmbedSummary?)
  {
    var g, s := TheProgram(run.cfg, run.batch), Outcome(run);
    D.OnlyPlainStepsRepeat(g, run.labels);
    assert forall r :: g.transactional(r) <==> Transactional(r);
    forall r | r in s.effects ensures r.CallModel? || r.Classify? || r.RouteTurn? || r.Summarize? || r.EmbedSummary? {
      assert !g.transactional(r);
    }
    forall r | r in s.writes ensures !r.CallModel? && !r.Classify? && !r.RouteTurn? && !r.Summarize? && !r.EmbedSummary? {
      assert g.transactional(r);
    }
  }

  ghost predicate FittingRun(stored: seq<Message>, run: TurnRun) {
    Fitting(run.cfg, run.batch, stored, Outcome(run).journal)
  }

  lemma {:induction false} StoredIsWritten(before: seq<Message>, writes: seq<Request>)
    ensures StoredAfter(before, writes) == before
         || exists i :: 0 <= i < |writes| && writes[i] == Persist(StoredAfter(before, writes))
    decreases |writes|
  {
    if writes != [] {
      var n := |writes| - 1;
      StoredIsWritten(before, writes[..n]);
      if writes[n].Persist? {
        assert writes[n] == Persist(StoredAfter(before, writes));
      } else if StoredAfter(before, writes) != before {
        var i :| 0 <= i < n && writes[..n][i] == Persist(StoredAfter(before, writes[..n]));
        assert writes[i] == Persist(StoredAfter(before, writes));
      }
    }
  }

  /** However a turn is interrupted, the transcript it leaves stored is closed. */
  lemma TurnLeavesClosed(stored: seq<Message>, run: TurnRun)
    requires Closed(stored) && FittingRun(stored, run)
    ensures var after := StoredAfter(stored, Outcome(run).writes);
      after == stored || Persistable(run.cfg, run.batch, stored, after)
  {
    var g, s := TheProgram(run.cfg, run.batch), Outcome(run);
    TurnSurvivesCrashes(run);
    EveryRequestIsGood(run.cfg, run.batch, stored, s.journal);
    StoredIsWritten(stored, s.writes);
    var after := StoredAfter(stored, s.writes);
    if after != stored {
      var i :| 0 <= i < |s.writes| && s.writes[i] == Persist(after);
      D.CommittedAreRequests(g, s.journal);
      assert Persist(after) in D.Requests(g, s.journal);
    }
  }

  // ----- A conversation: turn after turn -----

  function Final(stored: seq<Message>, runs: seq<TurnRun>): seq<Message>
    decreases |runs|
  {
    if runs == [] then stored else Final(StoredAfter(stored, Outcome(runs[0]).writes), runs[1..])
  }

  /** Every turn's answers fit, and it loads what the turns before it stored. */
  ghost predicate Plausible(stored: seq<Message>, runs: seq<TurnRun>)
    decreases |runs|
  {
    runs == [] || (FittingRun(stored, runs[0]) && Plausible(StoredAfter(stored, Outcome(runs[0]).writes), runs[1..]))
  }

  /**
   Over any number of turns, whatever the model, the members and the tools answer,
   whatever parks, compacts, fails or crashes: the conversation's transcript is
   closed, so the next turn's conversion cannot fail on it.
   */
  lemma {:induction false} ConversationStaysClosed(runs: seq<TurnRun>, stored: seq<Message>)
    requires Closed(stored) && Plausible(stored, runs)
    ensures Closed(Final(stored, runs))
    decreases |runs|
  {
    if runs != [] {
      TurnLeavesClosed(stored, runs[0]);
      ConversationStaysClosed(runs[1..], StoredAfter(stored, Outcome(runs[0]).writes));
    }
  }

  // ----- What a finished turn says -----

  function Last(msgs: seq<Message>): Option<Message> {
    if msgs == [] then None else Some(msgs[|msgs| - 1])
  }

  /** A plain message the model itself answered. */
  ghost predicate ModelSaid(answers: seq<Answer>, m: Option<Message>) {
    exists i :: 0 <= i < |answers| && answers[i].Reply? && answers[i].calls == [] && m == Some(Assistant(answers[i].content, []))
  }

  function StatusOf(pc: Pc): Option<TurnStatus> {
    match pc
    case Persisting(s) => Some(s)
    case Summarizing(s, _) => Some(s)
    case Embedding(s, _, _) => Some(s)
    case Remembering(s, _, _, _) => Some(s)
    case Logging(s, _, _) => Some(s)
    case PersistingCompacted(s, _, _) => Some(s)
    case Finished(s) => Some(s)
    case Reprompting => Some(Parked)
    case _ => None
  }

  /** The transcript has been persisted whole, and perhaps is being compacted. */
  predicate PersistedWhole(pc: Pc) {
    StatusOf(pc).Some? && !pc.Persisting? && !pc.Reprompting?
  }

  ghost predicate Closing(stored: seq<Message>, answers: seq<Answer>, writes: seq<Request>, t: Turn) {
    && (StatusOf(t.pc).Some? && StatusOf(t.pc) != Some(Parked) ==> ModelSaid(answers, Last(t.msgs)))
    && (PersistedWhole(t.pc) ==> Last(StoredAfter(stored, writes)) == Last(t.msgs))
  }

  lemma {:induction false} PassingHasNoStatus(cfg: Config, batch: seq<Item>, t: Turn, i: nat)
    ensures StatusOf(RelateFrom(cfg, batch, t, i).pc).None? || RelateFrom(cfg, batch, t, i).pc.Reprompting?
    decreases |batch| - i
  {
    if i < |batch| { PassingHasNoStatus(cfg, batch, t, i + 1); }
  }

  lemma {:induction false} ResolvingHasNoStatus(cfg: Config, batch: seq<Item>, t: Turn, i: nat)
    ensures StatusOf(ResolveFrom(cfg, batch, t, i).pc).None? || ResolveFrom(cfg, batch, t, i).pc.Reprompting?
    decreases |batch| - i
  {
    if i < |batch| { ResolvingHasNoStatus(cfg, batch, t, i + 1); }
    PassingHasNoStatus(cfg, batch, t.(entries := []), 0);
  }

  lemma QuotesHaveNoStatus(cfg: Config, batch: seq<Item>, t: Turn, a: Answer)
    requires t.pc.Loading? || t.pc.Resolving?
    ensures var u := Next(cfg, batch, t, a);
      StatusOf(u.pc).None? || u.pc.Reprompting?
  {
    hide ResolveFrom, ModelMessages, Updates;
    match t.pc
    case Loading =>
      if a.Loaded? {
        ResolvingHasNoStatus(cfg, batch, t.(msgs := a.transcript + ModelMessages(batch), priorCount := |a.transcript|), 0);
      }
    case Resolving(i) =>
      if a.Resolved? && i < |batch| {
        ResolvingHasNoStatus(cfg, batch, Say(t.(quoted := t.quoted[i := a.outcome]), Updates(a.outcome, batch[i].senderId)), i + 1);
      }
  }

  /** Before its last phase a turn's next state has no status, asks to persist a re-prompt, or has a closing message. */
  lemma EarlyStatus(cfg: Config, batch: seq<Item>, t: Turn, a: Answer)
    requires StatusOf(t.pc).None?
    ensures var u := Next(cfg, batch, t, a);
      StatusOf(u.pc).None? || u.pc.Reprompting? || u.pc == Persisting(Parked)
      || (u.pc.Persisting? && a.Reply? && a.calls == [] && u.msgs == t.msgs + [Assistant(a.content, [])])
  {
    hide ResolveFrom, RelateFrom, ModelMessages, Updates, Compact;
    match t.pc
    case Loading => QuotesHaveNoStatus(cfg, batch, t, a);
    case Resolving(i) => QuotesHaveNoStatus(cfg, batch, t, a);
    case Digesting => if a.Digest? { PassingHasNoStatus(cfg, batch, t.(entries := a.entries), 0); }
    case Classifying(i, _) => PassingHasNoStatus(cfg, batch, t, i + 1);
    case AtRefine(i, _, _) => PassingHasNoStatus(cfg, batch, t, i + 1);
    case _ =>
  }

  lemma ModelSaidGrows(answers: seq<Answer>, m: Option<Message>)
    requires answers != [] && ModelSaid(answers[..|answers| - 1], m)
    ensures ModelSaid(answers, m)
  {
    var before := answers[..|answers| - 1];
    var i :| 0 <= i < |before| && before[i].Reply? && before[i].calls == [] && m == Some(Assistant(before[i].content, []));
    assert answers[i] == before[i];
  }

  /** A turn past its model calls keeps its message list and its status until it ends or throws. */
  lemma LateStatus(cfg: Config, batch: seq<Item>, t: Turn, a: Answer)
    requires StatusOf(t.pc).Some?
    ensures var u := Next(cfg, batch, t, a);
      u.pc.Threw? || (u.msgs == t.msgs && StatusOf(u.pc) == StatusOf(t.pc))
  {
  }

  function Written(cfg: Config, batch: seq<Item>, t: Turn, a: Answer): seq<Request> {
    var r := Ask(cfg, batch, t);
    if r.Some? && Transactional(r.value) && a != Throws then [r.value] else []
  }

  lemma StoredSnoc(stored: seq<Message>, writes: seq<Request>, r: Request)
    ensures StoredAfter(stored, writes + [r]) == if r.Persist? then r.transcript else StoredAfter(stored, writes)
  {
    assert (writes + [r])[..|writes + [r]| - 1] == writes;
  }

  lemma CompactedLast(cfg: Config, msgs: seq<Message>, cut: int, summary: string)
    requires Even(msgs) && Compacting(cfg, msgs, cut)
    ensures 0 <= cut <= |msgs| && Last(BuildCompacted(summary, msgs[cut..])) == Last(msgs)
  {
    ScanIsGrammar(msgs);
    CompactionKeepsClosed(msgs, cfg.compaction.value, summary);
  }

  lemma StoredStep(cfg: Config, batch: seq<Item>, stored: seq<Message>, t: Turn, a: Answer, writes: seq<Request>)
    requires t.pc.PersistingCompacted? ==> Even(t.msgs) && Compacting(cfg, t.msgs, t.pc.cut)
    requires StatusOf(t.pc).Some?
    requires PersistedWhole(t.pc) ==> Last(StoredAfter(stored, writes)) == Last(t.msgs)
    ensures PersistedWhole(Next(cfg, batch, t, a).pc) ==>
      Last(StoredAfter(stored, writes + Written(cfg, batch, t, a))) == Last(t.msgs)
  {
    var r := Ask(cfg, batch, t);
    assert writes + [] == writes;
    if t.pc.PersistingCompacted? { CompactedLast(cfg, t.msgs, t.pc.cut, t.pc.summary); }
    if r.Some? { StoredSnoc(stored, writes, r.value); }
  }

  lemma ClosingStep(cfg: Config, batch: seq<Item>, stored: seq<Message>, answers: seq<Answer>, t: Turn, writes: seq<Request>)
    requires answers != []
    requires Closed(stored) && Ok(cfg, batch, stored, t) && Closing(stored, answers[..|answers| - 1], writes, t)
    ensures var a := answers[|answers| - 1];
      Closing(stored, answers, writes + Written(cfg, batch, t, a), Next(cfg, batch, t, a))
  {
    var a := answers[|answers| - 1];
    if StatusOf(t.pc).None? {
      EarlyStatus(cfg, batch, t, a);
    } else {
      LateStatus(cfg, batch, t, a);
      StoredStep(cfg, batch, stored, t, a, writes);
      if StatusOf(t.pc) != Some(Parked) { ModelSaidGrows(answers, Last(t.msgs)); }
    }
  }

  lemma {:induction false} ClosingRun(cfg: Config, batch: seq<Item>, stored: seq<Message>, answers: seq<Answer>)
    requires Closed(stored) && Fitting(cfg, batch, stored, answers)
    ensures Closing(stored, answers, D.Committed(TheProgram(cfg, batch), answers), D.Fold(TheProgram(cfg, batch), answers))
    decreases |answers|
  {
    if answers != [] {
      var g, n := TheProgram(cfg, batch), |answers| - 1;
      ClosingRun(cfg, batch, stored, answers[..n]);
      RunOk(cfg, batch, stored, answers[..n]);
      ClosingStep(cfg, batch, stored, answers, D.Fold(g, answers[..n]), D.Committed(g, answers[..n]));
    }
  }

  /**
   What a finished turn leaves stored ends in its closing message, even after
   compaction, and unless it parked that message is one the model answered: the
   last assistant message, which the reply step sends, is the turn's own.
   */
  lemma ReplyIsTheClosingMessage(stored: seq<Message>, run: TurnRun)
    requires Closed(stored) && FittingRun(stored, run)
    requires var s := Outcome(run);
      s.memory.Some? && s.memory.value.1 == |s.journal| && s.memory.value.0.pc.Finished?
    ensures var s := Outcome(run);
      var t := s.memory.value.0;
      var after := StoredAfter(stored, s.writes);
      && Ended(after) && Last(after) == Last(t.msgs)
      && (t.pc.status != Parked ==> ModelSaid(s.journal, Last(after)))
  {
    var s := Outcome(run);
    TurnSurvivesCrashes(run);
    ClosingRun(run.cfg, run.batch, stored, s.journal);
    RunOk(run.cfg, run.batch, stored, s.journal);
  }
}
