/** When a turn compacts, and that it then asks for exactly the steps of a compaction, each over what the one before answered. */
module TurnCompaction {
  import opened Prelude
  import opened Transcript
  import opened Turn
  import opened TurnSafety
  import opened TurnDurable
  import opened TurnOutcome
  import D = Durable

  /** The transcript is over the threshold, and the cut is the last user message that keeps enough live. */
  ghost predicate Due(cfg: Config, msgs: seq<Message>, cut: int) {
    && cfg.compaction.Some? && |msgs| > cfg.compaction.value.thresholdMessages
    && CanCut(msgs, cfg.compaction.value, cut) && forall i :: CanCut(msgs, cfg.compaction.value, i) ==> i <= cut
  }

  predicate EndsWith(h: seq<(Request, Answer)>, tail: seq<(Request, Answer)>) {
    |tail| <= |h| && h[|h| - |tail|..] == tail
  }

  /** The steps of a compaction, from the whole transcript's persist on, each over what the ones before answered. */
  function StepAt(msgs: seq<Message>, cut: int, summary: string, embedding: string, k: nat): (Request, Answer)
    requires 0 <= cut <= |msgs|
  {
    if k == 0 then (Persist(msgs), Done)
    else if k == 1 then (Summarize(msgs[..cut]), Answer.Text(summary))
    else if k == 2 then (EmbedSummary(summary), Answer.Text(embedding))
    else if k == 3 then (WriteMemory(summary, embedding), Done)
    else if k == 4 then (WriteCompactionLog(msgs[..cut], summary, cut, |msgs| - cut), Done)
    else (Persist([User("system:compaction", SummaryPrefix + summary)] + msgs[cut..]), Done)
  }

  /** The record ends in the first n of them. */
  ghost predicate Taken(h: seq<(Request, Answer)>, msgs: seq<Message>, cut: int, summary: string, embedding: string, n: nat)
    requires 0 <= cut <= |msgs|
  {
    n <= |h| && forall k: nat :: k < n ==> h[|h| - n + k] == StepAt(msgs, cut, summary, embedding, k)
  }

  ghost predicate Compacted(cfg: Config, h: seq<(Request, Answer)>, msgs: seq<Message>, cut: int, summary: string, embedding: string, n: nat) {
    Due(cfg, msgs, cut) && Taken(h, msgs, cut, summary, embedding, n)
  }

  /** A refinement was applied. */
  predicate Refines(x: (Request, Answer)) {
    x.0.RefineAction? && x.1.Refining? && x.1.refinement.Refined?
  }

  predicate Refined(h: seq<(Request, Answer)>) {
    exists i :: 0 <= i < |h| && Refines(h[i])
  }

  /** The turn ended with its transcript persisted whole, and there was nothing to compact or it closed with a re-prompt. */
  ghost predicate Whole(cfg: Config, h: seq<(Request, Answer)>, msgs: seq<Message>) {
    EndsWith(h, [(Persist(msgs), Done)]) && (Refined(h) || forall cut :: !Due(cfg, msgs, cut))
  }

  ghost predicate CompactedWhole(cfg: Config, h: seq<(Request, Answer)>, msgs: seq<Message>) {
    !Refined(h) && exists cut, summary, embedding :: Compacted(cfg, h, msgs, cut, summary, embedding, 6)
  }

  ghost predicate Logged(cfg: Config, h: seq<(Request, Answer)>, msgs: seq<Message>, cut: int, summary: string, n: nat) {
    exists embedding :: Compacted(cfg, h, msgs, cut, summary, embedding, n)
  }

  ghost predicate Tracks(cfg: Config, t: Turn, h: seq<(Request, Answer)>) {
    t.pc.Threw? ||
    (&& (Refined(h) <==> t.reprompt.Some?)
     && match t.pc
        case Reprompting => t.reprompt.Some?
        case Persisting(_) => t.reprompt.None?
        case Summarizing(_, cut) => t.reprompt.None? && Compacted(cfg, h, t.msgs, cut, "", "", 1)
        case Embedding(_, cut, summary) => t.reprompt.None? && Compacted(cfg, h, t.msgs, cut, summary, "", 2)
        case Remembering(_, cut, summary, embedding) => t.reprompt.None? && Compacted(cfg, h, t.msgs, cut, summary, embedding, 3)
        case Logging(_, cut, summary) => t.reprompt.None? && Logged(cfg, h, t.msgs, cut, summary, 4)
        case PersistingCompacted(_, cut, summary) => t.reprompt.None? && Logged(cfg, h, t.msgs, cut, summary, 5)
        case Finished(_) => Whole(cfg, h, t.msgs) || CompactedWhole(cfg, h, t.msgs)
        case Tooling(_, _, _, _) => t.reprompt.None?
        case _ => t.reprompt.Some? ==> t.pc.Redigesting?)
  }

  lemma CutIsLargest(msgs: seq<Message>, cfg: CompactionConfig)
    ensures var cut := CompactionCut(msgs, cfg);
      && (cut.Some? ==> CanCut(msgs, cfg, cut.value) && forall i :: CanCut(msgs, cfg, i) ==> i <= cut.value)
      && (cut.None? ==> forall i :: !CanCut(msgs, cfg, i))
  {
  }

  lemma RefinedSnoc(h: seq<(Request, Answer)>, x: (Request, Answer))
    ensures Refined(h + [x]) <==> Refined(h) || Refines(x)
  {
    var all := h + [x];
    assert all[|h|] == x;
    assert forall i :: 0 <= i < |h| ==> all[i] == h[i];
    if Refined(h) {
      var i :| 0 <= i < |h| && Refines(h[i]);
      assert Refines(all[i]);
    }
  }

  /** One more step of the compaction, which the program asks for when n are done. */
  lemma OneMoreStep(cfg: Config, h: seq<(Request, Answer)>, msgs: seq<Message>, cut: int, summary: string, embedding: string, n: nat,
                    summary': string, embedding': string, x: (Request, Answer))
    requires n < 6 && Compacted(cfg, h, msgs, cut, summary, embedding, n) && x == StepAt(msgs, cut, summary', embedding', n)
    requires (n > 1 ==> summary' == summary) && (n > 2 ==> embedding' == embedding)
    ensures Compacted(cfg, h + [x], msgs, cut, summary', embedding', n + 1)
  {
    var all := h + [x];
    assert 0 <= cut <= |msgs|;
    hide Due;
    forall k: nat | k < n + 1 ensures all[|all| - (n + 1) + k] == StepAt(msgs, cut, summary', embedding', k) {
      if k < n {
        assert all[|all| - (n + 1) + k] == h[|h| - n + k] == StepAt(msgs, cut, summary, embedding, k);
      } else {
        assert all[|all| - (n + 1) + k] == x;
      }
    }
  }

  /** The whole transcript is persisted: the compaction begins, or the turn is over. */
  lemma TracksPersisted(cfg: Config, batch: seq<Item>, t: Turn, h: seq<(Request, Answer)>)
    requires Tracks(cfg, t, h) && (t.pc.Persisting? || t.pc.Reprompting?)
    ensures Tracks(cfg, Next(cfg, batch, t, Done), h + [(Persist(t.msgs), Done)])
  {
    var x := (Persist(t.msgs), Done);
    RefinedSnoc(h, x);
    assert EndsWith(h + [x], [x]);
    if cfg.compaction.Some? { CutIsLargest(t.msgs, cfg.compaction.value); }
    if t.pc.Persisting? {
      var u := Compact(cfg, t, t.pc.status);
      if u.pc.Summarizing? { assert (h + [x])[|h|] == StepAt(t.msgs, u.pc.cut, "", "", 0); }
    }
  }

  /** The steps of the compaction itself. */
  lemma TracksCompacting(cfg: Config, batch: seq<Item>, t: Turn, h: seq<(Request, Answer)>, a: Answer)
    requires Tracks(cfg, t, h)
    requires t.pc.Summarizing? || t.pc.Embedding? || t.pc.Remembering? || t.pc.Logging? || t.pc.PersistingCompacted?
    ensures Tracks(cfg, Next(cfg, batch, t, a), Longer(cfg, batch, t, h, a))
  {
    if t.pc.Summarizing? || t.pc.Embedding? || t.pc.Remembering? {
      TracksSummary(cfg, batch, t, h, a);
    } else {
      TracksLog(cfg, batch, t, h, a);
    }
    hide *;
  }

  lemma TracksSummary(cfg: Config, batch: seq<Item>, t: Turn, h: seq<(Request, Answer)>, a: Answer)
    requires Tracks(cfg, t, h) && (t.pc.Summarizing? || t.pc.Embedding? || t.pc.Remembering?)
    ensures Tracks(cfg, Next(cfg, batch, t, a), Longer(cfg, batch, t, h, a))
  {
    var msgs, cut := t.msgs, t.pc.cut;
    hide Compacted, Refined, Whole, CompactedWhole;
    var x := (Ask(cfg, batch, t).value, a);
    RefinedSnoc(h, x);
    match t.pc
    case Summarizing(_, _) =>
      CutInside(cfg, h, msgs, cut, "", "", 1);
      if a.Text? { OneMoreStep(cfg, h, msgs, cut, "", "", 1, a.text, "", x); }
    case Embedding(_, _, summary) =>
      CutInside(cfg, h, msgs, cut, summary, "", 2);
      if a.Text? { OneMoreStep(cfg, h, msgs, cut, summary, "", 2, summary, a.text, x); }
    case Remembering(_, _, summary, embedding) =>
      CutInside(cfg, h, msgs, cut, summary, embedding, 3);
      if a.Done? { OneMoreStep(cfg, h, msgs, cut, summary, embedding, 3, summary, embedding, x); }
  }

  lemma TracksLog(cfg: Config, batch: seq<Item>, t: Turn, h: seq<(Request, Answer)>, a: Answer)
    requires Tracks(cfg, t, h) && (t.pc.Logging? || t.pc.PersistingCompacted?)
    ensures Tracks(cfg, Next(cfg, batch, t, a), Longer(cfg, batch, t, h, a))
  {
    var msgs, cut, summary := t.msgs, t.pc.cut, t.pc.summary;
    hide Compacted, Refined, Whole;
    var x := (Ask(cfg, batch, t).value, a);
    RefinedSnoc(h, x);
    var n := if t.pc.Logging? then 4 else 5;
    var embedding :| Compacted(cfg, h, msgs, cut, summary, embedding, n);
    CutInside(cfg, h, msgs, cut, summary, embedding, n);
    if a.Done? { OneMoreStep(cfg, h, msgs, cut, summary, embedding, n, summary, embedding, x); }
  }

  lemma CutInside(cfg: Config, h: seq<(Request, Answer)>, msgs: seq<Message>, cut: int, summary: string, embedding: string, n: nat)
    requires Compacted(cfg, h, msgs, cut, summary, embedding, n)
    ensures 0 <= cut <= |msgs|
  {
  }

  /** Up to its closing message a turn only picks up a re-prompt. */
  lemma TracksEarly(cfg: Config, batch: seq<Item>, t: Turn, h: seq<(Request, Answer)>, a: Answer)
    requires Tracks(cfg, t, h) && (t.pc.Loading? || Early(t.pc))
    ensures Tracks(cfg, Next(cfg, batch, t, a), Longer(cfg, batch, t, h, a))
  {
    EarlyAsks(cfg, batch, t);
    EarlyPasses(cfg, batch, t, a);
    var r := Ask(cfg, batch, t);
    if r.Some? { RefinedSnoc(h, (r.value, a)); } else { assert h + [] == h; }
    hide Next, Ask, Refined, Compacted, Whole, CompactedWhole, Logged;
  }

  lemma TracksModel(cfg: Config, batch: seq<Item>, t: Turn, h: seq<(Request, Answer)>, a: Answer)
    requires Tracks(cfg, t, h) && (t.pc.Routing? || t.pc.LoggingRoute? || t.pc.Modeling? || t.pc.Forcing? || t.pc.Tooling?)
    ensures Tracks(cfg, Next(cfg, batch, t, a), Longer(cfg, batch, t, h, a))
  {
    var r := Ask(cfg, batch, t);
    if r.Some? { RefinedSnoc(h, (r.value, a)); } else { assert h + [] == h; }
    hide Refined, Compacted, Whole, CompactedWhole, Logged, Compact, ResolveFrom, RelateFrom, ModelMessages, Prompts;
  }

  lemma TracksStep(cfg: Config, batch: seq<Item>, t: Turn, h: seq<(Request, Answer)>, a: Answer)
    requires Tracks(cfg, t, h)
    ensures Tracks(cfg, Next(cfg, batch, t, a), Longer(cfg, batch, t, h, a))
  {
    if t.pc.Loading? || Early(t.pc) {
      TracksEarly(cfg, batch, t, h, a);
    } else if t.pc.Persisting? || t.pc.Reprompting? {
      if a.Done? { TracksPersisted(cfg, batch, t, h); }
    } else if t.pc.Summarizing? || t.pc.Embedding? || t.pc.Remembering? || t.pc.Logging? || t.pc.PersistingCompacted? {
      TracksCompacting(cfg, batch, t, h, a);
    } else if t.pc.Finished? {
      assert h + [] == h;
    } else if !t.pc.Threw? {
      TracksModel(cfg, batch, t, h, a);
    }
  }

  lemma {:induction false} TracksRun(cfg: Config, batch: seq<Item>, answers: seq<Answer>)
    ensures Tracks(cfg, D.Fold(TheProgram(cfg, batch), answers), Record(cfg, batch, answers))
    decreases |answers|
  {
    if answers != [] {
      var n := |answers| - 1;
      TracksRun(cfg, batch, answers[..n]);
      TracksStep(cfg, batch, D.Fold(TheProgram(cfg, batch), answers[..n]), Record(cfg, batch, answers[..n]), answers[n]);
    } else {
      assert !Refined([]);
    }
  }

  /**
   How every finished turn's record ends: with the whole transcript persisted and
   nothing after it, exactly if a re-prompt closed the turn or there is nothing to
   compact; and otherwise with the five steps of a compaction at the last user
   message that keeps enough live: the head before it summarised, that summary
   embedded, both remembered, head and summary logged, and the summary with the rest
   behind it persisted.
   */
  lemma CompactsExactlyWhenDue(cfg: Config, batch: seq<Item>, answers: seq<Answer>)
    requires D.Fold(TheProgram(cfg, batch), answers).pc.Finished?
    ensures var msgs := D.Fold(TheProgram(cfg, batch), answers).msgs;
      var h := Record(cfg, batch, answers);
      if Refined(h) || forall cut :: !Due(cfg, msgs, cut) then EndsWith(h, [(Persist(msgs), Done)])
      else exists cut, summary, embedding :: Compacted(cfg, h, msgs, cut, summary, embedding, 6)
  {
    TracksRun(cfg, batch, answers);
  }
}
