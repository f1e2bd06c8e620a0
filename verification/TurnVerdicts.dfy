/** Which messages are put to the classifier, and that its verdicts are carried out. */
module TurnVerdicts {
  import opened Prelude
  import opened Transcript
  import opened Turn
  import opened TurnSafety
  import opened TurnDurable
  import opened TurnOutcome
  import opened TurnRouting
  import D = Durable

  /**
   A verdict is carried out at once: an approval and a denial settle the very action
   that was asked about, a refinement refines it by the patch that was named, and an
   unrelated message does neither.
   */
  lemma VerdictIsCarriedOut(cfg: Config, batch: seq<Item>, t: Turn, a: Answer)
    requires t.pc.Classifying? && a.Judged?
    ensures var next := Ask(cfg, batch, Next(cfg, batch, t, a));
      match a.verdict
      case Approve => next == Some(ResolveDecision(t.pc.target.actionId, true))
      case Deny => next == Some(ResolveDecision(t.pc.target.actionId, false))
      case Refine(patch) => next == Some(RefineAction(t.pc.target.actionId, patch))
      case Unrelated => next.Some? ==> !next.value.ResolveDecision? && !next.value.RefineAction?
  {
    if a.verdict.Unrelated? {
      RelateAsks(cfg, batch, t, t.pc.i + 1);
      RelateLeavesQuotes(cfg, batch, t, t.pc.i + 1);
    }
    hide RelateFrom;
  }

  /** Something settled or was refined in this turn, as its answer says. */
  predicate ChangedBy(x: (Request, Answer)) {
    || (x.0.ResolveDecision? && x.1.Resolved?)
    || (x.0.RefineAction? && x.1.Refining? && (x.1.refinement.Refined? || x.1.refinement.RefineAlreadyResolved?))
  }

  predicate Changed(h: seq<(Request, Answer)>) {
    exists i :: 0 <= i < |h| && ChangedBy(h[i])
  }

  /** A person's message that may only mean one pending action. */
  predicate Candidate(batch: seq<Item>, t: Turn, i: nat) {
    && i < |batch| && MessageText(batch[i]).Some?
    && (if i in t.quoted && t.quoted[i].Unclear? then exists k :: 0 <= k < |t.entries| && t.entries[k].actionId == t.quoted[i].actionId
        else (i !in t.quoted || t.quoted[i].Unbound?) && |t.entries| == 1)
  }

  /** The classifier was asked about item i. */
  ghost predicate AskedAbout(cfg: Config, batch: seq<Item>, answers: seq<Answer>, i: nat) {
    exists k :: 0 <= k < |answers| && AsksAbout(StateAfter(cfg, batch, answers[..k]), i)
  }

  predicate AsksAbout(t: Turn, i: nat) {
    t.pc.Classifying? && t.pc.i == i
  }

  /** The items put to the classifier before the turn stands where it stands. */
  function Through(batch: seq<Item>, pc: Pc): nat {
    match pc
    case Classifying(i, _) => i
    case Deciding(i, _, _) => i + 1
    case AtRefine(i, _, _) => i + 1
    case _ => |batch|
  }

  predicate Relating(pc: Pc) {
    pc.Classifying? || pc.Deciding? || pc.AtRefine?
  }

  /** The items below n that may mean an action are among those asked about. */
  predicate AllAsked(batch: seq<Item>, t: Turn, n: nat, asked: set<nat>) {
    forall i: nat :: i < n && Candidate(batch, t, i) ==> i in asked
  }

  predicate Before(pc: Pc) {
    pc.Loading? || pc.Resolving? || pc.Digesting?
  }

  /** Up to where the turn is every candidate was asked about, unless something changed; while it asks, nothing did. */
  ghost predicate Asking(cfg: Config, batch: seq<Item>, t: Turn, asked: set<nat>, changed: bool) {
    t.pc.Threw? ||
    (&& (Before(t.pc) || Relating(t.pc) ==> !changed) && (t.pc.Redigesting? ==> changed)
     && (cfg.relates && !Before(t.pc) && !changed ==> AllAsked(batch, t, Through(batch, t.pc), asked)))
  }

  lemma {:induction false} FindsWhatIsThere(entries: seq<Entry>, id: string, k: nat)
    requires k < |entries| && entries[k].actionId == id
    ensures Find(entries, id).Some?
    decreases |entries|
  {
    if entries[0].actionId != id { FindsWhatIsThere(entries[1..], id, k - 1); }
  }

  lemma CandidateHasTarget(batch: seq<Item>, t: Turn, i: nat)
    requires Candidate(batch, t, i)
    ensures Target(t, i).Some?
  {
    if i in t.quoted && t.quoted[i].Unclear? {
      var k :| 0 <= k < |t.entries| && t.entries[k].actionId == t.quoted[i].actionId;
      FindsWhatIsThere(t.entries, t.quoted[i].actionId, k);
    }
  }

  /** Going on passes over no candidate. */
  lemma {:induction false} RelateSkipsNone(cfg: Config, batch: seq<Item>, t: Turn, i: nat)
    ensures var u := RelateFrom(cfg, batch, t, i);
      && u.entries == t.entries && u.quoted == t.quoted && !Acts(u.pc) && !u.pc.Threw? && !u.pc.Loading? && !u.pc.Resolving?
      && !u.pc.Digesting? && !u.pc.Redigesting?
      && (u.pc.Classifying? ==> i <= u.pc.i < |batch|)
      && forall k: nat :: i <= k < Through(batch, u.pc) ==> !Candidate(batch, t, k)
    decreases |batch| - i
  {
    if i < |batch| {
      if Candidate(batch, t, i) { CandidateHasTarget(batch, t, i); }
      RelateSkipsNone(cfg, batch, t, i + 1);
    }
  }

  /** What the turn has asked about behind a step. */
  function AskedThen(t: Turn, asked: set<nat>): set<nat> {
    if t.pc.Classifying? then asked + {t.pc.i} else asked
  }

  lemma ResolveLeadsOn(cfg: Config, batch: seq<Item>, t: Turn, i: nat)
    ensures var u := ResolveFrom(cfg, batch, t, i);
      Before(u.pc) || (u.entries == [] && !Acts(u.pc) && !u.pc.Classifying? && !u.pc.Redigesting? && !u.pc.Threw?)
    decreases |batch| - i
  {
    if i < |batch| { ResolveLeadsOn(cfg, batch, t, i + 1); }
  }

  lemma AskingBefore(cfg: Config, batch: seq<Item>, t: Turn, a: Answer, asked: set<nat>)
    requires Asking(cfg, batch, t, asked, false) && Before(t.pc)
    ensures Asking(cfg, batch, Next(cfg, batch, t, a), asked, false)
  {
    hide ResolveFrom, RelateFrom, ModelMessages, Updates;
    match t.pc
    case Loading =>
      if a.Loaded? { ResolveLeadsOn(cfg, batch, t.(msgs := a.transcript + ModelMessages(batch), priorCount := |a.transcript|), 0); }
    case Resolving(i) =>
      if a.Resolved? && i < |batch| {
        ResolveLeadsOn(cfg, batch, Say(t.(quoted := t.quoted[i := a.outcome]), Updates(a.outcome, batch[i].senderId)), i + 1);
      }
    case Digesting => if a.Digest? { AskingFirst(cfg, batch, t.(entries := a.entries), asked); }
  }

  lemma AskingFirst(cfg: Config, batch: seq<Item>, t: Turn, asked: set<nat>)
    ensures Asking(cfg, batch, RelateAll(cfg, batch, t), asked, false)
  {
    if cfg.relates && t.entries != [] {
      AskingOn(cfg, batch, t, asked, 0);
    } else {
      Composed(cfg, batch, t);
      var u := Compose(cfg, batch, t);
      forall i: nat | t.entries == [] ensures !Candidate(batch, u, i) { }
      hide Compose, Candidate;
    }
  }

  lemma Composed(cfg: Config, batch: seq<Item>, t: Turn)
    ensures var u := Compose(cfg, batch, t);
      u.entries == t.entries && u.quoted == t.quoted && !Before(u.pc) && !Relating(u.pc) && !u.pc.Redigesting? && !u.pc.Threw?
  {
  }

  lemma AskingOn(cfg: Config, batch: seq<Item>, t: Turn, asked: set<nat>, i: nat)
    requires cfg.relates ==> AllAsked(batch, t, i, asked)
    ensures Asking(cfg, batch, RelateFrom(cfg, batch, t, i), asked, false)
  {
    RelateSkipsNone(cfg, batch, t, i);
    var u := RelateFrom(cfg, batch, t, i);
    SameCandidates(batch, t, u);
    hide RelateFrom, Candidate;
    forall k: nat | cfg.relates && k < Through(batch, u.pc) && Candidate(batch, u, k) ensures k in asked { }
  }

  lemma SameCandidates(batch: seq<Item>, t: Turn, u: Turn)
    requires u.entries == t.entries && u.quoted == t.quoted
    ensures forall i: nat :: Candidate(batch, u, i) <==> Candidate(batch, t, i)
  {
  }

  lemma AskingRelating(cfg: Config, batch: seq<Item>, t: Turn, a: Answer, asked: set<nat>, x: (Request, Answer))
    requires Asking(cfg, batch, t, asked, false) && Relating(t.pc) && Ask(cfg, batch, t) == Some(x.0) && x.1 == a
    ensures Asking(cfg, batch, Next(cfg, batch, t, a), AskedThen(t, asked), ChangedBy(x))
  {
    hide RelateFrom, Updates;
    match t.pc
    case Classifying(i, _) => if a.Judged? && a.verdict.Unrelated? { AskingOn(cfg, batch, t, asked + {i}, i + 1); }
    case Deciding(i, _, _) =>
    case AtRefine(i, _, _) =>
      if a.Refining? && (a.refinement.RefineUnbound? || a.refinement.RefineInvalid?) { AskingOn(cfg, batch, t, asked, i + 1); }
  }

  lemma AskingLate(cfg: Config, batch: seq<Item>, t: Turn, a: Answer, asked: set<nat>, changed: bool)
    requires Asking(cfg, batch, t, asked, changed) && !Before(t.pc) && !Relating(t.pc)
    ensures Asking(cfg, batch, Next(cfg, batch, t, a), asked, changed)
  {
    LateKeepsQuotes(cfg, batch, t, a);
    hide Next;
  }

  lemma LateKeepsQuotes(cfg: Config, batch: seq<Item>, t: Turn, a: Answer)
    requires !Before(t.pc) && !Relating(t.pc)
    ensures LaterOn(t, Next(cfg, batch, t, a))
  {
    if t.pc.Redigesting? {
      if a.Digest? { Composed(cfg, batch, t.(entries := a.entries)); }
    } else if t.pc.Tooling? {
      ToolsKeepQuotes(cfg, batch, t, a);
      hide Next;
    } else {
      OthersKeepQuotes(cfg, batch, t, a);
      hide Next;
    }
    hide Compose;
  }

  /** Past the classifier a turn stays past it, with the entries and quotes it had, unless it reads the digest again. */
  predicate LaterOn(t: Turn, u: Turn) {
    && !Before(u.pc) && !Relating(u.pc) && !u.pc.Redigesting?
    && (!t.pc.Redigesting? ==> u.entries == t.entries && u.quoted == t.quoted && (t.pc.Threw? ==> u.pc.Threw?))
  }

  lemma ToolsKeepQuotes(cfg: Config, batch: seq<Item>, t: Turn, a: Answer)
    requires t.pc.Tooling?
    ensures LaterOn(t, Next(cfg, batch, t, a))
  {
    hide Prompts;
  }

  lemma OthersKeepQuotes(cfg: Config, batch: seq<Item>, t: Turn, a: Answer)
    requires !Before(t.pc) && !Relating(t.pc) && !t.pc.Redigesting? && !t.pc.Tooling?
    ensures LaterOn(t, Next(cfg, batch, t, a))
  {
  }

  lemma ChangedSnoc(h: seq<(Request, Answer)>, x: (Request, Answer))
    ensures Changed(h + [x]) <==> Changed(h) || ChangedBy(x)
  {
    var all := h + [x];
    assert all[|h|] == x;
    if Changed(h) {
      var i :| 0 <= i < |h| && ChangedBy(h[i]);
      assert ChangedBy(all[i]);
    }
  }

  /** What was asked about in a run. */
  function AskedIn(cfg: Config, batch: seq<Item>, answers: seq<Answer>): set<nat>
    decreases |answers|
  {
    if answers == [] then {}
    else AskedThen(StateAfter(cfg, batch, answers[..|answers| - 1]), AskedIn(cfg, batch, answers[..|answers| - 1]))
  }

  lemma OthersChangeNothing(cfg: Config, batch: seq<Item>, t: Turn)
    requires !Relating(t.pc)
    ensures var r := Ask(cfg, batch, t);
      r.Some? ==> !r.value.ResolveDecision? && !r.value.RefineAction?
  {
  }

  lemma AskingStep(cfg: Config, batch: seq<Item>, t: Turn, h: seq<(Request, Answer)>, a: Answer, asked: set<nat>)
    requires Asking(cfg, batch, t, asked, Changed(h)) && (Relating(t.pc) ==> Ask(cfg, batch, t).Some?)
    ensures Asking(cfg, batch, Next(cfg, batch, t, a), AskedThen(t, asked), Changed(Longer(cfg, batch, t, h, a)))
  {
    var r := Ask(cfg, batch, t);
    if r.Some? { ChangedSnoc(h, (r.value, a)); } else { assert h + [] == h; }
    if t.pc.Threw? {
    } else if Before(t.pc) {
      OthersChangeNothing(cfg, batch, t);
      AskingBefore(cfg, batch, t, a, asked);
    } else if Relating(t.pc) {
      AskingRelating(cfg, batch, t, a, asked, (r.value, a));
    } else {
      OthersChangeNothing(cfg, batch, t);
      AskingLate(cfg, batch, t, a, asked, Changed(h));
    }
    hide Next, Ask, Changed, Asking;
  }

  lemma {:induction false} AskingRun(cfg: Config, batch: seq<Item>, answers: seq<Answer>)
    ensures Asking(cfg, batch, StateAfter(cfg, batch, answers), AskedIn(cfg, batch, answers), Changed(Record(cfg, batch, answers)))
    decreases |answers|
  {
    if answers != [] {
      var n := |answers| - 1;
      AskingRun(cfg, batch, answers[..n]);
      TargetNeverGuesses(cfg, batch, answers[..n]);
      RelatingAsks(cfg, batch, StateAfter(cfg, batch, answers[..n]));
      AskingStep(cfg, batch, StateAfter(cfg, batch, answers[..n]), Record(cfg, batch, answers[..n]), answers[n], AskedIn(cfg, batch, answers[..n]));
    }
  }

  lemma RelatingAsks(cfg: Config, batch: seq<Item>, t: Turn)
    requires OnTarget(batch, t)
    ensures Relating(t.pc) ==> Ask(cfg, batch, t).Some?
  {
  }

  /** Whatever counts as asked about was put to the classifier at some step. */
  lemma {:induction false} AskedIsAsked(cfg: Config, batch: seq<Item>, answers: seq<Answer>, i: nat)
    requires i in AskedIn(cfg, batch, answers)
    ensures AskedAbout(cfg, batch, answers, i)
    decreases |answers|
  {
    var n := |answers| - 1;
    if AsksAbout(StateAfter(cfg, batch, answers[..n]), i) {
    } else {
      AskedIsAsked(cfg, batch, answers[..n], i);
      var k :| 0 <= k < n && AsksAbout(StateAfter(cfg, batch, answers[..n][..k]), i);
      assert answers[..n][..k] == answers[..k];
      assert AsksAbout(StateAfter(cfg, batch, answers[..k]), i);
    }
  }

  /**
   No candidate is passed over: when a turn with the classifier wired gets to the
   model, or to its end, every message that may mean one pending action was put to the
   classifier, unless one before it settled or refined its action; and once that
   happened nothing more is put to it.
   */
  lemma EveryCandidateIsAsked(cfg: Config, batch: seq<Item>, answers: seq<Answer>, i: nat)
    ensures var t := StateAfter(cfg, batch, answers);
      var h := Record(cfg, batch, answers);
      && (cfg.relates && !t.pc.Threw? && !Before(t.pc) && !Relating(t.pc) && !Changed(h) && Candidate(batch, t, i) ==>
            AskedAbout(cfg, batch, answers, i))
      && (t.pc.Classifying? ==> !Changed(h))
  {
    AskingRun(cfg, batch, answers);
    if i in AskedIn(cfg, batch, answers) { AskedIsAsked(cfg, batch, answers, i); }
    hide Changed;
  }
}
