/** How a turn ends, read off its steps and their answers alone. */
module TurnOutcome {
  import opened Prelude
  import opened Transcript
  import opened Turn
  import opened TurnSafety
  import opened TurnDurable
  import D = Durable

  /** The turn's record: what it asked for, and what came back. */
  function Record(cfg: Config, batch: seq<Item>, answers: seq<Answer>): seq<(Request, Answer)> {
    D.Exchanges(TheProgram(cfg, batch), answers)
  }

  // ----- Reading a record -----

  /** The last model call with its answer. */
  function LastModel(h: seq<(Request, Answer)>): Option<(Request, Answer)>
    decreases |h|
  {
    if h == [] then None
    else if h[|h| - 1].0.CallModel? then Some(h[|h| - 1])
    else LastModel(h[..|h| - 1])
  }

  /** The rounds: model calls answered with tools still on offer. */
  function ModelRounds(h: seq<(Request, Answer)>): nat
    decreases |h|
  {
    if h == [] then 0
    else
      var x := h[|h| - 1];
      ModelRounds(h[..|h| - 1]) + if x.0.CallModel? && !x.0.forceFinal && x.1.Reply? then 1 else 0
  }

  /** A tool parked its call, or a refinement was applied. */
  predicate Parking(x: (Request, Answer)) {
    || (x.0.RunTool? && x.1.Result? && x.1.parked)
    || (x.0.RefineAction? && x.1.Refining? && x.1.refinement.Refined?)
  }

  predicate Parks(h: seq<(Request, Answer)>) {
    exists i :: 0 <= i < |h| && Parking(h[i])
  }

  /** The model's last word asks for no tool; `forced` says whether it had the choice. */
  predicate Answered(h: seq<(Request, Answer)>, forced: bool) {
    match LastModel(h)
    case Some((CallModel(_, forceFinal, _, _), Reply(_, calls))) => forceFinal == forced && calls == []
    case _ => false
  }

  /** The model has not been asked, or asked for tools. */
  predicate Unanswered(h: seq<(Request, Answer)>) {
    match LastModel(h)
    case None => true
    case Some((CallModel(_, forceFinal, _, _), Reply(_, calls))) => !forceFinal && calls != []
    case _ => false
  }

  /** The status that the record tells. */
  predicate Told(cfg: Config, h: seq<(Request, Answer)>, status: TurnStatus) {
    match status
    case Completed => Answered(h, false) && !Parks(h)
    case Parked => Parks(h) && Unanswered(h)
    case CapHit => Answered(h, true) && !Parks(h) && ModelRounds(h) == Rounds(cfg)
  }

  lemma Snoc(h: seq<(Request, Answer)>, x: (Request, Answer))
    ensures LastModel(h + [x]) == if x.0.CallModel? then Some(x) else LastModel(h)
    ensures ModelRounds(h + [x]) == ModelRounds(h) + if x.0.CallModel? && !x.0.forceFinal && x.1.Reply? then 1 else 0
    ensures Parks(h + [x]) <==> Parks(h) || Parking(x)
  {
    var all := h + [x];
    assert all[..|h|] == h && all[|h|] == x;
    if Parks(h) {
      var i :| 0 <= i < |h| && Parking(h[i]);
      assert Parking(all[i]);
    }
  }

  // ----- The invariant -----

  /** Still on the way to the model, or between two of its calls. */
  predicate Underway(cfg: Config, t: Turn) {
    && StatusOf(t.pc).None? && !t.pc.Threw? && !t.pc.Tooling?
    && (t.reprompt.Some? ==> t.pc.Redigesting?)
    && (t.pc.Modeling? ==> t.rounds < cfg.maxRounds) && (t.pc.Forcing? ==> t.rounds >= cfg.maxRounds)
  }

  ghost predicate Telling(cfg: Config, t: Turn, h: seq<(Request, Answer)>) {
    t.pc.Threw? ||
    (&& t.rounds == ModelRounds(h) && t.rounds <= Rounds(cfg)
     && (if StatusOf(t.pc).Some? then Told(cfg, h, StatusOf(t.pc).value)
         else if t.pc.Tooling? then Unanswered(h) && (t.pc.parked <==> Parks(h)) && t.reprompt.None?
         else Underway(cfg, t) && Unanswered(h) && (Parks(h) <==> t.reprompt.Some?)))
  }

  /** Nothing but the re-prompt ends a turn before its model calls. */
  predicate Passes(cfg: Config, t: Turn, u: Turn) {
    && u.rounds == t.rounds && u.reprompt == t.reprompt
    && (if u.pc.Reprompting? then u.reprompt.Some? else Underway(cfg, u))
  }

  lemma ComposePasses(cfg: Config, batch: seq<Item>, t: Turn)
    ensures Passes(cfg, t, Compose(cfg, batch, t))
  {
  }

  lemma {:induction false} RelatePasses(cfg: Config, batch: seq<Item>, t: Turn, i: nat)
    requires t.reprompt.None?
    ensures Passes(cfg, t, RelateFrom(cfg, batch, t, i))
    decreases |batch| - i
  {
    if i < |batch| { RelatePasses(cfg, batch, t, i + 1); }
  }

  lemma {:induction false} ResolvePasses(cfg: Config, batch: seq<Item>, t: Turn, i: nat)
    requires t.reprompt.None?
    ensures Passes(cfg, t, ResolveFrom(cfg, batch, t, i))
    decreases |batch| - i
  {
    if i < |batch| { ResolvePasses(cfg, batch, t, i + 1); }
    RelatePasses(cfg, batch, t.(entries := []), 0);
  }

  /** Before the model's part: the turn passes on, with a re-prompt exactly if a refinement was applied. */
  lemma EarlyPasses(cfg: Config, batch: seq<Item>, t: Turn, a: Answer)
    requires (t.pc.Loading? || Early(t.pc)) && (t.reprompt.Some? ==> t.pc.Redigesting?)
    ensures var u := Next(cfg, batch, t, a);
      || u.pc.Threw?
      || (&& u.rounds == t.rounds && (u.reprompt.Some? <==> t.reprompt.Some? || (t.pc.AtRefine? && a.Refining? && a.refinement.Refined?))
          && (if u.pc.Reprompting? then u.reprompt.Some? else Underway(cfg, u)))
  {
    hide ResolveFrom, RelateFrom, ModelMessages, Updates, Compact, Compose;
    match t.pc
    case Loading =>
      if a.Loaded? {
        ResolvePasses(cfg, batch, t.(msgs := a.transcript + ModelMessages(batch), priorCount := |a.transcript|), 0);
      }
    case Resolving(i) =>
      if a.Resolved? && i < |batch| {
        ResolvePasses(cfg, batch, Say(t.(quoted := t.quoted[i := a.outcome]), Updates(a.outcome, batch[i].senderId)), i + 1);
      }
    case Digesting =>
      if a.Digest? {
        RelatePasses(cfg, batch, t.(entries := a.entries), 0);
        ComposePasses(cfg, batch, t.(entries := a.entries));
      }
    case Classifying(i, _) => RelatePasses(cfg, batch, t, i + 1);
    case Deciding(i, _, _) =>
      if a.Resolved? && i < |batch| { ComposePasses(cfg, batch, Say(t, Updates(a.outcome, batch[i].senderId))); }
    case AtRefine(i, _, _) => if a.Refining? && i < |batch| { RefinePasses(cfg, batch, t, i, a.refinement); }
    case Redigesting => if a.Digest? { ComposePasses(cfg, batch, t.(entries := a.entries)); }
  }

  lemma RefinePasses(cfg: Config, batch: seq<Item>, t: Turn, i: nat, r: Refinement)
    requires t.reprompt.None? && i < |batch|
    ensures var u := AfterRefinement(cfg, batch, t, i, r);
      && u.rounds == t.rounds && (u.reprompt.Some? <==> r.Refined?)
      && (if u.pc.Reprompting? then u.reprompt.Some? else Underway(cfg, u))
  {
    hide RelateFrom, Updates, Compose;
    match r
    case Refined(summary) => ComposePasses(cfg, batch, t.(reprompt := Some(summary)));
    case RefineAlreadyResolved(id, status) => ComposePasses(cfg, batch, Say(t, Updates(AlreadyResolved(id, status), batch[i].senderId)));
    case _ => RelatePasses(cfg, batch, t, i + 1);
  }

  /** What a state before the model's part asks is no model call and no tool. */
  lemma EarlyAsks(cfg: Config, batch: seq<Item>, t: Turn)
    requires t.pc.Loading? || Early(t.pc)
    ensures var r := Ask(cfg, batch, t);
      r.Some? ==> !r.value.CallModel? && !r.value.RunTool? && (r.value.RefineAction? <==> t.pc.AtRefine?)
    ensures t.pc.AtRefine? ==> Ask(cfg, batch, t).Some?
  {
  }

  /** The record behind a step. */
  function Longer(cfg: Config, batch: seq<Item>, t: Turn, h: seq<(Request, Answer)>, a: Answer): seq<(Request, Answer)> {
    var r := Ask(cfg, batch, t);
    h + if r.Some? then [(r.value, a)] else []
  }

  lemma TellingEarly(cfg: Config, batch: seq<Item>, t: Turn, h: seq<(Request, Answer)>, a: Answer)
    requires Telling(cfg, t, h) && (t.pc.Loading? || Early(t.pc))
    ensures Telling(cfg, Next(cfg, batch, t, a), Longer(cfg, batch, t, h, a))
  {
    EarlyAsks(cfg, batch, t);
    EarlyPasses(cfg, batch, t, a);
    var r := Ask(cfg, batch, t);
    if r.Some? { Snoc(h, (r.value, a)); } else { assert h + [] == h; }
    hide Next, Ask, LastModel, ModelRounds, Parks;
  }

  lemma TellingModel(cfg: Config, batch: seq<Item>, t: Turn, h: seq<(Request, Answer)>, a: Answer)
    requires Telling(cfg, t, h) && (t.pc.Routing? || t.pc.LoggingRoute? || t.pc.Modeling? || t.pc.Forcing?)
    ensures Telling(cfg, Next(cfg, batch, t, a), Longer(cfg, batch, t, h, a))
  {
    Snoc(h, (Ask(cfg, batch, t).value, a));
    hide LastModel, ModelRounds, Parks, Compact, AfterResult, ResolveFrom, RelateFrom, ModelMessages;
  }

  lemma TellingTool(cfg: Config, batch: seq<Item>, t: Turn, h: seq<(Request, Answer)>, a: Answer)
    requires Telling(cfg, t, h) && t.pc.Tooling?
    ensures Telling(cfg, Next(cfg, batch, t, a), Longer(cfg, batch, t, h, a))
  {
    if t.pc.k < |t.pc.calls| {
      Snoc(h, (RunTool(t.pc.calls[t.pc.k]), a));
    }
    hide LastModel, ModelRounds, Parks, Compact, ResolveFrom, RelateFrom, ModelMessages, Prompts;
  }

  lemma TellingLate(cfg: Config, batch: seq<Item>, t: Turn, h: seq<(Request, Answer)>, a: Answer)
    requires Telling(cfg, t, h) && StatusOf(t.pc).Some?
    ensures Telling(cfg, Next(cfg, batch, t, a), Longer(cfg, batch, t, h, a))
  {
    LateAsks(cfg, batch, t, a);
    var r := Ask(cfg, batch, t);
    if r.Some? { Snoc(h, (r.value, a)); } else { assert h + [] == h; }
    hide Next, Ask, LastModel, ModelRounds, Parks;
  }

  lemma LateAsks(cfg: Config, batch: seq<Item>, t: Turn, a: Answer)
    requires StatusOf(t.pc).Some?
    ensures var r := Ask(cfg, batch, t);
      r.Some? ==> !r.value.CallModel? && !r.value.RunTool? && !r.value.RefineAction?
    ensures var u := Next(cfg, batch, t, a);
      u.pc.Threw? || (StatusOf(u.pc) == StatusOf(t.pc) && u.rounds == t.rounds)
  {
  }

  lemma TellingStep(cfg: Config, batch: seq<Item>, t: Turn, h: seq<(Request, Answer)>, a: Answer)
    requires Telling(cfg, t, h)
    ensures Telling(cfg, Next(cfg, batch, t, a), Longer(cfg, batch, t, h, a))
  {
    if t.pc.Loading? || Early(t.pc) {
      TellingEarly(cfg, batch, t, h, a);
    } else if t.pc.Tooling? {
      TellingTool(cfg, batch, t, h, a);
    } else if StatusOf(t.pc).Some? {
      TellingLate(cfg, batch, t, h, a);
    } else if !t.pc.Threw? {
      TellingModel(cfg, batch, t, h, a);
    }
  }

  lemma {:induction false} TellingRun(cfg: Config, batch: seq<Item>, answers: seq<Answer>)
    ensures Telling(cfg, D.Fold(TheProgram(cfg, batch), answers), Record(cfg, batch, answers))
    decreases |answers|
  {
    if answers != [] {
      var n := |answers| - 1;
      TellingRun(cfg, batch, answers[..n]);
      TellingStep(cfg, batch, D.Fold(TheProgram(cfg, batch), answers[..n]), Record(cfg, batch, answers[..n]), answers[n]);
    }
  }

  /**
   How a turn ends, for every answer to every step: completed exactly if the model's
   last word was its own and asked for no tool, parked exactly if a tool call parked
   or a refinement was applied, cut off exactly if that last word was forced, which
   happens after maxRounds rounds and no sooner; and the rounds it reports are the
   model's unforced answers.
   */
  lemma TurnEndsAsTold(cfg: Config, batch: seq<Item>, answers: seq<Answer>)
    requires D.Fold(TheProgram(cfg, batch), answers).pc.Finished?
    ensures var t := D.Fold(TheProgram(cfg, batch), answers);
      var h := Record(cfg, batch, answers);
      && (t.pc.status == Completed <==> Answered(h, false))
      && (t.pc.status == Parked <==> Parks(h))
      && (t.pc.status == CapHit <==> Answered(h, true))
      && (t.pc.status == CapHit ==> t.rounds == Rounds(cfg))
      && t.rounds == ModelRounds(h)
  {
    TellingRun(cfg, batch, answers);
  }

  /** And the model is forced only at the cap: a forced call is asked for exactly when the rounds are used up. */
  lemma ForcedAtTheCap(cfg: Config, batch: seq<Item>, answers: seq<Answer>)
    ensures match Ask(cfg, batch, D.Fold(TheProgram(cfg, batch), answers))
      case Some(CallModel(_, forceFinal, _, _)) => forceFinal <==> ModelRounds(Record(cfg, batch, answers)) == Rounds(cfg)
      case _ => true
  {
    TellingRun(cfg, batch, answers);
  }
}
