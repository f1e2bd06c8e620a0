/** The context that the classifier, the router and the model are given besides the messages at hand. */
module TurnContext {
  import opened Prelude
  import opened Transcript
  import opened Turn
  import opened TurnSafety
  import opened TurnDurable
  import opened TurnOutcome
  import opened TurnRecord
  import D = Durable

  /** The tier of the last routing decision. */
  function Tier(h: seq<(Request, Answer)>): Option<string>
    decreases |h|
  {
    if h == [] then None
    else if h[|h| - 1].0.RouteTurn? && h[|h| - 1].1.Routed? then Some(h[|h| - 1].1.tier)
    else Tier(h[..|h| - 1])
  }

  lemma {:induction false} RelateKeepsContext(cfg: Config, batch: seq<Item>, t: Turn, i: nat)
    ensures var u := RelateFrom(cfg, batch, t, i);
      u.priorCount == t.priorCount && u.tier == t.tier && !u.pc.Loading? && !u.pc.LoggingRoute?
    decreases |batch| - i
  {
    if i < |batch| { RelateKeepsContext(cfg, batch, t, i + 1); }
  }

  lemma {:induction false} ResolveKeepsContext(cfg: Config, batch: seq<Item>, t: Turn, i: nat)
    ensures var u := ResolveFrom(cfg, batch, t, i);
      u.priorCount == t.priorCount && u.tier == t.tier && !u.pc.Loading? && !u.pc.LoggingRoute?
    decreases |batch| - i
  {
    if i < |batch| { ResolveKeepsContext(cfg, batch, t, i + 1); }
    RelateKeepsContext(cfg, batch, t.(entries := []), 0);
  }

  lemma QuotesKeepContext(cfg: Config, batch: seq<Item>, t: Turn, a: Answer)
    requires t.pc.Loading? || t.pc.Resolving?
    ensures var u := Next(cfg, batch, t, a);
      u.tier == t.tier && (u.pc.Threw? || (!u.pc.Loading? && !u.pc.LoggingRoute? && u.priorCount == if t.pc.Loading? then |a.transcript| else t.priorCount))
    ensures t.pc.Loading? && !a.Loaded? ==> Next(cfg, batch, t, a).pc.Threw?
  {
    hide ResolveFrom, ModelMessages, Updates;
    match t.pc
    case Loading =>
      if a.Loaded? { ResolveKeepsContext(cfg, batch, t.(msgs := a.transcript + ModelMessages(batch), priorCount := |a.transcript|), 0); }
    case Resolving(i) =>
      if a.Resolved? && i < |batch| {
        ResolveKeepsContext(cfg, batch, Say(t.(quoted := t.quoted[i := a.outcome]), Updates(a.outcome, batch[i].senderId)), i + 1);
      }
  }

  lemma RelatingKeepsContext(cfg: Config, batch: seq<Item>, t: Turn, a: Answer)
    requires t.pc.Digesting? || t.pc.Classifying? || t.pc.AtRefine?
    ensures var u := Next(cfg, batch, t, a);
      u.tier == t.tier && (u.pc.Threw? || (!u.pc.Loading? && !u.pc.LoggingRoute? && u.priorCount == t.priorCount))
  {
    hide RelateFrom, Updates;
    match t.pc
    case Digesting => if a.Digest? { RelateKeepsContext(cfg, batch, t.(entries := a.entries), 0); }
    case Classifying(i, _) => RelateKeepsContext(cfg, batch, t, i + 1);
    case AtRefine(i, _, _) => RelateKeepsContext(cfg, batch, t, i + 1);
  }

  lemma EarlyKeepsContext(cfg: Config, batch: seq<Item>, t: Turn, a: Answer)
    requires t.pc.Loading? || Early(t.pc)
    ensures var u := Next(cfg, batch, t, a);
      u.tier == t.tier && (u.pc.Threw? || (!u.pc.Loading? && !u.pc.LoggingRoute? && u.priorCount == if t.pc.Loading? then |a.transcript| else t.priorCount))
    ensures t.pc.Loading? && !a.Loaded? ==> Next(cfg, batch, t, a).pc.Threw?
  {
    if t.pc.Loading? || t.pc.Resolving? {
      QuotesKeepContext(cfg, batch, t, a);
      hide Next;
    } else if t.pc.Digesting? || t.pc.Classifying? || t.pc.AtRefine? {
      RelatingKeepsContext(cfg, batch, t, a);
      hide Next;
    }
    hide Updates;
  }

  lemma LateKeepsContext(cfg: Config, batch: seq<Item>, t: Turn, a: Answer)
    requires !t.pc.Loading? && !Early(t.pc)
    ensures var u := Next(cfg, batch, t, a);
      && u.priorCount == t.priorCount && !u.pc.Loading? && (u.pc.LoggingRoute? ==> u.tier.Some?)
      && (u.pc.Threw? || u.tier == if t.pc.Routing? && a.Routed? then Some(a.tier) else t.tier)
    ensures Ask(cfg, batch, t).Some? ==> (Ask(cfg, batch, t).value.RouteTurn? <==> t.pc.Routing?)
    ensures t.pc.Routing? ==> Ask(cfg, batch, t).Some?
  {
    hide Prompts, Utterances;
  }

  ghost predicate Kept(t: Turn, h: seq<(Request, Answer)>) {
    t.pc.Threw? || (t.tier == Tier(h) && (t.pc.LoggingRoute? ==> t.tier.Some?) && (if t.pc.Loading? then h == [] && t == Start else h != [] && t.priorCount == |LoadedFrom(h)|))
  }

  lemma TierSnoc(h: seq<(Request, Answer)>, x: (Request, Answer))
    ensures Tier(h + [x]) == if x.0.RouteTurn? && x.1.Routed? then Some(x.1.tier) else Tier(h)
    ensures h != [] ==> LoadedFrom(h + [x]) == LoadedFrom(h)
  {
    assert (h + [x])[..|h|] == h;
    assert h != [] ==> (h + [x])[0] == h[0];
  }

  lemma EarlyRoutesNot(cfg: Config, batch: seq<Item>, t: Turn)
    requires t.pc.Loading? || Early(t.pc)
    ensures Ask(cfg, batch, t).Some? ==> !Ask(cfg, batch, t).value.RouteTurn?
    ensures t.pc.Loading? ==> Ask(cfg, batch, t) == Some(LoadContext)
  {
  }

  lemma KeptStep(cfg: Config, batch: seq<Item>, t: Turn, h: seq<(Request, Answer)>, a: Answer)
    requires Kept(t, h)
    ensures Kept(Next(cfg, batch, t, a), Longer(cfg, batch, t, h, a))
  {
    var r := Ask(cfg, batch, t);
    if r.Some? { TierSnoc(h, (r.value, a)); } else { assert h + [] == h; }
    if t.pc.Loading? || Early(t.pc) {
      EarlyKeepsContext(cfg, batch, t, a);
      EarlyRoutesNot(cfg, batch, t);
    } else {
      LateKeepsContext(cfg, batch, t, a);
    }
    if t.pc.Loading? { assert (h + [(LoadContext, a)])[0] == (LoadContext, a); }
    hide Next, Ask, Tier;
  }

  lemma {:induction false} KeptRun(cfg: Config, batch: seq<Item>, answers: seq<Answer>)
    ensures Kept(D.Fold(TheProgram(cfg, batch), answers), Record(cfg, batch, answers))
    decreases |answers|
  {
    if answers != [] {
      var n := |answers| - 1;
      KeptRun(cfg, batch, answers[..n]);
      KeptStep(cfg, batch, D.Fold(TheProgram(cfg, batch), answers[..n]), Record(cfg, batch, answers[..n]), answers[n]);
    }
  }

  /** The messages of a transcript from its last six on. */
  predicate LastSix(all: seq<Message>, some: seq<Message>) {
    some <= all[if |all| > 6 then |all| - 6 else 0..] && |some| == if |all| > 6 then 6 else |all|
  }

  /**
   What a turn's judges see of the past, for every answer to every step: the classifier
   the last six messages of what was loaded, without this batch; the router all of what
   was loaded, the batch's utterances, and whether it quotes; and every model call of a turn
   goes out at the one tier that was decided, or at none.
   */
  lemma ContextIsTold(cfg: Config, batch: seq<Item>, answers: seq<Answer>)
    ensures var h := Record(cfg, batch, answers);
      match Ask(cfg, batch, D.Fold(TheProgram(cfg, batch), answers))
      case Some(Classify(_, _, _, _, recent)) => LastSix(LoadedFrom(h), recent)
      case Some(RouteTurn(earlier, latest, _, hasQuote)) =>
        && earlier == LoadedFrom(h) && (exists at :: PicksUtterances(batch, latest, at))
        && (hasQuote <==> exists i :: 0 <= i < |batch| && QuotedReply(batch[i]).Some?)
      case Some(LogRoute(tier)) => Tier(h) == Some(tier)
      case Some(CallModel(_, _, _, modelTier)) => modelTier == Tier(h)
      case _ => true
  {
    KeptRun(cfg, batch, answers);
    RecordedRun(cfg, batch, answers);
    var t := D.Fold(TheProgram(cfg, batch), answers);
    hide *;
    AskTells(cfg, batch, t, Record(cfg, batch, answers));
  }

  lemma AskTells(cfg: Config, batch: seq<Item>, t: Turn, h: seq<(Request, Answer)>)
    requires Kept(t, h) && Recorded(cfg, batch, t, h)
    ensures match Ask(cfg, batch, t)
      case Some(Classify(_, _, _, _, recent)) => LastSix(LoadedFrom(h), recent)
      case Some(RouteTurn(earlier, latest, _, hasQuote)) =>
        && earlier == LoadedFrom(h) && (exists at :: PicksUtterances(batch, latest, at))
        && (hasQuote <==> exists i :: 0 <= i < |batch| && QuotedReply(batch[i]).Some?)
      case Some(LogRoute(tier)) => Tier(h) == Some(tier)
      case Some(CallModel(_, _, _, modelTier)) => modelTier == Tier(h)
      case _ => true
  {
    hide Holds, LastSix, PicksUtterances, Utterances, Prior, Recent, LoadedFrom, Tier, PromptsKept, Speaker;
    if !t.pc.Loading? && !t.pc.Threw? { PriorIsLoaded(batch, h, Said(cfg, t, h), t); }
    var at := UtterancesPick(batch);
  }

  lemma PriorIsLoaded(batch: seq<Item>, h: seq<(Request, Answer)>, prompts: seq<Message>, t: Turn)
    requires Holds(batch, h, prompts, t.msgs) && t.priorCount == |LoadedFrom(h)|
    ensures Prior(t) == LoadedFrom(h) && LastSix(LoadedFrom(h), Recent(t))
  {
    hide Only, LoadedFrom, Results, Replies, UpdatesTold, ModelMessages;
    var loaded := LoadedFrom(h);
    assert loaded <= loaded + ModelMessages(batch) <= t.msgs;
    assert t.msgs[..|loaded|] == loaded;
    assert loaded[0..] == loaded;
  }

  /** The list is the batch's utterances, each with its sender, at these places in order. */
  predicate PicksUtterances(batch: seq<Item>, latest: seq<(string, string)>, at: seq<nat>) {
    && |at| == |latest|
    && (forall n :: 0 <= n < |at| ==>
          at[n] < |batch| && batch[at[n]].payload.text == Some(latest[n].1) && batch[at[n]].senderId == latest[n].0)
    && (forall n :: 0 < n < |at| ==> at[n - 1] < at[n])
    && (forall i :: 0 <= i < |batch| && batch[i].payload.text.Some? ==> i in at)
  }

  lemma {:induction false} UtterancesPick(batch: seq<Item>) returns (at: seq<nat>)
    ensures PicksUtterances(batch, Utterances(batch), at)
    decreases |batch|
  {
    at := [];
    if batch != [] {
      var n := |batch| - 1;
      at := UtterancesPick(batch[..n]);
      assert batch == batch[..n] + [batch[n]];
      OneMoreItem(batch[..n], Utterances(batch[..n]), at, batch[n]);
      if MessageText(batch[n]).Some? { at := at + [n]; }
      hide PicksUtterances;
    }
  }

  lemma OneMoreItem(batch: seq<Item>, latest: seq<(string, string)>, at: seq<nat>, item: Item)
    requires PicksUtterances(batch, latest, at)
    ensures item.payload.text.Some? ==> PicksUtterances(batch + [item], latest + [(item.senderId, item.payload.text.value)], at + [|batch|])
    ensures item.payload.text.None? ==> PicksUtterances(batch + [item], latest, at)
  {
    var all := batch + [item];
    assert all[|batch|] == item;
    forall i | 0 <= i < |batch| && batch[i].payload.text.Some? ensures i in at + [|batch|] { assert i in at; }
    assert (at + [|batch|])[|at|] == |batch|;
  }
}
