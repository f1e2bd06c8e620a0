/**
 Durable workflows in general.  A workflow is a deterministic program that asks
 for steps and goes on with their answers.  A finished step's answer is journaled;
 a crash loses the program's memory, and recovery runs the program again from its
 start over the journal.  A transactional step commits its write together with its
 journal entry; a plain step's effect may happen and then be lost by a crash.
 */
module Durable {
  import opened Prelude

  datatype Program<!P, !R, !A> = Program(start: P, request: P -> Option<R>, next: (P, A) -> P,
                                     transactional: R -> bool, commits: A -> bool)

  /**
   A transaction whose answer does not commit (it threw) rolls its write back.
   `memory` is the running program and how much of the journal it has replayed;
   `writes` are the committed transactional requests, `effects` the plain requests
   carried out, in order.
   */
  datatype System<P, R, A> = System(memory: Option<(P, nat)>, journal: seq<A>, writes: seq<R>, effects: seq<R>)

  datatype Label<A> = Attempt | Finish(answer: A) | Crash | Restart | ReplayOne

  function Fold<P, R, A>(g: Program<P, R, A>, answers: seq<A>): P
    decreases |answers|
  {
    if answers == [] then g.start
    else g.next(Fold(g, answers[..|answers| - 1]), answers[|answers| - 1])
  }

  /** The program is up and has replayed its whole journal, and asks for a step. */
  predicate Live<P, R, A>(g: Program<P, R, A>, s: System<P, R, A>) {
    s.memory.Some? && s.memory.value.1 == |s.journal| && g.request(s.memory.value.0).Some?
  }

  function Next<P, R, A>(g: Program<P, R, A>, s: System<P, R, A>, l: Label<A>): System<P, R, A> {
    match l
    case Attempt =>
      if Live(g, s) && !g.transactional(g.request(s.memory.value.0).value)
      then s.(effects := s.effects + [g.request(s.memory.value.0).value]) else s
    case Finish(a) =>
      if Live(g, s) then
        var p := s.memory.value.0;
        var r := g.request(p).value;
        var s1 := s.(memory := Some((g.next(p, a), |s.journal| + 1)), journal := s.journal + [a]);
        if !g.transactional(r) then s1.(effects := s.effects + [r])
        else if g.commits(a) then s1.(writes := s.writes + [r]) else s1
      else s
    case Crash => s.(memory := None)
    case Restart => if s.memory.None? then s.(memory := Some((g.start, 0))) else s
    case ReplayOne =>
      if s.memory.Some? && s.memory.value.1 < |s.journal|
      then s.(memory := Some((g.next(s.memory.value.0, s.journal[s.memory.value.1]), s.memory.value.1 + 1))) else s
  }

  function Begin<P, R, A>(g: Program<P, R, A>): System<P, R, A> {
    System(Some((g.start, 0)), [], [], [])
  }

  function Run<P, R, A>(g: Program<P, R, A>, s: System<P, R, A>, labels: seq<Label<A>>): System<P, R, A>
    decreases |labels|
  {
    if labels == [] then s else Run(g, Next(g, s, labels[0]), labels[1..])
  }

  /** The run in which every step finishes at its first attempt and nothing crashes. */
  function Straight<P, R, A>(g: Program<P, R, A>, answers: seq<A>): System<P, R, A>
    decreases |answers|
  {
    if answers == [] then Begin(g)
    else Next(g, Straight(g, answers[..|answers| - 1]), Finish(answers[|answers| - 1]))
  }

  /**
   `b` repeats the effects of `a` in place: each comes once or more, one after the
   other, in a's order, and after them only re-issues of the pending one may follow.
   */
  predicate Stutters<R(==)>(a: seq<R>, b: seq<R>, pending: Option<R>)
    decreases |b|
  {
    if b == [] then a == [] else
      var last, before := b[|b| - 1], b[..|b| - 1];
      || (pending == Some(last) && Stutters(a, before, pending))
      || (a != [] && a[|a| - 1] == last && Stutters(a[..|a| - 1], before, Some(last)))
  }

  /** So nothing foreign is ever issued, and nothing is left out. */
  lemma {:induction false} StutterIsNotForeign<R>(a: seq<R>, b: seq<R>, pending: Option<R>)
    requires Stutters(a, b, pending)
    ensures forall r :: r in b ==> r in a || pending == Some(r)
    ensures forall r :: r in a ==> r in b
    decreases |b|
  {
    if b != [] {
      var last, before := b[|b| - 1], b[..|b| - 1];
      if pending == Some(last) && Stutters(a, before, pending) {
        StutterIsNotForeign(a, before, pending);
      } else {
        StutterIsNotForeign(a[..|a| - 1], before, Some(last));
        assert a == a[..|a| - 1] + [last];
      }
      assert b == before + [last];
    }
  }

  lemma StutterOnce<R>(a: seq<R>, b: seq<R>, r: R, pending: Option<R>)
    requires Stutters(a, b, Some(r))
    ensures Stutters(a + [r], b + [r], pending)
  {
    assert (a + [r])[..|a|] == a && (b + [r])[..|b|] == b;
  }

  lemma StutterAgain<R>(a: seq<R>, b: seq<R>, r: R)
    requires Stutters(a, b, Some(r))
    ensures Stutters(a, b + [r], Some(r))
  {
    assert (b + [r])[..|b|] == b;
  }

  lemma StutterGoesOn<R>(a: seq<R>, b: seq<R>, pending: Option<R>)
    requires Stutters(a, b, None)
    ensures Stutters(a, b, pending)
  {
  }

  /** The plain step the program waits for after these answers, if it waits for one. */
  function PendingEffect<P, R, A>(g: Program<P, R, A>, answers: seq<A>): Option<R> {
    var r := g.request(Fold(g, answers));
    if r.Some? && !g.transactional(r.value) then r else None
  }

  /** How a system with crashes relates to the straight run over the same answers. */
  ghost predicate Refines<P(!new), R(!new), A(!new)>(g: Program<P, R, A>, s: System<P, R, A>) {
    var t := Straight(g, s.journal);
    && t.journal == s.journal && t.memory == Some((Fold(g, s.journal), |s.journal|))
    && s.writes == t.writes && Stutters(t.effects, s.effects, PendingEffect(g, s.journal))
    && (s.memory.Some? ==> s.memory.value.1 <= |s.journal| && s.memory.value.0 == Fold(g, s.journal[..s.memory.value.1]))
  }

  lemma RefinesFinish<P(!new), R(!new), A(!new)>(g: Program<P, R, A>, s: System<P, R, A>, a: A)
    requires Refines(g, s) && Live(g, s)
    ensures Refines(g, Next(g, s, Finish(a)))
  {
    var t := Next(g, s, Finish(a));
    assert s.journal[..|s.journal|] == s.journal;
    assert t.journal[..|s.journal|] == s.journal;
    assert t.journal[..|t.journal|] == t.journal;
    var r := g.request(s.memory.value.0).value;
    var u := Straight(g, s.journal).effects;
    if g.transactional(r) {
      StutterGoesOn(u, s.effects, PendingEffect(g, t.journal));
    } else {
      StutterOnce(u, s.effects, r, PendingEffect(g, t.journal));
    }
    hide Stutters;
  }

  lemma RefinesStep<P(!new), R(!new), A(!new)>(g: Program<P, R, A>, s: System<P, R, A>, l: Label<A>)
    requires Refines(g, s)
    ensures Refines(g, Next(g, s, l))
  {
    hide Stutters;
    var t := Next(g, s, l);
    match l
    case Finish(a) => if Live(g, s) { RefinesFinish(g, s, a); }
    case Attempt =>
      if t != s {
        assert s.journal[..|s.journal|] == s.journal;
        StutterAgain(Straight(g, s.journal).effects, s.effects, g.request(s.memory.value.0).value);
      }
    case ReplayOne =>
      if t != s {
        var k := s.memory.value.1;
        assert s.journal[..k + 1][..k] == s.journal[..k];
      }
    case _ =>
  }

  lemma {:induction false} RefinesRun<P(!new), R(!new), A(!new)>(g: Program<P, R, A>, s: System<P, R, A>, labels: seq<Label<A>>)
    requires Refines(g, s)
    ensures Refines(g, Run(g, s, labels))
    decreases |labels|
  {
    if labels != [] {
      RefinesStep(g, s, labels[0]);
      RefinesRun(g, Next(g, s, labels[0]), labels[1..]);
    }
  }

  /**
   Crash refinement.  Whatever the schedule of attempts, crashes and replays, the
   transactional writes are exactly those of the uninterrupted run over the same
   answers, each once and in its order; the plain effects are the uninterrupted
   run's, each repeated in place, and perhaps the pending one; and a program that is up is where that run's prefix was.
   */
  lemma CrashRefinement<P(!new), R(!new), A(!new)>(g: Program<P, R, A>, labels: seq<Label<A>>)
    ensures var s := Run(g, Begin(g), labels);
      var t := Straight(g, s.journal);
      && s.writes == t.writes && Stutters(t.effects, s.effects, PendingEffect(g, s.journal)) && t.journal == s.journal
      && (s.memory.Some? && s.memory.value.1 == |s.journal| ==> s.memory == t.memory)
      && (s.memory.Some? ==> s.memory.value.1 <= |s.journal| && s.memory.value.0 == Fold(g, s.journal[..s.memory.value.1]))
  {
    RefinesRun(g, Begin(g), labels);
    var s := Run(g, Begin(g), labels);
    assert s.journal[..|s.journal|] == s.journal;
  }

  /** The requests of a straight run, in order. */
  function Requests<P, R, A>(g: Program<P, R, A>, answers: seq<A>): seq<R>
    decreases |answers|
  {
    if answers == [] then []
    else
      var n := |answers| - 1;
      var p := Fold(g, answers[..n]);
      Requests(g, answers[..n]) + if g.request(p).Some? then [g.request(p).value] else []
  }

  /** The requests of a straight run with their answers. */
  function Exchanges<P, R, A>(g: Program<P, R, A>, answers: seq<A>): seq<(R, A)>
    decreases |answers|
  {
    if answers == [] then []
    else
      var n := |answers| - 1;
      var r := g.request(Fold(g, answers[..n]));
      Exchanges(g, answers[..n]) + if r.Some? then [(r.value, answers[n])] else []
  }

  lemma {:induction false} ExchangesAreRequests<P, R, A>(g: Program<P, R, A>, answers: seq<A>)
    ensures |Exchanges(g, answers)| == |Requests(g, answers)|
    ensures forall i :: 0 <= i < |Requests(g, answers)| ==> Exchanges(g, answers)[i].0 == Requests(g, answers)[i]
    decreases |answers|
  {
    if answers != [] { ExchangesAreRequests(g, answers[..|answers| - 1]); }
  }

  /** Those of them that are transactions and committed. */
  function Committed<P, R, A>(g: Program<P, R, A>, answers: seq<A>): seq<R>
    decreases |answers|
  {
    if answers == [] then []
    else
      var n := |answers| - 1;
      var r := g.request(Fold(g, answers[..n]));
      Committed(g, answers[..n])
      + if r.Some? && g.transactional(r.value) && g.commits(answers[n]) then [r.value] else []
  }

  lemma {:induction false} CommittedAreRequests<P, R, A>(g: Program<P, R, A>, answers: seq<A>)
    ensures forall r :: r in Committed(g, answers) ==> r in Requests(g, answers)
    decreases |answers|
  {
    if answers != [] { CommittedAreRequests(g, answers[..|answers| - 1]); }
  }

  /** A straight run that used up its answers is where they lead, and wrote what was committed. */
  lemma {:induction false} StraightWrites<P, R, A>(g: Program<P, R, A>, answers: seq<A>)
    ensures |Straight(g, answers).journal| <= |answers|
    ensures Straight(g, answers).journal == answers ==>
      && Straight(g, answers).memory == Some((Fold(g, answers), |answers|))
      && Straight(g, answers).writes == Committed(g, answers)
    decreases |answers|
  {
    if answers != [] {
      var n := |answers| - 1;
      StraightWrites(g, answers[..n]);
      if Straight(g, answers).journal == answers {
        var before := Straight(g, answers[..n]);
        assert before.journal + [answers[n]] == answers;
        assert before.journal == answers[..n];
      }
    }
  }

  /** A straight run's effects are its plain requests, and its writes are transactions. */
  lemma {:induction false} StraightKinds<P, R, A>(g: Program<P, R, A>, answers: seq<A>)
    ensures forall r :: r in Straight(g, answers).effects ==> !g.transactional(r)
    ensures forall r :: r in Straight(g, answers).writes ==> g.transactional(r)
    decreases |answers|
  {
    if answers != [] { StraightKinds(g, answers[..|answers| - 1]); }
  }

  /** So under every schedule only plain requests are ever issued again, and only transactions are written. */
  lemma OnlyPlainStepsRepeat<P(!new), R(!new), A(!new)>(g: Program<P, R, A>, labels: seq<Label<A>>)
    ensures var s := Run(g, Begin(g), labels);
      && (forall r :: r in s.effects ==> !g.transactional(r)) && (forall r :: r in s.writes ==> g.transactional(r))
  {
    var s := Run(g, Begin(g), labels);
    CrashRefinement(g, labels);
    StraightKinds(g, s.journal);
    StutterIsNotForeign(Straight(g, s.journal).effects, s.effects, PendingEffect(g, s.journal));
    hide Run, Straight, Stutters;
  }

  /** Replaying from k leads to the journal's end without asking for anything. */
  lemma {:induction false} ReplaysOut<P(!new), R(!new), A(!new)>(g: Program<P, R, A>, s: System<P, R, A>) returns (labels: seq<Label<A>>)
    requires s.memory.Some? && s.memory.value.1 <= |s.journal| && s.memory.value.0 == Fold(g, s.journal[..s.memory.value.1])
    ensures Run(g, s, labels) == s.(memory := Some((Fold(g, s.journal), |s.journal|)))
    decreases |s.journal| - s.memory.value.1
  {
    var k := s.memory.value.1;
    if k == |s.journal| {
      labels := [];
      assert s.journal[..k] == s.journal;
    } else {
      var t := Next(g, s, ReplayOne);
      assert s.journal[..k + 1][..k] == s.journal[..k];
      var rest := ReplaysOut(g, t);
      labels := [ReplayOne] + rest;
      assert labels[1..] == rest;
    }
  }

  /**
   Recovery always works: from wherever a schedule left it, a crashed or lagging
   workflow can be brought back to where the uninterrupted run is, with nothing
   written, issued or journaled on the way.
   */
  lemma Recovers<P(!new), R(!new), A(!new)>(g: Program<P, R, A>, labels: seq<Label<A>>) returns (more: seq<Label<A>>)
    ensures var s := Run(g, Begin(g), labels);
      Run(g, s, more) == s.(memory := Some((Fold(g, s.journal), |s.journal|)))
  {
    var s := Run(g, Begin(g), labels);
    RefinesRun(g, Begin(g), labels);
    if s.memory.Some? {
      more := ReplaysOut(g, s);
    } else {
      var t := Next(g, s, Restart);
      assert s.journal[..0] == [];
      var rest := ReplaysOut(g, t);
      more := [Restart] + rest;
      assert more[1..] == rest;
      hide Fold, Refines;
    }
  }
}
