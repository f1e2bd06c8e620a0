/** What a refinement merges, argument by argument, and what an action's call is after a whole run of them. */
module ApprovalRefine {
  import opened Prelude
  import opened Approvals
  import opened ApprovalSafety

  /** The value is an object with that field. */
  predicate HasField(v: Json, k: string) {
    v.Object? && k in v.fields
  }

  /** The patch over the arguments: the fields of both, and where both have one, the patch's. */
  ghost predicate Merges(args: Json, patch: Json, merged: Json) {
    && merged.Object?
    && (forall k :: k in merged.fields <==> HasField(args, k) || HasField(patch, k))
    && (forall k :: HasField(patch, k) ==> k in merged.fields && merged.fields[k] == patch.fields[k])
    && (forall k :: HasField(args, k) && !HasField(patch, k) ==> k in merged.fields && merged.fields[k] == args.fields[k])
  }

  /** There is only one merge. */
  lemma MergeIsOne(args: Json, patch: Json, a: Json, b: Json)
    requires Merges(args, patch, a) && Merges(args, patch, b)
    ensures a == b
  {
    forall k ensures k in a.fields <==> k in b.fields { }
    forall k | k in a.fields ensures a.fields[k] == b.fields[k] {
      assert HasField(args, k) || HasField(patch, k);
    }
    assert a.fields == b.fields;
  }

  /** The tool accepts the merged arguments as `parsed`. */
  ghost predicate Accepts(cfg: Config, name: string, args: Json, patch: Json, parsed: CalendarArgs) {
    exists merged :: Merges(args, patch, merged) && cfg.parse(name, merged) == Some(parsed)
  }

  /**
   A refinement by the patch makes `next` of the call: the same tool-use id and tool,
   and the arguments the tool read from the merge; None when there is no call to refine
   or the tool refuses the merge.
   */
  ghost predicate Patched(cfg: Config, call: StoredCall, patch: Json, next: Option<StoredCall>) {
    match next
    case None => call.Garbled? || forall parsed :: !Accepts(cfg, call.name, call.args, patch, parsed)
    case Some(new') =>
      && call.Call? && new'.Call? && new'.toolUseId == call.toolUseId && new'.name == call.name
      && exists parsed :: Accepts(cfg, call.name, call.args, patch, parsed) && new'.args == cfg.toJson(parsed)
  }

  /** A patch makes one thing of a call. */
  lemma PatchedIsOne(cfg: Config, call: StoredCall, patch: Json, a: Option<StoredCall>, b: Option<StoredCall>)
    requires Patched(cfg, call, patch, a) && Patched(cfg, call, patch, b)
    ensures a == b
  {
    if a.Some? && b.Some? {
      var p :| Accepts(cfg, call.name, call.args, patch, p) && a.value.args == cfg.toJson(p);
      var q :| Accepts(cfg, call.name, call.args, patch, q) && b.value.args == cfg.toJson(q);
      var m :| Merges(call.args, patch, m) && cfg.parse(call.name, m) == Some(p);
      var n :| Merges(call.args, patch, n) && cfg.parse(call.name, n) == Some(q);
      MergeIsOne(call.args, patch, m, n);
    }
  }

  /** The protocol's refined call is the patched one. */
  lemma RefinedCallPatches(cfg: Config, call: StoredCall, patch: Json)
    ensures Patched(cfg, call, patch, RefinedCall(cfg, call, patch))
  {
    if call.Call? {
      var merged := Object(AsRecord(call.args) + AsRecord(patch));
      assert Merges(call.args, patch, merged);
      match cfg.parse(call.name, merged)
      case Some(parsed) => assert Accepts(cfg, call.name, call.args, patch, parsed);
      case None =>
        forall parsed ensures !Accepts(cfg, call.name, call.args, patch, parsed) {
          if Accepts(cfg, call.name, call.args, patch, parsed) {
            var m :| Merges(call.args, patch, m) && cfg.parse(call.name, m) == Some(parsed);
            MergeIsOne(call.args, patch, m, merged);
          }
        }
    }
  }

  // ----- Over whole runs -----

  /** The step is the commit of a refinement of this action by this patch: the row is pending and the tool accepts the merge. */
  ghost predicate Commits(cfg: Config, s: State, l: Label, id: ActionId) {
    && l.Refine? && l.o in s.ops && s.ops[l.o].Refining? && s.ops[l.o].id == id
    && id in s.rows && !Locked(s, id) && s.rows[id].status.Pending?
    && s.rows[id].call.Call?
    && exists parsed :: Accepts(cfg, s.rows[id].call.name, s.rows[id].call.args, s.ops[l.o].patch, parsed)
  }

  lemma OthersKeepCall(cfg: Config, s: State, l: Label, id: ActionId)
    requires id in s.rows && !(l.Refine? && l.o in s.ops && s.ops[l.o].Refining? && s.ops[l.o].id == id)
    requires l.Commit? && l.o in s.ops ==> OpOk(cfg, s.rows, s.events, s.ops[l.o])
    ensures id in Next(cfg, s, l).rows && Next(cfg, s, l).rows[id].call == s.rows[id].call
  {
    hide Locked, LaneFree, Unstamped, RefinedCall, OnCalendar, Create;
  }

  /** What a commit does to the row: the patched call, no stamp, nothing else. */
  lemma CommitPatches(cfg: Config, s: State, l: Label, id: ActionId)
    requires cfg.serial && Safe(cfg, s) && Bound(cfg, s) && id in s.rows
    ensures var t := Next(cfg, s, l);
      && id in t.rows
      && (Commits(cfg, s, l, id) ==>
            && Patched(cfg, s.rows[id].call, s.ops[l.o].patch, Some(t.rows[id].call))
            && t.rows[id] == s.rows[id].(call := t.rows[id].call, prompt := None))
      && (!Commits(cfg, s, l, id) ==> t.rows[id].call == s.rows[id].call)
  {
    if l.Commit? && l.o in s.ops { OpIsOk(cfg, s, l.o); }
    if l.Refine? && l.o in s.ops && s.ops[l.o].Refining? && s.ops[l.o].id == id {
      RefineStep(cfg, s, l.o);
    } else {
      hide Safe, Bound;
      OthersKeepCall(cfg, s, l, id);
    }
  }

  lemma RefineStep(cfg: Config, s: State, o: OpId)
    requires FreshOps(s) && o in s.ops && s.ops[o].Refining? && s.ops[o].id in s.rows
    ensures var id, t := s.ops[o].id, DoRefine(cfg, s, o);
      && id in t.rows
      && (Commits(cfg, s, Refine(o), id) ==>
            && Patched(cfg, s.rows[id].call, s.ops[o].patch, Some(t.rows[id].call))
            && t.rows[id] == s.rows[id].(call := t.rows[id].call, prompt := None))
      && (!Commits(cfg, s, Refine(o), id) ==> t.rows[id].call == s.rows[id].call)
  {
    assert FreshOp(s.rows, s.shown, s.ops[o]);
    RefinedCallPatches(cfg, s.ops[o].snap.call, s.ops[o].patch);
    hide RefinedCall, Accepts, Locked;
  }

  /** The patches committed to an action, in their order. */
  ghost function Patches(cfg: Config, s: State, labels: seq<Label>, id: ActionId): seq<Json>
    decreases |labels|
  {
    if labels == [] then []
    else
      (if Commits(cfg, s, labels[0], id) then [s.ops[labels[0].o].patch] else [])
      + Patches(cfg, Next(cfg, s, labels[0]), labels[1..], id)
  }

  /** The patches lead from one call to the other, each over what the one before it made. */
  ghost predicate Leads(cfg: Config, first: StoredCall, patches: seq<Json>, last: StoredCall)
    decreases |patches|
  {
    if patches == [] then last == first
    else exists mid :: Patched(cfg, first, patches[0], Some(mid)) && Leads(cfg, mid, patches[1..], last)
  }

  /**
   With the serial lane, from any state a run can reach and over any further run: an
   action's call is the call it had with the committed patches merged in, one over
   the other, and nothing else ever changes it.
   */
  lemma {:induction false} CallIsPatched(cfg: Config, s: State, labels: seq<Label>, id: ActionId)
    requires cfg.serial && Safe(cfg, s) && Bound(cfg, s) && id in s.rows
    ensures id in Run(cfg, s, labels).rows
    ensures Leads(cfg, s.rows[id].call, Patches(cfg, s, labels, id), Run(cfg, s, labels).rows[id].call)
    decreases |labels|
  {
    if labels != [] {
      var l, t := labels[0], Next(cfg, s, labels[0]);
      SafeStep(cfg, s, l);
      BoundStep(cfg, s, l);
      CommitPatches(cfg, s, l, id);
      CallIsPatched(cfg, t, labels[1..], id);
      hide Next, Safe, Bound, Commits, Patched;
      var rest := Patches(cfg, t, labels[1..], id);
      if Commits(cfg, s, l, id) {
        assert ([s.ops[l.o].patch] + rest)[1..] == rest;
      } else {
        assert [] + rest == rest;
      }
    }
  }

  /** The same from the start: what a parked call became is its patches, in commit order, over the parked arguments. */
  lemma ParkedCallIsPatched(cfg: Config, before: seq<Label>, id: ActionId, c: ConversationId, call: StoredCall, x: int, labels: seq<Label>)
    requires cfg.serial && id !in Run(cfg, Initial, before).rows
    ensures var s := Run(cfg, Initial, before);
      var parked := Next(cfg, s, Park(id, c, call, x));
      var t := Run(cfg, parked, labels);
      id in t.rows && Leads(cfg, call, Patches(cfg, parked, labels, id), t.rows[id].call)
  {
    var s := Run(cfg, Initial, before);
    BoundRun(cfg, Initial, before);
    SafeStep(cfg, s, Park(id, c, call, x));
    BoundStep(cfg, s, Park(id, c, call, x));
    CallIsPatched(cfg, Next(cfg, s, Park(id, c, call, x)), labels, id);
  }
}
