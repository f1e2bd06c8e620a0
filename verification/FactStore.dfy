/** The fact rows and `set_fact`, whose guard keeps near-duplicate keys out. */
module FactStore {
  import opened Prelude
  import opened Facts

  /** The pieces of a key between dashes. */
  function Pieces(s: string, current: string): seq<string>
    decreases |s|
  {
    if s == "" then [current]
    else if s[0] == '-' then [current] + Pieces(s[1..], "")
    else Pieces(s[1..], current + [s[0]])
  }

  /** The words of a key or query, in normalised form. */
  function FactTerms(al: Alphabet, raw: string): set<string> {
    set t | t in Pieces(NormalizeFactKey(al, raw), "") && t != ""
  }

  ghost predicate Contains(s: string, t: string) {
    exists i: nat, j: nat :: i <= j <= |s| && s[i..j] == t
  }

  lemma {:induction false} PiecesAreInside(whole: string, done: nat, current: string, t: string)
    requires done <= |whole| && |current| <= done && whole[done - |current|..done] == current
    requires t in Pieces(whole[done..], current)
    ensures Contains(whole, t)
    decreases |whole| - done
  {
    var rest := whole[done..];
    if rest == "" {
      assert whole[done - |current|..done] == t;
    } else {
      assert rest[1..] == whole[done + 1..];
      if rest[0] == '-' {
        if t == current {
          assert whole[done - |current|..done] == t;
        } else {
          PiecesAreInside(whole, done + 1, "", t);
        }
      } else {
        assert whole[done - |current|..done + 1] == current + [rest[0]];
        PiecesAreInside(whole, done + 1, current + [rest[0]], t);
      }
    }
  }

  /** Every term of a normalised key stands in the key. */
  lemma TermIsInside(al: Alphabet, key: string, t: string)
    requires NormalizeFactKey(al, key) == key && t in FactTerms(al, key)
    ensures Contains(key, t)
  {
    assert key[0..] == key && key[0..0] == "";
    PiecesAreInside(key, 0, "", t);
  }

  // ----- The rows -----

  datatype Fact = Fact(key: string, value: string)

  /** `like` is the database's case-insensitive substring match; it finds at least every plain substring. */
  datatype Config = Config(al: Alphabet, like: (string, string) -> bool)

  ghost predicate Sound(cfg: Config) {
    Laws(cfg.al) && forall s: string, t: string :: Contains(s, t) ==> cfg.like(s, t)
  }

  const SEARCH_CANDIDATES := 50

  predicate Matches(cfg: Config, key: string, terms: set<string>) {
    exists t :: t in terms && cfg.like(key, t)
  }

  /** The rows whose key matches some term, newest first. */
  function Matching(cfg: Config, rows: seq<Fact>, terms: set<string>): seq<Fact> {
    if rows == [] then []
    else (if Matches(cfg, rows[0].key, terms) then [rows[0]] else []) + Matching(cfg, rows[1..], terms)
  }

  /** The query: no terms, no rows; otherwise the newest matching rows up to the limit. */
  function SearchFacts(cfg: Config, rows: seq<Fact>, terms: set<string>, limit: nat): seq<Fact> {
    var all := Matching(cfg, rows, terms);
    if |terms| == 0 then [] else if |all| <= limit then all else all[..limit]
  }

  /** One key's words contain the other's. */
  predicate Similar(cfg: Config, a: string, b: string) {
    FactTerms(cfg.al, a) <= FactTerms(cfg.al, b) || FactTerms(cfg.al, b) <= FactTerms(cfg.al, a)
  }

  function SimilarKeys(cfg: Config, candidates: seq<Fact>, key: string): seq<string> {
    if candidates == [] then []
    else (if Similar(cfg, key, candidates[0].key) then [candidates[0].key] else []) + SimilarKeys(cfg, candidates[1..], key)
  }

  function Without(rows: seq<Fact>, key: string): seq<Fact> {
    if rows == [] then [] else (if rows[0].key == key then [] else [rows[0]]) + Without(rows[1..], key)
  }

  /** Insert, or update; either way the row is now the newest. */
  function Upsert(rows: seq<Fact>, key: string, value: string): seq<Fact> {
    [Fact(key, value)] + Without(rows, key)
  }

  ghost predicate HasKey(rows: seq<Fact>, key: string) {
    exists i :: 0 <= i < |rows| && rows[i].key == key
  }

  datatype SetFact = SetFact(key: string, value: string, distinct: bool)

  datatype Answer = Recorded(key: string) | Refused(similar: seq<string>)

  /** What `set_fact` does to the rows, and what it answers. */
  ghost function Effect(cfg: Config, rows: seq<Fact>, call: SetFact): (seq<Fact>, Answer) {
    var key := NormalizeFactKey(cfg.al, call.key);
    var similar := SimilarKeys(cfg, SearchFacts(cfg, rows, FactTerms(cfg.al, key), SEARCH_CANDIDATES), key);
    if !call.distinct && !HasKey(rows, key) && similar != [] then (rows, Refused(similar))
    else (Upsert(rows, key, call.value), Recorded(key))
  }

  class FactTable {
    var rows: seq<Fact>

    method GetFact(key: string) returns (found: Option<Fact>)
      ensures found.Some? <==> HasKey(rows, key)
      ensures found.Some? ==> found.value in rows && found.value.key == key
    {
      for i := 0 to |rows|
        invariant forall k :: 0 <= k < i ==> rows[k].key != key
      {
        if rows[i].key == key { return Some(rows[i]); }
      }
      return None;
    }

    method UpsertFact(key: string, value: string)
      modifies this
      ensures rows == Upsert(old(rows), key, value)
    {
      rows := Upsert(rows, key, value);
    }
  }

  /** Picks rows of a list in its order: `at` says which. */
  predicate Picks(found: seq<Fact>, keys: seq<string>, at: seq<nat>) {
    && |at| == |keys|
    && (forall n :: 0 <= n < |at| ==> at[n] < |found| && keys[n] == found[at[n]].key)
    && (forall n :: 0 < n < |at| ==> at[n - 1] < at[n])
  }

  function Shifted(at: seq<nat>): seq<nat> {
    seq(|at|, n requires 0 <= n < |at| => at[n] + 1)
  }

  lemma ShiftedHas(at: seq<nat>, i: int)
    ensures i in Shifted(at) <==> i - 1 in at
  {
    var s := Shifted(at);
    if i in s {
      var n :| 0 <= n < |s| && s[n] == i;
      assert at[n] == i - 1;
    }
    if i - 1 in at {
      var n :| 0 <= n < |at| && at[n] == i - 1;
      assert s[n] == i;
    }
  }

  lemma {:induction false} SimilarKeysPick(cfg: Config, found: seq<Fact>, key: string) returns (at: seq<nat>)
    ensures Picks(found, SimilarKeys(cfg, found, key), at)
    ensures forall i :: i in at <==> 0 <= i < |found| && Similar(cfg, key, found[i].key)
  {
    hide Similar;
    at := [];
    if found != [] {
      var rest := SimilarKeysPick(cfg, found[1..], key);
      at := (if Similar(cfg, key, found[0].key) then [0] else []) + Shifted(rest);
      forall i ensures i in at <==> 0 <= i < |found| && Similar(cfg, key, found[i].key) {
        ShiftedHas(rest, i);
        assert 0 < i < |found| ==> found[i] == found[1..][i - 1];
        assert i in at <==> i in Shifted(rest) || (i == 0 && Similar(cfg, key, found[0].key));
      }
    }
  }

  /** The stored keys similar to the key among the newest matches: all of them, newest first, and no other. */
  method SimilarFactKeys(cfg: Config, db: FactTable, key: string) returns (similar: seq<string>, ghost at: seq<nat>)
    ensures var found := SearchFacts(cfg, db.rows, FactTerms(cfg.al, key), SEARCH_CANDIDATES);
      && Picks(found, similar, at)
      && (forall i :: i in at <==> 0 <= i < |found| && Similar(cfg, key, found[i].key))
      && (forall k :: k in similar <==> exists i :: 0 <= i < |found| && found[i].key == k && Similar(cfg, key, k))
    ensures similar == SimilarKeys(cfg, SearchFacts(cfg, db.rows, FactTerms(cfg.al, key), SEARCH_CANDIDATES), key)
  {
    hide Similar, SearchFacts;
    var candidates := SearchFacts(cfg, db.rows, FactTerms(cfg.al, key), SEARCH_CANDIDATES);
    similar := SimilarKeys(cfg, candidates, key);
    at := SimilarKeysPick(cfg, candidates, key);
    forall k ensures k in similar <==> exists i :: 0 <= i < |candidates| && candidates[i].key == k && Similar(cfg, key, k) {
      if k in similar {
        var n :| 0 <= n < |similar| && similar[n] == k;
        assert at[n] in at && candidates[at[n]].key == k;
      }
      if i :| 0 <= i < |candidates| && candidates[i].key == k && Similar(cfg, key, k) {
        assert i in at;
        var n :| 0 <= n < |at| && at[n] == i;
        assert similar[n] == k;
      }
    }
  }

  method ExecuteSetFact(cfg: Config, db: FactTable, call: SetFact) returns (answer: Answer)
    modifies db
    ensures (db.rows, answer) == Effect(cfg, old(db.rows), call)
  {
    var key := NormalizeFactKey(cfg.al, call.key);
    if !call.distinct {
      var stored := db.GetFact(key);
      if stored.None? {
        var similar, _ := SimilarFactKeys(cfg, db, key);
        if |similar| > 0 { return Refused(similar); }
      }
    }
    db.UpsertFact(key, call.value);
    return Recorded(key);
  }

  /** The call meets a stored key that is similar to its own among the newest matches, and does not ask past it. */
  ghost predicate Held(cfg: Config, rows: seq<Fact>, call: SetFact) {
    var key := NormalizeFactKey(cfg.al, call.key);
    var found := SearchFacts(cfg, rows, FactTerms(cfg.al, key), SEARCH_CANDIDATES);
    && !call.distinct && (forall f: Fact :: f in rows ==> f.key != key)
    && exists i :: 0 <= i < |found|
         && (FactTerms(cfg.al, key) <= FactTerms(cfg.al, found[i].key) || FactTerms(cfg.al, found[i].key) <= FactTerms(cfg.al, key))
  }

  /**
   A call is refused exactly when it is held, and then changes nothing; otherwise its
   key now has its value, once and as the newest row, and every other row is as it was.
   */
  lemma RecordedIsStored(cfg: Config, rows: seq<Fact>, call: SetFact)
    ensures var key := NormalizeFactKey(cfg.al, call.key);
      var (after, answer) := Effect(cfg, rows, call);
      && (answer.Refused? <==> Held(cfg, rows, call)) && (answer.Refused? ==> after == rows)
      && (answer.Recorded? ==>
            && answer.key == key && after != [] && after[0] == Fact(key, call.value)
            && (forall i :: 0 < i < |after| ==> after[i].key != key)
            && (forall f: Fact :: f.key != key ==> (f in after <==> f in rows)))
  {
    var key := NormalizeFactKey(cfg.al, call.key);
    var found := SearchFacts(cfg, rows, FactTerms(cfg.al, key), SEARCH_CANDIDATES);
    NoSimilarKeys(cfg, found, key);
    WithoutKeeps(rows, key);
    hide SearchFacts, Without, FactTerms, NormalizeFactKey, SimilarKeys;
    if forall f: Fact :: f in rows ==> f.key != key {
      assert !HasKey(rows, key);
    } else {
      var f: Fact :| f in rows && f.key == key;
      var i :| 0 <= i < |rows| && rows[i] == f;
      assert HasKey(rows, key);
    }
  }

  lemma {:induction false} WithoutKeeps(rows: seq<Fact>, key: string)
    ensures forall f: Fact :: f in Without(rows, key) <==> f in rows && f.key != key
    ensures forall i :: 0 <= i < |Without(rows, key)| ==> Without(rows, key)[i].key != key
  {
    if rows != [] { WithoutKeeps(rows[1..], key); }
  }

  // ----- The guard -----

  /** Stored keys are normalised, have words, and none's words contain another's. */
  ghost predicate Antichain(cfg: Config, rows: seq<Fact>) {
    && (forall i :: 0 <= i < |rows| ==> NormalizeFactKey(cfg.al, rows[i].key) == rows[i].key && FactTerms(cfg.al, rows[i].key) != {})
    && (forall i, j :: 0 <= i < j < |rows| ==> !Similar(cfg, rows[i].key, rows[j].key))
  }

  lemma {:induction false} WithoutIsSub(rows: seq<Fact>, key: string)
    ensures forall f :: f in Without(rows, key) ==> f in rows && f.key != key
  {
    if rows != [] { WithoutIsSub(rows[1..], key); }
  }

  lemma {:induction false} WithoutAbsent(rows: seq<Fact>, key: string)
    requires forall i :: 0 <= i < |rows| ==> rows[i].key != key
    ensures Without(rows, key) == rows
  {
    if rows != [] {
      WithoutAbsent(rows[1..], key);
      assert rows == [rows[0]] + rows[1..];
    }
  }

  lemma TailKeepsApart(cfg: Config, rows: seq<Fact>)
    requires rows != [] && Antichain(cfg, rows)
    ensures Antichain(cfg, rows[1..]) && forall f :: f in rows[1..] ==> !Similar(cfg, rows[0].key, f.key)
  {
    hide Similar, FactTerms, NormalizeFactKey;
    var rest := rows[1..];
    forall i, j | 0 <= i < j < |rest| ensures !Similar(cfg, rest[i].key, rest[j].key) {
      assert !Similar(cfg, rows[i + 1].key, rows[j + 1].key);
    }
    forall f | f in rest ensures !Similar(cfg, rows[0].key, f.key) {
      var i :| 0 <= i < |rest| && rest[i] == f;
      assert !Similar(cfg, rows[0].key, rows[i + 1].key);
    }
  }

  lemma {:induction false} WithoutKeepsApart(cfg: Config, rows: seq<Fact>, key: string)
    requires Antichain(cfg, rows)
    ensures Antichain(cfg, Without(rows, key))
  {
    hide Similar, FactTerms, NormalizeFactKey;
    if rows != [] {
      TailKeepsApart(cfg, rows);
      WithoutKeepsApart(cfg, rows[1..], key);
      WithoutIsSub(rows[1..], key);
      Prepend(cfg, rows[0], Without(rows[1..], key));
      assert [] + Without(rows[1..], key) == Without(rows[1..], key);
    }
  }

  /** Different rows of an antichain are not similar, either way round. */
  lemma ApartFrom(cfg: Config, rows: seq<Fact>, a: Fact, b: Fact)
    requires Antichain(cfg, rows) && a in rows && b in rows && a.key != b.key
    ensures !Similar(cfg, a.key, b.key)
  {
    var i :| 0 <= i < |rows| && rows[i] == a;
    var j :| 0 <= j < |rows| && rows[j] == b;
    assert Similar(cfg, a.key, b.key) == Similar(cfg, b.key, a.key);
    assert i < j || j < i;
  }

  lemma Prepend(cfg: Config, f: Fact, rows: seq<Fact>)
    requires Antichain(cfg, rows) && NormalizeFactKey(cfg.al, f.key) == f.key && FactTerms(cfg.al, f.key) != {}
    requires forall i :: 0 <= i < |rows| ==> !Similar(cfg, f.key, rows[i].key)
    ensures Antichain(cfg, [f] + rows)
  {
    var all := [f] + rows;
    assert forall i :: 0 < i < |all| ==> all[i] == rows[i - 1];
  }

  lemma {:induction false} NoSimilarKeys(cfg: Config, candidates: seq<Fact>, key: string)
    ensures SimilarKeys(cfg, candidates, key) == [] <==> forall i :: 0 <= i < |candidates| ==> !Similar(cfg, key, candidates[i].key)
  {
    if candidates != [] {
      NoSimilarKeys(cfg, candidates[1..], key);
      assert forall i :: 0 < i < |candidates| ==> candidates[i] == candidates[1..][i - 1];
    }
  }

  lemma {:induction false} MatchingFinds(cfg: Config, rows: seq<Fact>, terms: set<string>, i: nat)
    requires i < |rows| && Matches(cfg, rows[i].key, terms)
    ensures rows[i] in Matching(cfg, rows, terms)
  {
    if i > 0 { MatchingFinds(cfg, rows[1..], terms, i - 1); }
  }

  /** A stored key similar to the new one shares a word with it, so the search's pattern matches it. */
  lemma SimilarMatches(cfg: Config, stored: string, key: string)
    requires Sound(cfg) && NormalizeFactKey(cfg.al, stored) == stored
    requires FactTerms(cfg.al, stored) != {} && FactTerms(cfg.al, key) != {} && Similar(cfg, key, stored)
    ensures Matches(cfg, stored, FactTerms(cfg.al, key))
  {
    var t :| t in FactTerms(cfg.al, stored) && t in FactTerms(cfg.al, key);
    TermIsInside(cfg.al, stored, t);
  }

  /** Where the limit does not cut, no similar key escapes the search. */
  lemma GuardSees(cfg: Config, rows: seq<Fact>, key: string)
    requires Sound(cfg) && Antichain(cfg, rows) && FactTerms(cfg.al, key) != {}
    requires |Matching(cfg, rows, FactTerms(cfg.al, key))| <= SEARCH_CANDIDATES
    requires SimilarKeys(cfg, SearchFacts(cfg, rows, FactTerms(cfg.al, key), SEARCH_CANDIDATES), key) == []
    ensures forall i :: 0 <= i < |rows| ==> !Similar(cfg, key, rows[i].key)
  {
    var terms := FactTerms(cfg.al, key);
    NoSimilarKeys(cfg, Matching(cfg, rows, terms), key);
    forall i | 0 <= i < |rows| ensures !Similar(cfg, key, rows[i].key) {
      if Similar(cfg, key, rows[i].key) {
        SimilarMatches(cfg, rows[i].key, key);
        MatchingFinds(cfg, rows, terms, i);
        assert false;
      }
    }
  }

  /** The call's key has a word and is not forced in. */
  predicate Guarded(cfg: Config, call: SetFact) {
    !call.distinct && FactTerms(cfg.al, NormalizeFactKey(cfg.al, call.key)) != {}
  }

  /** At most as many rows match the key's words as the search returns. */
  predicate Searchable(cfg: Config, rows: seq<Fact>, call: SetFact) {
    |Matching(cfg, rows, FactTerms(cfg.al, NormalizeFactKey(cfg.al, call.key)))| <= SEARCH_CANDIDATES
  }

  lemma SetFactStep(cfg: Config, rows: seq<Fact>, call: SetFact)
    requires Sound(cfg) && Antichain(cfg, rows) && Guarded(cfg, call) && Searchable(cfg, rows, call)
    ensures Antichain(cfg, Effect(cfg, rows, call).0)
  {
    var key := NormalizeFactKey(cfg.al, call.key);
    NormalizeIsIdempotent(cfg.al, call.key);
    var w := Without(rows, key);
    WithoutKeepsApart(cfg, rows, key);
    WithoutIsSub(rows, key);
    if !HasKey(rows, key) { WithoutAbsent(rows, key); }
    hide Similar;
    if HasKey(rows, key) {
      var k :| 0 <= k < |rows| && rows[k].key == key;
      forall i | 0 <= i < |w| ensures !Similar(cfg, key, w[i].key) {
        ApartFrom(cfg, rows, rows[k], w[i]);
      }
      Prepend(cfg, Fact(key, call.value), w);
    } else if SimilarKeys(cfg, SearchFacts(cfg, rows, FactTerms(cfg.al, key), SEARCH_CANDIDATES), key) == [] {
      GuardSees(cfg, rows, key);
      Prepend(cfg, Fact(key, call.value), w);
    }
  }

  ghost function Effects(cfg: Config, rows: seq<Fact>, calls: seq<SetFact>): seq<Fact>
    decreases |calls|
  {
    if calls == [] then rows else Effects(cfg, Effect(cfg, rows, calls[0]).0, calls[1..])
  }

  ghost predicate AllSearchable(cfg: Config, rows: seq<Fact>, calls: seq<SetFact>)
    decreases |calls|
  {
    calls == [] || (Searchable(cfg, rows, calls[0]) && AllSearchable(cfg, Effect(cfg, rows, calls[0]).0, calls[1..]))
  }

  /**
   Over any sequence of guarded `set_fact` calls, none of whose searches the limit
   cuts, no stored key's words ever come to contain another's.
   */
  lemma {:induction false} GuardKeepsApart(cfg: Config, rows: seq<Fact>, calls: seq<SetFact>)
    requires Sound(cfg) && Antichain(cfg, rows) && AllSearchable(cfg, rows, calls)
    requires forall i :: 0 <= i < |calls| ==> Guarded(cfg, calls[i])
    ensures Antichain(cfg, Effects(cfg, rows, calls))
    ensures var after := Effects(cfg, rows, calls);
      forall i, j :: 0 <= i < |after| && 0 <= j < |after| && i != j ==> !(FactTerms(cfg.al, after[i].key) <= FactTerms(cfg.al, after[j].key))
    decreases |calls|
  {
    if calls != [] {
      SetFactStep(cfg, rows, calls[0]);
      GuardKeepsApart(cfg, Effect(cfg, rows, calls[0]).0, calls[1..]);
    }
  }

  lemma {:induction false} MatchingIsStored(cfg: Config, rows: seq<Fact>, terms: set<string>)
    ensures forall f :: f in Matching(cfg, rows, terms) ==> f in rows
  {
    if rows != [] { MatchingIsStored(cfg, rows[1..], terms); }
  }

  /** A stored key is similar exactly when one of the matching rows is. */
  lemma SimilarIsMatching(cfg: Config, rows: seq<Fact>, key: string)
    requires Sound(cfg) && Antichain(cfg, rows) && FactTerms(cfg.al, key) != {}
    ensures var matching := Matching(cfg, rows, FactTerms(cfg.al, key));
      (exists i :: 0 <= i < |rows| && Similar(cfg, key, rows[i].key)) <==>
      (exists i :: 0 <= i < |matching| && Similar(cfg, key, matching[i].key))
  {
    var terms := FactTerms(cfg.al, key);
    var matching := Matching(cfg, rows, terms);
    MatchingIsStored(cfg, rows, terms);
    if i :| 0 <= i < |rows| && Similar(cfg, key, rows[i].key) {
      SimilarMatches(cfg, rows[i].key, key);
      MatchingFinds(cfg, rows, terms, i);
      var k :| 0 <= k < |matching| && matching[k] == rows[i];
      assert Similar(cfg, key, matching[k].key);
    }
    if k :| 0 <= k < |matching| && Similar(cfg, key, matching[k].key) {
      assert matching[k] in rows;
      var i :| 0 <= i < |rows| && rows[i] == matching[k];
      assert Similar(cfg, key, rows[i].key);
    }
  }

  /**
   Exactly when a guarded call of a new key lets a near-duplicate in: when some stored
   key is similar, and every similar one lies beyond the limit among the rows that
   match the key's words, newest first.
   */
  lemma GuardFailsIff(cfg: Config, rows: seq<Fact>, call: SetFact)
    requires Sound(cfg) && Antichain(cfg, rows) && Guarded(cfg, call) && !HasKey(rows, NormalizeFactKey(cfg.al, call.key))
    ensures var key := NormalizeFactKey(cfg.al, call.key);
      var matching := Matching(cfg, rows, FactTerms(cfg.al, key));
      !Antichain(cfg, Effect(cfg, rows, call).0) <==>
        && (exists i :: 0 <= i < |matching| && Similar(cfg, key, matching[i].key))
        && (forall i :: 0 <= i < |matching| && Similar(cfg, key, matching[i].key) ==> i >= SEARCH_CANDIDATES)
  {
    var key := NormalizeFactKey(cfg.al, call.key);
    var matching := Matching(cfg, rows, FactTerms(cfg.al, key));
    var seen := SearchFacts(cfg, rows, FactTerms(cfg.al, key), SEARCH_CANDIDATES);
    assert FactTerms(cfg.al, key) != {};
    NormalizeIsIdempotent(cfg.al, call.key);
    SearchIsPrefix(cfg, rows, FactTerms(cfg.al, key));
    hide *;
    NewKeyIff(cfg, rows, Fact(key, call.value));
    NoSimilarKeys(cfg, seen, key);
    SimilarIsMatching(cfg, rows, key);
    NewKeyEffect(cfg, rows, call);
  }

  lemma SearchIsPrefix(cfg: Config, rows: seq<Fact>, terms: set<string>)
    requires terms != {}
    ensures var matching := Matching(cfg, rows, terms);
      var seen := SearchFacts(cfg, rows, terms, SEARCH_CANDIDATES);
      && |seen| == (if |matching| <= SEARCH_CANDIDATES then |matching| else SEARCH_CANDIDATES)
      && forall i :: 0 <= i < |seen| ==> seen[i] == matching[i]
  {
  }

  /** A guarded call of a new key either changes nothing or puts its row in front. */
  lemma NewKeyEffect(cfg: Config, rows: seq<Fact>, call: SetFact)
    requires Guarded(cfg, call) && !HasKey(rows, NormalizeFactKey(cfg.al, call.key))
    ensures var key := NormalizeFactKey(cfg.al, call.key);
      var seen := SearchFacts(cfg, rows, FactTerms(cfg.al, key), SEARCH_CANDIDATES);
      Effect(cfg, rows, call) ==
        if SimilarKeys(cfg, seen, key) == [] then ([Fact(key, call.value)] + rows, Recorded(key))
        else (rows, Refused(SimilarKeys(cfg, seen, key)))
  {
    WithoutAbsent(rows, NormalizeFactKey(cfg.al, call.key));
  }

  /** A new row keeps the antichain exactly when no stored key is similar to its key. */
  lemma NewKeyIff(cfg: Config, rows: seq<Fact>, f: Fact)
    requires Antichain(cfg, rows) && NormalizeFactKey(cfg.al, f.key) == f.key && FactTerms(cfg.al, f.key) != {}
    ensures Antichain(cfg, [f] + rows) <==> forall i :: 0 <= i < |rows| ==> !Similar(cfg, f.key, rows[i].key)
  {
    hide Similar, FactTerms, NormalizeFactKey;
    var all := [f] + rows;
    if forall i :: 0 <= i < |rows| ==> !Similar(cfg, f.key, rows[i].key) {
      Prepend(cfg, f, rows);
    } else {
      var i :| 0 <= i < |rows| && Similar(cfg, f.key, rows[i].key);
      assert all[0] == f && all[i + 1] == rows[i];
    }
  }

  // ----- A key that gets past the limit -----

  /** The four letters of the example are lower-case letters. */
  predicate Plain(al: Alphabet) {
    forall c :: c in "abcx" ==> al.word(c) && al.lower(c) == [c]
  }

  function Filler(n: nat): string {
    "a" + seq(n + 1, _ => 'x')
  }

  /** Fifty newer one-word keys that hold the letter, and the older similar key behind them. */
  function Crowd(): seq<Fact> {
    seq(SEARCH_CANDIDATES, i requires 0 <= i < SEARCH_CANDIDATES => Fact(Filler(i), "v")) + [Fact("a-b-c", "v")]
  }

  lemma {:induction false} PiecesOfWord(s: string, current: string)
    requires '-' !in s
    ensures Pieces(s, current) == [current + s]
    decreases |s|
  {
    if s == "" {
      assert current + s == current;
    } else {
      PiecesOfWord(s[1..], current + [s[0]]);
      assert current + [s[0]] + s[1..] == current + s;
    }
  }

  lemma {:induction false} PiecesOfDashed(word: string, rest: string, current: string)
    requires '-' !in word
    ensures Pieces(word + ("-" + rest), current) == [current + word] + Pieces(rest, "")
    decreases |word|
  {
    var s := word + ("-" + rest);
    if word == "" {
      assert s[1..] == rest && current + word == current;
    } else {
      assert s[1..] == word[1..] + ("-" + rest);
      PiecesOfDashed(word[1..], rest, current + [s[0]]);
      assert current + [s[0]] + word[1..] == current + word;
    }
  }

  lemma FillerTerms(al: Alphabet, n: nat)
    requires Laws(al) && Plain(al)
    ensures NormalizeFactKey(al, Filler(n)) == Filler(n) && FactTerms(al, Filler(n)) == {Filler(n)}
  {
    assert 'a' in "abcx" && 'x' in "abcx";
    assert Canonical(al, Filler(n));
    CanonicalIsNormal(al, Filler(n));
    PiecesOfWord(Filler(n), "");
    assert "" + Filler(n) == Filler(n);
  }

  lemma TermsOf(al: Alphabet, key: string, pieces: seq<string>)
    requires NormalizeFactKey(al, key) == key && Pieces(key, "") == pieces && "" !in pieces
    ensures forall t :: t in FactTerms(al, key) <==> t in pieces
  {
    hide NormalizeFactKey, Pieces;
  }

  lemma PairIsNormal(al: Alphabet)
    requires Laws(al) && Plain(al)
    ensures NormalizeFactKey(al, "a-b") == "a-b"
  {
    assert 'a' in "abcx" && 'b' in "abcx";
    hide NormalizeFactKey;
    CanonicalIsNormal(al, "a-b");
  }

  lemma TripleIsNormal(al: Alphabet)
    requires Laws(al) && Plain(al)
    ensures NormalizeFactKey(al, "a-b-c") == "a-b-c"
  {
    assert 'a' in "abcx" && 'b' in "abcx" && 'c' in "abcx";
    hide NormalizeFactKey;
    CanonicalIsNormal(al, "a-b-c");
  }

  lemma PiecesOfPair()
    ensures Pieces("a-b", "") == ["a", "b"]
  {
    hide Pieces;
    PiecesOfDashed("a", "b", "");
    PiecesOfWord("b", "");
    assert "a" + ("-" + "b") == "a-b" && "" + "a" == "a" && "" + "b" == "b";
  }

  lemma PiecesOfTriple()
    ensures Pieces("a-b-c", "") == ["a", "b", "c"]
  {
    hide Pieces;
    PiecesOfDashed("a", "b-c", "");
    PiecesOfDashed("b", "c", "");
    PiecesOfWord("c", "");
    assert "a" + ("-" + "b-c") == "a-b-c" && "b" + ("-" + "c") == "b-c" && "" + "a" == "a" && "" + "b" == "b" && "" + "c" == "c";
  }

  lemma PairTerms(al: Alphabet)
    requires Laws(al) && Plain(al)
    ensures NormalizeFactKey(al, "a-b") == "a-b" && FactTerms(al, "a-b") == {"a", "b"}
  {
    hide *;
    PairIsNormal(al);
    PiecesOfPair();
    TermsOf(al, "a-b", ["a", "b"]);
  }

  lemma TripleTerms(al: Alphabet)
    requires Laws(al) && Plain(al)
    ensures NormalizeFactKey(al, "a-b-c") == "a-b-c" && FactTerms(al, "a-b-c") == {"a", "b", "c"}
  {
    hide *;
    TripleIsNormal(al);
    PiecesOfTriple();
    TermsOf(al, "a-b-c", ["a", "b", "c"]);
  }

  /** Keys whose words have nothing in common are not similar. */
  lemma Disjoint(cfg: Config, a: string, b: string)
    requires FactTerms(cfg.al, a) != {} && FactTerms(cfg.al, b) != {} && FactTerms(cfg.al, a) !! FactTerms(cfg.al, b)
    ensures !Similar(cfg, a, b)
  {
    var x :| x in FactTerms(cfg.al, a);
    var y :| y in FactTerms(cfg.al, b);
  }

  lemma {:induction false} AllMatch(cfg: Config, rows: seq<Fact>, terms: set<string>)
    requires forall i :: 0 <= i < |rows| ==> Matches(cfg, rows[i].key, terms)
    ensures Matching(cfg, rows, terms) == rows
  {
    if rows != [] {
      AllMatch(cfg, rows[1..], terms);
      assert rows == [rows[0]] + rows[1..];
    }
  }

  lemma CrowdIsApart(cfg: Config)
    requires Sound(cfg) && Plain(cfg.al)
    ensures Antichain(cfg, Crowd())
  {
    var rows := Crowd();
    TripleTerms(cfg.al);
    forall i | 0 <= i < |rows|
      ensures NormalizeFactKey(cfg.al, rows[i].key) == rows[i].key && FactTerms(cfg.al, rows[i].key) != {}
    {
      if i < SEARCH_CANDIDATES { FillerTerms(cfg.al, i); }
    }
    forall i, j | 0 <= i < j < |rows| ensures !Similar(cfg, rows[i].key, rows[j].key) {
      FillerTerms(cfg.al, i);
      if j < SEARCH_CANDIDATES { FillerTerms(cfg.al, j); }
      assert |Filler(i)| == i + 2 && (j < SEARCH_CANDIDATES ==> |Filler(j)| == j + 2);
      Disjoint(cfg, rows[i].key, rows[j].key);
    }
  }

  lemma HoldsLetter(cfg: Config, key: string)
    requires Sound(cfg) && key != "" && key[0] == 'a'
    ensures Matches(cfg, key, {"a", "b"})
  {
    assert key[0..1] == "a";
    assert Contains(key, "a");
  }

  lemma NoKey(rows: seq<Fact>, key: string)
    requires forall i :: 0 <= i < |rows| ==> rows[i].key != key
    ensures !HasKey(rows, key)
  {
  }

  lemma NoPairInCrowd()
    ensures |Crowd()| == SEARCH_CANDIDATES + 1 && forall i :: 0 <= i < |Crowd()| ==> Crowd()[i].key != "a-b"
  {
    assert forall i :: 0 <= i < SEARCH_CANDIDATES ==> Crowd()[i].key[1] == 'x';
    assert "a-b"[1] == '-' && |"a-b-c"| == 5;
  }

  lemma CrowdIsSearched(cfg: Config)
    requires Sound(cfg) && Plain(cfg.al)
    ensures SearchFacts(cfg, Crowd(), {"a", "b"}, SEARCH_CANDIDATES) == Crowd()[..SEARCH_CANDIDATES]
  {
    forall i | 0 <= i < |Crowd()| ensures Matches(cfg, Crowd()[i].key, {"a", "b"}) { HoldsLetter(cfg, Crowd()[i].key); }
    AllMatch(cfg, Crowd(), {"a", "b"});
    assert "a" in {"a", "b"};
  }

  /** Only the last row is similar to the pair. */
  lemma CrowdHidesSimilar(cfg: Config)
    requires Sound(cfg) && Plain(cfg.al)
    ensures forall i :: 0 <= i < SEARCH_CANDIDATES ==> !Similar(cfg, "a-b", Crowd()[i].key)
    ensures Similar(cfg, "a-b", Crowd()[SEARCH_CANDIDATES].key)
  {
    PairTerms(cfg.al);
    TripleTerms(cfg.al);
    forall i | 0 <= i < SEARCH_CANDIDATES ensures !Similar(cfg, "a-b", Crowd()[i].key) {
      FillerTerms(cfg.al, i);
      assert |Filler(i)| == i + 2;
      Disjoint(cfg, "a-b", Crowd()[i].key);
    }
  }

  /**
   With fifty newer keys that merely hold the letter, "a-b" is recorded although
   "a-b-c" is stored: the search returns only the fifty.
   */
  lemma GuardMissesBeyondLimit(cfg: Config)
    requires Sound(cfg) && Plain(cfg.al)
    ensures var call := SetFact("a-b", "v", false);
      && Antichain(cfg, Crowd()) && Guarded(cfg, call) && Effect(cfg, Crowd(), call).1 == Recorded("a-b")
      && !Antichain(cfg, Effect(cfg, Crowd(), call).0)
  {
    var rows, call := Crowd(), SetFact("a-b", "v", false);
    CrowdIsApart(cfg);
    PairTerms(cfg.al);
    CrowdIsSearched(cfg);
    CrowdHidesSimilar(cfg);
    hide *;
    assert forall i :: 0 <= i < |rows| ==> rows[i].key != "a-b" by { NoPairInCrowd(); }
    assert !HasKey(rows, "a-b") by { NoKey(rows, "a-b"); }
    NewKeyEffect(cfg, rows, call);
    NoSimilarKeys(cfg, rows[..SEARCH_CANDIDATES], "a-b");
    NewKeyIff(cfg, rows, Fact("a-b", "v"));
  }
}
