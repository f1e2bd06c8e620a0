/** What a fact key is: the words of the text, in lower case and in order, joined by single dashes. */
module FactWords {
  import opened Prelude
  import opened Facts
  import FS = FactStore

  /** The maximal runs of letters and digits, in order; `current` is the run at hand. */
  function Words(al: Alphabet, s: string, current: string): seq<string>
    decreases |s|
  {
    if s == "" then (if current == "" then [] else [current])
    else if al.word(s[0]) then Words(al, s[1..], current + [s[0]])
    else (if current == "" then [] else [current]) + Words(al, s[1..], "")
  }

  /** The words of a text as it is typed. */
  function WordsOf(al: Alphabet, raw: string): seq<string> {
    Words(al, Lower(al, raw), "")
  }

  function Join(words: seq<string>): string {
    if words == [] then "" else if |words| == 1 then words[0] else words[0] + ("-" + Join(words[1..]))
  }

  predicate IsWord(al: Alphabet, w: string) {
    w != "" && forall i :: 0 <= i < |w| ==> al.word(w[i])
  }

  predicate AreWords(al: Alphabet, words: seq<string>) {
    forall i :: 0 <= i < |words| ==> IsWord(al, words[i])
  }

  lemma {:induction false} WordsAreWords(al: Alphabet, s: string, current: string)
    requires current == "" || IsWord(al, current)
    ensures AreWords(al, Words(al, s, current)) && (current != "" ==> Words(al, s, current) != [])
    decreases |s|
  {
    if s != "" {
      if al.word(s[0]) { WordsAreWords(al, s[1..], current + [s[0]]); } else { WordsAreWords(al, s[1..], ""); }
    }
  }

  /** Dashing a text joins its words; all that can be left over is one dash behind the last. */
  lemma {:induction false} DashedJoins(al: Alphabet, s: string, current: string) returns (tail: string)
    ensures current + Dashed(al, s, current == "") == Join(Words(al, s, current)) + tail
    ensures tail == "" || (tail == "-" && Words(al, s, current) != [])
    decreases |s|
  {
    if s == "" {
      tail := "";
      assert current + "" == current;
    } else if al.word(s[0]) {
      tail := DashedJoins(al, s[1..], current + [s[0]]);
      assert current + ([s[0]] + Dashed(al, s[1..], false)) == (current + [s[0]]) + Dashed(al, s[1..], false);
    } else {
      var rest := DashedJoins(al, s[1..], "");
      var words := Words(al, s[1..], "");
      var dashed := Dashed(al, s[1..], true);
      assert dashed == Join(words) + rest by { assert "" + dashed == dashed; }
      if current == "" {
        tail := rest;
        assert "" + dashed == dashed && [] + words == words;
      } else if words == [] {
        tail := "-";
        assert [current] + words == [current];
        assert current + ("-" + dashed) == current + "-";
      } else {
        tail := rest;
        var all := [current] + words;
        assert all[1..] == words;
        assert current + ("-" + (Join(words) + rest)) == (current + ("-" + Join(words))) + rest;
      }
    }
  }

  /** Joined words begin and end in a letter or digit. */
  lemma {:induction false} JoinEnds(al: Alphabet, words: seq<string>)
    requires AreWords(al, words) && words != []
    ensures Join(words) != "" && al.word(Join(words)[0]) && al.word(Join(words)[|Join(words)| - 1])
  {
    assert IsWord(al, words[0]);
    if |words| > 1 { JoinEnds(al, words[1..]); }
  }

  lemma StripsLead(core: string, lead: string)
    requires core != "" && core[0] != '-' && (lead == "" || lead == "-")
    ensures StripLeft(lead + core) == core
  {
    if lead == "-" { assert ("-" + core)[1..] == core; } else { assert "" + core == core; }
  }

  lemma StripsTail(core: string, tail: string)
    requires core != "" && core[|core| - 1] != '-' && (tail == "" || tail == "-")
    ensures StripRight(core + tail) == core
  {
    var s := core + tail;
    if tail == "-" { assert s[..|s| - 1] == core && s[|s| - 1] == '-'; } else { assert s == core; }
  }

  lemma StripDashes(core: string, lead: string, tail: string)
    requires core != "" && core[0] != '-' && core[|core| - 1] != '-'
    requires (lead == "" || lead == "-") && (tail == "" || tail == "-")
    ensures StripRight(StripLeft(lead + core + tail)) == core
  {
    hide StripLeft, StripRight;
    assert lead + core + tail == lead + (core + tail);
    StripsLead(core + tail, lead);
    StripsTail(core, tail);
  }

  /** The key of a text that has words is those words, joined. */
  lemma KeyIsItsWords(al: Alphabet, raw: string)
    requires Laws(al) && WordsOf(al, raw) != []
    ensures NormalizeFactKey(al, raw) == Join(WordsOf(al, raw)) != ""
  {
    var low, words := Lower(al, raw), WordsOf(al, raw);
    WordsAreWords(al, low, "");
    JoinEnds(al, words);
    var lead, tail := LeadAndTail(al, low);
    StripDashes(Join(words), lead, tail);
  }

  lemma LeadAndTail(al: Alphabet, low: string) returns (lead: string, tail: string)
    ensures Dashed(al, low, false) == lead + Join(Words(al, low, "")) + tail
    ensures (lead == "" || lead == "-") && (tail == "" || tail == "-")
  {
    if low == "" {
      lead, tail := "", "";
    } else if al.word(low[0]) {
      lead := "";
      tail := DashedJoins(al, low[1..], [low[0]]);
      assert "" + [low[0]] == [low[0]];
      assert "" + Join(Words(al, low, "")) == Join(Words(al, low, ""));
    } else {
      lead := "-";
      tail := DashedJoins(al, low[1..], "");
      assert "" + Dashed(al, low[1..], true) == Dashed(al, low[1..], true);
      assert [] + Words(al, low[1..], "") == Words(al, low[1..], "");
      assert "-" + (Join(Words(al, low, "")) + tail) == "-" + Join(Words(al, low, "")) + tail;
    }
  }

  /** Splitting a key at its dashes gives its words back. */
  lemma {:induction false} PiecesOfJoin(al: Alphabet, words: seq<string>)
    requires Laws(al) && AreWords(al, words) && words != []
    ensures FS.Pieces(Join(words), "") == words
  {
    assert IsWord(al, words[0]) && '-' !in words[0];
    if |words| == 1 {
      FS.PiecesOfWord(words[0], "");
      assert "" + words[0] == words[0];
    } else {
      FS.PiecesOfDashed(words[0], Join(words[1..]), "");
      PiecesOfJoin(al, words[1..]);
      assert "" + words[0] == words[0];
      assert [words[0]] + words[1..] == words;
    }
  }

  /**
   One spelling per key: two texts with words name the same row exactly if they have
   the same words in the same order, whatever stands between them and however they are
   capitalised; and the terms that are searched and compared are those words.
   */
  lemma SameKeyIff(al: Alphabet, a: string, b: string)
    requires Laws(al) && WordsOf(al, a) != [] && WordsOf(al, b) != []
    ensures NormalizeFactKey(al, a) == NormalizeFactKey(al, b) <==> WordsOf(al, a) == WordsOf(al, b)
    ensures FS.FactTerms(al, a) == set w | w in WordsOf(al, a)
  {
    KeyIsItsWords(al, a);
    KeyIsItsWords(al, b);
    WordsAreWords(al, Lower(al, a), "");
    WordsAreWords(al, Lower(al, b), "");
    PiecesOfJoin(al, WordsOf(al, a));
    PiecesOfJoin(al, WordsOf(al, b));
    forall w | w in WordsOf(al, a) ensures w != "" {
      var i :| 0 <= i < |WordsOf(al, a)| && WordsOf(al, a)[i] == w;
      assert IsWord(al, w);
    }
  }

  /** A text without a word is its own key, in lower case and without the blanks around it. */
  lemma KeyWithoutWords(al: Alphabet, raw: string) returns (from: nat, to: nat)
    requires Laws(al) && WordsOf(al, raw) == []
    ensures from <= to <= |raw| && NormalizeFactKey(al, raw) == Lower(al, raw[from..to])
    ensures forall i :: 0 <= i < |raw| && !(from <= i < to) ==> al.space(raw[i])
    ensures from < to ==> !al.space(raw[from]) && !al.space(raw[to - 1])
  {
    NoWordsNoSlug(al, raw);
    from := TrimsLeft(al, raw);
    var n := TrimsRight(al, raw[from..]);
    to := from + n;
    assert raw[from..][..n] == raw[from..to];
    forall i | 0 <= i < |raw| && !(from <= i < to) ensures al.space(raw[i]) {
      if i >= to { assert raw[from..][i - from] == raw[i]; }
    }
  }

  lemma NoWordsNoSlug(al: Alphabet, raw: string)
    requires Laws(al) && WordsOf(al, raw) == []
    ensures Slug(al, raw) == ""
  {
    var lead, tail := LeadAndTail(al, Lower(al, raw));
    var d := Dashed(al, Lower(al, raw), false);
    assert d == lead + "" + tail;
    if Lower(al, raw) != "" && !al.word(Lower(al, raw)[0]) {
      var t := DashedJoins(al, Lower(al, raw)[1..], "");
      assert [] + Words(al, Lower(al, raw)[1..], "") == Words(al, Lower(al, raw)[1..], "");
    }
    OnlyDashes(d);
  }

  lemma {:induction false} OnlyDashes(s: string)
    requires forall i :: 0 <= i < |s| ==> s[i] == '-'
    ensures StripRight(StripLeft(s)) == ""
  {
    if s != "" { OnlyDashes(s[1..]); }
  }

  lemma {:induction false} TrimsLeft(al: Alphabet, s: string) returns (n: nat)
    ensures n <= |s| && TrimLeft(al, s) == s[n..] && (n < |s| ==> !al.space(s[n])) && forall i :: 0 <= i < n ==> al.space(s[i])
  {
    n := 0;
    if s != "" && al.space(s[0]) {
      var m := TrimsLeft(al, s[1..]);
      n := m + 1;
      assert s[1..][m..] == s[n..];
      assert forall i :: 0 < i < n ==> s[i] == s[1..][i - 1];
    }
  }

  lemma {:induction false} TrimsRight(al: Alphabet, s: string) returns (n: nat)
    ensures n <= |s| && TrimRight(al, s) == s[..n] && (n > 0 ==> !al.space(s[n - 1])) && forall i :: n <= i < |s| ==> al.space(s[i])
    decreases |s|
  {
    n := |s|;
    if s != "" && al.space(s[|s| - 1]) {
      n := TrimsRight(al, s[..|s| - 1]);
      assert s[..|s| - 1][..n] == s[..n];
    } else {
      assert s[..n] == s;
    }
  }
}
