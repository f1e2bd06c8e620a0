/** Household facts: canonical keys, and the guard against near-duplicate keys. */
module Facts {
  import opened Prelude

  /** What the key rules need of Unicode: lower-casing a character, and which characters are letters or digits, or blank. */
  datatype Alphabet = Alphabet(lower: char -> string, word: char -> bool, space: char -> bool)

  /** Lower-cased text is lower case, and lower-casing turns nothing into a blank; a dash is just a dash. */
  ghost predicate Laws(al: Alphabet) {
    && (forall c: char :: al.lower(c) != "")
    && (forall c: char, d: char :: d in al.lower(c) ==> al.lower(d) == [d])
    && (forall c: char, d: char :: d in al.lower(c) && !al.space(c) ==> !al.space(d))
    && al.lower('-') == "-" && !al.word('-') && !al.space('-')
  }

  // ----- Normalising a key -----

  function Lower(al: Alphabet, s: string): string {
    if s == "" then "" else al.lower(s[0]) + Lower(al, s[1..])
  }

  /** Each run of characters that are no letters or digits becomes one dash. */
  function Dashed(al: Alphabet, s: string, inRun: bool): string {
    if s == "" then ""
    else if al.word(s[0]) then [s[0]] + Dashed(al, s[1..], false)
    else if inRun then Dashed(al, s[1..], true)
    else "-" + Dashed(al, s[1..], true)
  }

  function StripLeft(s: string): string {
    if s != "" && s[0] == '-' then StripLeft(s[1..]) else s
  }

  function StripRight(s: string): string
    decreases |s|
  {
    if s != "" && s[|s| - 1] == '-' then StripRight(s[..|s| - 1]) else s
  }

  function TrimLeft(al: Alphabet, s: string): string {
    if s != "" && al.space(s[0]) then TrimLeft(al, s[1..]) else s
  }

  function TrimRight(al: Alphabet, s: string): string
    decreases |s|
  {
    if s != "" && al.space(s[|s| - 1]) then TrimRight(al, s[..|s| - 1]) else s
  }

  function Slug(al: Alphabet, raw: string): string {
    StripRight(StripLeft(Dashed(al, Lower(al, raw), false)))
  }

  function NormalizeFactKey(al: Alphabet, raw: string): string {
    var slug := Slug(al, raw);
    if slug != "" then slug else Lower(al, TrimRight(al, TrimLeft(al, raw)))
  }

  predicate AllLower(al: Alphabet, s: string) {
    forall i :: 0 <= i < |s| ==> al.lower(s[i]) == [s[i]]
  }

  lemma {:induction false} LowerIsLower(al: Alphabet, s: string)
    requires Laws(al)
    ensures AllLower(al, Lower(al, s))
  {
    if s != "" {
      LowerIsLower(al, s[1..]);
      var a, b := al.lower(s[0]), Lower(al, s[1..]);
      forall i | 0 <= i < |a + b| ensures al.lower((a + b)[i]) == [(a + b)[i]] {
        assert i < |a| ==> a[i] in a;
      }
    }
  }

  lemma {:induction false} LowerOfLower(al: Alphabet, s: string)
    requires AllLower(al, s)
    ensures Lower(al, s) == s
  {
    if s != "" {
      assert AllLower(al, s[1..]);
      LowerOfLower(al, s[1..]);
      assert s == [s[0]] + s[1..];
    }
  }

  predicate WordsAndDashes(al: Alphabet, s: string) {
    && (forall i :: 0 <= i < |s| ==> al.word(s[i]) || s[i] == '-')
    && (forall i :: 0 < i < |s| ==> s[i - 1] != '-' || s[i] != '-')
  }

  /** A key in canonical form: lower-case words joined by single dashes. */
  predicate Canonical(al: Alphabet, s: string) {
    s != "" && s[0] != '-' && s[|s| - 1] != '-' && WordsAndDashes(al, s) && AllLower(al, s)
  }

  lemma {:induction false} DashedShape(al: Alphabet, s: string, inRun: bool)
    requires Laws(al) && AllLower(al, s)
    ensures var d := Dashed(al, s, inRun);
      && WordsAndDashes(al, d) && AllLower(al, d) && (inRun && d != "" ==> d[0] != '-')
      && ((exists i :: 0 <= i < |s| && al.word(s[i])) <==> exists i :: 0 <= i < |d| && al.word(d[i]))
  {
    if s != "" {
      DashedShape(al, s[1..], !al.word(s[0]));
      var d, rest := Dashed(al, s, inRun), Dashed(al, s[1..], !al.word(s[0]));
      assert forall i :: 0 < i < |s| ==> s[i] == s[1..][i - 1];
      assert d == rest || (d == [d[0]] + rest && forall i :: 0 < i < |d| ==> d[i] == rest[i - 1]);
      if i :| 0 <= i < |s[1..]| && al.word(s[1..][i]) { assert al.word(s[i + 1]); }
      if i :| 0 <= i < |rest| && al.word(rest[i]) { assert d != rest ==> al.word(d[i + 1]); }
    }
  }

  lemma {:induction false} DashedOfCanonical(al: Alphabet, s: string, inRun: bool)
    requires Laws(al) && WordsAndDashes(al, s) && (inRun && s != "" ==> s[0] != '-')
    ensures Dashed(al, s, inRun) == s
  {
    if s != "" {
      assert forall i :: 0 < i < |s| ==> s[i] == s[1..][i - 1];
      DashedOfCanonical(al, s[1..], s[0] == '-');
      assert s == [s[0]] + s[1..];
    }
  }

  /** Stripping dashes cuts a stretch out of the text, and leaves nothing only of dashes. */
  lemma {:induction false} StripLeftCuts(s: string) returns (n: nat)
    ensures n <= |s| && StripLeft(s) == s[n..] && (n < |s| ==> s[n] != '-') && forall i :: 0 <= i < n ==> s[i] == '-'
  {
    n := 0;
    if s != "" && s[0] == '-' {
      var m := StripLeftCuts(s[1..]);
      n := m + 1;
      assert s[1..][m..] == s[n..];
      assert forall i :: 0 < i < n ==> s[i] == s[1..][i - 1];
    }
  }

  lemma {:induction false} StripRightCuts(s: string) returns (n: nat)
    ensures n <= |s| && StripRight(s) == s[..n] && (n > 0 ==> s[n - 1] != '-') && forall i :: n <= i < |s| ==> s[i] == '-'
    decreases |s|
  {
    n := |s|;
    if s != "" && s[|s| - 1] == '-' {
      n := StripRightCuts(s[..|s| - 1]);
      assert s[..|s| - 1][..n] == s[..n];
    }
  }

  lemma SlugShape(al: Alphabet, raw: string)
    requires Laws(al)
    ensures var slug := Slug(al, raw);
      && (slug != "" ==> Canonical(al, slug))
      && (slug == "" ==> forall i :: 0 <= i < |Lower(al, raw)| ==> !al.word(Lower(al, raw)[i]))
  {
    var low := Lower(al, raw);
    LowerIsLower(al, raw);
    DashedShape(al, low, false);
    var d := Dashed(al, low, false);
    var a := StripLeftCuts(d);
    var left := d[a..];
    var b := StripRightCuts(left);
    assert Slug(al, raw) == left[..b] == d[a..a + b];
    if b == 0 { assert a == |d|; }
  }

  lemma CanonicalIsNormal(al: Alphabet, s: string)
    requires Laws(al) && Canonical(al, s)
    ensures NormalizeFactKey(al, s) == s
  {
    LowerOfLower(al, s);
    DashedOfCanonical(al, s, false);
  }

  // The fallback, for text without letters and digits

  lemma {:induction false} LowerEnds(al: Alphabet, s: string)
    requires Laws(al) && s != ""
    ensures var l := Lower(al, s);
      l != "" && (!al.space(s[0]) ==> !al.space(l[0])) && (!al.space(s[|s| - 1]) ==> !al.space(l[|l| - 1]))
  {
    var head := al.lower(s[0]);
    assert head[0] in head && head[|head| - 1] in head;
    if |s| == 1 {
      assert Lower(al, s[1..]) == "";
    } else {
      LowerEnds(al, s[1..]);
    }
  }

  lemma {:induction false} TrimLeftIsEnd(al: Alphabet, s: string) returns (n: nat)
    ensures n <= |s| && TrimLeft(al, s) == s[n..] && (n < |s| ==> !al.space(s[n]))
  {
    n := 0;
    if s != "" && al.space(s[0]) {
      var m := TrimLeftIsEnd(al, s[1..]);
      n := m + 1;
      assert s[1..][m..] == s[n..];
    }
  }

  lemma {:induction false} TrimRightIsStart(al: Alphabet, s: string) returns (n: nat)
    ensures n <= |s| && TrimRight(al, s) == s[..n] && (n > 0 ==> !al.space(s[n - 1]))
    decreases |s|
  {
    n := |s|;
    if s != "" && al.space(s[|s| - 1]) {
      n := TrimRightIsStart(al, s[..|s| - 1]);
      assert s[..|s| - 1][..n] == s[..n];
    }
  }

  predicate NoWord(al: Alphabet, s: string) {
    forall i :: 0 <= i < |s| ==> !al.word(s[i])
  }

  lemma {:induction false} LowerConcat(al: Alphabet, a: string, b: string)
    ensures Lower(al, a + b) == Lower(al, a) + Lower(al, b)
  {
    if a == "" {
      assert a + b == b;
    } else {
      assert (a + b)[1..] == a[1..] + b;
      LowerConcat(al, a[1..], b);
    }
  }

  /** A stretch of text has, in lower case, no letters or digits that the whole has not. */
  lemma StretchHasNoWord(al: Alphabet, s: string, i: nat, j: nat)
    requires i <= j <= |s| && NoWord(al, Lower(al, s))
    ensures NoWord(al, Lower(al, s[i..j]))
  {
    assert s == s[..i] + (s[i..j] + s[j..]);
    LowerConcat(al, s[..i], s[i..j] + s[j..]);
    LowerConcat(al, s[i..j], s[j..]);
    var a, b, c := Lower(al, s[..i]), Lower(al, s[i..j]), Lower(al, s[j..]);
    forall k | 0 <= k < |b| ensures !al.word(b[k]) {
      assert Lower(al, s)[|a| + k] == b[k];
    }
  }

  lemma {:induction false} NoWordHasNoSlug(al: Alphabet, s: string, inRun: bool)
    requires NoWord(al, s)
    ensures Dashed(al, s, inRun) == if s == "" || inRun then "" else "-"
  {
    if s != "" {
      assert NoWord(al, s[1..]);
      NoWordHasNoSlug(al, s[1..], true);
    }
  }

  lemma FallbackIsNormal(al: Alphabet, raw: string)
    requires Laws(al) && Slug(al, raw) == ""
    ensures var t := NormalizeFactKey(al, raw);
      NormalizeFactKey(al, t) == t
  {
    SlugShape(al, raw);
    var i := TrimLeftIsEnd(al, raw);
    var left := raw[i..];
    var n := TrimRightIsStart(al, left);
    var core := left[..n];
    assert core == raw[i..i + n];
    var t := Lower(al, core);
    StretchHasNoWord(al, raw, i, i + n);
    LowerIsLower(al, core);
    LowerOfLower(al, t);
    NoWordHasNoSlug(al, t, false);
    assert Slug(al, t) == "" by { assert StripLeft("-") == "" && StripRight("") == ""; }
    if core != "" { LowerEnds(al, core); }
    assert TrimRight(al, TrimLeft(al, t)) == t;
  }

  /** Normalising a normalised key changes nothing. */
  lemma NormalizeIsIdempotent(al: Alphabet, raw: string)
    requires Laws(al)
    ensures NormalizeFactKey(al, NormalizeFactKey(al, raw)) == NormalizeFactKey(al, raw)
  {
    SlugShape(al, raw);
    if Slug(al, raw) != "" { CanonicalIsNormal(al, Slug(al, raw)); } else { FallbackIsNormal(al, raw); }
  }
}
