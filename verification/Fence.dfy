/** The fence around untrusted text: what it wraps can never close it. */
module Fence {
  const Open := "«untrusted:"
  const Close := "«/untrusted»"
  const Neutralized := "(fence marker removed)"

  /** The close marker without its last character. */
  const AlmostClose := "«/untrusted"

  /** The close marker without its first character. */
  const Tail := "/untrusted»"

  /** Replaces every close marker, from left to right. */
  function Scrub(text: string): string {
    if text == "" then ""
    else if Close <= text then Neutralized + Scrub(text[|Close|..])
    else [text[0]] + Scrub(text[1..])
  }

  function FenceUntrusted(source: string, body: string): string {
    Open + Scrub(source) + "»\n" + Scrub(body) + "\n" + Close
  }

  /** The marker m stands in the text at i. */
  predicate At(text: string, m: string, i: nat) {
    i + |m| <= |text| && text[i..i + |m|] == m
  }

  ghost predicate Free(text: string) {
    forall i: nat :: !At(text, Close, i)
  }

  predicate EndsWith(text: string, m: string) {
    |m| <= |text| && text[|text| - |m|..] == m
  }

  /** The close marker stands at the very end and nowhere else. */
  ghost predicate ClosesOnceAtEnd(text: string) {
    forall i: nat :: At(text, Close, i) <==> i == |text| - |Close|
  }

  // ----- Where a marker can stand in a concatenation -----

  /** A marker in a + b that starts in b. */
  lemma AtRight(a: string, b: string, m: string, i: nat)
    requires i >= |a|
    ensures At(a + b, m, i) <==> At(b, m, i - |a|)
  {
    if i + |m| <= |a + b| { assert (a + b)[i..i + |m|] == b[i - |a|..i - |a| + |m|]; }
  }

  /** A marker in a + b that ends in a. */
  lemma AtLeft(a: string, b: string, m: string, i: nat)
    requires i + |m| <= |a|
    ensures At(a + b, m, i) <==> At(a, m, i)
  {
    assert (a + b)[i..i + |m|] == a[i..i + |m|];
  }

  /** A character that differs rules a marker out. */
  lemma Blocked(text: string, m: string, i: nat, k: nat)
    requires i <= k < i + |m| && k < |text| && text[k] != m[k - i]
    ensures !At(text, m, i)
  {
    assert i + |m| <= |text| ==> text[i..i + |m|][k - i] == text[k];
  }

  lemma CloseChars()
    ensures |Close| == 12 && Close[0] == '«' && Close == AlmostClose + "»" == "«" + Tail
    ensures forall k :: 0 <= k < |Close| ==> Close[k] != '\n'
    ensures '«' !in Tail && '(' !in Tail && |Tail| == 11
    ensures '(' !in AlmostClose && ')' !in AlmostClose && '»' !in AlmostClose && |AlmostClose| == 11 && AlmostClose[0] == '«'
  {
  }

  /** A separator that is no marker character splits the question. */
  lemma AcrossLine(a: string, b: string, i: nat)
    ensures At(a + "\n" + b, Close, i) <==> At(a, Close, i) || (i > |a| && At(b, Close, i - |a| - 1))
  {
    var t := a + "\n" + b;
    assert t == a + ("\n" + b) == (a + "\n") + b;
    CloseChars();
    if i + |Close| <= |a| {
      AtLeft(a, "\n" + b, Close, i);
    } else if i > |a| {
      AtRight(a + "\n", b, Close, i);
    } else {
      assert t[|a|] == '\n';
      Blocked(t, Close, i, |a|);
    }
  }

  // ----- Scrubbing -----

  lemma ScrubHead(text: string)
    requires text != ""
    ensures Scrub(text) != ""
    ensures Close <= text ==> Scrub(text)[0] == '(' && '(' in Scrub(text)
  {
    assert Neutralized[0] == '(';
  }

  /** A start without '«' and '(' that shows after scrubbing was there before. */
  lemma {:induction false} StartKept(text: string, p: string)
    requires p <= Scrub(text) && '«' !in p && '(' !in p
    ensures p <= text
    decreases |p|
  {
    if p != "" {
      ScrubHead(text);
      assert p[0] in p && p[0] == Scrub(text)[0];
      assert p[1..] <= Scrub(text)[1..] == Scrub(text[1..]);
      StartKept(text[1..], p[1..]);
      assert p == [p[0]] + p[1..];
    }
  }

  lemma FreeAfter(a: string, b: string, i: nat)
    requires '«' !in a && Free(b)
    ensures !At(a + b, Close, i)
  {
    if i >= |a| {
      AtRight(a, b, Close, i);
    } else {
      assert (a + b)[i] == a[i] && a[i] in a;
      Blocked(a + b, Close, i, i);
    }
  }

  lemma StartsNot(text: string)
    requires text != "" && !(Close <= text) && text[0] == '«'
    ensures !(Tail <= text[1..])
  {
    CloseChars();
    assert text == "«" + text[1..];
  }

  lemma SameTail(x: string, y: string)
    ensures "«" + x == "«" + y <==> x == y
  {
    assert ("«" + x)[1..] == x && ("«" + y)[1..] == y;
  }

  lemma NotAtFirst(text: string)
    requires text != "" && !(Close <= text)
    ensures !At(Scrub(text), Close, 0)
  {
    var rest := Scrub(text[1..]);
    CloseChars();
    if text[0] != '«' {
      Blocked(Scrub(text), Close, 0, 0);
    } else {
      StartsNot(text);
      if Tail <= rest { StartKept(text[1..], Tail); }
      assert Scrub(text) == "«" + rest;
      if |rest| >= 11 {
        assert Scrub(text)[0..12] == "«" + rest[..11];
        SameTail(rest[..11], Tail);
      }
    }
  }

  /** No close marker is left, nor formed by what is left. */
  lemma {:induction false} ScrubFrees(text: string)
    ensures Free(Scrub(text))
    decreases |text|
  {
    if text != "" {
      var rest := if Close <= text then text[|Close|..] else text[1..];
      ScrubFrees(rest);
      forall i: nat ensures !At(Scrub(text), Close, i) {
        if Close <= text {
          FreeAfter(Neutralized, Scrub(rest), i);
        } else if i == 0 {
          NotAtFirst(text);
        } else {
          AtRight([text[0]], Scrub(rest), Close, i);
        }
      }
    }
  }

  lemma FreeTail(text: string)
    requires text != "" && Free(text)
    ensures !(Close <= text) && Free(text[1..])
  {
    assert !At(text, Close, 0);
    assert text == [text[0]] + text[1..];
    forall i: nat ensures !At(text[1..], Close, i) {
      AtRight([text[0]], text[1..], Close, i + 1);
      assert !At(text, Close, i + 1);
    }
  }

  lemma {:induction false} FreeIsKept(text: string)
    requires Free(text)
    ensures Scrub(text) == text
    decreases |text|
  {
    if text != "" {
      FreeTail(text);
      FreeIsKept(text[1..]);
    }
  }

  /** Text is scrubbed to itself exactly when it has no close marker. */
  lemma ScrubIsVerbatim(text: string)
    ensures Scrub(text) == text <==> Free(text)
  {
    if Free(text) { FreeIsKept(text); }
    ScrubFrees(text);
  }

  lemma {:induction false} NoParenthesis(text: string)
    requires '(' !in Scrub(text)
    ensures Scrub(text) == text
    decreases |text|
  {
    if text != "" {
      ScrubHead(text);
      assert Scrub(text) == [text[0]] + Scrub(text[1..]);
      assert forall c :: c in Scrub(text[1..]) ==> c in Scrub(text);
      NoParenthesis(text[1..]);
    }
  }

  lemma ScrubsTo(text: string, p: string)
    requires '(' !in p && Scrub(p) == p
    ensures Scrub(text) == p <==> text == p
  {
    if '(' !in Scrub(text) { NoParenthesis(text); }
  }

  lemma {:induction false} ScrubGrows(text: string)
    ensures |Scrub(text)| >= |text|
    decreases |text|
  {
    if text != "" { ScrubGrows(if Close <= text then text[|Close|..] else text[1..]); }
  }

  /** The end of a concatenation is the end of its right part, or reaches the left part's last character. */
  lemma EndOfConcat(a: string, b: string, m: string)
    ensures |b| >= |m| ==> (EndsWith(a + b, m) <==> EndsWith(b, m))
    ensures |b| < |m| && a != "" && a[|a| - 1] !in m ==> !EndsWith(a + b, m)
  {
    var t := a + b;
    if |b| >= |m| {
      assert t[|t| - |m|..] == b[|b| - |m|..];
    } else if a != "" && |t| >= |m| {
      assert t[|t| - |m|..][|m| - |b| - 1] == a[|a| - 1];
    }
  }

  lemma EndOfWhole(text: string, p: string)
    requires |text| <= |p|
    ensures EndsWith(text, p) <==> text == p
  {
  }

  /** Scrubbing neither makes nor breaks an ending that has nothing to do with it. */
  lemma {:induction false} EndKept(text: string, p: string)
    requires p != "" && '(' !in p && ')' !in p && '»' !in p && Scrub(p) == p
    ensures EndsWith(Scrub(text), p) <==> EndsWith(text, p)
    decreases |text|
  {
    if text != "" {
      var n := if Close <= text then |Close| else 1;
      var head, rest := text[..n], text[n..];
      var head' := if Close <= text then Neutralized else head;
      assert text == head + rest && Scrub(text) == head' + Scrub(rest);
      EndKept(rest, p);
      EndOfConcat(head, rest, p);
      EndOfConcat(head', Scrub(rest), p);
      ScrubGrows(rest);
      if Close <= text {
        assert head[|head| - 1] == '»' && head'[|head'| - 1] == ')';
      } else if |Scrub(rest)| < |p| {
        EndOfWhole(text, p);
        EndOfWhole(Scrub(text), p);
        ScrubsTo(text, p);
      } else if |rest| < |p| {
        EndOfWhole(text, p);
        ScrubsTo(text, p);
      }
    }
  }

  // ----- The fence -----

  lemma AlmostIsKept()
    ensures Scrub(AlmostClose) == AlmostClose
  {
    CloseChars();
    assert Free(AlmostClose);
    FreeIsKept(AlmostClose);
  }

  /** The opening line holds no close marker, except at its end when the label almost closes. */
  lemma LineAt(tag: string, i: nat)
    requires Free(tag)
    ensures At(Open + tag + "»", Close, i) <==> i == |tag| && EndsWith(tag, AlmostClose)
  {
    var line := Open + tag + "»";
    assert line == Open + (tag + "»") && |Open| == 11;
    CloseChars();
    if i == 0 {
      assert line[1] == Open[1] == 'u' && Close[1] == '/';
      Blocked(line, Close, 0, 1);
    } else if i < |Open| {
      assert line[i] == Open[i] && Open[i] != '«';
      Blocked(line, Close, i, i);
    } else {
      var k := i - |Open|;
      AtRight(Open, tag + "»", Close, i);
      if k + |Close| <= |tag| {
        AtLeft(tag, "»", Close, k);
        assert !At(tag, Close, k);
      } else if k + |Close| == |tag| + 1 {
        assert (tag + "»")[k..k + |Close|] == tag[k..] + "»";
        assert tag[k..] + "»" == AlmostClose + "»" ==> (tag[k..] + "»")[..11] == (AlmostClose + "»")[..11];
      }
    }
    if i == |tag| && i < |Open| { assert !EndsWith(tag, AlmostClose); }
  }

  /**
   Fence integrity, exactly: whatever the body, the close marker stands in the output
   once, at its very end, if and only if the tag does not itself end in an
   almost-close.  A tag without guillemets never does.
   */
  lemma FenceHolds(source: string, body: string)
    ensures ClosesOnceAtEnd(FenceUntrusted(source, body)) <==> !EndsWith(source, AlmostClose)
    ensures '«' !in source ==> !EndsWith(source, AlmostClose)
  {
    var out := FenceUntrusted(source, body);
    var line := Open + Scrub(source) + "»";
    var rest := Scrub(body) + "\n" + Close;
    assert out == line + "\n" + rest;
    ScrubFrees(source);
    ScrubFrees(body);
    AlmostIsKept();
    CloseChars();
    EndKept(source, AlmostClose);
    forall i: nat
      ensures At(out, Close, i) <==> i == |out| - |Close| || (i == |Scrub(source)| && EndsWith(source, AlmostClose))
    {
      FenceAt(line, Scrub(body), i);
      LineAt(Scrub(source), i);
    }
    OnlyAtEnd(out, |Scrub(source)|, EndsWith(source, AlmostClose));
    if EndsWith(source, AlmostClose) {
      assert source[|source| - |AlmostClose|..][0] == source[|source| - |AlmostClose|];
    }
  }

  lemma OnlyAtEnd(out: string, n: nat, inside: bool)
    requires n < |out| - |Close|
    requires forall i: nat :: At(out, Close, i) <==> i == |out| - |Close| || (i == n && inside)
    ensures ClosesOnceAtEnd(out) <==> !inside
  {
    assert At(out, Close, n) <==> inside;
  }

  lemma FenceAt(line: string, body: string, i: nat)
    requires Free(body)
    ensures var out := line + "\n" + (body + "\n" + Close);
      At(out, Close, i) <==> At(line, Close, i) || i == |out| - |Close|
  {
    var rest := body + "\n" + Close;
    AcrossLine(line, rest, i);
    if i > |line| { AcrossLine(body, Close, i - |line| - 1); }
  }

  /** A body without the marker appears verbatim; wrapping again neutralises exactly the inner close. */
  lemma FenceKeepsBody(source: string, body: string)
    requires Free(body)
    ensures FenceUntrusted(source, body) == Open + Scrub(source) + "»\n" + body + "\n" + Close
  {
    ScrubIsVerbatim(body);
  }
}
