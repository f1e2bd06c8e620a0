/** Inbox rows, what a drain reads of them, and the grouping of a read into turn batches. */
module Debounce {
  datatype Kind = Human | Proactive

  /** An inbox row; `num` is its serial number, which is its commit order. */
  datatype Item = Item(num: nat, conversation: string, kind: Kind, sender: string, messageId: string)

  function Flatten<T>(parts: seq<seq<T>>): seq<T> {
    if parts == [] then [] else parts[0] + Flatten(parts[1..])
  }

  lemma {:induction false} FlattenSnoc<T>(parts: seq<seq<T>>, last: seq<T>)
    ensures Flatten(parts + [last]) == Flatten(parts) + last
  {
    if parts == [] {
      assert Flatten([last]) == last + Flatten<T>([]);
    } else {
      assert (parts + [last])[1..] == parts[1..] + [last];
      FlattenSnoc(parts[1..], last);
    }
  }

  // ----- Sorting by serial number -----

  predicate SortedByNum(items: seq<Item>) {
    forall i, j :: 0 <= i < j < |items| ==> items[i].num <= items[j].num
  }

  /** Stable insertion: after every row whose number is not larger. */
  function Insert(item: Item, items: seq<Item>): seq<Item> {
    if items == [] then [item]
    else
      var n := |items| - 1;
      if items[n].num <= item.num then items + [item] else Insert(item, items[..n]) + [items[n]]
  }

  function SortByNum(items: seq<Item>): seq<Item> {
    if items == [] then [] else Insert(items[|items| - 1], SortByNum(items[..|items| - 1]))
  }

  lemma {:induction false} InsertAdds(item: Item, items: seq<Item>)
    ensures multiset(Insert(item, items)) == multiset(items) + multiset{item}
  {
    if items != [] {
      var n := |items| - 1;
      assert items == items[..n] + [items[n]];
      InsertAdds(item, items[..n]);
    }
  }

  lemma {:induction false} InsertBounded(item: Item, items: seq<Item>, most: nat)
    requires item.num <= most && forall i :: 0 <= i < |items| ==> items[i].num <= most
    ensures forall i :: 0 <= i < |Insert(item, items)| ==> Insert(item, items)[i].num <= most
  {
    if items != [] { InsertBounded(item, items[..|items| - 1], most); }
  }

  lemma {:induction false} InsertSorts(item: Item, items: seq<Item>)
    requires SortedByNum(items)
    ensures SortedByNum(Insert(item, items))
  {
    if items != [] && items[|items| - 1].num > item.num {
      var n := |items| - 1;
      InsertSorts(item, items[..n]);
      InsertBounded(item, items[..n], items[n].num);
    }
  }

  /** Sorting permutes the rows into serial order. */
  lemma {:induction false} SortSorts(items: seq<Item>)
    ensures multiset(SortByNum(items)) == multiset(items) && SortedByNum(SortByNum(items))
  {
    if items != [] {
      var n := |items| - 1;
      assert items == items[..n] + [items[n]];
      SortSorts(items[..n]);
      InsertSorts(items[n], SortByNum(items[..n]));
      InsertAdds(items[n], SortByNum(items[..n]));
    }
  }

  lemma {:induction false} SortOfSorted(items: seq<Item>)
    requires SortedByNum(items)
    ensures SortByNum(items) == items
  {
    if items != [] {
      var n := |items| - 1;
      var before := items[..n];
      SortOfSorted(before);
      assert Insert(items[n], before) == before + [items[n]];
    }
  }

  // ----- Batches -----

  /** Two neighbours belong to one thought: human bubbles of one sender. */
  predicate Continues(a: Item, b: Item) {
    a.kind.Human? && b.kind.Human? && a.sender == b.sender
  }

  /** One proactive row, or human rows of one sender. */
  predicate IsRun(batch: seq<Item>) {
    batch != [] && forall i :: 0 < i < |batch| ==> Continues(batch[i - 1], batch[i])
  }

  /** The batches cut the rows, in order, exactly where the thought breaks. */
  predicate CutsAtBreaks(items: seq<Item>, batches: seq<seq<Item>>) {
    && Flatten(batches) == items
    && (forall i :: 0 <= i < |batches| ==> IsRun(batches[i]))
    && (forall i :: 0 < i < |batches| ==> !Continues(batches[i - 1][|batches[i - 1]| - 1], batches[i][0]))
  }

  /** The length of the run a nonempty read starts with. */
  function RunLength(items: seq<Item>): (n: nat)
    requires items != []
    ensures 0 < n <= |items| && IsRun(items[..n])
    ensures n < |items| ==> !Continues(items[n - 1], items[n])
  {
    if |items| == 1 || !Continues(items[0], items[1]) then 1
    else
      var n := RunLength(items[1..]);
      RunGrowsLeft(items, n);
      1 + n
  }

  lemma RunGrowsLeft(items: seq<Item>, n: nat)
    requires 0 < n < |items| && IsRun(items[1..][..n]) && Continues(items[0], items[1])
    ensures IsRun(items[..n + 1])
  {
    var run, tail := items[..n + 1], items[1..][..n];
    forall i | 0 < i < |run| ensures Continues(run[i - 1], run[i]) {
      if i > 1 { assert run[i - 1] == tail[i - 2] && run[i] == tail[i - 1]; }
    }
  }

  function Batches(items: seq<Item>): seq<seq<Item>> {
    if items == [] then [] else
      var n := RunLength(items);
      [items[..n]] + Batches(items[n..])
  }

  lemma {:induction false} BatchesCut(items: seq<Item>)
    ensures CutsAtBreaks(items, Batches(items))
  {
    if items != [] {
      var n := RunLength(items);
      BatchesCut(items[n..]);
      PrependRun(items[..n], items[n..], Batches(items[n..]));
      assert items == items[..n] + items[n..];
    }
  }

  lemma PrependRun(run: seq<Item>, items: seq<Item>, rest: seq<seq<Item>>)
    requires IsRun(run) && CutsAtBreaks(items, rest)
    requires items != [] ==> !Continues(run[|run| - 1], items[0])
    ensures CutsAtBreaks(run + items, [run] + rest)
  {
    var all := [run] + rest;
    assert all[1..] == rest;
    if rest != [] {
      assert IsRun(rest[0]);
      assert Flatten(rest) == rest[0] + Flatten(rest[1..]);
      assert rest[0][0] == items[0];
    }
    forall i | 0 <= i < |all| ensures IsRun(all[i]) {
      assert i > 0 ==> all[i] == rest[i - 1];
    }
    forall i | 0 < i < |all| ensures !Continues(all[i - 1][|all[i - 1]| - 1], all[i][0]) {
      assert all[i] == rest[i - 1] && (i > 1 ==> all[i - 1] == rest[i - 2]);
    }
  }

  /** Cutting at the breaks leaves no choice: a run is maximal within its read. */
  lemma {:induction false} CutIsUnique(items: seq<Item>, a: seq<seq<Item>>, b: seq<seq<Item>>)
    requires CutsAtBreaks(items, a) && CutsAtBreaks(items, b)
    ensures a == b
    decreases |items|
  {
    FirstRun(items, a);
    FirstRun(items, b);
    if items != [] {
      CutIsUnique(items[|a[0]|..], a[1..], b[1..]);
      assert a == [a[0]] + a[1..] && b == [b[0]] + b[1..];
    }
  }

  /** The first batch is the read's first run, and the rest cut what remains. */
  lemma FirstRun(items: seq<Item>, a: seq<seq<Item>>)
    requires CutsAtBreaks(items, a)
    ensures a == [] <==> items == []
    ensures a != [] ==>
      var n := |a[0]|;
      && 0 < n <= |items| && a[0] == items[..n] && CutsAtBreaks(items[n..], a[1..])
      && (forall i :: 0 < i < n ==> Continues(items[i - 1], items[i]))
      && (n < |items| ==> !Continues(items[n - 1], items[n]))
  {
    if a != [] {
      var n := |a[0]|;
      assert IsRun(a[0]);
      assert Flatten(a) == a[0] + Flatten(a[1..]);
      assert items[n..] == Flatten(a[1..]);
      forall i | 0 < i < n ensures Continues(items[i - 1], items[i]) {
        assert items[i - 1] == a[0][i - 1] && items[i] == a[0][i];
      }
      if n < |items| {
        assert IsRun(a[1]);
        assert Flatten(a[1..]) == a[1] + Flatten(a[1..][1..]);
        assert items[n] == a[1][0] && items[n - 1] == a[0][n - 1];
      }
    }
  }

  /** The batch is a stretch of the rows that one thought fills and cannot be extended on either side. */
  ghost predicate MaximalIn(batch: seq<Item>, items: seq<Item>) {
    exists i, j :: 0 <= i < j <= |items| && MaximalAt(batch, items, i, j)
  }

  predicate MaximalAt(batch: seq<Item>, items: seq<Item>, i: int, j: int)
    requires 0 <= i < j <= |items|
  {
    && batch == items[i..j]
    && (|batch| > 1 ==> forall k :: 0 <= k < |batch| ==> batch[k].kind.Human? && batch[k].sender == batch[0].sender)
    && (i > 0 ==> BreaksBetween(items, i)) && (j < |items| ==> BreaksBetween(items, j))
  }

  /** The rows around a place are not bubbles of one sender. */
  predicate BreaksBetween(items: seq<Item>, i: int)
    requires 0 < i < |items|
  {
    items[i - 1].kind.Proactive? || items[i].kind.Proactive? || items[i - 1].sender != items[i].sender
  }

  /** So a run is one row, or bubbles of one person. */
  lemma {:induction false} RunIsOneVoice(batch: seq<Item>, k: nat)
    requires IsRun(batch) && k < |batch| && |batch| > 1
    ensures batch[k].kind.Human? && batch[k].sender == batch[0].sender
    decreases k
  {
    if k > 0 {
      RunIsOneVoice(batch, k - 1);
      assert Continues(batch[k - 1], batch[k]);
    } else {
      assert Continues(batch[0], batch[1]);
    }
  }

  lemma MaximalShifts(batch: seq<Item>, items: seq<Item>, n: nat, i: int, j: int)
    requires 0 < n <= |items| && (n < |items| ==> BreaksBetween(items, n))
    requires 0 <= i < j <= |items[n..]| && MaximalAt(batch, items[n..], i, j)
    ensures MaximalAt(batch, items, n + i, n + j)
  {
    assert items[n..][i..j] == items[n + i..n + j];
    assert i > 0 ==> items[n..][i - 1] == items[n + i - 1];
    assert items[n..][i] == items[n + i] && items[n..][j - 1] == items[n + j - 1];
    assert j < |items[n..]| ==> items[n..][j] == items[n + j];
  }

  lemma {:induction false} BatchIsMaximal(items: seq<Item>, batch: seq<Item>)
    requires batch in Batches(items)
    ensures MaximalIn(batch, items)
    decreases |items|
  {
    var n := RunLength(items);
    assert n < |items| ==> BreaksBetween(items, n);
    if batch == items[..n] {
      assert items[0..n] == items[..n];
      forall k | 0 <= k < n && n > 1 ensures batch[k].kind.Human? && batch[k].sender == batch[0].sender { RunIsOneVoice(batch, k); }
      assert MaximalAt(batch, items, 0, n);
    } else {
      assert batch in Batches(items[n..]);
      BatchIsMaximal(items[n..], batch);
      var i, j :| 0 <= i < j <= |items[n..]| && MaximalAt(batch, items[n..], i, j);
      MaximalShifts(batch, items, n, i, j);
    }
  }

  /** The grouping loop: a run grows item by item and is flushed where it breaks. */
  method GroupIntoBatches(items: seq<Item>) returns (batches: seq<seq<Item>>)
    ensures SortedByNum(Flatten(batches)) && multiset(Flatten(batches)) == multiset(items)
    ensures CutsAtBreaks(SortByNum(items), batches)
    ensures batches == Batches(SortByNum(items))
  {
    var ordered := SortByNum(items);
    SortSorts(items);
    batches := [];
    var current: seq<Item> := [];
    for i := 0 to |ordered|
      invariant i > 0 ==> current != [] && current[|current| - 1] == ordered[i - 1]
      invariant i == 0 ==> current == []
      invariant current != [] ==> CutsAtBreaks(ordered[..i], batches + [current])
      invariant i == 0 ==> batches == []
    {
      var item := ordered[i];
      assert ordered[..i + 1] == ordered[..i] + [item];
      if current != [] && Continues(current[|current| - 1], item) {
        Grow(ordered[..i], batches, current, item);
        current := current + [item];
      } else {
        if current != [] {
          Close(ordered[..i], batches, current, item);
          batches := batches + [current];
        }
        current := [item];
      }
    }
    if current != [] { batches := batches + [current]; }
    assert ordered[..|ordered|] == ordered;
    BatchesCut(ordered);
    CutIsUnique(ordered, batches, Batches(ordered));
  }

  lemma Grow(items: seq<Item>, batches: seq<seq<Item>>, current: seq<Item>, item: Item)
    requires current != [] && CutsAtBreaks(items, batches + [current]) && Continues(current[|current| - 1], item)
    ensures CutsAtBreaks(items + [item], batches + [current + [item]])
  {
    var a, b := batches + [current], batches + [current + [item]];
    FlattenSnoc(batches, current);
    FlattenSnoc(batches, current + [item]);
    assert IsRun(a[|batches|]);
    forall i | 0 <= i < |b| ensures IsRun(b[i]) {
      assert i < |batches| ==> b[i] == a[i] && IsRun(a[i]);
    }
    forall i | 0 < i < |b| ensures !Continues(b[i - 1][|b[i - 1]| - 1], b[i][0]) {
      assert b[i - 1] == a[i - 1] && b[i][0] == a[i][0];
    }
  }

  lemma Close(items: seq<Item>, batches: seq<seq<Item>>, current: seq<Item>, item: Item)
    requires current != [] && CutsAtBreaks(items, batches + [current]) && !Continues(current[|current| - 1], item)
    ensures CutsAtBreaks(items + [item], batches + [current] + [[item]])
  {
    FlattenSnoc(batches + [current], [item]);
    var a, b := batches + [current], batches + [current] + [[item]];
    forall i | 0 < i < |b| ensures !Continues(b[i - 1][|b[i - 1]| - 1], b[i][0]) {
      assert b[i - 1] == a[i - 1];
      assert i < |a| ==> b[i] == a[i];
    }
  }
}
