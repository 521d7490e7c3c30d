/** Duplex assembly: a front-side pass scanned in feed order and a back-side
    pass of the flipped stack, also in feed order, merged into one document
    in physical sheet order. */
module Duplex {
  import opened Scanner

  /** The merged order for equal page counts k: front page n is followed by
      back page k-1-n.  Defined from the last sheet backwards, which is how
      the page-by-page merge extends it. */
  function Interleave(front: Document, back: Document): Document
    requires |front| == |back|
  {
    if front == [] then []
    else Interleave(front[..|front| - 1], back[1..]) + [front[|front| - 1], back[0]]
  }

  lemma {:induction false} InterleaveLength(front: Document, back: Document)
    requires |front| == |back|
    ensures |Interleave(front, back)| == 2 * |front|
  {
    if front != [] {
      InterleaveLength(front[..|front| - 1], back[1..]);
    }
  }

  /** Sheet n of the merge: position 2n holds front page n and position
      2n+1 holds back page k-1-n. */
  lemma {:induction false} InterleavePair(front: Document, back: Document, n: nat)
    requires |front| == |back| && n < |front|
    ensures |Interleave(front, back)| == 2 * |front|
    ensures Interleave(front, back)[2 * n] == front[n]
    ensures Interleave(front, back)[2 * n + 1] == back[|front| - 1 - n]
  {
    var k := |front|;
    var front', back' := front[..k - 1], back[1..];
    InterleaveLength(front', back');
    var merged := Interleave(front, back);
    assert merged == Interleave(front', back') + [front[k - 1], back[0]];
    if n < k - 1 {
      InterleavePair(front', back', n);
      assert merged[2 * n] == Interleave(front', back')[2 * n];
      assert merged[2 * n + 1] == Interleave(front', back')[2 * n + 1];
      assert back'[k - 2 - n] == back[k - 1 - n];
    }
  }

  /** The merged document has 2k pages, sheet by sheet as InterleavePair
      states. */
  lemma InterleaveAt(front: Document, back: Document)
    requires |front| == |back|
    ensures |Interleave(front, back)| == 2 * |front|
    ensures forall n :: 0 <= n < |front| ==>
              && Interleave(front, back)[2 * n] == front[n]
              && Interleave(front, back)[2 * n + 1] == back[|front| - 1 - n]
  {
    InterleaveLength(front, back);
    forall n | 0 <= n < |front|
      ensures Interleave(front, back)[2 * n] == front[n]
      ensures Interleave(front, back)[2 * n + 1] == back[|front| - 1 - n]
    {
      InterleavePair(front, back, n);
    }
  }

  /** Merging loses and invents no page: the merged document is a
      permutation of the two passes together. */
  lemma {:induction false} InterleavePermutes(front: Document, back: Document)
    requires |front| == |back|
    ensures multiset(Interleave(front, back)) == multiset(front) + multiset(back)
  {
    if front != [] {
      var front', back' := front[..|front| - 1], back[1..];
      InterleavePermutes(front', back');
      PermutesStep(Interleave(front, back), Interleave(front', back'), front, back);
    }
  }

  /** One sheet of the induction in InterleavePermutes. */
  lemma PermutesStep(merged: Document, rest: Document, front: Document, back: Document)
    requires |front| > 0 && |back| > 0
    requires merged == rest + [front[|front| - 1], back[0]]
    requires multiset(rest) == multiset(front[..|front| - 1]) + multiset(back[1..])
    ensures multiset(merged) == multiset(front) + multiset(back)
  {
    assert front == front[..|front| - 1] + [front[|front| - 1]];
    assert back == [back[0]] + back[1..];
  }

  /** The front sides of the sheets: the pages at even positions. */
  function FrontPages(merged: Document): (front: Document)
    ensures |front| == |merged| / 2
  {
    seq(|merged| / 2, n requires 0 <= n < |merged| / 2 => merged[2 * n])
  }

  /** The back-side pass as it was fed: the pages at odd positions, read
      from the end. */
  function BackPages(merged: Document): (back: Document)
    ensures |back| == |merged| / 2
  {
    seq(|merged| / 2, j requires 0 <= j < |merged| / 2 => merged[|merged| - 1 - 2 * j])
  }

  /** Splitting the merged document back into its two passes recovers both
      of them exactly. */
  lemma SplitRecoversPasses(front: Document, back: Document)
    requires |front| == |back|
    ensures FrontPages(Interleave(front, back)) == front
    ensures BackPages(Interleave(front, back)) == back
  {
    InterleaveAt(front, back);
    SplitSheets(Interleave(front, back), front, back);
  }

  /** Reading a document laid out sheet by sheet gives back the passes. */
  lemma SplitSheets(merged: Document, front: Document, back: Document)
    requires |front| == |back| && |merged| == 2 * |front|
    requires forall n :: 0 <= n < |front| ==>
               merged[2 * n] == front[n] && merged[2 * n + 1] == back[|front| - 1 - n]
    ensures FrontPages(merged) == front
    ensures BackPages(merged) == back
  {
    var k := |front|;
    forall j | 0 <= j < k ensures BackPages(merged)[j] == back[j] {
      var n := k - 1 - j;
      assert merged[2 * n + 1] == back[k - 1 - n];
      assert |merged| - 1 - 2 * j == 2 * n + 1;
    }
  }

  /** Three sheets: [F0, F1, F2] and [B0, B1, B2] merge to
      [F0, B2, F1, B1, F2, B0]. */
  lemma ThreeSheets(f0: Page, f1: Page, f2: Page, b0: Page, b1: Page, b2: Page)
    ensures Interleave([f0, f1, f2], [b0, b1, b2]) == [f0, b2, f1, b1, f2, b0]
  {
    var front, back := [f0, f1, f2], [b0, b1, b2];
    InterleavePair(front, back, 0);
    InterleavePair(front, back, 1);
    InterleavePair(front, back, 2);
  }

  /** Builds the merged document page by page: for n = 0, 1, …, front page
      n and then back page k-1-n are appended. */
  method MergeDuplex(front: Document, back: Document) returns (merged: Document)
    requires |front| == |back|
    ensures merged == Interleave(front, back)
  {
    var k := |front|;
    merged := [];
    var n := 0;
    while n < k
      invariant 0 <= n <= k
      invariant merged == Interleave(front[..n], back[k - n..])
    {
      assert front[..n + 1][..n] == front[..n];
      assert back[k - n - 1..][1..] == back[k - n..];
      merged := merged + [front[n], back[k - 1 - n]];
      n := n + 1;
    }
    assert front[..k] == front && back[k - k..] == back;
  }
}
