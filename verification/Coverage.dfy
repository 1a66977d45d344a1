/** Merging coverage profiles block by block (hack/tools/mergecov/main.go). */
module Coverage {

  datatype Block = Block(
    startLine: int,
    startCol: int,
    endLine: int,
    endCol: int,
    numStmt: int,
    count: nat)

  predicate SameBlock(a: Block, b: Block) {
    a.startLine == b.startLine && a.startCol == b.startCol
    && a.endLine == b.endLine && a.endCol == b.endCol
  }

  predicate Overlap(a: Block, b: Block) {
    && !(a.endLine < b.startLine || b.endLine < a.startLine)
    && !(a.endLine == b.startLine && a.endCol <= b.startCol)
    && !(b.endLine == a.startLine && b.endCol <= a.startCol)
  }

  predicate Meets(a: Block, b: Block) {
    SameBlock(a, b) || Overlap(a, b)
  }

  /** The first block of `dest` that `b` meets, or its length. */
  function FirstMet(dest: seq<Block>, b: Block): (i: nat)
    ensures i <= |dest|
    ensures i < |dest| ==> Meets(dest[i], b)
    ensures forall j :: 0 <= j < i ==> !Meets(dest[j], b)
    decreases dest
  {
    if dest == [] || Meets(dest[0], b) then 0
    else
      var rest := dest[1..];
      var k := FirstMet(rest, b);
      assert forall j :: 1 <= j < k + 1 ==> dest[j] == rest[j - 1];
      k + 1
  }

  /** The count a met block ends up with. */
  function MergedCount(existing: Block, b: Block): nat {
    if SameBlock(existing, b) then existing.count + b.count
    else if b.count > existing.count then b.count
    else existing.count
  }

  function MergeOne(dest: seq<Block>, b: Block): seq<Block> {
    var i := FirstMet(dest, b);
    if i == |dest| then dest + [b]
    else dest[i := dest[i].(count := MergedCount(dest[i], b))]
  }

  function MergeAll(dest: seq<Block>, src: seq<Block>): seq<Block>
    decreases src
  {
    if src == [] then dest else MergeOne(MergeAll(dest, src[..|src| - 1]), src[|src| - 1])
  }

  method AppendBlocks(initial: seq<Block>, src: seq<Block>) returns (dest: seq<Block>)
    ensures dest == MergeAll(initial, src)
    ensures Tidy(initial + src) ==> dest == initial + src
  {
    dest := initial;
    var n := 0;
    while n < |src|
      invariant 0 <= n <= |src| && dest == MergeAll(initial, src[..n])
    {
      var block := src[n];
      assert src[..n + 1][..n] == src[..n];
      var replaced := false;
      var idx := 0;
      while idx < |dest|
        invariant 0 <= idx <= |dest| && !replaced && dest == MergeAll(initial, src[..n])
        invariant forall j :: 0 <= j < idx ==> !Meets(dest[j], block)
      {
        var existing := dest[idx];
        if SameBlock(existing, block) {
          assert FirstMet(dest, block) == idx;
          dest := dest[idx := existing.(count := existing.count + block.count)];
          replaced := true;
          break;
        }
        if Overlap(existing, block) {
          assert FirstMet(dest, block) == idx;
          if block.count > existing.count {
            dest := dest[idx := existing.(count := block.count)];
          }
          replaced := true;
          break;
        }
        idx := idx + 1;
      }
      if !replaced {
        dest := dest + [block];
      }
      n := n + 1;
    }
    assert src[..|src|] == src;
    if Tidy(initial + src) {
      MergeConcatenates(initial, src);
    }
  }

  // ------------------------------------------------------------- blocks as sets of positions

  /** The position is in the block's span, which includes its start and not its end. */
  predicate Covers(b: Block, line: int, col: int) {
    && (b.startLine < line || (b.startLine == line && b.startCol <= col))
    && (line < b.endLine || (line == b.endLine && col < b.endCol))
  }

  /** A span with something in it. */
  predicate Proper(b: Block) {
    b.startLine < b.endLine || (b.startLine == b.endLine && b.startCol < b.endCol)
  }

  ghost predicate SharePosition(a: Block, b: Block) {
    exists line, col :: Covers(a, line, col) && Covers(b, line, col)
  }

  lemma OverlapIffShared(a: Block, b: Block)
    requires Proper(a) && Proper(b)
    ensures Overlap(a, b) <==> SharePosition(a, b)
    ensures SameBlock(a, b) ==> SharePosition(a, b)
  {
    if Overlap(a, b) {
      if a.startLine < b.startLine || (a.startLine == b.startLine && a.startCol < b.startCol) {
        assert Covers(a, b.startLine, b.startCol) && Covers(b, b.startLine, b.startCol);
      } else {
        assert Covers(a, a.startLine, a.startCol) && Covers(b, a.startLine, a.startCol);
      }
    }
  }

  /** `i` is the first place of the profile sharing a position with `b`, or its length. */
  ghost predicate FirstSharing(dest: seq<Block>, b: Block, i: nat) {
    && i <= |dest|
    && (forall j :: 0 <= j < i ==> !SharePosition(dest[j], b))
    && (i < |dest| ==> SharePosition(dest[i], b))
  }

  predicate AllProper(bs: seq<Block>) {
    forall i :: 0 <= i < |bs| ==> Proper(bs[i])
  }

  lemma FirstShared(dest: seq<Block>, b: Block, i: nat)
    requires Proper(b) && AllProper(dest) && FirstSharing(dest, b, i)
    ensures FirstMet(dest, b) == i
  {
    var k := FirstMet(dest, b);
    if k < |dest| {
      OverlapIffShared(dest[k], b);
    }
    if i < |dest| {
      OverlapIffShared(dest[i], b);
    }
  }

  /** The two blocks have the same four coordinates. */
  predicate SameCoordinates(a: Block, b: Block) {
    (a.startLine, a.startCol, a.endLine, a.endCol) == (b.startLine, b.startCol, b.endLine, b.endCol)
  }

  lemma MergeOfOne(dest: seq<Block>, b: Block)
    ensures MergeAll(dest, [b]) == MergeOne(dest, b)
  {
    assert [b][..0] == [];
  }

  lemma CountOfTwo(existing: Block, b: Block)
    ensures MergedCount(existing, b) ==
      if SameCoordinates(existing, b) then existing.count + b.count
      else if existing.count < b.count then b.count
      else existing.count
  {
  }

  /** One source block, in terms of positions: it is appended unchanged when it shares none with the
      profile, and otherwise only the count of the first block it shares one with changes, to the sum
      for equal coordinates and to the larger count for others. */
  lemma MergeByPositions(dest: seq<Block>, b: Block, i: nat)
    requires Proper(b) && AllProper(dest) && FirstSharing(dest, b, i)
    ensures i == |dest| ==> MergeAll(dest, [b]) == dest + [b]
    ensures i < |dest| ==>
      MergeAll(dest, [b]) ==
        dest[i := dest[i].(count := if SameCoordinates(dest[i], b) then dest[i].count + b.count
                                    else if dest[i].count < b.count then b.count
                                    else dest[i].count)]
  {
    MergeOfOne(dest, b);
    FirstShared(dest, b, i);
    if i < |dest| {
      CountOfTwo(dest[i], b);
    }
  }

  /** No two blocks of the profile share a position. */
  ghost predicate Tidy(bs: seq<Block>) {
    && AllProper(bs)
    && forall i, j :: 0 <= i < j < |bs| ==> !SharePosition(bs[i], bs[j])
  }

  /** Profiles that share no position are put one after the other, losing nothing. */
  lemma {:induction false} MergeConcatenates(dest: seq<Block>, src: seq<Block>)
    requires Tidy(dest + src)
    ensures MergeAll(dest, src) == dest + src
    decreases src
  {
    if src == [] {
      assert dest + src == dest;
    } else {
      var n := |src| - 1;
      var mid := dest + src[..n];
      var all := dest + src;
      assert forall i :: 0 <= i < |mid| ==> mid[i] == all[i];
      assert all == mid + [src[n]] && all[|mid|] == src[n];
      MergeConcatenates(dest, src[..n]);
      assert [src[n]][..0] == [];
      MergeByPositions(mid, src[n], |mid|);
    }
  }

  // ---------------------------------------------------------------- what merging keeps

  /** No two blocks of a profile overlap or coincide. */
  predicate Disjoint(bs: seq<Block>) {
    forall i, j :: 0 <= i < j < |bs| ==> !Meets(bs[i], bs[j])
  }

  function Shape(b: Block): Block {
    b.(count := 0)
  }

  /** `after` has the blocks of `before` in place, with counts no smaller, and perhaps more. */
  predicate Extends(before: seq<Block>, after: seq<Block>) {
    && |before| <= |after|
    && forall i :: 0 <= i < |before| ==>
      Shape(after[i]) == Shape(before[i]) && before[i].count <= after[i].count
  }

  /** `b` is accounted for: some block meets it and counts at least as much. */
  ghost predicate Represented(b: Block, bs: seq<Block>) {
    exists i :: 0 <= i < |bs| && Meets(bs[i], b) && b.count <= bs[i].count
  }

  lemma MeetsBySpan(a: Block, b: Block, c: Block)
    requires Shape(a) == Shape(b)
    ensures Meets(a, c) == Meets(b, c) && Meets(c, a) == Meets(c, b)
  {
    assert a.startLine == b.startLine && a.startCol == b.startCol;
    assert a.endLine == b.endLine && a.endCol == b.endCol;
  }

  lemma MergeOneKeeps(dest: seq<Block>, b: Block)
    requires Disjoint(dest)
    ensures var after := MergeOne(dest, b);
      Disjoint(after) && Extends(dest, after) && Represented(b, after)
  {
    var i, after := FirstMet(dest, b), MergeOne(dest, b);
    if i == |dest| {
      assert after[i] == b && SameBlock(b, b);
    } else {
      MeetsBySpan(dest[i], after[i], b);
      assert Meets(after[i], b) && b.count <= after[i].count;
    }
  }

  lemma RepresentedLater(b: Block, before: seq<Block>, after: seq<Block>)
    requires Represented(b, before) && Extends(before, after)
    ensures Represented(b, after)
  {
    var i :| 0 <= i < |before| && Meets(before[i], b) && b.count <= before[i].count;
    MeetsBySpan(before[i], after[i], b);
    assert Meets(after[i], b) && b.count <= after[i].count;
  }

  /** Merging into a disjoint profile keeps it disjoint, lowers no count, moves no block, and accounts
      for every source block. */
  lemma {:induction false} MergeKeeps(dest: seq<Block>, src: seq<Block>)
    requires Disjoint(dest)
    ensures var after := MergeAll(dest, src);
      && Disjoint(after)
      && Extends(dest, after)
      && forall k :: 0 <= k < |src| ==> Represented(src[k], after)
    decreases src
  {
    if src == [] {
    } else {
      var before, b := src[..|src| - 1], src[|src| - 1];
      var mid := MergeAll(dest, before);
      MergeKeeps(dest, before);
      MergeOneKeeps(mid, b);
      forall k | 0 <= k < |src|
        ensures Represented(src[k], MergeAll(dest, src))
      {
        if k < |before| {
          assert src[k] == before[k];
          RepresentedLater(src[k], mid, MergeAll(dest, src));
        }
      }
    }
  }

  /** Blocks that overlap a block without coinciding leave it at the largest of all the counts. */
  lemma {:induction false} OverlapsTakeMaximum(x: Block, src: seq<Block>)
    requires forall k :: 0 <= k < |src| ==> Overlap(x, src[k]) && !SameBlock(x, src[k])
    ensures var after := MergeAll([x], src);
      && |after| == 1 && Shape(after[0]) == Shape(x)
      && x.count <= after[0].count
      && (forall k :: 0 <= k < |src| ==> src[k].count <= after[0].count)
      && (after[0].count == x.count || exists k :: 0 <= k < |src| && src[k].count == after[0].count)
    decreases src
  {
    if src == [] {
    } else {
      var before, b := src[..|src| - 1], src[|src| - 1];
      OverlapsTakeMaximum(x, before);
      var mid := MergeAll([x], before);
      MeetsBySpan(mid[0], x, b);
      assert !SameBlock(mid[0], b);
      assert FirstMet(mid, b) == 0;
      assert forall k :: 0 <= k < |before| ==> before[k] == src[k];
    }
  }

  // --------------------------------------------------- profiles over one shared layout

  function MergeProfiles(profiles: seq<seq<Block>>): seq<Block>
    decreases profiles
  {
    if profiles == [] then []
    else MergeAll(MergeProfiles(profiles[..|profiles| - 1]), profiles[|profiles| - 1])
  }

  predicate Follows(layout: seq<Block>, bs: seq<Block>) {
    |bs| == |layout| && forall i :: 0 <= i < |bs| ==> Shape(bs[i]) == Shape(layout[i])
  }

  predicate AllFollow(layout: seq<Block>, profiles: seq<seq<Block>>) {
    forall p :: 0 <= p < |profiles| ==> Follows(layout, profiles[p])
  }

  /** The sum of the counts of block `i` over the profiles. */
  function CountAt(layout: seq<Block>, profiles: seq<seq<Block>>, i: nat): nat
    requires AllFollow(layout, profiles) && i < |layout|
    decreases profiles
  {
    if profiles == [] then 0
    else
      var n := |profiles| - 1;
      assert AllFollow(layout, profiles[..n]);
      CountAt(layout, profiles[..n], i) + profiles[n][i].count
  }

  /** In a disjoint profile a block of the layout meets only its own place. */
  lemma MeetsOwnPlace(layout: seq<Block>, dest: seq<Block>, b: Block, k: nat)
    requires Disjoint(layout) && Follows(layout, dest) && k < |layout|
    requires Shape(b) == Shape(layout[k])
    ensures FirstMet(dest, b) == k && SameBlock(dest[k], b)
  {
    assert dest[k].startLine == layout[k].startLine == b.startLine;
    assert dest[k].startCol == layout[k].startCol == b.startCol;
    assert dest[k].endLine == layout[k].endLine == b.endLine;
    assert dest[k].endCol == layout[k].endCol == b.endCol;
    forall j | 0 <= j < k
      ensures !Meets(dest[j], b)
    {
      MeetsBySpan(layout[j], dest[j], b);
      MeetsBySpan(layout[k], b, layout[j]);
    }
  }

  /** A further profile over the same layout adds its counts place by place. */
  lemma {:induction false} MergeAddsPointwise(layout: seq<Block>, dest: seq<Block>, src: seq<Block>)
    requires Disjoint(layout) && Follows(layout, dest)
    requires |src| <= |layout| && forall i :: 0 <= i < |src| ==> Shape(src[i]) == Shape(layout[i])
    ensures var after := MergeAll(dest, src);
      && Follows(layout, after)
      && (forall i :: 0 <= i < |src| ==> after[i].count == dest[i].count + src[i].count)
      && (forall i :: |src| <= i < |dest| ==> after[i] == dest[i])
    decreases src
  {
    if src == [] {
    } else {
      var k := |src| - 1;
      MergeAddsPointwise(layout, dest, src[..k]);
      MeetsOwnPlace(layout, MergeAll(dest, src[..k]), src[k], k);
    }
  }

  /** The first profile is copied. */
  lemma {:induction false} MergeIntoEmpty(layout: seq<Block>, src: seq<Block>)
    requires Disjoint(layout)
    requires |src| <= |layout| && forall i :: 0 <= i < |src| ==> Shape(src[i]) == Shape(layout[i])
    ensures MergeAll([], src) == src
    decreases src
  {
    if src == [] {
    } else {
      var k := |src| - 1;
      MergeIntoEmpty(layout, src[..k]);
      forall j | 0 <= j < k
        ensures !Meets(src[j], src[k])
      {
        MeetsBySpan(layout[j], src[j], src[k]);
        MeetsBySpan(layout[k], src[k], layout[j]);
      }
      assert FirstMet(src[..k], src[k]) == k;
      assert src[..k] + [src[k]] == src;
    }
  }

  /** Over one disjoint layout the merged profile is the pointwise sum of all profiles. */
  lemma {:induction false} MergeIsPointwiseSum(layout: seq<Block>, profiles: seq<seq<Block>>)
    requires Disjoint(layout) && AllFollow(layout, profiles) && profiles != []
    ensures var merged := MergeProfiles(profiles);
      && Follows(layout, merged)
      && forall i :: 0 <= i < |layout| ==> merged[i].count == CountAt(layout, profiles, i)
    decreases profiles
  {
    var n := |profiles| - 1;
    var before, last := profiles[..n], profiles[n];
    assert AllFollow(layout, before);
    if n == 0 {
      MergeIntoEmpty(layout, last);
      assert MergeProfiles(before) == [];
      assert forall i :: 0 <= i < |layout| ==> CountAt(layout, before, i) == 0;
    } else {
      MergeIsPointwiseSum(layout, before);
      MergeAddsPointwise(layout, MergeProfiles(before), last);
    }
  }

  lemma {:induction false} CountWithout(layout: seq<Block>, profiles: seq<seq<Block>>, k: nat, i: nat)
    requires AllFollow(layout, profiles) && i < |layout| && k < |profiles|
    ensures var rest := profiles[..k] + profiles[k + 1..];
      && AllFollow(layout, rest)
      && CountAt(layout, profiles, i) == CountAt(layout, rest, i) + profiles[k][i].count
    decreases profiles
  {
    var n := |profiles| - 1;
    var rest := profiles[..k] + profiles[k + 1..];
    if k == n {
      assert rest == profiles[..n];
    } else {
      var before := profiles[..n];
      CountWithout(layout, before, k, i);
      var shorter := before[..k] + before[k + 1..];
      assert profiles[k + 1..] == before[k + 1..] + [profiles[n]];
      assert rest == shorter + [profiles[n]];
      assert rest[..|rest| - 1] == shorter;
    }
  }

  lemma Without(layout: seq<Block>, profiles: seq<seq<Block>>, k: nat, i: nat) returns (rest: seq<seq<Block>>)
    requires AllFollow(layout, profiles) && i < |layout| && k < |profiles|
    ensures |rest| == |profiles| - 1
    ensures multiset(rest) == multiset(profiles) - multiset{profiles[k]}
    ensures AllFollow(layout, rest)
    ensures CountAt(layout, profiles, i) == CountAt(layout, rest, i) + profiles[k][i].count
  {
    rest := profiles[..k] + profiles[k + 1..];
    CountWithout(layout, profiles, k, i);
    BagWithout(profiles, k);
  }

  lemma BagWithout(profiles: seq<seq<Block>>, k: nat)
    requires k < |profiles|
    ensures multiset(profiles[..k] + profiles[k + 1..]) == multiset(profiles) - multiset{profiles[k]}
  {
    assert profiles == profiles[..k] + [profiles[k]] + profiles[k + 1..];
  }

  lemma {:induction false} CountOfBag(layout: seq<Block>, ps: seq<seq<Block>>, qs: seq<seq<Block>>, i: nat)
    requires AllFollow(layout, ps) && AllFollow(layout, qs) && i < |layout|
    requires multiset(ps) == multiset(qs)
    ensures CountAt(layout, ps, i) == CountAt(layout, qs, i)
    decreases |ps|
  {
    assert |multiset(ps)| == |multiset(qs)|;
    if ps != [] {
      assert ps[0] in multiset(qs);
      var k :| 0 <= k < |qs| && qs[k] == ps[0];
      var ps' := Without(layout, ps, 0, i);
      var qs' := Without(layout, qs, k, i);
      CountOfBag(layout, ps', qs', i);
    }
  }

  /** The order of the profiles does not matter. */
  lemma ProfileOrderIrrelevant(layout: seq<Block>, ps: seq<seq<Block>>, qs: seq<seq<Block>>)
    requires Disjoint(layout) && AllFollow(layout, ps) && AllFollow(layout, qs)
    requires multiset(ps) == multiset(qs)
    ensures MergeProfiles(ps) == MergeProfiles(qs)
  {
    assert |multiset(ps)| == |multiset(qs)|;
    if ps != [] {
      MergeIsPointwiseSum(layout, ps);
      MergeIsPointwiseSum(layout, qs);
      var a, b := MergeProfiles(ps), MergeProfiles(qs);
      forall i | 0 <= i < |layout|
        ensures a[i] == b[i]
      {
        CountOfBag(layout, ps, qs, i);
        assert a[i] == Shape(a[i]).(count := a[i].count) && b[i] == Shape(b[i]).(count := b[i].count);
      }
    }
  }
}
