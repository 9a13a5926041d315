/** Match indices and context groups of a content search
    (loopal-backend/src/search/grep_match.rs). */
module Grep {
  import opened Prelude
  import Truncate

  // ---- line numbers of byte positions -----------------------------------

  /** Newlines in the first `p` bytes, which is the line a byte lies on. */
  function NewlinesBefore(content: string, p: nat): nat
    requires p <= |content|
  {
    if p == 0 then 0 else NewlinesBefore(content, p - 1) + (if content[p - 1] == '\n' then 1 else 0)
  }

  /** Positions of the newlines among the first `n` bytes, ascending. */
  function NewlineOffsets(content: string, n: nat): (r: seq<int>)
    requires n <= |content|
    ensures |r| == NewlinesBefore(content, n)
    ensures forall i :: 0 <= i < |r| ==> 0 <= r[i] < n
  {
    if n == 0 then []
    else NewlineOffsets(content, n - 1) + (if content[n - 1] == '\n' then [n - 1] else [])
  }

  lemma {:induction false} OffsetsAscend(content: string, n: nat)
    requires n <= |content|
    ensures Ascending(NewlineOffsets(content, n))
  {
    if n > 0 {
      OffsetsAscend(content, n - 1);
    }
  }

  /** The table of a prefix is a prefix of the table. */
  lemma {:induction false} OffsetsPrefix(content: string, p: nat, n: nat)
    requires p <= n <= |content|
    ensures var a, b := NewlineOffsets(content, p), NewlineOffsets(content, n);
            |a| <= |b| && a == b[..|a|] && forall i :: |a| <= i < |b| ==> p <= b[i]
  {
    if p < n {
      OffsetsPrefix(content, p, n - 1);
    }
  }

  /** `partition_point(|&o| o < p)` by bisection. */
  function PartitionPoint(offsets: seq<int>, p: int, lo: nat, hi: nat): (k: nat)
    requires Ascending(offsets) && lo <= hi <= |offsets|
    requires (forall i :: 0 <= i < lo ==> offsets[i] < p) && forall i :: hi <= i < |offsets| ==> p <= offsets[i]
    ensures k <= |offsets|
    ensures (forall i :: 0 <= i < k ==> offsets[i] < p) && forall i :: k <= i < |offsets| ==> p <= offsets[i]
    decreases hi - lo
  {
    if lo == hi then lo
    else
      var mid := lo + (hi - lo) / 2;
      if offsets[mid] < p then PartitionPoint(offsets, p, mid + 1, hi) else PartitionPoint(offsets, p, lo, mid)
  }

  lemma OnePartition(offsets: seq<int>, p: int, a: nat, b: nat)
    requires a <= |offsets| && b <= |offsets|
    requires (forall i :: 0 <= i < a ==> offsets[i] < p) && forall i :: a <= i < |offsets| ==> p <= offsets[i]
    requires (forall i :: 0 <= i < b ==> offsets[i] < p) && forall i :: b <= i < |offsets| ==> p <= offsets[i]
    ensures a == b
  {
    var atA := if a < |offsets| then offsets[a] else p;
    var atB := if b < |offsets| then offsets[b] else p;
  }

  /** Bisecting the table counts the newlines before the position. */
  lemma TableSearchCounts(content: string, p: nat)
    requires p <= |content|
    ensures Ascending(NewlineOffsets(content, |content|))
    ensures var offsets := NewlineOffsets(content, |content|);
            PartitionPoint(offsets, p, 0, |offsets|) == NewlinesBefore(content, p)
  {
    OffsetsAscend(content, |content|);
    OffsetsPrefix(content, p, |content|);
    var offsets, before := NewlineOffsets(content, |content|), NewlineOffsets(content, p);
    assert forall i :: 0 <= i < |before| ==> offsets[i] == before[i];
    OnePartition(offsets, p, PartitionPoint(offsets, p, 0, |offsets|), |before|);
  }

  // ---- match indices ----------------------------------------------------

  /** A match of the pattern: the byte range `start..end`. */
  datatype Span = Span(start: nat, end: nat)

  predicate SpansOf(content: string, spans: seq<Span>) {
    forall m :: m in spans ==> m.start <= m.end <= |content|
  }

  /** Line `idx` is touched by the match, clipped to line `last`. */
  predicate Touches(content: string, m: Span, last: nat, idx: int)
    requires m.start <= m.end <= |content|
  {
    NewlinesBefore(content, m.start) <= idx <= Min(NewlinesBefore(content, m.end), last)
  }

  predicate Touched(content: string, spans: seq<Span>, last: nat, idx: int)
    requires SpansOf(content, spans)
  {
    exists m :: m in spans && Touches(content, m, last, idx)
  }

  /** `spans` are the matches in the whole content, `isMatch` the test of one
      line; which is used depends on `multiline`. */
  method FindMatchIndices(content: string, lines: seq<string>, spans: seq<Span>, isMatch: string -> bool,
                          multiline: bool) returns (indices: set<int>)
    requires SpansOf(content, spans)
    ensures multiline ==>
              forall i :: i in indices <==> Touched(content, spans, SaturatingSub(|lines|, 1), i)
    ensures !multiline ==> forall i :: i in indices <==> 0 <= i < |lines| && isMatch(lines[i])
  {
    indices := {};
    if multiline {
      var offsets := NewlineOffsets(content, |content|);
      OffsetsAscend(content, |content|);
      var last := SaturatingSub(|lines|, 1);
      for k := 0 to |spans|
        invariant forall i :: i in indices <==> Touched(content, spans[..k], last, i)
      {
        var mat := spans[k];
        assert mat in spans;
        TableSearchCounts(content, mat.start);
        TableSearchCounts(content, mat.end);
        var start := PartitionPoint(offsets, mat.start, 0, |offsets|);
        var end := PartitionPoint(offsets, mat.end, 0, |offsets|);
        ghost var before := indices;
        var idx := start;
        while idx <= Min(end, last)
          invariant start <= idx
          invariant forall i :: i in indices <==> i in before || (start <= i < idx && i <= Min(end, last))
        {
          indices := indices + {idx};
          idx := idx + 1;
        }
        assert spans[..k + 1] == spans[..k] + [mat];
        forall i ensures i in indices <==> Touched(content, spans[..k + 1], last, i) {
          OneMoreSpan(content, spans[..k], mat, last, i);
        }
      }
      assert spans[..|spans|] == spans;
    } else {
      for idx := 0 to |lines|
        invariant forall i :: i in indices <==> 0 <= i < idx && isMatch(lines[i])
      {
        if isMatch(lines[idx]) {
          indices := indices + {idx};
        }
      }
    }
  }

  lemma OneMoreSpan(content: string, spans: seq<Span>, m: Span, last: nat, i: int)
    requires SpansOf(content, spans + [m]) && SpansOf(content, spans) && m.start <= m.end <= |content|
    ensures Touched(content, spans + [m], last, i) <==> Touched(content, spans, last, i) || Touches(content, m, last, i)
  {
    assert m in spans + [m];
  }

  /** Every touched index is a line of the file, unless the file is empty and
      the pattern matches it anyway: then line 0 is reported although there is
      none. */
  lemma TouchedIndicesAreLines(content: string, spans: seq<Span>)
    requires SpansOf(content, spans)
    ensures var n := |Truncate.Lines(content)|;
            (forall i :: Touched(content, spans, SaturatingSub(n, 1), i) ==> 0 <= i < n) <==>
            content != "" || spans == []
  {
    Truncate.PiecesTile(content);
    var n := |Truncate.Lines(content)|;
    var last := SaturatingSub(n, 1);
    assert n == 0 <==> content == "";
    if n == 0 && spans != [] {
      assert spans[0] in spans && Touches(content, spans[0], last, 0);
      assert Touched(content, spans, last, 0);
    }
    forall i | Touched(content, spans, last, i) ensures 0 <= i <= last && spans != [] {
      var m :| m in spans && Touches(content, m, last, i);
    }
  }

  /** An empty file with an empty match: line 0 is touched and does not exist. */
  lemma EmptyFileTouchesLineZero()
    ensures var lines := Truncate.Lines("");
            |lines| == 0 && SpansOf("", [Span(0, 0)]) && Touched("", [Span(0, 0)], SaturatingSub(|lines|, 1), 0)
  {
    var m := Span(0, 0);
    assert m in [m] && Touches("", m, 0, 0);
  }

  // ---- context groups ---------------------------------------------------

  datatype MatchLine = MatchLine(lineNum: nat, content: string, isMatch: bool)

  /** Within the context of some match. */
  predicate InContext(matches: set<int>, before: nat, after: nat, k: int) {
    exists m :: m in matches && m - before <= k <= m + after
  }

  /** The iteration order of an ordered set of line indices. */
  function InOrder(s: set<int>, n: nat): (r: seq<int>)
    ensures Ascending(r)
    ensures forall i :: i in r <==> i in s && 0 <= i < n
    ensures forall k :: 0 <= k < |r| ==> 0 <= r[k] < n
  {
    if n == 0 then [] else InOrder(s, n - 1) + (if n - 1 in s then [n - 1] else [])
  }

  datatype Range = Range(start: int, end: int)

  function ContextAt(before: nat, after: nat, last: nat, i: int): Range {
    Range(Max(i - before, 0), Min(i + after, last))
  }

  function ContextOf(before: nat, after: nat, last: nat): int -> Range {
    (i: int) => ContextAt(before, after, last, i)
  }

  predicate Covers(ranges: seq<Range>, k: int) {
    exists r :: r in ranges && r.start <= k <= r.end
  }

  /** Non-empty ranges within `0..last`, with a gap between neighbours. */
  predicate Separated(ranges: seq<Range>, last: nat) {
    && (forall i :: 0 <= i < |ranges| ==> 0 <= ranges[i].start <= ranges[i].end <= last)
    && (forall i :: 0 < i < |ranges| ==> ranges[i - 1].end + 1 < ranges[i].start)
  }

  lemma CoversLast(ranges: seq<Range>, r: Range, k: int)
    ensures Covers(ranges + [r], k) <==> Covers(ranges, k) || r.start <= k <= r.end
  {
    assert r in ranges + [r];
  }

  lemma JoinedCovers(front: seq<Range>, prev: Range, r: Range, k: int)
    requires prev.start <= prev.end && r.start <= r.end && prev.start <= r.start <= prev.end + 1
    ensures Covers(front + [prev.(end := Max(prev.end, r.end))], k) <==>
              Covers(front + [prev], k) || r.start <= k <= r.end
  {
    CoversLast(front, prev, k);
    CoversLast(front, prev.(end := Max(prev.end, r.end)), k);
  }

  /** The merge loop: ranges that come with ascending starts are joined when
      they touch or overlap, and together cover the same lines. */
  method MergeRanges(ranges: seq<Range>, last: nat) returns (merged: seq<Range>)
    requires forall i :: 0 <= i < |ranges| ==> 0 <= ranges[i].start <= ranges[i].end <= last
    requires forall i, j :: 0 <= i < j < |ranges| ==> ranges[i].start <= ranges[j].start
    ensures Separated(merged, last)
    ensures forall k :: Covers(merged, k) <==> Covers(ranges, k)
  {
    merged := [];
    for i := 0 to |ranges|
      invariant Separated(merged, last)
      invariant forall k :: Covers(merged, k) <==> Covers(ranges[..i], k)
      invariant merged != [] ==> i > 0 && merged[|merged| - 1].start <= ranges[i - 1].start
    {
      var r := ranges[i];
      assert ranges[..i + 1] == ranges[..i] + [r];
      if merged != [] && r.start <= merged[|merged| - 1].end + 1 {
        var prev, front := merged[|merged| - 1], merged[..|merged| - 1];
        var joined := prev.(end := Max(prev.end, r.end));
        assert merged == front + [prev];
        forall k ensures Covers(front + [joined], k) <==> Covers(ranges[..i + 1], k) {
          JoinedCovers(front, prev, r, k);
          CoversLast(ranges[..i], r, k);
        }
        merged := front + [joined];
      } else {
        forall k ensures Covers(merged + [r], k) <==> Covers(ranges[..i + 1], k) {
          CoversLast(merged, r, k);
          CoversLast(ranges[..i], r, k);
        }
        merged := merged + [r];
      }
    }
    assert ranges[..|ranges|] == ranges;
  }

  function LineAt(lines: seq<string>, matches: set<int>, i: int): MatchLine
    requires 0 <= i < |lines|
  {
    MatchLine(i + 1, lines[i], i in matches)
  }

  function GroupOf(lines: seq<string>, matches: set<int>, r: Range): seq<MatchLine>
    requires 0 <= r.start <= r.end < |lines|
  {
    seq(r.end - r.start + 1, j requires 0 <= j < r.end - r.start + 1 => LineAt(lines, matches, r.start + j))
  }

  function Groups(lines: seq<string>, matches: set<int>, ranges: seq<Range>): seq<seq<MatchLine>>
    requires forall i :: 0 <= i < |ranges| ==> 0 <= ranges[i].start <= ranges[i].end < |lines|
  {
    seq(|ranges|, i requires 0 <= i < |ranges| => GroupOf(lines, matches, ranges[i]))
  }

  function FirstLine(g: seq<MatchLine>): nat {
    if g == [] then 0 else g[0].lineNum
  }

  /** A group is a run of consecutive lines, each shown as it is. */
  predicate GroupOk(lines: seq<string>, matches: set<int>, g: seq<MatchLine>) {
    && g != [] && 1 <= FirstLine(g) && FirstLine(g) + |g| - 1 <= |lines|
    && forall j :: 0 <= j < |g| ==>
         var i := FirstLine(g) - 1 + j;
         g[j] == MatchLine(i + 1, lines[i], i in matches)
  }

  predicate Holds(g: seq<MatchLine>, lineNum: int) {
    FirstLine(g) <= lineNum < FirstLine(g) + |g|
  }

  predicate Lists(groups: seq<seq<MatchLine>>, lineNum: int) {
    exists g :: g in groups && Holds(g, lineNum)
  }

  /** Ascending, with at least one line between neighbours. */
  predicate Apart(groups: seq<seq<MatchLine>>) {
    forall i :: 0 < i < |groups| ==> FirstLine(groups[i - 1]) + |groups[i - 1]| < FirstLine(groups[i])
  }

  /** Lists a line iff it is in the context of a match. Groups are runs of
      consecutive lines in ascending order with at least one unlisted line
      between them; a line is flagged iff it is a match. */
  method CollectContextGroups(lines: seq<string>, matchIndices: set<int>, before: nat, after: nat)
    returns (groups: seq<seq<MatchLine>>)
    requires forall i :: i in matchIndices ==> 0 <= i < |lines|
    ensures forall g :: g in groups ==> GroupOk(lines, matchIndices, g)
    ensures Apart(groups)
    ensures forall k :: 0 <= k < |lines| ==> (Lists(groups, k + 1) <==> InContext(matchIndices, before, after, k))
  {
    var last := SaturatingSub(|lines|, 1);
    var order := InOrder(matchIndices, |lines|);
    var ranges := Map(ContextOf(before, after, last), order);
    RangesFit(order, before, after, last, |lines|);
    var merged := MergeRanges(ranges, last);
    RangesWithinLines(lines, ranges, merged, last);
    groups := Groups(lines, matchIndices, merged);
    GroupsAreRanges(lines, matchIndices, merged);
    forall k | 0 <= k < |lines| ensures Lists(groups, k + 1) <==> InContext(matchIndices, before, after, k) {
      RangesAreContexts(matchIndices, order, before, after, last, k);
      GroupsListRanges(lines, matchIndices, merged, k);
    }
  }

  lemma RangesFit(order: seq<int>, before: nat, after: nat, last: nat, n: nat)
    requires Ascending(order) && (forall k :: 0 <= k < |order| ==> 0 <= order[k] < n) && last == SaturatingSub(n, 1)
    ensures var ranges := Map(ContextOf(before, after, last), order);
            && (forall i :: 0 <= i < |ranges| ==> 0 <= ranges[i].start <= ranges[i].end <= last)
            && (forall i, j :: 0 <= i < j < |ranges| ==> ranges[i].start <= ranges[j].start)
  {
    var ranges := Map(ContextOf(before, after, last), order);
    assert forall i :: 0 <= i < |ranges| ==> ranges[i] == ContextAt(before, after, last, order[i]);
    forall i, j | 0 <= i < j < |ranges| ensures ranges[i].start <= ranges[j].start {
      assert order[i] < order[j];
    }
  }

  lemma RangesWithinLines(lines: seq<string>, ranges: seq<Range>, merged: seq<Range>, last: nat)
    requires last == SaturatingSub(|lines|, 1) && Separated(merged, last)
    requires |lines| == 0 ==> ranges == []
    requires forall k :: Covers(merged, k) <==> Covers(ranges, k)
    ensures forall i :: 0 <= i < |merged| ==> 0 <= merged[i].start <= merged[i].end < |lines|
  {
    if merged != [] {
      var k := merged[0].start;
      assert merged[0] in merged && Covers(merged, k);
      assert Covers(ranges, k);
      assert ranges != [] && |lines| > 0;
    }
  }

  lemma GroupsAreRanges(lines: seq<string>, matches: set<int>, merged: seq<Range>)
    requires forall i :: 0 <= i < |merged| ==> 0 <= merged[i].start <= merged[i].end < |lines|
    requires forall i :: 0 < i < |merged| ==> merged[i - 1].end + 1 < merged[i].start
    ensures var groups := Groups(lines, matches, merged);
            Apart(groups) && forall g :: g in groups ==> GroupOk(lines, matches, g)
  {
    var groups := Groups(lines, matches, merged);
    forall i | 0 <= i < |groups|
      ensures FirstLine(groups[i]) == merged[i].start + 1 && |groups[i]| == merged[i].end - merged[i].start + 1
      ensures GroupOk(lines, matches, groups[i])
    {
      GroupIsRange(lines, matches, merged[i]);
      assert groups[i] == GroupOf(lines, matches, merged[i]);
    }
  }

  lemma GroupIsRange(lines: seq<string>, matches: set<int>, r: Range)
    requires 0 <= r.start <= r.end < |lines|
    ensures var g := GroupOf(lines, matches, r);
            FirstLine(g) == r.start + 1 && |g| == r.end - r.start + 1 && GroupOk(lines, matches, g)
  {
    var g := GroupOf(lines, matches, r);
    assert g[0] == LineAt(lines, matches, r.start);
    assert forall j :: 0 <= j < |g| ==> g[j] == LineAt(lines, matches, r.start + j);
  }

  lemma RangesAreContexts(matches: set<int>, order: seq<int>, before: nat, after: nat, last: nat, k: int)
    requires forall i :: i in order <==> i in matches
    requires 0 <= k <= last
    ensures Covers(Map(ContextOf(before, after, last), order), k) <==> InContext(matches, before, after, k)
  {
    var ranges := Map(ContextOf(before, after, last), order);
    if Covers(ranges, k) {
      var r :| r in ranges && r.start <= k <= r.end;
      var i :| 0 <= i < |order| && ranges[i] == r;
      assert r == ContextAt(before, after, last, order[i]) && order[i] in matches;
    }
    if InContext(matches, before, after, k) {
      var m :| m in matches && m - before <= k <= m + after;
      var i :| 0 <= i < |order| && order[i] == m;
      var r := ranges[i];
      assert r == ContextAt(before, after, last, m);
      assert r.start <= k <= r.end && r in ranges;
    }
  }

  lemma GroupHolds(lines: seq<string>, matches: set<int>, r: Range, k: int)
    requires 0 <= r.start <= r.end < |lines|
    ensures Holds(GroupOf(lines, matches, r), k + 1) <==> r.start <= k <= r.end
  {
    var g := GroupOf(lines, matches, r);
    assert g[0] == LineAt(lines, matches, r.start);
  }

  lemma GroupsListRanges(lines: seq<string>, matches: set<int>, merged: seq<Range>, k: int)
    requires forall i :: 0 <= i < |merged| ==> 0 <= merged[i].start <= merged[i].end < |lines|
    ensures Lists(Groups(lines, matches, merged), k + 1) <==> Covers(merged, k)
  {
    var groups := Groups(lines, matches, merged);
    forall i | 0 <= i < |merged| ensures Holds(groups[i], k + 1) <==> merged[i].start <= k <= merged[i].end {
      GroupHolds(lines, matches, merged[i], k);
      assert groups[i] == GroupOf(lines, matches, merged[i]);
    }
    if Lists(groups, k + 1) {
      var g :| g in groups && Holds(g, k + 1);
      var i :| 0 <= i < |groups| && groups[i] == g;
      assert merged[i] in merged;
    }
    if Covers(merged, k) {
      var r :| r in merged && r.start <= k <= r.end;
      var i :| 0 <= i < |merged| && merged[i] == r;
      assert groups[i] in groups;
    }
  }

  /** No line is listed by two groups. */
  lemma {:induction false} ListedOnce(groups: seq<seq<MatchLine>>, i: nat, j: nat, lineNum: int)
    requires Apart(groups) && i < j < |groups|
    ensures FirstLine(groups[i]) + |groups[i]| < FirstLine(groups[j])
    ensures !(Holds(groups[i], lineNum) && Holds(groups[j], lineNum))
    decreases j
  {
    if i + 1 < j {
      ListedOnce(groups, i, j - 1, lineNum);
    }
  }
}
