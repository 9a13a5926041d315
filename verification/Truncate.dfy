/** Line-and-byte truncation of tool output (loopal-tool-api/src/truncate.rs).

    A text is the sequence of its UTF-8 bytes, one `char` per byte. */
module Truncate {
  import opened Prelude

  // ---- `str::lines` -----------------------------------------------------

  /** `split_inclusive('\n')`: every piece keeps its line feed. */
  function Pieces(s: string): seq<string> {
    if s == "" then [] else WithByte(Pieces(s[..|s| - 1]), s[|s| - 1])
  }

  function WithByte(ps: seq<string>, c: char): seq<string> {
    if ps != [] && !Closed(ps[|ps| - 1])
    then ps[..|ps| - 1] + [ps[|ps| - 1] + [c]]
    else ps + [[c]]
  }

  predicate Closed(p: string) {
    p != "" && p[|p| - 1] == '\n'
  }

  predicate EndsCrLf(p: string) {
    Closed(p) && |p| >= 2 && p[|p| - 2] == '\r'
  }

  /** A piece without its terminator: LF, or CR LF. A lone CR stays. */
  function Chomp(p: string): string {
    if !Closed(p) then p
    else if EndsCrLf(p) then p[..|p| - 2]
    else p[..|p| - 1]
  }

  function Lines(s: string): seq<string> {
    Map(Chomp, Pieces(s))
  }

  function Concat(ps: seq<string>): string {
    if ps == [] then "" else Concat(ps[..|ps| - 1]) + ps[|ps| - 1]
  }

  function CrLfs(ps: seq<string>): nat {
    if ps == [] then 0
    else CrLfs(ps[..|ps| - 1]) + (if EndsCrLf(ps[|ps| - 1]) then 1 else 0)
  }

  function Join(ls: seq<string>): string {
    if ls == [] then ""
    else if |ls| == 1 then ls[0]
    else Join(ls[..|ls| - 1]) + "\n" + ls[|ls| - 1]
  }

  /** What the loop counts for a run of lines: each line's length plus one. */
  function Cost(ls: seq<string>): nat {
    if ls == [] then 0 else Cost(ls[..|ls| - 1]) + |ls[|ls| - 1]| + 1
  }

  /** Non-empty pieces of which only the last one may lack its line feed. */
  predicate Tiling(ps: seq<string>) {
    && (forall i :: 0 <= i < |ps| ==> ps[i] != "")
    && (forall i :: 0 <= i < |ps| - 1 ==> Closed(ps[i]))
  }

  lemma WithByteTiles(ps: seq<string>, c: char)
    requires Tiling(ps)
    ensures Tiling(WithByte(ps, c))
    ensures Concat(WithByte(ps, c)) == Concat(ps) + [c]
    ensures Closed(WithByte(ps, c)[|WithByte(ps, c)| - 1]) <==> c == '\n'
  {
    var qs := WithByte(ps, c);
    if |qs| == |ps| {
      assert qs[..|qs| - 1] == ps[..|ps| - 1];
      assert Concat(qs) == Concat(ps[..|ps| - 1]) + (ps[|ps| - 1] + [c]);
    } else {
      assert qs[..|qs| - 1] == ps;
    }
  }

  /** The pieces tile the text, and the text's last byte ends the last one. */
  lemma {:induction false} PiecesTile(s: string)
    ensures Concat(Pieces(s)) == s && Tiling(Pieces(s))
    ensures s != "" ==> Pieces(s) != [] && (Closed(Pieces(s)[|Pieces(s)| - 1]) <==> Closed(s))
  {
    if s != "" {
      PiecesTile(s[..|s| - 1]);
      WithByteTiles(Pieces(s[..|s| - 1]), s[|s| - 1]);
      assert s == s[..|s| - 1] + [s[|s| - 1]];
    }
  }

  /** A line feed only ends a piece. */
  predicate OneFeed(p: string) {
    forall j :: 0 <= j < |p| && p[j] == '\n' ==> j == |p| - 1
  }

  lemma WithByteOneFeed(ps: seq<string>, c: char)
    requires forall k :: 0 <= k < |ps| ==> OneFeed(ps[k])
    ensures forall k :: 0 <= k < |WithByte(ps, c)| ==> OneFeed(WithByte(ps, c)[k])
  {
  }

  lemma {:induction false} PiecesHoldOneFeed(s: string)
    ensures forall k :: 0 <= k < |Pieces(s)| ==> OneFeed(Pieces(s)[k])
  {
    if s != "" {
      PiecesHoldOneFeed(s[..|s| - 1]);
      WithByteOneFeed(Pieces(s[..|s| - 1]), s[|s| - 1]);
    }
  }

  /** A line is its piece without LF or CR LF; it holds no line feed, and only
      the last one may stand unterminated. */
  lemma LinesExactly(s: string, k: nat)
    requires k < |Pieces(s)|
    ensures var piece, line := Pieces(s)[k], Lines(s)[k];
            && |Lines(s)| == |Pieces(s)| && Concat(Pieces(s)) == s && '\n' !in line
            && (|| piece == line + "\r\n"
                || (piece == line + "\n" && (line == "" || line[|line| - 1] != '\r'))
                || (piece == line && k == |Pieces(s)| - 1))
  {
    PiecesTile(s);
    PiecesHoldOneFeed(s);
    assert OneFeed(Pieces(s)[k]);
  }

  function Ended(line: string): string {
    line + "\n"
  }

  /** Joining puts a line feed between any two lines and nowhere else. */
  lemma {:induction false} JoinIs(ls: seq<string>)
    requires ls != []
    ensures Join(ls) + "\n" == FlatMap(Ended, ls)
  {
    var t := ls[..|ls| - 1];
    if t != [] {
      JoinIs(t);
    }
  }

  /** Over closed pieces the count is short by one byte per CR LF. */
  lemma {:induction false} CostOfClosed(ps: seq<string>)
    requires forall i :: 0 <= i < |ps| ==> Closed(ps[i])
    ensures Cost(Map(Chomp, ps)) + CrLfs(ps) == |Concat(ps)|
  {
    if ps != [] {
      var qs := ps[..|ps| - 1];
      CostOfClosed(qs);
      assert Map(Chomp, ps)[..|qs|] == Map(Chomp, qs);
    }
  }

  lemma {:induction false} ConcatSplit(ps: seq<string>, k: nat)
    requires k <= |ps|
    ensures Concat(ps) == Concat(ps[..k]) + Concat(ps[k..])
  {
    if k == |ps| {
      assert ps[..k] == ps;
    } else {
      var qs := ps[..|ps| - 1];
      ConcatSplit(qs, k);
      assert qs[..k] == ps[..k];
      assert ps[k..][..|ps| - k - 1] == qs[k..];
    }
  }

  lemma OmittedOfTiling(ps: seq<string>, k: nat)
    requires Tiling(ps) && k < |ps|
    ensures |Concat(ps)| - Cost(Map(Chomp, ps[..k])) == |Concat(ps[k..])| + CrLfs(ps[..k])
    ensures |Concat(ps[k..])| > 0
  {
    CostOfClosed(ps[..k]);
    ConcatSplit(ps, k);
    var rest := ps[k..];
    assert rest[|rest| - 1] == ps[|ps| - 1] != "";
  }

  /** The bytes not yet counted when line `k` is reached: the rest of the text
      plus one byte for each CR LF already passed. So `total - counted` never
      underflows, and is exact on texts without CR LF. */
  lemma OmittedBytesExact(s: string, k: nat)
    requires k < |Lines(s)|
    ensures |s| - Cost(Lines(s)[..k]) == |Concat(Pieces(s)[k..])| + CrLfs(Pieces(s)[..k])
    ensures Cost(Lines(s)[..k]) < |s|
  {
    PiecesTile(s);
    OmittedOfTiling(Pieces(s), k);
    assert Map(Chomp, Pieces(s)[..k]) == Lines(s)[..k];
  }

  lemma CostOfTiling(ps: seq<string>)
    requires Tiling(ps)
    ensures Cost(Map(Chomp, ps)) + CrLfs(ps)
         == |Concat(ps)| + (if ps == [] || Closed(ps[|ps| - 1]) then 0 else 1)
  {
    if ps != [] {
      var qs := ps[..|ps| - 1];
      CostOfClosed(qs);
      assert Map(Chomp, ps)[..|qs|] == Map(Chomp, qs);
    }
  }

  /** The count of the whole text, in closed form. */
  lemma CostOfText(s: string)
    ensures Cost(Lines(s)) + CrLfs(Pieces(s)) == |s| + (if s == "" || Closed(s) then 0 else 1)
  {
    PiecesTile(s);
    CostOfTiling(Pieces(s));
  }

  // ---- truncation -------------------------------------------------------

  /** How many whole lines are kept. */
  function Kept(ls: seq<string>, maxLines: nat, maxBytes: nat): (k: nat)
    ensures k <= |ls|
  {
    if ls == [] then 0
    else
      var k := Kept(ls[..|ls| - 1], maxLines, maxBytes);
      if k == |ls| - 1 && k < maxLines && Cost(ls) <= maxBytes then |ls| else k
  }

  lemma {:induction false} CostMonotone(ls: seq<string>, j: nat, k: nat)
    requires j <= k <= |ls|
    ensures Cost(ls[..j]) <= Cost(ls[..k])
    decreases k
  {
    if j < k {
      CostMonotone(ls, j, k - 1);
      assert ls[..k][..k - 1] == ls[..k - 1];
    }
  }

  /** `Kept` is the longest prefix within both limits: a prefix is kept iff
      it respects the line limit and the byte limit. */
  lemma {:induction false} KeptIsLongest(ls: seq<string>, maxLines: nat, maxBytes: nat, j: nat)
    requires j <= |ls|
    ensures j <= Kept(ls, maxLines, maxBytes) <==> j <= maxLines && Cost(ls[..j]) <= maxBytes
  {
    if ls != [] {
      var t := ls[..|ls| - 1];
      if j < |ls| {
        KeptIsLongest(t, maxLines, maxBytes, j);
        assert t[..j] == ls[..j];
      } else {
        assert ls[..j] == ls;
        KeptIsLongest(t, maxLines, maxBytes, |t|);
        assert t[..|t|] == t;
      }
    }
  }

  function Notice(lines: nat, bytes: nat): string {
    "\n... truncated (" + Decimal(lines) + " lines, " + Decimal(bytes) + " bytes omitted)"
  }

  /** The wording of the notice. */
  lemma NoticeSays(lines: nat, bytes: nat)
    ensures Notice(lines, bytes) ==
              "\n... truncated (" + Decimal(lines) + " lines, " + Decimal(bytes) + " bytes omitted)"
  {
  }

  /** The counter never passes the size of the text before the last line. */
  predicate Fits(ls: seq<string>, totalBytes: nat) {
    forall k :: 0 <= k < |ls| ==> Cost(ls[..k]) <= totalBytes
  }

  lemma LinesFit(s: string)
    ensures Fits(Lines(s), |s|)
  {
    forall k | 0 <= k < |Lines(s)| ensures Cost(Lines(s)[..k]) <= |s| {
      OmittedBytesExact(s, k);
    }
  }

  /** The first `k` lines, and a notice counting the rest if there is any. */
  function Shown(notice: (nat, nat) -> string, ls: seq<string>, totalBytes: nat, k: nat): string
    requires k <= |ls| && Fits(ls, totalBytes)
  {
    if k == |ls| then Join(ls) else Join(ls[..k]) + notice(|ls| - k, totalBytes - Cost(ls[..k]))
  }

  function Truncated(output: string, maxLines: nat, maxBytes: nat): string {
    LinesFit(output);
    Shown(Notice, Lines(output), |output|, Kept(Lines(output), maxLines, maxBytes))
  }

  /** One more line, as the loop sees it. */
  lemma NextLine(ls: seq<string>, i: nat, maxLines: nat, maxBytes: nat)
    requires i < |ls|
    ensures Cost(ls[..i + 1]) == Cost(ls[..i]) + |ls[i]| + 1
    ensures Join(ls[..i + 1]) == (if i > 0 then Join(ls[..i]) + "\n" else "") + ls[i]
    ensures i < Kept(ls, maxLines, maxBytes) <==> i < maxLines && Cost(ls[..i + 1]) <= maxBytes
  {
    assert ls[..i + 1][..i] == ls[..i];
    KeptIsLongest(ls, maxLines, maxBytes, i + 1);
  }

  /** The longest prefix of lines within the limits, and a notice of what it
      leaves out exactly if that is anything. */
  lemma TruncatedExactly(output: string, ls: seq<string>, maxLines: nat, maxBytes: nat, k: nat)
    requires ls == Lines(output) && k == Kept(ls, maxLines, maxBytes)
    ensures k == |ls| ==> Truncated(output, maxLines, maxBytes) == Join(ls)
    ensures k < |ls| ==>
              Cost(ls[..k]) <= |output| &&
              Truncated(output, maxLines, maxBytes) == Join(ls[..k]) + Notice(|ls| - k, |output| - Cost(ls[..k]))
  {
    LinesFit(output);
  }

  method TruncateOutput(output: string, maxLines: nat, maxBytes: nat) returns (result: string)
    ensures result == Truncated(output, maxLines, maxBytes)
  {
    if output == "" {
      return "";
    }
    LinesFit(output);
    result := KeepLines(Notice, Lines(output), |output|, maxLines, maxBytes);
  }

  /** The loop of `truncate_output`, whatever the wording of the notice. */
  method KeepLines(notice: (nat, nat) -> string, lines: seq<string>, totalBytes: nat, maxLines: nat, maxBytes: nat)
    returns (result: string)
    requires Fits(lines, totalBytes)
    ensures result == Shown(notice, lines, totalBytes, Kept(lines, maxLines, maxBytes))
  {
    result := "";
    var byteCount := 0;
    for lineCount := 0 to |lines|
      invariant byteCount == Cost(lines[..lineCount])
      invariant result == Join(lines[..lineCount])
      invariant lineCount <= Kept(lines, maxLines, maxBytes)
    {
      var line := lines[lineCount];
      var lineBytes := |line| + 1;
      NextLine(lines, lineCount, maxLines, maxBytes);
      if lineCount >= maxLines || byteCount + lineBytes > maxBytes {
        assert Kept(lines, maxLines, maxBytes) == lineCount;
        return result + notice(|lines| - lineCount, totalBytes - byteCount);
      }
      if lineCount > 0 {
        result := result + "\n";
      }
      result := result + line;
      byteCount := byteCount + lineBytes;
    }
    assert lines[..|lines|] == lines;
  }

  predicate NeedsTruncation(output: string, maxLines: nat, maxBytes: nat) {
    |output| > maxBytes || |Lines(output)| > maxLines
  }

  predicate Cuts(output: string, maxLines: nat, maxBytes: nat) {
    Kept(Lines(output), maxLines, maxBytes) < |Lines(output)|
  }

  /** When anything is dropped, from the text alone. */
  lemma CutsExactly(output: string, maxLines: nat, maxBytes: nat)
    ensures Cuts(output, maxLines, maxBytes) <==>
              || |Lines(output)| > maxLines
              || |output| + (if output == "" || Closed(output) then 0 else 1)
                 > maxBytes + CrLfs(Pieces(output))
  {
    var ls := Lines(output);
    KeptIsLongest(ls, maxLines, maxBytes, |ls|);
    assert ls[..|ls|] == ls;
    CostOfText(output);
  }

  /** `needs_truncation` answers "no" and a line is still dropped exactly when
      the text fills `max_bytes` to the byte, has no final line feed and no
      CR LF. */
  lemma CutWithoutNeed(output: string, maxLines: nat, maxBytes: nat)
    ensures !NeedsTruncation(output, maxLines, maxBytes) && Cuts(output, maxLines, maxBytes) <==>
              && |Lines(output)| <= maxLines
              && |output| == maxBytes
              && output != "" && !Closed(output) && CrLfs(Pieces(output)) == 0
  {
    CutsExactly(output, maxLines, maxBytes);
  }

  /** The opposite disagreement: the text is over `max_bytes`, but its CR LFs
      are counted as one byte each and bring it back within. */
  lemma NeedWithoutCut(output: string, maxLines: nat, maxBytes: nat)
    ensures NeedsTruncation(output, maxLines, maxBytes) && !Cuts(output, maxLines, maxBytes) <==>
              && |Lines(output)| <= maxLines
              && |output| > maxBytes
              && |output| + (if Closed(output) then 0 else 1) <= maxBytes + CrLfs(Pieces(output))
  {
    CutsExactly(output, maxLines, maxBytes);
  }

  lemma {:induction false} JoinLength(ls: seq<string>)
    ensures |Join(ls)| + (if ls == [] then 0 else 1) == Cost(ls)
  {
    if |ls| > 1 {
      JoinLength(ls[..|ls| - 1]);
    }
  }

  /** Without a cut nothing grows: line ends may only get shorter. */
  lemma UncutIsNoLonger(output: string, maxLines: nat, maxBytes: nat)
    requires !Cuts(output, maxLines, maxBytes)
    ensures |Truncated(output, maxLines, maxBytes)| <= |output|
  {
    CostOfText(output);
    JoinLength(Lines(output));
  }

  /** Truncation lengthens a text exactly when something is cut and the notice
      outgrows what it reports, counting the line feed before it. */
  lemma CutCanLengthen(output: string, maxLines: nat, maxBytes: nat)
    ensures var k := Kept(Lines(output), maxLines, maxBytes);
            |Truncated(output, maxLines, maxBytes)| > |output| <==>
              && k < |Lines(output)|
              && var omitted := |output| - Cost(Lines(output)[..k]);
                omitted > 0 && |Notice(|Lines(output)| - k, omitted)| > omitted + (if k > 0 then 1 else 0)
  {
    var k := Kept(Lines(output), maxLines, maxBytes);
    if k < |Lines(output)| {
      OmittedBytesExact(output, k);
      JoinLength(Lines(output)[..k]);
    } else {
      UncutIsNoLonger(output, maxLines, maxBytes);
    }
  }

  // ---- texts that show it -----------------------------------------------

  lemma NextByte(s: string, c: char)
    ensures Pieces(s + [c]) == WithByte(Pieces(s), c)
  {
    assert (s + [c])[..|s|] == s;
  }

  lemma {:induction false} OneLine(s: string)
    requires s != "" && '\n' !in s
    ensures Pieces(s) == [s]
  {
    var t, c := s[..|s| - 1], s[|s| - 1];
    assert s == t + [c];
    NextByte(t, c);
    if t != "" {
      OneLine(t);
    }
  }

  /** A single line without line feed that fills the byte limit is said to fit,
      and is cut away whole. */
  lemma FullLineIsCut(s: string)
    requires s != "" && '\n' !in s
    ensures !NeedsTruncation(s, 1, |s|) && Cuts(s, 1, |s|)
    ensures Truncated(s, 1, |s|) == Notice(1, |s|)
  {
    OneLine(s);
    var ps: seq<string> := [s];
    assert ps[..0] == [] && ps[|ps| - 1] == s;
    assert CrLfs(ps) == 0;
    CutWithoutNeed(s, 1, |s|);
    assert Lines(s)[..0] == [];
    LinesFit(s);
    assert Join([]) + Notice(1, |s|) == Notice(1, |s|);
  }

  /** So a line of two bytes becomes a longer text. */
  lemma TwoBytesGrow(s: string)
    requires |s| == 2 && '\n' !in s
    ensures |Truncated(s, 1, 2)| > |s|
  {
    FullLineIsCut(s);
  }

  /** A line ended by CR LF, one byte over the limit, is said not to fit and is
      kept. */
  lemma CrLfLineIsKept(line: string)
    requires line != "" && '\n' !in line
    ensures var s := line + "\r\n";
            NeedsTruncation(s, 1, |s| - 1) && !Cuts(s, 1, |s| - 1)
  {
    var t: string := line + ['\r'];
    var s: string := t + ['\n'];
    assert s == line + "\r\n";
    OneLine(t);
    NextByte(t, '\n');
    var ps: seq<string> := [s];
    assert Pieces(s) == ps && ps[..0] == [];
    assert CrLfs(ps) == 1;
    NeedWithoutCut(s, 1, |s| - 1);
  }

  // ---- truncating again -------------------------------------------------

  lemma JoinSnoc(ls: seq<string>, line: string)
    requires ls != []
    ensures Join(ls + [line]) == Join(ls) + "\n" + line
  {
    assert (ls + [line])[..|ls|] == ls;
  }

  /** Joining lines that ended in a plain line feed restores the text, but for
      the last line feed. */
  lemma {:induction false} JoinOfClosed(ps: seq<string>)
    requires ps != [] && (forall i :: 0 <= i < |ps| ==> Closed(ps[i])) && CrLfs(ps) == 0
    ensures Join(Map(Chomp, ps)) + "\n" == Concat(ps)
  {
    var t, last := ps[..|ps| - 1], ps[|ps| - 1];
    var line, ls := Chomp(last), Map(Chomp, t);
    assert Map(Chomp, ps) == ls + [line];
    assert line + "\n" == last;
    if t == [] {
      assert Concat(ps) == "" + last == last;
    } else {
      JoinOfClosed(t);
      JoinSnoc(ls, line);
      assert Join(ls) + "\n" + line + "\n" == (Join(ls) + "\n") + (line + "\n");
    }
  }

  lemma JoinOfOpen(ps: seq<string>)
    requires Tiling(ps) && ps != [] && !Closed(ps[|ps| - 1]) && CrLfs(ps) == 0
    ensures Join(Map(Chomp, ps)) == Concat(ps)
  {
    var t, last := ps[..|ps| - 1], ps[|ps| - 1];
    assert Map(Chomp, ps) == Map(Chomp, t) + [last];
    if t == [] {
      assert Concat(ps) == "" + last == last;
    } else {
      JoinOfClosed(t);
      JoinSnoc(Map(Chomp, t), last);
    }
  }

  /** A text that is not cut stays as it is exactly if it has no final line
      feed and no CR LF. */
  lemma UncutStays(s: string, maxLines: nat, maxBytes: nat)
    requires !Cuts(s, maxLines, maxBytes)
    ensures Truncated(s, maxLines, maxBytes) == s <==> s == "" || (!Closed(s) && CrLfs(Pieces(s)) == 0)
  {
    PiecesTile(s);
    CostOfText(s);
    JoinLength(Lines(s));
    if s != "" && !Closed(s) && CrLfs(Pieces(s)) == 0 {
      JoinOfOpen(Pieces(s));
    }
  }

  /** Kept lines followed by a line feed can only be found at the start of the
      text if no CR LF was among them. */
  lemma {:induction false} JoinIsPrefix(ps: seq<string>, k: nat, s: string)
    requires Tiling(ps) && 0 < k < |ps| && s == Concat(ps)
    requires Join(Map(Chomp, ps[..k])) + "\n" <= s
    ensures CrLfs(ps[..k]) == 0
  {
    var t, p := ps[..k - 1], ps[k - 1];
    assert ps[..k] == t + [p] && (t + [p])[..k - 1] == t;
    assert Map(Chomp, ps[..k]) == Map(Chomp, t) + [Chomp(p)];
    if k > 1 {
      JoinSnoc(Map(Chomp, t), Chomp(p));
      assert Join(Map(Chomp, t)) + "\n" <= Join(Map(Chomp, ps[..k])) + "\n";
      JoinIsPrefix(ps, k - 1, s);
      JoinOfClosed(t);
    }
    assert Concat(t) + Chomp(p) + "\n" <= s;
    PieceEndsPlainly(ps, k - 1, s);
  }

  lemma PieceEndsPlainly(ps: seq<string>, k: nat, s: string)
    requires Tiling(ps) && k < |ps| - 1 && s == Concat(ps)
    requires Concat(ps[..k]) + Chomp(ps[k]) + "\n" <= s
    ensures !EndsCrLf(ps[k])
  {
    ConcatSplit(ps, k);
    StartsWith(ps[k..]);
    LineEndsPlainly(Concat(ps[..k]), ps[k], s);
  }

  lemma LineEndsPlainly(before: string, p: string, s: string)
    requires Closed(p) && before + p <= s && before + Chomp(p) + "\n" <= s
    ensures !EndsCrLf(p)
  {
    var i := |before| + |Chomp(p)|;
    assert s[i] == (before + Chomp(p) + "\n")[i] == '\n';
    assert s[i] == (before + p)[i] == p[|Chomp(p)|];
  }

  lemma StartsWith(ps: seq<string>)
    requires ps != []
    ensures ps[0] <= Concat(ps)
  {
    ConcatSplit(ps, 1);
    assert ps[..1][..0] == [];
    assert Concat(ps[..1]) == "" + ps[0] == ps[0];
  }

  lemma KeptThenNotice(ps: seq<string>, k: nat, s: string, notice: string)
    requires Tiling(ps) && k < |ps| && s == Concat(ps) && "\n" <= notice
    ensures Join(Map(Chomp, ps[..k])) + notice == s <==>
              CrLfs(ps[..k]) == 0 && (if k > 0 then "\n" else "") + Concat(ps[k..]) == notice
  {
    var joined, rest := Join(Map(Chomp, ps[..k])), Concat(ps[k..]);
    ConcatSplit(ps, k);
    if k == 0 {
      assert joined == "" && Concat(ps[..k]) == "" && "" + rest == rest == s && joined + notice == notice;
    } else {
      if joined + notice == s {
        assert joined + "\n" <= s;
        JoinIsPrefix(ps, k, s);
      }
      if CrLfs(ps[..k]) == 0 {
        JoinOfClosed(ps[..k]);
        SameAfterPrefix(joined, notice, rest);
      }
    }
  }

  lemma LinesPrefix(s: string, k: nat)
    requires k <= |Lines(s)|
    ensures Lines(s)[..k] == Map(Chomp, Pieces(s)[..k])
  {
  }

  /** What follows the first `k` lines, with the line feed that joins it. */
  function Rest(s: string, k: nat): string
    requires k <= |Pieces(s)|
  {
    (if k > 0 then "\n" else "") + Concat(Pieces(s)[k..])
  }

  lemma ShownStays(t: string, s: string, k: nat, notice: string)
    requires k < |Lines(s)| && "\n" <= notice && t == Join(Lines(s)[..k]) + notice
    ensures t == s <==> CrLfs(Pieces(s)[..k]) == 0 && Rest(s, k) == notice
  {
    PiecesTile(s);
    LinesPrefix(s, k);
    KeptThenNotice(Pieces(s), k, s, notice);
  }

  /** The bytes not counted when line `k` is reached. */
  function Omitted(s: string, k: nat): nat
    requires k < |Lines(s)|
  {
    OmittedBytesExact(s, k);
    |s| - Cost(Lines(s)[..k])
  }

  lemma CutForm(s: string, maxLines: nat, maxBytes: nat)
    requires Cuts(s, maxLines, maxBytes)
    ensures var k := Kept(Lines(s), maxLines, maxBytes);
            Truncated(s, maxLines, maxBytes) == Join(Lines(s)[..k]) + Notice(|Lines(s)| - k, Omitted(s, k))
  {
  }

  lemma NoticeStarts(lines: nat, bytes: nat)
    ensures "\n" <= Notice(lines, bytes)
  {
    assert Notice(lines, bytes)[0] == '\n';
  }

  /** A text that is cut stays as it is exactly if what follows the kept lines
      happens to be the notice about itself, and no CR LF is kept. */
  lemma CutStays(s: string, maxLines: nat, maxBytes: nat)
    requires Cuts(s, maxLines, maxBytes)
    ensures var k := Kept(Lines(s), maxLines, maxBytes);
            Truncated(s, maxLines, maxBytes) == s <==>
              CrLfs(Pieces(s)[..k]) == 0 && Rest(s, k) == Notice(|Lines(s)| - k, Omitted(s, k))
  {
    var k := Kept(Lines(s), maxLines, maxBytes);
    CutForm(s, maxLines, maxBytes);
    NoticeStarts(|Lines(s)| - k, Omitted(s, k));
    ShownStays(Truncated(s, maxLines, maxBytes), s, k, Notice(|Lines(s)| - k, Omitted(s, k)));
  }

  lemma SameAfterPrefix(joined: string, notice: string, rest: string)
    ensures joined + notice == (joined + "\n") + rest <==> notice == "\n" + rest
  {
    assert (joined + "\n") + rest == joined + ("\n" + rest);
    if joined + notice == joined + ("\n" + rest) {
      assert notice == (joined + notice)[|joined|..] == (joined + ("\n" + rest))[|joined|..];
    }
  }

  /** The condition of the two lemmas together. */
  predicate Stays(s: string, maxLines: nat, maxBytes: nat) {
    if Cuts(s, maxLines, maxBytes) then
      var k := Kept(Lines(s), maxLines, maxBytes);
      CrLfs(Pieces(s)[..k]) == 0 && Rest(s, k) == Notice(|Lines(s)| - k, Omitted(s, k))
    else s == "" || (!Closed(s) && CrLfs(Pieces(s)) == 0)
  }

  /** Truncating a text again changes nothing exactly if the first result
      stays. */
  lemma TruncatingAgain(s: string, maxLines: nat, maxBytes: nat)
    ensures var once := Truncated(s, maxLines, maxBytes);
            Truncated(once, maxLines, maxBytes) == once <==> Stays(once, maxLines, maxBytes)
  {
    StaysExactly(Truncated(s, maxLines, maxBytes), maxLines, maxBytes);
  }

  lemma StaysExactly(s: string, maxLines: nat, maxBytes: nat)
    ensures Truncated(s, maxLines, maxBytes) == s <==> Stays(s, maxLines, maxBytes)
  {
    if Cuts(s, maxLines, maxBytes) {
      CutStays(s, maxLines, maxBytes);
    } else {
      UncutStays(s, maxLines, maxBytes);
    }
  }

  const LF: string := ['\n']

  lemma PiecesOfLineFeeds()
    ensures Pieces(LF) == [LF] && Pieces(LF + LF) == [LF, LF]
  {
    var none: string := [];
    NextByte(none, '\n');
    assert none + ['\n'] == LF;
    NextByte(LF, '\n');
  }

  /** Everything fits, so the lines are joined. */
  lemma AllKept(s: string, ls: seq<string>, maxLines: nat, maxBytes: nat)
    requires ls == Lines(s) && |ls| <= maxLines && Cost(ls) <= maxBytes
    ensures Truncated(s, maxLines, maxBytes) == Join(ls)
  {
    KeptIsLongest(ls, maxLines, maxBytes, |ls|);
    assert ls[..|ls|] == ls;
  }

  lemma LinesOfLineFeeds()
    ensures Lines(LF) == [""] && Lines(LF + LF) == ["", ""]
  {
    PiecesOfLineFeeds();
    assert Chomp(LF) == "";
  }

  lemma EmptyLines()
    ensures Cost([""]) == 1 && Cost(["", ""]) == 2 && Join([""]) == "" && Join(["", ""]) == LF
  {
    var one, two: seq<string> := [""], ["", ""];
    assert one[..0] == [] && two[..1] == one;
    assert Join(two) == Join(one) + "\n" + "";
  }

  /** Truncation is not idempotent, even if nothing is cut: two line feeds
      become one, and one becomes none. */
  lemma LineFeedsVanish(maxLines: nat, maxBytes: nat)
    requires maxLines >= 2 && maxBytes >= 2
    ensures Truncated(LF + LF, maxLines, maxBytes) == LF
    ensures Truncated(LF, maxLines, maxBytes) == ""
  {
    LinesOfLineFeeds();
    EmptyLines();
    AllKept(LF, [""], maxLines, maxBytes);
    AllKept(LF + LF, ["", ""], maxLines, maxBytes);
  }
}
