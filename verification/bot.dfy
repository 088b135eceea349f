/**
 * The pure parts of the Telegram bot's handlers (telegram_bot_handler.py):
 * the `/generate` count argument, the greedy `_split_message` chunker, and
 * the match counting, ranking and message lines of `/result`.
 */
module Bot {
  import opened Errors
  import opened Combos
  import opened Text
  import opened Ranking

  /* ---------------- /generate ---------------- */

  const DefaultGenerateCount: int := 5
  const OutOfRangeReply: string := "생성 개수는 1~20 사이여야 합니다.\n예: /generate 10"
  const NotANumberReply: string := "올바른 숫자를 입력해주세요.\n예: /generate 10"

  /** What `/generate` does with its arguments: go on with a count, or reply and stop. */
  datatype GenerateArgs = Count(n: int) | Reply(text: string)

  /** The count argument of `/generate`, read with `int()`. */
  function GenerateCount(args: seq<string>): (r: GenerateArgs)
    ensures args == [] ==> r == Count(DefaultGenerateCount)
    ensures r.Count? ==> 1 <= r.n <= 20
    ensures args != [] ==> (r.Count? <==> ParseInt(args[0]).Some? && 1 <= ParseInt(args[0]).value <= 20)
    ensures args != [] && r.Count? ==> r.n == ParseInt(args[0]).value
    ensures args != [] && ParseInt(args[0]).None? ==> r == Reply(NotANumberReply)
    ensures r.Reply? && ParseInt(args[0]).Some? ==> r == Reply(OutOfRangeReply)
  {
    if args == [] then Count(DefaultGenerateCount)
    else match ParseInt(args[0])
      case None => Reply(NotANumberReply)
      case Some(n) => if !(1 <= n <= 20) then Reply(OutOfRangeReply) else Count(n)
  }

  /** Any count in 1..20, written the way `str()` writes it, is taken as given. */
  lemma GenerateCountOfPrinted(n: int)
    requires 1 <= n <= 20
    ensures GenerateCount([IntToString(n)]) == Count(n)
  {
    ParseIntOfIntToString(n);
  }

  /** A number outside 1..20 is answered with the range reply, never with a count. */
  lemma GenerateCountOutOfRange(n: int, rest: seq<string>)
    requires n < 1 || n > 20
    ensures GenerateCount([IntToString(n)] + rest) == Reply(OutOfRangeReply)
  {
    ParseIntOfIntToString(n);
  }

  /* ---------------- _split_message ---------------- */

  const DefaultMaxLength: int := 4000

  /** What a line adds to a chunk's running length: its characters and a newline. */
  function LineCost(line: string): int
  {
    |line| + 1
  }

  /** The running length of a chunk: the sum of its lines' costs. */
  function Cost(chunk: seq<string>): (c: int)
    ensures c >= |chunk|
  {
    if chunk == [] then 0 else Cost(chunk[..|chunk| - 1]) + LineCost(chunk[|chunk| - 1])
  }

  lemma CostSnoc(chunk: seq<string>, line: string)
    ensures Cost(chunk + [line]) == Cost(chunk) + LineCost(line)
  {
    assert (chunk + [line])[..|chunk|] == chunk;
  }

  /**
   * The grouping the chunker makes of the lines still to come, given the
   * open chunk `cur` and its running length `curLength`.
   */
  function Groups(lines: seq<string>, cur: seq<string>, curLength: int, maxLength: int): seq<seq<string>>
    decreases |lines|
  {
    if lines == [] then (if cur == [] then [] else [cur])
    else
      var lineLength := LineCost(lines[0]);
      if curLength + lineLength > maxLength && cur != [] then
        [cur] + Groups(lines[1..], [lines[0]], lineLength, maxLength)
      else
        Groups(lines[1..], cur + [lines[0]], curLength + lineLength, maxLength)
  }

  /** The groups of lines that become the chunks. */
  function Chunking(lines: seq<string>, maxLength: int): seq<seq<string>>
  {
    Groups(lines, [], 0, maxLength)
  }

  /** Every group joined by "\n". */
  function JoinEach(groups: seq<seq<string>>): (r: seq<string>)
    ensures |r| == |groups|
  {
    if groups == [] then [] else JoinEach(groups[..|groups| - 1]) + [Join("\n", groups[|groups| - 1])]
  }

  lemma {:induction false} JoinEachAt(groups: seq<seq<string>>, i: nat)
    requires i < |groups|
    ensures JoinEach(groups)[i] == Join("\n", groups[i])
    decreases |groups|
  {
    if i < |groups| - 1 {
      JoinEachAt(groups[..|groups| - 1], i);
    }
  }

  /** The groups' lines one after the other. */
  function Flatten(groups: seq<seq<string>>): seq<string>
  {
    if groups == [] then [] else groups[0] + Flatten(groups[1..])
  }

  /** `_split_message`: the chunks are the greedy groups, each joined by "\n". */
  method SplitMessage(lines: seq<string>, maxLength: int) returns (chunks: seq<string>)
    ensures chunks == JoinEach(Chunking(lines, maxLength))
  {
    chunks := [];
    var currentChunk: seq<string> := [];
    var currentLength := 0;
    ghost var done: seq<seq<string>> := [];
    for i := 0 to |lines|
      invariant chunks == JoinEach(done)
      invariant done + Groups(lines[i..], currentChunk, currentLength, maxLength) == Chunking(lines, maxLength)
    {
      var line := lines[i];
      var lineLength := |line| + 1;
      GroupsAt(lines, i, currentChunk, currentLength, maxLength);
      if currentLength + lineLength > maxLength && currentChunk != [] {
        assert done + [currentChunk] + Groups(lines[i + 1..], [line], lineLength, maxLength)
          == done + ([currentChunk] + Groups(lines[i + 1..], [line], lineLength, maxLength));
        JoinEachSnoc(done, currentChunk);
        chunks := chunks + [Join("\n", currentChunk)];
        done := done + [currentChunk];
        currentChunk := [line];
        currentLength := lineLength;
      } else {
        currentChunk := currentChunk + [line];
        currentLength := currentLength + lineLength;
      }
    }
    assert lines[|lines|..] == [];
    if currentChunk != [] {
      assert done + [currentChunk] == Chunking(lines, maxLength);
      JoinEachSnoc(done, currentChunk);
      chunks := chunks + [Join("\n", currentChunk)];
    } else {
      assert done + [] == done;
    }
  }

  /** One step of the grouping, at line `i`. */
  lemma GroupsAt(lines: seq<string>, i: nat, cur: seq<string>, curLength: int, maxLength: int)
    requires i < |lines|
    ensures Groups(lines[i..], cur, curLength, maxLength)
      == if curLength + LineCost(lines[i]) > maxLength && cur != []
         then [cur] + Groups(lines[i + 1..], [lines[i]], LineCost(lines[i]), maxLength)
         else Groups(lines[i + 1..], cur + [lines[i]], curLength + LineCost(lines[i]), maxLength)
  {
    assert lines[i..] != [] && lines[i..][0] == lines[i] && lines[i..][1..] == lines[i + 1..];
  }

  lemma JoinEachSnoc(groups: seq<seq<string>>, g: seq<string>)
    ensures JoinEach(groups + [g]) == JoinEach(groups) + [Join("\n", g)]
  {
    assert (groups + [g])[..|groups|] == groups;
  }

  /**
   * What the grouping promises of the groups `gs` of an open chunk `cur`
   * followed by `lines`: the lines come out once each and in order, no group
   * is empty, a group of two or more lines fits, a group ends only because
   * the next line would not fit into it, and the first group starts with
   * the open chunk.
   */
  ghost predicate WellGrouped(gs: seq<seq<string>>, cur: seq<string>, lines: seq<string>, maxLength: int)
  {
    && Flatten(gs) == cur + lines
    && NoEmptyGroup(gs)
    && Fitting(gs, maxLength)
    && ClosedWhenFull(gs, maxLength)
    && (cur != [] ==> gs != [] && |gs[0]| >= |cur| && gs[0][..|cur|] == cur)
  }

  predicate NoEmptyGroup(gs: seq<seq<string>>)
  {
    forall i :: 0 <= i < |gs| ==> gs[i] != []
  }

  /** Every group of two or more lines fits. */
  predicate Fitting(gs: seq<seq<string>>, maxLength: int)
  {
    forall i :: 0 <= i < |gs| && |gs[i]| >= 2 ==> Cost(gs[i]) <= maxLength
  }

  /** Every group but the last is followed by a line that would not fit into it. */
  predicate ClosedWhenFull(gs: seq<seq<string>>, maxLength: int)
    requires NoEmptyGroup(gs)
  {
    forall i :: 0 <= i < |gs| - 1 ==> Cost(gs[i]) + LineCost(gs[i + 1][0]) > maxLength
  }

  /** The grouping is well grouped for an open chunk whose running length is its cost and which holds more than one line only when that fits. */
  lemma GroupsSpec(lines: seq<string>, cur: seq<string>, curLength: int, maxLength: int)
    requires curLength == Cost(cur)
    requires |cur| >= 2 ==> Cost(cur) <= maxLength
    ensures WellGrouped(Groups(lines, cur, curLength, maxLength), cur, lines, maxLength)
  {
    GroupsFlatten(lines, cur, curLength, maxLength);
    GroupsNonEmpty(lines, cur, curLength, maxLength);
    GroupsFit(lines, cur, curLength, maxLength);
    GroupsMaximal(lines, cur, curLength, maxLength);
    GroupsHead(lines, cur, curLength, maxLength);
  }

  /** The lines come out once each and in order, after the open chunk. */
  lemma {:induction false} GroupsFlatten(lines: seq<string>, cur: seq<string>, curLength: int, maxLength: int)
    ensures Flatten(Groups(lines, cur, curLength, maxLength)) == cur + lines
    decreases |lines|
  {
    if lines == [] {
      if cur != [] {
        assert Flatten([cur]) == cur + Flatten([]);
      }
      assert cur + lines == cur;
    } else {
      var line := lines[0];
      var lineLength := LineCost(line);
      assert [line] + lines[1..] == lines;
      if curLength + lineLength > maxLength && cur != [] {
        var rest := Groups(lines[1..], [line], lineLength, maxLength);
        GroupsFlatten(lines[1..], [line], lineLength, maxLength);
        assert ([cur] + rest)[1..] == rest;
        assert Flatten([cur] + rest) == cur + Flatten(rest);
      } else {
        GroupsFlatten(lines[1..], cur + [line], curLength + lineLength, maxLength);
        assert cur + [line] + lines[1..] == cur + lines;
      }
    }
  }

  /** No group is empty. */
  lemma {:induction false} GroupsNonEmpty(lines: seq<string>, cur: seq<string>, curLength: int, maxLength: int)
    ensures NoEmptyGroup(Groups(lines, cur, curLength, maxLength))
    decreases |lines|
  {
    if lines != [] {
      var line := lines[0];
      var lineLength := LineCost(line);
      if curLength + lineLength > maxLength && cur != [] {
        var rest := Groups(lines[1..], [line], lineLength, maxLength);
        GroupsNonEmpty(lines[1..], [line], lineLength, maxLength);
        NoEmptyGroupCons(cur, rest);
      } else {
        GroupsNonEmpty(lines[1..], cur + [line], curLength + lineLength, maxLength);
      }
    }
  }

  /** A group of two or more lines fits. */
  lemma {:induction false} GroupsFit(lines: seq<string>, cur: seq<string>, curLength: int, maxLength: int)
    requires curLength == Cost(cur)
    requires |cur| >= 2 ==> Cost(cur) <= maxLength
    ensures Fitting(Groups(lines, cur, curLength, maxLength), maxLength)
    decreases |lines|
  {
    if lines != [] {
      var line := lines[0];
      var lineLength := LineCost(line);
      if curLength + lineLength > maxLength && cur != [] {
        CostSnoc([], line);
        assert [] + [line] == [line];
        var rest := Groups(lines[1..], [line], lineLength, maxLength);
        GroupsFit(lines[1..], [line], lineLength, maxLength);
        FittingCons(cur, rest, maxLength);
      } else {
        CostSnoc(cur, line);
        GroupsFit(lines[1..], cur + [line], curLength + lineLength, maxLength);
      }
    }
  }

  /** A group ends only because the first line of the next one would not fit into it. */
  lemma {:induction false} GroupsMaximal(lines: seq<string>, cur: seq<string>, curLength: int, maxLength: int)
    requires curLength == Cost(cur)
    ensures NoEmptyGroup(Groups(lines, cur, curLength, maxLength))
    ensures ClosedWhenFull(Groups(lines, cur, curLength, maxLength), maxLength)
    decreases |lines|
  {
    GroupsNonEmpty(lines, cur, curLength, maxLength);
    if lines != [] {
      var line := lines[0];
      var lineLength := LineCost(line);
      if curLength + lineLength > maxLength && cur != [] {
        CostSnoc([], line);
        assert [] + [line] == [line];
        var rest := Groups(lines[1..], [line], lineLength, maxLength);
        GroupsMaximal(lines[1..], [line], lineLength, maxLength);
        GroupsHead(lines[1..], [line], lineLength, maxLength);
        assert rest[0][..1] == [line];
        ClosedWhenFullCons(cur, rest, maxLength);
      } else {
        CostSnoc(cur, line);
        GroupsMaximal(lines[1..], cur + [line], curLength + lineLength, maxLength);
      }
    }
  }

  lemma NoEmptyGroupCons(cur: seq<string>, rest: seq<seq<string>>)
    requires cur != [] && NoEmptyGroup(rest)
    ensures NoEmptyGroup([cur] + rest)
  {
    var gs := [cur] + rest;
    forall i | 0 <= i < |gs| ensures gs[i] != [] {
      if i > 0 {
        assert gs[i] == rest[i - 1];
      }
    }
  }

  lemma FittingCons(cur: seq<string>, rest: seq<seq<string>>, maxLength: int)
    requires (|cur| >= 2 ==> Cost(cur) <= maxLength) && Fitting(rest, maxLength)
    ensures Fitting([cur] + rest, maxLength)
  {
    var gs := [cur] + rest;
    forall i | 0 <= i < |gs| && |gs[i]| >= 2 ensures Cost(gs[i]) <= maxLength {
      if i > 0 {
        assert gs[i] == rest[i - 1];
      }
    }
  }

  /** A group closed because the first line of the following groups did not fit. */
  lemma ClosedWhenFullCons(cur: seq<string>, rest: seq<seq<string>>, maxLength: int)
    requires cur != [] && NoEmptyGroup(rest) && ClosedWhenFull(rest, maxLength)
    requires rest != [] ==> Cost(cur) + LineCost(rest[0][0]) > maxLength
    ensures NoEmptyGroup([cur] + rest) && ClosedWhenFull([cur] + rest, maxLength)
  {
    NoEmptyGroupCons(cur, rest);
    var gs := [cur] + rest;
    forall i | 0 <= i < |gs| - 1 ensures Cost(gs[i]) + LineCost(gs[i + 1][0]) > maxLength {
      assert gs[i + 1] == rest[i];
      if i > 0 {
        assert gs[i] == rest[i - 1];
      }
    }
  }

  /** The first group starts with the open chunk. */
  lemma {:induction false} GroupsHead(lines: seq<string>, cur: seq<string>, curLength: int, maxLength: int)
    ensures var gs := Groups(lines, cur, curLength, maxLength);
      cur != [] ==> gs != [] && |gs[0]| >= |cur| && gs[0][..|cur|] == cur
    decreases |lines|
  {
    if lines != [] && cur != [] {
      var line := lines[0];
      var lineLength := LineCost(line);
      if !(curLength + lineLength > maxLength) {
        var next := cur + [line];
        GroupsHead(lines[1..], next, curLength + lineLength, maxLength);
        var gs := Groups(lines[1..], next, curLength + lineLength, maxLength);
        assert gs[0][..|cur|] == next[..|cur|] == cur;
      }
    }
  }

  lemma {:induction false} FlattenSnoc(groups: seq<seq<string>>, g: seq<string>)
    ensures Flatten(groups + [g]) == Flatten(groups) + g
    decreases |groups|
  {
    if groups == [] {
      assert Flatten([g]) == g + Flatten([]);
    } else {
      assert (groups + [g])[1..] == groups[1..] + [g];
      FlattenSnoc(groups[1..], g);
    }
  }

  /** Joining the joined groups with "\n" is joining all their lines with "\n". */
  lemma {:induction false} JoinJoinEach(groups: seq<seq<string>>)
    requires forall i :: 0 <= i < |groups| ==> groups[i] != []
    ensures Join("\n", JoinEach(groups)) == Join("\n", Flatten(groups))
    decreases |groups|
  {
    if groups != [] {
      var init := groups[..|groups| - 1];
      var last := groups[|groups| - 1];
      assert groups == init + [last];
      FlattenSnoc(init, last);
      if init == [] {
        assert Flatten(groups) == last by {
          assert Flatten([] + [last]) == Flatten([]) + last;
        }
      } else {
        JoinJoinEach(init);
        JoinSnoc("\n", JoinEach(init), Join("\n", last));
        assert init[0] != [];
        assert Flatten(init) != [];
        JoinAppend("\n", Flatten(init), last);
      }
    }
  }

  /**
   * The chunks of `_split_message`: every line lands in exactly one chunk
   * and in order, so joining the chunks with "\n" gives back the message;
   * no chunk is empty; a chunk of two or more lines stays within the
   * limit; and a chunk is closed only when the next line would not fit.
   */
  lemma SplitMessageSpec(lines: seq<string>, maxLength: int)
    ensures var gs := Chunking(lines, maxLength);
      && Flatten(gs) == lines
      && Join("\n", JoinEach(gs)) == Join("\n", lines)
      && (forall i :: 0 <= i < |gs| ==> gs[i] != [] && JoinEach(gs)[i] == Join("\n", gs[i]))
      && (forall i :: 0 <= i < |gs| && |gs[i]| >= 2 ==> Cost(gs[i]) <= maxLength)
      && (forall i :: 0 <= i < |gs| - 1 ==> Cost(gs[i]) + LineCost(gs[i + 1][0]) > maxLength)
  {
    var gs := Chunking(lines, maxLength);
    GroupsSpec(lines, [], 0, maxLength);
    assert [] + lines == lines;
    JoinJoinEach(gs);
    forall i | 0 <= i < |gs| ensures JoinEach(gs)[i] == Join("\n", gs[i]) {
      JoinEachAt(gs, i);
    }
  }

  /** No lines, no chunks. */
  lemma SplitNothing(maxLength: int)
    ensures JoinEach(Chunking([], maxLength)) == []
  {
  }

  /** A message that fits is sent as one chunk. */
  lemma {:induction false} FitsInOneChunk(lines: seq<string>, cur: seq<string>, maxLength: int)
    requires cur != [] && Cost(cur + lines) <= maxLength
    ensures Groups(lines, cur, Cost(cur), maxLength) == [cur + lines]
    decreases |lines|
  {
    if lines == [] {
      assert cur + lines == cur;
    } else {
      CostSnoc(cur, lines[0]);
      CostPrefix(cur + [lines[0]], lines[1..]);
      assert cur + [lines[0]] + lines[1..] == cur + lines;
      CostPrefix(cur, lines);
      FitsInOneChunk(lines[1..], cur + [lines[0]], maxLength);
    }
  }

  /** A chunk costs at least as much as any prefix of it. */
  lemma {:induction false} CostPrefix(a: seq<string>, b: seq<string>)
    ensures Cost(a) + |b| <= Cost(a + b)
    decreases |b|
  {
    if b == [] {
      assert a + b == a;
    } else {
      var init := b[..|b| - 1];
      assert b == init + [b[|b| - 1]];
      assert a + b == (a + init) + [b[|b| - 1]];
      CostSnoc(a + init, b[|b| - 1]);
      CostPrefix(a, init);
    }
  }

  /* ---------------- /result matching ---------------- */

  /** One prediction's numbers with its number of matched winning numbers. */
  type Scored = (seq<int>, int)

  /** `len(set(pred) & set(winning))`. */
  function Matches(pred: seq<int>, winning: seq<int>): (m: nat)
    ensures m <= |SetOf(pred)| && m <= |SetOf(winning)|
  {
    var common := SetOf(pred) * SetOf(winning);
    assert common <= SetOf(pred) && common <= SetOf(winning);
    SubsetSize(common, SetOf(pred));
    SubsetSize(common, SetOf(winning));
    |common|
  }

  lemma SubsetSize(a: set<int>, b: set<int>)
    requires a <= b
    ensures |a| <= |b|
  {
    assert b == a + (b - a);
  }

  /** A prediction whose numbers are all winning numbers matches all of them. */
  lemma MatchesOfWinner(pred: seq<int>, winning: seq<int>)
    requires SetOf(pred) == SetOf(winning)
    ensures Matches(pred, winning) == |SetOf(winning)|
  {
    assert SetOf(pred) * SetOf(winning) == SetOf(winning);
  }

  /** The prediction's order does not change its match count. */
  lemma MatchesOrderFree(a: seq<int>, b: seq<int>, winning: seq<int>)
    requires multiset(a) == multiset(b)
    ensures Matches(a, winning) == Matches(b, winning)
  {
    PermutationSameSet(a, b);
  }

  /** The unsorted results: every prediction with its matches, in the order given. */
  function Score(preds: seq<seq<int>>, winning: seq<int>): (r: seq<Scored>)
    ensures |r| == |preds|
    ensures forall i :: 0 <= i < |preds| ==> r[i] == (preds[i], Matches(preds[i], winning))
  {
    seq(|preds|, i requires 0 <= i < |preds| => (preds[i], Matches(preds[i], winning)))
  }

  /** `best_match`: the first result's matches, or 0 when there are none. */
  function BestMatch(results: seq<Scored>): int
  {
    if results == [] then 0 else results[0].1
  }

  /** After the sort the best match is the largest match count of any prediction. */
  lemma BestMatchIsMaximum(s: seq<Scored>)
    ensures forall i :: 0 <= i < |s| ==> s[i].1 <= BestMatch(SortDesc(s))
    ensures s != [] ==> exists i :: 0 <= i < |s| && s[i].1 == BestMatch(SortDesc(s))
  {
    if s != [] {
      FirstIsLargest(s);
    }
  }

  /** `rank_info`. */
  const RankInfo: map<int, string> := map[6 := "1등", 5 := "2등/3등", 4 := "4등", 3 := "5등"]

  /** The lines about the best match: present only from three matches up. */
  function BestLines(best: int): (r: seq<string>)
    ensures best < 3 ==> r == []
    ensures best >= 3 ==> 2 <= |r| <= 3
    ensures best >= 3 ==> r[0] == "최고 매칭: " + IntToString(best) + "개 일치" && r[|r| - 1] == ""
    ensures best >= 3 ==> (|r| == 3 <==> best in RankInfo) && (|r| == 3 ==> r[1] == "  -> " + RankInfo[best])
  {
    if best >= 3 then
      ["최고 매칭: " + IntToString(best) + "개 일치"]
      + (if best in RankInfo then ["  -> " + RankInfo[best]] else [])
      + [""]
    else []
  }

  /** The ranks of the lottery: six matches take the first prize, three the fifth. */
  lemma RankNames()
    ensures BestLines(6)[1] == "  -> 1등" && BestLines(5)[1] == "  -> 2등/3등"
    ensures BestLines(4)[1] == "  -> 4등" && BestLines(3)[1] == "  -> 5등"
    ensures |BestLines(7)| == 2
  {
  }

  /** "O" from three matches up, otherwise "X". */
  function Mark(matches: int): (mark: string)
    ensures mark == "O" <==> matches >= 3
    ensures mark == "X" <==> matches < 3
  {
    if matches >= 3 then "O" else "X"
  }

  /** The detail line of the `idx`-th result; its numbers in the stored order. */
  function DetailLine(idx: int, r: Scored): string
  {
    IntToString(idx) + ". [" + Join(", ", MapToString(r.0)) + "] - " + IntToString(r.1) + "개 일치 " + Mark(r.1)
  }

  /** The opening lines of the reply. */
  function Header(drawNo: int, winning: seq<int>, predictionCount: nat): seq<string>
  {
    [ "[" + IntToString(drawNo) + "회차 결과 확인]",
      "",
      "당첨 번호: [" + Join(", ", MapToString(SortAsc(winning))) + "]",
      "내 예측: " + IntToString(predictionCount) + "개",
      "" ]
  }

  /** The detail lines, numbered from 1 in the sorted order. */
  function Details(results: seq<Scored>): (lines: seq<string>)
    ensures |lines| == |results|
    ensures forall i :: 0 <= i < |results| ==> lines[i] == DetailLine(i + 1, results[i])
  {
    seq(|results|, i requires 0 <= i < |results| => DetailLine(i + 1, results[i]))
  }

  /** The reply of `/result` once the winning numbers and the predictions are known. */
  function ResultLines(drawNo: int, winning: seq<int>, preds: seq<seq<int>>): seq<string>
  {
    if winning == [] then [IntToString(drawNo) + "회차 당첨 번호를 찾을 수 없습니다."]
    else if preds == [] then [IntToString(drawNo) + "회차에 생성한 예측이 없습니다."]
    else
      var results := SortDesc(Score(preds, winning));
      Header(drawNo, winning, |preds|) + BestLines(BestMatch(results)) + ["[상세 결과]"] + Details(results)
  }

  /**
   * The matching part of `check_result_command`: score every prediction,
   * sort the results, and build the reply lines.
   */
  method CheckResultLines(drawNo: int, winning: seq<int>, preds: seq<seq<int>>) returns (messageLines: seq<string>)
    ensures messageLines == ResultLines(drawNo, winning, preds)
  {
    if winning == [] {
      return [IntToString(drawNo) + "회차 당첨 번호를 찾을 수 없습니다."];
    }
    if preds == [] {
      return [IntToString(drawNo) + "회차에 생성한 예측이 없습니다."];
    }
    var results := ScorePredictions(preds, winning);
    results := SortDesc(results);
    var header := Header(drawNo, winning, |preds|);
    messageLines := header;
    var bestMatch := if results != [] then results[0].1 else 0;
    assert bestMatch == BestMatch(results);
    if bestMatch >= 3 {
      var best := ["최고 매칭: " + IntToString(bestMatch) + "개 일치"];
      if bestMatch in RankInfo {
        best := best + ["  -> " + RankInfo[bestMatch]];
      }
      best := best + [""];
      assert best == BestLines(bestMatch);
      messageLines := messageLines + best;
    }
    assert messageLines == header + BestLines(bestMatch);
    messageLines := messageLines + ["[상세 결과]"];
    var details := DetailLines(results);
    messageLines := messageLines + details;
  }

  /** The scoring loop: each prediction with its matches, in the order given. */
  method ScorePredictions(preds: seq<seq<int>>, winning: seq<int>) returns (results: seq<Scored>)
    ensures results == Score(preds, winning)
  {
    results := [];
    for i := 0 to |preds|
      invariant |results| == i
      invariant forall k :: 0 <= k < i ==> results[k] == (preds[k], Matches(preds[k], winning))
    {
      var matches := |SetOf(preds[i]) * SetOf(winning)|;
      results := results + [(preds[i], matches)];
    }
  }

  /** The loop over `enumerate(results, 1)` that writes the detail lines. */
  method DetailLines(results: seq<Scored>) returns (lines: seq<string>)
    ensures lines == Details(results)
  {
    lines := [];
    for idx := 0 to |results|
      invariant |lines| == idx
      invariant forall k :: 0 <= k < idx ==> lines[k] == DetailLine(k + 1, results[k])
    {
      lines := lines + [DetailLine(idx + 1, results[idx])];
    }
  }

  /** Each prediction shows up in exactly one detail line, and the lines go from most to fewest matches. */
  lemma ResultDetails(drawNo: int, winning: seq<int>, preds: seq<seq<int>>)
    requires winning != [] && preds != []
    ensures var results := SortDesc(Score(preds, winning));
      && multiset(results) == multiset(Score(preds, winning))
      && SortedDesc(results)
      && ResultLines(drawNo, winning, preds)[|ResultLines(drawNo, winning, preds)| - |preds|..] == Details(results)
  {
  }

  /** What is sent: the message whole, or its chunks when it is longer than 4000 characters. */
  function Outgoing(lines: seq<string>): seq<string>
  {
    var message := Join("\n", lines);
    if |message| > 4000 then JoinEach(Chunking(lines, DefaultMaxLength)) else [message]
  }

  /** Either way, the messages sent put together with "\n" are the whole reply. */
  lemma OutgoingIsWholeMessage(lines: seq<string>)
    ensures Join("\n", Outgoing(lines)) == Join("\n", lines)
  {
    SplitMessageSpec(lines, DefaultMaxLength);
  }
}
