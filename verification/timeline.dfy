/** The timeline pattern of main.py,
      (\d{2}:\d{2}:\d{2})\s+(\d{2}:\d{2})\s+([\d:]*)\s+(.*)
    as Python's backtracking engine matches it at one index. A match is described
    by where it starts and how many characters each of its five quantifiers takes. */
module Timeline {
  import opened Wrappers
  import opened Chars

  /** `\d{2}:\d{2}:\d{2}` at index `i`. */
  predicate ClockAt(s: string, i: nat) {
    && i + 8 <= |s|
    && IsDigit(s[i]) && IsDigit(s[i + 1]) && s[i + 2] == ':'
    && IsDigit(s[i + 3]) && IsDigit(s[i + 4]) && s[i + 5] == ':'
    && IsDigit(s[i + 6]) && IsDigit(s[i + 7])
  }

  /** `\d{2}:\d{2}` at index `i`. */
  predicate ElapsedAt(s: string, i: nat) {
    && i + 5 <= |s|
    && IsDigit(s[i]) && IsDigit(s[i + 1]) && s[i + 2] == ':'
    && IsDigit(s[i + 3]) && IsDigit(s[i + 4])
  }

  /** A wall-clock time, HH:MM:SS. */
  predicate IsClock(t: string) {
    |t| == 8 && ClockAt(t, 0)
  }

  /** An elapsed game time, MM:SS. */
  predicate IsElapsed(t: string) {
    |t| == 5 && ElapsedAt(t, 0)
  }

  /** Every character of `s[lo..hi]` is in class `cls`. */
  predicate AllIn(s: string, lo: nat, hi: nat, cls: Class)
    requires lo <= hi <= |s|
  {
    forall k :: lo <= k < hi ==> InClass(s[k], cls)
  }

  /** How `\s+([\d:]*)\s+(.*)`, the part after the elapsed time, divides the text:
      the lengths of the second and third `\s+`, of the score and of the description. */
  datatype Tail = Tail(ws2: nat, score: nat, ws3: nat, rest: nat)
  {
    function ScoreEnd(): nat { ws2 + score }
    function RestStart(): nat { ws2 + score + ws3 }
    function Len(): nat { ws2 + score + ws3 + rest }
  }

  /** How the whole pattern divides the text from `start`: the length of the first
      `\s+` and the division of the tail. The time groups have widths 8 and 5. */
  datatype Split = Split(start: nat, ws1: nat, tail: Tail)
  {
    function ElapsedStart(): nat { start + 8 + ws1 }
    function TailStart(): nat { start + 8 + ws1 + 5 }
    function ScoreStart(): nat { TailStart() + tail.ws2 }
    function ScoreEnd(): nat { TailStart() + tail.ScoreEnd() }
    function RestStart(): nat { TailStart() + tail.RestStart() }
    function End(): nat { TailStart() + tail.Len() }
  }

  /** The second `\s+` and the score of a tail at `e` have the right classes. */
  predicate TailHeadOk(s: string, e: nat, ws2: nat, score: nat) {
    && e + ws2 + score <= |s|
    && ws2 >= 1 && AllIn(s, e, e + ws2, Space)
    && AllIn(s, e + ws2, e + ws2 + score, Score)
  }

  /** `t` divides `s[e..e + t.Len()]` as `\s+([\d:]*)\s+(.*)` asks. */
  predicate IsTail(s: string, e: nat, t: Tail) {
    && e + t.Len() <= |s|
    && TailHeadOk(s, e, t.ws2, t.score)
    && t.ws3 >= 1 && AllIn(s, e + t.ScoreEnd(), e + t.RestStart(), Space)
    && AllIn(s, e + t.RestStart(), e + t.Len(), Line)
  }

  /** `d` divides `s[d.start..d.End()]` as the whole pattern asks: every part has
      the character class and the minimum length of its group or quantifier. */
  predicate IsSplit(s: string, d: Split) {
    && d.TailStart() <= |s|
    && ClockAt(s, d.start)
    && d.ws1 >= 1 && AllIn(s, d.start + 8, d.ElapsedStart(), Space)
    && ElapsedAt(s, d.ElapsedStart())
    && IsTail(s, d.TailStart(), d.tail)
  }

  /** The description `.*` stops at index `i`: the text ends there or a line feed follows. */
  predicate LineEndsAt(s: string, i: nat) {
    i >= |s| || s[i] == '\n'
  }

  /** `t` divides the text from `e` as the pattern asks, and its description `.*`
      runs to the end of the line. */
  predicate IsTailToLineEnd(s: string, e: nat, t: Tail) {
    IsTail(s, e, t) && LineEndsAt(s, e + t.Len())
  }

  /** Backtracking order: a greedy quantifier tries its longest length first, and an
      earlier quantifier changes only after every choice of the later ones failed.
      So one division is tried no later than another exactly when its quantifier
      lengths are lexicographically at least those of the other. */
  predicate TailTriedNoLater(t: Tail, u: Tail) {
    || t.ws2 > u.ws2
    || (t.ws2 == u.ws2 && t.score > u.score)
    || (t.ws2 == u.ws2 && t.score == u.score && t.ws3 > u.ws3)
    || (t.ws2 == u.ws2 && t.score == u.score && t.ws3 == u.ws3 && t.rest >= u.rest)
  }

  predicate TriedNoLater(d: Split, e: Split) {
    d.ws1 > e.ws1 || (d.ws1 == e.ws1 && TailTriedNoLater(d.tail, e.tail))
  }

  // ---------------------------------------------------------------------------
  // The engine: one function per quantifier, each trying its lengths longest first.

  /** The third `\s+` takes `k` characters; `(.*)` then takes the rest of the line,
      which it always can, so the first length tried is the one kept. */
  function TryWs3(s: string, e: nat, ws2: nat, score: nat, k: nat): (r: Option<Tail>)
    requires e + ws2 + score + k <= |s|
    ensures r.Some? ==> r.value.ws2 == ws2 && r.value.score == score && r.value.ws3 == k >= 1
    ensures r.Some? ==> e + r.value.Len() <= |s|
  {
    if k == 0 then None
    else Some(Tail(ws2, score, k, RunLength(s, e + ws2 + score + k, Line)))
  }

  /** `([\d:]*)` tries `m`, `m - 1`, ..., 0 characters; after each the third `\s+`
      is tried with its longest run. */
  function TryScore(s: string, e: nat, ws2: nat, m: nat): (r: Option<Tail>)
    requires e + ws2 + m <= |s|
    ensures r.Some? ==> r.value.ws2 == ws2 && r.value.score <= m && r.value.ws3 >= 1
    ensures r.Some? ==> e + r.value.Len() <= |s|
    decreases m
  {
    match TryWs3(s, e, ws2, m, RunLength(s, e + ws2 + m, Space))
    case Some(t) => Some(t)
    case None => if m == 0 then None else TryScore(s, e, ws2, m - 1)
  }

  /** The second `\s+` tries `j`, `j - 1`, ..., 1 characters; after each the score
      is tried with its longest run. */
  function TryWs2(s: string, e: nat, j: nat): (r: Option<Tail>)
    requires e + j <= |s|
    ensures r.Some? ==> 1 <= r.value.ws2 <= j && r.value.ws3 >= 1 && e + r.value.Len() <= |s|
    decreases j
  {
    if j == 0 then None
    else
      match TryScore(s, e, j, RunLength(s, e + j, Score))
      case Some(t) => Some(t)
      case None => TryWs2(s, e, j - 1)
  }

  /** `(\d{2}:\d{2})\s+([\d:]*)\s+(.*)` from index `i`: the elapsed time, then the tail. */
  function MatchTail(s: string, i: nat): (r: Option<Tail>)
    requires i <= |s|
    ensures r.Some? ==> r.value.ws2 >= 1 && r.value.ws3 >= 1 && i + 5 + r.value.Len() <= |s|
  {
    if ElapsedAt(s, i) then TryWs2(s, i + 5, RunLength(s, i + 5, Space)) else None
  }

  /** The first `\s+` tries `j`, `j - 1`, ..., 1 characters; after each, the rest of
      the pattern is tried. */
  function TryWs1(s: string, a: nat, j: nat): (r: Option<Split>)
    requires a + 8 + j <= |s|
    ensures r.Some? ==> r.value.start == a && 1 <= r.value.ws1 <= j && r.value.End() <= |s|
    ensures r.Some? ==> r.value.tail.ws2 >= 1 && r.value.tail.ws3 >= 1
    decreases j
  {
    if j == 0 then None
    else match MatchTail(s, a + 8 + j)
      case Some(t) => Some(Split(a, j, t))
      case None => TryWs1(s, a, j - 1)
  }

  /** The match Python's engine reports when it tries the pattern at index `a`. */
  function MatchAt(s: string, a: nat): (r: Option<Split>)
    ensures r.Some? ==> r.value.start == a && a + 16 <= r.value.End() <= |s|
  {
    if ClockAt(s, a) then TryWs1(s, a, RunLength(s, a + 8, Space)) else None
  }

  // ---------------------------------------------------------------------------
  // What the engine reports: a decomposition, and the first one in backtracking order.

  /** A run of class `cls` from `i` is never longer than the maximal one. */
  lemma RunIsMaximal(s: string, i: nat, cls: Class, j: nat)
    requires i + j <= |s| && AllIn(s, i, i + j, cls)
    ensures j <= RunLength(s, i, cls)
  {
    RunLengthIsMaximal(s, i, cls);
  }

  /** The maximal run of `cls` from `i` is all of class `cls`. */
  lemma RunIsAllIn(s: string, i: nat, cls: Class)
    requires i <= |s|
    ensures AllIn(s, i, i + RunLength(s, i, cls), cls)
  {
    RunLengthIsMaximal(s, i, cls);
  }

  lemma TryWs3Sound(s: string, e: nat, ws2: nat, score: nat, k: nat, t: Tail)
    requires TailHeadOk(s, e, ws2, score) && e + ws2 + score + k <= |s|
    requires AllIn(s, e + ws2 + score, e + ws2 + score + k, Space)
    requires TryWs3(s, e, ws2, score, k) == Some(t)
    ensures IsTailToLineEnd(s, e, t)
  {
    RunLengthIsMaximal(s, e + ws2 + score + k, Line);
  }

  lemma TryWs3First(s: string, e: nat, ws2: nat, score: nat, k: nat, u: Tail)
    requires e + ws2 + score + k <= |s|
    requires IsTail(s, e, u) && u.ws2 == ws2 && u.score == score && 1 <= u.ws3 <= k
    ensures TryWs3(s, e, ws2, score, k).Some?
    ensures TailTriedNoLater(TryWs3(s, e, ws2, score, k).value, u)
  {
    if u.ws3 == k {
      RunIsMaximal(s, e + u.RestStart(), Line, u.rest);
    }
  }

  lemma {:induction false} TryScoreSound(s: string, e: nat, ws2: nat, m: nat, t: Tail)
    requires TailHeadOk(s, e, ws2, m)
    requires TryScore(s, e, ws2, m) == Some(t)
    ensures IsTailToLineEnd(s, e, t)
    decreases m
  {
    var k := RunLength(s, e + ws2 + m, Space);
    if TryWs3(s, e, ws2, m, k).Some? {
      assert TryWs3(s, e, ws2, m, k) == Some(t);
      RunIsAllIn(s, e + ws2 + m, Space);
      TryWs3Sound(s, e, ws2, m, k, t);
    } else {
      assert TryScore(s, e, ws2, m - 1) == Some(t);
      TryScoreSound(s, e, ws2, m - 1, t);
    }
  }

  lemma {:induction false} TryScoreFirst(s: string, e: nat, ws2: nat, m: nat, u: Tail)
    requires e + ws2 + m <= |s|
    requires IsTail(s, e, u) && u.ws2 == ws2 && u.score <= m
    ensures TryScore(s, e, ws2, m).Some?
    ensures TailTriedNoLater(TryScore(s, e, ws2, m).value, u)
    decreases m
  {
    var k := RunLength(s, e + ws2 + m, Space);
    if u.score == m {
      RunIsMaximal(s, e + u.ScoreEnd(), Space, u.ws3);
      TryWs3First(s, e, ws2, m, k, u);
      assert TryScore(s, e, ws2, m) == TryWs3(s, e, ws2, m, k);
    } else if TryWs3(s, e, ws2, m, k).None? {
      assert TryScore(s, e, ws2, m) == TryScore(s, e, ws2, m - 1);
      TryScoreFirst(s, e, ws2, m - 1, u);
    } else {
      var t := TryWs3(s, e, ws2, m, k).value;
      assert TryScore(s, e, ws2, m) == Some(t);
      assert t.ws2 == u.ws2 && t.score > u.score;
    }
  }

  lemma {:induction false} TryWs2Sound(s: string, e: nat, j: nat, t: Tail)
    requires e + j <= |s| && AllIn(s, e, e + j, Space)
    requires TryWs2(s, e, j) == Some(t)
    ensures IsTailToLineEnd(s, e, t)
    decreases j
  {
    var m := RunLength(s, e + j, Score);
    if TryScore(s, e, j, m).Some? {
      assert TryScore(s, e, j, m) == Some(t);
      RunIsAllIn(s, e + j, Score);
      TryScoreSound(s, e, j, m, t);
    } else {
      assert TryWs2(s, e, j - 1) == Some(t);
      TryWs2Sound(s, e, j - 1, t);
    }
  }

  lemma {:induction false} TryWs2First(s: string, e: nat, j: nat, u: Tail)
    requires e + j <= |s|
    requires IsTail(s, e, u) && u.ws2 <= j
    ensures TryWs2(s, e, j).Some?
    ensures TailTriedNoLater(TryWs2(s, e, j).value, u)
    decreases j
  {
    var m := RunLength(s, e + j, Score);
    if u.ws2 == j {
      RunIsMaximal(s, e + j, Score, u.score);
      TryScoreFirst(s, e, j, m, u);
      assert TryWs2(s, e, j) == TryScore(s, e, j, m);
    } else if TryScore(s, e, j, m).None? {
      assert TryWs2(s, e, j) == TryWs2(s, e, j - 1);
      TryWs2First(s, e, j - 1, u);
    } else {
      var t := TryScore(s, e, j, m).value;
      assert TryWs2(s, e, j) == Some(t);
      assert t.ws2 > u.ws2;
    }
  }

  /** `d` divides the text as the pattern asks, and its description runs to the end of the line. */
  predicate IsSplitToLineEnd(s: string, d: Split) {
    IsSplit(s, d) && LineEndsAt(s, d.End())
  }

  lemma MatchTailSound(s: string, i: nat)
    requires i <= |s| && MatchTail(s, i).Some?
    ensures ElapsedAt(s, i) && IsTailToLineEnd(s, i + 5, MatchTail(s, i).value)
  {
    RunIsAllIn(s, i + 5, Space);
    TryWs2Sound(s, i + 5, RunLength(s, i + 5, Space), MatchTail(s, i).value);
  }

  lemma MatchTailFirst(s: string, i: nat, u: Tail)
    requires ElapsedAt(s, i) && IsTail(s, i + 5, u)
    ensures MatchTail(s, i).Some? && TailTriedNoLater(MatchTail(s, i).value, u)
  {
    RunIsMaximal(s, i + 5, Space, u.ws2);
    TryWs2First(s, i + 5, RunLength(s, i + 5, Space), u);
  }

  /** A clock, at least one space, an elapsed time and a tail make a split. */
  lemma SplitOfParts(s: string, a: nat, j: nat, t: Tail)
    requires ClockAt(s, a) && j >= 1 && a + 8 + j <= |s| && AllIn(s, a + 8, a + 8 + j, Space)
    requires ElapsedAt(s, a + 8 + j) && IsTailToLineEnd(s, a + 8 + j + 5, t)
    ensures IsSplitToLineEnd(s, Split(a, j, t))
  {
  }

  lemma {:induction false} TryWs1Sound(s: string, a: nat, j: nat)
    requires ClockAt(s, a) && a + 8 + j <= |s| && AllIn(s, a + 8, a + 8 + j, Space)
    requires TryWs1(s, a, j).Some?
    ensures IsSplitToLineEnd(s, TryWs1(s, a, j).value)
    decreases j
  {
    if MatchTail(s, a + 8 + j).Some? {
      var t := MatchTail(s, a + 8 + j).value;
      MatchTailSound(s, a + 8 + j);
      SplitOfParts(s, a, j, t);
      assert TryWs1(s, a, j) == Some(Split(a, j, t));
    } else {
      assert TryWs1(s, a, j) == TryWs1(s, a, j - 1);
      TryWs1Sound(s, a, j - 1);
    }
  }

  lemma {:induction false} TryWs1First(s: string, a: nat, j: nat, d: Split)
    requires a + 8 + j <= |s| && d.start == a && 1 <= d.ws1 <= j
    requires MatchTail(s, a + 8 + d.ws1).Some?
    requires TailTriedNoLater(MatchTail(s, a + 8 + d.ws1).value, d.tail)
    ensures TryWs1(s, a, j).Some?
    ensures TriedNoLater(TryWs1(s, a, j).value, d)
    decreases j
  {
    var t := MatchTail(s, a + 8 + j);
    if t.Some? {
      assert TryWs1(s, a, j) == Some(Split(a, j, t.value));
    } else {
      assert TryWs1(s, a, j) == TryWs1(s, a, j - 1);
      TryWs1First(s, a, j - 1, d);
    }
  }

  /** Every reported match is a decomposition, and its description runs to the end of the line. */
  lemma MatchAtIsSplit(s: string, a: nat)
    requires MatchAt(s, a).Some?
    ensures IsSplitToLineEnd(s, MatchAt(s, a).value)
  {
    RunIsAllIn(s, a + 8, Space);
    TryWs1Sound(s, a, RunLength(s, a + 8, Space));
  }

  /** A match is reported at `d.start` whenever a decomposition `d` starts there, and
      the reported one is tried no later than `d`: it is the first decomposition in
      backtracking order. */
  lemma MatchAtIsFirst(s: string, d: Split)
    requires IsSplit(s, d)
    ensures MatchAt(s, d.start).Some?
    ensures TriedNoLater(MatchAt(s, d.start).value, d)
  {
    RunIsMaximal(s, d.start + 8, Space, d.ws1);
    MatchTailFirst(s, d.ElapsedStart(), d.tail);
    TryWs1First(s, d.start, RunLength(s, d.start + 8, Space), d);
  }
}
