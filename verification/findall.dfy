/** `re.findall`: scanning a text left to right for non-overlapping matches. The
    scan is stated for any matcher of timeline splits that reports, for each
    index, the match found there (if any); `FindAll` instantiates it with the
    timeline pattern. */
module Findall {
  import opened Wrappers
  import opened Timeline

  /** `m` reports matches of a text of length `n`: a match reported at `q` starts at
      `q`, is non-empty and ends inside the text. */
  ghost predicate Advances(n: nat, m: nat -> Option<Split>) {
    forall q: nat :: m(q).Some? ==> m(q).value.start == q && q < m(q).value.End() <= n
  }

  /** `m` reports no match at any index in `[lo, hi)`. */
  ghost predicate NoMatchIn(m: nat -> Option<Split>, lo: nat, hi: nat) {
    forall q: nat :: lo <= q < hi ==> m(q).None?
  }

  /** The scanning loop: try `m` at `pos`; after a match resume where it ended,
      otherwise at the next index. */
  function Scan(n: nat, pos: nat, m: nat -> Option<Split>): (ms: seq<Split>)
    requires pos <= n && Advances(n, m)
    decreases n - pos
  {
    if pos == n then []
    else
      match m(pos)
      case Some(d) => [d] + Scan(n, d.End(), m)
      case None => Scan(n, pos + 1, m)
  }

  /** What `re.findall` promises, stated without the loop: every element is the
      match reported at its start; they are in increasing, non-overlapping order;
      and no match is reported before the first, between two consecutive ones, or
      after the last (an index equal to `n` included). */
  ghost predicate IsScan(n: nat, pos: nat, m: nat -> Option<Split>, ms: seq<Split>) {
    && (forall i :: 0 <= i < |ms| ==> m(ms[i].start) == Some(ms[i]))
    && (|ms| == 0 ==> NoMatchIn(m, pos, n + 1))
    && (|ms| > 0 ==> pos <= ms[0].start && NoMatchIn(m, pos, ms[0].start))
    && (|ms| > 0 ==> NoMatchIn(m, ms[|ms| - 1].End(), n + 1))
    && (forall i :: 0 <= i < |ms| - 1 ==>
          ms[i].End() <= ms[i + 1].start && NoMatchIn(m, ms[i].End(), ms[i + 1].start))
  }

  /** A match at `pos` followed by the scan from its end is the scan from `pos`. */
  lemma ScanSpecCons(n: nat, pos: nat, m: nat -> Option<Split>, d: Split, tail: seq<Split>)
    requires pos < n && Advances(n, m) && m(pos) == Some(d)
    requires IsScan(n, d.End(), m, tail)
    ensures IsScan(n, pos, m, [d] + tail)
  {
    var ms := [d] + tail;
    assert ms[0] == d;
    assert forall i :: 1 <= i < |ms| ==> ms[i] == tail[i - 1];
    if |tail| > 0 {
      assert ms[|ms| - 1] == tail[|tail| - 1];
    }
  }

  /** No match at `pos`: the scan from `pos` is the scan from `pos + 1`. */
  lemma ScanSpecSkip(n: nat, pos: nat, m: nat -> Option<Split>, ms: seq<Split>)
    requires pos < n && Advances(n, m) && m(pos).None?
    requires IsScan(n, pos + 1, m, ms)
    ensures IsScan(n, pos, m, ms)
  {
  }

  lemma {:induction false} ScanMeetsSpec(n: nat, pos: nat, m: nat -> Option<Split>)
    requires pos <= n && Advances(n, m)
    ensures IsScan(n, pos, m, Scan(n, pos, m))
    decreases n - pos
  {
    if pos == n {
      assert NoMatchIn(m, pos, n + 1);
    } else {
      match m(pos)
      case Some(d) =>
        ScanMeetsSpec(n, d.End(), m);
        ScanSpecCons(n, pos, m, d, Scan(n, d.End(), m));
      case None =>
        ScanMeetsSpec(n, pos + 1, m);
        ScanSpecSkip(n, pos, m, Scan(n, pos + 1, m));
    }
  }

  /** A description of the scan from `pos`, where `m` reports `d`, starts with `d`
      and goes on with a description of the scan from the end of `d`. */
  lemma ScanSpecUncons(n: nat, pos: nat, m: nat -> Option<Split>, ms: seq<Split>, d: Split)
    requires pos < n && Advances(n, m) && m(pos) == Some(d)
    requires IsScan(n, pos, m, ms)
    ensures |ms| > 0 && ms[0] == d && IsScan(n, d.End(), m, ms[1..])
  {
    assert |ms| > 0 && ms[0].start == pos;
    var tail := ms[1..];
    if |tail| > 0 {
      assert tail[0] == ms[1];
      assert tail[|tail| - 1] == ms[|ms| - 1];
    }
  }

  /** Where `m` reports nothing at `pos`, a description of the scan from `pos` is
      one of the scan from `pos + 1`. */
  lemma ScanSpecUnskip(n: nat, pos: nat, m: nat -> Option<Split>, ms: seq<Split>)
    requires pos < n && Advances(n, m) && m(pos).None?
    requires IsScan(n, pos, m, ms)
    ensures IsScan(n, pos + 1, m, ms)
  {
    if |ms| > 0 {
      assert ms[0].start != pos;
    }
  }

  /** Nothing is found from the end of the text on: a first match would start at or
      after `n` yet end by `n`. */
  lemma ScanSpecAtEnd(n: nat, m: nat -> Option<Split>, ms: seq<Split>)
    requires Advances(n, m) && IsScan(n, n, m, ms)
    ensures ms == []
  {
  }

  /** The spec determines the result: `Scan` is the only sequence meeting it. */
  lemma {:induction false} ScanSpecIsUnique(n: nat, pos: nat, m: nat -> Option<Split>, ms: seq<Split>)
    requires pos <= n && Advances(n, m)
    requires IsScan(n, pos, m, ms)
    ensures ms == Scan(n, pos, m)
    decreases n - pos
  {
    if pos == n {
      ScanSpecAtEnd(n, m, ms);
    } else {
      match m(pos)
      case Some(d) =>
        ScanSpecUncons(n, pos, m, ms, d);
        ScanSpecIsUnique(n, d.End(), m, ms[1..]);
        assert ms == [d] + ms[1..];
      case None =>
        ScanSpecUnskip(n, pos, m, ms);
        ScanSpecIsUnique(n, pos + 1, m, ms);
    }
  }

  /** The timeline pattern as a matcher over `s`. */
  function Matches(s: string): nat -> Option<Split> {
    (q: nat) => MatchAt(s, q)
  }

  lemma MatchesAdvance(s: string)
    ensures Advances(|s|, Matches(s))
  {
  }

  /** `re.findall(pattern, s[pos:])` for the timeline pattern, indices kept relative to `s`. */
  function FindAll(s: string, pos: nat): (ms: seq<Split>)
    requires pos <= |s|
    ensures IsScan(|s|, pos, Matches(s), ms)
  {
    MatchesAdvance(s);
    ScanMeetsSpec(|s|, pos, Matches(s));
    Scan(|s|, pos, Matches(s))
  }
}
