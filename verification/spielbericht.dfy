/** `parse_spielbericht` (main.py): from the text of a match report's pages to the
    report's game number and its timeline of events. */
module Spielbericht {
  import opened Wrappers
  import opened Chars
  import opened Search
  import opened Timeline
  import opened Findall

  /** The literal part of `Spiel Nr\. (\d+)`. */
  const IdAnchor: string := "Spiel Nr. "

  /** The line that opens the timeline section. */
  const TimelineMarker: string := "Spielverlauf\n"

  /** The game number reported when the text carries none. */
  const NoId: string := "N/A"

  /** One entry of `spielverlauf`. */
  datatype Event = Event(uhrzeit: string, spielzeit: string, spielstand: Option<string>, aktion: string)

  /** The returned dictionary: exactly the keys `spielId` and `spielverlauf`. */
  datatype Report = Report(spielId: string, spielverlauf: seq<Event>)

  // ---------------------------------------------------------------------------
  // The full text

  /** Each page's text followed by a line feed, in page order, built by appending
      one page at a time. */
  function FullText(pages: seq<string>): (text: string)
    ensures |pages| > 0 ==> |text| > 0 && text[|text| - 1] == '\n'
  {
    if |pages| == 0 then ""
    else FullText(pages[..|pages| - 1]) + pages[|pages| - 1] + "\n"
  }

  /** Read from the front: the first page and its line feed, then the text of the others. */
  lemma {:induction false} FullTextCons(page: string, pages: seq<string>)
    ensures FullText([page] + pages) == page + "\n" + FullText(pages)
    decreases |pages|
  {
    if |pages| > 0 {
      var init := pages[..|pages| - 1];
      assert ([page] + pages)[..|pages|] == [page] + init;
      FullTextCons(page, init);
    } else {
      assert [page] + pages == [page];
      assert FullText([page][..0]) == "";
    }
  }

  /** The text of the first `k` pages is a prefix of the full text. */
  lemma {:induction false} FullTextPrefix(pages: seq<string>, k: nat)
    requires k <= |pages|
    ensures |FullText(pages[..k])| <= |FullText(pages)|
    ensures FullText(pages[..k]) == FullText(pages)[..|FullText(pages[..k])|]
    decreases |pages| - k
  {
    if k < |pages| {
      var init := pages[..|pages| - 1];
      assert pages[..k] == init[..k];
      FullTextPrefix(init, k);
    } else {
      assert pages[..k] == pages;
    }
  }

  /** Page `k` sits in the full text right after the text of the pages before it,
      and a line feed follows it. */
  lemma PageInFullText(pages: seq<string>, k: nat)
    requires k < |pages|
    ensures var o := |FullText(pages[..k])|;
      && o + |pages[k]| < |FullText(pages)|
      && FullText(pages)[o..o + |pages[k]|] == pages[k]
      && FullText(pages)[o + |pages[k]|] == '\n'
  {
    FullTextPrefix(pages, k + 1);
    var pre := pages[..k + 1];
    assert pre[..k] == pages[..k];
    var ft := FullText(pages);
    var h := FullText(pre);
    assert h == FullText(pages[..k]) + pages[k] + "\n";
    var o := |FullText(pages[..k])|;
    var n := |pages[k]|;
    assert h[o..o + n] == pages[k] && h[o + n] == '\n';
    assert ft[o..o + n] == h[o..o + n] && ft[o + n] == h[o + n];
  }

  // ---------------------------------------------------------------------------
  // spielId

  /** `Spiel Nr\. (\d+)` can start matching at `p`: the anchor, then a digit. */
  predicate IdAnchorAt(text: string, p: nat) {
    OccursAt(text, IdAnchor, p) && p + |IdAnchor| < |text| && IsDigit(text[p + |IdAnchor|])
  }

  /** The leftmost index `q >= p` at which the game-number pattern matches, or -1. */
  function FindIdAnchor(text: string, p: nat): (r: int)
    requires p <= |text|
    ensures r == -1 || (p <= r && IdAnchorAt(text, r))
    ensures forall q :: p <= q && (r == -1 || q < r) ==> !IdAnchorAt(text, q)
    decreases |text| - p
  {
    if IdAnchorAt(text, p) then p
    else if p == |text| then -1
    else FindIdAnchor(text, p + 1)
  }

  /** `match.group(1)` of `re.search(r"Spiel Nr\. (\d+)", text)`, or "N/A" when it
      does not match. */
  function SpielId(text: string): (id: string)
    ensures id == NoId <==> forall p :: !IdAnchorAt(text, p)
    ensures id != NoId ==> |id| > 0 && AllDigits(id)
  {
    var p := FindIdAnchor(text, 0);
    if p == -1 then NoId
    else
      var b := p + |IdAnchor|;
      RunLengthIsMaximal(text, b, Digit);
      text[b..b + RunLength(text, b, Digit)]
  }

  /** When the pattern matches, the game number is the whole digit run that follows
      the leftmost anchor followed by a digit. */
  lemma SpielIdIsLeftmostRun(text: string, p: nat)
    requires IdAnchorAt(text, p)
    requires forall q :: 0 <= q < p ==> !IdAnchorAt(text, q)
    ensures var b := p + |IdAnchor|;
      && b + |SpielId(text)| <= |text|
      && SpielId(text) == text[b..b + |SpielId(text)|]
      && (b + |SpielId(text)| == |text| || !IsDigit(text[b + |SpielId(text)|]))
  {
    var r := FindIdAnchor(text, 0);
    assert r == p;
    RunLengthIsMaximal(text, p + |IdAnchor|, Digit);
  }

  /** A game number on a page is a game number of the full text. */
  lemma PageAnchorInFullText(pages: seq<string>, k: nat, p: nat)
    requires k < |pages| && IdAnchorAt(pages[k], p)
    ensures IdAnchorAt(FullText(pages), |FullText(pages[..k])| + p)
  {
    PageInFullText(pages, k);
    var o := |FullText(pages[..k])|;
    var t := FullText(pages);
    var page := pages[k];
    var n := |IdAnchor|;
    var w := t[o..o + |page|];
    assert forall i :: 0 <= i < |page| ==> w[i] == t[o + i];
    assert t[o + p..o + p + n] == page[p..p + n];
  }

  /** A line feed at `j` rules out a game number whose anchor or digit would cover `j`. */
  lemma NoAnchorOverLineFeed(t: string, q: nat, j: nat)
    requires q <= j <= q + |IdAnchor| && j < |t| && t[j] == '\n'
    ensures !IdAnchorAt(t, q)
  {
    var n := |IdAnchor|;
    if j < q + n && q + n <= |t| {
      assert t[q..q + n][j - q] == '\n';
      assert IdAnchor[j - q] != '\n';
    }
  }

  /** The anchor and its digit contain no line feed, so they never reach across the
      line feed that ends a page: a game number of the full text lies on one page. */
  lemma {:induction false} AnchorInFullTextIsOnAPage(pages: seq<string>, q: nat)
    requires IdAnchorAt(FullText(pages), q)
    ensures exists k, p :: 0 <= k < |pages| && IdAnchorAt(pages[k], p) && q == |FullText(pages[..k])| + p
    decreases |pages|
  {
    assert |pages| > 0;
    var init := pages[..|pages| - 1];
    var last := pages[|pages| - 1];
    var ft := FullText(init);
    var t := FullText(pages);
    var n := |IdAnchor|;
    assert t == ft + last + "\n";
    if q + n < |ft| {
      assert ft[q..q + n] == t[q..q + n];
      assert IdAnchorAt(ft, q);
      AnchorInFullTextIsOnAPage(init, q);
      var k, p :| 0 <= k < |init| && IdAnchorAt(init[k], p) && q == |FullText(init[..k])| + p;
      assert init[k] == pages[k];
      assert init[..k] == pages[..k];
    } else if q >= |ft| {
      var p := q - |ft|;
      assert t[|ft| + |last|] == '\n';
      assert last[p..p + n] == t[q..q + n];
      assert last[p + n] == t[q + n];
      assert IdAnchorAt(last, p);
      assert pages[..|pages| - 1] == init;
    } else {
      NoAnchorOverLineFeed(t, q, |ft| - 1);
    }
  }

  /** The game number is "N/A" exactly when no page holds `Spiel Nr. ` followed by
      a digit. */
  lemma SpielIdFromPages(pages: seq<string>)
    ensures SpielId(FullText(pages)) == NoId
        <==> forall k, p :: 0 <= k < |pages| ==> !IdAnchorAt(pages[k], p)
  {
    if SpielId(FullText(pages)) == NoId {
      forall k, p | 0 <= k < |pages|
        ensures !IdAnchorAt(pages[k], p)
      {
        if IdAnchorAt(pages[k], p) {
          PageAnchorInFullText(pages, k, p);
        }
      }
    } else {
      var q :| IdAnchorAt(FullText(pages), q);
      AnchorInFullTextIsOnAPage(pages, q);
    }
  }

  // ---------------------------------------------------------------------------
  // spielverlauf

  /** What every event carries: the two times in shape, a score that is absent or a
      non-empty run of digits and colons, and a one-line description with no
      surrounding whitespace. */
  predicate IsWellFormed(e: Event) {
    && IsClock(e.uhrzeit)
    && IsElapsed(e.spielzeit)
    && (e.spielstand.Some? ==> |e.spielstand.value| > 0 && AllScoreChars(e.spielstand.value))
    && (forall k :: 0 <= k < |e.aktion| ==> e.aktion[k] != '\n')
    && (e.aktion == [] || (!IsSpace(e.aktion[0]) && !IsSpace(e.aktion[|e.aktion| - 1])))
  }

  lemma ClockSlice(v: string, i: nat)
    requires ClockAt(v, i)
    ensures IsClock(v[i..i + 8])
  {
  }

  lemma ElapsedSlice(v: string, i: nat)
    requires ElapsedAt(v, i)
    ensures IsElapsed(v[i..i + 5])
  {
  }

  lemma ScoreSlice(v: string, lo: nat, hi: nat)
    requires lo <= hi <= |v| && AllIn(v, lo, hi, Score)
    ensures AllScoreChars(v[lo..hi])
  {
  }

  /** Stripping a line leaves a line. */
  lemma StripOneLine(v: string, lo: nat, hi: nat)
    requires lo <= hi <= |v| && AllIn(v, lo, hi, Line)
    ensures forall k :: 0 <= k < |Strip(v[lo..hi])| ==> Strip(v[lo..hi])[k] != '\n'
  {
    var rest := v[lo..hi];
    var lead := RunLength(rest, 0, Space);
    forall k | 0 <= k < |Strip(rest)|
      ensures Strip(rest)[k] != '\n'
    {
      assert Strip(rest)[k] == rest[lead + k] == v[lo + lead + k];
    }
  }

  /** The dictionary built from one `findall` tuple. */
  function EventOf(v: string, d: Split): (e: Event)
    requires IsSplit(v, d)
    ensures IsWellFormed(e)
    ensures e.uhrzeit == v[d.start..d.start + 8]
    ensures e.spielzeit == v[d.ElapsedStart()..d.TailStart()]
    ensures e.spielstand.None? <==> d.tail.score == 0
    ensures e.spielstand.Some? ==> e.spielstand.value == v[d.ScoreStart()..d.ScoreEnd()]
    ensures e.aktion == Strip(v[d.RestStart()..d.End()])
  {
    ClockSlice(v, d.start);
    ElapsedSlice(v, d.ElapsedStart());
    ScoreSlice(v, d.ScoreStart(), d.ScoreEnd());
    StripOneLine(v, d.RestStart(), d.End());
    var score := v[d.ScoreStart()..d.ScoreEnd()];
    Event(v[d.start..d.start + 8], v[d.ElapsedStart()..d.TailStart()],
          if |score| == 0 then None else Some(score), Strip(v[d.RestStart()..d.End()]))
  }

  /** The list of events, built as the loop builds it: one `append` per match
      tuple, in the order of the tuples. */
  function EventsOf(v: string, ms: seq<Split>): (evs: seq<Event>)
    requires forall i :: 0 <= i < |ms| ==> IsSplit(v, ms[i])
    ensures |evs| == |ms|
    ensures forall i :: 0 <= i < |evs| ==> IsWellFormed(evs[i])
  {
    if |ms| == 0 then []
    else EventsOf(v, ms[..|ms| - 1]) + [EventOf(v, ms[|ms| - 1])]
  }

  /** Event `i` is the event of match `i`. */
  lemma {:induction false} EventsOfPointwise(v: string, ms: seq<Split>)
    requires forall i :: 0 <= i < |ms| ==> IsSplit(v, ms[i])
    ensures forall i :: 0 <= i < |ms| ==> EventsOf(v, ms)[i] == EventOf(v, ms[i])
  {
    if |ms| > 0 {
      var init := ms[..|ms| - 1];
      EventsOfPointwise(v, init);
      forall i | 0 <= i < |ms|
        ensures EventsOf(v, ms)[i] == EventOf(v, ms[i])
      {
        if i < |init| {
          assert EventsOf(v, ms)[i] == EventsOf(v, init)[i];
          assert init[i] == ms[i];
        }
      }
    }
  }

  /** Every match `findall` returns is a decomposition of the text. */
  lemma FindAllAreSplits(v: string)
    ensures forall i :: 0 <= i < |FindAll(v, 0)| ==> IsSplit(v, FindAll(v, 0)[i])
  {
    var ms := FindAll(v, 0);
    forall i | 0 <= i < |ms|
      ensures IsSplit(v, ms[i])
    {
      assert Matches(v)(ms[i].start) == Some(ms[i]);
      MatchAtIsSplit(v, ms[i].start);
    }
  }

  /** The matches of the timeline pattern in the text from the first marker on. */
  function TimelineMatches(text: string): (ms: seq<Split>)
    requires Find(text, TimelineMarker) != -1
  {
    FindAll(text[Find(text, TimelineMarker)..], 0)
  }

  /** `spielverlauf`: nothing without the marker; otherwise one event for each match
      of the timeline pattern in the text from the marker on. */
  function Spielverlauf(text: string): (evs: seq<Event>)
    ensures (forall k :: !OccursAt(text, TimelineMarker, k)) ==> evs == []
    ensures forall i :: 0 <= i < |evs| ==> IsWellFormed(evs[i])
  {
    var i := Find(text, TimelineMarker);
    if i == -1 then []
    else
      var v := text[i..];
      FindAllAreSplits(v);
      EventsOf(v, FindAll(v, 0))
  }

  /** The events are those of the matches, one each and in order; `FindAll` states
      that the matches are increasing, non-overlapping and leave nothing out. */
  lemma SpielverlaufFollowsMatches(text: string)
    requires Find(text, TimelineMarker) != -1
    ensures var v := text[Find(text, TimelineMarker)..];
      var ms := TimelineMatches(text);
      && IsScan(|v|, 0, Matches(v), ms)
      && (forall i :: 0 <= i < |ms| ==> IsSplit(v, ms[i]))
      && |Spielverlauf(text)| == |ms|
      && (forall i :: 0 <= i < |ms| ==> Spielverlauf(text)[i] == EventOf(v, ms[i]))
  {
    var v := text[Find(text, TimelineMarker)..];
    FindAllAreSplits(v);
    EventsOfPointwise(v, FindAll(v, 0));
  }

  /** The marker's first character does not occur again in it, so an occurrence
      cannot start inside a text that lacks the marker and reach into a following
      text that starts with it. */
  lemma MarkerNotStraddled(pre: string, suf: string, k: nat)
    requires forall q :: !OccursAt(pre, TimelineMarker, q)
    requires OccursAt(suf, TimelineMarker, 0)
    requires k < |pre|
    ensures !OccursAt(pre + suf, TimelineMarker, k)
  {
    var t := pre + suf;
    var n := |TimelineMarker|;
    if k + n <= |pre| {
      assert !OccursAt(pre, TimelineMarker, k);
      assert t[k..k + n] == pre[k..k + n];
    } else if k + n <= |t| {
      var j := |pre| - k;
      assert t[k..k + n][j] == suf[0] == suf[..n][0];
      assert TimelineMarker[j] != 'S';
    }
  }

  /** Text before the timeline marker is ignored: prefixing text that does not
      contain the marker leaves the events unchanged. */
  lemma TimelineIgnoresPrefix(pre: string, suf: string)
    requires forall q :: !OccursAt(pre, TimelineMarker, q)
    requires OccursAt(suf, TimelineMarker, 0)
    ensures Spielverlauf(pre + suf) == Spielverlauf(suf)
  {
    var t := pre + suf;
    forall k | 0 <= k < |pre|
      ensures !OccursAt(t, TimelineMarker, k)
    {
      MarkerNotStraddled(pre, suf, k);
    }
    assert OccursAt(t, TimelineMarker, |pre|) by {
      assert t[|pre|..|pre| + |TimelineMarker|] == suf[..|TimelineMarker|];
    }
    assert Find(t, TimelineMarker) == |pre|;
    assert Find(suf, TimelineMarker) == 0;
    assert t[|pre|..] == suf[0..];
  }

  // ---------------------------------------------------------------------------
  // The report

  /** The report of a text already extracted from the pages. */
  function ParseText(text: string): (r: Report)
    ensures r.spielId == NoId <==> forall p :: !IdAnchorAt(text, p)
    ensures r.spielId != NoId ==> |r.spielId| > 0 && AllDigits(r.spielId)
    ensures (forall k :: !OccursAt(text, TimelineMarker, k)) ==> r.spielverlauf == []
    ensures forall i :: 0 <= i < |r.spielverlauf| ==> IsWellFormed(r.spielverlauf[i])
  {
    Report(SpielId(text), Spielverlauf(text))
  }

  /** `parse_spielbericht`, given the text of each page. */
  function ParseSpielbericht(pages: seq<string>): (r: Report)
    ensures r.spielId != NoId ==> |r.spielId| > 0 && AllDigits(r.spielId)
    ensures forall i :: 0 <= i < |r.spielverlauf| ==> IsWellFormed(r.spielverlauf[i])
  {
    ParseText(FullText(pages))
  }
}
