/** Single lines of a timeline, worked through the pattern: the places where the
    pattern's behaviour is easy to get wrong. */
module Scenarios {
  import opened Wrappers
  import opened Chars
  import opened Timeline
  import opened Spielbericht

  /** With an empty score, the score group needs whitespace on both sides: a
      single blank between the elapsed time and the description is no match. */
  lemma OneBlankIsNoMatch()
    ensures MatchAt("12:00:00 10:00 Tor", 0).None?
  {
    var s := "12:00:00 10:00 Tor";
    assert ClockAt(s, 0);
    assert RunLength(s, 8, Space) == 1;
    assert ElapsedAt(s, 9);
    assert RunLength(s, 14, Space) == 1;
    assert RunLength(s, 15, Score) == 0;
    assert RunLength(s, 15, Space) == 0;
  }

  /** Two blanks suffice: the first `\s+` gives one back so that the second has one. */
  lemma TwoBlanksMatch()
    ensures MatchAt("12:00:00 10:00  Tor", 0) == Some(Split(0, 1, Tail(1, 0, 1, 3)))
  {
    var s := "12:00:00 10:00  Tor";
    assert ClockAt(s, 0);
    assert RunLength(s, 8, Space) == 1;
    assert ElapsedAt(s, 9);
    assert RunLength(s, 14, Space) == 2;
    assert RunLength(s, 16, Score) == 0;
    assert RunLength(s, 16, Space) == 0;
    assert TryWs2(s, 14, 2) == TryWs2(s, 14, 1);
    assert RunLength(s, 15, Score) == 0;
    assert RunLength(s, 15, Space) == 1;
    assert RunLength(s, 16, Line) == 3;
  }

  lemma TwoBlanksSplit()
    ensures IsSplit("12:00:00 10:00  Tor", Split(0, 1, Tail(1, 0, 1, 3)))
  {
    var s := "12:00:00 10:00  Tor";
    assert ClockAt(s, 0) && ElapsedAt(s, 9);
    assert AllIn(s, 8, 9, Space) && AllIn(s, 14, 15, Space) && AllIn(s, 15, 16, Space);
    assert AllIn(s, 16, 19, Line);
  }

  /** ... and the empty score becomes `None`. */
  lemma TwoBlanksGiveNoScore()
    ensures var d := Split(0, 1, Tail(1, 0, 1, 3));
      IsSplit("12:00:00 10:00  Tor", d) && EventOf("12:00:00 10:00  Tor", d) == Event("12:00:00", "10:00", None, "Tor")
  {
    var s := "12:00:00 10:00  Tor";
    TwoBlanksSplit();
    var rest := s[16..19];
    assert rest == "Tor";
    assert RunLength(rest, 0, Space) == 0;
    assert StripRight(rest) == rest;
    assert rest[0..] == rest;
    assert s[0..8] == "12:00:00" && s[9..14] == "10:00";
  }

  /** `\s` crosses line ends: the line end after the score is the whitespace before
      the description, and the description is taken from the next line. */
  lemma NextLineMatch()
    ensures MatchAt("12:00:00 10:00 2:1\nTor", 0) == Some(Split(0, 1, Tail(1, 3, 1, 3)))
  {
    var s := "12:00:00 10:00 2:1\nTor";
    assert ClockAt(s, 0);
    assert RunLength(s, 8, Space) == 1;
    assert ElapsedAt(s, 9);
    assert RunLength(s, 14, Space) == 1;
    assert RunLength(s, 15, Score) == 3;
    assert RunLength(s, 18, Space) == 1;
    assert RunLength(s, 19, Line) == 3;
    assert TryWs3(s, 14, 1, 3, 1) == Some(Tail(1, 3, 1, 3));
    assert TryScore(s, 14, 1, 3) == Some(Tail(1, 3, 1, 3));
  }

  lemma NextLineSplit()
    ensures IsSplit("12:00:00 10:00 2:1\nTor", Split(0, 1, Tail(1, 3, 1, 3)))
  {
    var s := "12:00:00 10:00 2:1\nTor";
    assert ClockAt(s, 0) && ElapsedAt(s, 9);
    assert AllIn(s, 8, 9, Space) && AllIn(s, 14, 15, Space) && AllIn(s, 18, 19, Space);
    assert AllIn(s, 15, 18, Score) && AllIn(s, 19, 22, Line);
  }

  lemma DescriptionOnNextLine()
    ensures var d := Split(0, 1, Tail(1, 3, 1, 3));
      IsSplit("12:00:00 10:00 2:1\nTor", d) && EventOf("12:00:00 10:00 2:1\nTor", d) == Event("12:00:00", "10:00", Some("2:1"), "Tor")
  {
    var s := "12:00:00 10:00 2:1\nTor";
    NextLineSplit();
    var rest := s[19..22];
    assert rest == "Tor";
    assert RunLength(rest, 0, Space) == 0;
    assert StripRight(rest) == rest;
    assert rest[0..] == rest;
    assert s[0..8] == "12:00:00" && s[9..14] == "10:00" && s[15..18] == "2:1";
  }

  /** A score with no description after it: the line end is the whitespace before
      the description, and `(.*)` takes the whole next line, whatever it holds. Two
      lines of the timeline's shape thus give one match, whose description is the
      second line. */
  lemma {:induction false} ScoreLineSwallowsNextLine(line: string)
    requires |line| > 0 && !IsSpace(line[0])
    requires forall k :: 0 <= k < |line| ==> line[k] != '\n'
    ensures MatchAt("12:00:00 10:00 2:1\n" + line, 0) == Some(Split(0, 1, Tail(1, 3, 1, |line|)))
  {
    var p := "12:00:00 10:00 2:1\n";
    var s := p + line;
    var t := Tail(1, 3, 1, |line|);
    assert forall k :: 0 <= k < |p| ==> s[k] == p[k];
    assert s[19] == line[0];
    assert ClockAt(s, 0);
    assert RunLength(s, 9, Space) == 0;
    assert RunLength(s, 8, Space) == 1;
    assert ElapsedAt(s, 9);
    assert RunLength(s, 15, Space) == 0;
    assert RunLength(s, 14, Space) == 1;
    assert RunLength(s, 18, Score) == 0;
    assert RunLength(s, 17, Score) == 1;
    assert RunLength(s, 15, Score) == 3;
    assert RunLength(s, 19, Space) == 0;
    assert RunLength(s, 18, Space) == 1;
    RunLengthIsMaximal(s, 19, Line);
    assert RunLength(s, 19, Line) == |line|;
    assert TryWs3(s, 14, 1, 3, 1) == Some(t);
    assert TryScore(s, 14, 1, 3) == Some(t);
    assert TryWs2(s, 14, 1) == Some(t);
    assert MatchTail(s, 9) == Some(t);
    assert TryWs1(s, 0, 1) == Some(Split(0, 1, t));
  }
}
