# parse_spielbericht, modelled in Dafny

`parse_spielbericht` in main.py reads a handball match report (a PDF) and returns a
dictionary with two keys. `spielId` holds the game number. `spielverlauf` holds the
timeline: one entry per match of the timeline pattern, left to right. A match has
the shape `HH:MM:SS  MM:SS  [score]  description`, but it can run over a line end,
and some lines of that shape give no entry (see `Scenarios`).

This project models the text half of that function. The input is the list of
page texts that the PDF library would extract. The model covers these steps:

- the pages are joined, each one followed by a line feed;
- the game number is found with `re.search(r"Spiel Nr\. (\d+)")`, and is `"N/A"` when there is none;
- the text is cut at the first `Spielverlauf\n`;
- `re.findall` runs the timeline pattern
  `(\d{2}:\d{2}:\d{2})\s+(\d{2}:\d{2})\s+([\d:]*)\s+(.*)`
  and every tuple becomes an event.

An empty score becomes `None` and the description is passed through `str.strip()`.

Modules, one per file:

- `Wrappers` (wrappers.dfy): `Option`.
- `Chars` (chars.dfy): the character classes used by the patterns.
  - `\s` is exactly the set of characters for which `str.isspace()` holds.
  - `\d` is the ASCII digits.
  - `.` is anything but a line feed.
  - It also has greedy runs (`RunLength`) and `str.strip()`.
- `Search` (search.dfy): `str.find`.
- `Timeline` (timeline.dfy): the timeline pattern at one index.
  - `IsSplit` is the declarative statement that a piece of text matches the pattern with given quantifier lengths.
  - `MatchAt` is Python's backtracking engine, written out one quantifier at a time. Each `\s+` or `[\d:]*` tries its longest length first and gives back one character at a time.
  - It is proved that the engine reports a valid match (`MatchAtIsSplit`).
  - It is proved that the engine reports the first valid match in backtracking order (`MatchAtIsFirst`). In that order, one match comes before another when its quantifier lengths (the two `\s+` after the times, the score, the `\s+` before the description, and the description) are lexicographically greater.
- `Findall` (findall.dfy): the left-to-right scan of `re.findall`.
  - It is stated for any matcher of timeline splits.
  - It is proved to meet a loop-free description (`IsScan`), and to be the only sequence that does.
- `Spielbericht` (spielbericht.dfy): the page join, the game number, the events and the report.
- `Scenarios` (scenarios.dfy): single timeline lines worked through the pattern. They show the behaviours of the pattern that are easy to get wrong.

## Model

| member | source | states |
|---|---|---|
| Chars.RunLengthIsMaximal | main.py:25 | a greedy `\d+` (and every greedy class run) takes every character of the class from its start and stops at the first character outside it or at the end |
| Chars.Strip | main.py:38 | `str.strip()` returns a slice of its input; everything removed before and after it is whitespace; the result is empty or starts and ends with a non-whitespace character |
| Chars.StripIsIdempotent | main.py:38 | stripping a stripped description changes nothing |
| Search.Find | main.py:29 | `find` returns -1 exactly when the marker occurs nowhere; otherwise an index where it occurs, with no occurrence before it |
| Timeline.MatchAt | main.py:32 | a match found at an index starts there, spans at least the two times and three separators, and ends inside the text |
| Timeline.MatchTailSound | main.py:32 | what the engine reports after the first separator is an elapsed time followed by a valid score/separator/description division, with the description running to the line end |
| Timeline.MatchTailFirst | main.py:32 | after an elapsed time, the engine finds a division whenever one exists, and the one it finds comes first in backtracking order |
| Timeline.MatchAtIsSplit | main.py:32 | every match the engine reports at an index is a valid division of the text into the pattern's parts; its `(.*)` stops at a line feed or at the end of the text |
| Timeline.MatchAtIsFirst | main.py:32 | whenever a valid division starts at an index, the engine reports a match there, and that match comes no later in backtracking order than the division: greedy quantifiers, earlier ones take precedence |
| Findall.ScanMeetsSpec | main.py:32 | the scan reports matches in increasing, non-overlapping order, and no match is found before the first one, between two consecutive ones or after the last one |
| Findall.ScanSpecIsUnique | main.py:32 | any sequence meeting that description is the scan, so the description determines `findall`'s result |
| Findall.FindAll | main.py:32 | `re.findall` with the timeline pattern meets the scan description |
| Spielbericht.FullText | main.py:20-22 | with at least one page the full text is non-empty and ends with a line feed |
| Spielbericht.FullTextCons | main.py:20-22 | read from the front, the full text is the first page, a line feed, then the full text of the other pages |
| Spielbericht.FullTextPrefix | main.py:20-22 | the text of the first k pages is a prefix of the full text |
| Spielbericht.PageInFullText | main.py:20-22 | page k appears verbatim right after the text of the pages before it, followed by a line feed |
| Spielbericht.FindIdAnchor | main.py:25 | the search returns the leftmost index where `Spiel Nr. ` is followed by a digit, or -1 when there is none |
| Spielbericht.SpielId | main.py:24-27 | the game number is `"N/A"` exactly when no `Spiel Nr. ` is followed by a digit; otherwise it is a non-empty string of digits |
| Spielbericht.SpielIdIsLeftmostRun | main.py:25-27 | a found game number is the whole digit run after the leftmost `Spiel Nr. ` that has a digit after it: it stops at a non-digit or at the end of the text |
| Spielbericht.PageAnchorInFullText | main.py:20-27 | a game number on one page is one of the full text, at that page's offset |
| Spielbericht.NoAnchorOverLineFeed | main.py:22-25 | `Spiel Nr. ` and its first digit never cover a line feed |
| Spielbericht.AnchorInFullTextIsOnAPage | main.py:20-27 | a game number of the full text always lies within one page: it is an anchor of some page k, at that page's offset in the full text; it never spans the line feed between pages |
| Spielbericht.SpielIdFromPages | main.py:20-27 | the game number is `"N/A"` exactly when no page holds `Spiel Nr. ` followed by a digit |
| Spielbericht.EventOf | main.py:34-39 | each event's `uhrzeit` is DD:DD:DD and its `spielzeit` DD:DD, both taken from the match; `spielstand` is `None` exactly when the score group is empty, and otherwise the non-empty group of digits and colons; `aktion` is the stripped `(.*)` group, one line without surrounding whitespace |
| Spielbericht.EventsOf | main.py:33-39 | the list built by one append per match tuple has one event per tuple, each well formed |
| Spielbericht.EventsOfPointwise | main.py:33-39 | event i of the list is the event of match tuple i: the appends keep the tuples' order |
| Spielbericht.FindAllAreSplits | main.py:32-33 | every tuple `findall` returns comes from a valid division of the text |
| Spielbericht.Spielverlauf | main.py:24-39 | without `Spielverlauf\n` in the text the timeline is empty; every event is well formed |
| Spielbericht.SpielverlaufFollowsMatches | main.py:29-39 | the matches of the text from the first marker on are `findall`'s scan (increasing, non-overlapping, none missed), each a valid division, and the events are exactly their events, one each and in match order |
| Spielbericht.MarkerNotStraddled | main.py:29 | an occurrence of `Spielverlauf\n` cannot start in a text free of it and run into a following text that starts with it |
| Spielbericht.TimelineIgnoresPrefix | main.py:29-32 | putting marker-free text before a text that starts with the marker leaves the events unchanged |
| Spielbericht.ParseText | main.py:24-40 | the report's game number and events are related to the text as above |
| Spielbericht.ParseSpielbericht | main.py:17-40 | the report of a list of pages: the game number is `"N/A"` or non-empty digits, and every event is well formed |
| Scenarios.OneBlankIsNoMatch | main.py:32 | `12:00:00 10:00 Tor` is no match: with an empty score, a single blank cannot serve both `\s+` |
| Scenarios.TwoBlanksMatch | main.py:32 | in `12:00:00 10:00  Tor` the first `\s+` gives one blank back, so the score is empty and the description is `Tor` |
| Scenarios.TwoBlanksGiveNoScore | main.py:32-38 | that match becomes the event (`12:00:00`, `10:00`, `None`, `Tor`) |
| Scenarios.NextLineMatch | main.py:32 | in `12:00:00 10:00 2:1\nTor` the line feed is the whitespace before the description |
| Scenarios.DescriptionOnNextLine | main.py:32-38 | that match becomes the event (`12:00:00`, `10:00`, `2:1`, `Tor`), with the description taken from the next line |
| Scenarios.ScoreLineSwallowsNextLine | main.py:32 | a score line with no description, `12:00:00 10:00 2:1`, followed by any next line (non-empty, starting with a non-space) is one match whose description is that whole next line, so a following timeline line gives no entry of its own |

## Left out

- Reading the PDF (main.py:19, main.py:21-22): `PdfReader` and `page.extract_text()` are a foreign library. The page texts are the input of `ParseSpielbericht`.
- The Flask application, CORS, the `/upload` route, `request.files`, `jsonify`, `print` and the HTTP status codes (main.py:5-14, main.py:42-69): web I/O.
- The exception handling in `upload_spielbericht` (main.py:51-65): it reports any exception raised inside the `try`; the text half modelled here raises none.
- Chars.IsDigit: `\d` on a Python `str` pattern also accepts non-ASCII decimal digits (for example Arabic-Indic digits). The model accepts only '0'..'9', because a PDF report's times and numbers are ASCII.
- Spielbericht.Report: Python returns a mutable dictionary. The model builds the same two keys as an immutable value. That the report has exactly these two keys holds by the datatype and needs no lemma.
- Timeline.MatchAt: its contract gives only bounds. What the match is, and that it is the first one, are in `MatchAtIsSplit` and `MatchAtIsFirst`, because stating them on the function itself would unfold the whole engine at every use.
- Spielbericht.ParseSpielbericht: its contract gives only shapes. The game number is related to the pages by `SpielIdFromPages`, and the events to the text by `SpielverlaufFollowsMatches`.
- main.py extracts no roster, teams, league, half-time or final score, winner or date, so the model has none of these.
