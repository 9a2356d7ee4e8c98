/** The tooltip closure of the shot-chart scraper and its twin in the
    stand-alone script. A shot is a `div` with a `style` attribute such as
    "top:120px;left:250px;" and a `tip` attribute of four `<br>`-separated
    lines, for instance

      Oct 20, 2021, CHI at DET<br>1st Qtr, 11:20 remaining<br>Missed 2-pointer from 9 ft<br>CHI now trails 0-2

    Go indexes the pieces without bounds checks, so a tooltip of another
    shape panics and takes the whole call down with it. Every parse here is
    an `Option` that is None exactly where Go indexes out of range. */
module Tooltip {
  import opened Wrappers
  import opened GoInt
  import opened GoStrings
  import opened Strconv

  /** What one tooltip contributes to a shot record. */
  datatype Shot = Shot(
    top: int, left: int, date: string, team: string, opponent: string,
    quarter: string, timeRemaining: string, made: bool, shotType: string,
    distance: int, teamScore: int, opponentScore: int, lead: bool)

  datatype Game = Game(date: string, team: string, opponent: string)
  datatype Clock = Clock(quarter: string, timeRemaining: string)
  datatype Attempt = Attempt(made: bool, shotType: string, distance: int)

  /** The script's `parseInt`: `strconv.Atoi` of the trimmed text, 0 on failure. */
  function ParseInt(s: string): (r: int)
    ensures IsInt64(r)
  {
    MustAtoi(TrimSpace(s))
  }

  /** `parsePx`, with the coercion of the service (`mustAtoi`) or of the
      script (`parseInt`): `parts[1]`, the text between the first and a
      second ':', without a trailing "px"; None where `parts[1]` does not
      exist. */
  function ParsePx(s: string, toInt: string -> int): Option<int> {
    var parts := Split(s, ":");
    if |parts| < 2 then None else Some(toInt(TrimSuffix(parts[1], "px")))
  }

  /** Top is style part 0 and left is part 1. */
  function Position(style: string, toInt: string -> int): Option<(int, int)> {
    var parts := Split(style, ";");
    if |parts| < 2 then None
    else match (ParsePx(parts[0], toInt), ParsePx(parts[1], toInt))
      case (Some(top), Some(left)) => Some((top, left))
      case _ => None
  }

  /** Team and opponent of a game segment: " at " is tried before " vs ";
      with neither, both are empty. */
  function Matchup(game: string): (string, string) {
    var p := SplitN(game, " at ", 2);
    if |p| == 2 then (p[0], p[1])
    else
      var q := SplitN(game, " vs ", 2);
      if |q| == 2 then (q[0], q[1]) else ("", "")
  }

  /** The service's header: the date is the first two ", " segments glued by a
      bare comma; team and opponent come from the third segment, if any. */
  function ParseHeader(header: string): Option<Game> {
    var dateSegs := SplitN(header, ", ", 3);
    if |dateSegs| < 2 then None
    else
      var m := if |dateSegs| == 3 then Matchup(dateSegs[2]) else ("", "");
      Some(Game(dateSegs[0] + "," + dateSegs[1], m.0, m.1))
  }

  /** The script's header: the team is the whole third segment, and the
      opponent follows the first " at " (else " vs ") of the whole header. */
  function ParseHeaderScript(header: string): Option<Game> {
    var dateSegs := SplitN(header, ", ", 3);
    if |dateSegs| < 2 then None
    else
      var team := if |dateSegs| == 3 then dateSegs[2] else "";
      Some(Game(dateSegs[0] + "," + dateSegs[1], team, Matchup(header).1))
  }

  /** Quarter before the first comma, time remaining the first word after it. */
  function ParseClock(line: string): Option<Clock> {
    var qt := SplitN(line, ",", 2);
    if |qt| < 2 then None
    else
      var words := Fields(qt[1]);
      if |words| == 0 then None else Some(Clock(qt[0], words[0]))
  }

  /** Made iff the first word is exactly "Made"; the shot type is the second
      word and the distance the second-to-last. */
  function ParseAttempt(line: string, toInt: string -> int): Option<Attempt> {
    var rt := Fields(line);
    if |rt| < 2 then None
    else Some(Attempt(rt[0] == "Made", rt[1], toInt(rt[|rt| - 2])))
  }

  /** The two scores are the last word split on '-'. */
  function ParseScore(line: string, toInt: string -> int): Option<(int, int)> {
    var last := Fields(line);
    if |last| == 0 then None
    else
      var sc := Split(last[|last| - 1], "-");
      if |sc| < 2 then None else Some((toInt(sc[0]), toInt(sc[1])))
  }

  /** A shot from its parsed parts, or None if any part failed. */
  function Assemble(pos: Option<(int, int)>, game: Option<Game>, clock: Option<Clock>,
                    att: Option<Attempt>, score: Option<(int, int)>): Option<Shot>
  {
    match (pos, game, clock, att, score)
    case (Some(p), Some(g), Some(c), Some(a), Some(sc)) =>
      Some(Shot(p.0, p.1, g.date, g.team, g.opponent, c.quarter, c.timeRemaining,
                a.made, a.shotType, a.distance, sc.0, sc.1, sc.0 > sc.1))
    case _ => None
  }

  lemma AssembleParts(pos: (int, int), g: Game, c: Clock, a: Attempt, sc: (int, int))
    ensures Assemble(Some(pos), Some(g), Some(c), Some(a), Some(sc))
         == Some(Shot(pos.0, pos.1, g.date, g.team, g.opponent, c.quarter, c.timeRemaining,
                      a.made, a.shotType, a.distance, sc.0, sc.1, sc.0 > sc.1))
  {
  }

  /** The service's tooltip closure; None where it panics. */
  function ParseTooltip(style: string, tip: string): Option<Shot> {
    var tipParts := Split(tip, "<br>");
    if |tipParts| < 4 then None
    else Assemble(Position(style, MustAtoi), ParseHeader(tipParts[0]), ParseClock(tipParts[1]),
                  ParseAttempt(tipParts[2], MustAtoi), ParseScore(tipParts[3], MustAtoi))
  }

  /** The script's per-tooltip parse; None where it panics. */
  function ParseTooltipScript(style: string, tip: string): Option<Shot> {
    var tipParts := Split(tip, "<br>");
    if |tipParts| < 4 then None
    else Assemble(Position(style, ParseInt), ParseHeaderScript(tipParts[0]), ParseClock(tipParts[1]),
                  ParseAttempt(tipParts[2], ParseInt), ParseScore(tipParts[3], ParseInt))
  }

  /** The service's parse of each tooltip of a chart, in document order. */
  function ParseTooltips(tips: seq<(string, string)>): seq<Option<Shot>> {
    seq(|tips|, i requires 0 <= i < |tips| => ParseTooltip(tips[i].0, tips[i].1))
  }

  /** The script's parse of each tooltip of a chart, in document order. */
  function ParseTooltipsScript(tips: seq<(string, string)>): seq<Option<Shot>> {
    seq(|tips|, i requires 0 <= i < |tips| => ParseTooltipScript(tips[i].0, tips[i].1))
  }

  /** The in-memory dedup key, `"%s|%d|%s|%s|%s|%d|%d"` of player, season,
      date, quarter, time remaining, top and left. */
  function DedupKey(playerId: string, season: int, date: string, quarter: string,
                    timeRemaining: string, top: int, left: int): string
  {
    Join([playerId, Itoa(season), date, quarter, timeRemaining, Itoa(top), Itoa(left)], "|")
  }

  // ---------------------------------------------------------------------
  // Tooltips as the site writes them, and the parse of such a tooltip.

  /** The parts of a well-formed tooltip. */
  datatype TipText = TipText(
    month: string, day: nat, year: nat, team: string, away: bool, opponent: string,
    quarter: string, clock: string, made: bool, shotType: string, distance: nat,
    narrative: seq<string>, teamScore: nat, opponentScore: nat)

  function Connective(away: bool): string {
    if away then " at " else " vs "
  }

  /** Everything in the header before the connective. */
  function HeaderPrefix(t: TipText): string {
    t.month + " " + Itoa(t.day) + ", " + Itoa(t.year) + ", " + t.team
  }

  function HeaderText(t: TipText): string {
    HeaderPrefix(t) + Connective(t.away) + t.opponent
  }

  function ClockText(t: TipText): string {
    t.quarter + ", " + t.clock + " remaining"
  }

  function AttemptWords(t: TipText): seq<string> {
    [if t.made then "Made" else "Missed", t.shotType, "from", Itoa(t.distance), "ft"]
  }

  function ScoreToken(t: TipText): string {
    Itoa(t.teamScore) + "-" + Itoa(t.opponentScore)
  }

  function AttemptText(t: TipText): string {
    Join(AttemptWords(t), " ")
  }

  function ScoreText(t: TipText): string {
    Join(t.narrative + [ScoreToken(t)], " ")
  }

  function TipOf(t: TipText): string {
    HeaderText(t) + "<br>" + (ClockText(t) + "<br>" + (AttemptText(t) + "<br>" + ScoreText(t)))
  }

  /** "top:120px" */
  function PxText(name: string, n: nat): string {
    name + ":" + Itoa(n) + "px"
  }

  function StyleOf(top: nat, left: nat): string {
    PxText("top", top) + ";" + PxText("left", left) + ";"
  }

  predicate Upper(s: string) {
    |s| > 0 && forall i | 0 <= i < |s| :: 'A' <= s[i] <= 'Z'
  }

  predicate Letters(s: string) {
    |s| > 0 && forall i | 0 <= i < |s| :: 'A' <= s[i] <= 'Z' || 'a' <= s[i] <= 'z'
  }

  /** A blank-free, non-empty word without '<'. */
  predicate Word(s: string) {
    |s| > 0 && NoSpace(s) && '<' !in s
  }

  predicate WellFormed(t: TipText) {
    && Letters(t.month) && Upper(t.team) && Upper(t.opponent)
    && ',' !in t.quarter && '<' !in t.quarter
    && Word(t.clock) && Word(t.shotType)
    && (forall k | 0 <= k < |t.narrative| :: Word(t.narrative[k]))
    && IsInt64(t.distance) && IsInt64(t.teamScore) && IsInt64(t.opponentScore)
  }

  /** The date a tooltip's header yields: "Oct 20,2021". */
  function DateOf(t: TipText): string {
    t.month + " " + Itoa(t.day) + "," + Itoa(t.year)
  }

  // ---------------------------------------------------------------------
  // Character facts.

  lemma DigitsArePlain(n: nat)
    ensures var d := Itoa(n);
      && |d| > 0 && NoSpace(d) && AllDigits(d)
      && ' ' !in d && ',' !in d && '<' !in d && '-' !in d && ';' !in d && ':' !in d && 'p' !in d
  {
    var d := Itoa(n);
    assert d == NatToDecimal(n);
    forall i | 0 <= i < |d|
      ensures !IsSpace(d[i])
    {
      assert IsDigit(d[i]);
    }
  }

  lemma UpperIsPlain(s: string)
    requires Upper(s)
    ensures NoSpace(s) && ' ' !in s && ',' !in s && '<' !in s
    ensures BlankNotBefore(s, 'a') && BlankNotBefore(s, 'v')
  {
    forall i | 0 <= i < |s|
      ensures !IsSpace(s[i])
    {
    }
  }

  lemma LettersArePlain(s: string)
    ensures Letters(s) ==> ' ' !in s && ',' !in s && '<' !in s
    ensures Letters(s) ==> BlankNotBefore(s, 'a') && BlankNotBefore(s, 'v')
  {
  }

  lemma DigitsBlankFree(n: nat, c: char)
    ensures BlankNotBefore(Itoa(n), c)
  {
    DigitsArePlain(n);
  }

  lemma ParseIntOfItoa(n: int)
    requires IsInt64(n)
    ensures ParseInt(Itoa(n)) == n
  {
    MustAtoiOfItoa(n);
    assert NoSpace(Itoa(n)) by {
      if n < 0 {
        DigitsArePlain(-n);
        assert Itoa(n) == "-" + Itoa(-n);
      } else {
        DigitsArePlain(n);
      }
    }
    TrimSpaceOfWord(Itoa(n));
  }

  // ---------------------------------------------------------------------
  // Parsing a well-formed tooltip, piece by piece.

  /** "name:<digits>px" yields the digits' value under either coercion. */
  lemma PxOfDigits(name: string, n: nat, toInt: string -> int)
    requires ':' !in name
    ensures ParsePx(PxText(name, n), toInt) == Some(toInt(Itoa(n)))
  {
    var d := Itoa(n);
    DigitsArePlain(n);
    assert name + ":" + d + "px" == name + ":" + (d + "px");
    SplitAfterPiece(name, ":", d + "px");
    SplitOfPiece(d + "px", ":");
    TrimSuffixOfSuffixed(d, "px");
  }

  lemma StyleParts(top: nat, left: nat)
    ensures Split(StyleOf(top, left), ";") == [PxText("top", top), PxText("left", left), ""]
  {
    var p0, p1 := PxText("top", top), PxText("left", left);
    StylePartIsPiece("top", top);
    StylePartIsPiece("left", left);
    assert StyleOf(top, left) == p0 + ";" + (p1 + ";" + "");
    SplitAfterPiece(p0, ";", p1 + ";" + "");
    SplitAfterPiece(p1, ";", "");
    SplitOfPiece("", ";");
  }

  lemma StylePartIsPiece(name: string, n: nat)
    requires ';' !in name
    ensures ';' !in PxText(name, n)
  {
    DigitsArePlain(n);
  }

  /** The style yields the digit texts of top and left, under either coercion. */
  lemma PositionOfStyle(top: nat, left: nat, toInt: string -> int)
    ensures Position(StyleOf(top, left), toInt) == Some((toInt(Itoa(top)), toInt(Itoa(left))))
  {
    var parts := Split(StyleOf(top, left), ";");
    StyleParts(top, left);
    PxOfDigits("top", top, toInt);
    PxOfDigits("left", left, toInt);
  }

  lemma HeaderPrefixBlanks(t: TipText, c: char)
    requires WellFormed(t) && (c == 'a' || c == 'v')
    ensures BlankNotBefore(HeaderPrefix(t), c)
  {
    var dd, yy := Itoa(t.day), Itoa(t.year);
    DigitsArePlain(t.day);
    DigitsArePlain(t.year);
    assert IsDigit(dd[0]) && IsDigit(yy[0]);
    LettersArePlain(t.month);
    UpperIsPlain(t.team);
    DigitsBlankFree(t.day, c);
    DigitsBlankFree(t.year, c);
    BlankNotBeforeConcat(t.month, " ", c);
    BlankNotBeforeConcat(t.month + " ", dd, c);
    BlankNotBeforeConcat(t.month + " " + dd, ", ", c);
    BlankNotBeforeConcat(t.month + " " + dd + ", ", yy, c);
    BlankNotBeforeConcat(t.month + " " + dd + ", " + yy, ", ", c);
    BlankNotBeforeConcat(t.month + " " + dd + ", " + yy + ", ", t.team, c);
  }

  /** The letter after each blank of the connective differs from `c`. */
  predicate ConnectiveAvoids(away: bool, c: char) {
    Connective(away)[1] != c
  }

  lemma HeaderBlanks(t: TipText, c: char)
    requires WellFormed(t) && (c == 'a' || c == 'v') && ConnectiveAvoids(t.away, c)
    ensures BlankNotBefore(HeaderText(t), c)
  {
    HeaderPrefixBlanks(t, c);
    UpperIsPlain(t.opponent);
    BlankNotBeforeConcat(HeaderPrefix(t), Connective(t.away), c);
    BlankNotBeforeConcat(HeaderPrefix(t) + Connective(t.away), t.opponent, c);
  }

  lemma GameBlanks(t: TipText, c: char)
    requires WellFormed(t) && (c == 'a' || c == 'v') && ConnectiveAvoids(t.away, c)
    ensures BlankNotBefore(t.team + Connective(t.away) + t.opponent, c)
  {
    UpperIsPlain(t.team);
    UpperIsPlain(t.opponent);
    BlankNotBeforeConcat(t.team, Connective(t.away), c);
    BlankNotBeforeConcat(t.team + Connective(t.away), t.opponent, c);
  }

  lemma HeaderSegments(t: TipText)
    requires WellFormed(t)
    ensures SplitN(HeaderText(t), ", ", 3)
         == [t.month + " " + Itoa(t.day), Itoa(t.year), t.team + Connective(t.away) + t.opponent]
  {
    var md, yy := t.month + " " + Itoa(t.day), Itoa(t.year);
    var game := t.team + Connective(t.away) + t.opponent;
    HeaderIsThreeSegments(t);
    DateHasNoComma(t);
    ThreeSegments(md, yy, game);
  }

  lemma HeaderIsThreeSegments(t: TipText)
    ensures HeaderText(t)
         == (t.month + " " + Itoa(t.day)) + ", " + (Itoa(t.year) + ", " + (t.team + Connective(t.away) + t.opponent))
  {
  }

  lemma DateHasNoComma(t: TipText)
    requires WellFormed(t)
    ensures ',' !in t.month + " " + Itoa(t.day) && ',' !in Itoa(t.year)
  {
    DigitsArePlain(t.day);
    DigitsArePlain(t.year);
    LettersArePlain(t.month);
  }

  /** "a, b, c" splits into its three segments when a and b hold no comma. */
  lemma ThreeSegments(a: string, b: string, c: string)
    requires ',' !in a && ',' !in b
    ensures SplitN(a + ", " + (b + ", " + c), ", ", 3) == [a, b, c]
  {
    SplitNAfterPiece(a, ", ", b + ", " + c, 3);
    SplitNAfterPiece(b, ", ", c, 2);
  }

  lemma MatchupOfGame(t: TipText)
    requires WellFormed(t)
    ensures Matchup(t.team + Connective(t.away) + t.opponent) == (t.team, t.opponent)
  {
    UpperIsPlain(t.team);
    if t.away {
      SplitNAfterPiece(t.team, " at ", t.opponent, 2);
    } else {
      GameBlanks(t, 'a');
      IndexOfBlankLed(t.team + " vs " + t.opponent, " at ");
      SplitNAfterPiece(t.team, " vs ", t.opponent, 2);
    }
  }

  /** The service reads date, team and opponent back from a header. */
  lemma HeaderRoundTrip(t: TipText)
    requires WellFormed(t)
    ensures ParseHeader(HeaderText(t)) == Some(Game(DateOf(t), t.team, t.opponent))
  {
    HeaderSegments(t);
    MatchupOfGame(t);
  }

  /** The script reads the same date and opponent, but takes the whole game
      segment ("CHI at DET") as the team. */
  lemma HeaderRoundTripScript(t: TipText)
    requires WellFormed(t)
    ensures ParseHeaderScript(HeaderText(t))
         == Some(Game(DateOf(t), t.team + Connective(t.away) + t.opponent, t.opponent))
  {
    HeaderSegments(t);
    if t.away {
      HeaderPrefixBlanks(t, 'a');
      SplitNAfterBlankLed(HeaderPrefix(t), " at ", t.opponent);
    } else {
      HeaderBlanks(t, 'a');
      IndexOfBlankLed(HeaderText(t), " at ");
      HeaderPrefixBlanks(t, 'v');
      SplitNAfterBlankLed(HeaderPrefix(t), " vs ", t.opponent);
    }
  }

  lemma ClockRoundTrip(t: TipText)
    requires WellFormed(t)
    ensures ParseClock(ClockText(t)) == Some(Clock(t.quarter, t.clock))
  {
    var rest := " " + (t.clock + " remaining");
    assert ClockText(t) == t.quarter + "," + rest;
    SplitNAfterPiece(t.quarter, ",", rest, 2);
    FieldsAfterBlank(t.clock + " remaining");
    FieldsAfterWord(t.clock, " remaining");
  }

  lemma AttemptRoundTrip(t: TipText, toInt: string -> int)
    requires WellFormed(t)
    ensures ParseAttempt(AttemptText(t), toInt)
         == Some(Attempt(t.made, t.shotType, toInt(Itoa(t.distance))))
  {
    DigitsArePlain(t.distance);
    var w := AttemptWords(t);
    assert NoSpace(w[0]) && NoSpace(w[2]) && NoSpace(w[4]);
    FieldsOfJoin(w);
  }

  lemma ScoreTokenIsWord(t: TipText)
    ensures |ScoreToken(t)| > 0 && NoSpace(ScoreToken(t)) && '<' !in ScoreToken(t)
  {
    var a, b := Itoa(t.teamScore), Itoa(t.opponentScore);
    DigitsArePlain(t.teamScore);
    DigitsArePlain(t.opponentScore);
    var s := ScoreToken(t);
    forall i | 0 <= i < |s|
      ensures !IsSpace(s[i])
    {
      if i < |a| {
        assert s[i] == a[i];
      } else if i > |a| {
        assert s[i] == b[i - |a| - 1];
      }
    }
  }

  lemma ScoreRoundTrip(t: TipText, toInt: string -> int)
    requires WellFormed(t)
    ensures ParseScore(ScoreText(t), toInt)
         == Some((toInt(Itoa(t.teamScore)), toInt(Itoa(t.opponentScore))))
  {
    DigitsArePlain(t.teamScore);
    DigitsArePlain(t.opponentScore);
    ScoreTokenIsWord(t);
    var words := t.narrative + [ScoreToken(t)];
    FieldsOfJoin(words);
    SplitAfterPiece(Itoa(t.teamScore), "-", Itoa(t.opponentScore));
    SplitOfPiece(Itoa(t.opponentScore), "-");
  }

  lemma HeaderHasNoTag(t: TipText)
    requires WellFormed(t)
    ensures '<' !in HeaderText(t)
  {
    DigitsArePlain(t.day);
    DigitsArePlain(t.year);
    LettersArePlain(t.month);
    UpperIsPlain(t.team);
    UpperIsPlain(t.opponent);
  }

  lemma AttemptHasNoTag(t: TipText)
    requires WellFormed(t)
    ensures '<' !in AttemptText(t)
  {
    DigitsArePlain(t.distance);
    JoinAvoids(AttemptWords(t), " ", '<');
  }

  lemma ScoreHasNoTag(t: TipText)
    requires WellFormed(t)
    ensures '<' !in ScoreText(t)
  {
    ScoreTokenIsWord(t);
    JoinAvoids(t.narrative + [ScoreToken(t)], " ", '<');
  }

  lemma TipLines(t: TipText)
    requires WellFormed(t)
    ensures Split(TipOf(t), "<br>") == [HeaderText(t), ClockText(t), AttemptText(t), ScoreText(t)]
  {
    var h, c, a, s := HeaderText(t), ClockText(t), AttemptText(t), ScoreText(t);
    HeaderHasNoTag(t);
    AttemptHasNoTag(t);
    ScoreHasNoTag(t);
    SplitOfFour(h, c, a, s, "<br>");
  }

  /** Top and left read back under either coercion. */
  lemma StyleReadsBack(top: nat, left: nat)
    requires IsInt64(top) && IsInt64(left)
    ensures Position(StyleOf(top, left), MustAtoi) == Some((top, left))
    ensures Position(StyleOf(top, left), ParseInt) == Some((top, left))
  {
    PositionOfStyle(top, left, MustAtoi);
    PositionOfStyle(top, left, ParseInt);
    MustAtoiOfItoa(top);
    MustAtoiOfItoa(left);
    ParseIntOfItoa(top);
    ParseIntOfItoa(left);
  }

  /** The shot's distance reads back under either coercion. */
  lemma AttemptReadsBack(t: TipText)
    requires WellFormed(t)
    ensures ParseAttempt(AttemptText(t), MustAtoi) == Some(Attempt(t.made, t.shotType, t.distance))
    ensures ParseAttempt(AttemptText(t), ParseInt) == Some(Attempt(t.made, t.shotType, t.distance))
  {
    AttemptRoundTrip(t, MustAtoi);
    AttemptRoundTrip(t, ParseInt);
    MustAtoiOfItoa(t.distance);
    ParseIntOfItoa(t.distance);
  }

  /** Both scores read back under either coercion. */
  lemma ScoreReadsBack(t: TipText)
    requires WellFormed(t)
    ensures ParseScore(ScoreText(t), MustAtoi) == Some((t.teamScore, t.opponentScore))
    ensures ParseScore(ScoreText(t), ParseInt) == Some((t.teamScore, t.opponentScore))
  {
    ScoreRoundTrip(t, MustAtoi);
    ScoreRoundTrip(t, ParseInt);
    MustAtoiOfItoa(t.teamScore);
    MustAtoiOfItoa(t.opponentScore);
    ParseIntOfItoa(t.teamScore);
    ParseIntOfItoa(t.opponentScore);
  }

  /** The service's parse of a well-formed tooltip gives back every part of
      it: the date without the blank after its comma, and a lead exactly when
      the team's score is strictly higher (a tie is not a lead). */
  lemma TooltipRoundTrip(top: nat, left: nat, t: TipText)
    requires WellFormed(t) && IsInt64(top) && IsInt64(left)
    ensures ParseTooltip(StyleOf(top, left), TipOf(t)) == Some(Shot(
      top, left, DateOf(t), t.team, t.opponent, t.quarter, t.clock, t.made,
      t.shotType, t.distance, t.teamScore, t.opponentScore, t.teamScore > t.opponentScore))
  {
    TipLines(t);
    StyleReadsBack(top, left);
    HeaderRoundTrip(t);
    ClockRoundTrip(t);
    AttemptReadsBack(t);
    ScoreReadsBack(t);
    AssembleParts((top, left), Game(DateOf(t), t.team, t.opponent),
      Clock(t.quarter, t.clock), Attempt(t.made, t.shotType, t.distance), (t.teamScore, t.opponentScore));
  }

  /** The script's parse of the same tooltip differs only in the team. */
  lemma TooltipRoundTripScript(top: nat, left: nat, t: TipText)
    requires WellFormed(t) && IsInt64(top) && IsInt64(left)
    ensures ParseTooltipScript(StyleOf(top, left), TipOf(t)) == Some(Shot(
      top, left, DateOf(t), t.team + Connective(t.away) + t.opponent, t.opponent,
      t.quarter, t.clock, t.made, t.shotType, t.distance, t.teamScore,
      t.opponentScore, t.teamScore > t.opponentScore))
  {
    TipLines(t);
    StyleReadsBack(top, left);
    HeaderRoundTripScript(t);
    ClockRoundTrip(t);
    AttemptReadsBack(t);
    ScoreReadsBack(t);
    AssembleParts((top, left), Game(DateOf(t), t.team + Connective(t.away) + t.opponent, t.opponent),
      Clock(t.quarter, t.clock), Attempt(t.made, t.shotType, t.distance), (t.teamScore, t.opponentScore));
  }

  lemma SmallNumbers()
    ensures Itoa(20) == "20" && Itoa(120) == "120" && Itoa(2021) == "2021"
  {
  }

  /** The tooltip whose header is "Oct 20, 2021, CHI at DET". */
  function ExampleTip(): TipText {
    TipText("Oct", 20, 2021, "CHI", true, "DET", "", "0", false, "x", 0, [], 0, 0)
  }

  lemma ExampleTipWellFormed()
    ensures WellFormed(ExampleTip())
  {
    var t := ExampleTip();
    assert Letters(t.month) && Upper(t.team) && Upper(t.opponent);
    assert Word(t.clock) && Word(t.shotType);
  }

  lemma ExampleHeaderText()
    ensures HeaderText(ExampleTip()) == "Oct 20, 2021, CHI at DET"
    ensures DateOf(ExampleTip()) == "Oct 20,2021"
  {
    SmallNumbers();
    HeaderLiterals(Itoa(20), Itoa(2021));
  }

  /** The service reads "Oct 20, 2021, CHI at DET" as date "Oct 20,2021",
      team CHI and opponent DET. */
  lemma HeaderExample()
    ensures ParseHeader("Oct 20, 2021, CHI at DET") == Some(Game("Oct 20,2021", "CHI", "DET"))
  {
    ExampleTipWellFormed();
    ExampleHeaderText();
    HeaderReadsAs("Oct 20, 2021, CHI at DET", ExampleTip());
  }

  /** The script reads the same header with team "CHI at DET". */
  lemma HeaderExampleScript()
    ensures ParseHeaderScript("Oct 20, 2021, CHI at DET") == Some(Game("Oct 20,2021", "CHI at DET", "DET"))
  {
    ExampleTipWellFormed();
    ExampleHeaderText();
    ExampleGame();
    HeaderReadsAsScript("Oct 20, 2021, CHI at DET", ExampleTip(), "Oct 20,2021", "CHI at DET");
  }

  lemma ExampleGame()
    ensures ExampleTip().team + Connective(ExampleTip().away) + ExampleTip().opponent == "CHI at DET"
  {
    HeaderLiterals("20", "2021");
  }

  lemma HeaderReadsAs(h: string, t: TipText)
    requires WellFormed(t) && h == HeaderText(t)
    ensures ParseHeader(h) == Some(Game(DateOf(t), t.team, t.opponent))
  {
    HeaderRoundTrip(t);
  }

  lemma HeaderReadsAsScript(h: string, t: TipText, date: string, game: string)
    requires WellFormed(t) && h == HeaderText(t)
    requires date == DateOf(t) && game == t.team + Connective(t.away) + t.opponent
    ensures ParseHeaderScript(h) == Some(Game(date, game, t.opponent))
  {
    HeaderRoundTripScript(t);
  }

  lemma HeaderLiterals(d: string, y: string)
    requires d == "20" && y == "2021"
    ensures "Oct" + " " + d + ", " + y + ", " + "CHI" + " at " + "DET" == "Oct 20, 2021, CHI at DET"
    ensures "Oct" + " " + d + "," + y == "Oct 20,2021"
    ensures "CHI" + " at " + "DET" == "CHI at DET"
  {
  }

  /** With a blank after the colon, `mustAtoi` reads 0 while the script's
      `parseInt` trims the blank and reads the number. */
  lemma PxOfPaddedDigits(name: string, n: nat)
    requires ':' !in name && IsInt64(n)
    ensures ParsePx(name + ": " + Itoa(n) + "px", MustAtoi) == Some(0)
    ensures ParsePx(name + ": " + Itoa(n) + "px", ParseInt) == Some(n)
  {
    var d := Itoa(n);
    DigitsArePlain(n);
    assert name + ": " + d + "px" == name + ":" + (" " + d + "px");
    SplitAfterPiece(name, ":", " " + d + "px");
    SplitOfPiece(" " + d + "px", ":");
    TrimSuffixOfSuffixed(" " + d, "px");
    MustAtoiOfLeadingNonDigit(" " + d);
    TrimSpaceAfterBlank(d);
    ParseIntOfItoa(n);
  }

  lemma PxLiterals()
    ensures "top" + ":" + "120" + "px" == "top:120px"
    ensures "top" + ": " + "120" + "px" == "top: 120px"
  {
  }

  /** `parsePx("top:120px")` is 120; "top: 120px" is 0 for the service and
      120 for the script. */
  lemma PxExample()
    ensures ParsePx("top:120px", MustAtoi) == Some(120)
    ensures ParsePx("top: 120px", MustAtoi) == Some(0)
    ensures ParsePx("top: 120px", ParseInt) == Some(120)
  {
    SmallNumbers();
    PxLiterals();
    PxOfDigits("top", 120, MustAtoi);
    MustAtoiOfItoa(120);
    PxOfPaddedDigits("top", 120);
  }

  // ---------------------------------------------------------------------
  // The two parsers on arbitrary text.

  lemma AttemptCoercionsAgree(line: string)
    ensures ParseAttempt(line, ParseInt) == ParseAttempt(line, MustAtoi)
  {
    var rt := Fields(line);
    if |rt| >= 2 {
      ParseIntOfWord(rt[|rt| - 2]);
    }
  }

  /** Text without white space reads the same under both coercions. */
  lemma ParseIntOfWord(w: string)
    requires NoSpace(w)
    ensures ParseInt(w) == MustAtoi(w)
  {
    TrimSpaceOfWord(w);
  }

  lemma ScoreCoercionsAgree(line: string)
    ensures ParseScore(line, ParseInt) == ParseScore(line, MustAtoi)
  {
    var last := Fields(line);
    if |last| > 0 {
      var sc := Split(last[|last| - 1], "-");
      if |sc| >= 2 {
        JoinedPartsHaveNoSpace(sc, "-", 0);
        JoinedPartsHaveNoSpace(sc, "-", 1);
        ParseIntOfWord(sc[0]);
        ParseIntOfWord(sc[1]);
      }
    }
  }

  /** The script panics on exactly the tooltips the service panics on, and
      where both parse, they agree on everything but the position (the
      script trims blanks around the pixel count) and the team and opponent
      (it reads those differently from the header). */
  lemma ScriptAgreesWithService(style: string, tip: string)
    ensures ParseTooltipScript(style, tip).Some? <==> ParseTooltip(style, tip).Some?
    ensures ParseTooltip(style, tip).Some? ==>
      var a, b := ParseTooltip(style, tip).value, ParseTooltipScript(style, tip).value;
      b == a.(top := b.top, left := b.left, team := b.team, opponent := b.opponent)
  {
    var tipParts := Split(tip, "<br>");
    if |tipParts| >= 4 {
      AttemptCoercionsAgree(tipParts[2]);
      ScoreCoercionsAgree(tipParts[3]);
      PositionsAgree(style);
      HeadersAgree(tipParts[0]);
      AssembleAgrees(Position(style, MustAtoi), ParseHeader(tipParts[0]), ParseClock(tipParts[1]),
        ParseAttempt(tipParts[2], MustAtoi), ParseScore(tipParts[3], MustAtoi),
        Position(style, ParseInt), ParseHeaderScript(tipParts[0]));
    }
  }

  lemma PositionsAgree(style: string)
    ensures Position(style, ParseInt).Some? <==> Position(style, MustAtoi).Some?
  {
  }

  lemma HeadersAgree(header: string)
    ensures ParseHeaderScript(header).Some? <==> ParseHeader(header).Some?
    ensures ParseHeader(header).Some? ==> ParseHeaderScript(header).value.date == ParseHeader(header).value.date
  {
  }

  /** Assembling with another position and game changes only those fields. */
  lemma AssembleAgrees(pos: Option<(int, int)>, game: Option<Game>, clock: Option<Clock>,
                       att: Option<Attempt>, score: Option<(int, int)>,
                       pos': Option<(int, int)>, game': Option<Game>)
    requires pos.Some? == pos'.Some? && game.Some? == game'.Some?
    requires game.Some? ==> game.value.date == game'.value.date
    ensures Assemble(pos', game', clock, att, score).Some? == Assemble(pos, game, clock, att, score).Some?
    ensures Assemble(pos, game, clock, att, score).Some? ==>
      var a, b := Assemble(pos, game, clock, att, score).value, Assemble(pos', game', clock, att, score).value;
      b == a.(top := b.top, left := b.left, team := b.team, opponent := b.opponent)
  {
  }

  // ---------------------------------------------------------------------
  // The dedup key.

  /** Text that cannot be mistaken for the key's separator. */
  predicate NoBar(s: string) {
    '|' !in s
  }

  lemma ItoaHasNoBar(n: int)
    ensures NoBar(Itoa(n))
  {
    if n < 0 {
      DigitsArePlain(-n);
      assert Itoa(n) == "-" + Itoa(-n);
    } else {
      DigitsArePlain(n);
    }
    assert forall i | 0 <= i < |Itoa(n)| :: Itoa(n)[i] != '|' by {
      if n >= 0 {
        assert AllDigits(Itoa(n));
      } else {
        assert AllDigits(Itoa(-n));
      }
    }
  }

  /** A key splits back into its seven fields when the text fields hold no '|'. */
  lemma DedupKeyFields(playerId: string, season: int, date: string, quarter: string,
                       timeRemaining: string, top: int, left: int)
    requires NoBar(playerId) && NoBar(date) && NoBar(quarter) && NoBar(timeRemaining)
    ensures Split(DedupKey(playerId, season, date, quarter, timeRemaining, top, left), "|")
         == [playerId, Itoa(season), date, quarter, timeRemaining, Itoa(top), Itoa(left)]
  {
    ItoaHasNoBar(season);
    ItoaHasNoBar(top);
    ItoaHasNoBar(left);
    SplitOfJoin([playerId, Itoa(season), date, quarter, timeRemaining, Itoa(top), Itoa(left)], "|");
  }

  /** Two shots with the same key agree on all seven identity fields, as long
      as the text fields hold no '|'. */
  lemma DedupKeyInjective(
    p1: string, s1: int, d1: string, q1: string, r1: string, t1: int, l1: int,
    p2: string, s2: int, d2: string, q2: string, r2: string, t2: int, l2: int)
    requires NoBar(p1) && NoBar(d1) && NoBar(q1) && NoBar(r1)
    requires NoBar(p2) && NoBar(d2) && NoBar(q2) && NoBar(r2)
    requires IsInt64(s1) && IsInt64(t1) && IsInt64(l1) && IsInt64(s2) && IsInt64(t2) && IsInt64(l2)
    requires DedupKey(p1, s1, d1, q1, r1, t1, l1) == DedupKey(p2, s2, d2, q2, r2, t2, l2)
    ensures p1 == p2 && s1 == s2 && d1 == d2 && q1 == q2 && r1 == r2 && t1 == t2 && l1 == l2
  {
    DedupKeyFields(p1, s1, d1, q1, r1, t1, l1);
    DedupKeyFields(p2, s2, d2, q2, r2, t2, l2);
    ItoaInjective(s1, s2);
    ItoaInjective(t1, t2);
    ItoaInjective(l1, l2);
  }
}
