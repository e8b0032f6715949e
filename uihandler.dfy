/**
 * The menu logic of headers/uihandler.hpp: the top-ten high-score merge
 * done by saveScore, the score screen rebuilt from the score file, the
 * name entry of the game-over screen, and the menu chosen for each UI
 * state.
 *
 * The score file is a field holding its lines. std::stoi and
 * std::to_string are parameters. The file-level globals of the header
 * (currentGameState, scoreUpdate, num_of_scores, max_score, min_score,
 * newScore, userName) are fields of the MenuHandler class, next to the
 * screen members the modelled methods touch.
 */
module Menus {
  import opened Common
  import opened Widgets

  type Stoi = string -> int
  type ToString = int -> string

  /** The score file holds at most this many lines (headers/uihandler.hpp:49,61,70). */
  const MaxScores: nat := 10

  /**
   * Why a score-file line stops the game: with no space, `find(" ")`
   * returns npos, and `line.substr(end, ...)` throws std::out_of_range.
   */
  datatype ScoreError = MissingName(line: string)

  function Min(a: int, b: int): int
  {
    if a < b then a else b
  }

  /** A line's score: stoi of the text before its first space (headers/uihandler.hpp:50-54). */
  function ScoreOf(line: string, stoi: Stoi): int
  {
    stoi(Head(line))
  }

  /** Scores never increase down the list. */
  predicate Sorted(lines: seq<string>, stoi: Stoi)
  {
    forall i, j :: 0 <= i < j < |lines| ==> ScoreOf(lines[i], stoi) >= ScoreOf(lines[j], stoi)
  }

  /**
   * Where the new score goes: before the first line scoring strictly less.
   * A tie keeps the older line first.
   */
  function FirstBelow(lines: seq<string>, newScore: int, stoi: Stoi): (p: nat)
    ensures p <= |lines|
  {
    if |lines| == 0 then 0
    else if ScoreOf(lines[0], stoi) < newScore then 0
    else FirstBelow(lines[1..], newScore, stoi) + 1
  }

  /** Every line above the insertion point scores at least the new score, and the one at it less. */
  lemma {:induction false} FirstBelowSpec(lines: seq<string>, newScore: int, stoi: Stoi)
    ensures var p := FirstBelow(lines, newScore, stoi);
      && (forall k :: 0 <= k < p ==> newScore <= ScoreOf(lines[k], stoi))
      && (p < |lines| ==> ScoreOf(lines[p], stoi) < newScore)
  {
    if |lines| > 0 && ScoreOf(lines[0], stoi) >= newScore {
      FirstBelowSpec(lines[1..], newScore, stoi);
      var p := FirstBelow(lines, newScore, stoi);
      assert forall k :: 1 <= k < p ==> lines[k] == lines[1..][k - 1];
    }
  }

  /** Reading down from the top, the first line that scores less is the insertion point. */
  lemma FirstBelowAt(lines: seq<string>, newScore: int, stoi: Stoi, i: nat)
    requires i <= FirstBelow(lines, newScore, stoi) && i < |lines|
    ensures i == FirstBelow(lines, newScore, stoi) <==> ScoreOf(lines[i], stoi) < newScore
  {
    FirstBelowSpec(lines, newScore, stoi);
  }

  /** The first of the first n lines that has no space, if any. */
  function FirstNoSpace(lines: seq<string>, n: nat): (r: Option<nat>)
    requires n <= |lines|
    ensures r.Some? ==> r.value < n
  {
    if n == 0 then None
    else
      match FirstNoSpace(lines, n - 1)
      case Some(k) => Some(k)
      case None => if ' ' !in lines[n - 1] then Some(n - 1) else None
  }

  /** The line found has no space and every line before it has one; finding none means all have one. */
  lemma {:induction false} FirstNoSpaceSpec(lines: seq<string>, n: nat)
    requires n <= |lines|
    ensures var r := FirstNoSpace(lines, n);
      && (r.Some? ==> ' ' !in lines[r.value] && forall k :: 0 <= k < r.value ==> ' ' in lines[k])
      && (r.None? ==> forall k :: 0 <= k < n ==> ' ' in lines[k])
  {
    if n > 0 {
      FirstNoSpaceSpec(lines, n - 1);
    }
  }

  /**
   * How many lines saveScore's loop reads: it stops once the list is
   * full, and a new score placed at index 9 ends it with a break after
   * line 9 was read but not kept.
   */
  function ReadCount(n: nat, p: nat): nat
  {
    if p <= 8 then Min(n, 9) else Min(n, 10)
  }

  /** The kept list: the new line inserted at p, cut to the first ten. */
  function Merged(lines: seq<string>, newLine: string, p: nat): (r: seq<string>)
    requires p <= |lines|
    ensures |r| == Min(|lines| + 1, MaxScores)
  {
    (lines[..p] + [newLine] + lines[p..])[..Min(|lines| + 1, MaxScores)]
  }

  /**
   * The reference definition of saveScore's merge: the read lines must all
   * have a space, and the result is the existing list with the new line
   * inserted before the first lower score, cut to ten lines.
   */
  function MergeScores(lines: seq<string>, newScore: int, newLine: string, stoi: Stoi): Result<seq<string>, ScoreError>
  {
    var p := FirstBelow(lines, newScore, stoi);
    match FirstNoSpace(lines, ReadCount(|lines|, p))
    case Some(k) => Err(MissingName(lines[k]))
    case None => Ok(Merged(lines, newLine, p))
  }

  /** The list grows by one, up to ten lines. */
  lemma MergedLength(lines: seq<string>, newLine: string, p: nat)
    requires p <= |lines|
    ensures |Merged(lines, newLine, p)| == if |lines| < MaxScores then |lines| + 1 else MaxScores
  {
  }

  /**
   * Where everything ends up: the lines above the new one are kept as
   * they were, the new line sits at p, and the old lines follow in their
   * old order; a new score that ranks eleventh or lower is not kept.
   */
  lemma MergedPlacement(lines: seq<string>, newLine: string, p: nat)
    requires p <= |lines|
    ensures var m := Merged(lines, newLine, p);
      p < MaxScores ==> m[..p] == lines[..p] && m[p] == newLine && m[p + 1..] == lines[p..|m| - 1]
    ensures p >= MaxScores ==> Merged(lines, newLine, p) == lines[..MaxScores]
  {
    var m := Merged(lines, newLine, p);
    var full := lines[..p] + [newLine] + lines[p..];
    if p < MaxScores {
      assert m[..p] == full[..p];
      assert m[p + 1..] == full[p + 1..|m|];
      assert full[p + 1..|m|] == lines[p..|m| - 1];
    } else {
      assert full[..MaxScores] == lines[..MaxScores];
    }
  }

  /** A sorted score list stays sorted when the new line carries the new score. */
  lemma MergedSorted(lines: seq<string>, newScore: int, newLine: string, stoi: Stoi)
    requires Sorted(lines, stoi) && ScoreOf(newLine, stoi) == newScore
    ensures Sorted(Merged(lines, newLine, FirstBelow(lines, newScore, stoi)), stoi)
  {
    var p := FirstBelow(lines, newScore, stoi);
    FirstBelowSpec(lines, newScore, stoi);
    InsertKeepsSorted(lines, newLine, p, stoi);
    SortedPrefix(lines[..p] + [newLine] + lines[p..], Min(|lines| + 1, MaxScores), stoi);
  }

  lemma InsertKeepsSorted(lines: seq<string>, x: string, p: nat, stoi: Stoi)
    requires p <= |lines| && Sorted(lines, stoi)
    requires forall k :: 0 <= k < p ==> ScoreOf(lines[k], stoi) >= ScoreOf(x, stoi)
    requires p < |lines| ==> ScoreOf(x, stoi) >= ScoreOf(lines[p], stoi)
    ensures Sorted(lines[..p] + [x] + lines[p..], stoi)
  {
    var full := lines[..p] + [x] + lines[p..];
    forall i, j | 0 <= i < j < |full|
      ensures ScoreOf(full[i], stoi) >= ScoreOf(full[j], stoi)
    {
      if j < p {
        assert full[i] == lines[i] && full[j] == lines[j];
      } else if j == p {
        assert full[i] == lines[i] && full[j] == x;
      } else if i < p {
        assert full[i] == lines[i] && full[j] == lines[j - 1];
      } else if i == p {
        assert full[i] == x && full[j] == lines[j - 1];
        assert ScoreOf(lines[p], stoi) >= ScoreOf(lines[j - 1], stoi);
      } else {
        assert full[i] == lines[i - 1] && full[j] == lines[j - 1];
      }
    }
  }

  lemma SortedPrefix(lines: seq<string>, n: nat, stoi: Stoi)
    requires n <= |lines| && Sorted(lines, stoi)
    ensures Sorted(lines[..n], stoi)
  {
  }

  /**
   * The new line `to_string(newScore) + " " + userName` (headers/uihandler.hpp:47)
   * is scored as newScore when stoi reads back what to_string wrote.
   */
  lemma NewLineScore(newScore: int, userName: string, stoi: Stoi, toString: ToString)
    requires ' ' !in toString(newScore) && stoi(toString(newScore)) == newScore
    ensures ScoreOf(toString(newScore) + " " + userName, stoi) == newScore
    ensures ' ' in toString(newScore) + " " + userName
  {
    HeadOfJoin(toString(newScore), userName);
    assert (toString(newScore) + " " + userName)[|toString(newScore)|] == ' ';
  }

  /** A line without a space right after lines that all have one is the one found. */
  lemma {:induction false} FirstNoSpaceAt(lines: seq<string>, n: nat, i: nat)
    requires i < n <= |lines| && ' ' !in lines[i]
    requires FirstNoSpace(lines, i) == None
    ensures FirstNoSpace(lines, n) == Some(i)
  {
    if i < n - 1 {
      FirstNoSpaceAt(lines, n - 1, i);
    }
  }

  /** Finding no line without a space among m lines means finding none among fewer. */
  lemma {:induction false} FirstNoSpaceNone(lines: seq<string>, n: nat, m: nat)
    requires n <= m <= |lines|
    requires FirstNoSpace(lines, m) == None
    ensures FirstNoSpace(lines, n) == None
  {
    if n < m {
      FirstNoSpaceNone(lines, n, m - 1);
    }
  }

  /** Once every line the loop reads has a space, the merge succeeds with the merged list. */
  lemma MergeScoresOk(lines: seq<string>, newScore: int, newLine: string, stoi: Stoi, read: nat)
    requires var p := FirstBelow(lines, newScore, stoi);
      ReadCount(|lines|, p) <= read <= |lines| && FirstNoSpace(lines, read) == None
    ensures MergeScores(lines, newScore, newLine, stoi) == Ok(Merged(lines, newLine, FirstBelow(lines, newScore, stoi)))
  {
    FirstNoSpaceNone(lines, ReadCount(|lines|, FirstBelow(lines, newScore, stoi)), read);
  }

  /**
   * The loop of saveScore (headers/uihandler.hpp:49-72): read lines while
   * fewer than ten are kept, insert the new line before the first lower
   * score, and append it at the end if it was not placed and there is room.
   */
  method MergeScoreLines(lines: seq<string>, newScore: int, newLine: string, stoi: Stoi)
    returns (r: Result<seq<string>, ScoreError>)
    ensures r == MergeScores(lines, newScore, newLine, stoi)
  {
    ghost var p := FirstBelow(lines, newScore, stoi);
    var scoreList: seq<string> := [];
    var addedNewScore := false;
    var i := 0;
    while i < |lines| && |scoreList| < MaxScores
      invariant 0 <= i <= |lines|
      invariant FirstNoSpace(lines, i) == None
      invariant !addedNewScore ==> i <= p && scoreList == lines[..i]
      invariant addedNewScore ==> p < i && scoreList == lines[..p] + [newLine] + lines[p..i]
      invariant |scoreList| <= MaxScores
    {
      var line := lines[i];
      if FirstSpace(line).None? {
        MissingNameIsRead(lines, newScore, stoi, i, addedNewScore);
        FirstNoSpaceAt(lines, ReadCount(|lines|, p), i);
        return Err(MissingName(line));
      }
      var currentScore := ScoreOf(line, stoi);
      if !addedNewScore {
        FirstBelowAt(lines, newScore, stoi, i);
        if newScore <= currentScore {
          scoreList := scoreList + [line];
        } else {
          scoreList := scoreList + [newLine];
          if |scoreList| >= MaxScores {
            MergeAtBreak(lines, newScore, newLine, stoi, i);
            return Ok(scoreList);
          }
          scoreList := scoreList + [line];
          addedNewScore := true;
        }
      } else {
        scoreList := scoreList + [line];
      }
      Extend(lines, p, i);
      i := i + 1;
    }
    if !addedNewScore && |scoreList| < MaxScores {
      scoreList := scoreList + [newLine];
    }
    if !addedNewScore {
      MergeUnplaced(lines, newScore, newLine, stoi, i);
    } else {
      MergePlaced(lines, newScore, newLine, stoi, i);
    }
    r := Ok(scoreList);
  }

  /** One more line read extends both the prefix and the run after the insertion point. */
  lemma Extend(lines: seq<string>, p: nat, i: nat)
    requires i < |lines|
    ensures lines[..i + 1] == lines[..i] + [lines[i]]
    ensures p <= i ==> lines[p..i + 1] == lines[p..i] + [lines[i]]
  {
  }

  /** A line without a space that the loop reaches lies within the lines the loop reads. */
  lemma MissingNameIsRead(lines: seq<string>, newScore: int, stoi: Stoi, i: nat, added: bool)
    requires i < |lines|
    requires var p := FirstBelow(lines, newScore, stoi);
      (!added ==> i <= p && i < MaxScores) && (added ==> p < i && i + 1 < MaxScores)
    ensures i < ReadCount(|lines|, FirstBelow(lines, newScore, stoi))
  {
  }

  /** The new score is the tenth: the loop stops on line 9 and keeps it out. */
  lemma MergeAtBreak(lines: seq<string>, newScore: int, newLine: string, stoi: Stoi, i: nat)
    requires i == FirstBelow(lines, newScore, stoi) == 9 < |lines|
    requires FirstNoSpace(lines, i + 1) == None
    ensures MergeScores(lines, newScore, newLine, stoi) == Ok(lines[..i] + [newLine])
  {
    MergeScoresOk(lines, newScore, newLine, stoi, i + 1);
    assert (lines[..i] + [newLine] + lines[i..])[..MaxScores] == lines[..i] + [newLine];
  }

  /** The new score was placed at p and the loop then read up to line i. */
  lemma MergePlaced(lines: seq<string>, newScore: int, newLine: string, stoi: Stoi, i: nat)
    requires var p := FirstBelow(lines, newScore, stoi);
      p < i < MaxScores && i <= |lines| && (i == |lines| || i + 1 == MaxScores)
    requires FirstNoSpace(lines, i) == None
    ensures var p := FirstBelow(lines, newScore, stoi);
      MergeScores(lines, newScore, newLine, stoi) == Ok(lines[..p] + [newLine] + lines[p..i])
  {
    var p := FirstBelow(lines, newScore, stoi);
    MergeScoresOk(lines, newScore, newLine, stoi, i);
    InsertThenCut(lines, newLine, p, i);
    assert Merged(lines, newLine, p) == (lines[..p] + [newLine] + lines[p..])[..i + 1];
  }

  /** The new score was not placed by the loop: it goes last if there is room. */
  lemma MergeUnplaced(lines: seq<string>, newScore: int, newLine: string, stoi: Stoi, i: nat)
    requires i <= FirstBelow(lines, newScore, stoi) && i <= |lines| && i <= MaxScores && (i == |lines| || i == MaxScores)
    requires FirstNoSpace(lines, i) == None
    ensures MergeScores(lines, newScore, newLine, stoi)
      == Ok(if i < MaxScores then lines[..i] + [newLine] else lines[..i])
  {
    var p := FirstBelow(lines, newScore, stoi);
    MergeScoresOk(lines, newScore, newLine, stoi, i);
    if i < MaxScores {
      assert lines[..p] + [newLine] + lines[p..] == lines[..i] + [newLine];
    } else {
      CutBeforeInsert(lines, newLine, p, MaxScores);
      assert Merged(lines, newLine, p) == lines[..i];
    }
  }

  lemma InsertThenCut(lines: seq<string>, x: string, p: nat, i: nat)
    requires p < i <= |lines|
    ensures (lines[..p] + [x] + lines[p..])[..i + 1] == lines[..p] + [x] + lines[p..i]
  {
    var full := lines[..p] + [x] + lines[p..];
    assert forall k :: 0 <= k < i + 1 ==> full[k] == (lines[..p] + [x] + lines[p..i])[k];
  }

  lemma CutBeforeInsert(lines: seq<string>, x: string, p: nat, m: nat)
    requires m <= p <= |lines|
    ensures (lines[..p] + [x] + lines[p..])[..m] == lines[..m]
  {
    var full := lines[..p] + [x] + lines[p..];
    assert forall k :: 0 <= k < m ==> full[k] == lines[k];
  }

  // ---------------------------------------------------------------------
  // The menus
  // ---------------------------------------------------------------------

  /** The six menus MenuHandler owns (headers/uihandler.hpp:497-502). */
  datatype Menu = MainMenu | ScoreScreen | PauseScreen | GameOverScreen | InGameGUI | ScoreScreen2

  /** `menuList` in the order initialize pushes it (headers/uihandler.hpp:518-523). */
  const MenuList: seq<Menu> := [MainMenu, ScoreScreen, PauseScreen, GameOverScreen, InGameGUI, ScoreScreen2]

  /** `menuList[currentGameState]`: always in bounds, since the enum has five values and the list six entries. */
  function MenuFor(s: UIState): (m: Menu)
    ensures m != ScoreScreen2
  {
    MenuList[StateValue(s)]
  }

  /** Each state shows its own screen; the quit-game score screen is never chosen by a state. */
  lemma MenuForEachState()
    ensures MenuFor(InMainMenu) == MainMenu && MenuFor(InScoreScreen) == ScoreScreen
    ensures MenuFor(InPauseScreen) == PauseScreen && MenuFor(InGameOverScreen) == GameOverScreen
    ensures MenuFor(InGame) == InGameGUI
    ensures forall s, t :: MenuFor(s) == MenuFor(t) ==> s == t
  {
  }

  /**
   * One row of the score screen: the score label (the text before the
   * first space) and the name label (the rest of the line from that space
   * on, so it keeps its leading space).
   */
  function Row(line: string): (string, string)
  {
    (Head(line), line[|Head(line)|..])
  }

  /** The rows of the first n lines, top to bottom. */
  function Rows(lines: seq<string>, n: nat): seq<(string, string)>
    requires n <= |lines|
  {
    if n == 0 then [] else Rows(lines, n - 1) + [Row(lines[n - 1])]
  }

  /** Row k of the screen comes from line k of the file. */
  lemma {:induction false} RowsSpec(lines: seq<string>, n: nat)
    requires n <= |lines|
    ensures |Rows(lines, n)| == n
    ensures forall k :: 0 <= k < n ==> Rows(lines, n)[k] == Row(lines[k])
  {
    if n > 0 {
      RowsSpec(lines, n - 1);
    }
  }

  /** How many lines the score screen gets through: all of them, or those before the first without a space. */
  function ReadableCount(lines: seq<string>): (n: nat)
    ensures n <= |lines|
  {
    match FirstNoSpace(lines, |lines|)
    case Some(k) => k
    case None => |lines|
  }

  /** Every line counted has a space, and the one after them, if any, has none. */
  lemma ReadableCountSpec(lines: seq<string>)
    ensures var n := ReadableCount(lines);
      && (forall k :: 0 <= k < n ==> ' ' in lines[k])
      && (n < |lines| ==> ' ' !in lines[n])
  {
    FirstNoSpaceSpec(lines, |lines|);
  }

  /** In a sorted list the first score is the largest and the last the smallest. */
  lemma SortedEnds(lines: seq<string>, stoi: Stoi)
    requires Sorted(lines, stoi) && |lines| > 0
    ensures forall k :: 0 <= k < |lines| ==>
      ScoreOf(lines[0], stoi) >= ScoreOf(lines[k], stoi) >= ScoreOf(lines[|lines| - 1], stoi)
  {
  }

  lemma ReadableStopsAt(lines: seq<string>, i: nat)
    requires i < |lines| && ' ' !in lines[i]
    requires FirstNoSpace(lines, i) == None
    ensures ReadableCount(lines) == i
  {
    FirstNoSpaceAt(lines, |lines|, i);
  }

  /**
   * A saved file reads back whole: every line saveScore keeps was read and
   * had a space, and so has the new line, so the score screen rebuilt
   * after a save never stops at a line without a name.
   */
  lemma SavedLinesAllNamed(lines: seq<string>, newScore: int, newLine: string, stoi: Stoi)
    requires ' ' in newLine
    requires MergeScores(lines, newScore, newLine, stoi).Ok?
    ensures var m := MergeScores(lines, newScore, newLine, stoi).value;
      ReadableCount(m) == |m|
  {
    var p := FirstBelow(lines, newScore, stoi);
    var c := ReadCount(|lines|, p);
    FirstNoSpaceSpec(lines, c);
    var m := Merged(lines, newLine, p);
    var full := lines[..p] + [newLine] + lines[p..];
    forall k | 0 <= k < |m|
      ensures ' ' in m[k]
    {
      if k < p {
        assert m[k] == full[k] == lines[k];
      } else if k > p {
        assert m[k] == full[k] == lines[k - 1];
      }
    }
    FirstNoSpaceSpec(m, |m|);
  }

  /** What one pass over the score file leaves behind. */
  datatype ScoreRead = ScoreRead(rows: seq<(string, string)>, counted: int, top: int, last: int, error: Option<ScoreError>)

  /**
   * The reading loop of ScoreScreen::createUI (headers/uihandler.hpp:167-205),
   * from the values the globals and currentScore held before: a row per
   * line, a count per line, the first line's score as the top score and
   * the last read line's as the last. A line without a space stops it.
   */
  method ReadScoreFile(lines: seq<string>, stoi: Stoi, counted0: int, top0: int, last0: int) returns (r: ScoreRead)
    ensures var n := ReadableCount(lines);
      && r.rows == Rows(lines, n)
      && r.counted == counted0 + n
      && r.top == (if n > 0 then ScoreOf(lines[0], stoi) else top0)
      && r.last == (if n > 0 then ScoreOf(lines[n - 1], stoi) else last0)
      && r.error == (if n < |lines| then Some(MissingName(lines[n])) else None)
  {
    var built: seq<(string, string)> := [];
    var counted, top, last := counted0, top0, last0;
    var i := 0;
    while i < |lines|
      invariant 0 <= i <= |lines|
      invariant FirstNoSpace(lines, i) == None
      invariant built == Rows(lines, i)
      invariant counted == counted0 + i
      invariant top == (if i > 0 then ScoreOf(lines[0], stoi) else top0)
      invariant last == (if i > 0 then ScoreOf(lines[i - 1], stoi) else last0)
    {
      var line := lines[i];
      if FirstSpace(line).None? {
        ReadableStopsAt(lines, i);
        return ScoreRead(built, counted, top, last, Some(MissingName(line)));
      }
      last := ScoreOf(line, stoi);
      if i == 0 {
        top := last;
      }
      built := built + [Row(line)];
      counted := counted + 1;
      i := i + 1;
    }
    r := ScoreRead(built, counted, top, last, None);
  }

  /** The menu state: the file-level globals and the members of the screens that hold data. */
  class MenuHandler {
    var currentGameState: UIState
    var scoreUpdate: bool
    var numOfScores: int
    var maxScore: int
    var minScore: int
    var newScore: int
    var userName: string
    /** high_scores.txt, one entry per line. */
    var scoreFile: seq<string>
    /** ScoreScreen::currentScore, which outlives one rebuild. */
    var currentScore: int
    /** The score and name labels of the score screen, top to bottom. */
    var rows: seq<(string, string)>
    var menuList: seq<Menu>
    /** GameOverScreen::playerName and whether saveScoreButton is active. */
    const playerName: TextField
    var saveActive: bool

    /** The globals' initialisers (headers/uihandler.hpp:15,24-30) over a given score file. */
    constructor (scoreFile: seq<string>)
      ensures currentGameState == InMainMenu && !scoreUpdate
      ensures numOfScores == 0 && maxScore == 0 && minScore == 0 && newScore == 0
      ensures this.scoreFile == scoreFile && menuList == [] && rows == [] && userName == ""
      ensures fresh(playerName) && fresh(playerName.text) && playerName.Valid() && playerName.Name() == []
    {
      currentGameState := InMainMenu;
      scoreUpdate := false;
      numOfScores, maxScore, minScore, newScore := 0, 0, 0, 0;
      userName := "";
      this.scoreFile := scoreFile;
      currentScore := 0;
      rows := [];
      menuList := [];
      playerName := new TextField();
      saveActive := false;
    }

    /** The line saveScore adds (headers/uihandler.hpp:47). */
    function NewScoreLine(toString: ToString): string
      reads this
    {
      toString(newScore) + " " + userName
    }

    /**
     * saveScore (headers/uihandler.hpp:36-87): the merged list replaces
     * the file, scoreUpdate is raised and the score screen is shown. A
     * line without a space throws before anything is written.
     */
    method SaveScore(stoi: Stoi, toString: ToString) returns (error: Option<ScoreError>)
      modifies this`scoreFile, this`scoreUpdate, this`currentGameState
      ensures var merged := MergeScores(old(scoreFile), newScore, NewScoreLine(toString), stoi);
        && (merged.Ok? ==> error.None? && scoreFile == merged.value && scoreUpdate && currentGameState == InScoreScreen)
        && (merged.Err? ==> error == Some(merged.error) && unchanged(this))
    {
      var merged := MergeScoreLines(scoreFile, newScore, toString(newScore) + " " + userName, stoi);
      if merged.Err? {
        return Some(merged.error);
      }
      scoreFile := merged.value;
      scoreUpdate := true;
      currentGameState := InScoreScreen;
      error := None;
    }

    /**
     * ScoreScreen::createUI's reading loop (headers/uihandler.hpp:151-216):
     * one pair of labels per line, max_score from the first line, min_score
     * from the last, and num_of_scores counting every line read, across
     * rebuilds. A line without a space throws midway, after the lines
     * before it were counted.
     */
    method BuildScoreScreen(stoi: Stoi) returns (error: Option<ScoreError>)
      modifies this`rows, this`numOfScores, this`maxScore, this`minScore, this`currentScore
      ensures var n := ReadableCount(scoreFile);
        && rows == Rows(scoreFile, n)
        && numOfScores == old(numOfScores) + n
        && maxScore == (if n > 0 then ScoreOf(scoreFile[0], stoi) else old(maxScore))
        && currentScore == (if n > 0 then ScoreOf(scoreFile[n - 1], stoi) else old(currentScore))
        && (n == |scoreFile| ==> error.None? && minScore == currentScore)
        && (n < |scoreFile| ==> error == Some(MissingName(scoreFile[n])) && minScore == old(minScore))
    {
      var read := ReadScoreFile(scoreFile, stoi, numOfScores, maxScore, currentScore);
      rows, numOfScores, maxScore, currentScore, error := read.rows, read.counted, read.top, read.last, read.error;
      if error.None? {
        minScore := currentScore;
      }
    }

    /** The menu list as initialize builds it (headers/uihandler.hpp:505-524). */
    method Initialize()
      requires menuList == []
      modifies this`menuList, this`currentGameState
      ensures menuList == MenuList && currentGameState == InMainMenu
    {
      currentGameState := InMainMenu;
      menuList := menuList + [MainMenu];
      menuList := menuList + [ScoreScreen];
      menuList := menuList + [PauseScreen];
      menuList := menuList + [GameOverScreen];
      menuList := menuList + [InGameGUI];
      menuList := menuList + [ScoreScreen2];
    }

    /**
     * MenuHandler::Update (headers/uihandler.hpp:526-534): a pending score
     * update rebuilds the score screen and, when every line reads, is
     * cleared; then the menu of the current state is returned for its
     * Update to run.
     */
    method Update(stoi: Stoi) returns (r: Result<Menu, ScoreError>)
      requires menuList == MenuList
      modifies this`scoreUpdate, this`rows, this`numOfScores, this`maxScore, this`minScore, this`currentScore
      ensures !old(scoreUpdate) ==> r == Ok(MenuFor(currentGameState)) && unchanged(this)
      ensures old(scoreUpdate) ==> var n := ReadableCount(scoreFile);
        && rows == Rows(scoreFile, n)
        && numOfScores == old(numOfScores) + n
        && maxScore == (if n > 0 then ScoreOf(scoreFile[0], stoi) else old(maxScore))
        && currentScore == (if n > 0 then ScoreOf(scoreFile[n - 1], stoi) else old(currentScore))
        && (n == |scoreFile| ==> r == Ok(MenuFor(currentGameState)) && !scoreUpdate && minScore == currentScore)
        && (n < |scoreFile| ==> r == Err(MissingName(scoreFile[n])) && scoreUpdate && minScore == old(minScore))
    {
      if scoreUpdate {
        var error := BuildScoreScreen(stoi);
        if error.Some? {
          return Err(error.value);
        }
        scoreUpdate := false;
      }
      r := Ok(menuList[StateValue(currentGameState)]);
    }

    /**
     * GameOverScreen::Update's own part (headers/uihandler.hpp:427-440):
     * the save button follows isMax as it was before this frame's input, a
     * printable key (codes 32 to 125) adds a letter while fewer than three
     * are typed, and backspace removes one.
     */
    method GameOverUpdate(key: int, backspace: bool)
      requires playerName.Valid()
      modifies this`saveActive, playerName`letterCount, playerName`isMax, playerName.text
      ensures saveActive == (|old(playerName.Name())| == 3)
      ensures playerName.Valid()
      ensures playerName.Name() == EditName(old(playerName.Name()), key, backspace)
      ensures playerName.isMax <==> |playerName.Name()| == 3
    {
      ghost var name := playerName.Name();
      if playerName.isMax {
        saveActive := true;
      } else {
        saveActive := false;
      }
      if 32 <= key <= 125 && playerName.letterCount < 3 {
        playerName.AddLetter(key as char);
      }
      ghost var typed := playerName.Name();
      assert typed == if 32 <= key <= 125 && |name| < 3 then name + [ToUpper(key as char)] else name;
      if backspace {
        playerName.RemoveLetter();
      }
    }

    /** TextField::Draw hands the shown text to the userName global (headers/uicomponents.hpp:217). */
    method ShowName()
      requires playerName.Valid()
      modifies this`userName, playerName.text
      ensures playerName.Valid()
      ensures userName == playerName.Name() + if playerName.letterCount < 3 then "_" else ""
    {
      userName := playerName.Show();
    }
  }

  /** The typed name after one frame of input. */
  function EditName(name: string, key: int, backspace: bool): (r: string)
    ensures |r| <= |name| + 1
  {
    var typed := if 32 <= key <= 125 && |name| < 3 then name + [ToUpper(key as char)] else name;
    if backspace then (if |typed| == 0 then typed else typed[..|typed| - 1]) else typed
  }

  /**
   * One frame of input only touches the end of the name: it never exceeds
   * three letters, a full name ignores typing, and a letter typed and
   * erased in the same frame leaves the name as it was.
   */
  lemma EditNameCases(name: string, key: int, backspace: bool)
    requires |name| <= 3
    ensures var r := EditName(name, key, backspace);
      && |r| <= 3
      && r[..Min(|r|, |name|)] == name[..Min(|r|, |name|)]
    ensures |name| == 3 && !backspace ==> EditName(name, key, backspace) == name
    ensures 32 <= key <= 125 && |name| < 3 && backspace ==> EditName(name, key, backspace) == name
    ensures !(32 <= key <= 125) && backspace && |name| > 0 ==> EditName(name, key, backspace) == name[..|name| - 1]
  {
    if 32 <= key <= 125 && |name| < 3 && backspace {
      assert (name + [ToUpper(key as char)])[..|name|] == name;
    }
  }
}
