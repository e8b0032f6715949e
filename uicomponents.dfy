/**
 * The data side of the UI components (headers/uicomponents.hpp): the
 * three-letter name field edited in a four-char buffer, the heart bar,
 * label alignment, and the reverse-order event dispatch of a container.
 *
 * Drawing is not part of this model. raylib's CheckCollisionPointRec is a
 * parameter. A container's children are values: a button, which answers
 * hover and click, or an inert component (label, text field, heart bar,
 * background image), whose handlers always return false.
 */
module Widgets {
  import opened Common

  /** The UIState enum (headers/uicomponents.hpp:23-29). */
  datatype UIState = InMainMenu | InScoreScreen | InPauseScreen | InGameOverScreen | InGame

  /** The enumerator's integer value. */
  function StateValue(s: UIState): (v: nat)
    ensures v < 5
  {
    match s
    case InMainMenu => 0
    case InScoreScreen => 1
    case InPauseScreen => 2
    case InGameOverScreen => 3
    case InGame => 4
  }

  /** Distinct states have distinct values. */
  lemma StateValueInjective(s: UIState, t: UIState)
    ensures StateValue(s) == StateValue(t) ==> s == t
  {
  }

  // ---------------------------------------------------------------------
  // TextField
  // ---------------------------------------------------------------------

  /** `toupper` in the C locale: only 'a'..'z' change. */
  function ToUpper(c: char): (r: char)
    ensures 'a' <= c <= 'z' ==> 'A' <= r <= 'Z' && r as int == c as int - 32
    ensures !('a' <= c <= 'z') ==> r == c
  {
    if 'a' <= c <= 'z' then (c as int - 32) as char else c
  }

  /** The indices AddLetter writes for a given letterCount (headers/uicomponents.hpp:222-228). */
  function AddLetterWrites(letterCount: int): set<int>
  {
    if 0 <= letterCount < 2 then {letterCount, letterCount + 1, letterCount + 2}
    else {letterCount, letterCount + 1}
  }

  /**
   * AddLetter stays inside `char text[4]` exactly when letterCount is 0, 1
   * or 2; at 3 it would write text[4]. Only the caller's `letterCount < 3`
   * test (headers/uihandler.hpp:434) keeps it in bounds.
   */
  lemma AddLetterInBoundsIff(letterCount: int)
    ensures (forall i | i in AddLetterWrites(letterCount) :: 0 <= i < 4) <==> 0 <= letterCount <= 2
  {
    if !(0 <= letterCount <= 2) {
      if letterCount < 0 {
        assert letterCount in AddLetterWrites(letterCount);
      } else {
        assert letterCount + 1 in AddLetterWrites(letterCount);
      }
    }
  }

  /** The C string a char buffer holds: everything before the first NUL. */
  function CString(buf: seq<char>): (s: string)
    ensures s <= buf && '\0' !in s
    ensures |s| < |buf| ==> buf[|s|] == '\0'
  {
    if |buf| == 0 || buf[0] == '\0' then []
    else [buf[0]] + CString(buf[1..])
  }

  /** TextField (headers/uicomponents.hpp:206-251): up to three letters in `char text[4]`. */
  class TextField {
    const text: array<char>
    var letterCount: int
    var isMax: bool

    /**
     * The buffer's well-formed states: the typed letters (no NUL among
     * them), then the '_' cursor and a NUL while there is room, or a NUL
     * after three letters. Before the first Draw an empty field may still
     * hold the NUL it started with instead of the cursor.
     */
    predicate Valid()
      reads this, text
    {
      && text.Length == 4
      && 0 <= letterCount <= 3
      && isMax == (letterCount == 3)
      && (forall k :: 0 <= k < letterCount ==> text[k] != '\0')
      && (letterCount < 3 ==> text[letterCount + 1] == '\0')
      && (0 < letterCount < 3 ==> text[letterCount] == '_')
      && (letterCount == 0 ==> text[0] == '_' || text[0] == '\0')
      && (letterCount == 3 ==> text[3] == '\0')
    }

    /** The letters typed so far. */
    function Name(): string
      reads this, text
      requires 0 <= letterCount <= text.Length
    {
      text[..letterCount]
    }

    /**
     * The field as GameOverScreen::createUI leaves it (headers/uihandler.hpp:396-397).
     * The buffer is assumed zero-filled; the source does not initialise it.
     */
    constructor ()
      ensures fresh(text) && Valid()
      ensures letterCount == 0 && !isMax && Name() == []
    {
      text := new char[4](_ => '\0');
      letterCount := 0;
      isMax := false;
    }

    /**
     * AddLetter (headers/uicomponents.hpp:221-235): the upper-cased letter
     * goes at text[letterCount], followed by the cursor and a NUL, or by a
     * NUL alone when it is the third letter, which also sets isMax.
     */
    method AddLetter(letter: char)
      requires text.Length == 4 && 0 <= letterCount <= 2
      modifies this`letterCount, this`isMax, text
      ensures letterCount == old(letterCount) + 1
      ensures isMax == (old(isMax) || old(letterCount) >= 2)
      ensures text[old(letterCount)] == ToUpper(letter)
      ensures old(letterCount) < 2 ==> text[old(letterCount) + 1] == '_' && text[old(letterCount) + 2] == '\0'
      ensures old(letterCount) == 2 ==> text[3] == '\0'
      ensures forall k :: 0 <= k < old(letterCount) ==> text[k] == old(text[k])
      ensures old(letterCount) == 0 ==> text[3] == old(text[3])
      ensures old(Valid()) && ToUpper(letter) != '\0' ==> Valid() && Name() == old(Name()) + [ToUpper(letter)]
    {
      text[letterCount] := ToUpper(letter);
      if letterCount < 2 && letterCount >= 0 {
        text[letterCount + 1] := '_';
        text[letterCount + 2] := '\0';
      } else {
        text[letterCount + 1] := '\0';
      }
      if letterCount >= 2 {
        isMax := true;
      }
      letterCount := letterCount + 1;
    }

    /**
     * RemoveLetter (headers/uicomponents.hpp:237-246): the count drops by
     * one but not below 0, the cursor and a NUL go at the new end, and
     * isMax is cleared.
     */
    method RemoveLetter()
      requires text.Length == 4 && letterCount <= 3
      modifies this`letterCount, this`isMax, text
      ensures letterCount == if old(letterCount) - 1 < 0 then 0 else old(letterCount) - 1
      ensures text[letterCount] == '_' && text[letterCount + 1] == '\0'
      ensures forall k :: 0 <= k < 4 && k != letterCount && k != letterCount + 1 ==> text[k] == old(text[k])
      ensures !isMax
      ensures old(Valid()) ==> Valid() && Name() == old(Name())[..letterCount]
    {
      letterCount := letterCount - 1;
      if letterCount < 0 {
        letterCount := 0;
      }
      text[letterCount] := '_';
      text[letterCount + 1] := '\0';
      isMax := false;
    }

    /**
     * The state part of TextField::Draw (headers/uicomponents.hpp:213-219):
     * an empty field gets its cursor, and the buffer's C string becomes
     * the user name.
     */
    method Show() returns (shown: string)
      requires text.Length == 4 && 0 <= letterCount
      modifies text
      ensures letterCount == 0 ==> text[..] == old(text[..])[0 := '_']
      ensures letterCount != 0 ==> text[..] == old(text[..])
      ensures shown == CString(text[..])
      ensures old(Valid()) ==> Valid() && shown == Name() + if letterCount < 3 then "_" else ""
    {
      if letterCount == 0 {
        text[letterCount] := '_';
      }
      shown := CString(text[..]);
      if Valid() {
        NameThenCursor(text[..], letterCount);
      }
    }
  }

  /** A well-formed buffer reads as the letters, then the cursor unless the field is full. */
  lemma NameThenCursor(buf: seq<char>, n: int)
    requires |buf| == 4 && 0 <= n <= 3
    requires forall k :: 0 <= k < n ==> buf[k] != '\0'
    requires n < 3 ==> buf[n] == '_' && buf[n + 1] == '\0'
    requires n == 3 ==> buf[3] == '\0'
    ensures CString(buf) == buf[..n] + if n < 3 then "_" else ""
  {
    var end := if n < 3 then n + 1 else n;
    CStringStopsAtNul(buf, end);
    assert buf[..end] == buf[..n] + if n < 3 then "_" else "";
  }

  /** The C string of a buffer whose first NUL is at `end`. */
  lemma {:induction false} CStringStopsAtNul(buf: seq<char>, end: nat)
    requires end < |buf| && buf[end] == '\0'
    requires forall k :: 0 <= k < end ==> buf[k] != '\0'
    ensures CString(buf) == buf[..end]
    decreases end
  {
    if end > 0 {
      CStringStopsAtNul(buf[1..], end - 1);
      assert buf[..end] == [buf[0]] + buf[1..][..end - 1];
    }
  }

  // ---------------------------------------------------------------------
  // HPBar
  // ---------------------------------------------------------------------

  /** The three heart textures. */
  datatype Heart = Full | Half | Empty

  /** A C `int` compared with a `size_t`: converted to unsigned 64-bit. */
  function AsSize(v: int): int
  {
    if v >= 0 then v else v + 0x1_0000_0000_0000_0000
  }

  /**
   * The texture drawn for heart i (headers/uicomponents.hpp:261-267): the
   * chain of three tests with size_t arithmetic; None is the case where
   * none of them holds and nothing is drawn.
   */
  function HeartAt(currentHealth: int, i: nat): Option<Heart>
  {
    var health := AsSize(currentHealth);
    if health >= i * 2 then Some(Full)
    else if health == i * 2 - 1 then Some(Half)
    else if health < i * 2 then Some(Empty)
    else None
  }

  /**
   * For a health that is not negative, every heart is drawn, and it is full
   * exactly when the health covers both its halves, half exactly when it
   * covers only the first, and empty otherwise.
   */
  lemma HeartClassification(currentHealth: int, i: nat)
    requires currentHealth >= 0
    ensures HeartAt(currentHealth, i).Some?
    ensures HeartAt(currentHealth, i) == Some(Full) <==> currentHealth >= 2 * i
    ensures HeartAt(currentHealth, i) == Some(Half) <==> currentHealth == 2 * i - 1
    ensures HeartAt(currentHealth, i) == Some(Empty) <==> currentHealth < 2 * i - 1
  {
  }

  /** The hearts 1..n in drawing order. */
  function HeartRow(currentHealth: int, n: nat): (row: seq<Option<Heart>>)
    ensures |row| == n
  {
    if n == 0 then [] else HeartRow(currentHealth, n - 1) + [HeartAt(currentHealth, n)]
  }

  /** Half-hearts shown: two per full heart, one per half heart. */
  function HalvesShown(row: seq<Option<Heart>>): nat
  {
    if |row| == 0 then 0
    else
      HalvesShown(row[..|row| - 1])
        + match row[|row| - 1] case Some(Full) => 2 case Some(Half) => 1 case _ => 0
  }

  /** The bar shows the health exactly, up to what its n hearts can hold. */
  lemma {:induction false} HeartsShowHealth(currentHealth: int, n: nat)
    requires currentHealth >= 0
    ensures HalvesShown(HeartRow(currentHealth, n)) == if currentHealth < 2 * n then currentHealth else 2 * n
  {
    if n > 0 {
      var row := HeartRow(currentHealth, n);
      assert row[..n - 1] == HeartRow(currentHealth, n - 1);
      HeartsShowHealth(currentHealth, n - 1);
    }
  }

  /** UpdateHealth's result (headers/uicomponents.hpp:276-284): the upper bound is tested first. */
  function Healed(currentHealth: int, maxHealth: int, value: int): int
  {
    if currentHealth + value > maxHealth then maxHealth
    else if currentHealth + value <= 0 then 0
    else currentHealth + value
  }

  /** With a bar that is not negative, the health is the sum clamped to [0, maxHealth]. */
  lemma HealedIsClamped(currentHealth: int, maxHealth: int, value: int)
    requires maxHealth >= 0
    ensures 0 <= Healed(currentHealth, maxHealth, value) <= maxHealth
    ensures Healed(currentHealth, maxHealth, value) as real == Clamp((currentHealth + value) as real, 0.0, maxHealth as real)
  {
  }

  /** HPBar (headers/uicomponents.hpp:253-290). */
  class HPBar {
    var maxHealth: int
    var currentHealth: int

    constructor (maxHealth: int, currentHealth: int)
      ensures this.maxHealth == maxHealth && this.currentHealth == currentHealth
    {
      this.maxHealth := maxHealth;
      this.currentHealth := currentHealth;
    }

    /** InitBar (headers/uicomponents.hpp:271-274): a full bar of the given size. */
    method InitBar(value: int)
      modifies this
      ensures maxHealth == value && currentHealth == value
    {
      maxHealth := value;
      currentHealth := maxHealth;
    }

    /** UpdateHealth (headers/uicomponents.hpp:276-284). */
    method UpdateHealth(value: int)
      modifies this`currentHealth
      ensures currentHealth == Healed(old(currentHealth), maxHealth, value)
      ensures maxHealth >= 0 ==> 0 <= currentHealth <= maxHealth
    {
      if currentHealth + value > maxHealth {
        currentHealth := maxHealth;
      } else if currentHealth + value <= 0 {
        currentHealth := 0;
      } else {
        currentHealth := currentHealth + value;
      }
      if maxHealth >= 0 {
        HealedIsClamped(old(currentHealth), maxHealth, value);
      }
    }

    /**
     * The heart loop of HPBar::Draw (headers/uicomponents.hpp:259-268):
     * hearts 1..maxHealth/2, each with the texture it would be drawn with.
     */
    method Hearts() returns (row: seq<Option<Heart>>)
      ensures maxHealth >= 2 ==> row == HeartRow(currentHealth, maxHealth / 2)
      ensures maxHealth < 2 ==> row == []
    {
      var numHearts := if maxHealth >= 0 then maxHealth / 2 else -((-maxHealth) / 2);
      row := [];
      var i := 1;
      while i <= numHearts
        invariant 1 <= i && (numHearts >= 1 ==> i <= numHearts + 1) && (numHearts < 1 ==> i == 1)
        invariant row == HeartRow(currentHealth, i - 1)
      {
        row := row + [HeartAt(currentHealth, i)];
        i := i + 1;
      }
    }
  }

  // ---------------------------------------------------------------------
  // Label
  // ---------------------------------------------------------------------

  /** Label's alignment flags (headers/uicomponents.hpp:160-204). */
  class Label {
    var centerAlign: bool
    var leftAlign: bool
    var rightAlign: bool

    /** Exactly one alignment is chosen. */
    predicate OneAlignment()
      reads this
    {
      (if centerAlign then 1 else 0) + (if leftAlign then 1 else 0) + (if rightAlign then 1 else 0) == 1
    }

    /** The member initialisers: centred. */
    constructor ()
      ensures centerAlign && !leftAlign && !rightAlign && OneAlignment()
    {
      centerAlign, leftAlign, rightAlign := true, false, false;
    }

    method SetCenterAlign()
      modifies this
      ensures centerAlign && OneAlignment()
    {
      leftAlign := false;
      rightAlign := false;
      centerAlign := true;
    }

    method SetLeftAlign()
      modifies this
      ensures leftAlign && OneAlignment()
    {
      rightAlign := false;
      centerAlign := false;
      leftAlign := true;
    }

    method SetRightAlign()
      modifies this
      ensures rightAlign && OneAlignment()
    {
      centerAlign := false;
      leftAlign := false;
      rightAlign := true;
    }
  }

  // ---------------------------------------------------------------------
  // Button and UIContainer
  // ---------------------------------------------------------------------

  /** Button's state (headers/uicomponents.hpp:106-154); its action is the caller's to run. */
  datatype Button = Button(bounds: Rect, active: bool, isHovered: bool)

  /** A child of a container: a button, or a component that ignores the mouse. */
  datatype Widget = Clickable(button: Button) | Inert

  /**
   * Button::HandleHover (headers/uicomponents.hpp:133-141): the button is
   * hovered exactly when the point is inside it, and says so.
   */
  function ButtonHover(b: Button, mouse: Vec2, contains: PointTest): (r: (Button, bool))
    ensures r.0 == b.(isHovered := contains(mouse, b.bounds)) && r.1 == contains(mouse, b.bounds)
  {
    (b.(isHovered := contains(mouse, b.bounds)), contains(mouse, b.bounds))
  }

  /**
   * Button::HandleClick (headers/uicomponents.hpp:143-153): the click is
   * taken, and the action run, only inside an active button.
   */
  predicate ButtonClick(b: Button, click: Vec2, contains: PointTest)
  {
    contains(click, b.bounds) && b.active
  }

  /** Whether a child takes the hover; an inert child never does. */
  predicate Hovers(w: Widget, mouse: Vec2, contains: PointTest)
  {
    w.Clickable? && contains(mouse, w.button.bounds)
  }

  /** Whether a child takes the click. */
  predicate Clicks(w: Widget, click: Vec2, contains: PointTest)
  {
    w.Clickable? && ButtonClick(w.button, click, contains)
  }

  /** The child after it was asked about the hover. */
  function Hovered(w: Widget, mouse: Vec2, contains: PointTest): Widget
  {
    if w.Clickable? then Clickable(ButtonHover(w.button, mouse, contains).0) else w
  }

  /** The last child among the first n that takes the hover. */
  function LastHovering(children: seq<Widget>, n: nat, mouse: Vec2, contains: PointTest): (r: Option<nat>)
    requires n <= |children|
    ensures r.Some? ==> (r.value < n && Hovers(children[r.value], mouse, contains)
      && forall m :: r.value < m < n ==> !Hovers(children[m], mouse, contains))
    ensures r.None? ==> forall m :: 0 <= m < n ==> !Hovers(children[m], mouse, contains)
  {
    if n == 0 then None
    else if Hovers(children[n - 1], mouse, contains) then Some(n - 1)
    else LastHovering(children, n - 1, mouse, contains)
  }

  /** The last child among the first n that takes the click. */
  function LastClicking(children: seq<Widget>, n: nat, click: Vec2, contains: PointTest): (r: Option<nat>)
    requires n <= |children|
    ensures r.Some? ==> (r.value < n && Clicks(children[r.value], click, contains)
      && forall m :: r.value < m < n ==> !Clicks(children[m], click, contains))
    ensures r.None? ==> forall m :: 0 <= m < n ==> !Clicks(children[m], click, contains)
  {
    if n == 0 then None
    else if Clicks(children[n - 1], click, contains) then Some(n - 1)
    else LastClicking(children, n - 1, click, contains)
  }

  /**
   * The children after a hover pass over the first n, last to first,
   * stopping at the first child that takes it.
   */
  function HoverPass(children: seq<Widget>, n: nat, mouse: Vec2, contains: PointTest): (r: seq<Widget>)
    requires n <= |children|
    ensures |r| == |children|
    decreases n
  {
    if n == 0 then children
    else
      var updated := children[n - 1 := Hovered(children[n - 1], mouse, contains)];
      if Hovers(children[n - 1], mouse, contains) then updated
      else HoverPass(updated, n - 1, mouse, contains)
  }

  /**
   * What a hover pass does to each child: those from the taker upwards are
   * asked (the taker ends hovered, the later ones not), while those below
   * the taker are not asked and keep a stale isHovered.
   */
  lemma {:induction false} HoverPassSpec(children: seq<Widget>, n: nat, mouse: Vec2, contains: PointTest, k: nat)
    requires n <= |children| && k < |children|
    ensures var stop := LastHovering(children, n, mouse, contains);
      HoverPass(children, n, mouse, contains)[k]
        == if k >= n || (stop.Some? && k < stop.value) then children[k] else Hovered(children[k], mouse, contains)
    decreases n
  {
    if n > 0 {
      var updated := children[n - 1 := Hovered(children[n - 1], mouse, contains)];
      if !Hovers(children[n - 1], mouse, contains) {
        HoverPassSpec(updated, n - 1, mouse, contains, k);
        LastHoveringIgnoresUpdate(children, updated, n - 1, mouse, contains);
      }
    }
  }

  lemma {:induction false} LastHoveringIgnoresUpdate(a: seq<Widget>, b: seq<Widget>, n: nat, mouse: Vec2, contains: PointTest)
    requires n <= |a| == |b| && a[..n] == b[..n]
    ensures LastHovering(a, n, mouse, contains) == LastHovering(b, n, mouse, contains)
  {
    if n > 0 {
      assert a[n - 1] == a[..n][n - 1] == b[..n][n - 1] == b[n - 1];
      assert a[..n - 1] == a[..n][..n - 1];
      assert b[..n - 1] == b[..n][..n - 1];
      LastHoveringIgnoresUpdate(a, b, n - 1, mouse, contains);
    }
  }

  /** UIContainer (headers/uicomponents.hpp:47-84) and UILibrary::Update (headers/uicomponents.hpp:292-301). */
  class UIContainer {
    var children: seq<Widget>

    constructor ()
      ensures children == []
    {
      children := [];
    }

    /** AddChild (headers/uicomponents.hpp:52). */
    method AddChild(child: Widget)
      modifies this
      ensures children == old(children) + [child]
    {
      children := children + [child];
    }

    /** ClearChildren (headers/uicomponents.hpp:54). */
    method ClearChildren()
      modifies this
      ensures children == []
    {
      children := [];
    }

    /**
     * HandleHover (headers/uicomponents.hpp:65-73): children are asked from
     * the last added to the first, and the first to take the hover ends the
     * pass; the result says whether any child took it.
     */
    method HandleHover(mouse: Vec2, contains: PointTest) returns (handled: bool)
      modifies this
      ensures children == HoverPass(old(children), |old(children)|, mouse, contains)
      ensures handled <==> LastHovering(old(children), |old(children)|, mouse, contains).Some?
      ensures handled <==> exists k :: 0 <= k < |old(children)| && Hovers(old(children)[k], mouse, contains)
    {
      var i := |children|;
      while i > 0
        invariant 0 <= i <= |children| == |old(children)|
        invariant HoverPass(children, i, mouse, contains) == HoverPass(old(children), |old(children)|, mouse, contains)
        invariant LastHovering(children, i, mouse, contains) == LastHovering(old(children), |old(children)|, mouse, contains)
      {
        var answered := Hovered(children[i - 1], mouse, contains);
        var taken := Hovers(children[i - 1], mouse, contains);
        LastHoveringIgnoresUpdate(children, children[i - 1 := answered], i - 1, mouse, contains);
        children := children[i - 1 := answered];
        if taken {
          return true;
        }
        i := i - 1;
      }
      return false;
    }

    /**
     * HandleClick (headers/uicomponents.hpp:75-83): the same order; an
     * inactive button under the point lets the click through to the
     * children below it. `fired` is the child whose action runs.
     */
    method HandleClick(click: Vec2, contains: PointTest) returns (handled: bool, fired: Option<nat>)
      ensures fired == LastClicking(children, |children|, click, contains)
      ensures handled <==> fired.Some?
      ensures handled <==> exists k :: 0 <= k < |children| && Clicks(children[k], click, contains)
    {
      var i := |children|;
      while i > 0
        invariant 0 <= i <= |children|
        invariant LastClicking(children, i, click, contains) == LastClicking(children, |children|, click, contains)
      {
        if Clicks(children[i - 1], click, contains) {
          return true, Some(i - 1);
        }
        i := i - 1;
      }
      return false, None;
    }

    /**
     * UILibrary::Update (headers/uicomponents.hpp:295-301): a hover pass
     * every frame, and a click pass when the left button is released.
     */
    method Update(mouse: Vec2, released: bool, contains: PointTest) returns (fired: Option<nat>)
      modifies this
      ensures children == HoverPass(old(children), |old(children)|, mouse, contains)
      ensures !released ==> fired.None?
      ensures released ==> fired == LastClicking(children, |children|, mouse, contains)
    {
      var _ := HandleHover(mouse, contains);
      fired := None;
      if released {
        var _, f := HandleClick(mouse, contains);
        fired := f;
      }
    }
  }
}
