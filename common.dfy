/**
 * Shared value types of the game: raylib's Vector2 and Rectangle, the
 * centre-anchored collider every entity derives, raymath's Clamp, and the
 * two pieces of std::string behaviour the loaders rely on (find(" ") and
 * substr around it).
 */
module Common {

  datatype Option<+T> = None | Some(value: T)

  datatype Result<+T, +E> = Ok(value: T) | Err(error: E)

  /** raylib's Vector2, with exact reals in place of floats. */
  datatype Vec2 = Vec2(x: real, y: real)

  /** raylib's Rectangle: upper-left corner plus width and height. */
  datatype Rect = Rect(x: real, y: real, width: real, height: real)

  /**
   * raylib's CheckCollisionRecs / CheckCollisionPointRec are not part of
   * this model; every operation that calls them takes the test as a
   * parameter, with the argument order of the source call.
   */
  type RectTest = (Rect, Rect) -> bool
  type PointTest = (Vec2, Rect) -> bool

  /** The same test with its arguments swapped (`o->IsIntersecting(r)` versus `IsIntersecting(r)`). */
  function Flip(collides: RectTest): RectTest
  {
    (a: Rect, b: Rect) => collides(b, a)
  }

  function Abs(r: real): real
  {
    if r < 0.0 then -r else r
  }

  /** raymath's Clamp: the lower bound is applied first, the upper bound wins. */
  function Clamp(value: real, lo: real, hi: real): (r: real)
    ensures r <= hi
    ensures lo <= hi ==> lo <= r
    ensures lo <= value <= hi ==> r == value
  {
    var low := if value < lo then lo else value;
    if low > hi then hi else low
  }

  /**
   * Entity::GetCollider (headers/entity.hpp:46-53): the rectangle centred on
   * `position` whose sides are twice the half-sizes.
   */
  function Collider(position: Vec2, halfSizes: Vec2): (r: Rect)
    ensures r.x + r.width / 2.0 == position.x && r.y + r.height / 2.0 == position.y
    ensures r.width == 2.0 * halfSizes.x && r.height == 2.0 * halfSizes.y
  {
    Rect(position.x - halfSizes.x, position.y - halfSizes.y, halfSizes.x * 2.0, halfSizes.y * 2.0)
  }

  /** std::string::find(" "): the index of the first space, if any. */
  function FirstSpace(s: string): (r: Option<nat>)
    ensures r.Some? ==> r.value < |s| && s[r.value] == ' ' && ' ' !in s[..r.value]
    ensures r.None? ==> ' ' !in s
  {
    if |s| == 0 then None
    else if s[0] == ' ' then Some(0)
    else match FirstSpace(s[1..])
      case None => None
      case Some(k) => assert s[1..][..k] == s[1..k + 1]; Some(k + 1)
  }

  /**
   * `s.substr(0, s.find(" "))`: the text before the first space. When there
   * is no space, find returns npos and substr keeps the whole string.
   */
  function Head(s: string): (h: string)
    ensures ' ' !in h && h <= s
  {
    match FirstSpace(s)
    case Some(k) => s[..k]
    case None => s
  }

  /**
   * `s.substr(s.find(" ") + 1)`: the text after the first space. When there
   * is no space, npos + 1 wraps to 0 and substr keeps the whole string.
   */
  function Rest(s: string): (t: string)
    ensures FirstSpace(s).Some? ==> s == Head(s) + " " + t
    ensures FirstSpace(s).None? ==> t == s
  {
    match FirstSpace(s)
    case Some(k) => s[k + 1..]
    case None => s
  }

  /** The head of `a + " " + b` is `a` when `a` holds no space. */
  lemma {:induction false} HeadOfJoin(a: string, b: string)
    requires ' ' !in a
    ensures FirstSpace(a + " " + b) == Some(|a|)
    ensures Head(a + " " + b) == a
  {
    if |a| > 0 {
      assert (a + " " + b)[1..] == a[1..] + " " + b;
      HeadOfJoin(a[1..], b);
    }
  }
}
