/**
 * The tuning-file loader of headers/properties.hpp. Every line is split at
 * its first space; the text before it is the key, and the key decides which
 * field of the Properties record is assigned. Six keys are per-second rates
 * and are stored divided by the target frame rate; the others are stored
 * as read. CAM_EDGES carries four numbers and is handled on its own.
 *
 * `std::stof` is a parameter of the loader: it turns the text after the key
 * (including the separating space, which stof skips) into a number.
 */
module Config {
  import opened Common

  /** The Properties struct (headers/properties.hpp:9-30). */
  datatype Properties = Properties(
    hAccel: real,
    hCoeff: real,
    hOpposite: real,
    hAir: real,
    hVelMin: real,
    hVelMax: real,
    gravity: real,
    vAccel: real,
    vHold: real,
    vSafe: real,
    vVelCut: real,
    vVelMax: real,
    gap: real,
    camType: int,
    camUpperLeft: Vec2,
    camLowerRight: Vec2,
    cam1UpperLeft: Vec2,
    cam1LowerRight: Vec2,
    camDrift: real)

  /** std::stof over the text of a value. */
  type Stof = string -> real

  /**
   * Why a line stops the loader: a line whose key is not CAM_EDGES and
   * that holds no space makes `input.substr(splitter, ...)` start at npos,
   * which throws std::out_of_range.
   */
  datatype LoadError = MissingValue(line: string)

  /** The scalar fields the dispatch chain can assign. */
  datatype Field =
    | HAccel | HCoeff | HOpposite | HAir | MinHVel | MaxHVel | Gravity
    | VAccel | VHold | VSafe | CutVVel | MaxVVel | Gap | CamDrift

  /** The key spelling of each field in the properties file. */
  function KeyOf(f: Field): string
  {
    match f
    case HAccel => "H_ACCEL"
    case HCoeff => "H_COEFF"
    case HOpposite => "H_OPPOSITE"
    case HAir => "H_AIR"
    case MinHVel => "MIN_H_VEL"
    case MaxHVel => "MAX_H_VEL"
    case Gravity => "GRAVITY"
    case VAccel => "V_ACCEL"
    case VHold => "V_HOLD"
    case VSafe => "V_SAFE"
    case CutVVel => "CUT_V_VEL"
    case MaxVVel => "MAX_V_VEL"
    case Gap => "GAP"
    case CamDrift => "CAM_DRIFT"
  }

  /** The per-second quantities: these are stored divided by the frame rate. */
  predicate PerSecond(f: Field)
  {
    f in {MaxHVel, Gravity, VAccel, CutVVel, MaxVVel, CamDrift}
  }

  function Get(p: Properties, f: Field): real
  {
    match f
    case HAccel => p.hAccel
    case HCoeff => p.hCoeff
    case HOpposite => p.hOpposite
    case HAir => p.hAir
    case MinHVel => p.hVelMin
    case MaxHVel => p.hVelMax
    case Gravity => p.gravity
    case VAccel => p.vAccel
    case VHold => p.vHold
    case VSafe => p.vSafe
    case CutVVel => p.vVelCut
    case MaxVVel => p.vVelMax
    case Gap => p.gap
    case CamDrift => p.camDrift
  }

  /**
   * Assigning one field: that field reads back the new value, every other
   * field keeps its value, and the camera fields that have no key are
   * untouched.
   */
  function Set(p: Properties, f: Field, v: real): (r: Properties)
    ensures Get(r, f) == v
    ensures forall g :: g != f ==> Get(r, g) == Get(p, g)
    ensures r.camType == p.camType && r.camUpperLeft == p.camUpperLeft && r.camLowerRight == p.camLowerRight
    ensures r.cam1UpperLeft == p.cam1UpperLeft && r.cam1LowerRight == p.cam1LowerRight
  {
    match f
    case HAccel => p.(hAccel := v)
    case HCoeff => p.(hCoeff := v)
    case HOpposite => p.(hOpposite := v)
    case HAir => p.(hAir := v)
    case MinHVel => p.(hVelMin := v)
    case MaxHVel => p.(hVelMax := v)
    case Gravity => p.(gravity := v)
    case VAccel => p.(vAccel := v)
    case VHold => p.(vHold := v)
    case VSafe => p.(vSafe := v)
    case CutVVel => p.(vVelCut := v)
    case MaxVVel => p.(vVelMax := v)
    case Gap => p.(gap := v)
    case CamDrift => p.(camDrift := v)
  }

  /**
   * One iteration of the getline loop (headers/properties.hpp:43-95), as the
   * source writes it: the CAM_EDGES branch, then the generic value read, then
   * the chain of key comparisons.
   */
  function ApplyLine(p: Properties, line: string, targetFps: int, stof: Stof): (r: Result<Properties, LoadError>)
    requires targetFps != 0
    ensures r.Err? <==> LacksValue(line)
    ensures r.Ok? ==> r.value.camType == p.camType && r.value.cam1UpperLeft == p.cam1UpperLeft
                      && r.value.cam1LowerRight == p.cam1LowerRight
  {
    var key := Head(line);
    if key == "CAM_EDGES" then
      var edges1 := Rest(line);
      var edges2 := Rest(edges1);
      var edges3 := Rest(edges2);
      Ok(p.(camUpperLeft := Vec2(stof(Head(edges1)), stof(Head(edges2))),
            camLowerRight := Vec2(stof(Head(edges3)), stof(Rest(edges3)))))
    else
      match FirstSpace(line)
      case None => Err(MissingValue(line))
      case Some(k) => Ok(Dispatch(p, key, stof(line[k..]), targetFps))
  }

  /** The chain of key comparisons (headers/properties.hpp:67-95). */
  function Dispatch(p: Properties, key: string, value: real, targetFps: int): (r: Properties)
    requires targetFps != 0
    ensures r.camType == p.camType && r.cam1UpperLeft == p.cam1UpperLeft && r.cam1LowerRight == p.cam1LowerRight
    ensures r.camUpperLeft == p.camUpperLeft && r.camLowerRight == p.camLowerRight
  {
    var fps := targetFps as real;
    if key == "H_ACCEL" then p.(hAccel := value)
    else if key == "H_COEFF" then p.(hCoeff := value)
    else if key == "H_OPPOSITE" then p.(hOpposite := value)
    else if key == "H_AIR" then p.(hAir := value)
    else if key == "MIN_H_VEL" then p.(hVelMin := value)
    else if key == "MAX_H_VEL" then p.(hVelMax := value / fps)
    else if key == "GRAVITY" then p.(gravity := value / fps)
    else if key == "V_ACCEL" then p.(vAccel := value / fps)
    else if key == "V_HOLD" then p.(vHold := value)
    else if key == "V_SAFE" then p.(vSafe := value)
    else if key == "CUT_V_VEL" then p.(vVelCut := value / fps)
    else if key == "MAX_V_VEL" then p.(vVelMax := value / fps)
    else if key == "GAP" then p.(gap := value)
    else if key == "CAM_DRIFT" then p.(camDrift := value / fps)
    else p
  }

  /** A line that makes the loader throw: its key is not CAM_EDGES and it has no space. */
  predicate LacksValue(line: string)
  {
    Head(line) != "CAM_EDGES" && ' ' !in line
  }

  /** The value a known key stores: raw, or divided by the frame rate for a per-second key. */
  function Stored(f: Field, text: string, targetFps: int, stof: Stof): real
    requires targetFps != 0
  {
    if PerSecond(f) then stof(text) / targetFps as real else stof(text)
  }

  lemma KeysAreDistinct(f: Field, g: Field)
    ensures KeyOf(f) == KeyOf(g) ==> f == g
    ensures ' ' !in KeyOf(f) && KeyOf(f) != "CAM_EDGES"
  {
  }

  /**
   * The dispatch chain agrees with the field table: the line
   * `KEY value` assigns exactly the field spelled KEY, with the value
   * divided by the frame rate for the six per-second keys and raw for the
   * other eight (H_ACCEL included), and leaves every other field as it was.
   */
  lemma {:induction false} KnownKeyAssignsItsField(p: Properties, f: Field, value: string, targetFps: int, stof: Stof)
    requires targetFps != 0
    ensures ApplyLine(p, KeyOf(f) + " " + value, targetFps, stof)
      == Ok(Set(p, f, Stored(f, " " + value, targetFps, stof)))
  {
    var key := KeyOf(f);
    KeysAreDistinct(f, f);
    HeadOfJoin(key, value);
    DropPrefix(key, " " + value);
    assert key + " " + value == key + (" " + value);
    DispatchKnownKey(p, f, stof(" " + value), targetFps);
  }

  /** The comparison chain reaches the branch of the field whose key it is given. */
  lemma DispatchKnownKey(p: Properties, f: Field, value: real, targetFps: int)
    requires targetFps != 0
    ensures Dispatch(p, KeyOf(f), value, targetFps)
      == Set(p, f, if PerSecond(f) then value / targetFps as real else value)
  {
    match f
    case HAccel =>
    case HCoeff =>
    case HOpposite =>
    case HAir =>
    case MinHVel =>
    case MaxHVel =>
    case Gravity =>
    case VAccel =>
    case VHold =>
    case VSafe =>
    case CutVVel =>
    case MaxVVel =>
    case Gap =>
    case CamDrift =>
  }

  /** A line whose key is none of the known ones leaves every field unchanged. */
  lemma {:induction false} UnknownKeyChangesNothing(p: Properties, key: string, value: string, targetFps: int, stof: Stof)
    requires targetFps != 0
    requires ' ' !in key && key != "CAM_EDGES"
    requires forall f :: KeyOf(f) != key
    ensures ApplyLine(p, key + " " + value, targetFps, stof) == Ok(p)
  {
    HeadOfJoin(key, value);
    DispatchIgnoresUnknownKey(p, key, stof((key + " " + value)[|key|..]), targetFps);
  }

  lemma DispatchIgnoresUnknownKey(p: Properties, key: string, value: real, targetFps: int)
    requires targetFps != 0
    requires forall f :: KeyOf(f) != key
    ensures Dispatch(p, key, value, targetFps) == p
  {
    assert KeyOf(HAccel) != key && KeyOf(HCoeff) != key && KeyOf(HOpposite) != key && KeyOf(HAir) != key;
    assert KeyOf(MinHVel) != key && KeyOf(MaxHVel) != key && KeyOf(Gravity) != key && KeyOf(VAccel) != key;
    assert KeyOf(VHold) != key && KeyOf(VSafe) != key && KeyOf(CutVVel) != key && KeyOf(MaxVVel) != key;
    assert KeyOf(Gap) != key && KeyOf(CamDrift) != key;
  }

  lemma DropPrefix<T>(a: seq<T>, b: seq<T>)
    ensures (a + b)[|a|..] == b
  {
  }

  /** CAM_EDGES takes its four numbers, separated by single spaces, in reading order. */
  lemma CamEdgesReadsFourNumbers(p: Properties, a: string, b: string, c: string, d: string, targetFps: int, stof: Stof)
    requires targetFps != 0
    requires ' ' !in a && ' ' !in b && ' ' !in c
    ensures ApplyLine(p, "CAM_EDGES " + a + " " + b + " " + c + " " + d, targetFps, stof)
      == Ok(p.(camUpperLeft := Vec2(stof(a), stof(b)), camLowerRight := Vec2(stof(c), stof(d))))
  {
    var line := "CAM_EDGES " + a + " " + b + " " + c + " " + d;
    var e1, e2, e3 := a + " " + b + " " + c + " " + d, b + " " + c + " " + d, c + " " + d;
    assert line == "CAM_EDGES" + " " + e1;
    assert e1 == a + " " + e2;
    assert e2 == b + " " + e3;
    HeadOfJoin("CAM_EDGES", e1);
    HeadOfJoin(a, e2);
    HeadOfJoin(b, e3);
    HeadOfJoin(c, d);
  }

  /** When a key repeats, the second line overwrites what the first stored. */
  lemma {:induction false} LaterLineWins(p: Properties, f: Field, first: string, second: string, targetFps: int, stof: Stof)
    requires targetFps != 0
    ensures ApplyLine(p, KeyOf(f) + " " + first, targetFps, stof).Ok?
    ensures ApplyLine(ApplyLine(p, KeyOf(f) + " " + first, targetFps, stof).value, KeyOf(f) + " " + second, targetFps, stof)
      == ApplyLine(p, KeyOf(f) + " " + second, targetFps, stof)
  {
    KnownKeyAssignsItsField(p, f, first, targetFps, stof);
    var p1 := Set(p, f, Stored(f, " " + first, targetFps, stof));
    KnownKeyAssignsItsField(p1, f, second, targetFps, stof);
    KnownKeyAssignsItsField(p, f, second, targetFps, stof);
    SetTwice(p, f, Stored(f, " " + first, targetFps, stof), Stored(f, " " + second, targetFps, stof));
  }

  /** The key of `line` is the one of field `f`. */
  predicate NamesField(line: string, f: Field)
  {
    Head(line) == KeyOf(f)
  }

  /** The index of the last line whose key is the one of field `f`, if any. */
  function LastLineFor(lines: seq<string>, f: Field): (r: Option<nat>)
    ensures r.Some? ==> r.value < |lines| && NamesField(lines[r.value], f)
    ensures r.Some? ==> forall j :: r.value < j < |lines| ==> !NamesField(lines[j], f)
    ensures r.None? ==> forall j :: 0 <= j < |lines| ==> !NamesField(lines[j], f)
  {
    if |lines| == 0 then None
    else if NamesField(lines[|lines| - 1], f) then Some(|lines| - 1)
    else
      var r := LastLineFor(lines[..|lines| - 1], f);
      assert forall j :: 0 <= j < |lines| - 1 ==> lines[..|lines| - 1][j] == lines[j];
      r
  }

  /**
   * Over a whole file that loads, each field holds what the last line with
   * its key stored (the text after the key, read as a number and divided
   * by the frame rate for a per-second key), whatever other keys and
   * CAM_EDGES lines come between; a field whose key no line names keeps
   * its initial value.
   */
  lemma {:induction false} LastLineDecides(lines: seq<string>, targetFps: int, init: Properties, stof: Stof, f: Field, q: Properties)
    requires targetFps != 0
    requires LoadSpec(lines, targetFps, init, stof) == Ok(q)
    ensures LastLineFor(lines, f).None? ==> Get(q, f) == Get(init, f)
    ensures LastLineFor(lines, f).Some? ==>
      var line := lines[LastLineFor(lines, f).value];
      Get(q, f) == Stored(f, line[|KeyOf(f)|..], targetFps, stof)
  {
    if |lines| > 0 {
      var n := |lines| - 1;
      var before := lines[..n];
      var p0 := LoadSpec(before, targetFps, init, stof).value;
      if NamesField(lines[n], f) {
        OwnKeyLine(p0, lines[n], f, targetFps, stof);
      } else {
        LastLineDecides(before, targetFps, init, stof, f, p0);
        OtherKeyLine(p0, lines[n], f, targetFps, stof);
        LastLineSkips(lines, f);
        if LastLineFor(before, f).Some? {
          var j := LastLineFor(before, f).value;
          assert before[j] == lines[j];
        }
      }
    }
  }

  /** A last line with another key does not change which line is the last for `f`. */
  lemma LastLineSkips(lines: seq<string>, f: Field)
    requires |lines| > 0 && !NamesField(lines[|lines| - 1], f)
    ensures LastLineFor(lines, f) == LastLineFor(lines[..|lines| - 1], f)
  {
  }

  /** A line that loads and carries the key of `f` stores the text after that key in `f`. */
  lemma OwnKeyLine(p: Properties, line: string, f: Field, targetFps: int, stof: Stof)
    requires targetFps != 0
    requires Head(line) == KeyOf(f) && ApplyLine(p, line, targetFps, stof).Ok?
    ensures ApplyLine(p, line, targetFps, stof) == Ok(Set(p, f, Stored(f, line[|KeyOf(f)|..], targetFps, stof)))
  {
    KeysAreDistinct(f, f);
    var k := FirstSpace(line).value;
    DispatchKnownKey(p, f, stof(line[k..]), targetFps);
  }

  /** A line that loads and carries another key, or CAM_EDGES, leaves `f` as it was. */
  lemma OtherKeyLine(p: Properties, line: string, f: Field, targetFps: int, stof: Stof)
    requires targetFps != 0
    requires Head(line) != KeyOf(f) && ApplyLine(p, line, targetFps, stof).Ok?
    ensures Get(ApplyLine(p, line, targetFps, stof).value, f) == Get(p, f)
  {
    if Head(line) != "CAM_EDGES" {
      var k := FirstSpace(line).value;
      DispatchOtherField(p, Head(line), stof(line[k..]), targetFps, f);
    }
  }

  /** The comparison chain leaves alone every field whose key it is not given. */
  lemma DispatchOtherField(p: Properties, key: string, value: real, targetFps: int, f: Field)
    requires targetFps != 0
    requires key != KeyOf(f)
    ensures Get(Dispatch(p, key, value, targetFps), f) == Get(p, f)
  {
    if g :| KeyOf(g) == key {
      DispatchKnownKey(p, g, value, targetFps);
    } else {
      DispatchIgnoresUnknownKey(p, key, value, targetFps);
    }
  }

  lemma SetTwice(p: Properties, f: Field, u: real, v: real)
    ensures Set(Set(p, f, u), f, v) == Set(p, f, v)
  {
  }

  /** The whole file read line by line; the first throwing line ends the load. */
  function LoadSpec(lines: seq<string>, targetFps: int, init: Properties, stof: Stof): Result<Properties, LoadError>
    requires targetFps != 0
  {
    if |lines| == 0 then Ok(init)
    else
      match LoadSpec(lines[..|lines| - 1], targetFps, init, stof)
      case Err(e) => Err(e)
      case Ok(p) => ApplyLine(p, lines[|lines| - 1], targetFps, stof)
  }

  /**
   * LoadProperties (headers/properties.hpp:32-101). The struct starts with
   * whatever `init` holds (the source leaves it uninitialised); the file is
   * given as its lines.
   */
  method LoadProperties(lines: seq<string>, targetFps: int, init: Properties, stof: Stof)
    returns (r: Result<Properties, LoadError>)
    requires targetFps != 0
    ensures r == LoadSpec(lines, targetFps, init, stof)
    ensures r.Err? <==> exists i :: 0 <= i < |lines| && LacksValue(lines[i])
    ensures r.Ok? ==> r.value.camType == init.camType && r.value.cam1UpperLeft == init.cam1UpperLeft
                      && r.value.cam1LowerRight == init.cam1LowerRight
  {
    var properties := init;
    var i := 0;
    while i < |lines|
      invariant 0 <= i <= |lines|
      invariant LoadSpec(lines[..i], targetFps, init, stof) == Ok(properties)
    {
      assert lines[..i + 1][..i] == lines[..i];
      var step := ApplyLine(properties, lines[i], targetFps, stof);
      if step.Err? {
        r := step;
        LoadStopsAtError(lines, i + 1, targetFps, init, stof);
        LoadOutcome(lines, targetFps, init, stof);
        return;
      }
      properties := step.value;
      i := i + 1;
    }
    assert lines[..i] == lines;
    r := Ok(properties);
    LoadOutcome(lines, targetFps, init, stof);
  }

  /** What the whole load promises: it throws exactly on a line lacking a value, and never sets the keyless camera slots. */
  lemma LoadOutcome(lines: seq<string>, targetFps: int, init: Properties, stof: Stof)
    requires targetFps != 0
    ensures LoadSpec(lines, targetFps, init, stof).Err? <==> exists i :: 0 <= i < |lines| && LacksValue(lines[i])
    ensures LoadSpec(lines, targetFps, init, stof).Ok? ==>
      var p := LoadSpec(lines, targetFps, init, stof).value;
      p.camType == init.camType && p.cam1UpperLeft == init.cam1UpperLeft && p.cam1LowerRight == init.cam1LowerRight
  {
    NeverAssignedCameraSlots(lines, targetFps, init, stof);
    FailsIffLineLacksValue(lines, targetFps, init, stof);
  }

  /** Once a prefix of the file throws, the whole load throws the same error. */
  lemma {:induction false} LoadStopsAtError(lines: seq<string>, k: nat, targetFps: int, init: Properties, stof: Stof)
    requires targetFps != 0 && k <= |lines|
    requires LoadSpec(lines[..k], targetFps, init, stof).Err?
    ensures LoadSpec(lines, targetFps, init, stof) == LoadSpec(lines[..k], targetFps, init, stof)
    decreases |lines| - k
  {
    if k < |lines| {
      assert lines[..k + 1][..k] == lines[..k];
      LoadStopsAtError(lines, k + 1, targetFps, init, stof);
    } else {
      assert lines[..k] == lines;
    }
  }

  /** The load throws exactly when some line has a non-CAM_EDGES key and no space. */
  lemma {:induction false} FailsIffLineLacksValue(lines: seq<string>, targetFps: int, init: Properties, stof: Stof)
    requires targetFps != 0
    ensures LoadSpec(lines, targetFps, init, stof).Err? <==> SomeLacksValue(lines)
  {
    if |lines| > 0 {
      FailsIffLineLacksValue(lines[..|lines| - 1], targetFps, init, stof);
      SomeLineLacksValue(lines);
    }
  }

  /** Some line of the file has a non-CAM_EDGES key and no space. */
  predicate SomeLacksValue(lines: seq<string>)
  {
    exists i :: 0 <= i < |lines| && LacksValue(lines[i])
  }

  /** A line lacking a value lies in the file exactly when it lies in its front or is the last line. */
  lemma SomeLineLacksValue(lines: seq<string>)
    requires |lines| > 0
    ensures SomeLacksValue(lines) <==> SomeLacksValue(lines[..|lines| - 1]) || LacksValue(lines[|lines| - 1])
  {
    var front := lines[..|lines| - 1];
    if SomeLacksValue(front) {
      var i :| 0 <= i < |front| && LacksValue(front[i]);
      assert lines[i] == front[i];
    }
    if SomeLacksValue(lines) {
      var i :| 0 <= i < |lines| && LacksValue(lines[i]);
      if i < |front| {
        assert front[i] == lines[i];
      }
    }
  }

  /** camType, cam1UpperLeft and cam1LowerRight have no key: the loader never assigns them. */
  lemma {:induction false} NeverAssignedCameraSlots(lines: seq<string>, targetFps: int, init: Properties, stof: Stof)
    requires targetFps != 0
    ensures LoadSpec(lines, targetFps, init, stof).Ok? ==>
      var p := LoadSpec(lines, targetFps, init, stof).value;
      p.camType == init.camType && p.cam1UpperLeft == init.cam1UpperLeft && p.cam1LowerRight == init.cam1LowerRight
  {
    if |lines| > 0 {
      NeverAssignedCameraSlots(lines[..|lines| - 1], targetFps, init, stof);
    }
  }
}
