/**
 * The measurement arithmetic and contour filters of server/vision.py.
 *
 * Contours come from the image library and are input records here, holding
 * what the library reports about each: its area, its enclosing circle, its
 * perimeter, how many corners its polygon approximation has and its
 * bounding box. Whether a contour is round enough (a test on pi, area and
 * perimeter) is an input flag. Floating-point values are exact reals.
 */
module Vision {
  import opened Wrappers

  datatype Point = Point(x: int, y: int)

  /** Python's int() on a float: truncation toward zero. */
  function Trunc(r: real): (i: int)
    ensures r >= 0.0 ==> i as real <= r < i as real + 1.0
    ensures r < 0.0 ==> i as real - 1.0 < r <= i as real
  {
    if r >= 0.0 then r.Floor else -((-r).Floor)
  }

  /** What the image library reports about one contour. */
  datatype Contour = Contour(area: real, circleX: real, circleY: real, circleRadius: real, perimeter: real,
                             roundEnough: bool, corners: nat, boxX: int, boxY: int, boxW: int, boxH: int)

  /** A detection: a ball has a radius, a box has a size. */
  datatype Obj =
    | Ball(center: Point, radius: int, area: real)
    | Box(center: Point, width: int, height: int, area: real)

  /** The detector's thresholds; min_area follows a slider, the radii are fixed. */
  datatype Params = Params(minArea: int, minRadius: int, maxRadius: int)

  function DefaultParams(): Params
  {
    Params(100, 10, 100)
  }

  /** The tests a contour must pass to become a ball. */
  predicate KeptAsBall(p: Params, c: Contour)
  {
    c.area >= p.minArea as real &&
    p.minRadius <= Trunc(c.circleRadius) <= p.maxRadius &&
    c.perimeter != 0.0 &&
    c.roundEnough
  }

  function BallOf(c: Contour): Obj
  {
    Ball(Point(Trunc(c.circleX), Trunc(c.circleY)), Trunc(c.circleRadius), c.area)
  }

  /** The tests a contour must pass to become a box: twice the area, and four corners. */
  predicate KeptAsBox(p: Params, c: Contour)
  {
    c.area >= (2 * p.minArea) as real && c.corners == 4
  }

  function BoxOf(c: Contour): Obj
  {
    Box(Point(Trunc(c.boxX as real + c.boxW as real / 2.0), Trunc(c.boxY as real + c.boxH as real / 2.0)), c.boxW, c.boxH, c.area)
  }

  /** The balls among the contours, in contour order. */
  function Balls(p: Params, cs: seq<Contour>): (r: seq<Obj>)
    ensures |r| <= |cs|
    ensures forall k :: 0 <= k < |r| ==> r[k].Ball? && p.minRadius <= r[k].radius <= p.maxRadius && r[k].area >= p.minArea as real
    decreases |cs|
  {
    if cs == [] then []
    else if KeptAsBall(p, cs[|cs| - 1]) then Balls(p, cs[..|cs| - 1]) + [BallOf(cs[|cs| - 1])]
    else Balls(p, cs[..|cs| - 1])
  }

  /** The boxes among the contours, in contour order. */
  function Boxes(p: Params, cs: seq<Contour>): (r: seq<Obj>)
    ensures |r| <= |cs|
    ensures forall k :: 0 <= k < |r| ==> r[k].Box? && r[k].area >= (2 * p.minArea) as real
    decreases |cs|
  {
    if cs == [] then []
    else if KeptAsBox(p, cs[|cs| - 1]) then Boxes(p, cs[..|cs| - 1]) + [BoxOf(cs[|cs| - 1])]
    else Boxes(p, cs[..|cs| - 1])
  }

  /** Every kept contour appears as a ball, and every ball comes from a kept contour. */
  lemma {:induction false} BallsExactly(p: Params, cs: seq<Contour>)
    ensures forall i :: 0 <= i < |cs| && KeptAsBall(p, cs[i]) ==> BallOf(cs[i]) in Balls(p, cs)
    ensures forall b :: b in Balls(p, cs) ==> exists i :: 0 <= i < |cs| && KeptAsBall(p, cs[i]) && b == BallOf(cs[i])
    decreases |cs|
  {
    if cs != [] {
      var init := cs[..|cs| - 1];
      BallsExactly(p, init);
      assert forall i :: 0 <= i < |init| ==> init[i] == cs[i];
    }
  }

  /** Every kept contour appears as a box, and every box comes from a kept contour. */
  lemma {:induction false} BoxesExactly(p: Params, cs: seq<Contour>)
    ensures forall i :: 0 <= i < |cs| && KeptAsBox(p, cs[i]) ==> BoxOf(cs[i]) in Boxes(p, cs)
    ensures forall b :: b in Boxes(p, cs) ==> exists i :: 0 <= i < |cs| && KeptAsBox(p, cs[i]) && b == BoxOf(cs[i])
    decreases |cs|
  {
    if cs != [] {
      var init := cs[..|cs| - 1];
      BoxesExactly(p, init);
      assert forall i :: 0 <= i < |init| ==> init[i] == cs[i];
    }
  }

  /** _find_circles: the loop over the contours, skipping each that fails a test. */
  method FindCircles(p: Params, contours: seq<Contour>) returns (circles: seq<Obj>)
    ensures circles == Balls(p, contours)
  {
    circles := [];
    for k := 0 to |contours|
      invariant circles == Balls(p, contours[..k])
    {
      assert contours[..k + 1][..k] == contours[..k];
      var c := contours[k];
      if c.area < p.minArea as real {
        continue;
      }
      var radius := Trunc(c.circleRadius);
      if radius < p.minRadius || radius > p.maxRadius {
        continue;
      }
      if c.perimeter == 0.0 {
        continue;
      }
      if !c.roundEnough {
        continue;
      }
      circles := circles + [Ball(Point(Trunc(c.circleX), Trunc(c.circleY)), radius, c.area)];
    }
    assert contours[..|contours|] == contours;
  }

  /** _find_rectangles: the loop over the contours, keeping the large four-cornered ones. */
  method FindRectangles(p: Params, contours: seq<Contour>) returns (rectangles: seq<Obj>)
    ensures rectangles == Boxes(p, contours)
  {
    rectangles := [];
    for k := 0 to |contours|
      invariant rectangles == Boxes(p, contours[..k])
    {
      assert contours[..k + 1][..k] == contours[..k];
      var c := contours[k];
      if c.area < (p.minArea * 2) as real {
        continue;
      }
      if c.corners == 4 {
        rectangles := rectangles + [BoxOf(c)];
      }
    }
    assert contours[..|contours|] == contours;
  }

  /** The four kinds of detection, in the order the measurement loop visits them. */
  datatype ObjType = RedBalls | GreenBalls | GreenBoxes | BlueBoxes

  const ObjTypes: seq<ObjType> := [RedBalls, GreenBalls, GreenBoxes, BlueBoxes]

  function TypeName(t: ObjType): string
  {
    match t
    case RedBalls => "red_balls"
    case GreenBalls => "green_balls"
    case GreenBoxes => "green_boxes"
    case BlueBoxes => "blue_boxes"
  }

  datatype Detections = Detections(redBalls: seq<Obj>, greenBalls: seq<Obj>, greenBoxes: seq<Obj>, blueBoxes: seq<Obj>)

  function ListOf(d: Detections, t: ObjType): seq<Obj>
  {
    match t
    case RedBalls => d.redBalls
    case GreenBalls => d.greenBalls
    case GreenBoxes => d.greenBoxes
    case BlueBoxes => d.blueBoxes
  }

  /** detect_objects: the red and green masks give balls, the green and blue masks give boxes. */
  function Detect(p: Params, red: seq<Contour>, green: seq<Contour>, blue: seq<Contour>): (d: Detections)
    ensures forall k :: 0 <= k < |d.redBalls| ==> d.redBalls[k].Ball?
    ensures forall k :: 0 <= k < |d.greenBalls| ==> d.greenBalls[k].Ball?
    ensures forall k :: 0 <= k < |d.greenBoxes| ==> d.greenBoxes[k].Box?
    ensures forall k :: 0 <= k < |d.blueBoxes| ==> d.blueBoxes[k].Box?
  {
    Detections(Balls(p, red), Balls(p, green), Boxes(p, green), Boxes(p, blue))
  }

  /** The measurement of one kind of detection that a key names. */
  datatype Field = Distance | OffsetX | OffsetY | NormalizedX | NormalizedY | Center

  /** A key of the measurement results. */
  datatype Key = TypeKey(objType: ObjType, field: Field) | BallsMidPoint | BallsOffsetX | BallsNormalizedOffset

  function FieldName(f: Field): string
  {
    match f
    case Distance => "distance"
    case OffsetX => "offset_x"
    case OffsetY => "offset_y"
    case NormalizedX => "normalized_x"
    case NormalizedY => "normalized_y"
    case Center => "center"
  }

  /** The key as the results dictionary spells it. */
  function KeyName(k: Key): string
  {
    match k
    case TypeKey(t, f) => TypeName(t) + "_" + FieldName(f)
    case BallsMidPoint => "balls_mid_point"
    case BallsOffsetX => "balls_offset_x"
    case BallsNormalizedOffset => "balls_normalized_offset"
  }

  datatype Value = Int(i: int) | Pt(p: Point) | Num(r: real)

  /** Helper: the kinds the measurement loop visits cover every kind. */
  lemma AllTypesListed()
    ensures forall t :: t in ObjTypes
  {
    forall t: ObjType
      ensures t in ObjTypes
    {
      match t
      case RedBalls => assert ObjTypes[0] == t;
      case GreenBalls => assert ObjTypes[1] == t;
      case GreenBoxes => assert ObjTypes[2] == t;
      case BlueBoxes => assert ObjTypes[3] == t;
    }
  }

  /** The midpoint of two centres, each coordinate floor-divided by two. */
  function MidPoint(a: Point, b: Point): (m: Point)
    ensures 2 * m.x <= a.x + b.x <= 2 * m.x + 1
    ensures 2 * m.y <= a.y + b.y <= 2 * m.y + 1
  {
    Point((a.x + b.x) / 2, (a.y + b.y) / 2)
  }

  /** A distance estimate can be computed: a ball's radius, or a box's area, is not zero. */
  predicate HasDistance(o: Obj)
  {
    if o.Ball? then o.radius != 0 else o.area != 0.0
  }

  function DistanceOf(o: Obj): real
    requires HasDistance(o)
  {
    if o.Ball? then (1000.0 / o.radius as real) * 10.0 else (50000.0 / o.area) * 5.0
  }

  /** Measuring the first detection of this kind divides by zero. */
  predicate FailsAt(d: Detections, t: ObjType, cx: int, cy: int)
  {
    ListOf(d, t) != [] && (cx == 0 || cy == 0 || !HasDistance(ListOf(d, t)[0]))
  }

  predicate DivisionByZero(d: Detections, cx: int, cy: int)
  {
    FailsAt(d, RedBalls, cx, cy) || FailsAt(d, GreenBalls, cx, cy) ||
    FailsAt(d, GreenBoxes, cx, cy) || FailsAt(d, BlueBoxes, cx, cy)
  }

  /** The six values the measurement loop computes for one detection. */
  datatype Entries = Entries(distance: Value, offsetX: Value, offsetY: Value, normalizedX: Value, normalizedY: Value, center: Value)

  /** The values for one detection, with the frame centre at (cx, cy). */
  function EntriesOf(o: Obj, cx: int, cy: int): Entries
    requires cx != 0 && cy != 0 && HasDistance(o)
  {
    var ox := o.center.x - cx;
    var oy := o.center.y - cy;
    Entries(Num(DistanceOf(o)), Int(ox), Int(oy), Num(ox as real / cx as real), Num(oy as real / cy as real), Pt(o.center))
  }

  function Get(e: Entries, f: Field): Value
  {
    match f
    case Distance => e.distance
    case OffsetX => e.offsetX
    case OffsetY => e.offsetY
    case NormalizedX => e.normalizedX
    case NormalizedY => e.normalizedY
    case Center => e.center
  }

  /** The value a field of a kind's entries takes, from its first detection, with the frame centre at (cx, cy). */
  function EntryValue(o: Obj, f: Field, cx: int, cy: int): Value
    requires cx != 0 && cy != 0 && HasDistance(o)
  {
    Get(EntriesOf(o, cx, cy), f)
  }

  /** The map after the six assignments of one loop pass for kind t. */
  function Written(m: map<Key, Value>, t: ObjType, e: Entries): map<Key, Value>
  {
    m[TypeKey(t, Distance) := e.distance]
     [TypeKey(t, OffsetX) := e.offsetX]
     [TypeKey(t, OffsetY) := e.offsetY]
     [TypeKey(t, NormalizedX) := e.normalizedX]
     [TypeKey(t, NormalizedY) := e.normalizedY]
     [TypeKey(t, Center) := e.center]
  }

  /** The six assignments add t's keys, with their values, and leave every other key alone. */
  lemma WrittenKeys(m: map<Key, Value>, t: ObjType, e: Entries)
    ensures forall key :: key in Written(m, t, e) <==> key in m || (key.TypeKey? && key.objType == t)
    ensures forall key: Key :: key.TypeKey? && key.objType == t ==> Written(m, t, e)[key] == Get(e, key.field)
    ensures forall key :: key in m && !(key.TypeKey? && key.objType == t) ==> Written(m, t, e)[key] == m[key]
  {
    WrittenOwn(m, t, e);
  }

  lemma WrittenOwn(m: map<Key, Value>, t: ObjType, e: Entries)
    ensures forall key: Key :: key.TypeKey? && key.objType == t ==>
      key in Written(m, t, e) && Written(m, t, e)[key] == Get(e, key.field)
  {
    forall key: Key | key.TypeKey? && key.objType == t
      ensures key in Written(m, t, e) && Written(m, t, e)[key] == Get(e, key.field)
    {
      assert key == TypeKey(t, key.field);
      WrittenField(m, t, e, key.field);
    }
  }

  lemma WrittenField(m: map<Key, Value>, t: ObjType, e: Entries, f: Field)
    ensures TypeKey(t, f) in Written(m, t, e) && Written(m, t, e)[TypeKey(t, f)] == Get(e, f)
  {
    match f
    case Distance =>
    case OffsetX =>
    case OffsetY =>
    case NormalizedX =>
    case NormalizedY =>
    case Center =>
  }

  /** The six assignments write exactly the kind's entries over what was there. */
  lemma SixAssignments(m: map<Key, Value>, t: ObjType, e: Entries)
    ensures Written(m, t, e) == m + Written(map[], t, e)
  {
    WrittenKeys(m, t, e);
    WrittenKeys(map[], t, e);
  }

  /** The six entries for one kind of detection. */
  function TypeEntries(t: ObjType, o: Obj, cx: int, cy: int): (m: map<Key, Value>)
    requires cx != 0 && cy != 0 && HasDistance(o)
    ensures forall key :: key in m <==> key.TypeKey? && key.objType == t
    ensures forall key :: key in m ==> m[key] == EntryValue(o, key.field, cx, cy)
  {
    WrittenKeys(map[], t, EntriesOf(o, cx, cy));
    Written(map[], t, EntriesOf(o, cx, cy))
  }

  /** What the measurement loop has written after visiting the kinds in ts. */
  function Accumulated(d: Detections, ts: seq<ObjType>, cx: int, cy: int): (r: map<Key, Value>)
    requires forall t :: t in ts ==> !FailsAt(d, t, cx, cy)
    ensures forall key :: key in r ==>
      key.TypeKey? && key.objType in ts && ListOf(d, key.objType) != [] && !FailsAt(d, key.objType, cx, cy) &&
      r[key] == EntryValue(ListOf(d, key.objType)[0], key.field, cx, cy)
    ensures forall key: Key :: key.TypeKey? && key.objType in ts && ListOf(d, key.objType) != [] ==> key in r
    decreases |ts|
  {
    if ts == [] then map[]
    else
      var t := ts[|ts| - 1];
      assert t in ts && !FailsAt(d, t, cx, cy);
      var before := Accumulated(d, ts[..|ts| - 1], cx, cy);
      assert forall u :: u in ts <==> u in ts[..|ts| - 1] || u == t;
      if ListOf(d, t) != [] then before + TypeEntries(t, ListOf(d, t)[0], cx, cy) else before
  }

  /** The entries about the pair of balls, present only when both a red and a green ball were found. */
  function PairEntries(d: Detections, cx: int): (pair: map<Key, Value>)
    ensures BallsMidPoint in pair <==> d.redBalls != [] && d.greenBalls != [] && cx != 0
    ensures BallsOffsetX in pair <==> d.redBalls != [] && d.greenBalls != [] && cx != 0
    ensures BallsNormalizedOffset in pair <==> d.redBalls != [] && d.greenBalls != [] && cx != 0
    ensures forall key :: key in pair ==> !key.TypeKey?
    ensures d.redBalls != [] && d.greenBalls != [] && cx != 0 ==>
      var mid := MidPoint(d.redBalls[0].center, d.greenBalls[0].center);
      pair[BallsMidPoint] == Pt(mid) && pair[BallsOffsetX] == Int(mid.x - cx) &&
      pair[BallsNormalizedOffset] == Num((mid.x - cx) as real / cx as real)
  {
    if d.redBalls != [] && d.greenBalls != [] && cx != 0 then
      var mid := MidPoint(d.redBalls[0].center, d.greenBalls[0].center);
      map[BallsMidPoint := Pt(mid), BallsOffsetX := Int(mid.x - cx), BallsNormalizedOffset := Num((mid.x - cx) as real / cx as real)]
    else map[]
  }

  datatype ZeroDivisionError = ZeroDivisionError

  /**
   * calculate_offsets_and_distances: the entries of every kind that has a
   * detection, then those of the pair of balls; a zero divisor anywhere makes
   * the whole call fail.
   */
  function Measurements(d: Detections, frameWidth: int, frameHeight: int): (r: Result<map<Key, Value>, ZeroDivisionError>)
    ensures r.Err? <==> DivisionByZero(d, frameWidth / 2, frameHeight / 2)
  {
    var cx := frameWidth / 2;
    var cy := frameHeight / 2;
    if DivisionByZero(d, cx, cy) then Err(ZeroDivisionError)
    else
      Ok(Accumulated(d, ObjTypes, cx, cy) + PairEntries(d, cx))
  }

  /** One pass of the measurement loop body: the six assignments for kind t. */
  method WriteEntries(m: map<Key, Value>, t: ObjType, o: Obj, cx: int, cy: int) returns (results: map<Key, Value>)
    requires cx != 0 && cy != 0 && HasDistance(o)
    ensures results == m + TypeEntries(t, o, cx, cy)
  {
    var offsetX := o.center.x - cx;
    var offsetY := o.center.y - cy;
    var normalizedX := offsetX as real / cx as real;
    var normalizedY := offsetY as real / cy as real;
    var distance := if o.Ball? then (1000.0 / o.radius as real) * 10.0 else (50000.0 / o.area) * 5.0;
    results := m;
    results := results[TypeKey(t, Distance) := Num(distance)];
    results := results[TypeKey(t, OffsetX) := Int(offsetX)];
    results := results[TypeKey(t, OffsetY) := Int(offsetY)];
    results := results[TypeKey(t, NormalizedX) := Num(normalizedX)];
    results := results[TypeKey(t, NormalizedY) := Num(normalizedY)];
    results := results[TypeKey(t, Center) := Pt(o.center)];
    assert Entries(Num(distance), Int(offsetX), Int(offsetY), Num(normalizedX), Num(normalizedY), Pt(o.center)) == EntriesOf(o, cx, cy);
    SixAssignments(m, t, EntriesOf(o, cx, cy));
  }

  /**
   * The loop of calculate_offsets_and_distances over the given kinds: the
   * entries of each kind that has a detection, or the first division by zero.
   */
  method MeasureKinds(d: Detections, kinds: seq<ObjType>, cx: int, cy: int) returns (r: Result<map<Key, Value>, ZeroDivisionError>)
    ensures r.Err? <==> exists k :: 0 <= k < |kinds| && FailsAt(d, kinds[k], cx, cy)
    ensures r.Ok? ==> (forall t :: t in kinds ==> !FailsAt(d, t, cx, cy)) && r.value == Accumulated(d, kinds, cx, cy)
  {
    var results: map<Key, Value> := map[];
    for i := 0 to |kinds|
      invariant forall k :: 0 <= k < i ==> !FailsAt(d, kinds[k], cx, cy)
      invariant forall t :: t in kinds[..i] ==> !FailsAt(d, t, cx, cy)
      invariant results == Accumulated(d, kinds[..i], cx, cy)
    {
      var t := kinds[i];
      assert kinds[..i + 1][..i] == kinds[..i];
      assert forall u :: u in kinds[..i + 1] <==> u in kinds[..i] || u == t;
      var objects := ListOf(d, t);
      if objects != [] {
        var o := objects[0];
        if cx == 0 || cy == 0 || !HasDistance(o) {
          return Err(ZeroDivisionError);
        }
        results := WriteEntries(results, t, o, cx, cy);
      }
    }
    assert kinds[..|kinds|] == kinds;
    return Ok(results);
  }

  /** The tail of calculate_offsets_and_distances: the entries of the pair of balls, when both were found. */
  method WritePairEntries(m: map<Key, Value>, d: Detections, cx: int) returns (results: map<Key, Value>)
    requires d.redBalls != [] ==> cx != 0
    ensures results == m + PairEntries(d, cx)
  {
    results := m;
    if d.redBalls != [] && d.greenBalls != [] {
      var red := d.redBalls[0].center;
      var green := d.greenBalls[0].center;
      var mid := Point((red.x + green.x) / 2, (red.y + green.y) / 2);
      var ballsOffsetX := mid.x - cx;
      var ballsNormalizedOffset := ballsOffsetX as real / cx as real;
      results := results[BallsMidPoint := Pt(mid)];
      results := results[BallsOffsetX := Int(ballsOffsetX)];
      results := results[BallsNormalizedOffset := Num(ballsNormalizedOffset)];
    }
  }

  /**
   * calculate_offsets_and_distances: the loop over the four kinds, then the
   * entries of the pair of balls.
   */
  method CalculateOffsetsAndDistances(d: Detections, frameWidth: int, frameHeight: int)
    returns (r: Result<map<Key, Value>, ZeroDivisionError>)
    ensures r == Measurements(d, frameWidth, frameHeight)
  {
    var cx := frameWidth / 2;
    var cy := frameHeight / 2;
    r := MeasureKinds(d, ObjTypes, cx, cy);
    if r.Err? {
      var k :| 0 <= k < |ObjTypes| && FailsAt(d, ObjTypes[k], cx, cy);
      var t := ObjTypes[k];
      assert DivisionByZero(d, cx, cy) by {
        match t
        case RedBalls =>
        case GreenBalls =>
        case GreenBoxes =>
        case BlueBoxes =>
      }
      return Err(ZeroDivisionError);
    }
    assert RedBalls in ObjTypes && GreenBalls in ObjTypes && GreenBoxes in ObjTypes && BlueBoxes in ObjTypes;
    assert !DivisionByZero(d, cx, cy);
    var results := WritePairEntries(r.value, d, cx);
    r := Ok(results);
  }

  /**
   * A kind's keys are present exactly when it has a detection, and each is
   * measured from its first one against the frame centre.
   */
  lemma MeasurementsKind(d: Detections, frameWidth: int, frameHeight: int, t: ObjType, f: Field)
    requires Measurements(d, frameWidth, frameHeight).Ok?
    ensures ListOf(d, t) != [] ==> !FailsAt(d, t, frameWidth / 2, frameHeight / 2)
    ensures var r := Measurements(d, frameWidth, frameHeight).value;
      (TypeKey(t, f) in r <==> ListOf(d, t) != []) &&
      (ListOf(d, t) != [] ==> forall g: Field ::
        TypeKey(t, g) in r && r[TypeKey(t, g)] == EntryValue(ListOf(d, t)[0], g, frameWidth / 2, frameHeight / 2))
  {
    var perType := MeasurementsSplit(d, frameWidth, frameHeight);
    var pair := PairEntries(d, frameWidth / 2);
    AllTypesListed();
    AccumulatedKind(d, ObjTypes, frameWidth / 2, frameHeight / 2, t, f);
  }

  /**
   * The entries of one detection, field by field: its offsets from the frame
   * centre, their ratios to the half frame size, its centre and its distance.
   */
  lemma EntryValues(o: Obj, cx: int, cy: int)
    requires cx != 0 && cy != 0 && HasDistance(o)
    ensures EntryValue(o, OffsetX, cx, cy) == Int(o.center.x - cx)
    ensures EntryValue(o, OffsetY, cx, cy) == Int(o.center.y - cy)
    ensures EntryValue(o, Center, cx, cy) == Pt(o.center)
    ensures EntryValue(o, Distance, cx, cy) == Num(DistanceOf(o))
    ensures EntryValue(o, NormalizedX, cx, cy) == Num((o.center.x - cx) as real / cx as real)
    ensures EntryValue(o, NormalizedY, cx, cy) == Num((o.center.y - cy) as real / cy as real)
  {
  }

  /** Visiting the kinds in ts writes a kind's entries exactly when it is in ts and has a detection. */
  lemma AccumulatedKind(d: Detections, ts: seq<ObjType>, cx: int, cy: int, t: ObjType, f: Field)
    requires forall u :: u in ts ==> !FailsAt(d, u, cx, cy)
    requires t in ts
    ensures var r := Accumulated(d, ts, cx, cy);
      (TypeKey(t, f) in r <==> ListOf(d, t) != []) &&
      (ListOf(d, t) != [] ==>
        forall g: Field :: TypeKey(t, g) in r && r[TypeKey(t, g)] == EntryValue(ListOf(d, t)[0], g, cx, cy))
  {
    var r := Accumulated(d, ts, cx, cy);
    if ListOf(d, t) != [] {
      forall g: Field
        ensures TypeKey(t, g) in r && r[TypeKey(t, g)] == EntryValue(ListOf(d, t)[0], g, cx, cy)
      {
        assert TypeKey(t, g).objType == t;
      }
    }
  }

  /**
   * The pair keys are present exactly when there are both a red and a green
   * ball, and give their floor-divided midpoint and its offset from the centre.
   */
  lemma MeasurementsPair(d: Detections, frameWidth: int, frameHeight: int)
    requires Measurements(d, frameWidth, frameHeight).Ok?
    ensures var r := Measurements(d, frameWidth, frameHeight).value;
      (BallsMidPoint in r <==> d.redBalls != [] && d.greenBalls != []) &&
      (BallsOffsetX in r <==> d.redBalls != [] && d.greenBalls != []) &&
      (BallsNormalizedOffset in r <==> d.redBalls != [] && d.greenBalls != []) &&
      (d.redBalls != [] && d.greenBalls != [] ==>
        var mid := MidPoint(d.redBalls[0].center, d.greenBalls[0].center);
        r[BallsMidPoint] == Pt(mid) && r[BallsOffsetX] == Int(mid.x - frameWidth / 2))
  {
    var perType := MeasurementsSplit(d, frameWidth, frameHeight);
  }


  /** An Ok result is the per-kind entries followed by the pair entries. */
  lemma MeasurementsSplit(d: Detections, frameWidth: int, frameHeight: int) returns (perType: map<Key, Value>)
    requires Measurements(d, frameWidth, frameHeight).Ok?
    ensures forall t :: t in ObjTypes ==> !FailsAt(d, t, frameWidth / 2, frameHeight / 2)
    ensures perType == Accumulated(d, ObjTypes, frameWidth / 2, frameHeight / 2)
    ensures Measurements(d, frameWidth, frameHeight).value == perType + PairEntries(d, frameWidth / 2)
    ensures forall key :: key in perType ==> key.TypeKey?
    ensures d.redBalls != [] ==> frameWidth / 2 != 0
  {
    perType := Accumulated(d, ObjTypes, frameWidth / 2, frameHeight / 2);
    assert d.redBalls != [] ==> FailsAt(d, RedBalls, frameWidth / 2, frameHeight / 2) || frameWidth / 2 != 0;
  }

  /** A ball is measured by its radius, a box by its area. */
  lemma DistanceByShape(o: Obj)
    requires HasDistance(o)
    ensures o.Ball? ==> DistanceOf(o) == 10000.0 / o.radius as real
    ensures o.Box? ==> DistanceOf(o) == 250000.0 / o.area
  {
  }
}
