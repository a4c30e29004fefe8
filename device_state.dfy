// The device state of the PostScript graphics driver as a value, and the
// effect on it of each operation the model covers.

module DeviceState {
  import Wrappers
  import ClipStack

  /** The kind of shape being built, as in the driver's SHAPE enumeration. */
  datatype Shape = None | Line | Loop | Polygon | Points

  /** The integer the driver stores for a shape: NONE = 0, LINE = 1,
      LOOP = 2, POLYGON = 3, POINTS = 4. */
  function ShapeCode(s: Shape): (c: int)
    ensures 0 <= c <= 4
    ensures c == 0 <==> s == Shape.None
  {
    match s
    case None => 0
    case Line => 1
    case Loop => 2
    case Polygon => 3
    case Points => 4
  }

  /** The shape an integer stands for, if it stands for one. */
  function ShapeOf(c: int): (r: Wrappers.Option<Shape>)
    ensures r.Some? <==> 0 <= c <= 4
  {
    if c == 0 then Wrappers.Some(Shape.None)
    else if c == 1 then Wrappers.Some(Line)
    else if c == 2 then Wrappers.Some(Loop)
    else if c == 3 then Wrappers.Some(Polygon)
    else if c == 4 then Wrappers.Some(Points)
    else Wrappers.None
  }

  /** The arguments of one call to the precise text-placing routine. */
  datatype TextRequest = TextRequest(text: string, n: int, x: real, y: real)

  /** The fields of the driver the model covers. `shape` is kept as the
      integer the driver stores; `placed` lists, in order, the calls made to
      the precise text-placing routine. */
  datatype DriverState = DriverState(
    clip: ClipStack.Chain,
    gap: int,
    shape: int,
    interpolate: int,
    pagePolicy: int,
    placed: seq<TextRequest>)

  /** The shape field holds one of the SHAPE values. */
  predicate WellFormed(s: DriverState) {
    ShapeOf(s.shape).Some?
  }

  /** A driver with no clip frame and no shape being built. */
  predicate Idle(s: DriverState) {
    s.clip == [] && s.shape == ShapeCode(Shape.None)
  }

  /** `a` and `b` agree on every field except possibly `gap`. */
  predicate SameExceptGap(a: DriverState, b: DriverState) {
    a.(gap := b.gap) == b
  }

  // ---------------------------------------------------------------------
  // Effects of the operations

  /** gap(): marks a break in the contour being built. */
  function AfterGap(s: DriverState): DriverState {
    s.(gap := 1)
  }

  /** interpolate(i): sets the image-interpolation flag. */
  function AfterSetInterpolate(s: DriverState, i: int): DriverState {
    s.(interpolate := i)
  }

  /** begin_points, begin_line, begin_loop, begin_polygon: records the kind
      of shape being built. Only `shape` is determined: the driver's methods
      promise the result up to `gap` (see `SameExceptGap`), since what a begin
      does to `gap_` is not visible. */
  function AfterBegin(s: DriverState, kind: Shape): DriverState {
    s.(shape := ShapeCode(kind))
  }

  /** end_points, end_line, end_loop, end_polygon: back to no shape. As for
      a begin, only `shape` is determined. */
  function AfterEnd(s: DriverState): DriverState {
    s.(shape := ShapeCode(Shape.None))
  }

  /** Links or unlinks a clip frame. */
  function AfterClip(s: DriverState, op: ClipStack.ClipOp): DriverState {
    s.(clip := ClipStack.Apply(s.clip, op))
  }

  /** transformed_draw(s, n, x, y): one more call to the text placer. */
  function AfterTransformedDraw(s: DriverState, text: string, n: int, x: real, y: real): DriverState {
    s.(placed := s.placed + [TextRequest(text, n, x, y)])
  }

  /** The state after running a sequence of clip operations. */
  function AfterClips(s: DriverState, ops: seq<ClipStack.ClipOp>): (r: DriverState)
    ensures r.(clip := s.clip) == s
    ensures r.clip == ClipStack.Run(s.clip, ops)
  {
    if ops == [] then s else AfterClip(AfterClips(s, ops[..|ops| - 1]), ops[|ops| - 1])
  }

  // ---------------------------------------------------------------------
  // Properties

  /** Every SHAPE value survives the trip to its integer code and back, and
      every integer code 0..4 survives the trip to a SHAPE value and back. */
  lemma ShapeCodeRoundTrip(s: Shape, c: int)
    ensures ShapeOf(ShapeCode(s)) == Wrappers.Some(s)
    ensures ShapeOf(c).Some? ==> ShapeCode(ShapeOf(c).value) == c
  {
  }

  /** Every operation keeps the shape field within the SHAPE values. */
  lemma OperationsKeepWellFormed(s: DriverState, kind: Shape, op: ClipStack.ClipOp, i: int, text: string, n: int, x: real, y: real)
    requires WellFormed(s)
    ensures WellFormed(AfterGap(s)) && WellFormed(AfterSetInterpolate(s, i))
    ensures WellFormed(AfterBegin(s, kind)) && WellFormed(AfterEnd(s))
    ensures WellFormed(AfterClip(s, op)) && WellFormed(AfterTransformedDraw(s, text, n, x, y))
  {
    ShapeCodeRoundTrip(kind, s.shape);
    ShapeCodeRoundTrip(Shape.None, s.shape);
  }

  /** gap() sets the gap flag to 1 and touches nothing else; doing it twice
      is the same as doing it once. */
  lemma GapSetsOnlyGap(s: DriverState)
    ensures AfterGap(s).gap == 1
    ensures AfterGap(s).(gap := s.gap) == s
    ensures AfterGap(AfterGap(s)) == AfterGap(s)
  {
  }

  /** The interpolation getter returns what the setter stored last, and the
      setter changes nothing else. */
  lemma InterpolateRoundTrip(s: DriverState, i: int, j: int)
    ensures AfterSetInterpolate(s, i).interpolate == i
    ensures AfterSetInterpolate(s, i).(interpolate := s.interpolate) == s
    ensures AfterSetInterpolate(AfterSetInterpolate(s, i), j) == AfterSetInterpolate(s, j)
  {
  }

  /** A begin followed by an end leaves the driver with no shape; from a
      state with no shape it restores every field except possibly `gap`. */
  lemma BeginThenEnd(s: DriverState, kind: Shape)
    ensures AfterEnd(AfterBegin(s, kind)).shape == ShapeCode(Shape.None)
    ensures s.shape == ShapeCode(Shape.None) ==> SameExceptGap(AfterEnd(AfterBegin(s, kind)), s)
  {
  }

  /** A balanced sequence of clip pushes and pops restores the whole state:
      the same current frame and the same chain below it. */
  lemma BalancedClipsRestore(s: DriverState, ops: seq<ClipStack.ClipOp>)
    requires ClipStack.Balanced(ops)
    ensures AfterClips(s, ops) == s
  {
    ClipStack.BalancedRestores(s.clip, ops);
  }
}
