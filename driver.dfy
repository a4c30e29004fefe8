// The PostScript graphics driver object: the fields it updates in place and
// the operations whose bodies its declaration gives.

module PostScriptDriver {
  import Wrappers
  import ClipStack
  import opened DeviceState

  /** Size of the driver's fixed dash-pattern buffer. */
  const LINEDASH_SIZE: int := 256

  class GraphicsDriver {
    /** The clip chain; its last frame is the current one. */
    var clip: ClipStack.Chain
    /** Set to 1 to start a new, unconnected contour. */
    var gap: int
    /** The shape being built, as a SHAPE code. */
    var shape: int
    /** Image-interpolation flag. */
    var interpolate: int
    var pagePolicy: int
    /** The calls made so far to the precise text-placing routine. */
    var placed: seq<DeviceState.TextRequest>
    /** The dash-pattern buffer. */
    const linedash: array<bv8>

    ghost predicate Valid()
      reads this
    {
      WellFormed(State()) && linedash.Length == LINEDASH_SIZE
    }

    /** The driver's fields as one value. */
    function State(): DriverState
      reads this
    {
      DriverState(clip, gap, shape, interpolate, pagePolicy, placed)
    }

    /** A driver with no clip frame and no shape being built; the other
        fields start from the given values. */
    constructor (gap0: int, interpolate0: int, pagePolicy0: int)
      ensures Valid() && fresh(linedash)
      ensures Idle(State()) && State().placed == []
      ensures gap == gap0 && interpolate == interpolate0 && pagePolicy == pagePolicy0
    {
      clip := [];
      gap := gap0;
      shape := ShapeCode(Shape.None);
      interpolate := interpolate0;
      pagePolicy := pagePolicy0;
      placed := [];
      linedash := new bv8[LINEDASH_SIZE];
    }

    /** gap(): gap_ = 1. */
    method Gap()
      requires Valid()
      modifies this
      ensures Valid() && State() == AfterGap(old(State()))
    {
      gap := 1;
    }

    /** interpolate(i): interpolate_ = i. */
    method SetInterpolate(i: int)
      requires Valid()
      modifies this
      ensures Valid() && State() == AfterSetInterpolate(old(State()), i)
    {
      interpolate := i;
    }

    /** interpolate(): returns interpolate_. */
    method Interpolate() returns (i: int)
      ensures i == State().interpolate
    {
      i := interpolate;
    }

    /** page_policy(): returns page_policy_. */
    method PagePolicy() returns (p: int)
      ensures p == State().pagePolicy
    {
      p := pagePolicy;
    }

    method BeginPoints()
      requires Valid()
      modifies this
      ensures Valid() && SameExceptGap(State(), AfterBegin(old(State()), Points))
    {
      shape := ShapeCode(Points);
    }

    method BeginLine()
      requires Valid()
      modifies this
      ensures Valid() && SameExceptGap(State(), AfterBegin(old(State()), Line))
    {
      shape := ShapeCode(Line);
    }

    method BeginLoop()
      requires Valid()
      modifies this
      ensures Valid() && SameExceptGap(State(), AfterBegin(old(State()), Loop))
    {
      shape := ShapeCode(Loop);
    }

    method BeginPolygon()
      requires Valid()
      modifies this
      ensures Valid() && SameExceptGap(State(), AfterBegin(old(State()), Polygon))
    {
      shape := ShapeCode(Polygon);
    }

    method EndPoints()
      requires Valid()
      modifies this
      ensures Valid() && SameExceptGap(State(), AfterEnd(old(State())))
    {
      shape := ShapeCode(Shape.None);
    }

    method EndLine()
      requires Valid()
      modifies this
      ensures Valid() && SameExceptGap(State(), AfterEnd(old(State())))
    {
      shape := ShapeCode(Shape.None);
    }

    method EndLoop()
      requires Valid()
      modifies this
      ensures Valid() && SameExceptGap(State(), AfterEnd(old(State())))
    {
      shape := ShapeCode(Shape.None);
    }

    method EndPolygon()
      requires Valid()
      modifies this
      ensures Valid() && SameExceptGap(State(), AfterEnd(old(State())))
    {
      shape := ShapeCode(Shape.None);
    }

    /** begin_complex_polygon(): begin_polygon(). */
    method BeginComplexPolygon()
      requires Valid()
      modifies this
      ensures Valid() && SameExceptGap(State(), AfterBegin(old(State()), Polygon))
    {
      BeginPolygon();
    }

    /** end_complex_polygon(): end_polygon(). */
    method EndComplexPolygon()
      requires Valid()
      modifies this
      ensures Valid() && SameExceptGap(State(), AfterEnd(old(State())))
    {
      EndPolygon();
    }

    /** Links a new current clip frame whose `prev` is the old current frame. */
    method PushFrame(rect: ClipStack.ClipRect)
      requires Valid()
      modifies this
      ensures Valid() && State() == AfterClip(old(State()), ClipStack.Push(rect))
      ensures ClipStack.Top(clip) == Wrappers.Some(rect)
    {
      clip := clip + [rect];
    }

    /** Unlinks the current clip frame, making its `prev` current; reports
        whether there was a frame to unlink. */
    method PopFrame() returns (popped: bool)
      requires Valid()
      modifies this
      ensures Valid() && State() == AfterClip(old(State()), ClipStack.Pop)
      ensures popped <==> old(clip) != []
    {
      popped := clip != [];
      if popped {
        clip := clip[..|clip| - 1];
      }
    }

    /** transformed_draw(s, n, x, y): the precise text-placing routine; only
        the call itself is recorded. */
    method TransformedDraw(text: string, n: int, x: real, y: real)
      requires Valid()
      modifies this
      ensures Valid() && State() == AfterTransformedDraw(old(State()), text, n, x, y)
    {
      placed := placed + [TextRequest(text, n, x, y)];
    }

    /** draw(s, n, x, y) with integer coordinates: forwards to the precise
        routine at the same position. */
    method Draw(text: string, n: int, x: int, y: int)
      requires Valid()
      modifies this
      ensures Valid() && State() == AfterTransformedDraw(old(State()), text, n, x as real, y as real)
    {
      TransformedDraw(text, n, x as real, y as real);
    }
  }

  /** A caller's view: interpolate() returns what interpolate(i) stored, a
      complex polygon leaves no shape behind, gap() then sets `gap_` to 1,
      and a pushed frame that is popped again leaves the clip chain as it
      was. */
  method ClientScenario(d: GraphicsDriver, i: int, rect: ClipStack.ClipRect)
    requires d.Valid()
    modifies d
    ensures d.Valid()
    ensures d.State() == old(d.State()).(interpolate := i, gap := 1, shape := ShapeCode(Shape.None))
  {
    d.SetInterpolate(i);
    var got := d.Interpolate();
    assert got == i;

    var before := d.State();
    d.BeginComplexPolygon();
    d.EndComplexPolygon();
    assert SameExceptGap(d.State(), before.(shape := ShapeCode(Shape.None)));
    d.Gap();
    assert d.State() == before.(gap := 1, shape := ShapeCode(Shape.None));

    var start := d.State();
    d.PushFrame(rect);
    var popped := d.PopFrame();
    assert popped && d.State() == start;
  }
}
