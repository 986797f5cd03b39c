/**
 * The Prototype pattern: shapes that copy themselves. Circles and rectangles
 * never change after construction and clone by value into a new object. The
 * two point-centred shapes show the difference between a shallow clone, which
 * shares the original's centre point, and a deep clone, which copies it.
 */
module Prototype {
  import Text

  /** The closing part every shape's text ends with: the colour and a bracket. */
  function ColorTail(color: string): (r: string)
    ensures |r| > 0 && r[0] == ','
  {
    ", color=" + color + "]"
  }

  /** What follows a rectangle's width in its text. */
  function HeightTail(height: int, color: string): (r: string)
    ensures |r| > 0 && r[0] == ','
  {
    ", height=" + Text.IntToString(height) + ColorTail(color)
  }

  /** The text `getInfo` gives for a circle: the radius after its label, then the colour part. */
  function CircleText(radius: int, color: string): (r: string)
    ensures |r| > 15 && r[..15] == "Circle [radius="
    ensures |r| >= |ColorTail(color)| && r[|r| - |ColorTail(color)|..] == ColorTail(color)
  {
    "Circle [radius=" + Text.IntToString(radius) + ColorTail(color)
  }

  /** The text `getInfo` gives for a rectangle: the width after its label, then the height and colour parts. */
  function RectangleText(width: int, height: int, color: string): (r: string)
    ensures |r| > 17 && r[..17] == "Rectangle [width="
    ensures |r| >= |HeightTail(height, color)| && r[|r| - |HeightTail(height, color)|..] == HeightTail(height, color)
  {
    "Rectangle [width=" + Text.IntToString(width) + HeightTail(height, color)
  }

  /** The closing part determines the colour. */
  lemma ColorTailIdentifies(c1: string, c2: string)
    requires ColorTail(c1) == ColorTail(c2)
    ensures c1 == c2
  {
    assert ColorTail(c1) == ", color=" + (c1 + "]");
    assert ColorTail(c2) == ", color=" + (c2 + "]");
    Text.CancelPrefix(", color=", c1 + "]", c2 + "]");
    assert c1 == (c1 + "]")[..|c1|];
    assert c2 == (c2 + "]")[..|c2|];
  }

  /** What follows a rectangle's width determines its height and colour. */
  lemma HeightTailIdentifies(h1: int, c1: string, h2: int, c2: string)
    requires HeightTail(h1, c1) == HeightTail(h2, c2)
    ensures h1 == h2 && c1 == c2
  {
    Text.LabelledIntSplits(", height=", h1, h2, ColorTail(c1), ColorTail(c2));
    ColorTailIdentifies(c1, c2);
  }

  /** A circle's text determines its radius and its colour, and only equal fields give equal text. */
  lemma CircleTextIdentifies(r1: int, c1: string, r2: int, c2: string)
    ensures CircleText(r1, c1) == CircleText(r2, c2) <==> r1 == r2 && c1 == c2
  {
    if CircleText(r1, c1) == CircleText(r2, c2) {
      Text.LabelledIntSplits("Circle [radius=", r1, r2, ColorTail(c1), ColorTail(c2));
      ColorTailIdentifies(c1, c2);
    }
  }

  /** A rectangle's text determines its width, height and colour, and only equal fields give equal text. */
  lemma RectangleTextIdentifies(w1: int, h1: int, c1: string, w2: int, h2: int, c2: string)
    ensures RectangleText(w1, h1, c1) == RectangleText(w2, h2, c2)
        <==> w1 == w2 && h1 == h2 && c1 == c2
  {
    if RectangleText(w1, h1, c1) == RectangleText(w2, h2, c2) {
      Text.LabelledIntSplits("Rectangle [width=", w1, w2, HeightTail(h1, c1), HeightTail(h2, c2));
      HeightTailIdentifies(h1, c1, h2, c2);
    }
  }

  /** A circle's text never reads as a rectangle's. */
  lemma CircleNeverReadsAsRectangle(radius: int, c1: string, width: int, height: int, c2: string)
    ensures CircleText(radius, c1) != RectangleText(width, height, c2)
  {
    assert CircleText(radius, c1)[0] == 'C';
    assert RectangleText(width, height, c2)[0] == 'R';
  }

  class Circle {
    const radius: int
    const color: string

    constructor (radius: int, color: string)
      ensures this.radius == radius && this.color == color
    {
      this.radius := radius;
      this.color := color;
    }

    /** `clone()`: a new circle with the same radius and colour; the original is untouched. */
    method Clone() returns (c: Circle)
      ensures fresh(c) && c.radius == radius && c.color == color
      ensures c.Info() == Info()
    {
      c := new Circle(radius, color);
    }

    /** `getInfo()`. */
    function Info(): string {
      CircleText(radius, color)
    }
  }

  class Rectangle {
    const width: int
    const height: int
    const color: string

    constructor (width: int, height: int, color: string)
      ensures this.width == width && this.height == height && this.color == color
    {
      this.width := width;
      this.height := height;
      this.color := color;
    }

    /** `clone()`: a new rectangle with the same width, height and colour. */
    method Clone() returns (r: Rectangle)
      ensures fresh(r) && r.width == width && r.height == height && r.color == color
      ensures r.Info() == Info()
    {
      r := new Rectangle(width, height, color);
    }

    /** `getInfo()`. */
    function Info(): string {
      RectangleText(width, height, color)
    }
  }

  /** A mutable point; only its coordinates matter here. */
  class Point {
    var x: int
    var y: int

    constructor (x: int, y: int)
      ensures this.x == x && this.y == y
    {
      this.x := x;
      this.y := y;
    }

    method SetX(v: int)
      modifies this
      ensures x == v && y == old(y)
    {
      x := v;
    }
  }

  /** A shape whose clone shares its centre point with the original. */
  class ShallowShape {
    const center: Point
    const color: string

    constructor (center: Point, color: string)
      ensures this.center == center && this.color == color
    {
      this.center := center;
      this.color := color;
    }

    /** `clone()`: a new shape holding the very same centre point and the same colour. */
    method Clone() returns (s: ShallowShape)
      ensures fresh(s) && s.center == center && s.color == color
    {
      s := new ShallowShape(center, color);
    }

    /** `moveX(dx)`: moves the centre point, and with it every shape that shares it. */
    method MoveX(dx: int)
      modifies center
      ensures center.x == old(center.x) + dx && center.y == old(center.y)
    {
      center.SetX(center.x + dx);
    }

    /**
     * `getInfo()`. How a point prints is not part of this model, so the
     * rendering of the centre's coordinates is a parameter.
     */
    function Info(showPoint: (int, int) -> string): (r: string)
      reads center
      ensures |r| > 21 && r[..21] == "ShallowShape [center="
      ensures |r| >= |ColorTail(color)| && r[|r| - |ColorTail(color)|..] == ColorTail(color)
    {
      "ShallowShape [center=" + showPoint(center.x, center.y) + ColorTail(color)
    }
  }

  /** A shape whose clone gets a copy of the centre point. */
  class DeepShape {
    const center: Point
    const color: string

    constructor (center: Point, color: string)
      ensures this.center == center && this.color == color
    {
      this.center := center;
      this.color := color;
    }

    /** `clone()`: a new shape with a new point at the same coordinates and the same colour. */
    method Clone() returns (s: DeepShape)
      ensures fresh(s) && fresh(s.center)
      ensures s.center.x == center.x && s.center.y == center.y && s.color == color
    {
      var p := new Point(center.x, center.y);
      s := new DeepShape(p, color);
    }

    /** `moveX(dx)`: moves this shape's own centre point only. */
    method MoveX(dx: int)
      modifies center
      ensures center.x == old(center.x) + dx && center.y == old(center.y)
    {
      center.SetX(center.x + dx);
    }

    /** `getInfo()`, with the rendering of the centre's coordinates as a parameter. */
    function Info(showPoint: (int, int) -> string): (r: string)
      reads center
      ensures |r| > 18 && r[..18] == "DeepShape [center="
      ensures |r| >= |ColorTail(color)| && r[|r| - |ColorTail(color)|..] == ColorTail(color)
    {
      "DeepShape [center=" + showPoint(center.x, center.y) + ColorTail(color)
    }
  }

  /** The demo's value clones: each clone reads exactly like its original. */
  method CloneScenario() returns (circleInfo: string, circleCloneInfo: string,
                                  rectangleInfo: string, rectangleCloneInfo: string)
    ensures circleInfo == circleCloneInfo && rectangleInfo == rectangleCloneInfo
    ensures circleInfo == CircleText(10, "Red") && rectangleInfo == RectangleText(20, 30, "Blue")
  {
    var circle := new Circle(10, "Red");
    var rectangle := new Rectangle(20, 30, "Blue");
    var circleClone := circle.Clone();
    var rectangleClone := rectangle.Clone();
    circleInfo, circleCloneInfo := circle.Info(), circleClone.Info();
    rectangleInfo, rectangleCloneInfo := rectangle.Info(), rectangleClone.Info();
  }

  /**
   * The demo's shallow copy: moving the original by 5 moves the clone's
   * centre too, so both shapes read the same before and after.
   */
  method ShallowScenario(showPoint: (int, int) -> string)
    returns (originalX: int, cloneX: int, originalInfo: string, cloneInfo: string)
    ensures originalX == 5 && cloneX == 5
    ensures originalInfo == "ShallowShape [center=" + showPoint(5, 0) + ColorTail("Red")
    ensures cloneInfo == originalInfo
  {
    var point := new Point(0, 0);
    var original := new ShallowShape(point, "Red");
    var clone := original.Clone();
    original.MoveX(5);
    originalX, cloneX := original.center.x, clone.center.x;
    originalInfo, cloneInfo := original.Info(showPoint), clone.Info(showPoint);
  }

  /** The demo's deep copy: moving the original by 5 leaves the clone at the origin. */
  method DeepScenario(showPoint: (int, int) -> string)
    returns (originalX: int, cloneX: int, originalInfo: string, cloneInfo: string)
    ensures originalX == 5 && cloneX == 0
    ensures originalInfo == "DeepShape [center=" + showPoint(5, 0) + ColorTail("Blue")
    ensures cloneInfo == "DeepShape [center=" + showPoint(0, 0) + ColorTail("Blue")
  {
    var point := new Point(0, 0);
    var original := new DeepShape(point, "Blue");
    var clone := original.Clone();
    original.MoveX(5);
    originalX, cloneX := original.center.x, clone.center.x;
    originalInfo, cloneInfo := original.Info(showPoint), clone.Info(showPoint);
  }
}
