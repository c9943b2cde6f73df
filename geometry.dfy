/** Integer rectangles as pygame's `Rect` keeps them, and `Car`, the sprite
    whose rectangle the game moves. */
module Geometry {

  /** A pygame `Rect`: top-left corner and size, all integers. */
  datatype Rect = Rect(x: int, y: int, w: nat, h: nat)

  /** What a `Rect` attribute becomes when a float is assigned to it: the C
      conversion pygame applies, which drops the fraction toward zero. */
  function Trunc(v: real): (n: int)
    ensures 0.0 <= v ==> 0 <= n && n as real <= v < n as real + 1.0
    ensures v < 0.0 ==> n <= 0 && n as real - 1.0 < v <= n as real
  {
    if v >= 0.0 then v.Floor else -((-v).Floor)
  }

  /** A whole number passes through unchanged. */
  lemma TruncOfInt(n: int)
    ensures Trunc(n as real) == n
  {
  }

  /** `rect.center`: the corner plus half the size, rounded down. It lies
      inside a non-empty rectangle. */
  function Center(r: Rect): (c: (int, int))
    ensures r.w > 0 && r.h > 0 ==> Covers(r, c.0, c.1)
  {
    (r.x + r.w / 2, r.y + r.h / 2)
  }

  /** `rect.center = (cx, cy)`: moves the rectangle so that its centre is
      the truncated point, keeping its size. */
  function WithCenter(r: Rect, cx: real, cy: real): (r': Rect)
    ensures r'.w == r.w && r'.h == r.h
    ensures Center(r') == (Trunc(cx), Trunc(cy))
  {
    r.(x := Trunc(cx) - r.w / 2, y := Trunc(cy) - r.h / 2)
  }

  /** `rect.move([dx, dy])`: the same rectangle shifted by the offset. */
  function Translate(r: Rect, dx: int, dy: int): (r': Rect)
    ensures r'.w == r.w && r'.h == r.h
    ensures Center(r') == (Center(r).0 + dx, Center(r).1 + dy)
  {
    Rect(r.x + dx, r.y + dy, r.w, r.h)
  }

  /** `a.colliderect(b)`: strict overlap on both axes (shared edges do not
      count), and an empty rectangle meets nothing. When they collide, the top
      left corner of the overlap is a pixel of both. */
  predicate Colliderect(a: Rect, b: Rect)
    ensures Colliderect(a, b) ==>
              var px, py := (if a.x < b.x then b.x else a.x), (if a.y < b.y then b.y else a.y);
              Covers(a, px, py) && Covers(b, px, py)
  {
    && a.w > 0 && a.h > 0 && b.w > 0 && b.h > 0
    && a.x < b.x + b.w && b.x < a.x + a.w
    && a.y < b.y + b.h && b.y < a.y + a.h
  }

  /** The pixel `(px, py)` lies inside `r`. */
  predicate Covers(r: Rect, px: int, py: int) {
    r.x <= px < r.x + r.w && r.y <= py < r.y + r.h
  }

  /** Two rectangles collide exactly when some pixel lies in both. */
  lemma CollideIffSharedPixel(a: Rect, b: Rect)
    ensures Colliderect(a, b) <==> exists px, py :: Covers(a, px, py) && Covers(b, px, py)
  {
    if Colliderect(a, b) {
      var px := if a.x < b.x then b.x else a.x;
      var py := if a.y < b.y then b.y else a.y;
      assert Covers(a, px, py) && Covers(b, px, py);
    }
  }

  /** The box pair of the collision scenario: (100, 100, 50, 50) and
      (120, 120, 50, 50) overlap. */
  lemma ScenarioBoxesCollide()
    ensures Colliderect(Rect(100, 100, 50, 50), Rect(120, 120, 50, 50))
    ensures !Colliderect(Rect(100, 100, 50, 50), Rect(150, 100, 50, 50))
  {
  }

  /** `int(n * 0.5)`: a sprite side after scaling by the factor 0.5. */
  function HalfSize(n: nat): (m: nat)
    ensures m + m == n || m + m + 1 == n
  {
    n / 2
  }

  class Car {
    /** `self.rect`, sized from the scaled image. */
    var rect: Rect

    /** `Car(image, ..., 0.5)`: the rectangle of an image of the given size
        scaled by one half, at the origin. */
    constructor (imageWidth: nat, imageHeight: nat)
      ensures rect == Rect(0, 0, HalfSize(imageWidth), HalfSize(imageHeight))
    {
      rect := Rect(0, 0, HalfSize(imageWidth), HalfSize(imageHeight));
    }

    /** `set_initial_position(x, y)`: centres the car on the point. */
    method SetInitialPosition(cx: real, cy: real)
      modifies this
      ensures rect == WithCenter(old(rect), cx, cy)
    {
      rect := WithCenter(rect, cx, cy);
    }

    /** `move(direction, distance)`: "left" and "right" shift the car
        sideways by `distance`; any other direction leaves it where it is. */
    method Move(direction: string, distance: int)
      modifies this
      ensures direction == "left" ==> rect == Translate(old(rect), -distance, 0)
      ensures direction == "right" ==> rect == Translate(old(rect), distance, 0)
      ensures direction != "left" && direction != "right" ==> rect == old(rect)
    {
      if direction == "left" {
        rect := Translate(rect, -distance, 0);
      } else if direction == "right" {
        rect := Translate(rect, distance, 0);
      }
    }
  }
}
