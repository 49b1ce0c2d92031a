/** The game's fixed dimensions and speeds, its two kinds of entity (the bird
    and the pipes) and the collision test between them. */
module Entities {

  // The playfield
  const BoardWidth := 360
  const BoardHeight := 640

  // The bird starts an eighth of the way across and half way down
  const BirdX := BoardWidth / 8
  const BirdY := BoardHeight / 2
  const BirdWidth := 34
  const BirdHeight := 24

  // A pipe is created at the right edge, at the top
  const PipeX := BoardWidth
  const PipeY := 0
  const PipeWidth := 64
  const PipeHeight := 512

  // Per-tick speeds: pipes drift left, the bird falls, a jump kicks it upward
  const VelocityX := -4
  const Gravity := 1
  const JumpVelocity := -12

  /** The bird's rectangle; x, width and height never change after creation. */
  datatype Bird = Bird(x: int, y: int, width: int, height: int)

  /** Which of the two pipe images a pipe is drawn with. */
  datatype Sprite = TopPipeImg | BottomPipeImg

  /** A pipe's rectangle, its image and the (never consulted) passed flag. */
  datatype Pipe = Pipe(x: int, y: int, width: int, height: int, img: Sprite, passed: bool)

  /** A bird as the Bird constructor creates it. */
  function NewBird(): Bird
  {
    Bird(BirdX, BirdY, BirdWidth, BirdHeight)
  }

  /** A pipe as the Pipe constructor creates it, before its y is set. */
  function NewPipe(img: Sprite): Pipe
  {
    Pipe(PipeX, PipeY, PipeWidth, PipeHeight, img, false)
  }

  /** The two rectangles are apart, or at most share an edge, along some axis. */
  predicate Separated(a: Bird, b: Pipe)
  {
    || a.x + a.width <= b.x
    || b.x + b.width <= a.x
    || a.y + a.height <= b.y
    || b.y + b.height <= a.y
  }

  /** Strict axis-aligned overlap of the bird's and the pipe's rectangles.
      It fails exactly when the rectangles are separated along an axis, which
      includes rectangles that only touch along an edge. */
  function Collision(a: Bird, b: Pipe): (r: bool)
    ensures r <==> !Separated(a, b)
  {
    a.x < b.x + b.width &&
    a.x + a.width > b.x &&
    a.y < b.y + b.height &&
    a.y + a.height > b.y
  }

  /** The unit cell with top-left corner (px, py) lies inside the bird. */
  predicate BirdCovers(a: Bird, px: int, py: int)
  {
    a.x <= px < a.x + a.width && a.y <= py < a.y + a.height
  }

  /** The unit cell with top-left corner (px, py) lies inside the pipe. */
  predicate PipeCovers(b: Pipe, px: int, py: int)
  {
    b.x <= px < b.x + b.width && b.y <= py < b.y + b.height
  }

  /** Some unit cell of the integer grid lies inside both rectangles. */
  ghost predicate ShareCell(a: Bird, b: Pipe)
  {
    exists px, py :: BirdCovers(a, px, py) && PipeCovers(b, px, py)
  }

  function Max(a: int, b: int): int
  {
    if a >= b then a else b
  }

  /** For rectangles of positive size, the collision test holds exactly when
      the two rectangles have a grid cell in common. */
  lemma CollisionIffSharedCell(a: Bird, b: Pipe)
    requires a.width > 0 && a.height > 0 && b.width > 0 && b.height > 0
    ensures Collision(a, b) <==> ShareCell(a, b)
  {
    if Collision(a, b) {
      var px, py := Max(a.x, b.x), Max(a.y, b.y);
      assert BirdCovers(a, px, py) && PipeCovers(b, px, py);
    }
    if ShareCell(a, b) {
      var px, py :| BirdCovers(a, px, py) && PipeCovers(b, px, py);
    }
  }
}
