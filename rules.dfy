/** The controller's state as one value, and what each event does to it:
    a physics tick, a pipe spawn, a key press, a game-loop timer event and a
    reset. The class in module Game is proved to follow these functions; the
    lemmas here state what the game promises about them. */
module Rules {
  import opened Entities

  // Key codes of the keys the game reacts to
  const KeySpace := 32
  const KeyUp := 38
  const KeyR := 82

  // Vertical gap between the two pipes of a pair
  const OpeningSpace := BoardHeight / 4

  // The range of the top pipe's y: a quarter of a pipe above the top edge,
  // minus a random amount of up to half a pipe
  const MaxPipeY := PipeY - PipeHeight / 4
  const MinPipeY := PipeY - PipeHeight / 4 - PipeHeight / 2

  /** Everything the controller keeps between events. `running` stands for
      the game-loop and pipe-spawn timers, which are always started and
      stopped together. */
  datatype Session = Session(
    bird: Bird,
    velocityY: int,
    pipes: seq<Pipe>,
    gameOver: bool,
    result: int,
    running: bool)

  /** The state right after construction: both timers started. */
  function Initial(): Session
  {
    Session(NewBird(), 0, [], false, 0, true)
  }

  /** Every pipe moved left by one tick's drift, in the same order. */
  function Shifted(ps: seq<Pipe>): (r: seq<Pipe>)
    ensures |r| == |ps|
    ensures forall i :: 0 <= i < |ps| ==> r[i] == ps[i].(x := ps[i].x + VelocityX)
  {
    if ps == [] then [] else [ps[0].(x := ps[0].x + VelocityX)] + Shifted(ps[1..])
  }

  /** The bird overlaps some pipe of the list. */
  predicate HitsAny(b: Bird, ps: seq<Pipe>)
  {
    exists i :: 0 <= i < |ps| && Collision(b, ps[i])
  }

  /** One physics tick: score, gravity, the bird's fall clamped at the top
      edge, the pipes' drift, and the sticky game-over flag. */
  function Tick(s: Session): Session
  {
    var v := s.velocityY + Gravity;
    var b := s.bird.(y := Max(s.bird.y + v, 0));
    var ps := Shifted(s.pipes);
    s.(result := s.result + 1, velocityY := v, bird := b, pipes := ps,
       gameOver := s.gameOver || HitsAny(b, ps) || b.y > BoardHeight)
  }

  /** A fresh bird at the start position, no speed, no pipes, no score. */
  function Reset(s: Session): Session
  {
    s.(bird := NewBird(), velocityY := 0, pipes := [], result := 0, gameOver := false)
  }

  /** The top/bottom pipe pair spawned with top edge `off`. */
  function PipePair(off: int): seq<Pipe>
  {
    [NewPipe(TopPipeImg).(y := off),
     NewPipe(BottomPipeImg).(y := off + PipeHeight + OpeningSpace)]
  }

  /** The pipe-spawn timer's event. */
  function Spawn(s: Session, off: int): Session
  {
    s.(pipes := s.pipes + PipePair(off))
  }

  /** A key press: Space or Up jumps; R restarts, but only once the game is over. */
  function OnKey(s: Session, keyCode: int): Session
  {
    var s' := if keyCode == KeySpace || keyCode == KeyUp then s.(velocityY := JumpVelocity) else s;
    if keyCode == KeyR && s'.gameOver then Reset(s').(running := true) else s'
  }

  /** The game-loop timer's event: one tick, then both timers stop if the game is over. */
  function OnAction(s: Session): Session
  {
    var t := Tick(s);
    if t.gameOver then t.(running := false) else t
  }

  /** `n` ticks in a row with no other event in between. */
  function Ticks(s: Session, n: nat): Session
  {
    if n == 0 then s else Tick(Ticks(s, n - 1))
  }

  // ---------------------------------------------------------------------
  // The state invariant

  predicate BirdShape(b: Bird)
  {
    b.x == BirdX && b.width == BirdWidth && b.height == BirdHeight && b.y >= 0
  }

  predicate PipeShape(p: Pipe)
  {
    p.width == PipeWidth && p.height == PipeHeight && !p.passed
  }

  /** Two consecutive pipes form a spawned pair: a top and a bottom pipe in
      the same column, not right of the spawn column, the gap between them
      fixed, the top edge within the spawn range. */
  predicate IsPair(top: Pipe, bottom: Pipe)
  {
    && PipeShape(top) && PipeShape(bottom)
    && top.img == TopPipeImg && bottom.img == BottomPipeImg
    && top.x == bottom.x && top.x <= PipeX
    && bottom.y == top.y + PipeHeight + OpeningSpace
    && MinPipeY <= top.y <= MaxPipeY
  }

  /** The pipe list is a sequence of spawned pairs, oldest first. */
  predicate Paired(ps: seq<Pipe>)
  {
    ps == [] || (|ps| >= 2 && IsPair(ps[0], ps[1]) && Paired(ps[2..]))
  }

  predicate Inv(s: Session)
  {
    BirdShape(s.bird) && s.result >= 0 && Paired(s.pipes)
  }

  /** The timers run exactly while the game is not over. */
  predicate TimersInStep(s: Session)
  {
    s.running == !s.gameOver
  }

  // ---------------------------------------------------------------------
  // One tick

  /** A tick adds exactly one to the score and exactly `Gravity` to the
      vertical speed, whatever happens to the pipes, and touches the
      timers not at all. */
  lemma TickScoreAndSpeed(s: Session)
    ensures Tick(s).result == s.result + 1
    ensures Tick(s).velocityY == s.velocityY + 1
    ensures Tick(s).running == s.running
  {
  }

  /** The bird moves by the new speed, is clamped at the top edge, and keeps
      its column and size. */
  lemma TickMovesBird(s: Session)
    ensures Tick(s).bird.y == Max(s.bird.y + Tick(s).velocityY, 0)
    ensures Tick(s).bird.y >= 0
    ensures Tick(s).bird.x == s.bird.x
    ensures Tick(s).bird.width == s.bird.width && Tick(s).bird.height == s.bird.height
  {
  }

  /** Every pipe moves exactly 4 to the left; the number, order, heights,
      widths, images and passed flags of the pipes stay as they were. */
  lemma TickShiftsPipes(s: Session)
    ensures |Tick(s).pipes| == |s.pipes|
    ensures forall i :: 0 <= i < |s.pipes| ==>
      Tick(s).pipes[i].x == s.pipes[i].x - 4 &&
      Tick(s).pipes[i].y == s.pipes[i].y &&
      Tick(s).pipes[i].width == s.pipes[i].width &&
      Tick(s).pipes[i].height == s.pipes[i].height &&
      Tick(s).pipes[i].img == s.pipes[i].img &&
      Tick(s).pipes[i].passed == s.pipes[i].passed
  {
  }

  /** After a tick the game is over exactly when it already was, or when the
      moved bird overlaps some pipe at its moved position, or when the bird
      is below the bottom edge. */
  lemma TickGameOver(s: Session)
    ensures Tick(s).gameOver <==>
      || s.gameOver
      || (exists i :: 0 <= i < |s.pipes| &&
            Collision(Tick(s).bird, s.pipes[i].(x := s.pipes[i].x - 4)))
      || Tick(s).bird.y > 640
  {
    var t := Tick(s);
    if HitsAny(t.bird, t.pipes) {
      var i :| 0 <= i < |t.pipes| && Collision(t.bird, t.pipes[i]);
      assert Collision(t.bird, s.pipes[i].(x := s.pipes[i].x - 4));
    }
  }

  /** A tick preserves the shape of a pipe pair (both drift together). */
  lemma {:induction false} ShiftedPaired(ps: seq<Pipe>)
    requires Paired(ps)
    ensures Paired(Shifted(ps))
  {
    if ps != [] {
      ShiftedPaired(ps[2..]);
      assert Shifted(ps)[2..] == Shifted(ps[2..]);
    }
  }

  lemma TickKeepsInv(s: Session)
    requires Inv(s)
    ensures Inv(Tick(s))
  {
    ShiftedPaired(s.pipes);
  }

  // ---------------------------------------------------------------------
  // Many ticks

  /** Over `n` ticks the score rises by exactly `n` and the vertical speed by
      exactly `n`, and a game that is over stays over. */
  lemma {:induction false} TicksScoreAndSpeed(s: Session, n: nat)
    ensures Ticks(s, n).result == s.result + n
    ensures Ticks(s, n).velocityY == s.velocityY + n
    ensures s.gameOver ==> Ticks(s, n).gameOver
  {
    if n > 0 {
      TicksScoreAndSpeed(s, n - 1);
    }
  }

  /** A bird that is not rising falls freely: after `n` ticks it has dropped
      by n * v + n * (n + 1) / 2, never reaching the clamp. */
  lemma {:induction false} FreeFall(s: Session, n: nat)
    requires s.bird.y >= 0 && s.velocityY >= 0
    ensures Ticks(s, n).velocityY == s.velocityY + n
    ensures 2 * Ticks(s, n).bird.y == 2 * s.bird.y + 2 * n * s.velocityY + n * (n + 1)
  {
    if n > 0 {
      FreeFall(s, n - 1);
      var m := n - 1;
      assert 2 * m * s.velocityY + 2 * s.velocityY == 2 * n * s.velocityY;
      assert m * (m + 1) + 2 * n == n * (n + 1);
    }
  }

  /** Without a jump, a bird that is not rising is out of the board, and the
      game over, after 36 ticks and at every later tick. */
  lemma {:induction false} FreeFallEndsGame(s: Session, n: nat)
    requires s.bird.y >= 0 && s.velocityY >= 0
    requires n >= 36
    ensures Ticks(s, n).gameOver
  {
    if n == 36 {
      FreeFall(s, 35);
      var t := Ticks(s, 35);
      assert 2 * t.bird.y >= 35 * 36;
      assert t.velocityY >= 35;
    } else {
      FreeFallEndsGame(s, n - 1);
    }
  }

  // ---------------------------------------------------------------------
  // Pipe spawning

  /** A spawned pair is a top and a bottom pipe at the right edge, not yet
      passed, the bottom one 512 + 160 below the top one, whose top edge is
      the given offset. */
  lemma PipePairIsPair(off: int)
    requires MinPipeY <= off <= MaxPipeY
    ensures |PipePair(off)| == 2
    ensures IsPair(PipePair(off)[0], PipePair(off)[1])
    ensures PipePair(off)[0].x == 360 && PipePair(off)[1].x == 360
    ensures PipePair(off)[0].y == off && PipePair(off)[1].y == off + 672
  {
  }

  /** Appending a pair keeps the list a sequence of pairs. */
  lemma {:induction false} PairedAppend(ps: seq<Pipe>, off: int)
    requires Paired(ps)
    requires MinPipeY <= off <= MaxPipeY
    ensures Paired(ps + PipePair(off))
  {
    if ps == [] {
      assert PipePair(off)[2..] == [];
    } else {
      PairedAppend(ps[2..], off);
      assert (ps + PipePair(off))[2..] == ps[2..] + PipePair(off);
    }
  }

  /** Spawning appends exactly the pair and changes nothing else. */
  lemma SpawnAppendsPair(s: Session, off: int)
    requires Inv(s)
    requires MinPipeY <= off <= MaxPipeY
    ensures Inv(Spawn(s, off))
    ensures |Spawn(s, off).pipes| == |s.pipes| + 2
    ensures Spawn(s, off).pipes[..|s.pipes|] == s.pipes
    ensures Spawn(s, off) == s.(pipes := Spawn(s, off).pipes)
  {
    PairedAppend(s.pipes, off);
    assert Spawn(s, off).pipes[..|s.pipes|] == s.pipes;
  }

  // ---------------------------------------------------------------------
  // Keys

  /** Space or Up sets the vertical speed to -12 whatever it was, and
      changes nothing else. */
  lemma JumpSetsSpeed(s: Session, keyCode: int)
    requires keyCode == KeySpace || keyCode == KeyUp
    ensures OnKey(s, keyCode).velocityY == -12
    ensures OnKey(s, keyCode) == s.(velocityY := -12)
  {
  }

  /** R on a finished game gives exactly the state of a new game: score 0,
      not over, no pipes, no speed, the bird at (45, 320), timers running. */
  lemma RestartIsNewGame(s: Session)
    requires s.gameOver
    ensures OnKey(s, KeyR) == Initial()
    ensures OnKey(s, KeyR).result == 0 && !OnKey(s, KeyR).gameOver
    ensures OnKey(s, KeyR).pipes == [] && OnKey(s, KeyR).velocityY == 0
    ensures OnKey(s, KeyR).bird.x == 45 && OnKey(s, KeyR).bird.y == 320
    ensures OnKey(s, KeyR).running
  {
  }

  /** R during a game, and any key other than Space, Up and R, change nothing. */
  lemma OtherKeysIgnored(s: Session, keyCode: int)
    requires (keyCode == KeyR && !s.gameOver) ||
             (keyCode != KeySpace && keyCode != KeyUp && keyCode != KeyR)
    ensures OnKey(s, keyCode) == s
  {
  }

  // ---------------------------------------------------------------------
  // The controller's state machine

  /** The game-loop event is one tick followed by stopping the timers when
      the game is over; if it is not over the timers are left as they were. */
  lemma OnActionIsTickThenStop(s: Session)
    ensures OnAction(s).(running := s.running) == Tick(s)
    ensures OnAction(s).gameOver ==> !OnAction(s).running
    ensures !OnAction(s).gameOver ==> OnAction(s).running == s.running
  {
  }

  /** A pipe that overlaps the moved bird on this tick ends the game on this
      tick and stops both timers. */
  lemma CollisionStopsTimers(s: Session, i: int)
    requires 0 <= i < |s.pipes|
    requires Collision(Tick(s).bird, Tick(s).pipes[i])
    ensures OnAction(s).gameOver && !OnAction(s).running
  {
  }

  /** Every event the controller receives keeps the state invariant. */
  lemma EventsKeepInv(s: Session, keyCode: int, off: int)
    requires Inv(s)
    requires MinPipeY <= off <= MaxPipeY
    ensures Inv(Initial())
    ensures Inv(OnAction(s))
    ensures Inv(OnKey(s, keyCode))
    ensures Inv(Spawn(s, off))
  {
    TickKeepsInv(s);
    PairedAppend(s.pipes, off);
  }

  /** The timers run exactly while the game is not over: true at the start
      and kept by every event (the running/over state machine). */
  lemma EventsKeepTimersInStep(s: Session, keyCode: int, off: int)
    requires TimersInStep(s)
    ensures TimersInStep(Initial())
    ensures TimersInStep(OnAction(s))
    ensures TimersInStep(OnKey(s, keyCode))
    ensures TimersInStep(Spawn(s, off))
  {
  }
}
