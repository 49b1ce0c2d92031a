/** The game controller: one object whose fields are the game's state and
    whose methods are the handlers the host toolkit calls. Each method is
    proved to change the state as the matching function of module Rules
    says, and to keep the invariant Rules.Inv. */
module Game {
  import opened Entities
  import opened Rules

  class FlappyBird {
    var bird: Bird
    var velocityY: int
    var pipes: seq<Pipe>
    var gameOver: bool
    var result: int
    // The game-loop and pipe-spawn timers, started and stopped together
    var running: bool

    /** The fields as one value. */
    ghost function State(): Session
      reads this
    {
      Session(bird, velocityY, pipes, gameOver, result, running)
    }

    ghost predicate Valid()
      reads this
    {
      Inv(State())
    }

    /** A new game with both timers started. */
    constructor ()
      ensures Valid()
      ensures State() == Initial()
      ensures TimersInStep(State())
    {
      bird := NewBird();
      velocityY := 0;
      pipes := [];
      gameOver := false;
      result := 0;
      running := true;
    }

    /** One physics tick. */
    method Move()
      requires Valid()
      modifies this
      ensures Valid()
      ensures State() == Tick(old(State()))
    {
      result := result + 1;

      velocityY := velocityY + Gravity;
      bird := bird.(y := bird.y + velocityY);
      bird := bird.(y := Max(bird.y, 0));

      ghost var before, movedBird, speed, score := pipes, bird, velocityY, result;
      var i := 0;
      while i < |pipes|
        invariant bird == movedBird && velocityY == speed && result == score
        invariant running == old(running)
        invariant 0 <= i <= |pipes| == |before|
        invariant forall j :: 0 <= j < i ==> pipes[j] == before[j].(x := before[j].x + VelocityX)
        invariant forall j :: i <= j < |pipes| ==> pipes[j] == before[j]
        invariant gameOver <==> old(gameOver) || exists j :: 0 <= j < i && Collision(bird, pipes[j])
      {
        var pipe := pipes[i];
        pipe := pipe.(x := pipe.x + VelocityX);
        pipes := pipes[i := pipe];

        if Collision(bird, pipe) {
          gameOver := true;
        }
        i := i + 1;
      }

      if bird.y > BoardHeight {
        gameOver := true;
      }

      assert pipes == Shifted(before);
      TickKeepsInv(old(State()));
    }

    /** Back to the start position with no speed, no pipes and no score;
        the timers are not touched. */
    method ResetGame()
      modifies this
      ensures Valid()
      ensures State() == Reset(old(State()))
    {
      bird := NewBird();
      velocityY := 0;
      pipes := [];
      result := 0;
      gameOver := false;
    }

    /** The pipe-spawn event; `off` is the top pipe's randomly drawn y. */
    method PlacePipes(off: int)
      requires Valid()
      requires MinPipeY <= off <= MaxPipeY
      modifies this
      ensures Valid()
      ensures State() == Spawn(old(State()), off)
    {
      var topPipe := NewPipe(TopPipeImg);
      topPipe := topPipe.(y := off);
      pipes := pipes + [topPipe];

      var bottomPipe := NewPipe(BottomPipeImg);
      bottomPipe := bottomPipe.(y := topPipe.y + PipeHeight + OpeningSpace);
      pipes := pipes + [bottomPipe];

      assert pipes == old(pipes) + PipePair(off);
      PairedAppend(old(pipes), off);
    }

    /** A key press. */
    method KeyPressed(keyCode: int)
      requires Valid()
      modifies this
      ensures Valid()
      ensures State() == OnKey(old(State()), keyCode)
    {
      if keyCode == KeySpace || keyCode == KeyUp {
        velocityY := JumpVelocity;
      }
      if keyCode == KeyR && gameOver {
        ResetGame();
        running := true;
      }
    }

    /** The game-loop timer event. */
    method ActionPerformed()
      requires Valid()
      modifies this
      ensures Valid()
      ensures State() == OnAction(old(State()))
    {
      Move();
      if gameOver {
        running := false;
      }
    }
  }
}
