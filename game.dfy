/** The single-bird game: a queue of pipe pairs scrolled left, a spawn
    countdown, collision against the ground and the head pipe, and an
    edge-triggered score. */
module Game {
  import opened Geometry
  import opened Settings
  import opened Birds

  /** A pipe pair: its x, whether the bird has passed it, and its two
      barrier rectangles as last recomputed. */
  datatype Pipe = Pipe(x: int, passed: bool, topRect: Rect, bottomRect: Rect)

  /** A pair's rectangle recomputation: both rectangles move to the pair's
      current x and keep their size and vertical placement. */
  function Refreshed(p: Pipe): Pipe {
    p.(topRect := p.topRect.(x := p.x), bottomRect := p.bottomRect.(x := p.x))
  }

  /** One pass of the pipe loop: recompute the rectangles (from the x before
      the move), move left by `speed`, and mark the pair passed once its right
      edge has reached the bird's x. */
  function Advanced(c: Config, p: Pipe): Pipe {
    var q := Refreshed(p).(x := p.x - c.speed);
    if q.x + c.pipeWidth <= c.birdX then q.(passed := true) else q
  }

  /** The pipe loop over the whole queue, in order. */
  function AdvancedAll(c: Config, ps: seq<Pipe>): (r: seq<Pipe>)
    ensures |r| == |ps|
    ensures forall i :: 0 <= i < |ps| ==> r[i] == Advanced(c, ps[i])
    decreases |ps|
  {
    if ps == [] then [] else [Advanced(c, ps[0])] + AdvancedAll(c, ps[1..])
  }

  /** A pair entirely left of the screen. */
  predicate OffScreen(c: Config, p: Pipe) {
    p.x + c.pipeWidth <= 0
  }

  /** Whether the countdown, once lowered by `speed`, has reached the screen's
      right edge, so that a pair is spawned this frame. */
  predicate SpawnDue(c: Config, nextPipeX: int) {
    nextPipeX - c.speed <= c.width
  }

  /** The distance drawn for the next pipe must lie in the configured closed
      range whenever a spawn happens. */
  predicate DistanceOk(c: Config, nextPipeX: int, distance: int) {
    SpawnDue(c, nextPipeX) ==> c.distanceLo <= distance <= c.distanceHi
  }

  /** What the outside world supplies for one frame: how many times the flap
      key went down, and, for a spawn, the new pair and the drawn distance. */
  datatype Frame = Frame(presses: nat, newPipe: Pipe, distance: int)

  /** The game's fields as a value; `pipes[0]` is the head of the queue. */
  datatype GameState = GameState(
    score: int,
    gameOver: bool,
    passedPipe: bool,
    nextPipeX: int,
    pipes: seq<Pipe>,
    bird: BirdState)
  {
    /** The bird's hitbox meets the ground or either barrier of the head pair. */
    predicate BirdCollided(c: Config)
      requires |pipes| > 0
    {
      bird.Collided(c.ground) || bird.Collided(pipes[0].topRect) || bird.Collided(pipes[0].bottomRect)
    }
  }

  /** The state `reset` leaves, given the first pair it creates. */
  function InitialGame(c: Config, first: Pipe): GameState {
    GameState(0, false, false, c.width + c.distanceLo, [first], InitialBird(c))
  }

  /** The pipe generator: append the new pair and restart the countdown. */
  function Generated(c: Config, s: GameState, newPipe: Pipe, distance: int): GameState {
    s.(pipes := s.pipes + [newPipe], nextPipeX := c.width + distance)
  }

  /** The queue before the move: the old queue, plus the new pair on a spawn. */
  function Queued(c: Config, s: GameState, newPipe: Pipe): seq<Pipe> {
    if SpawnDue(c, s.nextPipeX) then s.pipes + [newPipe] else s.pipes
  }

  /** Whether the head of the moved queue is retired this frame. */
  predicate HeadRetired(c: Config, s: GameState, newPipe: Pipe) {
    var q := Queued(c, s, newPipe);
    |q| > 0 && OffScreen(c, Advanced(c, q[0]))
  }

  /** The pipe update: countdown, spawn, move every pair, retire the head. */
  function PipesUpdated(c: Config, s: GameState, newPipe: Pipe, distance: int): GameState {
    var s1 := s.(nextPipeX := s.nextPipeX - c.speed);
    var s2 := if s1.nextPipeX <= c.width then Generated(c, s1, newPipe, distance) else s1;
    var moved := AdvancedAll(c, s2.pipes);
    s2.(pipes := if |moved| > 0 && OffScreen(c, moved[0]) then moved[1..] else moved)
  }

  /** One press of the flap key as the event loop handles it: flap, then
      release the latch straight away. */
  function KeyPressed(c: Config, b: BirdState): BirdState {
    AfterFlap(c, b).(flapping := false)
  }

  /** The event loop over `n` presses in one frame. */
  function KeyPresses(c: Config, b: BirdState, n: nat): BirdState
    decreases n
  {
    if n == 0 then b else KeyPresses(c, KeyPressed(c, b), n - 1)
  }

  /** The score update: clear the latch while the head is not passed, and
      count a passed head once, setting the latch. */
  function Scored(s: GameState): GameState
    requires |s.pipes| > 0
  {
    var s1 := if !s.pipes[0].passed then s.(passedPipe := false) else s;
    if s1.pipes[0].passed && !s1.passedPipe then s1.(score := s1.score + 1, passedPipe := true) else s1
  }

  /** The collision check: a hit kills the bird and ends the game. */
  function Hit(c: Config, s: GameState): GameState
    requires |s.pipes| > 0
  {
    if s.BirdCollided(c) then s.(bird := s.bird.(dead := true), gameOver := true) else s
  }

  /** The game's `update`: bird physics, then the pipes. */
  function Moved(c: Config, s: GameState, newPipe: Pipe, distance: int): GameState {
    PipesUpdated(c, s.(bird := AfterUpdate(c, s.bird)), newPipe, distance)
  }

  /** One game step: input, collision, score, then the update. */
  function Stepped(c: Config, s: GameState, f: Frame): GameState
    requires |s.pipes| > 0
  {
    Moved(c, Scored(Hit(c, s.(bird := KeyPresses(c, s.bird, f.presses)))), f.newPipe, f.distance)
  }

  /** A sequence of frames can be played from `s`: the queue is never empty
      when a step reads its head, and every drawn distance is in range. */
  predicate Playable(c: Config, s: GameState, frames: seq<Frame>)
    decreases |frames|
  {
    frames == [] ||
    (&& |s.pipes| > 0
     && DistanceOk(c, s.nextPipeX, frames[0].distance)
     && Playable(c, Stepped(c, s, frames[0]), frames[1..]))
  }

  /** The state after playing `frames` from `s`. */
  function Run(c: Config, s: GameState, frames: seq<Frame>): GameState
    requires Playable(c, s, frames)
    decreases |frames|
  {
    if frames == [] then s else Run(c, Stepped(c, s, frames[0]), frames[1..])
  }

  /** Every state visited before a frame has a passed pair at its head. */
  predicate PassedStreak(c: Config, s: GameState, frames: seq<Frame>)
    decreases |frames|
  {
    frames == [] ||
    (&& |s.pipes| > 0
     && s.pipes[0].passed
     && DistanceOk(c, s.nextPipeX, frames[0].distance)
     && PassedStreak(c, Stepped(c, s, frames[0]), frames[1..]))
  }

  // ---------------------------------------------------------------- pipes

  /** The pipe update, piece by piece: the countdown, the queue before the
      move, and the moved queue with the head retired if it left the screen;
      nothing else in the state changes. */
  lemma PipesUpdatedParts(c: Config, s: GameState, newPipe: Pipe, distance: int)
    ensures var r := PipesUpdated(c, s, newPipe, distance);
      var moved := AdvancedAll(c, Queued(c, s, newPipe));
      && r.nextPipeX == (if SpawnDue(c, s.nextPipeX) then c.width + distance else s.nextPipeX - c.speed)
      && r.pipes == (if HeadRetired(c, s, newPipe) then moved[1..] else moved)
      && r.(pipes := s.pipes, nextPipeX := s.nextPipeX) == s
  {
  }

  /** The generator appends exactly one pair at the tail, leaves the pairs
      already queued as they were, and restarts the countdown inside the
      closed range the distance is drawn from. */
  lemma GeneratedAppendsOne(c: Config, s: GameState, newPipe: Pipe, distance: int)
    requires c.distanceLo <= distance <= c.distanceHi
    ensures var r := Generated(c, s, newPipe, distance);
      && |r.pipes| == |s.pipes| + 1 && r.pipes[..|s.pipes|] == s.pipes && r.pipes[|s.pipes|] == newPipe
      && c.width + c.distanceLo <= r.nextPipeX <= c.width + c.distanceHi
      && r.(pipes := s.pipes, nextPipeX := s.nextPipeX) == s
  {
  }

  /** The countdown drops by `speed` each frame and a pair is appended exactly
      when the lowered value has reached the screen's right edge, and never
      otherwise; a spawn restarts the countdown within the range, and the new
      pair ends at the tail of the moved queue. */
  lemma SpawnIffDue(c: Config, s: GameState, newPipe: Pipe, distance: int)
    requires DistanceOk(c, s.nextPipeX, distance)
    ensures var r := PipesUpdated(c, s, newPipe, distance);
      && |Queued(c, s, newPipe)| == |s.pipes| + (if s.nextPipeX - c.speed <= c.width then 1 else 0)
      && Queued(c, s, newPipe)[..|s.pipes|] == s.pipes
      && (SpawnDue(c, s.nextPipeX) ==> c.width + c.distanceLo <= r.nextPipeX <= c.width + c.distanceHi)
      && (!SpawnDue(c, s.nextPipeX) ==> r.nextPipeX == s.nextPipeX - c.speed)
      && (SpawnDue(c, s.nextPipeX) && |r.pipes| > 0 ==> r.pipes[|r.pipes| - 1] == Advanced(c, newPipe))
  {
    var q := Queued(c, s, newPipe);
    var moved := AdvancedAll(c, q);
    var r := PipesUpdated(c, s, newPipe, distance);
    assert r.pipes == if HeadRetired(c, s, newPipe) then moved[1..] else moved;
  }

  /** The queue grows by one on a spawn and shrinks by one when the head is
      retired, and by nothing else: at most one pair at each end per frame. */
  lemma PipesUpdatedLength(c: Config, s: GameState, newPipe: Pipe, distance: int)
    ensures var r := PipesUpdated(c, s, newPipe, distance);
      && |r.pipes| == |s.pipes| + (if SpawnDue(c, s.nextPipeX) then 1 else 0)
                                - (if HeadRetired(c, s, newPipe) then 1 else 0)
      && |s.pipes| - 1 <= |r.pipes| <= |s.pipes| + 1
  {
    var q := Queued(c, s, newPipe);
    assert PipesUpdated(c, s, newPipe, distance).pipes
        == if HeadRetired(c, s, newPipe) then AdvancedAll(c, q)[1..] else AdvancedAll(c, q);
  }

  /** Every pair that stays in the queue keeps its place in the order, moves
      left by exactly `speed`, and is passed afterwards exactly when it was
      passed before or its right edge is now at or left of the bird: `passed`
      is never cleared. Its rectangles lag one frame: they sit at the x the
      pair had before the move. Only the head can leave, and only when off
      screen. */
  lemma PipesUpdatedShift(c: Config, s: GameState, newPipe: Pipe, distance: int)
    ensures var r := PipesUpdated(c, s, newPipe, distance);
      var k := if HeadRetired(c, s, newPipe) then 1 else 0;
      && (forall i :: 0 <= i < |s.pipes| - k ==>
            && r.pipes[i].x == s.pipes[i + k].x - c.speed
            && (r.pipes[i].passed <==> s.pipes[i + k].passed || r.pipes[i].x + c.pipeWidth <= c.birdX)
            && r.pipes[i].topRect.x == s.pipes[i + k].x == r.pipes[i].x + c.speed
            && r.pipes[i].bottomRect.x == s.pipes[i + k].x)
      && (|s.pipes| > 0 && k == 1 ==> OffScreen(c, Advanced(c, s.pipes[0])))
      && (|s.pipes| > 0 && k == 0 ==> !OffScreen(c, Advanced(c, s.pipes[0])))
  {
    var q := Queued(c, s, newPipe);
    var moved := AdvancedAll(c, q);
    var r := PipesUpdated(c, s, newPipe, distance);
    var k := if HeadRetired(c, s, newPipe) then 1 else 0;
    assert r.pipes == moved[k..];
    forall i | 0 <= i < |s.pipes| - k
      ensures r.pipes[i] == Advanced(c, s.pipes[i + k])
    {
      assert r.pipes[i] == moved[i + k];
      assert q[i + k] == s.pipes[i + k];
    }
    if |s.pipes| > 0 {
      assert q[0] == s.pipes[0];
    }
  }

  /** Pairs in the queue ordered by x, left to right. */
  predicate OrderedByX(ps: seq<Pipe>) {
    forall i, j :: 0 <= i < j < |ps| ==> ps[i].x <= ps[j].x
  }

  /** Appending a pair no further left than the tail keeps the order. */
  lemma AppendKeepsOrder(ps: seq<Pipe>, p: Pipe)
    requires OrderedByX(ps)
    requires |ps| > 0 ==> ps[|ps| - 1].x <= p.x
    ensures OrderedByX(ps + [p])
  {
    var q := ps + [p];
    forall i, j | 0 <= i < j < |q| ensures q[i].x <= q[j].x {
      if j == |ps| {
        assert ps[i].x <= ps[|ps| - 1].x;
      }
    }
  }

  /** Moving every pair by the same amount keeps the order. */
  lemma AdvancedAllKeepsOrder(c: Config, ps: seq<Pipe>)
    requires OrderedByX(ps)
    ensures OrderedByX(AdvancedAll(c, ps))
  {
    var moved := AdvancedAll(c, ps);
    forall i, j | 0 <= i < j < |moved| ensures moved[i].x <= moved[j].x {
      assert moved[i].x == ps[i].x - c.speed && moved[j].x == ps[j].x - c.speed;
    }
  }

  /** The pipe update keeps the queue ordered by x, provided a spawned pair is
      not left of the current tail. */
  lemma PipesUpdatedKeepsOrder(c: Config, s: GameState, newPipe: Pipe, distance: int)
    requires OrderedByX(s.pipes)
    requires |s.pipes| > 0 ==> s.pipes[|s.pipes| - 1].x <= newPipe.x
    ensures OrderedByX(PipesUpdated(c, s, newPipe, distance).pipes)
  {
    if SpawnDue(c, s.nextPipeX) {
      AppendKeepsOrder(s.pipes, newPipe);
    }
    AdvancedAllKeepsOrder(c, Queued(c, s, newPipe));
    PipesUpdatedParts(c, s, newPipe, distance);
  }

  // ---------------------------------------------------------------- input

  /** The key handler never leaves the latch set and gives the full upward
      impulse when the bird is below the ceiling. It never moves the bird or
      its hitbox. */
  lemma KeyPressedEffect(c: Config, b: BirdState)
    ensures !KeyPressed(c, b).flapping
    ensures KeyPressed(c, b).y == b.y && KeyPressed(c, b).shape == b.shape && KeyPressed(c, b).dead == b.dead
    ensures KeyPressed(c, b).yVelocity == if b.y > 0 && !b.flapping then -c.gravityMaxVelocity else b.yVelocity
  {
  }

  /** Because the handler releases the latch after each press, several
      presses in one frame act exactly like one, provided the latch was clear
      to begin with (which the handler itself guarantees, see StepBird). */
  lemma {:induction false} KeyPressesCollapse(c: Config, b: BirdState, n: nat)
    requires n >= 1 && !b.flapping
    ensures KeyPresses(c, b, n) == KeyPressed(c, b)
    decreases n
  {
    if n > 1 {
      var b1 := KeyPressed(c, b);
      KeyPressesCollapse(c, b1, n - 1);
      assert !b1.flapping;
    }
  }

  /** Presses never move the bird or its hitbox and never revive or kill it,
      and after at least one press the latch is clear. */
  lemma {:induction false} KeyPressesKeepPosition(c: Config, b: BirdState, n: nat)
    ensures KeyPresses(c, b, n).y == b.y && KeyPresses(c, b, n).shape == b.shape
    ensures KeyPresses(c, b, n).dead == b.dead
    ensures n >= 1 || !b.flapping ==> !KeyPresses(c, b, n).flapping
    decreases n
  {
    if n > 0 {
      KeyPressesKeepPosition(c, KeyPressed(c, b), n - 1);
    }
  }

  // ---------------------------------------------------------------- step

  /** Collision reads only the head pair: the rest of the queue is irrelevant. */
  lemma CollisionSeesOnlyHead(c: Config, s: GameState, rest: seq<Pipe>)
    requires |s.pipes| > 0
    ensures s.(pipes := [s.pipes[0]] + rest).BirdCollided(c) == s.BirdCollided(c)
  {
  }

  /** The score rises by one exactly when the head is passed and the latch is
      clear; the latch afterwards records whether the head was passed. */
  lemma StepScore(c: Config, s: GameState, f: Frame)
    requires |s.pipes| > 0
    ensures var r := Stepped(c, s, f);
      && r.score == s.score + (if s.pipes[0].passed && !s.passedPipe then 1 else 0)
      && r.passedPipe == s.pipes[0].passed
      && s.score <= r.score <= s.score + 1
  {
  }

  /** A side effect of the latch: if a pair is already passed when it becomes
      the head while the latch is still set by the head before it, the step
      after does not count it, so that pair never raises the score. */
  lemma PassedSuccessorNotCounted(c: Config, s: GameState, f: Frame, f2: Frame)
    requires |s.pipes| > 0 && s.pipes[0].passed && s.passedPipe
    requires |Stepped(c, s, f).pipes| > 0 && Stepped(c, s, f).pipes[0].passed
    ensures Stepped(c, s, f).passedPipe
    ensures Stepped(c, Stepped(c, s, f), f2).score == s.score
  {
    StepScore(c, s, f);
    StepScore(c, Stepped(c, s, f), f2);
  }

  /** `game_over` is set exactly when the bird, with the hitbox it had before
      the step, meets the ground or the head pair, and is never cleared. The
      bird is marked dead at the same moment. */
  lemma StepGameOver(c: Config, s: GameState, f: Frame)
    requires |s.pipes| > 0
    ensures var r := Stepped(c, s, f);
      && r.gameOver == (s.gameOver || s.BirdCollided(c))
      && (s.BirdCollided(c) ==> r.bird.dead)
      && (s.gameOver ==> r.gameOver)
  {
    KeyPressesKeepPosition(c, s.bird, f.presses);
  }

  /** A step leaves the bird's velocity at or below the cap, builds the new
      hitbox at the bird's height from before the step, and, since the key
      handler releases the latch after every flap, never leaves the latch set
      unless it was set before. */
  lemma StepBird(c: Config, s: GameState, f: Frame)
    requires |s.pipes| > 0
    ensures var r := Stepped(c, s, f);
      && r.bird.yVelocity <= c.gravityMaxVelocity
      && r.bird.shape == ShapeAt(c, s.bird.y)
      && (!s.bird.flapping ==> !r.bird.flapping)
  {
    KeyPressesKeepPosition(c, s.bird, f.presses);
  }

  // ---------------------------------------------------------------- runs

  /** Over any run the score never goes down and rises by at most one a frame. */
  lemma {:induction false} RunScoreBounds(c: Config, s: GameState, frames: seq<Frame>)
    requires Playable(c, s, frames)
    ensures s.score <= Run(c, s, frames).score <= s.score + |frames|
    decreases |frames|
  {
    if frames != [] {
      StepScore(c, s, frames[0]);
      RunScoreBounds(c, Stepped(c, s, frames[0]), frames[1..]);
    }
  }

  /** Once over, a game stays over for the rest of any run: only a reset can
      clear the flag. */
  lemma {:induction false} RunGameOverSticky(c: Config, s: GameState, frames: seq<Frame>)
    requires Playable(c, s, frames) && s.gameOver
    ensures Run(c, s, frames).gameOver
    decreases |frames|
  {
    if frames != [] {
      StepGameOver(c, s, frames[0]);
      RunGameOverSticky(c, Stepped(c, s, frames[0]), frames[1..]);
    }
  }

  /** The edge trigger: while the head of the queue stays passed, frame after
      frame, the score rises at most once, and not at all if the latch was
      already set when the streak began. */
  lemma {:induction false} PassedStreakScoresOnce(c: Config, s: GameState, frames: seq<Frame>)
    requires PassedStreak(c, s, frames)
    ensures Playable(c, s, frames)
    ensures Run(c, s, frames).score <= s.score + 1
    ensures s.passedPipe ==> Run(c, s, frames).score == s.score
    decreases |frames|
  {
    if frames != [] {
      var s' := Stepped(c, s, frames[0]);
      StepScore(c, s, frames[0]);
      PassedStreakScoresOnce(c, s', frames[1..]);
    }
  }

  // ---------------------------------------------------------------- object

  /** The game object. The pipe queue is a sequence field that the methods
      reassign; the bird is an object of its own. */
  class FlappyBirdGame {
    const cfg: Config
    var score: int
    var gameOver: bool
    var passedPipe: bool
    var nextPipeX: int
    var pipes: seq<Pipe>
    var bird: Bird

    ghost predicate Valid()
      reads this
    {
      bird.cfg == cfg
    }

    function State(): GameState
      reads this, bird
    {
      GameState(score, gameOver, passedPipe, nextPipeX, pipes, bird.State())
    }

    /** A new game starts in the reset state. */
    constructor (c: Config, first: Pipe)
      ensures Valid() && fresh(bird)
      ensures cfg == c && State() == InitialGame(c, first)
    {
      cfg := c;
      // Only so that `bird` is assigned before `new;`: `Reset` replaces it.
      bird := new Bird(c);
      new;
      Reset(first);
    }

    /** Zero score, no game over, latch clear, a queue of exactly one pair,
        the countdown at the screen width plus the smallest distance, and a
        new bird. */
    method Reset(first: Pipe)
      modifies this
      ensures Valid() && fresh(bird)
      ensures State() == InitialGame(cfg, first)
      ensures score == 0 && !gameOver && !passedPipe
      ensures pipes == [first] && nextPipeX == cfg.width + cfg.distanceLo
    {
      score := 0;
      gameOver := false;
      passedPipe := false;
      nextPipeX := cfg.width + cfg.distanceLo;
      pipes := [first];
      bird := new Bird(cfg);
    }

    /** The key events of one frame: each press flaps and then releases the
        latch. */
    method CheckEvents(presses: nat)
      requires Valid()
      modifies bird
      ensures bird.State() == KeyPresses(cfg, old(bird.State()), presses)
    {
      var i := 0;
      while i < presses
        invariant 0 <= i <= presses
        invariant KeyPresses(cfg, bird.State(), presses - i) == KeyPresses(cfg, old(bird.State()), presses)
      {
        bird.Flap();
        bird.flapping := false;
        i := i + 1;
      }
    }

    /** Append the new pair and restart the countdown from the drawn distance. */
    method GeneratePipes(newPipe: Pipe, distance: int)
      requires cfg.distanceLo <= distance <= cfg.distanceHi
      modifies this`pipes, this`nextPipeX
      ensures pipes == old(pipes) + [newPipe]
      ensures nextPipeX == cfg.width + distance
      ensures cfg.width + cfg.distanceLo <= nextPipeX <= cfg.width + cfg.distanceHi
    {
      pipes := pipes + [newPipe];
      nextPipeX := cfg.width + distance;
    }

    /** Count down, spawn if due, move every pair in place, retire the head
        if it has left the screen. */
    method UpdatePipes(newPipe: Pipe, distance: int)
      requires DistanceOk(cfg, nextPipeX, distance)
      modifies this`pipes, this`nextPipeX
      ensures State() == PipesUpdated(cfg, old(State()), newPipe, distance)
    {
      ghost var before := State();
      ghost var expected := PipesUpdated(cfg, before, newPipe, distance);
      PipesUpdatedParts(cfg, before, newPipe, distance);
      nextPipeX := nextPipeX - cfg.speed;
      if nextPipeX <= cfg.width {
        GeneratePipes(newPipe, distance);
      }
      assert nextPipeX == expected.nextPipeX && pipes == Queued(cfg, before, newPipe);
      if |pipes| == 0 {
        return;
      }
      MovePipes();
      if pipes[0].x + cfg.pipeWidth <= 0 {
        pipes := pipes[1..];
      }
      assert pipes == expected.pipes;
    }

    /** The loop of the pipe update: each pair in turn has its rectangles
        recomputed, moves left and may become passed. */
    method MovePipes()
      modifies this`pipes
      ensures pipes == AdvancedAll(cfg, old(pipes))
    {
      ghost var queued := pipes;
      var i := 0;
      while i < |pipes|
        invariant 0 <= i <= |pipes| == |queued|
        invariant forall k :: 0 <= k < i ==> pipes[k] == Advanced(cfg, queued[k])
        invariant forall k :: i <= k < |pipes| ==> pipes[k] == queued[k]
      {
        var pipe := Refreshed(pipes[i]);
        pipe := pipe.(x := pipe.x - cfg.speed);
        if pipe.x + cfg.pipeWidth <= cfg.birdX {
          pipe := pipe.(passed := true);
        }
        pipes := pipes[i := pipe];
        i := i + 1;
      }
    }

    /** The bird's physics, then the pipes. */
    method Update(newPipe: Pipe, distance: int)
      requires Valid() && DistanceOk(cfg, nextPipeX, distance)
      modifies this`pipes, this`nextPipeX, bird
      ensures Valid()
      ensures State() == Moved(cfg, old(State()), newPipe, distance)
    {
      bird.Update();
      UpdatePipes(newPipe, distance);
    }

    /** One step of the game loop (drawing is not part of this model). */
    method Step(f: Frame)
      requires Valid() && |pipes| > 0 && DistanceOk(cfg, nextPipeX, f.distance)
      modifies this, bird
      ensures Valid() && bird == old(bird)
      ensures State() == Stepped(cfg, old(State()), f)
    {
      ghost var s0 := State().(bird := KeyPresses(cfg, bird.State(), f.presses));
      CheckEvents(f.presses);
      assert State() == s0;
      ghost var s1 := Hit(cfg, s0);
      if State().BirdCollided(cfg) {
        bird.dead := true;
        gameOver := true;
      }
      assert State() == s1;
      if !pipes[0].passed {
        passedPipe := false;
      }
      if pipes[0].passed && !passedPipe {
        score := score + 1;
        passedPipe := true;
      }
      assert State() == Scored(s1);
      Update(f.newPipe, f.distance);
    }
  }
}
