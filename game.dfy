/**
 * The game logic of src/game.c: a bird that falls under gravity and is
 * pushed up by thrust, four groups of pipe sprites scrolling left and
 * recycled to the right edge, and the PLAYING / FALLING / GAMEOVER state
 * machine with a pause toggle.
 *
 * The file's static variables are the fields of class `Game`; `bird` and
 * `pipes[i]` point into the sprite array handed out by sprite_new, which
 * game_init fills in order, so the bird is slot 0 and `pipes[i]` is slot
 * 1 + i.  The clock, the thrust and pause inputs and `time(NULL)` are
 * parameters.  `float` is modelled by `real`.
 *
 * `World` is the value of all that state, and `UpdateWorld` and friends are
 * the specification the methods of `Game` are proved against.
 */
module Game {
  import opened Sprite
  import SpriteImpl
  import Xoroshiro

  // Screen, in Vulkan's coordinate system.
  const ScreenTop: real := -1.0
  const ScreenBottom: real := 1.0
  const ScreenHeight: real := 2.0
  const ScreenLeft: real := -1.0
  const ScreenRight: real := 1.0

  // Physics.
  const Gravity: real := 2.0
  const Thrust: real := -0.75
  const ThrustDelay: real := 0.1
  const ScrollSpeed: real := -0.24
  const FallSpeed: real := 0.1
  const Deadline: real := 120.0

  // Bird.
  const BirdX: real := -0.75
  const BirdY: real := -0.5
  const BirdWidth: real := 0.08
  const BirdHeight: real := 0.14

  // Pipes.
  const PipeWidth: real := 0.12
  const MinPipeHeight: real := 0.25
  const MaxPipeHeight: real := 1.0
  const InitialPipeGap: real := 0.64
  const PipeStep: real := 0.5
  const PipeHeadHeight: real := 0.5
  const PipeBodyWidth: real := 0.075
  const PipeBodyX: real := 0.0225

  /** Height of a pipe head on screen. */
  const HeadH: real := PipeHeadHeight * PipeWidth

  const Uint64Max: real := 18446744073709551615.0

  /** Number of entries of `pipes[]` in use: four groups of four. */
  const NumPipeSprites: nat := 4 * NumPipes

  const BirdSlot: nat := 0

  function PipeSlot(i: nat): nat { NumPlayers + i }

  datatype GameState = Playing | Falling | GameOver

  /** The static variables of game.c, with the sprite array they point into. */
  datatype World = World(state: GameState, pause: bool,
                         speedX: real, speedY: real,
                         lastTime: real, lastThrust: real,
                         nextPipe: nat, pipeGap: real,
                         rng0: bv64, rng1: bv64,
                         sprites: seq<Quad>)

  /** `next_pipe` is the first pipe of one of the groups. */
  predicate WellFormed(w: World) {
    |w.sprites| == NumSprites && w.nextPipe % 4 == 0 && w.nextPipe < NumPipeSprites
  }

  // ---------------------------------------------------------------------
  // Pipe heights.

  /** kMinPipeHeight + s[0] / UINT64_MAX * (kMaxPipeHeight - kMinPipeHeight). */
  function PipeHeight(r: bv64): (h: real)
    ensures MinPipeHeight <= h <= MaxPipeHeight
  {
    var n := r as int;
    assert 0 <= n <= 18446744073709551615;
    var f := n as real / Uint64Max;
    assert 0.0 <= f <= 1.0 by {
      assert n as real <= Uint64Max;
    }
    MinPipeHeight + f * (MaxPipeHeight - MinPipeHeight)
  }

  // ---------------------------------------------------------------------
  // game_reset.

  // The three pipe shapes of game_reset, as the quads the setter chains
  // leave behind.  The texture is kept except where sprite_set_th stretches
  // the body texture to 2h / kPipeWidth.

  /** The top pipe body: hangs from the top of the screen, h high; its texture stretches with it. */
  function TopBody(q: Quad, x: real, h: real): (r: Quad)
    ensures Rectangular(r) && GetX(r) == x + PipeBodyX && GetY(r) == ScreenTop
    ensures GetW(r) == PipeBodyWidth && GetH(r) == h
  {
    var left, right, top, bottom := x + PipeBodyX, x + PipeBodyX + PipeBodyWidth, ScreenTop, ScreenTop + h;
    var th := q.v0.ty + 2.0 * h / PipeWidth;
    Quad(Vertex(left, top, q.v0.tx, q.v0.ty), Vertex(left, bottom, q.v1.tx, th),
         Vertex(right, bottom, q.v2.tx, th), Vertex(right, top, q.v3.tx, q.v3.ty))
  }

  /** A pipe head: kPipeWidth wide, one head high, its top at `top`. */
  function Head(q: Quad, x: real, top: real): (r: Quad)
    ensures Rectangular(r) && GetX(r) == x && GetY(r) == top
    ensures GetW(r) == PipeWidth && GetH(r) == HeadH
  {
    var right, bottom := x + PipeWidth, top + HeadH;
    Quad(q.v0.(x := x, y := top), q.v1.(x := x, y := bottom),
         q.v2.(x := right, y := bottom), q.v3.(x := right, y := top))
  }

  /** The bottom pipe body: starts at `top` and is kScreenHeight - h - one head high. */
  function BottomBody(q: Quad, x: real, top: real, h: real): (r: Quad)
    ensures Rectangular(r) && GetX(r) == x + PipeBodyX && GetY(r) == top
    ensures GetW(r) == PipeBodyWidth && GetH(r) == ScreenHeight - h - HeadH
  {
    var left, right, bottom := x + PipeBodyX, x + PipeBodyX + PipeBodyWidth, top + (ScreenHeight - h - HeadH);
    var th := q.v0.ty + 2.0 * h / PipeWidth;
    Quad(Vertex(left, top, q.v0.tx, q.v0.ty), Vertex(left, bottom, q.v1.tx, th),
         Vertex(right, bottom, q.v2.tx, th), Vertex(right, top, q.v3.tx, q.v3.ty))
  }

  /** game_reset's set_x, set_y, set_w, set_h, set_th on the top body. */
  lemma TopBodyIsSetterChain(q: Quad, x: real, h: real)
    ensures TopBody(q, x, h) == SetTh(SetH(SetW(SetY(SetX(q, x + PipeBodyX), ScreenTop), PipeBodyWidth), h), 2.0 * h / PipeWidth)
  {
  }

  /** game_reset's set_x, set_y, set_w, set_h on a head. */
  lemma HeadIsSetterChain(q: Quad, x: real, top: real)
    ensures Head(q, x, top) == SetH(SetW(SetY(SetX(q, x), top), PipeWidth), HeadH)
  {
  }

  /** game_reset's set_x, set_y, set_w, set_h, set_th on the bottom body. */
  lemma BottomBodyIsSetterChain(q: Quad, x: real, top: real, h: real)
    ensures BottomBody(q, x, top, h) ==
            SetTh(SetH(SetW(SetY(SetX(q, x + PipeBodyX), top), PipeBodyWidth), ScreenHeight - h - HeadH), 2.0 * h / PipeWidth)
  {
  }

  /**
   * One iteration of game_reset's loop after the generator step: group g,
   * whose first pipe is i = 4g, at x = (i / 4) * kPipeStep.
   */
  function ResetGroup(s: seq<Quad>, g: nat, h: real, gap: real): (r: seq<Quad>)
    requires |s| == NumSprites && g < NumPipes
    ensures |r| == NumSprites
    ensures forall k {:trigger r[k]} :: 0 <= k < NumSprites && !(PipeSlot(4 * g) <= k < PipeSlot(4 * g) + SpritesPerPipe) ==> r[k] == s[k]
  {
    var i := 4 * g;
    var x := g as real * PipeStep;
    seq(NumSprites, k requires 0 <= k < NumSprites =>
      if k == PipeSlot(i) then TopBody(s[k], x, h)
      else if k == PipeSlot(i + 1) then Head(s[k], x, ScreenTop + h)
      else if k == PipeSlot(i + 2) then Head(s[k], x, ScreenTop + h + gap)
      else if k == PipeSlot(i + 3) then BottomBody(s[k], x, ScreenTop + h + gap + HeadH, h)
      else s[k])
  }

  /** ResetGroup is the four in-place writes of the loop body, one sprite after the other. */
  lemma ResetGroupIsUpdates(s: seq<Quad>, g: nat, h: real, gap: real)
    requires |s| == NumSprites && g < NumPipes
    ensures var i, x := 4 * g, g as real * PipeStep;
      var s1 := s[PipeSlot(i) := TopBody(s[PipeSlot(i)], x, h)];
      var s2 := s1[PipeSlot(i + 1) := Head(s1[PipeSlot(i + 1)], x, ScreenTop + h)];
      var s3 := s2[PipeSlot(i + 2) := Head(s2[PipeSlot(i + 2)], x, ScreenTop + h + gap)];
      ResetGroup(s, g, h, gap) == s3[PipeSlot(i + 3) := BottomBody(s3[PipeSlot(i + 3)], x, ScreenTop + h + gap + HeadH, h)]
  {
  }

  /** The sprites and the generator state the loops over the pipe groups work on. */
  datatype Pipes = Pipes(sprites: seq<Quad>, rng0: bv64, rng1: bv64)

  /** One iteration of game_reset's loop: step the generator, then lay out group g. */
  function ResetStep(p: Pipes, g: nat, gap: real): (r: Pipes)
    requires |p.sprites| == NumSprites && g < NumPipes
    ensures |r.sprites| == NumSprites
  {
    var a, b := Xoroshiro.Next0(p.rng0, p.rng1), Xoroshiro.Next1(p.rng0, p.rng1);
    Pipes(ResetGroup(p.sprites, g, PipeHeight(a), gap), a, b)
  }

  /**
   * game_reset's loop from group g on: the state the loop ends in when it
   * reaches group g in state p.  It never touches the bird or a group
   * before g.
   */
  function ResetFrom(p: Pipes, g: nat, gap: real): (r: Pipes)
    requires |p.sprites| == NumSprites && g <= NumPipes
    ensures |r.sprites| == NumSprites
    ensures forall k {:trigger r.sprites[k]} :: 0 <= k < PipeSlot(4 * g) ==> r.sprites[k] == p.sprites[k]
    decreases NumPipes - g
  {
    if g == NumPipes then p else ResetFrom(ResetStep(p, g, gap), g + 1, gap)
  }

  /** The bird back at its start position. */
  function PlaceBird(q: Quad): (r: Quad)
    ensures GetX(r) == BirdX && GetY(r) == BirdY
  {
    SetY(SetX(q, BirdX), BirdY)
  }

  /** game_reset. */
  function ResetWorld(w: World): (r: World)
    requires |w.sprites| == NumSprites
    ensures WellFormed(r) && r.state == Playing && r.nextPipe == 0 && r.pipeGap == InitialPipeGap
    ensures r.speedX == 0.0 && r.speedY == 0.0
    ensures r.pause == w.pause && r.lastTime == w.lastTime && r.lastThrust == w.lastThrust
  {
    var s := w.sprites[BirdSlot := PlaceBird(w.sprites[BirdSlot])];
    var p := ResetFrom(Pipes(s, w.rng0, w.rng1), 0, InitialPipeGap);
    w.(state := Playing, pipeGap := InitialPipeGap, sprites := p.sprites, rng0 := p.rng0, rng1 := p.rng1,
       nextPipe := 0, speedX := 0.0, speedY := 0.0)
  }

  /** ResetWorld in its three stages: the bird and the state, the loop over the groups, the speeds. */
  lemma ResetWorldIs(w: World, w1: World, w2: World)
    requires |w.sprites| == NumSprites
    requires w1 == w.(state := Playing, pipeGap := InitialPipeGap,
                      sprites := w.sprites[BirdSlot := PlaceBird(w.sprites[BirdSlot])])
    requires var p := ResetFrom(Pipes(w1.sprites, w1.rng0, w1.rng1), 0, w1.pipeGap);
             w2 == w1.(sprites := p.sprites, rng0 := p.rng0, rng1 := p.rng1)
    ensures ResetWorld(w) == w2.(nextPipe := 0, speedX := 0.0, speedY := 0.0)
  {
  }

  /**
   * The layout game_reset gives a group at horizontal offset x: a top body
   * hanging from the top of the screen, a head under it, the gap, a second
   * head and a bottom body reaching `gap` past the bottom of the screen.
   */
  predicate GroupLayout(s: seq<Quad>, i: nat, x: real, gap: real)
    requires |s| == NumSprites && i + SpritesPerPipe <= NumPipeSprites
  {
    var topBody, topHead := s[PipeSlot(i)], s[PipeSlot(i + 1)];
    var bottomHead, bottomBody := s[PipeSlot(i + 2)], s[PipeSlot(i + 3)];
    MinPipeHeight <= GetH(topBody) <= MaxPipeHeight &&
    Rectangular(topBody) && Rectangular(topHead) && Rectangular(bottomHead) && Rectangular(bottomBody) &&
    GetX(topBody) == x + PipeBodyX && GetY(topBody) == ScreenTop && GetW(topBody) == PipeBodyWidth &&
    GetX(topHead) == x && GetY(topHead) == GetBottom(topBody) &&
    GetW(topHead) == PipeWidth && GetH(topHead) == HeadH &&
    GetX(bottomHead) == x && GetY(bottomHead) == GetY(topHead) + gap &&
    GetW(bottomHead) == PipeWidth && GetH(bottomHead) == HeadH &&
    GetX(bottomBody) == x + PipeBodyX && GetY(bottomBody) == GetBottom(bottomHead) &&
    GetW(bottomBody) == PipeBodyWidth && GetBottom(bottomBody) == ScreenBottom + gap
  }

  /** GroupLayout only looks at the group's four sprites. */
  lemma GroupLayoutFrame(s: seq<Quad>, t: seq<Quad>, i: nat, x: real, gap: real)
    requires |s| == NumSprites && |t| == NumSprites && i + SpritesPerPipe <= NumPipeSprites
    requires GroupLayout(s, i, x, gap)
    requires forall k :: PipeSlot(i) <= k < PipeSlot(i) + SpritesPerPipe ==> t[k] == s[k]
    ensures GroupLayout(t, i, x, gap)
  {
    assert t[PipeSlot(i)] == s[PipeSlot(i)] && t[PipeSlot(i + 1)] == s[PipeSlot(i + 1)];
    assert t[PipeSlot(i + 2)] == s[PipeSlot(i + 2)] && t[PipeSlot(i + 3)] == s[PipeSlot(i + 3)];
  }

  lemma ResetGroupLayout(s: seq<Quad>, g: nat, h: real, gap: real)
    requires |s| == NumSprites && g < NumPipes
    requires MinPipeHeight <= h <= MaxPipeHeight
    ensures GroupLayout(ResetGroup(s, g, h, gap), 4 * g, g as real * PipeStep, gap)
  {
    var i := 4 * g;
    var x := g as real * PipeStep;
    var r := ResetGroup(s, g, h, gap);
    assert r[PipeSlot(i)] == TopBody(s[PipeSlot(i)], x, h);
    assert r[PipeSlot(i + 1)] == Head(s[PipeSlot(i + 1)], x, ScreenTop + h);
    assert r[PipeSlot(i + 2)] == Head(s[PipeSlot(i + 2)], x, ScreenTop + h + gap);
    assert r[PipeSlot(i + 3)] == BottomBody(s[PipeSlot(i + 3)], x, ScreenTop + h + gap + HeadH, h);
  }

  /** A step of game_reset's loop lays out its own group. */
  lemma ResetStepLaysOut(p: Pipes, g: nat, gap: real)
    requires |p.sprites| == NumSprites && g < NumPipes
    ensures GroupLayout(ResetStep(p, g, gap).sprites, 4 * g, g as real * PipeStep, gap)
  {
    ResetGroupLayout(p.sprites, g, PipeHeight(Xoroshiro.Next0(p.rng0, p.rng1)), gap);
  }

  lemma ResetFromStep(p: Pipes, g: nat, gap: real)
    requires |p.sprites| == NumSprites && g < NumPipes
    ensures ResetFrom(p, g, gap) == ResetFrom(ResetStep(p, g, gap), g + 1, gap)
  {
  }

  /** The loop from group g on lays out group g at x = g * kPipeStep. */
  lemma ResetFromLaysOutFirst(p: Pipes, g: nat, gap: real)
    requires |p.sprites| == NumSprites && g < NumPipes
    ensures GroupLayout(ResetFrom(p, g, gap).sprites, 4 * g, g as real * PipeStep, gap)
  {
    var q := ResetStep(p, g, gap);
    ResetStepLaysOut(p, g, gap);
    GroupLayoutFrame(q.sprites, ResetFrom(q, g + 1, gap).sprites, 4 * g, g as real * PipeStep, gap);
  }

  /** The state game_reset's loop is in when it reaches group j, having been in p at group g. */
  function Reached(p: Pipes, g: nat, j: nat, gap: real): (r: Pipes)
    requires |p.sprites| == NumSprites && g <= j <= NumPipes
    ensures |r.sprites| == NumSprites
    decreases j - g
  {
    if g == j then p else Reached(ResetStep(p, g, gap), g + 1, j, gap)
  }

  /** The loop run from g ends where the loop run from the state it reaches at j ends. */
  lemma {:induction false} ResetFromReached(p: Pipes, g: nat, j: nat, gap: real)
    requires |p.sprites| == NumSprites && g <= j <= NumPipes
    ensures ResetFrom(p, g, gap) == ResetFrom(Reached(p, g, j, gap), j, gap)
    decreases j - g
  {
    if g < j {
      ResetFromStep(p, g, gap);
      ResetFromReached(ResetStep(p, g, gap), g + 1, j, gap);
    }
  }

  /** The loop from group g on lays out every group j >= g at x = j * kPipeStep. */
  lemma ResetFromLaysOut(p: Pipes, g: nat, j: nat, gap: real)
    requires |p.sprites| == NumSprites && g <= j < NumPipes
    ensures GroupLayout(ResetFrom(p, g, gap).sprites, 4 * j, j as real * PipeStep, gap)
  {
    ResetFromReached(p, g, j, gap);
    ResetFromLaysOutFirst(Reached(p, g, j, gap), j, gap);
  }

  /**
   * After game_reset the bird is at its start position and group g is laid
   * out at x = g * kPipeStep with the initial gap.
   */
  lemma ResetLayout(w: World, g: nat)
    requires |w.sprites| == NumSprites && g < NumPipes
    ensures GetX(ResetWorld(w).sprites[BirdSlot]) == BirdX && GetY(ResetWorld(w).sprites[BirdSlot]) == BirdY
    ensures GroupLayout(ResetWorld(w).sprites, 4 * g, g as real * PipeStep, InitialPipeGap)
  {
    var s := w.sprites[BirdSlot := PlaceBird(w.sprites[BirdSlot])];
    ResetFromLaysOut(Pipes(s, w.rng0, w.rng1), 0, g, InitialPipeGap);
  }

  /** The passage between the two heads of a group is the gap less one head. */
  lemma PassageHeight(s: seq<Quad>, i: nat, x: real, gap: real)
    requires |s| == NumSprites && i + SpritesPerPipe <= NumPipeSprites
    requires GroupLayout(s, i, x, gap)
    ensures GetY(s[PipeSlot(i + 2)]) - GetBottom(s[PipeSlot(i + 1)]) == gap - HeadH
  {
  }

  // ---------------------------------------------------------------------
  // scroll_pipes.

  /** One iteration: the head's x moves by kScrollSpeed * dt and the group follows it. */
  function ScrollGroup(s: seq<Quad>, i: nat, dt: real): (r: seq<Quad>)
    requires |s| == NumSprites && i + SpritesPerPipe <= NumPipeSprites
    ensures |r| == NumSprites
  {
    var newX := GetX(s[PipeSlot(i + 1)]) + ScrollSpeed * dt;
    s[PipeSlot(i) := SetX(s[PipeSlot(i)], newX + PipeBodyX)]
     [PipeSlot(i + 1) := SetX(s[PipeSlot(i + 1)], newX)]
     [PipeSlot(i + 2) := SetX(s[PipeSlot(i + 2)], newX)]
     [PipeSlot(i + 3) := SetX(s[PipeSlot(i + 3)], newX + PipeBodyX)]
  }

  function ScrollStep(p: Pipes, g: nat, dt: real): (r: Pipes)
    requires |p.sprites| == NumSprites && g < NumPipes
    ensures |r.sprites| == NumSprites
  {
    p.(sprites := ScrollGroup(p.sprites, 4 * g, dt))
  }

  /** scroll_pipes' loop from group g on.  It never touches the bird or a group before g. */
  function ScrollFrom(p: Pipes, dt: real, g: nat): (r: Pipes)
    requires |p.sprites| == NumSprites && g <= NumPipes
    ensures |r.sprites| == NumSprites
    ensures forall k {:trigger r.sprites[k]} :: 0 <= k < PipeSlot(4 * g) ==> r.sprites[k] == p.sprites[k]
    decreases NumPipes - g
  {
    if g == NumPipes then p else ScrollFrom(ScrollStep(p, g, dt), dt, g + 1)
  }

  lemma ScrollFromStep(p: Pipes, dt: real, g: nat)
    requires |p.sprites| == NumSprites && g < NumPipes
    ensures ScrollFrom(p, dt, g) == ScrollFrom(ScrollStep(p, g, dt), dt, g + 1)
  {
  }

  /** A scrolled group keeps its shape and only moves horizontally. */
  lemma ScrollGroupShifts(s: seq<Quad>, i: nat, dt: real)
    requires |s| == NumSprites && i + SpritesPerPipe <= NumPipeSprites
    ensures var r := ScrollGroup(s, i, dt);
      GetX(r[PipeSlot(i + 1)]) == GetX(s[PipeSlot(i + 1)]) + ScrollSpeed * dt &&
      GetX(r[PipeSlot(i + 2)]) == GetX(r[PipeSlot(i + 1)]) &&
      GetX(r[PipeSlot(i)]) == GetX(r[PipeSlot(i + 1)]) + PipeBodyX &&
      GetX(r[PipeSlot(i + 3)]) == GetX(r[PipeSlot(i + 1)]) + PipeBodyX &&
      (forall k :: 0 <= k < NumSprites ==> SameY(s[k], r[k]) && SameTexture(s[k], r[k])) &&
      (forall k :: 0 <= k < NumSprites && !(PipeSlot(i) <= k < PipeSlot(i) + SpritesPerPipe) ==> r[k] == s[k])
  {
  }

  /** A group laid out at x is laid out at x + kScrollSpeed * dt after scrolling. */
  lemma ScrollGroupKeepsLayout(s: seq<Quad>, i: nat, x: real, gap: real, dt: real)
    requires |s| == NumSprites && i + SpritesPerPipe <= NumPipeSprites
    requires GroupLayout(s, i, x, gap)
    ensures GroupLayout(ScrollGroup(s, i, dt), i, x + ScrollSpeed * dt, gap)
  {
  }

  // ---------------------------------------------------------------------
  // Recycling the leftmost group.

  /** The recycled top body: moved to the right edge and given height h. */
  function RecycledTopBody(q: Quad, h: real): (r: Quad)
    ensures GetX(r) == ScreenRight && GetY(r) == GetY(q) && GetH(r) == h
    ensures Rectangular(q) ==> Rectangular(r) && GetW(r) == GetW(q)
  {
    SetTh(SetH(SetX(q, ScreenRight), h), 2.0 * h / PipeWidth)
  }

  /** A recycled head: moved to the right edge with its top at `top`, size kept. */
  function RecycledHead(q: Quad, top: real): (r: Quad)
    ensures GetX(r) == ScreenRight && GetY(r) == top && GetH(r) == GetH(q)
    ensures Rectangular(q) ==> Rectangular(r) && GetW(r) == GetW(q)
  {
    SetY(SetX(q, ScreenRight), top)
  }

  /** The recycled bottom body: from `top` down, kScreenHeight - h - one head high. */
  function RecycledBottomBody(q: Quad, top: real, h: real): (r: Quad)
    ensures GetX(r) == ScreenRight && GetY(r) == top && GetH(r) == ScreenHeight - h - HeadH
    ensures Rectangular(q) ==> Rectangular(r) && GetW(r) == GetW(q)
  {
    SetTh(SetH(SetY(SetX(q, ScreenRight), top), ScreenHeight - h - HeadH), 2.0 * h / PipeWidth)
  }

  /** kInitialPipeGap - (now / kDeadline) * kInitialPipeGap. */
  function GapAt(now: real): real {
    InitialPipeGap - (now / Deadline) * InitialPipeGap
  }

  /** The gap closes linearly, from kInitialPipeGap at time 0 to nothing at kDeadline. */
  lemma GapShrinks(now: real, later: real)
    requires 0.0 <= now <= later
    ensures GapAt(0.0) == InitialPipeGap && GapAt(Deadline) == 0.0
    ensures GapAt(later) <= GapAt(now) <= InitialPipeGap
  {
  }

  /** The sprite part of recycling the group at i with height h and gap `gap`. */
  function RecycleGroup(s: seq<Quad>, i: nat, h: real, gap: real): (r: seq<Quad>)
    requires |s| == NumSprites && i + SpritesPerPipe <= NumPipeSprites
    ensures |r| == NumSprites
    ensures forall k {:trigger r[k]} :: 0 <= k < NumSprites && !(PipeSlot(i) <= k < PipeSlot(i) + SpritesPerPipe) ==> r[k] == s[k]
  {
    s[PipeSlot(i) := RecycledTopBody(s[PipeSlot(i)], h)]
     [PipeSlot(i + 1) := RecycledHead(s[PipeSlot(i + 1)], ScreenTop + h)]
     [PipeSlot(i + 2) := RecycledHead(s[PipeSlot(i + 2)], ScreenTop + h + gap)]
     [PipeSlot(i + 3) := RecycledBottomBody(s[PipeSlot(i + 3)], ScreenTop + h + gap + HeadH, h)]
  }

  /**
   * `pipes[next_pipe]` is past kScreenLeft - kPipeWidth: the group gets a new
   * gap and height and moves to the right edge, and next_pipe moves on.
   */
  function RecycleWorld(w: World, now: real): (r: World)
    requires WellFormed(w)
    ensures WellFormed(r)
    ensures r.state == w.state && r.pause == w.pause && r.speedX == w.speedX && r.speedY == w.speedY
    ensures r.lastTime == w.lastTime && r.lastThrust == w.lastThrust
    ensures r.sprites[BirdSlot] == w.sprites[BirdSlot]
  {
    var gap := GapAt(now);
    var a, b := Xoroshiro.Next0(w.rng0, w.rng1), Xoroshiro.Next1(w.rng0, w.rng1);
    w.(pipeGap := gap, rng0 := a, rng1 := b, sprites := RecycleGroup(w.sprites, w.nextPipe, PipeHeight(a), gap),
       nextPipe := (w.nextPipe + SpritesPerPipe) % 16)
  }

  /** RecycleWorld in its stages: the gap and the generator, the sprites, next_pipe. */
  lemma RecycleWorldIs(w: World, now: real, w1: World, w2: World)
    requires WellFormed(w)
    requires w1 == w.(pipeGap := GapAt(now), rng0 := Xoroshiro.Next0(w.rng0, w.rng1), rng1 := Xoroshiro.Next1(w.rng0, w.rng1))
    requires w2 == w1.(sprites := RecycleGroup(w1.sprites, w1.nextPipe, PipeHeight(w1.rng0), w1.pipeGap))
    ensures RecycleWorld(w, now) == w2.(nextPipe := (w2.nextPipe + SpritesPerPipe) % 16)
  {
  }

  /**
   * The recycled group sits at x = kScreenRight with a new height in range
   * and the new gap between its heads, next_pipe moves to the following
   * group, and no other sprite moves.
   */
  lemma RecycleMovesGroupRight(w: World, now: real)
    requires WellFormed(w)
    ensures var r := RecycleWorld(w, now); var i := w.nextPipe;
      r.pipeGap == InitialPipeGap * (1.0 - now / Deadline) &&
      r.nextPipe == (if i == NumPipeSprites - SpritesPerPipe then 0 else i + SpritesPerPipe) &&
      GetX(r.sprites[PipeSlot(i)]) == ScreenRight && GetX(r.sprites[PipeSlot(i + 1)]) == ScreenRight &&
      GetX(r.sprites[PipeSlot(i + 2)]) == ScreenRight && GetX(r.sprites[PipeSlot(i + 3)]) == ScreenRight &&
      MinPipeHeight <= GetH(r.sprites[PipeSlot(i)]) <= MaxPipeHeight &&
      GetY(r.sprites[PipeSlot(i + 1)]) == ScreenTop + GetH(r.sprites[PipeSlot(i)]) &&
      GetY(r.sprites[PipeSlot(i + 2)]) == GetY(r.sprites[PipeSlot(i + 1)]) + r.pipeGap &&
      (forall k :: 0 <= k < NumSprites && !(PipeSlot(i) <= k < PipeSlot(i) + SpritesPerPipe) ==>
         r.sprites[k] == w.sprites[k])
  {
    var h := PipeHeight(Xoroshiro.Next0(w.rng0, w.rng1));
    RecycleGroupMoves(w.sprites, w.nextPipe, h, GapAt(now));
  }

  lemma RecycleGroupMoves(s: seq<Quad>, i: nat, h: real, gap: real)
    requires |s| == NumSprites && i + SpritesPerPipe <= NumPipeSprites
    ensures var r := RecycleGroup(s, i, h, gap);
      GetX(r[PipeSlot(i)]) == ScreenRight && GetX(r[PipeSlot(i + 1)]) == ScreenRight &&
      GetX(r[PipeSlot(i + 2)]) == ScreenRight && GetX(r[PipeSlot(i + 3)]) == ScreenRight &&
      GetH(r[PipeSlot(i)]) == h && GetY(r[PipeSlot(i + 1)]) == ScreenTop + h &&
      GetY(r[PipeSlot(i + 2)]) == ScreenTop + h + gap
  {
    var r := RecycleGroup(s, i, h, gap);
    assert r[PipeSlot(i)] == RecycledTopBody(s[PipeSlot(i)], h);
    assert r[PipeSlot(i + 1)] == RecycledHead(s[PipeSlot(i + 1)], ScreenTop + h);
    assert r[PipeSlot(i + 2)] == RecycledHead(s[PipeSlot(i + 2)], ScreenTop + h + gap);
    assert r[PipeSlot(i + 3)] == RecycledBottomBody(s[PipeSlot(i + 3)], ScreenTop + h + gap + HeadH, h);
  }

  // ---------------------------------------------------------------------
  // game_update.

  /** The bird collides with one of the four sprites of the group at next_pipe, or left the top. */
  predicate Hit(w: World)
    requires WellFormed(w)
  {
    var bird := w.sprites[BirdSlot];
    Intersect(bird, w.sprites[PipeSlot(w.nextPipe)]) ||
    Intersect(bird, w.sprites[PipeSlot(w.nextPipe + 1)]) ||
    Intersect(bird, w.sprites[PipeSlot(w.nextPipe + 2)]) ||
    Intersect(bird, w.sprites[PipeSlot(w.nextPipe + 3)]) ||
    GetY(bird) < ScreenTop
  }

  /** Thrust counts when pressed and the last counted thrust is older than kThrustDelay. */
  predicate ThrustFires(w: World, now: real, thrust: bool) {
    thrust && now - w.lastThrust > ThrustDelay
  }

  /** Gravity, then thrust: the start of the PLAYING case. */
  function Accelerate(w: World, now: real, dt: real, thrust: bool): (r: World)
    ensures r == w.(speedY := r.speedY, lastThrust := r.lastThrust)
    ensures r.lastThrust == if ThrustFires(w, now, thrust) then now else w.lastThrust
    ensures r.speedY == w.speedY + Gravity * dt + (if ThrustFires(w, now, thrust) then Thrust else 0.0)
  {
    var vy := w.speedY + Gravity * dt;
    if ThrustFires(w, now, thrust) then w.(speedY := vy + Thrust, lastThrust := now)
    else w.(speedY := vy)
  }

  /** The recycling test on the already scrolled pipes. */
  function MaybeRecycle(w: World, now: real): (r: World)
    requires WellFormed(w)
    ensures WellFormed(r)
    ensures r.state == w.state && r.pause == w.pause && r.speedX == w.speedX && r.speedY == w.speedY
    ensures r.lastTime == w.lastTime && r.lastThrust == w.lastThrust
    ensures r.sprites[BirdSlot] == w.sprites[BirdSlot]
  {
    if GetX(w.sprites[PipeSlot(w.nextPipe)]) < ScreenLeft - PipeWidth then RecycleWorld(w, now) else w
  }

  /** The hit test of the PLAYING case: a hit starts the fall, leaving the bottom ends the game. */
  function Judge(w: World): (r: World)
    requires WellFormed(w)
    ensures WellFormed(r) && r.pause == w.pause && r.lastTime == w.lastTime && r.lastThrust == w.lastThrust
    ensures Hit(w) ==> r == w.(state := Falling, speedX := -FallSpeed, speedY := FallSpeed)
    ensures !Hit(w) ==> r == w.(state := if GetY(w.sprites[BirdSlot]) > ScreenBottom then GameOver else w.state)
  {
    if Hit(w) then w.(state := Falling, speedX := -FallSpeed, speedY := FallSpeed)
    else if GetY(w.sprites[BirdSlot]) > ScreenBottom then w.(state := GameOver)
    else w
  }

  /** The PLAYING case of game_update. */
  function PlayStep(w: World, now: real, dt: real, thrust: bool): (r: World)
    requires WellFormed(w)
    ensures WellFormed(r) && r.pause == w.pause && r.lastTime == w.lastTime
    ensures r.lastThrust == if ThrustFires(w, now, thrust) then now else w.lastThrust
  {
    var w1 := Accelerate(w, now, dt, thrust);
    var w2 := w1.(sprites := ScrollFrom(Pipes(w1.sprites, w1.rng0, w1.rng1), dt, 0).sprites);
    Judge(MaybeRecycle(w2, now))
  }

  /** The FALLING case of game_update: gravity until the bird leaves the bottom. */
  function FallStep(w: World, dt: real): (r: World)
    requires WellFormed(w)
    ensures WellFormed(r) && r.sprites == w.sprites && r.speedY == w.speedY + Gravity * dt
    ensures r.state == if GetY(w.sprites[BirdSlot]) > ScreenBottom then GameOver else w.state
    ensures r == w.(speedY := r.speedY, state := r.state)
  {
    var w1 := w.(speedY := w.speedY + Gravity * dt);
    if GetY(w1.sprites[BirdSlot]) > ScreenBottom then w1.(state := GameOver) else w1
  }

  /** The bird sprite moved by (vx, vy) over dt. */
  function MovedBird(q: Quad, vx: real, vy: real, dt: real): (r: Quad)
    ensures GetX(r) == GetX(q) + vx * dt && GetY(r) == GetY(q) + vy * dt
    ensures Rectangular(q) ==> Rectangular(r) && GetW(r) == GetW(q) && GetH(r) == GetH(q)
    ensures SameTexture(q, r)
  {
    var q1 := SetX(q, GetX(q) + vx * dt);
    SetY(q1, GetY(q1) + vy * dt)
  }

  /** The bird moves by its speed over dt; nothing else changes. */
  function MoveBird(w: World, dt: real): (r: World)
    requires WellFormed(w)
    ensures WellFormed(r) && r == w.(sprites := r.sprites)
    ensures GetX(r.sprites[BirdSlot]) == GetX(w.sprites[BirdSlot]) + w.speedX * dt
    ensures GetY(r.sprites[BirdSlot]) == GetY(w.sprites[BirdSlot]) + w.speedY * dt
    ensures forall k :: 0 <= k < NumSprites && k != BirdSlot ==> r.sprites[k] == w.sprites[k]
  {
    w.(sprites := w.sprites[BirdSlot := MovedBird(w.sprites[BirdSlot], w.speedX, w.speedY, dt)])
  }

  /** The state-machine part of game_update, after the pause handling. */
  function Advance(w: World, now: real, dt: real, thrust: bool): (r: World)
    requires WellFormed(w)
    ensures WellFormed(r) && r.pause == w.pause && r.lastTime == w.lastTime
  {
    match w.state
    case Playing => PlayStep(w, now, dt, thrust)
    case Falling => FallStep(w, dt)
    case GameOver => if thrust then ResetWorld(w) else w
  }

  /** The time since the previous frame. */
  function FrameTime(w: World, now: real): real {
    now - w.lastTime
  }

  /** game_update, with window_get_time, window_get_thrust and window_get_pause as inputs. */
  function UpdateWorld(w: World, now: real, thrust: bool, pausePressed: bool): (r: World)
    requires WellFormed(w)
    ensures WellFormed(r)
  {
    var dt := FrameTime(w, now);
    if w.pause then
      // A pause press while paused resumes; nothing else happens this frame.
      w.(lastTime := now, pause := !pausePressed)
    else
      // A pause press while running pauses from the next frame on; this frame still runs.
      MoveBird(Advance(w.(lastTime := now, pause := pausePressed), now, dt, thrust), dt)
  }

  /** Unpaused, game_update advances the state machine and then moves the bird. */
  lemma UpdateWhenRunning(w: World, now: real, thrust: bool, pausePressed: bool, w1: World)
    requires WellFormed(w) && !w.pause && w1 == w.(lastTime := now, pause := pausePressed)
    ensures WellFormed(w1)
    ensures UpdateWorld(w, now, thrust, pausePressed) ==
      MoveBird(Advance(w1, now, FrameTime(w, now), thrust), FrameTime(w, now))
  {
  }

  // Properties of game_update.

  /** While paused, a frame only records the time, and a pause press lifts the pause. */
  lemma PausedFreezes(w: World, now: real, thrust: bool, pausePressed: bool)
    requires WellFormed(w) && w.pause
    ensures UpdateWorld(w, now, thrust, pausePressed) == w.(lastTime := now, pause := !pausePressed)
  {
  }

  /** Every frame records the time and toggles the pause flag exactly when pause is pressed. */
  lemma PauseToggles(w: World, now: real, thrust: bool, pausePressed: bool)
    requires WellFormed(w)
    ensures UpdateWorld(w, now, thrust, pausePressed).pause == (w.pause != pausePressed)
    ensures UpdateWorld(w, now, thrust, pausePressed).lastTime == now
  {
  }

  /** Out of GAMEOVER only thrust leads, and it restarts the game from the first group. */
  lemma GameOverWaitsForThrust(w: World, now: real, thrust: bool, pausePressed: bool)
    requires WellFormed(w) && !w.pause && w.state == GameOver
    ensures UpdateWorld(w, now, thrust, pausePressed).state == (if thrust then Playing else GameOver)
    ensures thrust ==> UpdateWorld(w, now, thrust, pausePressed).nextPipe == 0
  {
  }

  /** A falling bird never plays again before the game is over. */
  lemma FallingNeverPlays(w: World, now: real, thrust: bool, pausePressed: bool)
    requires WellFormed(w) && w.state == Falling
    ensures UpdateWorld(w, now, thrust, pausePressed).state in {Falling, GameOver}
  {
  }

  /** A playing bird above the top of the screen starts falling at kFallSpeed. */
  lemma AboveTopFalls(w: World, now: real, thrust: bool, pausePressed: bool)
    requires WellFormed(w) && !w.pause && w.state == Playing
    requires GetY(w.sprites[BirdSlot]) < ScreenTop
    ensures UpdateWorld(w, now, thrust, pausePressed).state == Falling
    ensures UpdateWorld(w, now, thrust, pausePressed).speedX == -FallSpeed
    ensures UpdateWorld(w, now, thrust, pausePressed).speedY == FallSpeed
  {
    var w1 := w.(lastTime := now, pause := pausePressed);
    UpdateWhenRunning(w, now, thrust, pausePressed, w1);
    PlayStepAboveTop(w1, now, FrameTime(w, now), thrust);
  }

  /** The PLAYING case with the bird above the top of the screen. */
  lemma PlayStepAboveTop(w: World, now: real, dt: real, thrust: bool)
    requires WellFormed(w) && GetY(w.sprites[BirdSlot]) < ScreenTop
    ensures PlayStep(w, now, dt, thrust).state == Falling
    ensures PlayStep(w, now, dt, thrust).speedX == -FallSpeed
    ensures PlayStep(w, now, dt, thrust).speedY == FallSpeed
  {
    var w1 := Accelerate(w, now, dt, thrust);
    var w2 := MaybeRecycle(w1.(sprites := ScrollFrom(Pipes(w1.sprites, w1.rng0, w1.rng1), dt, 0).sprites), now);
    assert w2.sprites[BirdSlot] == w.sprites[BirdSlot];
    assert Hit(w2);
  }

  /** Thrust counts at most once per kThrustDelay: last_thrust only moves, to `now`, when it fires. */
  lemma ThrustCooldown(w: World, now: real, thrust: bool, pausePressed: bool)
    requires WellFormed(w)
    ensures var r := UpdateWorld(w, now, thrust, pausePressed);
      r.lastThrust != w.lastThrust ==>
        r.lastThrust == now && thrust && now - w.lastThrust > ThrustDelay && !w.pause && w.state == Playing
  {
  }

  // ---------------------------------------------------------------------
  // game_init.

  /** The high words game_init ors into the time. */
  const SeedHigh0: bv32 := 0xffe792a1
  const SeedHigh1: bv32 := 0xbffae98d

  /**
   * `time(NULL) | 0xffe792a1 << 31` as C evaluates it: the constant is an
   * `unsigned int`, so the shift is done in 32 bits before the or.
   */
  function SeedAsWritten(t: bv64): (bv64, bv64) {
    (t | ((SeedHigh0 << 31) as bv64), t | ((SeedHigh1 << 31) as bv64))
  }

  /** Both words come out as t | 0x80000000: the two constants are lost. */
  lemma SeedAsWrittenWordsEqual(t: bv64)
    ensures SeedAsWritten(t).0 == SeedAsWritten(t).1 == t | 0x8000_0000
  {
    assert SeedHigh0 << 31 == 0x8000_0000;
    assert SeedHigh1 << 31 == 0x8000_0000;
  }

  /** The seed with the shift done in 64 bits. */
  function Seed(t: bv64): (bv64, bv64) {
    (t | ((SeedHigh0 as bv64) << 31), t | ((SeedHigh1 as bv64) << 31))
  }

  /** For any time below 2^31 the corrected seed words differ. */
  lemma SeedWordsDiffer(t: bv64)
    requires t < 0x8000_0000
    ensures Seed(t).0 != Seed(t).1
  {
    var c0 := (SeedHigh0 as bv64) << 31;
    var c1 := (SeedHigh1 as bv64) << 31;
    assert c0 == 0x7ff3_c950_8000_0000;
    assert c1 == 0x5ffd_74c6_8000_0000;
    assert (t | c0) >> 32 == c0 >> 32;
    assert (t | c1) >> 32 == c1 >> 32;
  }

  const BirdTexture: (real, real, real, real) := (0.0, 0.0, 32.0, 32.0)
  const PipeHeadTexture: (real, real, real, real) := (64.0, 0.0, 32.0, 16.0)
  const PipeBodyTexture: (real, real, real, real) := (102.0, 0.0, 20.0, 32.0)

  function Tex(q: Quad, width: real, height: real, t: (real, real, real, real)): Quad
    requires width > 0.0 && height > 0.0
  {
    SpriteImpl.Textured(q, width, height, t.0, t.1, t.2, t.3)
  }

  /** The bird as game_init leaves it: bird texture, kBirdWidth by kBirdHeight. */
  function NewBird(q: Quad, width: real, height: real): (r: Quad)
    requires width > 0.0 && height > 0.0
    ensures r.v0 == Tex(q, width, height, BirdTexture).v0
    ensures GetRight(r) == GetX(r) + BirdWidth && GetH(r) == BirdHeight
  {
    SetH(SetW(Tex(q, width, height, BirdTexture), BirdWidth), BirdHeight)
  }

  /** The four sprite_new calls of group g: body, head, head, body textures. */
  function AllocateGroupStep(p: seq<Quad>, width: real, height: real, g: nat): (r: seq<Quad>)
    requires |p| == NumSprites && width > 0.0 && height > 0.0 && g < NumPipes
    ensures |r| == NumSprites
  {
    var i := 4 * g;
    seq(NumSprites, k requires 0 <= k < NumSprites =>
      if k == PipeSlot(i) || k == PipeSlot(i + 3) then Tex(p[k], width, height, PipeBodyTexture)
      else if k == PipeSlot(i + 1) || k == PipeSlot(i + 2) then Tex(p[k], width, height, PipeHeadTexture)
      else p[k])
  }

  /**
   * The sprites after game_init's allocations: the bird, then n groups of
   * body, head, head, body textures.
   */
  function AllocatedSprites(v: seq<Quad>, width: real, height: real, n: nat): (r: seq<Quad>)
    requires |v| == NumSprites && width > 0.0 && height > 0.0 && n <= NumPipes
    ensures |r| == NumSprites
  {
    if n == 0 then v[BirdSlot := NewBird(v[BirdSlot], width, height)]
    else AllocateGroupStep(AllocatedSprites(v, width, height, n - 1), width, height, n - 1)
  }

  lemma AllocatedNext(v: seq<Quad>, width: real, height: real, n: nat)
    requires |v| == NumSprites && width > 0.0 && height > 0.0 && n < NumPipes
    ensures AllocatedSprites(v, width, height, n + 1) == AllocateGroupStep(AllocatedSprites(v, width, height, n), width, height, n)
  {
  }

  /** The statics before game_init: zero, PLAYING, not paused. */
  function InitialWorld(seed: (bv64, bv64), sprites: seq<Quad>): World {
    World(Playing, false, 0.0, 0.0, 0.0, 0.0, 0, 0.0, seed.0, seed.1, sprites)
  }

  /** The static state of game.c over the sprite array it draws from. */
  class Game {
    const sprites: array<Quad>
    const rng: array<bv64>
    var state: GameState
    var pause: bool
    var speedX: real
    var speedY: real
    var lastTime: real
    var lastThrust: real
    var nextPipe: nat
    var pipeGap: real

    ghost predicate Valid()
      reads this
    {
      sprites.Length == NumSprites && rng.Length == 2 &&
      nextPipe % 4 == 0 && nextPipe < NumPipeSprites
    }

    ghost function Value(): (w: World)
      requires Valid()
      reads this, sprites, rng
      ensures WellFormed(w)
    {
      World(state, pause, speedX, speedY, lastTime, lastThrust, nextPipe, pipeGap, rng[0], rng[1], sprites[..])
    }



    /** The part of the state game_reset's loop works on. */
    ghost function PipesValue(): (p: Pipes)
      requires Valid()
      reads this, sprites, rng
      ensures |p.sprites| == NumSprites
    {
      Pipes(sprites[..], rng[0], rng[1])
    }

    /**
     * game_init over a fresh sprite store: seeds the generator from `time`,
     * allocates the bird and the sixteen pipe sprites, sizes the bird and
     * resets the game.
     */
    constructor (store: SpriteImpl.SpriteStore, time: bv64)
      requires store.Valid() && store.count == 0 && store.vertices.Length == NumSprites
      modifies store, store.vertices
      ensures Valid() && sprites == store.vertices && fresh(rng)
      ensures store.count == NumSprites
      ensures Value() == ResetWorld(InitialWorld(SeedAsWritten(time),
                AllocatedSprites(old(store.vertices[..]), store.textureWidth, store.textureHeight, NumPipes)))
    {
      sprites := store.vertices;
      rng := new bv64[2];
      state, pause := Playing, false;
      speedX, speedY, lastTime, lastThrust := 0.0, 0.0, 0.0, 0.0;
      nextPipe, pipeGap := 0, 0.0;
      new;
      var seed := SeedAsWritten(time);
      rng[0], rng[1] := seed.0, seed.1;
      ghost var v0 := sprites[..];
      AllocateBird(store);
      AllocatePipes(store, v0);
      ghost var w := Value();
      assert w == InitialWorld(seed, AllocatedSprites(v0, store.textureWidth, store.textureHeight, NumPipes));
      Reset();
    }

    /** game_init's loop: sprite_new for the four sprites of each group. */
    method AllocatePipes(store: SpriteImpl.SpriteStore, ghost v0: seq<Quad>)
      requires Valid() && store.Valid() && store.count == 1 && sprites == store.vertices && |v0| == NumSprites
      requires sprites[..] == AllocatedSprites(v0, store.textureWidth, store.textureHeight, 0)
      modifies store`count, sprites
      ensures store.count == NumSprites
      ensures sprites[..] == AllocatedSprites(v0, store.textureWidth, store.textureHeight, NumPipes)
    {
      ghost var a := sprites[..];
      var g := 0;
      while g < NumPipes
        invariant g <= NumPipes && store.count == 1 + 4 * g
        invariant sprites[..] == a
        invariant a == AllocatedSprites(v0, store.textureWidth, store.textureHeight, g)
      {
        AllocateGroup(store, g);
        AllocatedNext(v0, store.textureWidth, store.textureHeight, g);
        a := AllocateGroupStep(a, store.textureWidth, store.textureHeight, g);
        g := g + 1;
      }
    }

    /** The bird's sprite_new, sprite_set_w and sprite_set_h in game_init. */
    method AllocateBird(store: SpriteImpl.SpriteStore)
      requires Valid() && store.Valid() && store.count == 0 && sprites == store.vertices
      modifies store`count, sprites
      ensures store.count == 1
      ensures sprites[..] == AllocatedSprites(old(sprites[..]), store.textureWidth, store.textureHeight, 0)
    {
      var bird := store.New(BirdTexture.0, BirdTexture.1, BirdTexture.2, BirdTexture.3);
      SetWAt(sprites, bird, BirdWidth);
      SetHAt(sprites, bird, BirdHeight);
    }

    /** One iteration of game_init's loop: body, head, head, body for group g. */
    method AllocateGroup(store: SpriteImpl.SpriteStore, g: nat)
      requires Valid() && store.Valid() && sprites == store.vertices && g < NumPipes
      requires store.count == 1 + 4 * g
      modifies store`count, sprites
      ensures store.count == old(store.count) + SpritesPerPipe
      ensures sprites[..] == AllocateGroupStep(old(sprites[..]), store.textureWidth, store.textureHeight, g)
    {
      var a := store.New(PipeBodyTexture.0, PipeBodyTexture.1, PipeBodyTexture.2, PipeBodyTexture.3);
      var b := store.New(PipeHeadTexture.0, PipeHeadTexture.1, PipeHeadTexture.2, PipeHeadTexture.3);
      var c := store.New(PipeHeadTexture.0, PipeHeadTexture.1, PipeHeadTexture.2, PipeHeadTexture.3);
      var d := store.New(PipeBodyTexture.0, PipeBodyTexture.1, PipeBodyTexture.2, PipeBodyTexture.3);
    }

    /** game_reset. */
    method Reset()
      requires Valid()
      modifies this, sprites, rng
      ensures Valid() && Value() == ResetWorld(old(Value()))
    {
      ghost var w := Value();
      BeginReset();
      ghost var w1 := Value();
      ResetAllPipes();
      ghost var w2 := Value();
      EndReset();
      ResetWorldIs(w, w1, w2);
    }

    /** The first statements of game_reset: the state, the gap and the bird. */
    method BeginReset()
      requires Valid()
      modifies this, sprites
      ensures Valid() && Value() == old(Value()).(state := Playing, pipeGap := InitialPipeGap,
                sprites := old(Value()).sprites[BirdSlot := PlaceBird(old(Value()).sprites[BirdSlot])])
    {
      state := Playing;
      pipeGap := InitialPipeGap;
      PlaceBirdAt();
    }

    /** The last statements of game_reset: the first group to pass and the speeds. */
    method EndReset()
      requires Valid()
      modifies this
      ensures Valid() && Value() == old(Value()).(nextPipe := 0, speedX := 0.0, speedY := 0.0)
    {
      nextPipe := 0;
      speedX := 0.0;
      speedY := 0.0;
    }

    /** game_reset's loop over the four groups. */
    method ResetAllPipes()
      requires Valid()
      modifies sprites, rng
      ensures Valid()
      ensures var p := ResetFrom(Pipes(old(Value()).sprites, old(Value()).rng0, old(Value()).rng1), 0, pipeGap);
              Value() == old(Value()).(sprites := p.sprites, rng0 := p.rng0, rng1 := p.rng1)
    {
      ghost var start := PipesValue();
      ghost var p := start;
      var g := 0;
      while g < NumPipes
        invariant g <= NumPipes && PipesValue() == p
        invariant ResetFrom(p, g, pipeGap) == ResetFrom(start, 0, pipeGap)
      {
        ResetStepAt(g);
        ResetFromStep(p, g, pipeGap);
        p := ResetStep(p, g, pipeGap);
        g := g + 1;
      }
    }

    /** The bird back at (kBirdX, kBirdY). */
    method PlaceBirdAt()
      requires Valid()
      modifies sprites
      ensures sprites[..] == old(sprites[..])[BirdSlot := PlaceBird(old(sprites[BirdSlot]))]
    {
      SetXAt(sprites, BirdSlot, BirdX);
      SetYAt(sprites, BirdSlot, BirdY);
    }

    /** One iteration of game_reset's loop, for the group whose first pipe is 4g. */
    method ResetStepAt(g: nat)
      requires Valid() && g < NumPipes
      modifies sprites, rng
      ensures PipesValue() == ResetStep(old(PipesValue()), g, pipeGap)
    {
      var _ := Xoroshiro.Step(rng);
      var h := PipeHeight(rng[0]);
      LayOutGroup(g, h);
    }

    /** The body of game_reset's loop after the generator step. */
    method LayOutGroup(g: nat, h: real)
      requires Valid() && g < NumPipes
      modifies sprites
      ensures sprites[..] == ResetGroup(old(sprites[..]), g, h, pipeGap)
    {
      var i := 4 * g;
      var x := g as real * PipeStep;
      ghost var s := sprites[..];
      LayOutTopBody(PipeSlot(i), x, h);
      LayOutHead(PipeSlot(i + 1), x, ScreenTop + h);
      LayOutHead(PipeSlot(i + 2), x, ScreenTop + h + pipeGap);
      LayOutBottomBody(PipeSlot(i + 3), x, ScreenTop + h + pipeGap + HeadH, h);
      ResetGroupIsUpdates(s, g, h, pipeGap);
    }

    /** The top pipe body's setter chain. */
    method LayOutTopBody(k: nat, x: real, h: real)
      requires Valid() && k < NumSprites
      modifies sprites
      ensures sprites[..] == old(sprites[..])[k := TopBody(old(sprites[k]), x, h)]
    {
      var q := sprites[k];
      q := SetX(q, x + PipeBodyX);
      q := SetY(q, ScreenTop);
      q := SetW(q, PipeBodyWidth);
      q := SetH(q, h);
      q := SetTh(q, 2.0 * h / PipeWidth);
      TopBodyIsSetterChain(old(sprites[k]), x, h);
      sprites[k] := q;
    }

    /** A pipe head's setter chain. */
    method LayOutHead(k: nat, x: real, top: real)
      requires Valid() && k < NumSprites
      modifies sprites
      ensures sprites[..] == old(sprites[..])[k := Head(old(sprites[k]), x, top)]
    {
      var q := sprites[k];
      q := SetX(q, x);
      q := SetY(q, top);
      q := SetW(q, PipeWidth);
      q := SetH(q, HeadH);
      HeadIsSetterChain(old(sprites[k]), x, top);
      sprites[k] := q;
    }

    /** The bottom pipe body's setter chain. */
    method LayOutBottomBody(k: nat, x: real, top: real, h: real)
      requires Valid() && k < NumSprites
      modifies sprites
      ensures sprites[..] == old(sprites[..])[k := BottomBody(old(sprites[k]), x, top, h)]
    {
      var q := sprites[k];
      q := SetX(q, x + PipeBodyX);
      q := SetY(q, top);
      q := SetW(q, PipeBodyWidth);
      q := SetH(q, ScreenHeight - h - HeadH);
      q := SetTh(q, 2.0 * h / PipeWidth);
      BottomBodyIsSetterChain(old(sprites[k]), x, top, h);
      sprites[k] := q;
    }

    /** scroll_pipes. */
    method ScrollPipes(dt: real)
      requires Valid()
      modifies sprites
      ensures PipesValue() == ScrollFrom(old(PipesValue()), dt, 0)
    {
      ghost var start := PipesValue();
      ghost var p := start;
      var g := 0;
      while g < NumPipes
        invariant g <= NumPipes && PipesValue() == p
        invariant ScrollFrom(p, dt, g) == ScrollFrom(start, dt, 0)
      {
        ScrollGroupAt(g, dt);
        ScrollFromStep(p, dt, g);
        p := ScrollStep(p, g, dt);
        g := g + 1;
      }
    }

    /** One iteration of scroll_pipes' loop. */
    method ScrollGroupAt(g: nat, dt: real)
      requires Valid() && g < NumPipes
      modifies sprites
      ensures PipesValue() == ScrollStep(old(PipesValue()), g, dt)
    {
      var i := 4 * g;
      var newX := GetX(sprites[PipeSlot(i + 1)]) + ScrollSpeed * dt;
      sprites[PipeSlot(i)] := SetX(sprites[PipeSlot(i)], newX + PipeBodyX);
      sprites[PipeSlot(i + 1)] := SetX(sprites[PipeSlot(i + 1)], newX);
      sprites[PipeSlot(i + 2)] := SetX(sprites[PipeSlot(i + 2)], newX);
      sprites[PipeSlot(i + 3)] := SetX(sprites[PipeSlot(i + 3)], newX + PipeBodyX);
    }

    /** The recycling branch of game_update. */
    method Recycle(now: real)
      requires Valid()
      modifies this, sprites, rng
      ensures Valid() && Value() == RecycleWorld(old(Value()), now)
    {
      ghost var w := Value();
      pipeGap := GapAt(now);
      var _ := Xoroshiro.Step(rng);
      ghost var w1 := Value();
      var h := PipeHeight(rng[0]);
      MoveGroupRight(nextPipe, h);
      ghost var w2 := Value();
      nextPipe := (nextPipe + SpritesPerPipe) % 16;
      RecycleWorldIs(w, now, w1, w2);
    }

    /** The sprite updates of the recycling branch. */
    method MoveGroupRight(i: nat, h: real)
      requires Valid() && i + SpritesPerPipe <= NumPipeSprites
      modifies sprites
      ensures sprites[..] == RecycleGroup(old(sprites[..]), i, h, pipeGap)
    {
      var farAway := ScreenRight;
      // Top pipe body.
      var q := sprites[PipeSlot(i)];
      q := SetX(q, farAway);
      q := SetH(q, h);
      q := SetTh(q, 2.0 * h / PipeWidth);
      sprites[PipeSlot(i)] := q;
      // Top pipe head.
      q := sprites[PipeSlot(i + 1)];
      q := SetX(q, farAway);
      q := SetY(q, ScreenTop + h);
      sprites[PipeSlot(i + 1)] := q;
      // Bottom pipe head.
      q := sprites[PipeSlot(i + 2)];
      q := SetX(q, farAway);
      q := SetY(q, ScreenTop + h + pipeGap);
      sprites[PipeSlot(i + 2)] := q;
      // Bottom pipe body.
      q := sprites[PipeSlot(i + 3)];
      q := SetX(q, farAway);
      q := SetY(q, ScreenTop + h + pipeGap + HeadH);
      q := SetH(q, ScreenHeight - h - HeadH);
      q := SetTh(q, 2.0 * h / PipeWidth);
      sprites[PipeSlot(i + 3)] := q;
    }

    /** sprite_intersect of the bird with the four sprites at next_pipe, or the bird above the top. */
    method HitTest() returns (hit: bool)
      requires Valid()
      ensures hit == Hit(Value())
    {
      var bird := sprites[BirdSlot];
      hit := Intersect(bird, sprites[PipeSlot(nextPipe)]) ||
             Intersect(bird, sprites[PipeSlot(nextPipe + 1)]) ||
             Intersect(bird, sprites[PipeSlot(nextPipe + 2)]) ||
             Intersect(bird, sprites[PipeSlot(nextPipe + 3)]) ||
             GetY(bird) < ScreenTop;
    }

    /** Gravity and thrust at the start of the PLAYING case. */
    method Accelerating(now: real, dt: real, thrust: bool)
      requires Valid()
      modifies this
      ensures Valid() && Value() == Accelerate(old(Value()), now, dt, thrust)
    {
      speedY := speedY + Gravity * dt;
      if thrust && now - lastThrust > ThrustDelay {
        speedY := speedY + Thrust;
        lastThrust := now;
      }
    }

    /** scroll_pipes as a step of the world. */
    method Scroll(dt: real)
      requires Valid()
      modifies sprites
      ensures Valid() && Value() == old(Value()).(sprites := ScrollFrom(old(PipesValue()), dt, 0).sprites)
    {
      ScrollPipes(dt);
    }

    /** The recycling test of the PLAYING case. */
    method RecycleIfPassed(now: real)
      requires Valid()
      modifies this, sprites, rng
      ensures Valid() && Value() == MaybeRecycle(old(Value()), now)
    {
      if GetX(sprites[PipeSlot(nextPipe)]) < ScreenLeft - PipeWidth {
        Recycle(now);
      }
    }

    /** The hit test of the PLAYING case. */
    method JudgeHit()
      requires Valid()
      modifies this
      ensures Valid() && Value() == Judge(old(Value()))
    {
      var hit := HitTest();
      if hit {
        state := Falling;
        speedX := -FallSpeed;
        speedY := FallSpeed;
      } else if GetY(sprites[BirdSlot]) > ScreenBottom {
        state := GameOver;
      }
    }

    /** The PLAYING case of game_update. */
    method Play(now: real, dt: real, thrust: bool)
      requires Valid()
      modifies this, sprites, rng
      ensures Valid() && Value() == PlayStep(old(Value()), now, dt, thrust)
    {
      Accelerating(now, dt, thrust);
      Scroll(dt);
      RecycleIfPassed(now);
      JudgeHit();
    }

    /** The FALLING case of game_update. */
    method Fall(dt: real)
      requires Valid()
      modifies this
      ensures Valid() && Value() == FallStep(old(Value()), dt)
    {
      speedY := speedY + Gravity * dt;
      if GetY(sprites[BirdSlot]) > ScreenBottom {
        state := GameOver;
      }
    }

    /** The switch on game_state. */
    method AdvanceState(now: real, dt: real, thrust: bool)
      requires Valid()
      modifies this, sprites, rng
      ensures Valid() && Value() == Advance(old(Value()), now, dt, thrust)
    {
      match state {
        case Playing =>
          Play(now, dt, thrust);
        case Falling =>
          Fall(dt);
        case GameOver =>
          if thrust {
            Reset();
          }
      }
    }

    /** The bird moves by its speed over dt. */
    method MoveBirdBy(dt: real)
      requires Valid()
      modifies sprites
      ensures Valid() && Value() == MoveBird(old(Value()), dt)
    {
      var bird := sprites[BirdSlot];
      bird := SetX(bird, GetX(bird) + speedX * dt);
      bird := SetY(bird, GetY(bird) + speedY * dt);
      assert bird == MovedBird(old(sprites[BirdSlot]), speedX, speedY, dt);
      sprites[BirdSlot] := bird;
      assert sprites[..] == old(sprites[..])[BirdSlot := bird];
    }

    /** game_update. */
    method Update(now: real, thrust: bool, pausePressed: bool)
      requires Valid()
      modifies this, sprites, rng
      ensures Valid() && Value() == UpdateWorld(old(Value()), now, thrust, pausePressed)
    {
      var dt := now - lastTime;
      lastTime := now;
      if pause {
        if pausePressed {
          pause := false;
        }
        return;
      } else if pausePressed {
        pause := true;
      }
      ghost var w1 := Value();
      assert w1 == old(Value()).(lastTime := now, pause := pausePressed);
      AdvanceState(now, dt, thrust);
      ghost var w2 := Value();
      MoveBirdBy(dt);
      assert dt == FrameTime(old(Value()), now);
      UpdateWhenRunning(old(Value()), now, thrust, pausePressed, w1);
      assert Value() == MoveBird(w2, dt);
    }
  }
}
