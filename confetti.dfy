/** The confetti effect (src/graphics/confetti.ts): pieces that fall and
    drift, wrap around a padded viewport, decay a click impulse, and — when
    spawned by a click — leave the array once they fall out of view. */
module Confetti {
  import opened Common
  import opened JsArray

  /** Padding around the viewport before a piece counts as out of bounds. */
  const Spacing: real := 30.0
  /** Amount added to a large vertical acceleration each run, and the
      half-width of the random range around it (zero: the draw is exact). */
  const AccelerationDecay: real := 0.2
  const AccelerationDecayRange: real := 0.0
  /** Below this magnitude the vertical acceleration snaps to zero. */
  const DecayThreshold: real := 0.1
  /** Pieces added by one click, and the impulse each of them starts with. */
  const BurstSize: nat := 100
  const BurstImpulse: Vec2 := Vec2(0.0, -12.0)

  datatype Vec3 = Vec3(x: real, y: real, z: real)

  /** The kinematic state of a piece: what warp and move read and write. */
  datatype Motion = Motion(position: Vec2, velocity: Vec2, acceleration: Vec2, respawn: bool)

  /** A warped state and whether some bound (left, right or bottom) was crossed. */
  datatype Warped = Warped(motion: Motion, outOfBounds: bool)

  /** The random draws behind one new piece: its size, and the velocity
      that P5.Vector.fromAngle(angle).setMag(magnitude) produced. */
  datatype Launch = Launch(size: real, velocity: Vec2)

  /** The random draws behind one seeded piece. */
  datatype Seed = Seed(x: real, y: real, launch: Launch)

  /** A velocity of direction between 1.0472 and 2.0944 rad (pointing down
      the screen) and of magnitude between height*2/1080 and height*5/1080.
      The cone is stated without angles: vy >= 0, and vx^2 is at most
      0.2500043 times the squared magnitude, since |cos| stays below
      0.5000043 on that interval (cos 2.0944 = -0.50000424...). */
  predicate LaunchVelocity(v: Vec2, height: real) {
    var lo := height * 2.0 / 1080.0;
    var hi := height * 5.0 / 1080.0;
    var m2 := v.x * v.x + v.y * v.y;
    0.0 <= v.y && v.x * v.x <= 0.2500043 * m2 && lo * lo <= m2 <= hi * hi
  }

  predicate LaunchDraw(l: Launch, height: real) {
    Between(l.size, height * 5.0 / 1080.0, height * 20.0 / 1080.0) && LaunchVelocity(l.velocity, height)
  }

  predicate SeedDraw(s: Seed, width: real, height: real) {
    Between(s.x, 0.0, width) && Between(s.y, 0.0, height) && LaunchDraw(s.launch, height)
  }

  /** p5.random(decay - range, decay + range) for the acceleration decay;
      with a zero range the draw is exactly the decay. */
  predicate DecayDraw(d: real): (r: bool)
    ensures r <==> d == AccelerationDecay
  {
    Between(d, AccelerationDecay - AccelerationDecayRange, AccelerationDecay + AccelerationDecayRange)
  }

  /** Math.round (p5.round): the nearest integer, halves rounding up. */
  function Round(x: real): (r: int)
    ensures r as real - 0.5 <= x < r as real + 0.5
  {
    (x + 0.5).Floor
  }

  /** Number of pieces the setup loop seeds for a canvas of this height. */
  function SeedCount(height: real): int {
    Round(height * 300.0 / 1080.0)
  }

  /** The four corner points of a piece of side `size`, centred on its position. */
  function Corners(size: real): seq<Vec3> {
    [Vec3(size / 2.0, size / 2.0, 0.0), Vec3(size / 2.0, -size / 2.0, 0.0),
     Vec3(-size / 2.0, -size / 2.0, 0.0), Vec3(-size / 2.0, size / 2.0, 0.0)]
  }

  predicate Inside(p: Vec2, width: real, height: real) {
    -Spacing <= p.x <= width + Spacing && -Spacing <= p.y <= height + Spacing
  }

  /** What `warp` does to a piece's state: wrap around the padded viewport. */
  function WarpStep(m: Motion, width: real, height: real): (r: Warped)
    ensures r.motion.velocity == m.velocity && r.motion.acceleration == m.acceleration
    ensures r.motion.respawn == m.respawn
    ensures 0.0 <= width ==> -Spacing <= r.motion.position.x <= width + Spacing
    ensures m.position.x < -Spacing ==> r.motion.position.x == width + Spacing
    ensures 0.0 <= width && m.position.x > width + Spacing ==> r.motion.position.x == -Spacing
    ensures 0.0 <= height && m.position.y > height + Spacing ==> r.motion.position.y == -Spacing
    ensures 0.0 <= height && m.position.y < -Spacing ==>
      r.motion.position.y == if m.respawn then height + Spacing else m.position.y
    ensures 0.0 <= height && m.respawn ==> -Spacing <= r.motion.position.y <= height + Spacing
    ensures 0.0 <= width && 0.0 <= height ==>
      (r.outOfBounds <==> m.position.x < -Spacing || m.position.x > width + Spacing || m.position.y > height + Spacing)
    ensures Inside(m.position, width, height) ==> r == Warped(m, false)
  {
    var left := m.position.x < -Spacing;
    var x1 := if left then width + Spacing else m.position.x;
    var right := x1 > width + Spacing;
    var x2 := if right then -Spacing else x1;
    var y1 := if m.position.y < -Spacing && m.respawn then height + Spacing else m.position.y;
    var bottom := y1 > height + Spacing;
    var y2 := if bottom then -Spacing else y1;
    Warped(m.(position := Vec2(x2, y2)), left || right || bottom)
  }

  /** What `move` does to a piece's state. */
  function MoveStep(m: Motion, decay: real): (r: Motion)
    ensures r.position == Add(m.position, Add(m.velocity, m.acceleration))
    ensures r.velocity == m.velocity && r.acceleration.x == m.acceleration.x && r.respawn == m.respawn
    ensures m.acceleration.y > DecayThreshold || m.acceleration.y < -DecayThreshold ==>
      r.acceleration.y == m.acceleration.y + decay
    ensures -DecayThreshold <= m.acceleration.y <= DecayThreshold ==> r.acceleration.y == 0.0
  {
    var moved := m.(position := Add(m.position, Add(m.velocity, m.acceleration)));
    if m.acceleration.y > DecayThreshold || m.acceleration.y < -DecayThreshold then
      moved.(acceleration := Vec2(m.acceleration.x, m.acceleration.y + decay))
    else
      moved.(acceleration := Vec2(m.acceleration.x, 0.0))
  }

  /** One run of a piece (warp, then move): its new state, and whether it
      removed itself from the array. */
  function RunStep(m: Motion, width: real, height: real, decay: real): (r: (Motion, bool))
    ensures m.respawn ==> !r.1
    ensures 0.0 <= width && 0.0 <= height ==>
      (r.1 <==> !m.respawn && (m.position.x < -Spacing || m.position.x > width + Spacing || m.position.y > height + Spacing))
    ensures Inside(m.position, width, height) ==> !r.1 && r.0 == MoveStep(m, decay)
  {
    var w := WarpStep(m, width, height);
    (MoveStep(w.motion, decay), w.outOfBounds && !m.respawn)
  }

  function Stepper(width: real, height: real, decay: real): Motion -> (Motion, bool) {
    m => RunStep(m, width, height, decay)
  }

  class Piece {
    var position: Vec2
    var velocity: Vec2
    var acceleration: Vec2
    /** flags.respawn, fixed when the flags are merged in the constructor. */
    const respawn: bool
    /** The shape points; only the (not modelled) rotation changes them. */
    const corners: seq<Vec3>

    function State(): Motion
      reads this
    {
      Motion(position, velocity, acceleration, respawn)
    }

    /** `respawnFlag` is the respawn entry of the flags argument (None when
        flags are not passed); `impulse` is the acceleration argument. */
    constructor (x: real, y: real, size: real, respawnFlag: Option<bool>, impulse: Option<Vec2>,
                 launch: Vec2, height: real)
      requires LaunchVelocity(launch, height)
      ensures State() == Motion(Vec2(x, y), launch,
                                if impulse.Some? then impulse.value else Vec2(0.0, 0.0),
                                if respawnFlag.Some? then respawnFlag.value else true)
      ensures corners == Corners(size)
    {
      respawn := if respawnFlag.Some? then respawnFlag.value else true;
      position := Vec2(x, y);
      velocity := launch;
      acceleration := if impulse.Some? then impulse.value else Vec2(0.0, 0.0);
      corners := Corners(size);
    }

    /** Wrap around the padded viewport; a non-respawning piece that crossed
        the left, right or bottom bound removes itself. */
    method Warp(sketch: Sketch)
      modifies this, sketch`pieces
      ensures State() == WarpStep(old(State()), sketch.width, sketch.height).motion
      ensures sketch.pieces ==
        if WarpStep(old(State()), sketch.width, sketch.height).outOfBounds && !respawn
        then RemoveFirst(old(sketch.pieces), this) else old(sketch.pieces)
    {
      var outOfBounds := false;
      if position.x < -Spacing {
        position := position.(x := sketch.width + Spacing);
        outOfBounds := true;
      }
      if position.x > sketch.width + Spacing {
        position := position.(x := -Spacing);
        outOfBounds := true;
      }
      if position.y < -Spacing && respawn {
        position := position.(y := sketch.height + Spacing);
      }
      if position.y > sketch.height + Spacing {
        position := position.(y := -Spacing);
        outOfBounds := true;
      }
      if outOfBounds && !respawn {
        Remove(sketch);
      }
    }

    /** Add velocity and acceleration to the position, then decay the
        vertical acceleration. */
    method Move(decay: real)
      requires DecayDraw(decay)
      modifies this
      ensures State() == MoveStep(old(State()), decay)
    {
      var movement := Add(velocity, acceleration);
      position := Add(position, movement);
      if acceleration.y > DecayThreshold || acceleration.y < -DecayThreshold {
        acceleration := Vec2(acceleration.x, acceleration.y + decay);
      } else {
        acceleration := acceleration.(y := 0.0);
      }
    }

    /** Splice this piece out of the sketch's array, if it is there. */
    method Remove(sketch: Sketch)
      modifies sketch`pieces
      ensures sketch.pieces == RemoveFirst(old(sketch.pieces), this)
    {
      var index := IndexOf(sketch.pieces, this);
      if index != -1 {
        sketch.pieces := SpliceOne(sketch.pieces, index);
      }
    }

    /** One run of this piece: warp, then move (rotation and drawing are
        not modelled). */
    method Run(sketch: Sketch, decay: real)
      requires DecayDraw(decay)
      modifies this, sketch`pieces
      ensures State() == RunStep(old(State()), sketch.width, sketch.height, decay).0
      ensures sketch.pieces ==
        if RunStep(old(State()), sketch.width, sketch.height, decay).1
        then RemoveFirst(old(sketch.pieces), this) else old(sketch.pieces)
    {
      Warp(sketch);
      Move(decay);
    }
  }

  /** A piece as setup creates it from a seed: respawning, no impulse. */
  ghost predicate Seeded(p: Piece, s: Seed)
    reads p
  {
    p.corners == Corners(s.launch.size) && p.State() == Motion(Vec2(s.x, s.y), s.launch.velocity, Vec2(0.0, 0.0), true)
  }

  /** A piece as a click creates it: at the pointer, not respawning, with
      the upward impulse. */
  ghost predicate Launched(p: Piece, x: real, y: real, l: Launch)
    reads p
  {
    p.corners == Corners(l.size) && p.State() == Motion(Vec2(x, y), l.velocity, BurstImpulse, false)
  }

  /** The sketch: the viewport size and the shared array of pieces. */
  class Sketch {
    const width: real
    const height: real
    var pieces: seq<Piece>

    ghost predicate Valid()
      reads this
    {
      0.0 <= width && 0.0 <= height && Distinct(pieces)
    }

    /** The pieces in array order, each with its current state. */
    ghost function Entries(): seq<(Piece, Motion)>
      reads this, pieces
    {
      seq(|pieces|, k reads this, pieces requires 0 <= k < |pieces| => (pieces[k], pieces[k].State()))
    }

    constructor (width: real, height: real)
      requires 0.0 <= width && 0.0 <= height
      ensures Valid() && this.width == width && this.height == height && pieces == []
    {
      this.width := width;
      this.height := height;
      pieces := [];
    }

    /** p5.setup: seed round(height * 300/1080) respawning pieces at random
        positions inside the canvas. */
    method Setup(seeds: seq<Seed>)
      requires Valid()
      requires |seeds| == SeedCount(height) && forall k :: 0 <= k < |seeds| ==> SeedDraw(seeds[k], width, height)
      modifies this`pieces
      ensures Valid()
      ensures |pieces| == |old(pieces)| + |seeds| && Entries()[..|old(pieces)|] == old(Entries())
      ensures forall k :: |old(pieces)| <= k < |pieces| ==> fresh(pieces[k])
      ensures forall k :: 0 <= k < |seeds| ==> Seeded(pieces[|old(pieces)| + k], seeds[k])
    {
      var i := 0;
      while i < SeedCount(height)
        invariant 0 <= i <= |seeds|
        invariant Valid()
        invariant |pieces| == |old(pieces)| + i && pieces[..|old(pieces)|] == old(pieces)
        invariant Entries()[..|old(pieces)|] == old(Entries())
        invariant forall k :: |old(pieces)| <= k < |pieces| ==> fresh(pieces[k])
        invariant forall k :: 0 <= k < i ==> Seeded(pieces[|old(pieces)| + k], seeds[k])
      {
        var s := seeds[i];
        var p := new Piece(s.x, s.y, s.launch.size, None, None, s.launch.velocity, height);
        pieces := pieces + [p];
        i := i + 1;
      }
    }

    /** The body of the draw loop at index `i`: run the piece there. The
        array either keeps its length (the piece moved) or loses slot `i`. */
    method RunAt(i: nat, decay: real, ghost step: Motion -> (Motion, bool)) returns (gone: bool)
      requires Valid() && DecayDraw(decay) && i < |pieces|
      requires step == Stepper(width, height, decay)
      modifies this`pieces, pieces[i]
      ensures Valid()
      ensures gone == step(old(Entries())[i].1).1
      ensures Entries() == AfterBody(old(Entries()), i, step(old(Entries())[i].1))
      ensures pieces == if gone then old(pieces[..i] + pieces[i + 1..]) else old(pieces)
      ensures gone ==> old(pieces[i]) !in pieces
    {
      var p := pieces[i];
      ghost var arr := pieces;
      ghost var before := Entries();
      var n := |pieces|;
      p.Run(this, decay);
      gone := |pieces| < n;
      forall k | 0 <= k < |arr| && k != i
        ensures arr[k].State() == before[k].1
      {
        assert arr[k] != p;
      }
      if gone {
        RemoveAt(arr, i);
        RemovedSlotAbsent(arr, i);
        EntriesAfterRemoval(arr, before, i);
      } else {
        EntriesAfterUpdate(arr, before, i);
      }
    }

    /** The entries once slot i has been spliced out of `arr`, whose other
        pieces kept their states. */
    lemma {:induction false} EntriesAfterRemoval(arr: seq<Piece>, before: seq<(Piece, Motion)>, i: nat)
      requires |before| == |arr| && i < |arr|
      requires forall k :: 0 <= k < |arr| ==> before[k].0 == arr[k]
      requires forall k :: 0 <= k < |arr| && k != i ==> arr[k].State() == before[k].1
      requires pieces == arr[..i] + arr[i + 1..]
      ensures Entries() == before[..i] + before[i + 1..]
    {
      ghost var rest := before[..i] + before[i + 1..];
      forall k | 0 <= k < |pieces|
        ensures Entries()[k] == rest[k]
      {
        SlotAfterRemoval(arr, i, k);
        SlotAfterRemoval(before, i, k);
      }
    }

    /** The entries when the array is unchanged and only slot i's piece
        changed state. */
    lemma {:induction false} EntriesAfterUpdate(arr: seq<Piece>, before: seq<(Piece, Motion)>, i: nat)
      requires |before| == |arr| && i < |arr|
      requires forall k :: 0 <= k < |arr| ==> before[k].0 == arr[k]
      requires forall k :: 0 <= k < |arr| && k != i ==> arr[k].State() == before[k].1
      requires pieces == arr
      ensures Entries() == before[i := (arr[i], arr[i].State())]
    {
      ghost var rest := before[i := (arr[i], arr[i].State())];
      forall k | 0 <= k < |pieces|
        ensures Entries()[k] == rest[k]
      {
      }
    }

    /** One pass of the draw loop: the piece at index i is the first one
        the sweep has not reached, and running it advances the sweep. */
    method RunNext(i: nat, decay: real, ghost step: Motion -> (Motion, bool),
                   ghost orig: seq<(Piece, Motion)>, ghost acc: seq<Entry<Piece, Motion>>)
      returns (ghost next: seq<Entry<Piece, Motion>>)
      requires Valid() && DecayDraw(decay) && i < |pieces|
      requires step == Stepper(width, height, decay)
      requires SweepLoop(orig, step, acc, Entries(), i)
      modifies this`pieces, pieces[i]
      ensures Valid()
      ensures next == SweepStep(orig, step, acc, |acc|) && |acc| < |next| <= |orig|
      ensures SweepLoop(orig, step, next, Entries(), i + 1)
      ensures forall x :: x in pieces ==> x in old(pieces)
    {
      SweepLoopAdvance(orig, step, acc, Entries(), i);
      var gone := RunAt(i, decay, step);
      next := SweepStep(orig, step, acc, |acc|);
    }

    /** p5.draw: run every piece, walking the array by index while warp may
        splice the current piece out of it. */
    method Draw(decay: real)
      requires Valid() && DecayDraw(decay)
      modifies this`pieces, pieces
      ensures Valid()
      ensures Entries() == Live(Sweep(old(Entries()), Stepper(width, height, decay)))
    {
      ghost var orig := Entries();
      ghost var step := Stepper(width, height, decay);
      ghost var acc: seq<Entry<Piece, Motion>> := [];
      var i := 0;
      while i < |pieces|
        invariant Valid() && step == Stepper(width, height, decay)
        invariant forall x :: x in pieces ==> x in old(pieces)
        invariant SweepLoop(orig, step, acc, Entries(), i)
        decreases |orig| - |acc|
      {
        assert pieces[i] in pieces;
        acc := RunNext(i, decay, step, orig, acc);
        i := i + 1;
      }
      SweepLoopDone(orig, step, acc, Entries(), i);
    }

    /** p5.mouseClicked: append a burst of non-respawning pieces at the
        pointer, each with the upward impulse. */
    method MouseClicked(mouseX: real, mouseY: real, launches: seq<Launch>)
      requires Valid()
      requires |launches| == BurstSize && forall k :: 0 <= k < |launches| ==> LaunchDraw(launches[k], height)
      modifies this`pieces
      ensures Valid()
      ensures |pieces| == |old(pieces)| + BurstSize && Entries()[..|old(pieces)|] == old(Entries())
      ensures forall k :: |old(pieces)| <= k < |pieces| ==> fresh(pieces[k])
      ensures forall k :: 0 <= k < BurstSize ==> Launched(pieces[|old(pieces)| + k], mouseX, mouseY, launches[k])
    {
      var i := 0;
      while i < BurstSize
        invariant 0 <= i <= BurstSize
        invariant Valid()
        invariant |pieces| == |old(pieces)| + i && pieces[..|old(pieces)|] == old(pieces)
        invariant Entries()[..|old(pieces)|] == old(Entries())
        invariant forall k :: |old(pieces)| <= k < |pieces| ==> fresh(pieces[k])
        invariant forall k :: 0 <= k < i ==> Launched(pieces[|old(pieces)| + k], mouseX, mouseY, launches[k])
      {
        var p := new Piece(mouseX, mouseY, launches[i].size, Some(false), Some(BurstImpulse), launches[i].velocity, height);
        pieces := pieces + [p];
        i := i + 1;
      }
    }
  }

  // ----------------------------------------------------------------------
  // Properties of a frame and of a sequence of runs of one piece.

  /** A piece that respawns, or that is inside the padded viewport, is still
      in the array after the frame (whether it was run or skipped). */
  lemma {:induction false} KeptPiece(xs: seq<(Piece, Motion)>, width: real, height: real, decay: real, k: nat)
    requires k < |xs| && 0.0 <= width && 0.0 <= height
    requires xs[k].1.respawn || Inside(xs[k].1.position, width, height)
    ensures Sweep(xs, Stepper(width, height, decay))[k].live
  {
    SweepSlot(xs, Stepper(width, height, decay), k);
    assert !RunStep(xs[k].1, width, height, decay).1;
  }

  /** A piece is gone after the frame only if it does not respawn and it
      crossed the left, right or bottom bound; it was then run: warped,
      spliced out at the end of warp, then moved. */
  lemma {:induction false} RemovedPiece(xs: seq<(Piece, Motion)>, width: real, height: real, decay: real, k: nat)
    requires k < |xs| && 0.0 <= width && 0.0 <= height
    requires !Sweep(xs, Stepper(width, height, decay))[k].live
    ensures var m := xs[k].1;
      !m.respawn && (m.position.x < -Spacing || m.position.x > width + Spacing || m.position.y > height + Spacing)
    ensures Sweep(xs, Stepper(width, height, decay))[k].state == RunStep(xs[k].1, width, height, decay).0
  {
    RemovedOnlyByStep(xs, Stepper(width, height, decay), k);
  }

  /** When every piece respawns (as every seeded piece does), a frame keeps
      all of them, in order, and runs each exactly once. */
  lemma {:induction false} RespawningFrame(xs: seq<(Piece, Motion)>, width: real, height: real, decay: real)
    requires forall k :: 0 <= k < |xs| ==> xs[k].1.respawn
    ensures Live(Sweep(xs, Stepper(width, height, decay)))
         == seq(|xs|, k requires 0 <= k < |xs| => (xs[k].0, RunStep(xs[k].1, width, height, decay).0))
  {
    var step := Stepper(width, height, decay);
    forall k | 0 <= k < |xs|
      ensures !step(xs[k].1).1
    {
      assert !RunStep(xs[k].1, width, height, decay).1;
    }
    SweepWithoutRemoval(xs, step);
    assert seq(|xs|, k requires 0 <= k < |xs| => (xs[k].0, step(xs[k].1).0))
        == seq(|xs|, k requires 0 <= k < |xs| => (xs[k].0, RunStep(xs[k].1, width, height, decay).0));
  }

  /** The state of a piece after n runs (the decay draw is exact). A frame
      runs a piece at most once: a piece that slides into the slot of a
      removed one is not run in that frame, so n runs may span more than n
      frames. */
  function Runs(m: Motion, width: real, height: real, n: nat): (r: Motion)
    ensures r.velocity == m.velocity && r.acceleration.x == m.acceleration.x && r.respawn == m.respawn
    decreases n
  {
    if n == 0 then m else Runs(RunStep(m, width, height, AccelerationDecay).0, width, height, n - 1)
  }

  lemma {:induction false} RunsSplit(m: Motion, width: real, height: real, a: nat, b: nat)
    ensures Runs(m, width, height, a + b) == Runs(Runs(m, width, height, a), width, height, b)
    decreases a
  {
    if a > 0 {
      RunsSplit(RunStep(m, width, height, AccelerationDecay).0, width, height, a - 1, b);
    }
  }

  /** An upward acceleration of c decay steps loses one step per run. */
  lemma {:induction false} ImpulseCountdown(m: Motion, width: real, height: real, c: nat, k: nat)
    requires m.acceleration.y == -AccelerationDecay * (c as real) && k <= c
    ensures Runs(m, width, height, k).acceleration.y == -AccelerationDecay * ((c - k) as real)
    decreases k
  {
    if k > 0 {
      var next := RunStep(m, width, height, AccelerationDecay).0;
      assert next.acceleration.y == -AccelerationDecay * ((c - 1) as real);
      ImpulseCountdown(next, width, height, c - 1, k - 1);
    }
  }

  /** A vertical acceleration within the threshold snaps to zero and stays there. */
  lemma {:induction false} SettledStaysSettled(m: Motion, width: real, height: real, n: nat)
    requires -DecayThreshold <= m.acceleration.y <= DecayThreshold
    ensures n > 0 ==> Runs(m, width, height, n).acceleration.y == 0.0
    decreases n
  {
    if n > 0 {
      SettledStaysSettled(RunStep(m, width, height, AccelerationDecay).0, width, height, n - 1);
    }
  }

  /** An upward acceleration of c decay steps lasts exactly c runs. */
  lemma {:induction false} ImpulseLasts(m: Motion, width: real, height: real, c: nat, n: nat)
    requires m.acceleration.y == -AccelerationDecay * (c as real)
    ensures n < c ==> Runs(m, width, height, n).acceleration.y < 0.0
    ensures c <= n ==> Runs(m, width, height, n).acceleration.y == 0.0
  {
    if n < c {
      ImpulseCountdown(m, width, height, c, n);
    } else {
      ImpulseCountdown(m, width, height, c, c);
      RunsSplit(m, width, height, c, n - c);
      SettledStaysSettled(Runs(m, width, height, c), width, height, n - c);
    }
  }

  /** The impulse of a clicked piece pushes it upwards for exactly 60 runs
      of the piece and is gone from then on. */
  lemma {:induction false} BurstImpulseLasts60Runs(m: Motion, width: real, height: real, n: nat)
    requires m.acceleration == BurstImpulse
    ensures n < 60 ==> Runs(m, width, height, n).acceleration.y < 0.0
    ensures n >= 60 ==> Runs(m, width, height, n).acceleration == Vec2(0.0, 0.0)
  {
    ImpulseLasts(m, width, height, 60, n);
  }
}
