/** The snowfall effect (src/graphics/snowfall.ts): flakes spawned above
    the canvas that circle horizontally and fall, each removing itself from
    the shared array once it is below the canvas. */
module Snowfall {
  import opened Common
  import opened JsArray

  /** Angular speed of the horizontal circling, in radians per second. */
  const AngularSpeed: real := 0.2
  /** Frames per second assumed when turning the frame count into time. */
  const FrameRate: real := 60.0

  /** The state of a flake: its position and its fixed shape parameters. */
  datatype Flake = Flake(posX: real, posY: real, initAngle: real, size: real, radius: real)

  /** The random draws behind one flake. `radius` is the square root of
      p5.random((width/2)^2); only its range [0, width/2] is kept. */
  datatype FlakeDraw = FlakeDraw(posY: real, initAngle: real, size: real, radius: real)

  predicate FlakeDrawOk(d: FlakeDraw, width: real) {
    && Between(d.posY, -50.0, 0.0)
    && Between(d.initAngle, 0.0, 2.0 * Pi)
    && Between(d.size, 2.0, 5.0)
    && Between(d.radius, 0.0, width / 2.0)
  }

  /** A new flake: at the left edge, with its drawn height and shape. */
  function Initial(d: FlakeDraw): (f: Flake)
    ensures f.posX == 0.0 && f.posY == d.posY
    ensures f.initAngle == d.initAngle && f.size == d.size && f.radius == d.radius
  {
    Flake(0.0, d.posY, d.initAngle, d.size, d.radius)
  }

  /** The entries of the flakes `spawned` pushed with the draws `draws`. */
  ghost function Pushed(spawned: seq<Snowflake>, draws: seq<FlakeDraw>): seq<(Snowflake, Flake)>
    requires |spawned| <= |draws|
  {
    seq(|spawned|, k requires 0 <= k < |spawned| => (spawned[k], Initial(draws[k])))
  }

  /** p5.random(2): a number in [0, 2). */
  predicate RollOk(r: real) {
    0.0 <= r < 2.0
  }

  /** The spawn loop `for (i = 0; i < p5.random(2); i++)` draws a new bound
      at every test: this many flakes are pushed for the draws `rolls`. */
  function SpawnCount(rolls: seq<real>): (n: nat)
    requires |rolls| == 3 && forall k :: 0 <= k < 3 ==> RollOk(rolls[k])
    ensures n <= 2
    ensures n == 0 <==> rolls[0] == 0.0
    ensures n == 2 <==> 0.0 < rolls[0] && 1.0 < rolls[1]
  {
    assert RollOk(rolls[0]);
    if !(0.0 < rolls[0]) then 0 else if !(1.0 < rolls[1]) then 1 else 2
  }

  /** What `update(time)` does to a flake: a new horizontal position on its
      circle, a fall of sqrt(size), and whether it is now below the canvas.
      `sin` and `sqrt` are p5.sin and p5.pow(_, 0.5). */
  function UpdateStep(f: Flake, width: real, height: real, time: real, sin: real -> real, sqrt: real -> real): (r: (Flake, bool))
    ensures r.0.initAngle == f.initAngle && r.0.size == f.size && r.0.radius == f.radius
    ensures r.1 <==> r.0.posY > height
  {
    var next := f.(posX := width / 2.0 + f.radius * sin(AngularSpeed * time + f.initAngle),
                   posY := f.posY + sqrt(f.size));
    (next, next.posY > height)
  }

  function Stepper(width: real, height: real, time: real, sin: real -> real, sqrt: real -> real): Flake -> (Flake, bool) {
    f => UpdateStep(f, width, height, time, sin, sqrt)
  }

  /** The shape parameters are within their draw ranges. */
  predicate Shaped(f: Flake, width: real) {
    Between(f.initAngle, 0.0, 2.0 * Pi) && Between(f.size, 2.0, 5.0)
    && Between(f.radius, 0.0, width / 2.0)
  }

  /** A new flake starts at the left edge, between 50 px above the canvas
      and its top edge, with a size in [2, 5], an angle in [0, 2*pi] and a
      radius of at most half the width. */
  lemma {:induction false} InitialShaped(d: FlakeDraw, width: real)
    requires FlakeDrawOk(d, width)
    ensures var f := Initial(d);
      && Shaped(f, width) && f.posX == 0.0 && -50.0 <= f.posY <= 0.0
      && 2.0 <= f.size <= 5.0 && 0.0 <= f.initAngle <= 2.0 * Pi
  {
  }

  /** A radius at most `half` times a sine in [-1, 1] is within `half` of 0. */
  lemma {:induction false} Swing(r: real, s: real, half: real)
    requires 0.0 <= r <= half && -1.0 <= s <= 1.0
    ensures -half <= r * s <= half
  {
    MulMonoIf(s, 1.0, r);
    assert r * s <= r * 1.0;
    assert r * 1.0 == r;
    assert r * s <= r;
    MulMonoIf(-1.0, s, r);
    assert r * (-1.0) <= r * s;
    assert r * (-1.0) == -r;
  }

  /** A square root of a size of at least 2 is more than 1. */
  lemma {:induction false} RootAboveOne(s: real, size: real)
    requires 0.0 <= s && s * s == size && 2.0 <= size
    ensures 1.0 < s
  {
    MulMonoIf(s, 1.0, s);
  }

  /** Each update moves a flake down by sqrt(size), which is more than 1. */
  lemma {:induction false} FlakeFalls(f: Flake, width: real, height: real, time: real, sin: real -> real, sqrt: real -> real)
    requires Shaped(f, width) && 0.0 <= sqrt(f.size) && sqrt(f.size) * sqrt(f.size) == f.size
    ensures UpdateStep(f, width, height, time, sin, sqrt).0.posY > f.posY + 1.0
  {
    RootAboveOne(sqrt(f.size), f.size);
  }

  /** The horizontal position depends only on the time and the shape, not
      on where the flake was, and stays on the canvas. */
  lemma {:induction false} FlakeCircles(f: Flake, g: Flake, width: real, height: real, time: real, sin: real -> real, sqrt: real -> real)
    requires 0.0 <= width && Shaped(f, width)
    requires -1.0 <= sin(AngularSpeed * time + f.initAngle) <= 1.0
    requires g == f.(posX := g.posX)
    ensures var x := UpdateStep(f, width, height, time, sin, sqrt).0.posX;
      && x == UpdateStep(g, width, height, time, sin, sqrt).0.posX
      && 0.0 <= x <= width
  {
    var s := sin(AngularSpeed * time + f.initAngle);
    Swing(f.radius, s, width / 2.0);
  }

  /** A flake that keeps being updated is below any given line after
      enough frames: n updates take it more than n pixels down. */
  function Fallen(f: Flake, width: real, height: real, time: nat -> real, sin: real -> real, sqrt: real -> real, n: nat): (r: Flake)
    ensures r.initAngle == f.initAngle && r.size == f.size && r.radius == f.radius
    decreases n
  {
    if n == 0 then f else UpdateStep(Fallen(f, width, height, time, sin, sqrt, n - 1), width, height, time(n - 1), sin, sqrt).0
  }

  lemma {:induction false} FlakeKeepsFalling(f: Flake, width: real, height: real, time: nat -> real, sin: real -> real, sqrt: real -> real, n: nat)
    requires Shaped(f, width) && 0.0 <= sqrt(f.size) && sqrt(f.size) * sqrt(f.size) == f.size
    ensures Fallen(f, width, height, time, sin, sqrt, n).posY >= f.posY + n as real
    ensures n > 0 ==> Fallen(f, width, height, time, sin, sqrt, n).posY > f.posY + n as real
    decreases n
  {
    if n > 0 {
      var g := Fallen(f, width, height, time, sin, sqrt, n - 1);
      FlakeKeepsFalling(f, width, height, time, sin, sqrt, n - 1);
      assert Shaped(g, width);
      FlakeFalls(g, width, height, time(n - 1), sin, sqrt);
    }
  }

  class Snowflake {
    var posX: real
    var posY: real
    const initAngle: real
    const size: real
    const radius: real

    function State(): Flake
      reads this
    {
      Flake(posX, posY, initAngle, size, radius)
    }

    /** The field initialisers, with the canvas width of the moment. */
    constructor (width: real, d: FlakeDraw)
      requires FlakeDrawOk(d, width)
      ensures State() == Initial(d)
      ensures Shaped(State(), width)
    {
      posX := 0.0;
      posY := d.posY;
      initAngle := d.initAngle;
      size := d.size;
      radius := d.radius;
    }

    /** Circle, fall, and splice this flake out of the array once it is
        below the canvas. The splice uses the index found without checking
        it, as the source does. */
    method Update(time: real, sketch: Sketch, sin: real -> real, sqrt: real -> real)
      modifies this, sketch`snowflakes
      ensures State() == UpdateStep(old(State()), sketch.width, sketch.height, time, sin, sqrt).0
      ensures sketch.snowflakes ==
        if UpdateStep(old(State()), sketch.width, sketch.height, time, sin, sqrt).1
        then SpliceOne(old(sketch.snowflakes), IndexOf(old(sketch.snowflakes), this))
        else old(sketch.snowflakes)
    {
      var angle := AngularSpeed * time + initAngle;
      posX := sketch.width / 2.0 + radius * sin(angle);
      posY := posY + sqrt(size);
      if posY > sketch.height {
        var index := IndexOf(sketch.snowflakes, this);
        sketch.snowflakes := SpliceOne(sketch.snowflakes, index);
      }
    }
  }

  class Sketch {
    const width: real
    const height: real
    var snowflakes: seq<Snowflake>

    ghost predicate Valid()
      reads this
    {
      0.0 <= width && 0.0 <= height && Distinct(snowflakes)
    }

    /** The flakes in array order, each with its current state. */
    ghost function Entries(): seq<(Snowflake, Flake)>
      reads this, snowflakes
    {
      seq(|snowflakes|, k reads this, snowflakes requires 0 <= k < |snowflakes| => (snowflakes[k], snowflakes[k].State()))
    }

    constructor (width: real, height: real)
      requires 0.0 <= width && 0.0 <= height
      ensures Valid() && this.width == width && this.height == height && snowflakes == []
    {
      this.width := width;
      this.height := height;
      snowflakes := [];
    }

    /** The spawn loop of p5.draw: push a new flake while the loop index is
        below a fresh p5.random(2). Returns the new flakes. */
    method Spawn(rolls: seq<real>, draws: seq<FlakeDraw>) returns (spawned: seq<Snowflake>)
      requires Valid()
      requires |rolls| == 3 && forall k :: 0 <= k < 3 ==> RollOk(rolls[k])
      requires |draws| == 2 && forall k :: 0 <= k < 2 ==> FlakeDrawOk(draws[k], width)
      modifies this`snowflakes
      ensures Valid()
      ensures |spawned| == SpawnCount(rolls)
      ensures snowflakes == old(snowflakes) + spawned
      ensures forall k :: 0 <= k < |spawned| ==> fresh(spawned[k])
      ensures Entries() == old(Entries()) + Pushed(spawned, draws)
    {
      spawned := [];
      var i := 0;
      while (i as real) < rolls[i]
        invariant 0 <= i <= 2 && |spawned| == i
        decreases 2 - i
        invariant i == 1 ==> 0.0 < rolls[0]
        invariant i == 2 ==> 0.0 < rolls[0] && 1.0 < rolls[1]
        invariant Valid()
        invariant snowflakes == old(snowflakes) + spawned
        invariant Entries()[..|old(snowflakes)|] == old(Entries())
        invariant forall k :: 0 <= k < i ==> fresh(spawned[k])
        invariant forall k :: 0 <= k < i ==>
          spawned[k].State() == Initial(draws[k])
      {
        var flake := new Snowflake(width, draws[i]);
        snowflakes := snowflakes + [flake];
        spawned := spawned + [flake];
        i := i + 1;
      }
      EntriesAfterPush(old(Entries()), spawned, draws);
    }

    /** The entries once `spawned` has been pushed behind flakes whose
        entries were `before`. */
    lemma {:induction false} EntriesAfterPush(before: seq<(Snowflake, Flake)>, spawned: seq<Snowflake>, draws: seq<FlakeDraw>)
      requires |before| + |spawned| == |snowflakes| && |spawned| <= |draws|
      requires Entries()[..|before|] == before
      requires snowflakes[|before|..] == spawned
      requires forall k :: 0 <= k < |spawned| ==> spawned[k].State() == Initial(draws[k])
      ensures Entries() == before + Pushed(spawned, draws)
    {
      ghost var whole := before + Pushed(spawned, draws);
      forall k | 0 <= k < |snowflakes|
        ensures Entries()[k] == whole[k]
      {
        if k < |before| {
          assert Entries()[k] == Entries()[..|before|][k];
        } else {
          assert snowflakes[k] == spawned[k - |before|];
        }
      }
    }

    /** The body of the for..of loop at index i: update the flake there. */
    method UpdateAt(i: nat, time: real, sin: real -> real, sqrt: real -> real, ghost step: Flake -> (Flake, bool))
      returns (gone: bool)
      requires Valid() && i < |snowflakes|
      requires step == Stepper(width, height, time, sin, sqrt)
      modifies this`snowflakes, snowflakes[i]
      ensures Valid()
      ensures gone == step(old(Entries())[i].1).1
      ensures Entries() == AfterBody(old(Entries()), i, step(old(Entries())[i].1))
      ensures snowflakes == if gone then old(snowflakes[..i] + snowflakes[i + 1..]) else old(snowflakes)
      ensures gone ==> old(snowflakes[i]) !in snowflakes
    {
      var flake := snowflakes[i];
      ghost var arr := snowflakes;
      ghost var before := Entries();
      flake.Update(time, this, sin, sqrt);
      gone := flake.posY > height;
      forall k | 0 <= k < |arr| && k != i
        ensures arr[k].State() == before[k].1
      {
        assert arr[k] != flake;
      }
      if gone {
        UnguardedSpliceAt(arr, i);
        RemovedSlotAbsent(arr, i);
        EntriesAfterRemoval(arr, before, i);
      } else {
        EntriesAfterUpdate(arr, before, i);
      }
    }

    /** The entries once slot i has been spliced out of `arr`, whose other
        flakes kept their states. */
    lemma {:induction false} EntriesAfterRemoval(arr: seq<Snowflake>, before: seq<(Snowflake, Flake)>, i: nat)
      requires |before| == |arr| && i < |arr|
      requires forall k :: 0 <= k < |arr| ==> before[k].0 == arr[k]
      requires forall k :: 0 <= k < |arr| && k != i ==> arr[k].State() == before[k].1
      requires snowflakes == arr[..i] + arr[i + 1..]
      ensures Entries() == before[..i] + before[i + 1..]
    {
      ghost var rest := before[..i] + before[i + 1..];
      forall k | 0 <= k < |snowflakes|
        ensures Entries()[k] == rest[k]
      {
        SlotAfterRemoval(arr, i, k);
        SlotAfterRemoval(before, i, k);
      }
    }

    /** The entries when the array is unchanged and only slot i's flake
        changed state. */
    lemma {:induction false} EntriesAfterUpdate(arr: seq<Snowflake>, before: seq<(Snowflake, Flake)>, i: nat)
      requires |before| == |arr| && i < |arr|
      requires forall k :: 0 <= k < |arr| ==> before[k].0 == arr[k]
      requires forall k :: 0 <= k < |arr| && k != i ==> arr[k].State() == before[k].1
      requires snowflakes == arr
      ensures Entries() == before[i := (arr[i], arr[i].State())]
    {
      ghost var rest := before[i := (arr[i], arr[i].State())];
      forall k | 0 <= k < |snowflakes|
        ensures Entries()[k] == rest[k]
      {
      }
    }

    /** p5.draw: spawn, then update every flake with a for..of loop while
        updates splice flakes out of the array. `frameCount` is p5.frameCount. */
    method Draw(frameCount: int, rolls: seq<real>, draws: seq<FlakeDraw>, sin: real -> real, sqrt: real -> real)
      returns (spawned: seq<Snowflake>)
      requires Valid()
      requires |rolls| == 3 && forall k :: 0 <= k < 3 ==> RollOk(rolls[k])
      requires |draws| == 2 && forall k :: 0 <= k < 2 ==> FlakeDrawOk(draws[k], width)
      modifies this`snowflakes, snowflakes
      ensures Valid()
      ensures |spawned| == SpawnCount(rolls) && forall k :: 0 <= k < |spawned| ==> fresh(spawned[k])
      ensures Entries() == Live(Sweep(old(Entries()) + Pushed(spawned, draws),
        Stepper(width, height, frameCount as real / FrameRate, sin, sqrt)))
    {
      var t := frameCount as real / FrameRate;
      spawned := Spawn(rolls, draws);
      UpdateAll(t, sin, sqrt);
    }

    /** One pass of the for..of loop: the flake at index i is the first one
        the sweep has not reached, and updating it advances the sweep. */
    method UpdateNext(i: nat, time: real, sin: real -> real, sqrt: real -> real, ghost step: Flake -> (Flake, bool),
                      ghost orig: seq<(Snowflake, Flake)>, ghost acc: seq<Entry<Snowflake, Flake>>)
      returns (ghost next: seq<Entry<Snowflake, Flake>>)
      requires Valid() && i < |snowflakes|
      requires step == Stepper(width, height, time, sin, sqrt)
      requires SweepLoop(orig, step, acc, Entries(), i)
      modifies this`snowflakes, snowflakes[i]
      ensures Valid()
      ensures old(snowflakes[i]) == orig[|acc|].0
      ensures next == SweepStep(orig, step, acc, |acc|) && |acc| < |next| <= |orig|
      ensures SweepLoop(orig, step, next, Entries(), i + 1)
      ensures forall x :: x in snowflakes ==> x in old(snowflakes)
    {
      SweepLoopAdvance(orig, step, acc, Entries(), i);
      var gone := UpdateAt(i, time, sin, sqrt, step);
      next := SweepStep(orig, step, acc, |acc|);
    }

    /** The for..of loop of p5.draw: update the flake at each index while
        updates splice flakes out of the array. */
    method UpdateAll(time: real, sin: real -> real, sqrt: real -> real)
      requires Valid()
      modifies this`snowflakes, snowflakes
      ensures Valid()
      ensures Entries() == Live(Sweep(old(Entries()), Stepper(width, height, time, sin, sqrt)))
    {
      ghost var orig := Entries();
      ghost var step := Stepper(width, height, time, sin, sqrt);
      ghost var acc: seq<Entry<Snowflake, Flake>> := [];
      var i := 0;
      while i < |snowflakes|
        invariant Valid() && step == Stepper(width, height, time, sin, sqrt)
        invariant forall x :: x in snowflakes ==> x in old(snowflakes)
        invariant SweepLoop(orig, step, acc, Entries(), i)
        decreases |orig| - |acc|
      {
        assert snowflakes[i] in snowflakes;
        acc := UpdateNext(i, time, sin, sqrt, step, orig, acc);
        i := i + 1;
      }
      SweepLoopDone(orig, step, acc, Entries(), i);
    }
  }

  /** A flake that is updated and ends up below the canvas is gone from the
      array after the frame; a flake is only ever gone because of that. */
  lemma {:induction false} FlakeRemovedIffBelow(xs: seq<(Snowflake, Flake)>, width: real, height: real, time: real,
                                                sin: real -> real, sqrt: real -> real, k: nat)
    requires k < |xs|
    requires k == 0 || Sweep(xs, Stepper(width, height, time, sin, sqrt))[k - 1].live
    ensures !Sweep(xs, Stepper(width, height, time, sin, sqrt))[k].live
        <==> UpdateStep(xs[k].1, width, height, time, sin, sqrt).0.posY > height
  {
    SweepSlot(xs, Stepper(width, height, time, sin, sqrt), k);
  }

  /** With distinct flakes (as in the array), the flake at slot k is gone
      from the array after the frame exactly when its update takes it below
      the canvas, unless the flake before it was removed and it was skipped. */
  lemma {:induction false} FlakeGoneIffBelow(xs: seq<(Snowflake, Flake)>, width: real, height: real, time: real,
                                             sin: real -> real, sqrt: real -> real, k: nat)
    requires Distinct(Objects(xs)) && k < |xs|
    requires k == 0 || Sweep(xs, Stepper(width, height, time, sin, sqrt))[k - 1].live
    ensures xs[k].0 !in Objects(Live(Sweep(xs, Stepper(width, height, time, sin, sqrt))))
        <==> UpdateStep(xs[k].1, width, height, time, sin, sqrt).0.posY > height
  {
    FlakeRemovedIffBelow(xs, width, height, time, sin, sqrt, k);
    SurvivesIffLive(xs, Stepper(width, height, time, sin, sqrt), k);
  }

  /** Flakes are only ever added by the spawn loop: every flake left after
      a frame was in the array before it or was spawned in it. There is no
      respawn path. */
  lemma {:induction false} NoRespawn(xs: seq<(Snowflake, Flake)>, spawned: seq<Snowflake>, draws: seq<FlakeDraw>,
                                     width: real, height: real, time: real, sin: real -> real, sqrt: real -> real,
                                     e: (Snowflake, Flake))
    requires |spawned| <= |draws|
    requires e in Live(Sweep(xs + Pushed(spawned, draws), Stepper(width, height, time, sin, sqrt)))
    ensures e.0 in Objects(xs) || e.0 in spawned
  {
    var all := xs + Pushed(spawned, draws);
    SweepAddsNothing(all, Stepper(width, height, time, sin, sqrt), e);
    var j :| 0 <= j < |all| && Objects(all)[j] == e.0;
    if j < |xs| {
      assert Objects(xs)[j] == e.0;
    } else {
      assert spawned[j - |xs|] == e.0;
    }
  }
}
