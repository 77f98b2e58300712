/** The particle field (src/graphics/particles.ts): drifting dots that
    bounce off the canvas edges, a pointer-following dot, and lines between
    dots closer than a threshold, fading with distance. */
module Particles {
  import opened Common
  import opened JsArray

  datatype Range = Range(min: real, max: real)

  /** The options object; every entry may be absent. Colours, dotShow and
      repelStrength only affect drawing or the repeller and are left out. */
  datatype Options = Options(
    particleAmt: Option<real>,
    speedX: Option<Range>,
    speedY: Option<Range>,
    dotSize: Option<Range>,
    lineShow: Option<bool>,
    lineDist: Option<real>,
    lineOpacity: Option<real>)

  const NoOptions: Options := Options(None, None, None, None, None, None, None)

  const DefaultRadius: Range := Range(1.0, 8.0)
  const DefaultSpeedX: Range := Range(-2.0, 2.0)
  const DefaultSpeedY: Range := Range(-1.0, 1.5)
  const DefaultLineDist: real := 100.0
  const DefaultLineOpacity: real := 0.8
  /** The arguments of the two connect calls in the draw loop. */
  const PointerReach: real := 150.0
  const PointerOpacity: real := 1.0
  const NeighbourReach: real := 60.0
  const NeighbourOpacity: real := 0.4

  /** JavaScript truthiness of an optional number: present and not zero. */
  predicate Truthy(o: Option<real>) {
    o.Some? && o.value != 0.0
  }

  /** `o || fallback` on an optional number. */
  function OrElse(o: Option<real>, fallback: real): real {
    if Truthy(o) then o.value else fallback
  }

  function Min(r: Option<Range>): Option<real> {
    if r.Some? then Some(r.value.min) else None
  }

  function Max(r: Option<Range>): Option<real> {
    if r.Some? then Some(r.value.max) else None
  }

  /** A range option resolved bound by bound against its default. */
  function ResolveRange(r: Option<Range>, default: Range): Range {
    Range(OrElse(Min(r), default.min), OrElse(Max(r), default.max))
  }

  /** The values the particles actually use once every option is resolved
      through `||`. */
  datatype Settings = Settings(radius: Range, speedX: Range, speedY: Range, lineDist: real, lineOpacity: real, showLines: bool)

  function Resolve(opts: Options): (s: Settings)
    ensures s.radius.min != 0.0 && s.radius.max != 0.0 && s.lineDist != 0.0 && s.lineOpacity != 0.0
    ensures s.speedX.min != 0.0 && s.speedX.max != 0.0 && s.speedY.min != 0.0 && s.speedY.max != 0.0
    ensures s.showLines <==> opts.lineShow != Some(false)
  {
    Settings(ResolveRange(opts.dotSize, DefaultRadius), ResolveRange(opts.speedX, DefaultSpeedX),
             ResolveRange(opts.speedY, DefaultSpeedY), OrElse(opts.lineDist, DefaultLineDist),
             OrElse(opts.lineOpacity, DefaultLineOpacity), opts.lineShow != Some(false))
  }

  /** The connection threshold of one connect call: `maxDis || lineDist || 100`. */
  function Reach(maxDis: Option<real>, opts: Options): (r: real)
    ensures r != 0.0
    ensures Truthy(maxDis) ==> r == maxDis.value
    ensures !Truthy(maxDis) ==> r == Resolve(opts).lineDist
  {
    OrElse(maxDis, Resolve(opts).lineDist)
  }

  /** The opacity scale of one connect call: `opac || lineOpacity || 0.8`. */
  function Strength(opac: Option<real>, opts: Options): (r: real)
    ensures r != 0.0
    ensures Truthy(opac) ==> r == opac.value
    ensures !Truthy(opac) ==> r == Resolve(opts).lineOpacity
  {
    OrElse(opac, Resolve(opts).lineOpacity)
  }

  /** Linear fade: full strength at distance 0, nothing at the threshold. */
  function Opacity(dis: real, reach: real, strength: real): (r: real)
    requires reach != 0.0
    ensures 0.0 <= dis < reach && 0.0 < strength ==> 0.0 < r <= strength
    ensures dis == 0.0 ==> r == strength
    ensures dis == reach ==> r == 0.0
  {
    FadeBounds(dis, reach, strength);
    (dis / reach * -1.0 + 1.0) * strength
  }

  /** Below the threshold the fade factor lies in (0, 1]. */
  lemma {:induction false} FadeBounds(dis: real, reach: real, strength: real)
    requires reach != 0.0
    ensures 0.0 <= dis < reach && 0.0 < strength ==> 0.0 < (dis / reach * -1.0 + 1.0) * strength <= strength
  {
    if 0.0 <= dis < reach && 0.0 < strength {
      var fade := dis / reach * -1.0 + 1.0;
      FractionBounds(dis, reach);
      MulStrictIf(0.0, fade, strength);
      MulMonoIf(fade, 1.0, strength);
    }
  }

  /** What connect draws towards one other particle at distance `dis`: a
      line of the given opacity, or nothing. */
  function Link(dis: real, maxDis: Option<real>, opac: Option<real>, opts: Options): (r: Option<real>)
    ensures r.Some? <==> opts.lineShow != Some(false) && dis < Reach(maxDis, opts)
    ensures r.Some? && 0.0 <= dis && 0.0 < Reach(maxDis, opts) && 0.0 < Strength(opac, opts) ==>
      0.0 < r.value <= Strength(opac, opts)
  {
    if opts.lineShow == Some(false) then None
    else
      var reach := Reach(maxDis, opts);
      if dis < reach then Some(Opacity(dis, reach, Strength(opac, opts))) else None
  }

  /** Iterations of `for (i = 0; i < n; i++)`: the least natural number not below n. */
  function LoopCount(n: real): (k: nat)
    ensures n <= k as real
    ensures k == 0 || (k - 1) as real < n
  {
    if n <= 0.0 then 0 else -((-n).Floor)
  }

  /** Where a particle is and where it is heading. */
  datatype Kin = Kin(position: Vec2, velocity: Vec2)

  function Abs(x: real): real {
    if x < 0.0 then -x else x
  }

  /** What `move(x, y)` does: snap to (x, y) when both are truthy, otherwise
      step by the velocity and reverse each component whose coordinate is
      now off the canvas. */
  function MoveStep(k: Kin, x: Option<real>, y: Option<real>, width: real, height: real): (r: Kin)
    ensures Truthy(x) && Truthy(y) ==> r == Kin(Vec2(x.value, y.value), k.velocity)
    ensures !(Truthy(x) && Truthy(y)) ==> r.position == Add(k.position, k.velocity)
    ensures !(Truthy(x) && Truthy(y)) ==>
      && (0.0 <= r.position.x <= width ==> r.velocity.x == k.velocity.x)
      && (r.position.x < 0.0 || r.position.x > width ==> r.velocity.x == -k.velocity.x)
      && (0.0 <= r.position.y <= height ==> r.velocity.y == k.velocity.y)
      && (r.position.y < 0.0 || r.position.y > height ==> r.velocity.y == -k.velocity.y)
    ensures Abs(r.velocity.x) == Abs(k.velocity.x) && Abs(r.velocity.y) == Abs(k.velocity.y)
  {
    if Truthy(x) && Truthy(y) then Kin(Vec2(x.value, y.value), k.velocity)
    else
      var p := Add(k.position, k.velocity);
      var vx := if p.x < 0.0 || p.x > width then -k.velocity.x else k.velocity.x;
      var vy := if p.y < 0.0 || p.y > height then -k.velocity.y else k.velocity.y;
      Kin(p, Vec2(vx, vy))
  }

  /** On one axis: on the canvas, or off it by less than one step, heading back. */
  predicate Near(p: real, v: real, bound: real) {
    (0.0 <= p <= bound) || ((p < 0.0 || p > bound) && 0.0 <= p + v <= bound)
  }

  /** A free particle is never more than one step off the canvas. */
  predicate Contained(k: Kin, width: real, height: real) {
    Near(k.position.x, k.velocity.x, width) && Near(k.position.y, k.velocity.y, height)
  }

  /** n frames of a free particle (move with no arguments). */
  function Drift(k: Kin, width: real, height: real, n: nat): (r: Kin)
    ensures Abs(r.velocity.x) == Abs(k.velocity.x) && Abs(r.velocity.y) == Abs(k.velocity.y)
    decreases n
  {
    if n == 0 then k else Drift(MoveStep(k, None, None, width, height), width, height, n - 1)
  }

  /** Bouncing keeps a free particle that starts on the canvas within one
      step of it for ever, at its initial speed on each axis. */
  lemma {:induction false} DriftStaysNear(k: Kin, width: real, height: real, n: nat)
    requires 0.0 <= width && 0.0 <= height && Contained(k, width, height)
    ensures var r := Drift(k, width, height, n);
      && Contained(r, width, height)
      && -Abs(k.velocity.x) <= r.position.x <= width + Abs(k.velocity.x)
      && -Abs(k.velocity.y) <= r.position.y <= height + Abs(k.velocity.y)
    decreases n
  {
    if n > 0 {
      var next := MoveStep(k, None, None, width, height);
      assert Contained(next, width, height);
      DriftStaysNear(next, width, height, n - 1);
    } else {
      assert Abs(k.velocity.x) == if k.velocity.x < 0.0 then -k.velocity.x else k.velocity.x;
    }
  }

  /** The fade factor times a positive strength is strictly decreasing. */
  lemma {:induction false} FadeStrict(q1: real, q2: real, s: real)
    requires q1 < q2 && 0.0 < s
    ensures (q1 * -1.0 + 1.0) * s > (q2 * -1.0 + 1.0) * s
  {
    MulStrictIf(q2 * -1.0 + 1.0, q1 * -1.0 + 1.0, s);
  }

  /** Lines fade strictly as the distance grows. */
  lemma {:induction false} OpacityDecreasing(d1: real, d2: real, reach: real, strength: real)
    requires 0.0 < reach && 0.0 < strength && d1 < d2
    ensures Opacity(d1, reach, strength) > Opacity(d2, reach, strength)
  {
    DivStrict(d1, d2, reach);
    FadeStrict(d1 / reach, d2 / reach, strength);
  }

  /** Configuring lineDist as 0 is the same as leaving it out. */
  lemma {:induction false} ZeroLineDistIsAbsent(opts: Options)
    requires opts.lineDist == Some(0.0)
    ensures Resolve(opts) == Resolve(opts.(lineDist := None))
  {
  }

  /** Configuring lineOpacity as 0 is the same as leaving it out. */
  lemma {:induction false} ZeroLineOpacityIsAbsent(opts: Options)
    requires opts.lineOpacity == Some(0.0)
    ensures Resolve(opts) == Resolve(opts.(lineOpacity := None))
  {
  }

  /** A range bound configured as 0 falls back to the default bound, while
      the other bound is kept. */
  lemma {:induction false} ZeroBoundFallsBack(r: Range, default: Range)
    ensures r.min == 0.0 ==> ResolveRange(Some(r), default) == Range(default.min, OrElse(Some(r.max), default.max))
    ensures r.max == 0.0 ==> ResolveRange(Some(r), default) == Range(OrElse(Some(r.min), default.min), default.max)
  {
  }

  /** With no options at all: radius in [1, 8], speeds in [-2, 2] and
      [-1, 1.5], lines up to 100 px at opacity 0.8. */
  lemma {:induction false} EmptyOptions()
    ensures Resolve(NoOptions) == Settings(DefaultRadius, DefaultSpeedX, DefaultSpeedY, DefaultLineDist, DefaultLineOpacity, true)
  {
  }

  /** The random draws behind one particle. */
  datatype Draw = Draw(x: real, y: real, radius: real, vx: real, vy: real)

  predicate DrawOk(d: Draw, opts: Options, width: real, height: real) {
    var s := Resolve(opts);
    && Between(d.x, 0.0, width) && Between(d.y, 0.0, height)
    && Between(d.radius, s.radius.min, s.radius.max)
    && Between(d.vx, s.speedX.min, s.speedX.max)
    && Between(d.vy, s.speedY.min, s.speedY.max)
  }

  /** Where the constructor puts a particle: `!x && !y` picks the random
      position, otherwise the given one. */
  function StartPosition(at: Option<Vec2>, d: Draw): Vec2 {
    if at.None? || (at.value.x == 0.0 && at.value.y == 0.0) then Vec2(d.x, d.y) else at.value
  }

  class Vector {
    var x: real
    var y: real

    constructor (x: real, y: real)
      ensures this.x == x && this.y == y
    {
      this.x := x;
      this.y := y;
    }

    function Value(): Vec2
      reads this
    {
      Vec2(x, y)
    }
  }

  class Particle {
    const position: Vector
    const velocity: Vector
    /** Assigned `this.velocity` itself: the same object, not a copy. */
    const initVelo: Vector
    const radius: real

    ghost predicate Valid() {
      position != velocity && initVelo == velocity
    }

    function State(): Kin
      reads position, velocity
    {
      Kin(position.Value(), velocity.Value())
    }

    /** `at` is the (x, y) argument pair; the two call sites pass both or neither. */
    constructor (at: Option<Vec2>, d: Draw, opts: Options, width: real, height: real)
      requires DrawOk(d, opts, width, height)
      ensures Valid() && fresh(position) && fresh(velocity)
      ensures State() == Kin(StartPosition(at, d), Vec2(d.vx, d.vy))
      ensures radius == d.radius
    {
      var start := StartPosition(at, d);
      position := new Vector(start.x, start.y);
      radius := d.radius;
      var v := new Vector(d.vx, d.vy);
      velocity := v;
      initVelo := v;
    }

    method Move(x: Option<real>, y: Option<real>, width: real, height: real)
      requires Valid()
      modifies position, velocity
      ensures State() == MoveStep(old(State()), x, y, width, height)
      ensures initVelo.Value() == velocity.Value()
    {
      if Truthy(x) && Truthy(y) {
        position.x := x.value;
        position.y := y.value;
      } else {
        position.x := position.x + velocity.x;
        position.y := position.y + velocity.y;
        if position.x < 0.0 || position.x > width {
          velocity.x := velocity.x * -1.0;
        }
        if position.y < 0.0 || position.y > height {
          velocity.y := velocity.y * -1.0;
        }
      }
    }

    /** For each other particle, the line drawn to it (its opacity) or
        nothing; `dist` is p5.dist. */
    method Connect(others: seq<Particle>, dist: (Vec2, Vec2) -> real, maxDis: Option<real>, opac: Option<real>, opts: Options)
      returns (lines: seq<Option<real>>)
      ensures |lines| == |others|
      ensures forall j :: 0 <= j < |others| ==>
        lines[j] == Link(dist(position.Value(), others[j].position.Value()), maxDis, opac, opts)
    {
      lines := [];
      var j := 0;
      while j < |others|
        invariant 0 <= j <= |others| && |lines| == j
        invariant forall k :: 0 <= k < j ==>
          lines[k] == Link(dist(position.Value(), others[k].position.Value()), maxDis, opac, opts)
      {
        var line: Option<real> := None;
        if opts.lineShow != Some(false) {
          var dis := dist(position.Value(), others[j].position.Value());
          var maxDist := Reach(maxDis, opts);
          if dis < maxDist {
            line := Some(Opacity(dis, maxDist, Strength(opac, opts)));
          }
        }
        assert line == Link(dist(position.Value(), others[j].position.Value()), maxDis, opac, opts);
        lines := lines + [line];
        j := j + 1;
      }
    }
  }

  /** No two particles share a vector object. */
  ghost predicate Separate(ps: seq<Particle>) {
    forall i, j :: 0 <= i < j < |ps| ==>
      && ps[i].position != ps[j].position && ps[i].position != ps[j].velocity
      && ps[i].velocity != ps[j].position && ps[i].velocity != ps[j].velocity
  }

  lemma {:induction false} SeparateAppend(ps: seq<Particle>, p: Particle)
    requires Separate(ps) && p.Valid()
    requires forall k :: 0 <= k < |ps| ==> p.position !in {ps[k].position, ps[k].velocity}
    requires forall k :: 0 <= k < |ps| ==> p.velocity !in {ps[k].position, ps[k].velocity}
    ensures Separate(ps + [p])
  {
    var qs := ps + [p];
    forall i, j | 0 <= i < j < |qs|
      ensures qs[i].position != qs[j].position && qs[i].position != qs[j].velocity
      ensures qs[i].velocity != qs[j].position && qs[i].velocity != qs[j].velocity
    {
      if j < |ps| {
        assert qs[i] == ps[i] && qs[j] == ps[j];
      } else {
        assert qs[i] == ps[i] && qs[j] == p;
      }
    }
  }

  /** The draw loop after index i: particles before i have moved, the rest not yet. */
  lemma {:induction false} LoopStepStates(before: seq<Kin>, width: real, height: real, i: nat)
    requires i < |before|
    ensures var stepped := StepAll(before, width, height);
      (stepped[..i] + before[i..])[i := stepped[i]] == stepped[..i + 1] + before[i + 1..]
  {
  }

  /** The row connect returns at index i is Row(before, i). */
  lemma {:induction false} LoopStepRow(before: seq<Kin>, kins: seq<Kin>, row: seq<Option<real>>, i: nat,
                                       dist: (Vec2, Vec2) -> real, width: real, height: real, opts: Options)
    requires i < |before| && kins == StepAll(before, width, height)[..i + 1] + before[i + 1..]
    requires |row| == |kins| - i
    requires forall t :: 0 <= t < |kins| - i ==>
      row[t] == Link(dist(kins[i].position, kins[i + t].position), Some(NeighbourReach), Some(NeighbourOpacity), opts)
    ensures row == Row(before, i, dist, width, height, opts)
  {
    var r := Row(before, i, dist, width, height, opts);
    var pairs := RowPairs(i, |before|);
    forall t | 0 <= t < |row|
      ensures row[t] == r[t]
    {
      assert pairs[t] == (i, i + t);
      assert kins[i] == StepAll(before, width, height)[i];
      assert Seen(before, i, i, width, height) == kins[i].position;
      if t > 0 {
        assert kins[i + t] == before[i + t];
      }
      assert Seen(before, i, i + t, width, height) == kins[i + t].position;
    }
  }

  /** Every free particle moved once, with no arguments. */
  function StepAll(ks: seq<Kin>, width: real, height: real): (r: seq<Kin>)
    ensures |r| == |ks|
  {
    seq(|ks|, k requires 0 <= k < |ks| => MoveStep(ks[k], None, None, width, height))
  }

  /** The index pairs row i of the draw loop considers: (i, i), (i, i+1), …, (i, n-1). */
  function RowPairs(i: nat, n: nat): (r: seq<(nat, nat)>)
    requires i <= n
    ensures |r| == n - i
    ensures forall t :: 0 <= t < |r| ==> r[t].0 == i <= r[t].1 < n
  {
    seq(n - i, t requires 0 <= t < n - i => (i, i + t))
  }

  /** Where row i of the draw loop sees particle b (b >= i): particle i at
      its new position, a later one where it was before the frame. */
  function Seen(before: seq<Kin>, i: nat, b: nat, width: real, height: real): Vec2
    requires i <= b < |before|
  {
    if b == i then MoveStep(before[i], None, None, width, height).position else before[b].position
  }

  /** The lines particle i draws in the draw loop, to particles.slice(i):
      one per pair of RowPairs(i, n), each between the two particles of the
      pair as the row sees them, since the later ones have not moved yet. */
  ghost function Row(before: seq<Kin>, i: nat, dist: (Vec2, Vec2) -> real, width: real, height: real, opts: Options): seq<Option<real>>
    requires i < |before|
  {
    var pairs := RowPairs(i, |before|);
    seq(|pairs|, t requires 0 <= t < |pairs| =>
      Link(dist(Seen(before, i, pairs[t].0, width, height), Seen(before, i, pairs[t].1, width, height)),
           Some(NeighbourReach), Some(NeighbourOpacity), opts))
  }

  /** Each pair a <= b of particles is drawn by exactly one entry of the
      rows: entry b - a of row a, joining a at its new position to b as row
      a sees it. */
  lemma {:induction false} EachPairOneLine(before: seq<Kin>, dist: (Vec2, Vec2) -> real, width: real, height: real,
                                           opts: Options, a: nat, b: nat)
    requires a <= b < |before|
    ensures RowPairs(a, |before|)[b - a] == (a, b)
    ensures Row(before, a, dist, width, height, opts)[b - a]
         == Link(dist(MoveStep(before[a], None, None, width, height).position, Seen(before, a, b, width, height)),
                 Some(NeighbourReach), Some(NeighbourOpacity), opts)
    ensures forall i: nat, t: nat :: i < |before| && t < |before| - i && RowPairs(i, |before|)[t] == (a, b) ==>
      i == a && t == b - a
  {
    var n := |before|;
    assert RowPairs(a, n)[b - a] == (a, b);
    assert Seen(before, a, a, width, height) == MoveStep(before[a], None, None, width, height).position;
    forall i: nat, t: nat | i < n && t < n - i && RowPairs(i, n)[t] == (a, b)
      ensures i == a && t == b - a
    {
      assert RowPairs(i, n)[t] == (i, i + t);
    }
  }

  /** All pairs the draw loop considers from row i on, in order. */
  function PairsFrom(i: nat, n: nat): seq<(nat, nat)>
    decreases n - i
  {
    if i >= n then [] else RowPairs(i, n) + PairsFrom(i + 1, n)
  }

  /** Particle a is joined with particle b in a frame exactly when a <= b:
      every unordered pair of distinct particles is considered once, in the
      row of the lower index, and no pair twice. */
  lemma {:induction false} ConsideredPairs(i: nat, n: nat)
    ensures forall a: nat, b: nat :: (a, b) in PairsFrom(i, n) <==> i <= a <= b < n
    ensures Distinct(PairsFrom(i, n))
  {
    PairsFromMembers(i, n);
    PairsFromDistinct(i, n);
  }

  /** Row i holds exactly the pairs (i, b) with i <= b < n. */
  lemma {:induction false} RowMembers(i: nat, n: nat, a: nat, b: nat)
    requires i <= n
    ensures (a, b) in RowPairs(i, n) <==> a == i && i <= b < n
  {
    if a == i && i <= b < n {
      assert RowPairs(i, n)[b - i] == (a, b);
    }
  }

  lemma {:induction false} PairsFromMembers(i: nat, n: nat)
    ensures forall a: nat, b: nat :: (a, b) in PairsFrom(i, n) <==> i <= a <= b < n
    decreases n - i
  {
    if i < n {
      PairsFromMembers(i + 1, n);
      assert PairsFrom(i, n) == RowPairs(i, n) + PairsFrom(i + 1, n);
      forall a: nat, b: nat
        ensures (a, b) in PairsFrom(i, n) <==> i <= a <= b < n
      {
        RowMembers(i, n, a, b);
      }
    }
  }

  lemma {:induction false} PairsFromDistinct(i: nat, n: nat)
    ensures Distinct(PairsFrom(i, n))
    decreases n - i
  {
    if i < n {
      PairsFromDistinct(i + 1, n);
      PairsFromMembers(i + 1, n);
      var row := RowPairs(i, n);
      var rest := PairsFrom(i + 1, n);
      var all := row + rest;
      assert PairsFrom(i, n) == all;
      forall x: int, y: int | 0 <= x < y < |all|
        ensures all[x] != all[y]
      {
        if y < |row| {
          assert all[x] == row[x] && all[y] == row[y];
        } else if x < |row| {
          assert all[x] == row[x] && all[y] == rest[y - |row|];
          assert rest[y - |row|] in rest;
        } else {
          assert all[x] == rest[x - |row|] && all[y] == rest[y - |row|];
        }
      }
    }
  }

  /** The pointer step moves the pointer particle when either coordinate
      is truthy, but move snaps only when both are: on the left or top edge
      of the canvas the pointer particle drifts by its velocity instead. */
  lemma {:induction false} PointerOnAxisDrifts(k: Kin, mouseX: real, mouseY: real, width: real, height: real)
    requires (mouseX == 0.0) != (mouseY == 0.0)
    ensures MoveStep(k, Some(mouseX), Some(mouseY), width, height).position == Add(k.position, k.velocity)
  {
  }

  /** A particle as setup makes it from its draws. */
  ghost predicate Made(p: Particle, d: Draw)
    reads p.position, p.velocity
  {
    p.State() == Kin(Vec2(d.x, d.y), Vec2(d.vx, d.vy)) && p.radius == d.radius
  }

  class Sketch {
    const width: real
    const height: real
    const opts: Options
    const pointer: Particle
    var particles: seq<Particle>

    /** Every vector object the sketch owns. */
    ghost function Footprint(): set<object>
      reads this
    {
      {pointer.position, pointer.velocity} + (set p | p in particles :: p.position) + (set p | p in particles :: p.velocity)
    }

    ghost predicate Valid()
      reads this, Footprint()
    {
      && 0.0 <= width && 0.0 <= height
      && pointer.Valid() && (forall k :: 0 <= k < |particles| ==> particles[k].Valid())
      && Separate([pointer] + particles)
      && forall k :: 0 <= k < |particles| ==> Contained(particles[k].State(), width, height)
    }

    /** The free particles' states, in array order. */
    ghost function Kins(): seq<Kin>
      reads this, Footprint()
    {
      seq(|particles|, k reads this, Footprint() requires 0 <= k < |particles| => particles[k].State())
    }

    /** Creating the sketch makes the pointer particle at the canvas centre. */
    constructor (width: real, height: real, opts: Options, d: Draw)
      requires 0.0 <= width && 0.0 <= height && DrawOk(d, opts, width, height)
      ensures Valid() && this.width == width && this.height == height && this.opts == opts && particles == []
      ensures pointer.State() == Kin(StartPosition(Some(Vec2(width / 2.0, height / 2.0)), d), Vec2(d.vx, d.vy))
    {
      this.width := width;
      this.height := height;
      this.opts := opts;
      pointer := new Particle(Some(Vec2(width / 2.0, height / 2.0)), d, opts, width, height);
      particles := [];
    }
  
    /** p5.setup: append `particleAmt || width/10` particles (rounded up)
        at random positions on the canvas. */
    method Setup(draws: seq<Draw>)
      requires Valid()
      requires |draws| == LoopCount(OrElse(opts.particleAmt, width / 10.0))
      requires forall k :: 0 <= k < |draws| ==> DrawOk(draws[k], opts, width, height)
      modifies this`particles
      ensures Valid()
      ensures |particles| == |old(particles)| + |draws| && particles[..|old(particles)|] == old(particles)
      ensures Kins()[..|old(particles)|] == old(Kins())
      ensures forall k :: 0 <= k < |draws| ==>
        Made(particles[|old(particles)| + k], draws[k])
    {
      var n := OrElse(opts.particleAmt, width / 10.0);
      var i := 0;
      while (i as real) < n
        invariant 0 <= i <= |draws|
        invariant Valid()
        invariant |particles| == |old(particles)| + i && particles[..|old(particles)|] == old(particles)
        invariant Kins()[..|old(particles)|] == old(Kins())
        invariant forall k :: 0 <= k < i ==> Made(particles[|old(particles)| + k], draws[k])
      {
        ghost var all := [pointer] + particles;
        var p := new Particle(None, draws[i], opts, width, height);
        SeparateAppend(all, p);
        assert [pointer] + (particles + [p]) == all + [p];
        particles := particles + [p];
        i := i + 1;
      }
    }

    /** The body of the draw loop at index i: move particle i, then connect
        it to particles.slice(i). */
    method StepAt(i: nat, dist: (Vec2, Vec2) -> real) returns (row: seq<Option<real>>)
      requires Valid() && i < |particles|
      modifies particles[i].position, particles[i].velocity
      ensures Valid()
      ensures pointer.State() == old(pointer.State())
      ensures Kins() == old(Kins())[i := MoveStep(old(Kins())[i], None, None, width, height)]
      ensures |row| == |particles| - i
      ensures forall t :: 0 <= t < |particles| - i ==>
        row[t] == Link(dist(Kins()[i].position, Kins()[i + t].position), Some(NeighbourReach), Some(NeighbourOpacity), opts)
    {
      var p := particles[i];
      ghost var before := Kins();
      p.Move(None, None, width, height);
      forall k | 0 <= k < |particles| && k != i
        ensures particles[k].State() == before[k]
      {
        assert Separate([pointer] + particles);
        assert ([pointer] + particles)[k + 1] == particles[k] && ([pointer] + particles)[i + 1] == p;
      }
      assert ([pointer] + particles)[0] == pointer && ([pointer] + particles)[i + 1] == p;
      assert Kins() == before[i := MoveStep(before[i], None, None, width, height)];
      row := p.Connect(particles[i..], dist, Some(NeighbourReach), Some(NeighbourOpacity), opts);
    }

    /** One pass of the draw loop: the particles before i have taken their
        step, the others not yet, and the row of i is Row(before, i). */
    method StepNext(i: nat, dist: (Vec2, Vec2) -> real, ghost before: seq<Kin>) returns (row: seq<Option<real>>)
      requires Valid() && i < |particles| && |before| == |particles|
      requires Kins() == StepAll(before, width, height)[..i] + before[i..]
      modifies particles[i].position, particles[i].velocity
      ensures Valid() && pointer.State() == old(pointer.State())
      ensures Kins() == StepAll(before, width, height)[..i + 1] + before[i + 1..]
      ensures row == Row(before, i, dist, width, height, opts)
    {
      LoopStepStates(before, width, height, i);
      row := StepAt(i, dist);
      LoopStepRow(before, Kins(), row, i, dist, width, height, opts);
    }

    /** The first half of p5.draw: move the pointer particle when the
        pointer is off the origin, then connect it to every particle. */
    method PointerStep(mouseX: real, mouseY: real, dist: (Vec2, Vec2) -> real) returns (pointerLines: seq<Option<real>>)
      requires Valid()
      modifies pointer.position, pointer.velocity
      ensures Valid() && Kins() == old(Kins())
      ensures pointer.State() ==
        if mouseX != 0.0 || mouseY != 0.0 then MoveStep(old(pointer.State()), Some(mouseX), Some(mouseY), width, height)
        else old(pointer.State())
      ensures |pointerLines| == |particles|
      ensures forall j :: 0 <= j < |particles| ==>
        pointerLines[j] == Link(dist(pointer.State().position, Kins()[j].position), Some(PointerReach), Some(PointerOpacity), opts)
    {
      ghost var before := Kins();
      if mouseX != 0.0 || mouseY != 0.0 {
        pointer.Move(Some(mouseX), Some(mouseY), width, height);
        forall k | 0 <= k < |particles|
          ensures particles[k].State() == before[k]
        {
          assert Separate([pointer] + particles);
          assert ([pointer] + particles)[0] == pointer && ([pointer] + particles)[k + 1] == particles[k];
        }
        assert Kins() == before;
      }
      pointerLines := pointer.Connect(particles, dist, Some(PointerReach), Some(PointerOpacity), opts);
    }

    /** p5.draw: the pointer step, then move each particle and connect it to
        the particles from its own index on. Returns the lines drawn: the
        pointer's, and one row per particle. */
    method Draw(mouseX: real, mouseY: real, dist: (Vec2, Vec2) -> real)
      returns (pointerLines: seq<Option<real>>, rows: seq<seq<Option<real>>>)
      requires Valid()
      modifies Footprint()
      ensures Valid()
      ensures pointer.State() ==
        if mouseX != 0.0 || mouseY != 0.0 then MoveStep(old(pointer.State()), Some(mouseX), Some(mouseY), width, height)
        else old(pointer.State())
      ensures Kins() == StepAll(old(Kins()), width, height)
      ensures |pointerLines| == |particles|
      ensures forall j :: 0 <= j < |particles| ==>
        pointerLines[j] == Link(dist(pointer.State().position, old(Kins())[j].position), Some(PointerReach), Some(PointerOpacity), opts)
      ensures |rows| == |particles|
      ensures forall i :: 0 <= i < |particles| ==> rows[i] == Row(old(Kins()), i, dist, width, height, opts)
    {
      pointerLines := PointerStep(mouseX, mouseY, dist);
      rows := StepRows(dist);
    }

    /** The loop of p5.draw: move each particle and connect it to the
        particles from its own index on. */
    method StepRows(dist: (Vec2, Vec2) -> real) returns (rows: seq<seq<Option<real>>>)
      requires Valid()
      modifies Footprint()
      ensures Valid() && pointer.State() == old(pointer.State())
      ensures Kins() == StepAll(old(Kins()), width, height)
      ensures |rows| == |particles|
      ensures forall i :: 0 <= i < |particles| ==> rows[i] == Row(old(Kins()), i, dist, width, height, opts)
    {
      ghost var before := Kins();
      ghost var stepped := StepAll(before, width, height);
      rows := [];
      var i := 0;
      while i < |particles|
        invariant 0 <= i <= |particles| && |rows| == i && |before| == |particles|
        invariant Valid() && pointer.State() == old(pointer.State())
        invariant Kins() == stepped[..i] + before[i..]
        invariant forall k :: 0 <= k < i ==> rows[k] == Row(before, k, dist, width, height, opts)
      {
        assert particles[i] in particles;
        var row := StepNext(i, dist, before);
        rows := rows + [row];
        i := i + 1;
      }
      assert Kins() == stepped;
    }
  }
}
