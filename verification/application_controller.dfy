/**
 * The per-tick controller (src/controller/ApplicationController.ts): the
 * spawn timer and its catch-up loop, the symplectic-Euler step over a
 * snapshot of the live records, the cull below the viewport, the pointer
 * handlers' effect on the registry, and the gravity and spawn-rate controls.
 */
module Controller {
  import opened Wrappers
  import opened ShapesFactory
  import opened Model

  /** The draws one spawn consumes: generateRandomShape's, then drawShape's bump draw. */
  datatype SpawnDraws = SpawnDraws(meta: Draws, bump: RandomDraw)

  /** How far below the viewport a record may fall before it is culled. */
  const CULL_MARGIN: real := 100.0

  /** The spawn interval, in ticks, at a positive spawn rate: `60 / spawnRate`. */
  function Interval(spawnRate: real): (iv: real)
    requires spawnRate > 0.0
    ensures iv > 0.0
  {
    60.0 / spawnRate
  }

  /** `Math.max(0, v)`. */
  function MaxZero(v: real): (r: real)
    ensures r >= 0.0 && r >= v
    ensures r == v || r == 0.0
  {
    if 0.0 >= v then 0.0 else v
  }

  /** The heights of the records' handles, in list order. */
  ghost function Heights(s: seq<ShapeData>): (ys: seq<real>)
    reads Handles(s)
    ensures |ys| == |s|
    ensures forall k :: 0 <= k < |s| ==> ys[k] == s[k].shape.y
  {
    seq(|s|, k requires 0 <= k < |s| reads Handles(s) => s[k].shape.y)
  }

  /**
   * The records from position i on that a cull keeps: those whose height is
   * at most `limit`, in list order.
   */
  function KeptFrom(s: seq<ShapeData>, ys: seq<real>, limit: real, i: nat): seq<ShapeData>
    requires |ys| == |s| && i <= |s|
    decreases |s| - i
  {
    if i == |s| then []
    else (if ys[i] <= limit then [s[i]] else []) + KeptFrom(s, ys, limit, i + 1)
  }

  /** Every kept record is a record from position i on whose height is at most the limit. */
  lemma {:induction false} KeptFromOrigin(s: seq<ShapeData>, ys: seq<real>, limit: real, i: nat)
    requires |ys| == |s| && i <= |s|
    ensures forall x :: x in KeptFrom(s, ys, limit, i) ==>
      exists k :: i <= k < |s| && s[k] == x && ys[k] <= limit
    decreases |s| - i
  {
    if i < |s| {
      KeptFromOrigin(s, ys, limit, i + 1);
    }
  }

  /** Every record from position i on at or below the limit is kept. */
  lemma {:induction false} KeptFromComplete(s: seq<ShapeData>, ys: seq<real>, limit: real, i: nat)
    requires |ys| == |s| && i <= |s|
    ensures forall k :: i <= k < |s| && ys[k] <= limit ==> s[k] in KeptFrom(s, ys, limit, i)
    decreases |s| - i
  {
    if i < |s| {
      KeptFromComplete(s, ys, limit, i + 1);
    }
  }

  /** A cull that finds nothing past the limit keeps the whole list. */
  lemma {:induction false} KeptFromAll(s: seq<ShapeData>, ys: seq<real>, limit: real, i: nat)
    requires |ys| == |s| && i <= |s|
    requires forall k :: i <= k < |s| ==> ys[k] <= limit
    ensures KeptFrom(s, ys, limit, i) == s[i..]
    decreases |s| - i
  {
    if i < |s| {
      KeptFromAll(s, ys, limit, i + 1);
      assert s[i..] == [s[i]] + s[i + 1..];
    }
  }

  /** The cull keeps the registry's invariants: distinct handles and growing ids. */
  lemma {:induction false} KeptFromInvariants(s: seq<ShapeData>, ys: seq<real>, limit: real, i: nat)
    requires |ys| == |s| && i <= |s|
    ensures DistinctHandles(s) ==> DistinctHandles(KeptFrom(s, ys, limit, i))
    ensures IdsIncreasing(s) ==> IdsIncreasing(KeptFrom(s, ys, limit, i))
    decreases |s| - i
  {
    if i < |s| && ys[i] <= limit {
      var rest := KeptFrom(s, ys, limit, i + 1);
      KeptFromInvariants(s, ys, limit, i + 1);
      KeptFromOrigin(s, ys, limit, i + 1);
      var r := [s[i]] + rest;
      forall b | 0 < b < |r|
        ensures exists k :: i < k < |s| && s[k] == r[b]
      {
        assert r[b] == rest[b - 1] && rest[b - 1] in rest;
      }
      if DistinctHandles(s) {
        forall a, b | 0 <= a < b < |r|
          ensures r[a].shape != r[b].shape
        {
          if a > 0 {
            assert r[a] == rest[a - 1] && r[b] == rest[b - 1];
          }
        }
      }
      if IdsIncreasing(s) {
        forall a, b | 0 <= a < b < |r|
          ensures r[a].meta.id < r[b].meta.id
        {
          if a > 0 {
            assert r[a] == rest[a - 1] && r[b] == rest[b - 1];
          }
        }
      }
    } else if i < |s| {
      KeptFromInvariants(s, ys, limit, i + 1);
    }
  }

  /** Whole spawns due after `timer` ticks at interval `iv`: at least j when j intervals fit. */
  lemma FloorAtLeast(timer: real, iv: real, j: nat)
    requires iv > 0.0 && Repeated(j, iv) <= timer
    ensures j <= (timer / iv).Floor
  {
    RepeatedIsProduct(j, iv);
    QuotientBounds(timer, iv, j as real);
  }

  /** When n intervals have been taken and less than one remains, n = ⌊timer / iv⌋. */
  lemma SpawnCountIsFloor(timer: real, iv: real, n: nat)
    requires iv > 0.0
    requires 0.0 <= timer - Repeated(n, iv) < iv
    ensures (timer / iv).Floor == n
  {
    RepeatedIsProduct(n, iv);
    QuotientBounds(timer, iv, n as real);
    QuotientBounds(timer, iv, n as real + 1.0);
    assert (n as real + 1.0) * iv == n as real * iv + iv;
  }

  /** Dividing by a positive interval keeps a bound on either side. */
  lemma QuotientBounds(timer: real, iv: real, a: real)
    requires iv > 0.0
    ensures a * iv <= timer ==> a <= timer / iv
    ensures timer < a * iv ==> timer / iv < a
  {
    var q := timer / iv;
    assert q * iv == timer;
    ScaleMonotone(q, a, iv);
    ScaleMonotone(a, q, iv);
  }

  /** Scaling by a positive interval keeps order. */
  lemma ScaleMonotone(a: real, b: real, iv: real)
    requires iv > 0.0
    ensures a < b ==> a * iv < b * iv
    ensures a <= b ==> a * iv <= b * iv
  {
    if a < b {
      assert (b - a) * iv > 0.0;
    }
  }

  /** A whole number moved by a whole step stays whole. */
  lemma WholeStep(r: real, step: int)
    requires r.Floor as real == r
    ensures (r + step as real).Floor as real == r + step as real
  {
    var n := r.Floor;
    assert r + step as real == (n + step) as real;
  }

  /** The records' vertical velocities, in list order. */
  ghost function Velocities(s: seq<ShapeData>): (vs: seq<real>)
    reads s
    ensures |vs| == |s|
    ensures forall k :: 0 <= k < |s| ==> vs[k] == s[k].velocityY
  {
    seq(|s|, k requires 0 <= k < |s| reads s => s[k].velocityY)
  }

  /** The velocity half of the symplectic-Euler step: `v + gravity * delta`. */
  function Accelerate(v: real, gravity: real, delta: real): real
  {
    v + gravity * delta
  }

  /** The position half, applied with the already-updated velocity: `y + v * delta`. */
  function Advance(y: real, v: real, delta: real): real
  {
    y + v * delta
  }

  /** One record's step: `velocityY += gravity * delta`, then `shape.y += velocityY * delta`. */
  method Step(d: ShapeData, gravity: real, delta: real)
    modifies d, d.shape
    ensures d.velocityY == Accelerate(old(d.velocityY), gravity, delta)
    ensures d.shape.y == Advance(old(d.shape.y), d.velocityY, delta)
    ensures d.shape.x == old(d.shape.x)
  {
    d.velocityY := d.velocityY + gravity * delta;
    d.shape.y := d.shape.y + d.velocityY * delta;
  }

  /**
   * `Step` applied to position i of a list whose positions after i are
   * already stepped: now the positions from i on are.  Distinct handles make
   * the records distinct, so the others keep their values.
   */
  method StepAt(s: seq<ShapeData>, i: nat, gravity: real, delta: real,
                ghost v0: seq<real>, ghost y0: seq<real>, ghost x0: seq<real>,
                ghost vs: seq<real>, ghost ys: seq<real>)
    requires i < |s| == |v0| == |y0| == |vs| == |ys| && DistinctHandles(s)
    requires vs[i] == Accelerate(v0[i], gravity, delta) && ys[i] == Advance(y0[i], vs[i], delta)
    requires Velocities(s) == Stepped(vs, v0, i)
    requires Heights(s) == Stepped(ys, y0, i)
    requires Xs(s) == x0
    modifies s[i], s[i].shape
    ensures Velocities(s) == Stepped(vs, v0, i - 1)
    ensures Heights(s) == Stepped(ys, y0, i - 1)
    ensures Xs(s) == x0
  {
    Step(s[i], gravity, delta);
    forall k | 0 <= k < |s| && k != i
      ensures s[k].shape != s[i].shape
    {
      if k < i {
        assert s[k].shape != s[i].shape;
      } else {
        assert s[i].shape != s[k].shape;
      }
    }
    assert Velocities(s) == Stepped(vs, v0, i - 1);
    assert Heights(s) == Stepped(ys, y0, i - 1);
  }

  /** The velocities a whole list reaches after one step, position by position. */
  function Sped(v0: seq<real>, gravity: real, delta: real): (vs: seq<real>)
    ensures |vs| == |v0|
    ensures forall k :: 0 <= k < |v0| ==> vs[k] == Accelerate(v0[k], gravity, delta)
  {
    seq(|v0|, k requires 0 <= k < |v0| => Accelerate(v0[k], gravity, delta))
  }

  /** The heights a whole list reaches after one step, given the new velocities. */
  function Fallen(y0: seq<real>, vs: seq<real>, delta: real): (ys: seq<real>)
    requires |y0| == |vs|
    ensures |ys| == |y0|
    ensures forall k :: 0 <= k < |y0| ==> ys[k] == Advance(y0[k], vs[k], delta)
  {
    seq(|y0|, k requires 0 <= k < |y0| => Advance(y0[k], vs[k], delta))
  }

  /**
   * One step of the backward cull walk as list surgery: with the positions
   * after i already culled, position i is found by its handle at i, and
   * splicing it out extends the culled suffix to start at i.
   */
  lemma CullDrop(s: seq<ShapeData>, ys: seq<real>, limit: real, i: nat, cur: seq<ShapeData>)
    requires |ys| == |s| && i < |s| && DistinctHandles(s) && ys[i] > limit
    requires cur == s[..i + 1] + KeptFrom(s, ys, limit, i + 1)
    ensures IndexOfHandle(cur, s[i].shape) == i
    ensures Without(cur, i) == s[..i] + KeptFrom(s, ys, limit, i)
  {
    assert cur[i] == s[i];
    assert forall k :: 0 <= k < i ==> cur[k] == s[k];
    assert cur[..i] == s[..i];
  }

  /** The same step when position i is kept: the culled suffix now starts at i. */
  lemma CullKeep(s: seq<ShapeData>, ys: seq<real>, limit: real, i: nat, cur: seq<ShapeData>)
    requires |ys| == |s| && i < |s| && ys[i] <= limit
    requires cur == s[..i + 1] + KeptFrom(s, ys, limit, i + 1)
    ensures cur == s[..i] + KeptFrom(s, ys, limit, i)
  {
    assert s[..i + 1] == s[..i] + [s[i]];
  }

  /** Positions after i hold their value from `after`, the others their value from `before`. */
  function Stepped(after: seq<real>, before: seq<real>, i: int): (r: seq<real>)
    requires |after| == |before|
    ensures |r| == |before|
    ensures forall k :: 0 <= k < |before| ==> r[k] == if k > i then after[k] else before[k]
  {
    seq(|before|, k requires 0 <= k < |before| => if k > i then after[k] else before[k])
  }

  /** Before the walk starts at the last position, nothing is stepped. */
  lemma StillAtStart(after: seq<real>, before: seq<real>)
    requires |after| == |before|
    ensures Stepped(after, before, |before| - 1) == before
  {
  }

  /** Once the walk has passed position 0, everything is stepped. */
  lemma AllStepped(after: seq<real>, before: seq<real>)
    requires |after| == |before|
    ensures Stepped(after, before, -1) == after
  {
  }

  /** The velocity of n records that have not moved yet. */
  function Zeros(n: nat): (z: seq<real>)
    ensures |z| == n && forall k :: 0 <= k < n ==> z[k] == 0.0
  {
    seq(n, k => 0.0)
  }

  /** The heights records are drawn at: their metadata's y. */
  function StartYs(s: seq<ShapeData>): (ys: seq<real>)
    ensures |ys| == |s| && forall k :: 0 <= k < |s| ==> ys[k] == s[k].meta.position.y
  {
    seq(|s|, k requires 0 <= k < |s| => s[k].meta.position.y)
  }

  /** The horizontal positions records are drawn at: their metadata's x. */
  function StartXs(s: seq<ShapeData>): (xs: seq<real>)
    ensures |xs| == |s| && forall k :: 0 <= k < |s| ==> xs[k] == s[k].meta.position.x
  {
    seq(|s|, k requires 0 <= k < |s| => s[k].meta.position.x)
  }

  /** The horizontal positions of the records' handles, in list order. */
  ghost function Xs(s: seq<ShapeData>): (xs: seq<real>)
    reads Handles(s)
    ensures |xs| == |s|
    ensures forall k :: 0 <= k < |s| ==> xs[k] == s[k].shape.x
  {
    seq(|s|, k requires 0 <= k < |s| reads Handles(s) => s[k].shape.x)
  }

  /** Records just drawn: at rest and standing where their metadata puts them. */
  ghost predicate AtStart(s: seq<ShapeData>)
    reads s, Handles(s)
  {
    Velocities(s) == Zeros(|s|) && Heights(s) == StartYs(s) && Xs(s) == StartXs(s)
  }

  /** A record just drawn extends a list of records just drawn. */
  lemma StartSnoc(s: seq<ShapeData>, d: ShapeData)
    requires AtStart(s)
    requires d.velocityY == 0.0 && d.shape.x == d.meta.position.x && d.shape.y == d.meta.position.y
    ensures AtStart(s + [d])
  {
    assert Velocities(s + [d]) == Zeros(|s| + 1);
    assert Heights(s + [d]) == StartYs(s + [d]);
    assert Xs(s + [d]) == StartXs(s + [d]);
  }

  /**
   * The metadata of the k-th record is what generateRandomShape makes of the
   * k-th spawn's draws, with the id the counter held k spawns after `id0` and
   * no position given.
   */
  ghost predicate SpawnedBy(s: seq<ShapeData>, id0: int, rand: nat -> SpawnDraws)
  {
    forall k :: 0 <= k < |s| ==> s[k].meta == RandomShape(id0 + k, rand(k).meta, None, None)
  }

  /** A record whose metadata comes from the next draws extends such a list. */
  lemma SpawnedSnoc(s: seq<ShapeData>, d: ShapeData, id0: int, rand: nat -> SpawnDraws)
    requires SpawnedBy(s, id0, rand)
    requires d.meta == RandomShape(id0 + |s|, rand(|s|).meta, None, None)
    ensures SpawnedBy(s + [d], id0, rand)
  {
    assert (s + [d])[..|s|] == s;
  }

  /**
   * The area of the k-th record is what drawShape computes for its metadata
   * with the k-th spawn's bump draw.  Stated through `b`, as in SpawnShape.
   */
  ghost predicate AreasBy(s: seq<ShapeData>, env: MathEnv, rand: nat -> SpawnDraws)
  {
    forall k :: 0 <= k < |s| ==>
      forall b: RandomDraw :: b == rand(k).bump ==> s[k].area == ShapeArea(env, s[k].meta, b)
  }

  /** A record whose area comes from the next bump draw extends such a list. */
  lemma AreasSnoc(s: seq<ShapeData>, d: ShapeData, env: MathEnv, rand: nat -> SpawnDraws)
    requires AreasBy(s, env, rand)
    requires forall b: RandomDraw :: b == rand(|s|).bump ==> d.area == ShapeArea(env, d.meta, b)
    ensures AreasBy(s + [d], env, rand)
  {
    assert (s + [d])[..|s|] == s;
  }

  /** Velocities, heights and horizontal positions split over a concatenation. */
  lemma ViewsConcat(a: seq<ShapeData>, b: seq<ShapeData>)
    ensures Velocities(a + b) == Velocities(a) + Velocities(b)
    ensures Heights(a + b) == Heights(a) + Heights(b)
    ensures Xs(a + b) == Xs(a) + Xs(b)
  {
  }

  /** The registry's invariant: distinct handles, and ids that grow along the list and stay below `bound`. */
  ghost predicate RegistryOk(s: seq<ShapeData>, bound: int)
  {
    && DistinctHandles(s)
    && IdsIncreasing(s)
    && (forall k :: 0 <= k < |s| ==> s[k].meta.id < bound)
  }

  /** The cull keeps the registry's invariant. */
  lemma KeptFromRegistry(s: seq<ShapeData>, ys: seq<real>, limit: real, bound: int)
    requires |ys| == |s| && RegistryOk(s, bound)
    ensures RegistryOk(KeptFrom(s, ys, limit, 0), bound)
  {
    var r := KeptFrom(s, ys, limit, 0);
    KeptFromInvariants(s, ys, limit, 0);
    KeptFromOrigin(s, ys, limit, 0);
    forall k | 0 <= k < |r|
      ensures r[k].meta.id < bound
    {
      assert r[k] in r;
    }
  }

  /** Splicing one record out keeps the registry's invariant. */
  lemma RegistryWithout(s: seq<ShapeData>, i: nat, bound: int)
    requires i < |s| && RegistryOk(s, bound)
    ensures RegistryOk(Without(s, i), bound)
  {
    WithoutKeepsInvariants(s, i);
  }

  /**
   * What the spawn loop does to a timer holding t at the given rate: with a
   * positive rate and a non-negative timer, n is the number of whole
   * intervals in t and `left` what remains of t after taking n intervals,
   * less than one interval; otherwise nothing is spawned and t stays.
   */
  ghost predicate SpawnOutcome(t: real, rate: real, n: nat, left: real)
  {
    if rate > 0.0 && t >= 0.0 then
      && n == (t / Interval(rate)).Floor
      && left == t - Repeated(n, Interval(rate))
      && 0.0 <= left < Interval(rate)
    else
      n == 0 && left == t
  }

  /**
   * Where the spawn loop stops: whole intervals are taken while the timer
   * holds one, so the count is the floor of the quotient and what is left
   * lies in [0, interval); at rate 0, or with a negative timer, nothing is
   * taken.
   */
  lemma SpawnLoopExit(t: real, rate: real, iv: real, n: nat, left: real)
    requires rate >= 0.0 && iv == (if rate > 0.0 then Interval(rate) else 0.0)
    requires left == t - Repeated(n, iv) && left <= t
    requires !(left >= iv && rate > 0.0)
    requires n > 0 ==> left >= 0.0 && rate > 0.0
    ensures SpawnOutcome(t, rate, n, left)
  {
    if rate > 0.0 && t >= 0.0 {
      SpawnCountIsFloor(t, iv, n);
    }
  }

  /** With less than one interval on the timer, the spawn loop takes nothing. */
  lemma NothingDue(t: real, rate: real, n: nat, left: real)
    requires SpawnOutcome(t, rate, n, left)
    requires rate > 0.0 ==> t < Interval(rate)
    ensures n == 0 && left == t
  {
    if rate > 0.0 && t >= 0.0 {
      SpawnCountIsFloor(t, Interval(rate), 0);
    }
  }

  /**
   * A tick of length zero that spawns nothing, over records all within the
   * cull limit: every velocity, height and horizontal position stays as it
   * was and the cull keeps the whole list.
   */
  lemma ZeroTick(s: seq<ShapeData>, spawned: seq<ShapeData>, v0: seq<real>, y0: seq<real>, x0: seq<real>,
                 vs: seq<real>, ys: seq<real>, xs: seq<real>, gravity: real, limit: real, kept: seq<ShapeData>)
    requires |spawned| == 0 && |v0| == |s| && |y0| == |s| && |x0| == |s|
    requires vs == Sped(v0 + Zeros(|spawned|), gravity, 0.0)
    requires ys == Fallen(y0 + StartYs(spawned), vs, 0.0)
    requires xs == x0 + StartXs(spawned)
    requires forall k :: 0 <= k < |y0| ==> y0[k] <= limit
    requires kept == KeptFrom(s + spawned, ys, limit, 0)
    ensures vs == v0 && ys == y0 && xs == x0 && kept == s
  {
    assert s + spawned == s;
    assert v0 + Zeros(|spawned|) == v0;
    assert vs == v0;
    assert y0 + StartYs(spawned) == y0;
    assert ys == y0;
    KeptFromAll(s, ys, limit, 0);
  }

  class ApplicationController {
    /** The registry, created with the controller. */
    const model: ShapesModel
    /** The module-level id counter the registry draws ids from. */
    const ids: IdCounter
    /** The host's π and sine. */
    const env: MathEnv
    /** The viewport height (`_view.height`). */
    const height: real

    var gravity: real
    var spawnRate: real
    var spawnTimer: real

    /**
     * The controls keep gravity and the rate non-negative and the rate whole;
     * the registry keeps distinct handles and ids that grow along the list
     * and stay below the counter.
     */
    ghost predicate Valid()
      reads this`gravity, this`spawnRate, model, ids
    {
      && gravity >= 0.0
      && spawnRate >= 0.0
      && spawnRate.Floor as real == spawnRate
      && RegistryOk(model.shapes, ids.value)
    }

    constructor (env: MathEnv, ids: IdCounter, height: real)
      ensures Valid()
      ensures fresh(model) && model.shapes == []
      ensures this.env == env && this.ids == ids && this.height == height
      ensures gravity == 1.0 && spawnRate == 1.0 && spawnTimer == 0.0
    {
      model := new ShapesModel();
      this.ids := ids;
      this.env := env;
      this.height := height;
      gravity := 1.0;
      spawnRate := 1.0;
      spawnTimer := 0.0;
    }

    /** The `gravity-increase` button. */
    method IncreaseGravity()
      requires Valid()
      modifies this
      ensures Valid()
      ensures gravity == old(gravity) + 0.1
      ensures spawnRate == old(spawnRate) && spawnTimer == old(spawnTimer)
    {
      gravity := gravity + 0.1;
    }

    /** The `gravity-decrease` button: clamped at zero. */
    method DecreaseGravity()
      requires Valid()
      modifies this
      ensures Valid()
      ensures gravity == MaxZero(old(gravity) - 0.1)
      ensures old(gravity) >= 0.1 ==> gravity == old(gravity) - 0.1
      ensures old(gravity) < 0.1 ==> gravity == 0.0
      ensures spawnRate == old(spawnRate) && spawnTimer == old(spawnTimer)
    {
      gravity := MaxZero(gravity - 0.1);
    }

    /** The `rate-increase` button. */
    method IncreaseRate()
      requires Valid()
      modifies this
      ensures Valid()
      ensures spawnRate == old(spawnRate) + 1.0
      ensures gravity == old(gravity) && spawnTimer == old(spawnTimer)
    {
      WholeStep(spawnRate, 1);
      spawnRate := spawnRate + 1.0;
    }

    /** The `rate-decrease` button: clamped at zero. */
    method DecreaseRate()
      requires Valid()
      modifies this
      ensures Valid()
      ensures spawnRate == MaxZero(old(spawnRate) - 1.0)
      ensures old(spawnRate) >= 1.0 ==> spawnRate == old(spawnRate) - 1.0
      ensures old(spawnRate) < 1.0 ==> spawnRate == 0.0
      ensures gravity == old(gravity) && spawnTimer == old(spawnTimer)
    {
      WholeStep(spawnRate, -1);
      spawnRate := MaxZero(spawnRate - 1.0);
    }

    /**
     * `spawnShape(x?, y?)`: generate metadata, build the record and append it
     * to the registry; `d` names the new record.
     */
    method SpawnShape(r: SpawnDraws, x: Option<real>, y: Option<real>) returns (ghost d: ShapeData)
      requires Valid()
      modifies model, ids
      ensures Valid()
      ensures model.shapes == old(model.shapes) + [d]
      ensures fresh(d) && fresh(d.shape)
      ensures d.meta == RandomShape(old(ids.value), r.meta, x, y)
      ensures d.velocityY == 0.0
      ensures d.shape.x == d.meta.position.x && d.shape.y == d.meta.position.y
      // the area drawShape computed from the bump draw; stated through b so
      // that the formula is unfolded only where a caller mentions it
      ensures forall b: RandomDraw :: b == r.bump ==> d.area == ShapeArea(env, d.meta, b)
      ensures ids.value == old(ids.value) + 1
    {
      var shapeMeta := model.GenerateRandomShape(ids, r.meta, x, y);
      var shapeData := DrawShape(env, shapeMeta, r.bump);
      model.Add(shapeData);
      d := shapeData;
    }

    /** A click on the background spawns a shape at the click point. */
    method OnBackgroundClick(x: real, y: real, r: SpawnDraws) returns (ghost d: ShapeData)
      requires Valid()
      modifies model, ids
      ensures Valid()
      ensures model.shapes == old(model.shapes) + [d]
      ensures fresh(d) && fresh(d.shape)
      ensures d.meta == RandomShape(old(ids.value), r.meta, Some(x), Some(y))
      ensures d.shape.x == x && d.shape.y == y && d.velocityY == 0.0
      ensures d.area == ShapeArea(env, d.meta, r.bump)
      ensures ids.value == old(ids.value) + 1
    {
      d := SpawnShape(r, Some(x), Some(y));
    }

    /** A click on a shape removes its record; a second click on it does nothing. */
    method OnShapeClick(g: Graphic)
      requires Valid()
      modifies model
      ensures Valid()
      ensures g !in Handles(model.shapes)
      ensures IndexOfHandle(old(model.shapes), g) == -1 ==> model.shapes == old(model.shapes)
      ensures var i := IndexOfHandle(old(model.shapes), g);
        i >= 0 ==> model.shapes == Without(old(model.shapes), i)
    {
      ghost var i := IndexOfHandle(model.shapes, g);
      if i >= 0 {
        RegistryWithout(model.shapes, i, ids.value);
      }
      model.Remove(g);
    }

    /**
     * `update(delta)`: the spawn phase, then the integration and cull phase.
     * `rand(k)` supplies the draws of the k-th spawn of this tick;
     * `spawned` names the records those spawns created.  The integration
     * covers the records present before the tick followed by the new ones,
     * each stepped once from where it stood.
     */
    method Update(delta: real, rand: nat -> SpawnDraws) returns (ghost spawned: seq<ShapeData>)
      requires Valid()
      modifies this`spawnTimer, model, ids, model.shapes, Handles(model.shapes)
      ensures Valid()
      // spawn phase
      ensures SpawnOutcome(old(spawnTimer) + delta, spawnRate, |spawned|, spawnTimer)
      // less than one interval on the timer spawns nothing
      ensures (spawnRate > 0.0 ==> old(spawnTimer) + delta < Interval(spawnRate)) ==> spawned == []
      ensures ids.value == old(ids.value) + |spawned|
      ensures forall e :: e in spawned ==> fresh(e) && fresh(e.shape)
      ensures SpawnedBy(spawned, old(ids.value), rand)
      ensures AreasBy(spawned, env, rand)
      // integration
      ensures Velocities(old(model.shapes) + spawned)
        == Sped(old(Velocities(model.shapes)) + Zeros(|spawned|), gravity, delta)
      ensures Heights(old(model.shapes) + spawned)
        == Fallen(old(Heights(model.shapes)) + StartYs(spawned), Velocities(old(model.shapes) + spawned), delta)
      ensures Xs(old(model.shapes) + spawned) == old(Xs(model.shapes)) + StartXs(spawned)
      // cull
      ensures model.shapes
        == KeptFrom(old(model.shapes) + spawned, Heights(old(model.shapes) + spawned), height + CULL_MARGIN, 0)
    {
      spawned := SpawnDue(delta, rand);
      if spawnRate > 0.0 ==> old(spawnTimer) + delta < Interval(spawnRate) {
        NothingDue(old(spawnTimer) + delta, spawnRate, |spawned|, spawnTimer);
      }
      ghost var all := model.shapes;
      ghost var base := old(model.shapes);
      assert Velocities(base) == old(Velocities(model.shapes));
      assert Heights(base) == old(Heights(model.shapes));
      ViewsConcat(base, spawned);
      assert Velocities(all) == old(Velocities(model.shapes)) + Zeros(|spawned|);
      assert Heights(all) == old(Heights(model.shapes)) + StartYs(spawned);
      assert Xs(base) == old(Xs(model.shapes));
      assert Xs(all) == old(Xs(model.shapes)) + StartXs(spawned);
      IntegrateAndCull(delta);
      KeptFromRegistry(all, Heights(all), height + CULL_MARGIN, ids.value);
    }

    /**
     * A paused tick: `update(0)` with less than one interval on the timer and
     * every shape within the margin spawns nothing, moves nothing and culls
     * nothing.
     */
    method PausedTick(rand: nat -> SpawnDraws) returns (ghost spawned: seq<ShapeData>)
      requires Valid()
      requires spawnRate > 0.0 ==> spawnTimer < Interval(spawnRate)
      requires forall k :: 0 <= k < |model.shapes| ==> model.shapes[k].shape.y <= height + CULL_MARGIN
      modifies this`spawnTimer, model, ids, model.shapes, Handles(model.shapes)
      ensures spawned == []
      ensures model.shapes == old(model.shapes)
      ensures Velocities(model.shapes) == old(Velocities(model.shapes))
      ensures Heights(model.shapes) == old(Heights(model.shapes))
      ensures Xs(model.shapes) == old(Xs(model.shapes))
      ensures spawnTimer == old(spawnTimer) && ids.value == old(ids.value)
    {
      ghost var s, v0, y0, x0 := model.shapes, Velocities(model.shapes), Heights(model.shapes), Xs(model.shapes);
      spawned := Update(0.0, rand);
      assert s + spawned == s;
      ZeroTick(s, spawned, v0, y0, x0, Velocities(s + spawned), Heights(s + spawned), Xs(s + spawned),
               gravity, height + CULL_MARGIN, model.shapes);
    }

    /**
     * The loop of the spawn phase: while a whole interval fits and the rate
     * is positive, take one interval off and spawn one shape.  `n` intervals
     * were taken, spawning the records `spawned`.
     */
    method SpawnLoop(interval: real, rand: nat -> SpawnDraws) returns (ghost spawned: seq<ShapeData>, n: nat)
      requires Valid()
      requires interval == (if spawnRate > 0.0 then Interval(spawnRate) else 0.0)
      modifies this`spawnTimer, model, ids
      ensures n == |spawned| && Valid()
      ensures model.shapes == old(model.shapes) + spawned && ids.value == old(ids.value) + n
      ensures spawnTimer == old(spawnTimer) - Repeated(n, interval) && spawnTimer <= old(spawnTimer)
      ensures n > 0 ==> spawnTimer >= 0.0 && spawnRate > 0.0
      ensures !(spawnTimer >= interval && spawnRate > 0.0)
      ensures forall e :: e in spawned ==> fresh(e) && fresh(e.shape)
      ensures AtStart(spawned) && SpawnedBy(spawned, old(ids.value), rand)
      ensures AreasBy(spawned, env, rand)
    {
      // the whole intervals on the timer at the start bound the passes
      ghost var due: int := 0;
      if spawnRate > 0.0 && spawnTimer >= 0.0 {
        FloorAtLeast(spawnTimer, interval, 0);
        due := (spawnTimer / interval).Floor;
      }
      spawned := [];
      n := 0;  // how far into this tick's draws the spawns have read
      while spawnTimer >= interval && spawnRate > 0.0
        invariant n == |spawned| <= due
        invariant Valid()
        invariant model.shapes == old(model.shapes) + spawned
        invariant ids.value == old(ids.value) + n
        invariant spawnTimer == old(spawnTimer) - Repeated(n, interval)
        invariant spawnTimer <= old(spawnTimer)
        invariant n > 0 ==> spawnTimer >= 0.0 && spawnRate > 0.0
        invariant forall e :: e in spawned ==> fresh(e) && fresh(e.shape)
        invariant AtStart(spawned)
        invariant SpawnedBy(spawned, old(ids.value), rand)
        invariant AreasBy(spawned, env, rand)
        decreases due - n
      {
        FloorAtLeast(old(spawnTimer), interval, n + 1);
        ghost var d := SpawnOne(interval, old(model.shapes), old(ids.value), rand, n, spawned);
        AreasSnoc(spawned, d, env, rand);

        spawned := spawned + [d];
        n := n + 1;
      }
    }

    /**
     * One pass of the spawn loop: take one interval off the timer and spawn a
     * shape from the n-th draws.  `spawned` holds the records the earlier
     * passes of this tick created on top of `base`.
     */
    method SpawnOne(interval: real, ghost base: seq<ShapeData>, ghost id0: int, rand: nat -> SpawnDraws, n: nat, ghost spawned: seq<ShapeData>)
      returns (ghost d: ShapeData)
      requires n == |spawned|
      requires Valid() && model.shapes == base + spawned && ids.value == id0 + |spawned|
      requires AtStart(spawned) && SpawnedBy(spawned, id0, rand)
      modifies this`spawnTimer, model, ids
      ensures spawnTimer == old(spawnTimer) - interval
      ensures Valid() && model.shapes == base + (spawned + [d]) && ids.value == id0 + |spawned| + 1
      ensures AtStart(spawned + [d]) && SpawnedBy(spawned + [d], id0, rand)
      ensures forall b: RandomDraw :: b == rand(n).bump ==> d.area == ShapeArea(env, d.meta, b)
      ensures fresh(d) && fresh(d.shape)
    {
      spawnTimer := spawnTimer - interval;
      d := SpawnShape(rand(n), None, None);
      assert base + (spawned + [d]) == (base + spawned) + [d];
      StartSnoc(spawned, d);
      SpawnedSnoc(spawned, d, id0, rand);
    }

    /**
     * The spawn phase of `update` (lines 77-83): add delta to the timer, then
     * while a whole interval fits and the rate is positive, take one interval
     * off and spawn one shape at a random position.
     */
    method SpawnDue(delta: real, rand: nat -> SpawnDraws) returns (ghost spawned: seq<ShapeData>)
      requires Valid()
      modifies this`spawnTimer, model, ids
      ensures Valid()
      ensures model.shapes == old(model.shapes) + spawned
      ensures SpawnOutcome(old(spawnTimer) + delta, spawnRate, |spawned|, spawnTimer)
      ensures ids.value == old(ids.value) + |spawned|
      ensures forall e :: e in spawned ==> fresh(e) && fresh(e.shape)
      ensures AtStart(spawned)
      ensures SpawnedBy(spawned, old(ids.value), rand)
      ensures AreasBy(spawned, env, rand)
    {
      spawnTimer := spawnTimer + delta;
      // `60 / spawnRate` is Infinity at rate 0; the loop guard never reads it then.
      var interval := if spawnRate > 0.0 then Interval(spawnRate) else 0.0;

      ghost var timer0 := spawnTimer;
      var n;
      spawned, n := SpawnLoop(interval, rand);
      SpawnLoopExit(timer0, spawnRate, interval, n, spawnTimer);
    }

    /**
     * The removal half of one pass: record i has fallen past the margin, so
     * `model.remove` finds its handle at position i and splices it out.
     */
    method CullAt(copiedAll: seq<ShapeData>, ghost ys: seq<real>, i: nat)
      requires i < |copiedAll| == |ys| && DistinctHandles(copiedAll)
      requires ys[i] > height + CULL_MARGIN
      requires model.shapes == copiedAll[..i + 1] + KeptFrom(copiedAll, ys, height + CULL_MARGIN, i + 1)
      modifies model
      ensures model.shapes == copiedAll[..i] + KeptFrom(copiedAll, ys, height + CULL_MARGIN, i)
    {
      CullDrop(copiedAll, ys, height + CULL_MARGIN, i, model.shapes);
      model.Remove(copiedAll[i].shape);
    }

    /**
     * One pass of the loop in the integration and cull phase: step record i
     * of the snapshot, then remove it from the registry when it has fallen
     * past the margin.  The records after i are already stepped and culled;
     * `v0`, `y0` and `x0` are the snapshot's values before the loop and
     * `vs`, `ys` the ones the whole snapshot reaches.
     */
    method StepAndCull(copiedAll: seq<ShapeData>, i: nat, delta: real,
                       ghost v0: seq<real>, ghost y0: seq<real>, ghost x0: seq<real>,
                       ghost vs: seq<real>, ghost ys: seq<real>)
      requires i < |copiedAll| == |v0| == |y0| == |vs| == |ys| && DistinctHandles(copiedAll)
      requires vs[i] == Accelerate(v0[i], gravity, delta) && ys[i] == Advance(y0[i], vs[i], delta)
      requires Velocities(copiedAll) == Stepped(vs, v0, i)
      requires Heights(copiedAll) == Stepped(ys, y0, i)
      requires Xs(copiedAll) == x0
      requires model.shapes == copiedAll[..i + 1] + KeptFrom(copiedAll, ys, height + CULL_MARGIN, i + 1)
      modifies model, copiedAll[i], copiedAll[i].shape
      ensures Velocities(copiedAll) == Stepped(vs, v0, i - 1)
      ensures Heights(copiedAll) == Stepped(ys, y0, i - 1)
      ensures Xs(copiedAll) == x0
      ensures model.shapes == copiedAll[..i] + KeptFrom(copiedAll, ys, height + CULL_MARGIN, i)
    {
      var shapeData := copiedAll[i];
      StepAt(copiedAll, i, gravity, delta, v0, y0, x0, vs, ys);
      if shapeData.shape.y > height + CULL_MARGIN {
        assert forall k | 0 <= k < |copiedAll| :: copiedAll[k] as object != model && copiedAll[k].shape as object != model;
        CullAt(copiedAll, ys, i);
      } else {
        CullKeep(copiedAll, ys, height + CULL_MARGIN, i, model.shapes);
      }
    }

    /**
     * The integration and cull phase of `update` (lines 85-94): walk a
     * snapshot of the list from the back; give each record
     * `v' = v + gravity * delta` and then `y' = y + v' * delta`, and remove it
     * from the registry when `y'` is past `height + 100`.
     */
    method IntegrateAndCull(delta: real)
      requires DistinctHandles(model.shapes)
      modifies model, model.shapes, Handles(model.shapes)
      ensures Velocities(old(model.shapes)) == Sped(old(Velocities(model.shapes)), gravity, delta)
      ensures Heights(old(model.shapes)) == Fallen(old(Heights(model.shapes)), Velocities(old(model.shapes)), delta)
      ensures Xs(old(model.shapes)) == old(Xs(model.shapes))
      ensures model.shapes == KeptFrom(old(model.shapes), Heights(old(model.shapes)), height + CULL_MARGIN, 0)
      ensures unchanged(this, ids)
    {
      var copiedAll := model.shapes;
      ghost var v0 := Velocities(copiedAll);
      ghost var y0 := Heights(copiedAll);
      ghost var x0 := Xs(copiedAll);
      ghost var vs := Sped(v0, gravity, delta);
      ghost var ys := Fallen(y0, vs, delta);
      ghost var limit := height + CULL_MARGIN;
      StillAtStart(vs, v0);
      StillAtStart(ys, y0);
      var i := |copiedAll| - 1;
      while i >= 0
        invariant -1 <= i < |copiedAll|
        invariant Velocities(copiedAll) == Stepped(vs, v0, i)
        invariant Heights(copiedAll) == Stepped(ys, y0, i)
        invariant Xs(copiedAll) == x0
        invariant model.shapes == copiedAll[..i + 1] + KeptFrom(copiedAll, ys, limit, i + 1)
      {
        StepAndCull(copiedAll, i, delta, v0, y0, x0, vs, ys);
        i := i - 1;
      }
      assert copiedAll[..0] == [];
      AllStepped(vs, v0);
      AllStepped(ys, y0);
    }
  }
}
