/**
 * The per-frame physics of `game.update`, the win test and the demo seeding.
 *
 * The world is a sequence of particles; a collision list names partners by
 * their index in it. One frame visits the particles in index order and, for
 * particle `i`: steps it, sweeps it against every other particle from the
 * last index down to 0 (pulling both ends of every overlapping pair towards
 * each other), lets it react to the partners it found, adds gravity as a
 * plain force, and keeps it inside the 640 x 480 field.
 */
module GameLoop {
  import opened Vector2D
  import opened GameObjects

  const FIELD_WIDTH: real := 640.0
  const FIELD_HEIGHT: real := 480.0

  /** The game state whose reset seeds the demonstration. */
  const MAIN_MECHANIC_DEMO: int := -1

  // Boundary

  predicate InField(p: Particle)
  {
    p.radius <= p.pos.x <= FIELD_WIDTH - p.radius &&
    p.radius <= p.pos.y <= FIELD_HEIGHT - p.radius
  }

  /**
   * Where the boundary block puts the centre `c` of a disc of radius `r` on
   * an axis of length `size`: first the test against the far edge, then the
   * test against the near edge, which reads the value the first one left.
   * A centre already in range stays; otherwise the disc ends touching the
   * edge it crossed, as long as it fits between the two edges.
   */
  function ConfineAxis(c: real, r: real, size: real): (d: real)
    ensures r <= c <= size - r ==> d == c
    ensures 2.0 * r <= size ==> r <= d <= size - r
    ensures 2.0 * r <= size && c > size - r ==> d == size - r
    ensures 2.0 * r <= size && c < r ==> d == r
  {
    var inside := if c > size - r then size - r else c;
    if inside < r then r else inside
  }

  /** Where the boundary block puts the centre `v` of a disc of radius `r`, axis by axis. */
  function Confine(v: Vec, r: real): (w: Vec)
    ensures r <= v.x <= FIELD_WIDTH - r && r <= v.y <= FIELD_HEIGHT - r ==> w == v
    ensures r <= FIELD_HEIGHT / 2.0 ==>
      r <= w.x <= FIELD_WIDTH - r && r <= w.y <= FIELD_HEIGHT - r
  {
    Vec(ConfineAxis(v.x, r, FIELD_WIDTH), ConfineAxis(v.y, r, FIELD_HEIGHT))
  }

  /**
   * The force the boundary block adds to a disc of radius `r` centred at
   * `pos` and moving with `vel`: `-v` on each axis whose range the centre
   * has left, nothing on an axis whose range holds it.
   */
  function BoundaryPush(pos: Vec, vel: Vec, r: real): Vec
  {
    Vec(if r <= pos.x <= FIELD_WIDTH - r then 0.0 else -vel.x,
        if r <= pos.y <= FIELD_HEIGHT - r then 0.0 else -vel.y)
  }

  // The four tests of the boundary block, in source order. Each reads the
  // position the previous one left, and each pushes back with the force -v on
  // its own axis instead of touching the velocity.

  function PastRight(p: Particle): (r: Particle)
    requires p.mass != 0.0
    ensures r.(pos := p.pos, acc := p.acc) == p
    ensures r.pos.y == p.pos.y && r.acc.y == p.acc.y
    ensures p.pos.x > FIELD_WIDTH - p.radius ==>
      r.pos.x == FIELD_WIDTH - p.radius && r.mass * (r.acc.x - p.acc.x) == -p.vel.x
    ensures p.pos.x <= FIELD_WIDTH - p.radius ==> r == p
  {
    if p.pos.x > FIELD_WIDTH - p.radius then
      AddForce(SetPosition(p, FIELD_WIDTH - p.radius, p.pos.y), Vec(-p.vel.x, 0.0))
    else p
  }

  function PastLeft(p: Particle): (r: Particle)
    requires p.mass != 0.0
    ensures r.(pos := p.pos, acc := p.acc) == p
    ensures r.pos.y == p.pos.y && r.acc.y == p.acc.y
    ensures p.pos.x < p.radius ==>
      r.pos.x == p.radius && r.mass * (r.acc.x - p.acc.x) == -p.vel.x
    ensures p.pos.x >= p.radius ==> r == p
  {
    if p.pos.x < 0.0 + p.radius then
      AddForce(SetPosition(p, 0.0 + p.radius, p.pos.y), Vec(-p.vel.x, 0.0))
    else p
  }

  function PastBottom(p: Particle): (r: Particle)
    requires p.mass != 0.0
    ensures r.(pos := p.pos, acc := p.acc) == p
    ensures r.pos.x == p.pos.x && r.acc.x == p.acc.x
    ensures p.pos.y > FIELD_HEIGHT - p.radius ==>
      r.pos.y == FIELD_HEIGHT - p.radius && r.mass * (r.acc.y - p.acc.y) == -p.vel.y
    ensures p.pos.y <= FIELD_HEIGHT - p.radius ==> r == p
  {
    if p.pos.y > FIELD_HEIGHT - p.radius then
      AddForce(SetPosition(p, p.pos.x, FIELD_HEIGHT - p.radius), Vec(0.0, -p.vel.y))
    else p
  }

  function PastTop(p: Particle): (r: Particle)
    requires p.mass != 0.0
    ensures r.(pos := p.pos, acc := p.acc) == p
    ensures r.pos.x == p.pos.x && r.acc.x == p.acc.x
    ensures p.pos.y < p.radius ==>
      r.pos.y == p.radius && r.mass * (r.acc.y - p.acc.y) == -p.vel.y
    ensures p.pos.y >= p.radius ==> r == p
  {
    if p.pos.y < 0.0 + p.radius then
      AddForce(SetPosition(p, p.pos.x, 0.0 + p.radius), Vec(0.0, -p.vel.y))
    else p
  }

  /** The two horizontal tests: right edge, then left edge. */
  function Horizontal(p: Particle): (r: Particle)
    requires p.mass != 0.0
    ensures r.(pos := p.pos, acc := p.acc) == p
    ensures r.mass == p.mass && r.radius == p.radius && r.vel == p.vel
    ensures r.pos.y == p.pos.y && r.acc.y == p.acc.y
    ensures r.pos.x == ConfineAxis(p.pos.x, p.radius, FIELD_WIDTH)
    ensures p.radius <= p.pos.x <= FIELD_WIDTH - p.radius ==> r == p
    ensures p.radius <= FIELD_WIDTH / 2.0 ==> r.radius <= r.pos.x <= FIELD_WIDTH - r.radius
    ensures 2.0 * p.radius <= FIELD_WIDTH && p.pos.x > FIELD_WIDTH - p.radius ==>
      r.pos.x == FIELD_WIDTH - p.radius && r.mass * (r.acc.x - p.acc.x) == -p.vel.x
    ensures 2.0 * p.radius <= FIELD_WIDTH && p.pos.x < p.radius ==>
      r.pos.x == p.radius && r.mass * (r.acc.x - p.acc.x) == -p.vel.x
  {
    PastLeft(PastRight(p))
  }

  /** The two vertical tests: bottom edge, then top edge. */
  function Vertical(p: Particle): (r: Particle)
    requires p.mass != 0.0
    ensures r.(pos := p.pos, acc := p.acc) == p
    ensures r.mass == p.mass && r.radius == p.radius && r.vel == p.vel
    ensures r.pos.x == p.pos.x && r.acc.x == p.acc.x
    ensures r.pos.y == ConfineAxis(p.pos.y, p.radius, FIELD_HEIGHT)
    ensures p.radius <= p.pos.y <= FIELD_HEIGHT - p.radius ==> r == p
    ensures p.radius <= FIELD_HEIGHT / 2.0 ==> r.radius <= r.pos.y <= FIELD_HEIGHT - r.radius
    ensures 2.0 * p.radius <= FIELD_HEIGHT && p.pos.y > FIELD_HEIGHT - p.radius ==>
      r.pos.y == FIELD_HEIGHT - p.radius && r.mass * (r.acc.y - p.acc.y) == -p.vel.y
    ensures 2.0 * p.radius <= FIELD_HEIGHT && p.pos.y < p.radius ==>
      r.pos.y == p.radius && r.mass * (r.acc.y - p.acc.y) == -p.vel.y
  {
    PastTop(PastBottom(p))
  }

  /**
   * The boundary block of `game.update`. An axis already inside its range is
   * left alone; an axis past one edge is moved onto that edge and gains the
   * force `-v` on that axis. Velocity and everything but position and
   * acceleration stay as they are. The centre ends where `Confine` puts it.
   * A particle of radius at most 240 (half the field's height) always ends
   * inside the field; `ClampPush` states the force it gains.
   */
  function Clamp(p: Particle): (r: Particle)
    requires p.mass != 0.0
    ensures r.(pos := p.pos, acc := p.acc) == p
    ensures r.pos == Confine(p.pos, p.radius)
    ensures InField(p) ==> r == p
    ensures p.radius <= 240.0 ==> InField(r)
    ensures p.radius <= p.pos.x <= FIELD_WIDTH - p.radius ==> r.pos.x == p.pos.x && r.acc.x == p.acc.x
    ensures p.radius <= p.pos.y <= FIELD_HEIGHT - p.radius ==> r.pos.y == p.pos.y && r.acc.y == p.acc.y
    ensures r.pos.x == Horizontal(p).pos.x && r.acc.x == Horizontal(p).acc.x
  {
    Vertical(Horizontal(p))
  }

  /**
   * For a particle of radius at most 240 the boundary block amounts to moving
   * the centre to where `Confine` puts it and adding the single force
   * `BoundaryPush` through `addForce`.
   */
  lemma ClampPush(p: Particle)
    requires p.mass != 0.0
    ensures p.radius <= 240.0 ==>
      Clamp(p) == AddForce(p.(pos := Confine(p.pos, p.radius)), BoundaryPush(p.pos, p.vel, p.radius))
  {
    if p.radius <= 240.0 {
      var push := BoundaryPush(p.pos, p.vel, p.radius);
      var w := Confine(p.pos, p.radius);
      var h := Horizontal(p);
      HorizontalPush(p);
      VerticalPush(h);
      assert BoundaryPush(h.pos, h.vel, h.radius).y == push.y;
      assert h.pos == Vec(w.x, p.pos.y);
      assert h.(pos := Vec(h.pos.x, w.y)) == AddForce(p, Vec(push.x, 0.0)).(pos := w);
      ForceByAxes(p, w, push);
    }
  }

  /** A force along x then one along y, with the position set in between, act as their sum. */
  lemma ForceByAxes(p: Particle, w: Vec, f: Vec)
    requires p.mass != 0.0
    ensures AddForce(AddForce(p, Vec(f.x, 0.0)).(pos := w), Vec(0.0, f.y)) == AddForce(p.(pos := w), f)
  {
    var t := 1.0 / p.mass;
    assert 0.0 * t == 0.0;
  }

  /**
   * The horizontal tests move the centre along x as `ConfineAxis` does and
   * add the x part of `BoundaryPush`.
   */
  lemma HorizontalPush(p: Particle)
    requires p.mass != 0.0 && 2.0 * p.radius <= FIELD_WIDTH
    ensures Horizontal(p) ==
      AddForce(p.(pos := Vec(ConfineAxis(p.pos.x, p.radius, FIELD_WIDTH), p.pos.y)),
               Vec(BoundaryPush(p.pos, p.vel, p.radius).x, 0.0))
  {
    var a := PastRight(p);
    if p.pos.x > FIELD_WIDTH - p.radius {
      assert PastLeft(a) == a;
    } else if p.pos.x < p.radius {
      assert a == p;
    } else {
      assert PastLeft(a) == p;
    }
  }

  /**
   * The vertical tests move the centre along y as `ConfineAxis` does and add
   * the y part of `BoundaryPush`.
   */
  lemma VerticalPush(p: Particle)
    requires p.mass != 0.0 && 2.0 * p.radius <= FIELD_HEIGHT
    ensures Vertical(p) ==
      AddForce(p.(pos := Vec(p.pos.x, ConfineAxis(p.pos.y, p.radius, FIELD_HEIGHT))),
               Vec(0.0, BoundaryPush(p.pos, p.vel, p.radius).y))
  {
    var a := PastBottom(p);
    if p.pos.y > FIELD_HEIGHT - p.radius {
      assert PastTop(a) == a;
    } else if p.pos.y < p.radius {
      assert a == p;
    } else {
      assert PastTop(a) == p;
    }
  }

  /**
   * On the vertical axis the boundary block acts on `p` as the vertical tests
   * alone would: the horizontal ones leave that axis alone.
   */
  lemma ClampVertical(p: Particle)
    requires p.mass != 0.0
    ensures 2.0 * p.radius <= FIELD_HEIGHT && p.pos.y > FIELD_HEIGHT - p.radius ==>
      Clamp(p).pos.y == FIELD_HEIGHT - p.radius && Clamp(p).mass * (Clamp(p).acc.y - p.acc.y) == -p.vel.y
    ensures 2.0 * p.radius <= FIELD_HEIGHT && p.pos.y < p.radius ==>
      Clamp(p).pos.y == p.radius && Clamp(p).mass * (Clamp(p).acc.y - p.acc.y) == -p.vel.y
  {
    var h := Horizontal(p);
    assert h.pos.y == p.pos.y && h.acc.y == p.acc.y && h.radius == p.radius && h.vel == p.vel && h.mass == p.mass;
  }

  /**
   * The end of a particle's turn: gravity through `addForce`, so it adds
   * `g / mass` whatever the particle's density, then the boundary block. A
   * particle already inside the field keeps its position and gains exactly
   * the force `g`. Any particle ends where `Confine` puts its centre, and
   * one of radius at most 240 gains `g / m` and then `BoundaryPush / m` in
   * acceleration.
   */
  function Settle(p: Particle, gravity: Vec): (r: Particle)
    requires Physical(p)
    ensures r.(pos := p.pos, acc := p.acc) == p
    ensures r.pos == Confine(p.pos, p.radius)
    ensures p.radius <= 240.0 ==>
      r.acc == Add(Add(p.acc, Scale(gravity, 1.0 / p.mass)), Scale(BoundaryPush(p.pos, p.vel, p.radius), 1.0 / p.mass))
    ensures InField(p) ==>
      r.pos == p.pos && r.mass * (r.acc.x - p.acc.x) == gravity.x && r.mass * (r.acc.y - p.acc.y) == gravity.y
    ensures p.radius <= 240.0 ==> InField(r)
  {
    var a := AddForce(p, gravity);
    assert a.pos == p.pos && a.vel == p.vel && a.radius == p.radius && a.mass == p.mass;
    ClampPush(a);
    Clamp(a)
  }

  /** Gravity is not weighted by density: two particles that differ only in density settle alike. */
  lemma GravityIgnoresDensity(p: Particle, density: real, gravity: Vec)
    requires Physical(p)
    ensures Settle(p.(density := density), gravity).acc == Settle(p, gravity).acc
    ensures Settle(p.(density := density), gravity).pos == Settle(p, gravity).pos
  {
    var q := AddForce(p, gravity);
    assert AddForce(p.(density := density), gravity) == q.(density := density);
    var r1 := PastRight(q);
    assert PastRight(q.(density := density)) == r1.(density := density);
    var r2 := PastLeft(r1);
    assert PastLeft(r1.(density := density)) == r2.(density := density);
    var r3 := PastBottom(r2);
    assert PastBottom(r2.(density := density)) == r3.(density := density);
    assert PastTop(r3.(density := density)) == PastTop(r3).(density := density);
  }

  /** A particle the boundary block has placed is not moved by it again. */
  lemma ClampIdempotent(p: Particle)
    requires p.mass != 0.0 && p.radius <= 240.0
    ensures Clamp(Clamp(p)) == Clamp(p)
  {
  }

  // The collision sweep

  /** The discs of a whole world. */
  function Discs(ps: seq<Particle>): (ds: seq<Disc>)
    ensures |ds| == |ps|
    ensures forall k :: 0 <= k < |ps| ==> ds[k] == DiscOf(ps[k])
  {
    seq(|ps|, k requires 0 <= k < |ps| => DiscOf(ps[k]))
  }

  /**
   * The partners disc `i` finds when the inner loop has visited the indices
   * from the last one down to `lo`: every index `j != i` in that range whose
   * disc overlaps disc `i`, each once, in descending order.
   */
  function Hits(ds: seq<Disc>, i: nat, lo: nat): (hs: seq<nat>)
    requires i < |ds| && lo <= |ds|
    ensures forall k :: 0 <= k < |hs| ==> lo <= hs[k] < |ds| && hs[k] != i && Overlaps(ds[i], ds[hs[k]])
    ensures forall j :: lo <= j < |ds| && j != i && Overlaps(ds[i], ds[j]) ==> j in hs
    ensures forall k, l :: 0 <= k < l < |hs| ==> hs[k] > hs[l]
    decreases |ds| - lo
  {
    if lo == |ds| then []
    else Hits(ds, i, lo + 1) + (if lo != i && Overlaps(ds[i], ds[lo]) then [lo] else [])
  }

  /** `m · a` of one particle: the force its acceleration stands for. */
  function ForceOf(p: Particle): Vec
  {
    Vec(p.mass * p.acc.x, p.mass * p.acc.y)
  }

  /** The sum of `m · a` over a world. */
  function NetForce(ps: seq<Particle>): Vec
  {
    if |ps| == 0 then Zero
    else Add(NetForce(ps[..|ps| - 1]), ForceOf(ps[|ps| - 1]))
  }

  /**
   * The pulls particle `i` receives from the partners `hs`: the vectors from
   * its centre to theirs, summed.
   */
  function PullSum(ds: seq<Disc>, i: nat, hs: seq<nat>): Vec
    requires i < |ds|
    requires forall k :: 0 <= k < |hs| ==> hs[k] < |ds|
  {
    if |hs| == 0 then Zero
    else Add(PullSum(ds, i, hs[..|hs| - 1]), VectorBetween(ds[i].center, ds[hs[|hs| - 1]].center))
  }

  /** Applying `f` through `addForce` raises the particle's `m · a` by exactly `f`. */
  lemma ForceOfAddForce(p: Particle, f: Vec)
    requires p.mass != 0.0
    ensures ForceOf(AddForce(p, f)) == Add(ForceOf(p), f)
  {
    var r := AddForce(p, f);
    assert r.mass * r.acc.x == p.mass * p.acc.x + r.mass * (r.acc.x - p.acc.x);
    assert r.mass * r.acc.y == p.mass * p.acc.y + r.mass * (r.acc.y - p.acc.y);
  }

  /** Replacing one particle changes the net force by the change in that particle's `m · a`. */
  lemma {:induction false} NetForceUpdate(ps: seq<Particle>, k: nat, p: Particle)
    requires k < |ps|
    ensures NetForce(ps[k := p]).x == NetForce(ps).x - ForceOf(ps[k]).x + ForceOf(p).x
    ensures NetForce(ps[k := p]).y == NetForce(ps).y - ForceOf(ps[k]).y + ForceOf(p).y
    decreases |ps|
  {
    var qs := ps[k := p];
    var n := |ps| - 1;
    if k < n {
      assert qs[..n] == ps[..n][k := p];
      NetForceUpdate(ps[..n], k, p);
    } else {
      assert qs[..n] == ps[..n];
    }
  }

  /** Particle `k` after the sweep of `i`: pulled once towards `i` when `i` found it. */
  function Pulled(ps: seq<Particle>, i: nat, k: nat, found: bool): (r: Particle)
    requires i < |ps| && k < |ps| && Physical(ps[k])
    ensures r == ps[k].(acc := r.acc)
  {
    if found then AddForce(ps[k], VectorBetween(ps[k].pos, ps[i].pos)) else ps[k]
  }

  /**
   * Particle `i` takes its collision-list entry `hit` and is pulled towards
   * `j`, then `j` is pulled towards `i`.
   */
  function Collide(qs: seq<Particle>, i: nat, j: nat, hit: Particle): seq<Particle>
    requires i < |qs| && j < |qs| && Physical(hit) && Physical(qs[j])
  {
    var particle := AddForce(hit, VectorBetween(qs[i].pos, qs[j].pos));
    var other := AddForce(qs[j], VectorBetween(qs[j].pos, particle.pos));
    qs[i := particle][j := other]
  }

  /**
   * One turn of the inner loop: if `j` is not `i` and the two overlap, `j`
   * joins `i`'s collision list, `i` is pulled towards `j` and `j` towards `i`.
   */
  function Visit(qs: seq<Particle>, i: nat, j: nat): (r: seq<Particle>)
    requires i < |qs| && j < |qs| && Physical(qs[i]) && Physical(qs[j])
    ensures |r| == |qs|
    ensures i == j || !Overlaps(DiscOf(qs[i]), DiscOf(qs[j])) ==> r == qs
    ensures i != j && Overlaps(DiscOf(qs[i]), DiscOf(qs[j])) ==>
      && r[i].partners == qs[i].partners + [j]
      && r[i].pos == qs[i].pos && r[j].pos == qs[j].pos
    ensures NetForce(r) == NetForce(qs)
  {
    if i == j then qs
    else
      var hit := CollidingWith(qs[i], qs[j], j);
      if !hit.0 then qs
      else
        CollideConserves(qs, i, j);
        Collide(qs, i, j, hit.1)
  }

  predicate AllPhysical(ps: seq<Particle>)
  {
    forall k :: 0 <= k < |ps| ==> Physical(ps[k])
  }

  /**
   * Particle `i` after it has found the partners `hs`: only its acceleration
   * and collision list have changed, the former by the pulls towards them.
   */
  ghost predicate SweptSelf(ps: seq<Particle>, qs: seq<Particle>, i: nat, hs: seq<nat>)
    requires i < |ps| == |qs|
    requires forall k :: 0 <= k < |hs| ==> hs[k] < |ps|
  {
    && qs[i] == ps[i].(acc := qs[i].acc, partners := ps[i].partners + hs)
    && ForceOf(qs[i]) == Add(ForceOf(ps[i]), PullSum(Discs(ps), i, hs))
  }

  /**
   * Every other particle after `i` has found the partners `hs`: pulled once
   * towards `i` if among them, untouched otherwise.
   */
  ghost predicate SweptOthers(ps: seq<Particle>, qs: seq<Particle>, i: nat, hs: seq<nat>)
    requires i < |ps| == |qs| && AllPhysical(ps)
  {
    forall k :: 0 <= k < |ps| && k != i ==> qs[k] == Pulled(ps, i, k, k in hs)
  }

  /**
   * What the sweep of particle `i` has done once it has visited every index
   * from the last one down to `lo`.
   */
  ghost predicate SweptFrom(ps: seq<Particle>, qs: seq<Particle>, i: nat, lo: nat)
    requires i < |ps| && lo <= |ps| && AllPhysical(ps)
  {
    var hs := Hits(Discs(ps), i, lo);
    && |qs| == |ps|
    && AllPhysical(qs)
    && SweptSelf(ps, qs, i, hs)
    && SweptOthers(ps, qs, i, hs)
    && NetForce(qs) == NetForce(ps)
  }

  /** One more partner adds its pull to the running sum. */
  lemma PullSumSnoc(ds: seq<Disc>, i: nat, hs: seq<nat>, j: nat)
    requires i < |ds| && j < |ds|
    requires forall k :: 0 <= k < |hs| ==> hs[k] < |ds|
    ensures PullSum(ds, i, hs + [j]) == Add(PullSum(ds, i, hs), VectorBetween(ds[i].center, ds[j].center))
  {
    assert (hs + [j])[..|hs|] == hs;
  }

  /** The sweeping particle's `m · a` grows by the pull towards its new partner. */
  lemma PullHitForce(p: Particle, q: Particle, j: nat, base: Vec, sum: Vec)
    requires Physical(p)
    requires ForceOf(p) == Add(base, sum)
    ensures ForceOf(AddForce(p.(partners := p.partners + [j]), VectorBetween(p.pos, q.pos)))
         == Add(base, Add(sum, VectorBetween(p.pos, q.pos)))
  {
    var hit := p.(partners := p.partners + [j]);
    ForceOfAddForce(hit, VectorBetween(p.pos, q.pos));
    assert ForceOf(hit) == ForceOf(p);
  }

  /**
   * Replacing two particles leaves the net force alone when their combined `m
   * · a` is unchanged.
   */
  lemma NetForcePair(qs: seq<Particle>, i: nat, j: nat, a: Particle, b: Particle)
    requires i < |qs| && j < |qs| && i != j
    requires Add(ForceOf(a), ForceOf(b)) == Add(ForceOf(qs[i]), ForceOf(qs[j]))
    ensures NetForce(qs[i := a][j := b]) == NetForce(qs)
  {
    NetForceUpdate(qs, i, a);
    NetForceUpdate(qs[i := a], j, b);
  }

  /** A collision conserves the world's net force: the two pulls cancel. */
  lemma CollideConserves(qs: seq<Particle>, i: nat, j: nat)
    requires i < |qs| && j < |qs| && i != j && Physical(qs[i]) && Physical(qs[j])
    ensures NetForce(Collide(qs, i, j, qs[i].(partners := qs[i].partners + [j]))) == NetForce(qs)
    ensures AllPhysical(qs) ==> AllPhysical(Collide(qs, i, j, qs[i].(partners := qs[i].partners + [j])))
  {
    var hit := qs[i].(partners := qs[i].partners + [j]);
    var pull := VectorBetween(qs[i].pos, qs[j].pos);
    var particle := AddForce(hit, pull);
    var push := VectorBetween(qs[j].pos, particle.pos);
    var other := AddForce(qs[j], push);
    ForceOfAddForce(hit, pull);
    ForceOfAddForce(qs[j], push);
    assert ForceOf(hit) == ForceOf(qs[i]);
    NetForcePair(qs, i, j, particle, other);
  }

  /** A collision with the new partner `j` extends the sweeping particle's record by `j`. */
  lemma CollideSelf(ps: seq<Particle>, qs: seq<Particle>, i: nat, j: nat, before: seq<nat>)
    requires i < |ps| == |qs| && j < |ps| && i != j && AllPhysical(ps) && AllPhysical(qs)
    requires forall k :: 0 <= k < |before| ==> before[k] < |ps|
    requires SweptSelf(ps, qs, i, before)
    requires qs[j] == ps[j]
    ensures SweptSelf(ps, Collide(qs, i, j, qs[i].(partners := qs[i].partners + [j])), i, before + [j])
  {
    var ds := Discs(ps);
    PullHitForce(qs[i], qs[j], j, ForceOf(ps[i]), PullSum(ds, i, before));
    PullSumSnoc(ds, i, before, j);
  }

  /** A collision with the new partner `j` pulls `j` once and leaves the rest alone. */
  lemma CollideOthers(ps: seq<Particle>, qs: seq<Particle>, i: nat, j: nat, before: seq<nat>)
    requires i < |ps| == |qs| && j < |ps| && i != j && AllPhysical(ps) && AllPhysical(qs)
    requires j !in before
    requires qs[i].pos == ps[i].pos
    requires SweptOthers(ps, qs, i, before)
    ensures SweptOthers(ps, Collide(qs, i, j, qs[i].(partners := qs[i].partners + [j])), i, before + [j])
  {
    var r := Collide(qs, i, j, qs[i].(partners := qs[i].partners + [j]));
    assert qs[j] == Pulled(ps, i, j, j in before);
    forall k | 0 <= k < |ps| && k != i
      ensures r[k] == Pulled(ps, i, k, k in before + [j])
    {
      if k != j {
        assert r[k] == qs[k];
      }
    }
  }

  /** Visiting an overlapping `j` extends the sweep by that partner. */
  lemma VisitHit(ps: seq<Particle>, qs: seq<Particle>, i: nat, j: nat)
    requires i < |ps| && j < |ps| && i != j && AllPhysical(ps)
    requires SweptFrom(ps, qs, i, j + 1)
    requires Overlaps(DiscOf(ps[i]), DiscOf(ps[j]))
    ensures SweptFrom(ps, Visit(qs, i, j), i, j)
  {
    var ds := Discs(ps);
    var before := Hits(ds, i, j + 1);
    assert Hits(ds, i, j) == before + [j];
    assert j !in before;
    assert qs[j] == ps[j] by {
      assert qs[j] == Pulled(ps, i, j, j in before);
    }
    assert Visit(qs, i, j) == Collide(qs, i, j, qs[i].(partners := qs[i].partners + [j]));
    CollideSelf(ps, qs, i, j, before);
    CollideOthers(ps, qs, i, j, before);
    CollideConserves(qs, i, j);
  }

  /** Visiting `i` itself or a `j` that does not overlap changes nothing. */
  lemma VisitMiss(ps: seq<Particle>, qs: seq<Particle>, i: nat, j: nat)
    requires i < |ps| && j < |ps|
    requires AllPhysical(ps)
    requires SweptFrom(ps, qs, i, j + 1)
    requires i == j || !Overlaps(DiscOf(ps[i]), DiscOf(ps[j]))
    ensures SweptFrom(ps, Visit(qs, i, j), i, j)
  {
    var ds := Discs(ps);
    assert Hits(ds, i, j) == Hits(ds, i, j + 1);
    if i != j {
      assert qs[j] == Pulled(ps, i, j, j in Hits(ds, i, j + 1));
      assert Visit(qs, i, j) == qs;
    }
  }

  /** Visiting index `j` extends what the sweep has done from `j + 1` down to `j`. */
  lemma VisitExtendsSweep(ps: seq<Particle>, qs: seq<Particle>, i: nat, j: nat)
    requires i < |ps| && j < |ps|
    requires AllPhysical(ps)
    requires SweptFrom(ps, qs, i, j + 1)
    ensures Physical(qs[i]) && Physical(qs[j])
    ensures SweptFrom(ps, Visit(qs, i, j), i, j)
  {
    if i != j && Overlaps(DiscOf(ps[i]), DiscOf(ps[j])) {
      VisitHit(ps, qs, i, j);
    } else {
      VisitMiss(ps, qs, i, j);
    }
  }

  /** Before the inner loop nothing has been found and nothing has changed. */
  lemma SweepStarts(ps: seq<Particle>, i: nat)
    requires i < |ps| && AllPhysical(ps)
    ensures SweptFrom(ps, ps, i, |ps|)
  {
    var hs := Hits(Discs(ps), i, |ps|);
    assert hs == [];
    assert ps[i].partners + hs == ps[i].partners;
    forall k | 0 <= k < |ps| && k != i
      ensures ps[k] == Pulled(ps, i, k, k in hs)
    {
    }
  }

  /** A finished sweep, spelled out. */
  lemma SweepEnds(ps: seq<Particle>, qs: seq<Particle>, i: nat)
    requires i < |ps| && AllPhysical(ps)
    requires SweptFrom(ps, qs, i, 0)
    ensures |qs| == |ps| && AllPhysical(qs)
    ensures qs[i] == ps[i].(acc := qs[i].acc, partners := ps[i].partners + Hits(Discs(ps), i, 0))
    ensures ForceOf(qs[i]) == Add(ForceOf(ps[i]), PullSum(Discs(ps), i, Hits(Discs(ps), i, 0)))
    ensures forall k :: 0 <= k < |ps| && k != i ==> qs[k] == Pulled(ps, i, k, k in Hits(Discs(ps), i, 0))
    ensures NetForce(qs) == NetForce(ps)
  {
  }

  /**
   * The inner loop of `game.update` for particle `i`, `j` running from the
   * last index down to 0. Each overlapping `j` is appended to `i`'s
   * collision list, `i` is pulled towards `j` and `j` towards `i` by
   * `addForce`. The forces are equal and opposite, so the world's net
   * `m · a` is unchanged; only `i`'s collision list grows, and only
   * accelerations change.
   */
  method SweepCollisions(ps: seq<Particle>, i: nat) returns (qs: seq<Particle>)
    requires i < |ps| && AllPhysical(ps)
    ensures |qs| == |ps| && AllPhysical(qs)
    ensures qs[i] == ps[i].(acc := qs[i].acc, partners := ps[i].partners + Hits(Discs(ps), i, 0))
    ensures ForceOf(qs[i]) == Add(ForceOf(ps[i]), PullSum(Discs(ps), i, Hits(Discs(ps), i, 0)))
    ensures forall k :: 0 <= k < |ps| && k != i ==> qs[k] == Pulled(ps, i, k, k in Hits(Discs(ps), i, 0))
    ensures NetForce(qs) == NetForce(ps)
  {
    qs := ps;
    SweepStarts(ps, i);
    var visited: nat := |ps|;
    while visited > 0
      invariant visited <= |ps|
      invariant SweptFrom(ps, qs, i, visited)
    {
      var j := visited - 1;
      VisitExtendsSweep(ps, qs, i, j);
      qs := Visit(qs, i, j);
      visited := j;
    }
    SweepEnds(ps, qs, i);
  }

  // One particle's turn, and the whole frame

  /** The types of the particles a collision list names. */
  function PartnerTypes(ps: seq<Particle>, idx: seq<nat>): (ts: seq<string>)
    requires forall k :: 0 <= k < |idx| ==> idx[k] < |ps|
    ensures |ts| == |idx|
    ensures forall k :: 0 <= k < |idx| ==> ts[k] == ps[idx[k]].ptype
  {
    seq(|idx|, k requires 0 <= k < |idx| => ps[idx[k]].ptype)
  }

  /** The partner types read only the types of the world's particles. */
  lemma PartnerTypesReadTypes(a: seq<Particle>, b: seq<Particle>, idx: seq<nat>)
    requires |a| == |b|
    requires forall m :: 0 <= m < |a| ==> a[m].ptype == b[m].ptype
    requires forall k :: 0 <= k < |idx| ==> idx[k] < |a|
    ensures PartnerTypes(a, idx) == PartnerTypes(b, idx)
  {
  }

  /** The world with particle `i` stepped by `update` and the rest as they are. */
  function Step(ps: seq<Particle>, i: nat): (r: seq<Particle>)
    requires i < |ps| && AllPhysical(ps)
    ensures |r| == |ps| && AllPhysical(r)
    ensures r[i] == Update(ps[i])
    ensures forall k :: 0 <= k < |ps| && k != i ==> r[k] == ps[k]
  {
    ps[i := Update(ps[i])]
  }

  /**
   * The particle's reaction outcome survives the later force and boundary
   * steps, which only touch position and acceleration.
   */
  lemma ReactionStepKept(p: Particle, q: Particle, r: Particle)
    requires ReactionStep(p, q)
    requires r.ptype == q.ptype && ProfileOf(r) == ProfileOf(q)
    ensures ReactionStep(p, r)
  {
  }

  /**
   * Two particles of the same type and properties react alike, whatever their
   * position, motion and collision list.
   */
  lemma ReactionReadsTypeAndProfile(p: Particle, q: Particle, ts: seq<string>)
    requires p.ptype == q.ptype && ProfileOf(p) == ProfileOf(q)
    ensures CheckReaction(p, ts).particle.ptype == CheckReaction(q, ts).particle.ptype
    ensures ProfileOf(CheckReaction(p, ts).particle) == ProfileOf(CheckReaction(q, ts).particle)
  {
  }

  /** A particle whose `m · a` is `f` has the acceleration `f / m`. */
  lemma AccelerationOfForce(p: Particle, f: Vec)
    requires p.mass != 0.0 && ForceOf(p) == f
    ensures p.acc == Scale(f, 1.0 / p.mass)
  {
  }

  /**
   * The rest of a turn once the sweep has left `s`: the stepped particle
   * `Update(p)` with the pulls `pull` added to its `m · a`. `checkReaction`
   * and `Settle` follow. The velocity is the stepped one, the type and
   * properties are what the reaction table makes of `p`, and when the stepped
   * position fits the field it is kept and the acceleration is `pull / m`
   * (the mass before the reaction) plus `g / m'` (the mass after it). In
   * general the centre ends where `Confine` puts the stepped position, and
   * a particle of radius at most 240 ends inside the field with
   * `BoundaryPush / m'` added to that acceleration.
   */
  lemma FinishTurn(p: Particle, s: Particle, ts: seq<string>, gravity: Vec, pull: Vec)
    requires Physical(p)
    requires s == Update(p).(acc := s.acc, partners := s.partners)
    requires ForceOf(s) == Add(ForceOf(Update(p)), pull)
    ensures var q := Settle(CheckReaction(s, ts).particle, gravity);
      && q.vel == Update(p).vel
      && q.partners == s.partners
      && q.ptype == CheckReaction(p, ts).particle.ptype
      && ProfileOf(q) == ProfileOf(CheckReaction(p, ts).particle)
      && (InField(Update(p).(radius := q.radius)) ==>
            q.pos == Update(p).pos && q.acc == Add(Scale(pull, 1.0 / p.mass), Scale(gravity, 1.0 / q.mass)))
      && q.pos == Confine(Update(p).pos, q.radius)
      && (q.radius <= 240.0 ==> InField(q))
      && (q.radius <= 240.0 ==>
            q.acc == Add(Add(Scale(pull, 1.0 / p.mass), Scale(gravity, 1.0 / q.mass)),
                         Scale(BoundaryPush(Update(p).pos, Update(p).vel, q.radius), 1.0 / q.mass)))
  {
    var r := CheckReaction(s, ts).particle;
    ReactionReadsTypeAndProfile(s, p, ts);
    assert ForceOf(Update(p)) == Zero;
    AddZeroAndCommute(pull, Zero);
    AccelerationOfForce(s, pull);
    var q := Settle(r, gravity);
    if InField(Update(p).(radius := q.radius)) {
      assert InField(r);
      assert q == AddForce(r, gravity);
    }
  }

  /**
   * The end of particle `i`'s turn, once its sweep has left the world
   * `swept`: `checkReaction` against the types of the partners it found,
   * gravity through `addForce` and the boundary block. It keeps the
   * collision list and the stepped velocity, fires exactly when the partners'
   * types trigger a reaction, takes the reaction table's row for them, and a
   * particle whose stepped position fits the field stays there with the
   * pulls over its old mass plus gravity over its new mass as acceleration.
   * Wherever the stepped position lies, the centre ends where `Confine` puts
   * it, and a particle of radius at most 240 also gains `BoundaryPush` over
   * its new mass.
   */
  method EndTurn(ps: seq<Particle>, i: nat, swept: seq<Particle>, gravity: Vec) returns (particle: Particle, fired: bool)
    requires i < |ps| && AllPhysical(ps) && |swept| == |ps|
    requires swept[i] == Update(ps[i]).(acc := swept[i].acc, partners := Hits(Discs(Step(ps, i)), i, 0))
    requires ForceOf(swept[i]) == Add(ForceOf(Update(ps[i])), PullSum(Discs(Step(ps, i)), i, swept[i].partners))
    requires forall m :: 0 <= m < |ps| ==> swept[m].ptype == ps[m].ptype
    ensures particle.partners == swept[i].partners && Physical(particle)
    ensures fired <==> ReactsWith(ps[i].ptype, PartnerTypes(ps, particle.partners))
    ensures fired <==> particle.ptype != ps[i].ptype
    ensures ReactionStep(ps[i], particle)
    ensures particle.radius <= 240.0 ==> InField(particle)
    ensures particle.vel == Update(ps[i]).vel
    ensures var r := CheckReaction(ps[i], PartnerTypes(ps, particle.partners)).particle;
      particle.ptype == r.ptype && ProfileOf(particle) == ProfileOf(r)
    ensures InField(Update(ps[i]).(radius := particle.radius)) ==>
      && particle.pos == Update(ps[i]).pos
      && particle.acc == Add(Scale(PullSum(Discs(Step(ps, i)), i, particle.partners), 1.0 / ps[i].mass),
                             Scale(gravity, 1.0 / particle.mass))
    ensures particle.pos == Confine(Update(ps[i]).pos, particle.radius)
    ensures particle.radius <= 240.0 ==>
      particle.acc == Add(Add(Scale(PullSum(Discs(Step(ps, i)), i, particle.partners), 1.0 / ps[i].mass),
                              Scale(gravity, 1.0 / particle.mass)),
                          Scale(BoundaryPush(Update(ps[i]).pos, Update(ps[i]).vel, particle.radius), 1.0 / particle.mass))
  {
    var partners := swept[i].partners;
    var partnerTypes := PartnerTypes(swept, partners);
    PartnerTypesReadTypes(swept, ps, partners);
    var reaction := CheckReaction(swept[i], partnerTypes);
    fired := reaction.fired;
    particle := Settle(reaction.particle, gravity);
    FinishTurn(ps[i], swept[i], partnerTypes, gravity, PullSum(Discs(Step(ps, i)), i, partners));
    ReactionStepKept(ps[i], reaction.particle, particle);
  }

  /**
   * The body of the outer loop for particle `i`: `update`, the sweep,
   * `checkReaction`, gravity through `addForce` (no density factor) and the
   * boundary block. The sweep sees `i` just stepped and every other particle
   * as it is. Its collision list is what that sweep found; every other
   * particle changes only in acceleration; it reacts to the types of the
   * particles it found by the reaction table's row for them; its velocity is
   * the stepped one; when its stepped position fits the field it stays there
   * with the sweep's pulls over its old mass plus gravity over its new mass as
   * acceleration; and a particle of radius at most 240 ends inside the field.
   * Wherever the stepped position lies, the centre ends where `Confine` puts
   * it, and a particle of radius at most 240 also gains `BoundaryPush` over
   * its new mass.
   */
  method ParticleTurn(ps: seq<Particle>, i: nat, gravity: Vec) returns (qs: seq<Particle>, fired: bool)
    requires i < |ps| && AllPhysical(ps)
    ensures |qs| == |ps| && AllPhysical(qs)
    ensures qs[i].partners == Hits(Discs(Step(ps, i)), i, 0)
    ensures forall k :: 0 <= k < |ps| && k != i ==> qs[k] == ps[k].(acc := qs[k].acc)
    ensures fired <==> ReactsWith(ps[i].ptype, PartnerTypes(ps, qs[i].partners))
    ensures fired <==> qs[i].ptype != ps[i].ptype
    ensures ReactionStep(ps[i], qs[i])
    ensures qs[i].radius <= 240.0 ==> InField(qs[i])
    ensures qs[i].vel == Update(ps[i]).vel
    ensures var r := CheckReaction(ps[i], PartnerTypes(ps, qs[i].partners)).particle;
      qs[i].ptype == r.ptype && ProfileOf(qs[i]) == ProfileOf(r)
    ensures InField(Update(ps[i]).(radius := qs[i].radius)) ==>
      && qs[i].pos == Update(ps[i]).pos
      && qs[i].acc == Add(Scale(PullSum(Discs(Step(ps, i)), i, qs[i].partners), 1.0 / ps[i].mass),
                         Scale(gravity, 1.0 / qs[i].mass))
    ensures qs[i].pos == Confine(Update(ps[i]).pos, qs[i].radius)
    ensures qs[i].radius <= 240.0 ==>
      qs[i].acc == Add(Add(Scale(PullSum(Discs(Step(ps, i)), i, qs[i].partners), 1.0 / ps[i].mass),
                           Scale(gravity, 1.0 / qs[i].mass)),
                       Scale(BoundaryPush(Update(ps[i]).pos, Update(ps[i]).vel, qs[i].radius), 1.0 / qs[i].mass))
  {
    ghost var stepped := Step(ps, i);
    var swept := SweepCollisions(Step(ps, i), i);
    assert swept[i].partners == Hits(Discs(stepped), i, 0) by {
      assert stepped[i].partners == [];
    }
    forall m | 0 <= m < |ps|
      ensures swept[m].ptype == ps[m].ptype
    {
      if m != i {
        assert swept[m] == Pulled(stepped, i, m, m in swept[i].partners);
      }
    }
    var particle;
    particle, fired := EndTurn(ps, i, swept, gravity);
    qs := swept[i := particle];
    forall k | 0 <= k < |ps| && k != i
      ensures qs[k] == ps[k].(acc := qs[k].acc)
    {
      assert qs[k] == Pulled(stepped, i, k, k in particle.partners);
    }
  }

  /**
   * Disc `m` as particle `k`'s sweep sees it: earlier particles where the
   * frame leaves them, later ones where it found them, `k` itself just after
   * its own step.
   */
  function SweepView(before: seq<Particle>, after: seq<Particle>, k: nat): (ds: seq<Disc>)
    requires |before| == |after| && k < |before|
    ensures |ds| == |before|
    ensures forall m :: 0 <= m < k ==> ds[m] == DiscOf(after[m])
    ensures ds[k] == DiscOf(Update(before[k]))
    ensures forall m :: k < m < |before| ==> ds[m] == DiscOf(before[m])
  {
    seq(|before|, m requires 0 <= m < |before| =>
      if m < k then DiscOf(after[m])
      else if m == k then DiscOf(Update(before[k]))
      else DiscOf(before[m]))
  }

  /**
   * Particle `k`'s view depends on the later state of the earlier particles
   * only through their discs.
   */
  lemma SweepViewFrame(ps: seq<Particle>, a: seq<Particle>, b: seq<Particle>, k: nat)
    requires |a| == |ps| && |b| == |ps| && k < |ps|
    requires forall m :: 0 <= m < k ==> DiscOf(a[m]) == DiscOf(b[m])
    ensures SweepView(ps, a, k) == SweepView(ps, b, k)
  {
  }

  /**
   * The world particle `i`'s sweep runs in is its view when no particle but
   * `i` has moved yet from `ps` and the earlier ones are where the frame
   * leaves them.
   */
  lemma CurrentView(ps: seq<Particle>, qs: seq<Particle>, after: seq<Particle>, i: nat)
    requires |qs| == |ps| && |after| == |ps| && i < |ps| && AllPhysical(qs)
    requires forall k :: i <= k < |ps| ==> qs[k] == ps[k].(acc := qs[k].acc)
    requires forall m :: 0 <= m < i ==> DiscOf(after[m]) == DiscOf(qs[m])
    ensures Discs(Step(qs, i)) == SweepView(ps, after, i)
  {
    assert DiscOf(Update(qs[i])) == DiscOf(Update(ps[i]));
  }

  /** How many of the first `n` particles have a different type in `qs` than in `ps`. */
  function TypeChanges(ps: seq<Particle>, qs: seq<Particle>, n: nat): (c: nat)
    requires n <= |ps| && n <= |qs|
    ensures c <= n
    ensures c == 0 <==> forall k :: 0 <= k < n ==> qs[k].ptype == ps[k].ptype
  {
    if n == 0 then 0
    else TypeChanges(ps, qs, n - 1) + (if ps[n - 1].ptype != qs[n - 1].ptype then 1 else 0)
  }

  /** The count over the first `n` particles reads only their types. */
  lemma {:induction false} TypeChangesFrame(ps: seq<Particle>, a: seq<Particle>, b: seq<Particle>, n: nat)
    requires n <= |ps| && n <= |a| && n <= |b|
    requires forall k :: 0 <= k < n ==> a[k].ptype == b[k].ptype
    ensures TypeChanges(ps, a, n) == TypeChanges(ps, b, n)
  {
    if n > 0 {
      TypeChangesFrame(ps, a, b, n - 1);
    }
  }

  /**
   * What one turn of the outer loop promises about the world it leaves (the
   * half of `ParticleTurn`'s contract the frame needs).
   */
  ghost predicate TurnDone(before: seq<Particle>, after: seq<Particle>, i: nat)
    requires i < |before| && AllPhysical(before)
  {
    && |after| == |before| && AllPhysical(after)
    && after[i].partners == Hits(Discs(Step(before, i)), i, 0)
    && (forall k :: 0 <= k < |before| && k != i ==> after[k] == before[k].(acc := after[k].acc))
    && ReactionStep(before[i], after[i])
    && (after[i].radius <= 240.0 ==> InField(after[i]))
    && after[i].pos == Confine(Update(before[i]).pos, after[i].radius)
    && (var r := CheckReaction(before[i], PartnerTypes(before, after[i].partners)).particle;
        after[i].ptype == r.ptype && ProfileOf(after[i]) == ProfileOf(r))
  }

  // Per-particle facts about a frame, indexed so that a quantifier over `k`
  // only fires on the fact itself and not on every particle term in sight.

  /** Particle `k`'s collision list is what its own sweep found (see `SweepView`). */
  predicate FoundPartners(ps: seq<Particle>, qs: seq<Particle>, k: nat)
    requires |qs| == |ps| && k < |ps|
  {
    qs[k].partners == Hits(SweepView(ps, qs, k), k, 0)
  }

  /** Particle `k` lies inside the field if it fits in it. */
  predicate InFieldIfFits(qs: seq<Particle>, k: nat)
    requires k < |qs|
  {
    qs[k].radius <= 240.0 ==> InField(qs[k])
  }

  /** Particle `k` has kept its type and properties or taken one row of the reaction table. */
  predicate Reacted(ps: seq<Particle>, qs: seq<Particle>, k: nat)
    requires k < |ps| && k < |qs|
  {
    ReactionStep(ps[k], qs[k])
  }

  /** Particle `k` sits where its own `update` put it whenever that point fits the field. */
  predicate SteppedInPlace(ps: seq<Particle>, qs: seq<Particle>, k: nat)
    requires k < |ps| && k < |qs|
  {
    InField(Update(ps[k]).(radius := qs[k].radius)) ==> qs[k].pos == Update(ps[k]).pos
  }

  /** Particle `k` sits where the boundary block put its stepped centre. */
  predicate Confined(ps: seq<Particle>, qs: seq<Particle>, k: nat)
    requires k < |ps| && k < |qs|
  {
    qs[k].pos == Confine(Update(ps[k]).pos, qs[k].radius)
  }

  /**
   * The world particle `k` reacts in: the particles before it as the frame
   * leaves them, the others as they started.
   */
  function TurnWorld(ps: seq<Particle>, qs: seq<Particle>, k: nat): (w: seq<Particle>)
    requires |qs| == |ps| && k <= |ps|
    ensures |w| == |ps|
    ensures forall m :: 0 <= m < k ==> w[m] == qs[m]
    ensures forall m :: k <= m < |ps| ==> w[m] == ps[m]
  {
    qs[..k] + ps[k..]
  }

  /** Particle `k` took the reaction table's row for the types its partners had at its turn. */
  predicate ReactedToPartners(ps: seq<Particle>, qs: seq<Particle>, k: nat)
    requires |qs| == |ps| && k < |ps|
  {
    && (forall n :: 0 <= n < |qs[k].partners| ==> qs[k].partners[n] < |ps|)
    && (var r := CheckReaction(ps[k], PartnerTypes(TurnWorld(ps, qs, k), qs[k].partners)).particle;
        qs[k].ptype == r.ptype && ProfileOf(qs[k]) == ProfileOf(r))
  }

  /** The state of the frame once the particles before `i` have had their turn. */
  ghost predicate TickInvariant(ps: seq<Particle>, qs: seq<Particle>, i: nat)
    requires i <= |ps|
  {
    && |qs| == |ps| && AllPhysical(qs)
    && (forall k :: i <= k < |ps| ==> qs[k] == ps[k].(acc := qs[k].acc))
    && (forall k :: 0 <= k < i ==> FoundPartners(ps, qs, k))
    && (forall k :: 0 <= k < i ==> InFieldIfFits(qs, k))
    && (forall k :: 0 <= k < i ==> Reacted(ps, qs, k))
    && (forall k :: 0 <= k < i ==> Confined(ps, qs, k))
    && (forall k :: 0 <= k < i ==> ReactedToPartners(ps, qs, k))
  }

  /** After turn `i` the collision lists of particles `0..i` are still what their sweeps found. */
  lemma TurnKeepsPartners(ps: seq<Particle>, qs: seq<Particle>, next: seq<Particle>, i: nat)
    requires i < |ps| && |qs| == |ps| && |next| == |ps| && AllPhysical(qs)
    requires forall k :: i <= k < |ps| ==> qs[k] == ps[k].(acc := qs[k].acc)
    requires forall k :: 0 <= k < i ==> FoundPartners(ps, qs, k)
    requires next[i].partners == Hits(Discs(Step(qs, i)), i, 0)
    requires forall k :: 0 <= k < |ps| && k != i ==> next[k] == qs[k].(acc := next[k].acc)
    ensures forall k :: 0 <= k < i + 1 ==> FoundPartners(ps, next, k)
  {
    CurrentView(ps, qs, next, i);
    assert FoundPartners(ps, next, i);
    forall k | 0 <= k < i
      ensures FoundPartners(ps, next, k)
    {
      assert FoundPartners(ps, qs, k);
      SweepViewFrame(ps, next, qs, k);
    }
  }

  /** After turn `i` particles `0..i` each still hold one step of the reaction table. */
  lemma TurnKeepsReactions(ps: seq<Particle>, qs: seq<Particle>, next: seq<Particle>, i: nat)
    requires i < |ps| && |qs| == |ps| && |next| == |ps|
    requires qs[i] == ps[i].(acc := qs[i].acc)
    requires forall k :: 0 <= k < i ==> Reacted(ps, qs, k)
    requires ReactionStep(qs[i], next[i])
    requires forall k :: 0 <= k < |ps| && k != i ==> next[k] == qs[k].(acc := next[k].acc)
    ensures forall k :: 0 <= k < i + 1 ==> Reacted(ps, next, k)
  {
    forall k | 0 <= k < i + 1
      ensures Reacted(ps, next, k)
    {
      if k < i {
        assert Reacted(ps, qs, k);
        ReactionStepKept(ps[k], qs[k], next[k]);
      } else {
        assert ProfileOf(qs[i]) == ProfileOf(ps[i]);
      }
    }
  }

  /** The sound count over particles `0..i` after turn `i`. */
  lemma TurnCountsSound(ps: seq<Particle>, qs: seq<Particle>, next: seq<Particle>, i: nat, fired: bool, sounds: nat)
    requires i < |ps| && |qs| == |ps| && |next| == |ps|
    requires qs[i].ptype == ps[i].ptype
    requires forall k :: 0 <= k < |ps| && k != i ==> next[k] == qs[k].(acc := next[k].acc)
    requires fired <==> next[i].ptype != qs[i].ptype
    requires sounds == TypeChanges(ps, qs, i)
    ensures (if fired then sounds + 1 else sounds) == TypeChanges(ps, next, i + 1)
  {
    TypeChangesFrame(ps, next, qs, i);
  }

  /**
   * After turn `i` the particles after `i` have still changed only in
   * acceleration, and those up to `i` that were in the field still are.
   */
  lemma TurnKeepsPlaces(ps: seq<Particle>, qs: seq<Particle>, next: seq<Particle>, i: nat)
    requires i < |ps| && |qs| == |ps| && |next| == |ps|
    requires forall k :: i <= k < |ps| ==> qs[k] == ps[k].(acc := qs[k].acc)
    requires forall k :: 0 <= k < i ==> InFieldIfFits(qs, k)
    requires InFieldIfFits(next, i)
    requires forall k :: 0 <= k < |ps| && k != i ==> next[k] == qs[k].(acc := next[k].acc)
    ensures forall k :: i + 1 <= k < |ps| ==> next[k] == ps[k].(acc := next[k].acc)
    ensures forall k :: 0 <= k < i + 1 ==> InFieldIfFits(next, k)
  {
    forall k | i + 1 <= k < |ps|
      ensures next[k] == ps[k].(acc := next[k].acc)
    {
      assert next[k] == qs[k].(acc := next[k].acc);
    }
    forall k | 0 <= k < i
      ensures InFieldIfFits(next, k)
    {
      assert InFieldIfFits(qs, k);
      assert next[k].pos == qs[k].pos && next[k].radius == qs[k].radius;
    }
  }

  /**
   * After turn `i` the particles up to `i` still sit where the boundary block
   * put their stepped centres.
   */
  lemma TurnKeepsConfined(ps: seq<Particle>, qs: seq<Particle>, next: seq<Particle>, i: nat)
    requires i < |ps| && |qs| == |ps| && |next| == |ps|
    requires qs[i] == ps[i].(acc := qs[i].acc)
    requires forall k :: 0 <= k < i ==> Confined(ps, qs, k)
    requires next[i].pos == Confine(Update(qs[i]).pos, next[i].radius)
    requires forall k :: 0 <= k < |ps| && k != i ==> next[k] == qs[k].(acc := next[k].acc)
    ensures forall k :: 0 <= k < i + 1 ==> Confined(ps, next, k)
  {
    assert Update(qs[i]).pos == Update(ps[i]).pos;
    assert Confined(ps, next, i);
    forall k | 0 <= k < i
      ensures Confined(ps, next, k)
    {
      assert Confined(ps, qs, k);
      assert next[k].pos == qs[k].pos && next[k].radius == qs[k].radius;
    }
  }

  /**
   * After turn `i` the particles up to `i` still carry the reaction row their
   * partners' types chose at their turns.
   */
  lemma TurnKeepsReactionRows(ps: seq<Particle>, qs: seq<Particle>, next: seq<Particle>, i: nat)
    requires i < |ps| && |qs| == |ps| && |next| == |ps|
    requires forall k :: i <= k < |ps| ==> qs[k] == ps[k].(acc := qs[k].acc)
    requires forall k :: 0 <= k < i ==> ReactedToPartners(ps, qs, k)
    requires forall n :: 0 <= n < |next[i].partners| ==> next[i].partners[n] < |ps|
    requires var r := CheckReaction(qs[i], PartnerTypes(qs, next[i].partners)).particle;
      next[i].ptype == r.ptype && ProfileOf(next[i]) == ProfileOf(r)
    requires forall k :: 0 <= k < |ps| && k != i ==> next[k] == qs[k].(acc := next[k].acc)
    ensures forall k :: 0 <= k < i + 1 ==> ReactedToPartners(ps, next, k)
  {
    var here := TurnWorld(ps, next, i);
    forall m | 0 <= m < |ps|
      ensures here[m].ptype == qs[m].ptype
    {
      if m < i {
        assert here[m] == next[m];
      } else {
        assert here[m] == ps[m];
      }
    }
    PartnerTypesReadTypes(here, qs, next[i].partners);
    ReactionStepKept(ps[i], qs[i], qs[i]);
    ReactionReadsTypeAndProfile(qs[i], ps[i], PartnerTypes(qs, next[i].partners));
    assert ReactedToPartners(ps, next, i);
    forall k | 0 <= k < i
      ensures ReactedToPartners(ps, next, k)
    {
      assert ReactedToPartners(ps, qs, k);
      var before := TurnWorld(ps, qs, k);
      var after := TurnWorld(ps, next, k);
      forall m | 0 <= m < |ps|
        ensures after[m].ptype == before[m].ptype
      {
        if m < k {
          assert after[m] == next[m] && before[m] == qs[m];
        }
      }
      PartnerTypesReadTypes(after, before, qs[k].partners);
      assert next[k] == qs[k].(acc := next[k].acc);
    }
  }

  /** Turn `i` keeps what the earlier turns established and adds particle `i` to it. */
  lemma TurnExtendsTick(ps: seq<Particle>, qs: seq<Particle>, next: seq<Particle>, i: nat)
    requires i < |ps| && TickInvariant(ps, qs, i)
    requires TurnDone(qs, next, i)
    ensures TickInvariant(ps, next, i + 1)
  {
    TurnKeepsPartners(ps, qs, next, i);
    TurnKeepsReactions(ps, qs, next, i);
    TurnKeepsPlaces(ps, qs, next, i);
    TurnKeepsConfined(ps, qs, next, i);
    TurnKeepsReactionRows(ps, qs, next, i);
  }

  /** One pass of the particle loop: particle `i` takes its turn and the sound count follows. */
  method TickTurn(ps: seq<Particle>, qs: seq<Particle>, i: nat, gravity: Vec, sounds: nat)
    returns (next: seq<Particle>, count: nat)
    requires i < |ps| && TickInvariant(ps, qs, i)
    requires sounds == TypeChanges(ps, qs, i)
    ensures TickInvariant(ps, next, i + 1)
    ensures count == TypeChanges(ps, next, i + 1)
  {
    var fired;
    next, fired := ParticleTurn(qs, i, gravity);
    assert TurnDone(qs, next, i);
    TurnExtendsTick(ps, qs, next, i);
    TurnCountsSound(ps, qs, next, i, fired, sounds);
    count := if fired then sounds + 1 else sounds;
  }

  /**
   * The particle loop of `game.update` (one frame). No particle is added,
   * removed or moved to another index. Each particle's collision list is
   * exactly what its own sweep found, in descending index order, with earlier
   * particles where the frame leaves them, later ones where it found them and
   * itself just stepped. Each particle keeps its type or takes one row of the
   * reaction table, the sound hook fires once per particle whose type
   * changed, and every particle of radius at most 240 ends inside the field.
   */
  method Tick(ps: seq<Particle>, gravity: Vec) returns (qs: seq<Particle>, sounds: nat)
    requires AllPhysical(ps)
    ensures |qs| == |ps| && AllPhysical(qs)
    ensures forall k :: 0 <= k < |qs| ==> FoundPartners(ps, qs, k)
    ensures forall k :: 0 <= k < |qs| ==> InFieldIfFits(qs, k)
    ensures forall k :: 0 <= k < |qs| ==> Reacted(ps, qs, k)
    ensures forall k :: 0 <= k < |qs| ==> ReactedToPartners(ps, qs, k)
    ensures forall k :: 0 <= k < |qs| ==> SteppedInPlace(ps, qs, k)
    ensures forall k :: 0 <= k < |qs| ==> Confined(ps, qs, k)
    ensures sounds == TypeChanges(ps, qs, |ps|)
  {
    qs := ps;
    sounds := 0;
    var i := 0;
    while i < |ps|
      invariant 0 <= i <= |ps|
      invariant TickInvariant(ps, qs, i)
      invariant sounds == TypeChanges(ps, qs, i)
    {
      qs, sounds := TickTurn(ps, qs, i, gravity, sounds);
      i := i + 1;
    }
    forall k | 0 <= k < |qs|
      ensures SteppedInPlace(ps, qs, k)
    {
      assert Confined(ps, qs, k);
    }
  }

  // Winning and seeding

  /**
   * `checkSuccess`: the level is won when every particle is a catalyst (so an
   * empty world is won).
   */
  method CheckSuccess(ps: seq<Particle>) returns (won: bool)
    ensures won <==> forall k :: 0 <= k < |ps| ==> ps[k].ptype == CATALYST
  {
    won := true;
    var i := 0;
    while i < |ps|
      invariant 0 <= i <= |ps|
      invariant won <==> forall k :: 0 <= k < i ==> ps[k].ptype == CATALYST
    {
      if ps[i].ptype != CATALYST {
        won := false;
      }
      i := i + 1;
    }
  }

  /**
   * The seeding half of `game.reset`: in the demonstration state fifty demo
   * particles are appended from (320, 100) in rows of ten, the first row
   * holding eleven; any other state adds nothing.
   */
  method Reset(state: int, ps: seq<Particle>) returns (r: seq<Particle>)
    ensures state != MAIN_MECHANIC_DEMO ==> r == ps
    ensures state == MAIN_MECHANIC_DEMO ==>
      && |r| == |ps| + 50
      && r[..|ps|] == ps
      && (forall k :: |ps| <= k < |r| ==> r[k].ptype == DEMO && Physical(r[k]))
      && (forall k :: 0 <= k <= 10 ==> r[|ps|..][k].pos == Vec(320.0 + 10.0 * (k as real), 100.0))
      && r[|ps| + 11].pos == Vec(325.0, 110.0)
      && r[|ps| + 21].pos == Vec(325.0, 120.0)
  {
    if state == MAIN_MECHANIC_DEMO {
      r := MakeParticles(ps, DEMO, 50, 320.0, 100.0, 10);
      assert FactoryProfile(DEMO).radius == 5.0;
      assert forall k :: 0 <= k < 50 ==> r[|ps| + k] == Placed(DEMO, k, 320.0, 100.0, 10);
      forall k | |ps| <= k < |r|
        ensures r[k].ptype == DEMO && Physical(r[k])
      {
        assert r[k] == Placed(DEMO, k - |ps|, 320.0, 100.0, 10);
      }
      forall k | 0 <= k <= 10
        ensures r[|ps|..][k].pos == Vec(320.0 + 10.0 * (k as real), 100.0)
      {
        assert r[|ps|..][k] == Placed(DEMO, k, 320.0, 100.0, 10);
        assert k == 0 || (k - 1) / 10 == 0;
      }
      assert r[|ps| + 11] == Placed(DEMO, 11, 320.0, 100.0, 10);
      assert r[|ps| + 21] == Placed(DEMO, 21, 320.0, 100.0, 10);
    } else {
      r := ps;
    }
  }
}
