/**
 * Particles: the per-type factory, grid seeding, the overlap test, the
 * reaction automaton, force application and the kinematic step.
 *
 * A particle is an immutable record. The source's type tag is a string and
 * is compared as one, so it stays a `string` here; the collision list holds
 * the INDICES of the partners in the world's particle sequence rather than
 * references to them.
 */
module GameObjects {
  import opened Vector2D

  // The type tags the engine knows. Any other string is a legal type too.
  const CATALYST: string := "catalyst"
  const CATALYST2: string := "catalyst2"
  const OXYGEN: string := "oxygen"
  const DEMO: string := "demo"

  /** The properties a type assigns to a particle. */
  datatype Profile = Profile(mass: real, radius: real, color: string, density: real)

  datatype Particle = Particle(
    ptype: string,
    color: string,
    mass: real,
    radius: real,
    density: real,
    pos: Vec,
    vel: Vec,
    acc: Vec,
    partners: seq<nat>)  // the collision list, as indices

  function ProfileOf(p: Particle): Profile
  {
    Profile(p.mass, p.radius, p.color, p.density)
  }

  /** `p` retyped to `t` with the properties of `pr`; its kinematic state is kept. */
  function WithProfile(p: Particle, t: string, pr: Profile): Particle
  {
    p.(ptype := t, mass := pr.mass, radius := pr.radius, color := pr.color, density := pr.density)
  }

  /** The invariant that keeps `1 / mass` defined: every particle has positive mass and radius. */
  predicate Physical(p: Particle)
  {
    p.mass > 0.0 && p.radius > 0.0
  }

  predicate PositiveProfile(pr: Profile)
  {
    pr.mass > 0.0 && pr.radius > 0.0 && pr.density > 0.0
  }

  // Construction

  /** The `switch` of `makeParticle`: "demo" and every unknown string share the last row. */
  function FactoryProfile(t: string): (pr: Profile)
    ensures PositiveProfile(pr)
  {
    if t == CATALYST then Profile(2.2, 3.0, "red", 1.45)
    else if t == CATALYST2 then Profile(6.4, 7.0, "blue", 0.65)
    else if t == OXYGEN then Profile(0.5, 10.0, "purple", 0.1)
    else Profile(4.0, 5.0, "green", 1.0)
  }

  /** An unknown type is built with the demo properties but keeps its own tag. */
  lemma UnknownTypeGetsDemoProfile(t: string, x: real, y: real)
    requires t !in {CATALYST, CATALYST2, OXYGEN}
    ensures FactoryProfile(t) == FactoryProfile(DEMO)
    ensures NewParticle(t, x, y).ptype == t
  {
  }

  /** The `Particle` constructor followed by the profile switch. */
  function NewParticle(t: string, x: real, y: real): (p: Particle)
    ensures p.ptype == t && p.pos == Vec(x, y)
    ensures p.vel == Zero && p.acc == Zero && p.partners == []
    ensures ProfileOf(p) == FactoryProfile(t)
    ensures Physical(p)
  {
    var pr := FactoryProfile(t);
    Particle(t, pr.color, pr.mass, pr.radius, pr.density, Vec(x, y), Zero, Zero, [])
  }

  /**
   * `makeParticle(type, x, y)`: builds a particle, appends it to the world's
   * list and returns it.
   */
  function MakeParticle(particles: seq<Particle>, t: string, x: real, y: real): (r: (seq<Particle>, Particle))
    ensures |r.0| == |particles| + 1
    ensures r.0[..|particles|] == particles && r.0[|particles|] == r.1
    ensures r.1 == NewParticle(t, x, y)
  {
    var p := NewParticle(t, x, y);
    (particles + [p], p)
  }

  function Abs(n: int): nat
  {
    if n < 0 then -n else n
  }

  /**
   * Whether batch index `i` closes a row in `makeParticles`. JavaScript's
   * `i % rowLength == 0 && i != 0`: for a zero row length the remainder is
   * NaN and never equals 0, and for a negative one it is zero exactly when
   * it is zero for the absolute value.
   */
  predicate ClosesRow(i: nat, rowLength: int)
  {
    rowLength != 0 && i != 0 && i % Abs(rowLength) == 0
  }

  /**
   * Closed form of the grid packing: where the `k`-th particle of a batch
   * lands, for particles of radius `r` and a row length whose absolute value
   * is `width` (0 = rows never close). The first row holds `width + 1`
   * particles spaced one diameter apart from the start point; every later row
   * holds `width` particles and starts half a diameter right of it.
   */
  function GridSlot(k: nat, startX: real, startY: real, r: real, width: nat): Vec
  {
    if k == 0 || width == 0 || (k - 1) / width == 0 then
      Vec(startX + 2.0 * r * (k as real), startY)
    else
      Vec(startX + r + 2.0 * r * (((k - 1) % width) as real),
          startY + 2.0 * r * (((k - 1) / width) as real))
  }

  lemma MulAtLeast(k: int, d: int)
    requires k >= 1 && d > 0
    ensures k * d >= d
  {
    assert k * d == (k - 1) * d + d;
    assert (k - 1) * d >= 0;
  }

  lemma DivModUnique(a: int, d: int, q: int, m: int)
    requires d > 0 && 0 <= m < d && a == q * d + m
    ensures a / d == q && a % d == m
  {
    var q', m' := a / d, a % d;
    assert a == q' * d + m';
    if q' < q {
      assert q * d == q' * d + (q - q') * d;
      MulAtLeast(q - q', d);
    } else if q' > q {
      assert q' * d == q * d + (q' - q) * d;
      MulAtLeast(q' - q, d);
    }
  }

  /** One more diameter: `2r(n + 1) = 2rn + 2r`. */
  lemma NextDiameter(r: real, n: int)
    ensures 2.0 * r * ((n + 1) as real) == 2.0 * r * (n as real) + r * 2.0
  {
  }

  /** The slot after the last one of a row is the start of the next row. */
  lemma GridSlotAfterRow(i: nat, w: nat, q: nat, startX: real, startY: real, r: real)
    requires w > 0 && i > 0
    requires (i - 1) / w == q && i / w == q + 1 && i % w == 0
    ensures GridSlot(i + 1, startX, startY, r, w) == Vec(startX + r, GridSlot(i, startX, startY, r, w).y + r * 2.0)
  {
    NextDiameter(r, q);
  }

  /** Inside a row the next slot is one diameter to the right. */
  lemma GridSlotInRow(i: nat, w: nat, q: nat, m: nat, startX: real, startY: real, r: real)
    requires w > 0 && i > 0
    requires (i - 1) / w == q && (i - 1) % w == m && i / w == q && i % w == m + 1
    ensures var cur := GridSlot(i, startX, startY, r, w);
            GridSlot(i + 1, startX, startY, r, w) == Vec(cur.x + r * 2.0, cur.y)
  {
    NextDiameter(r, m);
    NextDiameter(r, i);
  }

  /** One turn of the `makeParticles` loop moves the offsets from slot `i` to slot `i + 1`. */
  lemma GridSlotStep(i: nat, startX: real, startY: real, r: real, rowLength: int)
    ensures var cur := GridSlot(i, startX, startY, r, Abs(rowLength));
            GridSlot(i + 1, startX, startY, r, Abs(rowLength))
            == if ClosesRow(i, rowLength) then Vec(startX + r, cur.y + r * 2.0)
               else Vec(cur.x + r * 2.0, cur.y)
  {
    var w := Abs(rowLength);
    if w == 0 || i == 0 {
      NextDiameter(r, i);
      assert !ClosesRow(i, rowLength);
    } else {
      var q, m := (i - 1) / w, (i - 1) % w;
      assert i - 1 == q * w + m;
      if m == w - 1 {
        DivModUnique(i, w, q + 1, 0);
        assert ClosesRow(i, rowLength);
        GridSlotAfterRow(i, w, q, startX, startY, r);
      } else {
        DivModUnique(i, w, q, m + 1);
        assert !ClosesRow(i, rowLength);
        GridSlotInRow(i, w, q, m, startX, startY, r);
      }
    }
  }

  /** The particle `makeParticles` places `k`-th: a fresh particle of type `t` at its grid slot. */
  function Placed(t: string, k: nat, startX: real, startY: real, rowLength: int): Particle
  {
    var slot := GridSlot(k, startX, startY, FactoryProfile(t).radius, Abs(rowLength));
    NewParticle(t, slot.x, slot.y)
  }

  /**
   * `makeParticles(type, amount, startX, startY, rowLength)`: appends `amount`
   * particles of one type (none when `amount` is not positive), laid out in
   * the grid described by `GridSlot`.
   */
  method MakeParticles(particles: seq<Particle>, t: string, amount: int, startX: real, startY: real, rowLength: int)
    returns (r: seq<Particle>)
    ensures |r| == |particles| + (if amount > 0 then amount else 0)
    ensures r[..|particles|] == particles
    ensures forall k :: 0 <= k < |r| - |particles| ==>
      r[|particles| + k] == Placed(t, k, startX, startY, rowLength)
  {
    var rad := FactoryProfile(t).radius;
    var offsetX, offsetY := startX, startY;
    r := particles;
    var i := 0;
    while i < amount
      invariant 0 <= i <= (if amount > 0 then amount else 0)
      invariant |r| == |particles| + i
      invariant r[..|particles|] == particles
      invariant forall k :: 0 <= k < i ==> r[|particles| + k] == Placed(t, k, startX, startY, rowLength)
      invariant Vec(offsetX, offsetY) == GridSlot(i, startX, startY, rad, Abs(rowLength))
    {
      var made := MakeParticle(r, t, offsetX, offsetY);
      assert made.1 == Placed(t, i, startX, startY, rowLength);
      r := made.0;
      var particle := made.1;
      offsetX := offsetX + particle.radius * 2.0;
      if ClosesRow(i, rowLength) {
        offsetX := startX + particle.radius;
        offsetY := offsetY + particle.radius * 2.0;
      }
      GridSlotStep(i, startX, startY, rad, rowLength);
      i := i + 1;
    }
  }

  // Overlap

  /** The part of a particle the overlap test reads. */
  datatype Disc = Disc(center: Vec, radius: real)

  function DiscOf(p: Particle): Disc
  {
    Disc(p.pos, p.radius)
  }

  /** The engine's overlap test: squared centre distance against the SUM OF SQUARED radii. */
  predicate Overlaps(a: Disc, b: Disc)
  {
    MagSq(VectorBetween(a.center, b.center)) <= a.radius * a.radius + b.radius * b.radius
  }

  /** The test does not depend on which disc asks. */
  lemma OverlapsSymmetric(a: Disc, b: Disc)
    ensures Overlaps(a, b) <==> Overlaps(b, a)
  {
    BetweenAntisymmetric(a.center, b.center);
  }

  /**
   * For discs with non-negative radii the test is stricter than real circle
   * intersection: whatever it reports as overlapping does intersect.
   */
  lemma OverlapsIsStricterThanIntersection(a: Disc, b: Disc)
    requires a.radius >= 0.0 && b.radius >= 0.0
    ensures Overlaps(a, b) ==>
      MagSq(VectorBetween(a.center, b.center)) <= (a.radius + b.radius) * (a.radius + b.radius)
  {
    SquaresBelowSquaredSum(a.radius, b.radius);
  }

  /** Two unit discs two units apart touch, yet the test does not report them. */
  lemma TouchingDiscsNotReported()
    ensures var c := Disc(Zero, 1.0);
            var d := Disc(Vec(2.0, 0.0), 1.0);
            !Overlaps(c, d) && MagSq(VectorBetween(c.center, d.center)) == (c.radius + d.radius) * (c.radius + d.radius)
  {
  }

  lemma SquaresBelowSquaredSum(u: real, v: real)
    requires u >= 0.0 && v >= 0.0
    ensures u * u + v * v <= (u + v) * (u + v)
  {
    assert (u + v) * (u + v) == u * u + 2.0 * (u * v) + v * v;
    assert u * v >= 0.0;
  }

  /**
   * `p.collidingWith(o)` for the partner `o` found at index `j`: reports the
   * overlap and, when there is one, appends `j` to `p`'s collision list. The
   * partner itself is not touched.
   */
  function CollidingWith(p: Particle, o: Particle, j: nat): (r: (bool, Particle))
    ensures r.0 <==> Overlaps(DiscOf(p), DiscOf(o))
    ensures r.0 ==> r.1 == p.(partners := p.partners + [j])
    ensures !r.0 ==> r.1 == p
  {
    var distSq := MagSq(VectorBetween(p.pos, o.pos));
    if distSq <= p.radius * p.radius + o.radius * o.radius then
      (true, p.(partners := p.partners + [j]))
    else
      (false, p)
  }

  // Reactions

  // The properties a reaction writes. They differ from the factory table in
  // three places (demo -> catalyst mass and density, catalyst -> catalyst2
  // density, catalyst2 -> demo mass).
  const CatalystFromDemo: Profile := Profile(2.1, 3.0, "red", 1.25)
  const Catalyst2FromCatalyst: Profile := Profile(6.4, 7.0, "blue", 0.85)
  const OxygenFromCatalyst2: Profile := Profile(0.5, 10.0, "purple", 0.1)
  const DemoFromCatalyst2: Profile := Profile(1.0, 5.0, "green", 1.0)

  lemma ReactionProfilesDifferFromFactory()
    ensures CatalystFromDemo != FactoryProfile(CATALYST)
    ensures Catalyst2FromCatalyst != FactoryProfile(CATALYST2)
    ensures DemoFromCatalyst2 != FactoryProfile(DEMO)
    ensures OxygenFromCatalyst2 == FactoryProfile(OXYGEN)
    ensures PositiveProfile(CatalystFromDemo) && PositiveProfile(Catalyst2FromCatalyst)
    ensures PositiveProfile(OxygenFromCatalyst2) && PositiveProfile(DemoFromCatalyst2)
  {
  }

  /**
   * The reaction table, read as "a particle of type `self` reacts when these
   * partner types are present".
   */
  predicate ReactsWith(self: string, partnerTypes: seq<string>)
  {
    || (self == DEMO && CATALYST in partnerTypes)
    || (self == CATALYST && CATALYST2 in partnerTypes)
    || (self == CATALYST2 && (DEMO in partnerTypes || OXYGEN in partnerTypes))
  }

  /**
   * `q` carries `p`'s type and properties, or what one row of the reaction
   * table turns them into.
   */
  predicate ReactionStep(p: Particle, q: Particle)
  {
    || (q.ptype == p.ptype && ProfileOf(q) == ProfileOf(p))
    || (p.ptype == DEMO && q.ptype == CATALYST && ProfileOf(q) == CatalystFromDemo)
    || (p.ptype == CATALYST && q.ptype == CATALYST2 && ProfileOf(q) == Catalyst2FromCatalyst)
    || (p.ptype == CATALYST2 && q.ptype == OXYGEN && ProfileOf(q) == OxygenFromCatalyst2)
    || (p.ptype == CATALYST2 && q.ptype == DEMO && ProfileOf(q) == DemoFromCatalyst2)
  }

  /** The two flags of `checkReaction`. */
  datatype Flags = Flags(shouldReact: bool, alternate: bool)

  /**
   * The partner loop of `checkReaction`: the partners' types are visited in
   * list order and each may raise `shouldReact`, and an oxygen partner of a
   * catalyst2 also raises `alternate`.
   */
  function ScanPartners(self: string, partnerTypes: seq<string>): (f: Flags)
    ensures f.shouldReact <==> ReactsWith(self, partnerTypes)
    ensures f.alternate <==> (self == CATALYST2 && OXYGEN in partnerTypes)
  {
    if |partnerTypes| == 0 then Flags(false, false)
    else
      var before := partnerTypes[..|partnerTypes| - 1];
      var t := partnerTypes[|partnerTypes| - 1];
      assert partnerTypes == before + [t];
      var f := ScanPartners(self, before);
      if t == CATALYST && self == DEMO then f.(shouldReact := true)
      else if t == CATALYST2 && self == CATALYST then f.(shouldReact := true)
      else if t == DEMO && self == CATALYST2 then f.(shouldReact := true)
      else if t == OXYGEN && self == CATALYST2 then Flags(true, true)
      else f
  }

  /** A particle after `checkReaction`, and whether the sound hook fired. */
  datatype Reaction = Reaction(particle: Particle, fired: bool)

  /**
   * `p.checkReaction()` against the types of the particles in its collision
   * list. The hook fires exactly when the particle changes type, and the
   * outcome is the reaction table's; catalyst2 meeting oxygen wins over
   * catalyst2 meeting demo. Oxygen and unknown types never react.
   */
  function CheckReaction(p: Particle, partnerTypes: seq<string>): (r: Reaction)
    ensures r.fired <==> ReactsWith(p.ptype, partnerTypes)
    ensures r.fired <==> r.particle.ptype != p.ptype
    ensures !r.fired ==> r.particle == p
    ensures p.ptype == DEMO && CATALYST in partnerTypes ==>
      r.particle == WithProfile(p, CATALYST, CatalystFromDemo)
    ensures p.ptype == CATALYST && CATALYST2 in partnerTypes ==>
      r.particle == WithProfile(p, CATALYST2, Catalyst2FromCatalyst)
    ensures p.ptype == CATALYST2 && OXYGEN in partnerTypes ==>
      r.particle == WithProfile(p, OXYGEN, OxygenFromCatalyst2)
    ensures p.ptype == CATALYST2 && DEMO in partnerTypes && OXYGEN !in partnerTypes ==>
      r.particle == WithProfile(p, DEMO, DemoFromCatalyst2)
    ensures ReactionStep(p, r.particle)
    ensures r.particle.(ptype := p.ptype, mass := p.mass, radius := p.radius, color := p.color, density := p.density) == p
    ensures Physical(p) ==> Physical(r.particle)
  {
    var flags := ScanPartners(p.ptype, partnerTypes);
    // `shouldReact` is only ever raised for demo, catalyst and catalyst2
    // particles, so the switch's logging default branch is unreachable.
    if !flags.shouldReact then Reaction(p, false)
    else if p.ptype == DEMO then Reaction(WithProfile(p, CATALYST, CatalystFromDemo), true)
    else if p.ptype == CATALYST then Reaction(WithProfile(p, CATALYST2, Catalyst2FromCatalyst), true)
    else if flags.alternate then Reaction(WithProfile(p, OXYGEN, OxygenFromCatalyst2), true)
    else Reaction(WithProfile(p, DEMO, DemoFromCatalyst2), true)
  }

  /** Only the SET of partner types matters: not their order, not how often each occurs. */
  lemma ReactionDependsOnTypeSet(p: Particle, a: seq<string>, b: seq<string>)
    requires forall t :: t in a <==> t in b
    ensures CheckReaction(p, a) == CheckReaction(p, b)
  {
  }

  // Forces and the kinematic step

  /**
   * `p.addForce(f)`: Newton's second law, the acceleration grows by `f /
   * mass`; nothing else changes.
   */
  function AddForce(p: Particle, f: Vec): (r: Particle)
    requires p.mass != 0.0
    ensures r.mass * (r.acc.x - p.acc.x) == f.x
    ensures r.mass * (r.acc.y - p.acc.y) == f.y
    ensures r.(acc := p.acc) == p
  {
    p.(acc := Add(p.acc, Scale(f, 1.0 / p.mass)))
  }

  /** `p.addGravity(f)`: the force is first weighted by the particle's density. */
  function AddGravity(p: Particle, f: Vec): (r: Particle)
    requires p.mass != 0.0
    ensures r.mass * (r.acc.x - p.acc.x) == p.density * f.x
    ensures r.mass * (r.acc.y - p.acc.y) == p.density * f.y
    ensures r.(acc := p.acc) == p
  {
    AddForce(p, Scale(f, p.density))
  }

  /** Two forces applied one after the other act as their sum. */
  lemma AddForceAccumulates(p: Particle, f: Vec, g: Vec)
    requires p.mass != 0.0
    ensures AddForce(AddForce(p, f), g) == AddForce(p, Add(f, g))
  {
  }

  /**
   * `p.update()`: the position advances by half the OLD velocity, the
   * velocity by the old acceleration, then acceleration and collision list
   * are cleared. The source's `dt` argument is never read.
   */
  function Update(p: Particle): (r: Particle)
    ensures VectorBetween(p.pos, r.pos) == Scale(p.vel, 0.5)
    ensures VectorBetween(p.vel, r.vel) == p.acc
    ensures r.acc == Zero && r.partners == []
    ensures r.(pos := p.pos, vel := p.vel, acc := p.acc, partners := p.partners) == p
  {
    var tempVelocity := Scale(p.vel, 0.5);
    p.(pos := Add(p.pos, tempVelocity), vel := Add(p.vel, p.acc), acc := Zero, partners := [])
  }

  /**
   * Two steps with no force in between: the second half-step already sees the
   * accelerated velocity.
   */
  lemma UpdateTwice(p: Particle)
    ensures Update(Update(p)).pos ==
      Vec(p.pos.x + p.vel.x + 0.5 * p.acc.x, p.pos.y + p.vel.y + 0.5 * p.acc.y)
    ensures Update(Update(p)).vel == Add(p.vel, p.acc)
  {
  }

  /** `p.setPosition(x, y)`. */
  function SetPosition(p: Particle, x: real, y: real): (r: Particle)
    ensures r.pos == Vec(x, y)
    ensures r.(pos := p.pos) == p
  {
    p.(pos := Vec(x, y))
  }

  /**
   * `p.invertX(damp)`: the x velocity is reversed and scaled by `damp`. The
   * engine never calls it.
   */
  function InvertX(p: Particle, damp: real): (r: Particle)
    ensures r.vel.x == -(damp * p.vel.x) && r.vel.y == p.vel.y
    ensures r.(vel := p.vel) == p
  {
    p.(vel := Vec(p.vel.x * (-1.0 * damp), p.vel.y))
  }

  /**
   * `p.invertY(damp)`: the y velocity is reversed and scaled by `damp`. The
   * engine never calls it.
   */
  function InvertY(p: Particle, damp: real): (r: Particle)
    ensures r.vel.y == -(damp * p.vel.y) && r.vel.x == p.vel.x
    ensures r.(vel := p.vel) == p
  {
    p.(vel := Vec(p.vel.x, p.vel.y * (-1.0 * damp)))
  }

  /** Two inversions compose: undamped they cancel, damped they scale by both factors. */
  lemma InvertTwice(p: Particle, d: real, e: real)
    ensures InvertX(InvertX(p, 1.0), 1.0) == p
    ensures InvertY(InvertY(p, 1.0), 1.0) == p
    ensures InvertX(InvertX(p, d), e).vel.x == (d * e) * p.vel.x
    ensures InvertY(InvertY(p, d), e).vel.y == (d * e) * p.vel.y
  {
  }
}
