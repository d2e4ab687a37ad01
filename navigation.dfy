/**
 * The movement controller (`AGNavigation`): the collision rule, `move` with its
 * rollback, the eight rays shot over the mover's silhouette to find the point of
 * impact for the collision sound, and the key bindings with the key switch of
 * `draw`. The ray-box intersection, distances, `normalize`, the heading (`atan2`
 * rounded to whole degrees), the turn of the direction and the room's collision
 * and boundary queries are oracles, passed in as function values.
 */
module Navigation {
  import opened Optional
  import opened Geometry

  /** A game object as the collision rule sees it: its ID and its `type`. */
  datatype Body = Body(id: int, kind: string)

  datatype Physics = Physics(
    /** `frbIntersectionPoint(object, origin, direction)`: where the ray hits the
        object's box, if it does. */
    intersect: (Body, Vec3, Vec3) -> Option<Vec3>,
    /** `distanceTo`. */
    distance: (Vec3, Vec3) -> real,
    /** `normalize`. */
    normalize: Vec3 -> Vec3,
    /** `Math.round(180 * Math.atan2(d.x, d.z) / Math.PI)`. */
    heading: Vec3 -> int,
    /** `applyAxisAngle` around the vertical axis by a number of degrees. */
    turn: (Vec3, int) -> Vec3,
    trig: Trig)

  /**
   * The room of the mover: `collisions(id, position)` is what
   * `objectPartOfCollisions(room.collisions, object)` yields after
   * `room.checkForCollision()` with the mover at `position`;
   * `inside(position, size)` is `room.pointInsideRoom`.
   */
  datatype Room = Room(collisions: (int, Vec3) -> seq<Body>, inside: (Vec3, Vec3) -> bool)

  /** The observable effects of a key press on the audio communicator and the player. */
  datatype Effect =
    | DeleteDots
    | DrawDot(x: real, z: real)
    | PlayHitSound(at: Vec3)
    | Interacted

  // ---------------------------------------------------------------------------
  // The collision rule

  /** A collision list is allowed when it holds only the mover itself and portals. */
  predicate Allowed(mover: int, collisions: seq<Body>) {
    forall i | 0 <= i < |collisions| :: collisions[i].id == mover || collisions[i].kind == "PORTAL"
  }

  /** `allowedCollision`: false at the first entry that is neither the mover nor a
      portal; an empty list is allowed. */
  method AllowedCollision(mover: int, collisions: seq<Body>) returns (allowed: bool)
    ensures allowed <==> forall i | 0 <= i < |collisions| ::
      collisions[i].id == mover || collisions[i].kind == "PORTAL"
    ensures !allowed ==> |collisions| > 0
  {
    var i := 0;
    while i < |collisions|
      invariant 0 <= i <= |collisions|
      invariant forall j | 0 <= j < i :: collisions[j].id == mover || collisions[j].kind == "PORTAL"
    {
      if collisions[i].id != mover && collisions[i].kind != "PORTAL" {
        return false;
      }
      i := i + 1;
    }
    return true;
  }

  // ---------------------------------------------------------------------------
  // The eight rays

  /** Ray i starts at corner `RayOrigins[i]` and points towards corner `RayTargets[i]`. */
  const RayOrigins: seq<int> := [2, 3, 4, 1, 4, 3, 2, 1]
  const RayTargets: seq<int> := [1, 2, 3, 4, 1, 4, 3, 2]

  /** Corners k and l follow each other in the order p1-p2-p3-p4-p1. With the
      silhouette's corner layout, p1-p2 and p3-p4 are sides of the box while
      p2-p3 and p4-p1 are its diagonals (`Geometry.SilhouetteDiagonals`). */
  predicate Consecutive(k: int, l: int) {
    && 1 <= k <= 4 && 1 <= l <= 4
    && (l == k % 4 + 1 || k == l % 4 + 1)
  }

  /** There are eight rays, each between corners that are consecutive in the order
      p1-p2-p3-p4-p1; no two rays coincide, and every ray has its reverse among
      them, so each of those four segments (two sides, two diagonals) is cast
      once in each direction. */
  lemma RayPlan()
    ensures |RayOrigins| == |RayTargets| == 8
    ensures forall i | 0 <= i < 8 :: Consecutive(RayOrigins[i], RayTargets[i])
    ensures forall i, j | 0 <= i < j < 8 :: (RayOrigins[i], RayTargets[i]) != (RayOrigins[j], RayTargets[j])
    ensures forall i | 0 <= i < 8 :: exists j | 0 <= j < 8 :: RayOrigins[j] == RayTargets[i] && RayTargets[j] == RayOrigins[i]
  {
    assert RayOrigins[7] == RayTargets[0] && RayTargets[7] == RayOrigins[0];
    assert RayOrigins[6] == RayTargets[1] && RayTargets[6] == RayOrigins[1];
    assert RayOrigins[5] == RayTargets[2] && RayTargets[5] == RayOrigins[2];
    assert RayOrigins[4] == RayTargets[3] && RayTargets[4] == RayOrigins[3];
  }

  function CornerOf(q: Quad, k: int): Vec3 {
    if k == 1 then q.p1 else if k == 2 then q.p2 else if k == 3 then q.p3 else q.p4
  }

  /** The outcome of one ray: `extractPointToArray` yields the distance to the hit
      point, or 0 when the ray misses. */
  datatype RayHit = Miss | Hit(dist: real, point: Vec3)

  function Probe(target: Body, origin: Vec3, direction: Vec3, physics: Physics): RayHit {
    match physics.intersect(target, origin, direction)
    case None => Miss
    case Some(pt) => Hit(physics.distance(origin, pt), pt)
  }

  /** The start points of the eight rays: `points` of the raycast. */
  function RayPoints(q: Quad): seq<Vec3> {
    [q.p2, q.p3, q.p4, q.p1, q.p4, q.p3, q.p2, q.p1]
  }

  /** The corners the eight rays point towards. */
  function RayAims(q: Quad): seq<Vec3> {
    [q.p1, q.p2, q.p3, q.p4, q.p1, q.p4, q.p3, q.p2]
  }

  /** The normalised directions of the eight rays: `dirs` of the raycast. */
  function RayDirections(q: Quad, physics: Physics): (dirs: seq<Vec3>)
    ensures |dirs| == 8
  {
    seq(8, i requires 0 <= i < 8 => physics.normalize(RayAims(q)[i].Minus(RayPoints(q)[i])))
  }

  /** Ray i of the raycast starts at corner `RayOrigins[i]` and aims at corner `RayTargets[i]`. */
  lemma RaysFollowPlan(q: Quad)
    ensures |RayPoints(q)| == |RayAims(q)| == 8
    ensures forall i | 0 <= i < 8 ::
      RayPoints(q)[i] == CornerOf(q, RayOrigins[i]) && RayAims(q)[i] == CornerOf(q, RayTargets[i])
  {
  }

  /** The outcomes of shooting ray i from `points[i]` along `dirs[i]` at `target`. */
  function Shoot(target: Body, points: seq<Vec3>, dirs: seq<Vec3>, physics: Physics): (rs: seq<RayHit>)
    requires |points| == |dirs|
    ensures |rs| == |points|
  {
    seq(|points|, i requires 0 <= i < |points| => Probe(target, points[i], dirs[i], physics))
  }

  /** The results of the eight rays against `target`, in the order they are shot. */
  function Rays(target: Body, q: Quad, physics: Physics): seq<RayHit> {
    Shoot(target, RayPoints(q), RayDirections(q, physics), physics)
  }

  /** `Number.MAX_VALUE`, the starting value of `smallestDist`. */
  const MaxValue: real := 179769313486231570814527423731704356798070567525844996598917476803157260780028538760589558632766878171540458953514382464234321326889464182768467546703537516986049910576551282076245490090389328944075868508455133942304583236903222948165808559332123348274797826204144723168738177180919299881250404026184124858368.0

  /** A ray that can become the nearest hit: it hit, at a distance other than 0 and
      below the starting `smallestDist`. */
  predicate Eligible(h: RayHit) {
    h.Hit? && h.dist != 0.0 && h.dist < MaxValue
  }

  /**
   * `smallest` and `smallestDist` after the selection loop over the rays `rs`. The
   * result is `None` exactly when no ray is eligible; otherwise it is the point of
   * an eligible ray at the least distance, and the earliest such ray, since the
   * test is a strict `<`.
   */
  function Select(rs: seq<RayHit>): (r: (Option<Vec3>, real))
    ensures r.0.None? <==> forall i | 0 <= i < |rs| :: !Eligible(rs[i])
    ensures r.0.None? ==> r.1 == MaxValue
    ensures r.0.Some? ==> exists i | 0 <= i < |rs| ::
      && Eligible(rs[i]) && rs[i].point == r.0.value && rs[i].dist == r.1
      && forall j | 0 <= j < i :: Eligible(rs[j]) ==> rs[j].dist > r.1
    ensures forall j | 0 <= j < |rs| :: Eligible(rs[j]) ==> r.1 <= rs[j].dist
    decreases |rs|
  {
    if |rs| == 0 then (None, MaxValue)
    else
      var front := rs[..|rs| - 1];
      var last := rs[|rs| - 1];
      var best := Select(front);
      assert forall j | 0 <= j < |front| :: front[j] == rs[j];
      if last.Hit? && last.dist != 0.0 && last.dist < best.1 then
        (Some(last.point), last.dist)
      else
        best
  }

  /** The calls on the audio communicator (present or not) and the player's hit sound,
      given the nearest hit point. */
  function SoundEffects(audio: bool, kind: string, hasHitSound: bool, smallest: Option<Vec3>): seq<Effect> {
    if !audio then []
    else
      [DeleteDots]
      + match smallest
        case None => []
        case Some(p) => [DrawDot(p.x, p.z)] + if kind == "PLAYER" && hasHitSound then [PlayHitSound(p)] else []
  }

  /** What a mover holds: the fields that `move` and the raycast read. */
  datatype MoverView = MoverView(
    id: int, kind: string, hasHitSound: bool,
    position: Vec3, speed: Vec3, size: Vec3, direction: Vec3)

  /** The effects of `pointOfIntersectionForSound(target, object)`. */
  function ImpactEffects(target: Body, m: MoverView, physics: Physics, audio: bool): seq<Effect> {
    var q := Silhouette(m.position, m.size, GetAngle(physics.heading(m.direction)), physics.trig);
    SoundEffects(audio, m.kind, m.hasHitSound, Select(Rays(target, q, physics)).0)
  }

  /** The effects are made only with an audio communicator; a dot is drawn exactly
      when some ray is eligible, and the hit sound is played at the same point,
      only for a player that has one. */
  lemma ImpactEffectsCases(target: Body, m: MoverView, physics: Physics, audio: bool)
    ensures var q := Silhouette(m.position, m.size, GetAngle(physics.heading(m.direction)), physics.trig);
      var rs := Rays(target, q, physics);
      var effects := ImpactEffects(target, m, physics, audio);
      && (!audio ==> effects == [])
      && (audio ==> effects[0] == DeleteDots)
      && (audio && (exists i | 0 <= i < 8 :: Eligible(rs[i])) ==>
            |effects| >= 2 && effects[1] == DrawDot(Select(rs).0.value.x, Select(rs).0.value.z))
      && (audio && (forall i | 0 <= i < 8 :: !Eligible(rs[i])) ==> effects == [DeleteDots])
      && ((exists p :: PlayHitSound(p) in effects) <==>
            audio && m.kind == "PLAYER" && m.hasHitSound && exists i | 0 <= i < 8 :: Eligible(rs[i]))
  {
    var q := Silhouette(m.position, m.size, GetAngle(physics.heading(m.direction)), physics.trig);
    var rs := Rays(target, q, physics);
    var sel := Select(rs).0;
    if audio && sel.Some? && m.kind == "PLAYER" && m.hasHitSound {
      assert PlayHitSound(sel.value) in ImpactEffects(target, m, physics, audio);
    }
  }

  /** A mover: a game mover whose position `move` updates in place. */
  class Mover {
    const id: int
    const kind: string
    const hasHitSound: bool
    var position: Vec3
    var speed: Vec3
    var size: Vec3
    var direction: Vec3

    constructor (id: int, kind: string, hasHitSound: bool, position: Vec3, speed: Vec3, size: Vec3, direction: Vec3)
      ensures View() == MoverView(id, kind, hasHitSound, position, speed, size, direction)
    {
      this.id, this.kind, this.hasHitSound := id, kind, hasHitSound;
      this.position, this.speed, this.size, this.direction := position, speed, size, direction;
    }

    function View(): MoverView
      reads this
    {
      MoverView(id, kind, hasHitSound, position, speed, size, direction)
    }
  }

  /** `extractPointToArray`: a hit appends the hit point to `found` and yields its
      distance from `origin`; a miss leaves `found` alone and yields 0. */
  method ExtractPointToArray(target: Body, origin: Vec3, direction: Vec3, found: seq<Vec3>, physics: Physics)
    returns (dist: real, found': seq<Vec3>)
    ensures physics.intersect(target, origin, direction).None? ==> dist == 0.0 && found' == found
    ensures physics.intersect(target, origin, direction).Some? ==>
      var pt := physics.intersect(target, origin, direction).value;
      dist == physics.distance(origin, pt) && found' == found + [pt]
  {
    var pt := physics.intersect(target, origin, direction);
    if pt.Some? {
      found' := found + [pt.value];
      return physics.distance(origin, pt.value), found';
    }
    return 0.0, found;
  }

  /** The `points` and `dirs` arrays of the raycast over the silhouette p1..p4,
      built by pushes: ray i runs from corner `RayOrigins[i]` towards corner
      `RayTargets[i]`. */
  method BuildRays(p1: Vec3, p2: Vec3, p3: Vec3, p4: Vec3, physics: Physics)
    returns (points: seq<Vec3>, dirs: seq<Vec3>)
    ensures points == RayPoints(Quad(p1, p2, p3, p4))
    ensures dirs == RayDirections(Quad(p1, p2, p3, p4), physics)
  {
    points := [];
    points := points + [p2];
    points := points + [p3];
    points := points + [p4];
    points := points + [p1];
    points := points + [p4];
    points := points + [p3];
    points := points + [p2];
    points := points + [p1];

    dirs := [];
    dirs := dirs + [physics.normalize(p1.Minus(p2))];
    dirs := dirs + [physics.normalize(p2.Minus(p3))];
    dirs := dirs + [physics.normalize(p3.Minus(p4))];
    dirs := dirs + [physics.normalize(p4.Minus(p1))];
    dirs := dirs + [physics.normalize(p1.Minus(p4))];
    dirs := dirs + [physics.normalize(p4.Minus(p3))];
    dirs := dirs + [physics.normalize(p3.Minus(p2))];
    dirs := dirs + [physics.normalize(p2.Minus(p1))];

    ghost var q := Quad(p1, p2, p3, p4);
    assert forall i | 0 <= i < 8 :: dirs[i] == physics.normalize(RayAims(q)[i].Minus(RayPoints(q)[i]));
  }

  /** The loop over the eight rays that keeps `smallest` and `smallestDist`; the hit
      points are collected in `intersectPoints` and the hits in `pairDistancePoint`. */
  method NearestHit(target: Body, points: seq<Vec3>, dirs: seq<Vec3>, physics: Physics)
    returns (smallest: Option<Vec3>, smallestDist: real)
    requires |points| == 8 && |dirs| == 8
    ensures (smallest, smallestDist) == Select(Shoot(target, points, dirs, physics))
  {
    ghost var rays := Shoot(target, points, dirs, physics);
    var intersectPoints: seq<Vec3> := [];
    var pairDistancePoint: seq<(real, Vec3)> := [];
    smallest := None;
    smallestDist := MaxValue;

    for i := 0 to 8
      invariant (smallest, smallestDist) == Select(rays[..i])
    {
      var dist;
      dist, intersectPoints := ExtractPointToArray(target, points[i], dirs[i], intersectPoints, physics);
      assert rays[..i + 1][..i] == rays[..i];
      if dist != 0.0 {
        pairDistancePoint := pairDistancePoint + [(dist, intersectPoints[|intersectPoints| - 1])];
        if pairDistancePoint[|pairDistancePoint| - 1].0 < smallestDist {
          smallestDist := pairDistancePoint[|pairDistancePoint| - 1].0;
          smallest := Some(pairDistancePoint[|pairDistancePoint| - 1].1);
        }
      }
    }
    assert rays[..8] == rays;
  }

  /**
   * `pointOfIntersectionForSound(target, object)`: builds the silhouette of the
   * mover, shoots the eight rays at `target`, keeps the nearest hit and reports it
   * to the audio communicator (`audio`: whether `g_IAudiCom` is set).
   */
  method PointOfIntersectionForSound(target: Body, mover: Mover, physics: Physics, audio: bool)
    returns (effects: seq<Effect>)
    ensures effects == ImpactEffects(target, mover.View(), physics, audio)
  {
    var position, size := mover.position, mover.size;
    var p1 := MidHeight(ExtractPlanePoint(position, size, -1.0, 1.0, -1.0), ExtractPlanePoint(position, size, -1.0, -1.0, -1.0));
    var p2 := MidHeight(ExtractPlanePoint(position, size, 1.0, 1.0, -1.0), ExtractPlanePoint(position, size, 1.0, -1.0, -1.0));
    var p3 := MidHeight(ExtractPlanePoint(position, size, -1.0, 1.0, 1.0), ExtractPlanePoint(position, size, -1.0, -1.0, 1.0));
    var p4 := MidHeight(ExtractPlanePoint(position, size, 1.0, 1.0, 1.0), ExtractPlanePoint(position, size, 1.0, -1.0, 1.0));

    var angle := GetAngle(physics.heading(mover.direction));
    p1 := RotateAroundPoint(position, p1, angle, physics.trig);
    p2 := RotateAroundPoint(position, p2, angle, physics.trig);
    p3 := RotateAroundPoint(position, p3, angle, physics.trig);
    p4 := RotateAroundPoint(position, p4, angle, physics.trig);
    assert Quad(p1, p2, p3, p4) == Silhouette(position, size, angle, physics.trig);

    var points, dirs := BuildRays(p1, p2, p3, p4, physics);

    effects := [];
    if audio {
      effects := effects + [DeleteDots];
    }

    var smallest, smallestDist := NearestHit(target, points, dirs, physics);

    if audio && smallest.Some? {
      effects := effects + [DrawDot(smallest.value.x, smallest.value.z)];
      if mover.kind == "PLAYER" && mover.hasHitSound {
        effects := effects + [PlayHitSound(smallest.value)];
      }
    }
  }

  // ---------------------------------------------------------------------------
  // move

  /** The `timeDiff` of `move`: the milliseconds since the timestamp, in seconds, or
      1 when no timestamp is given. */
  function TimeDiff(elapsedMs: Option<real>): real {
    match elapsedMs
    case None => 1.0
    case Some(ms) => ms / 1000.0
  }

  /** The displacement `speed ⊙ direction · timeDiff`. */
  function Step(speed: Vec3, direction: Vec3, timeDiff: real): Vec3 {
    speed.Times(direction).Scale(timeDiff)
  }

  /**
   * The position and effects of `move(object, direction, timeStamp)`. The mover is
   * displaced first; on a disallowed collision the sound raycast runs from the
   * displaced position against the first colliding object and the displacement is
   * subtracted again; outside the room it is subtracted without a raycast.
   */
  function MoveOutcome(m: MoverView, direction: Vec3, timeDiff: real, room: Room, physics: Physics, audio: bool)
    : (Vec3, seq<Effect>)
  {
    var step := Step(m.speed, direction, timeDiff);
    var moved := m.position.Plus(step);
    var poc := room.collisions(m.id, moved);
    if !Allowed(m.id, poc) then
      (moved.Minus(step), ImpactEffects(poc[0], m.(position := moved), physics, audio))
    else if !room.inside(moved, m.size) then
      (moved.Minus(step), [])
    else
      (moved, [])
  }

  /**
   * `move` either keeps the displaced position or, when the collision is disallowed
   * or the mover would leave the room, ends where it started. Only the disallowed
   * collision makes sound effects, computed against the first colliding object from
   * the displaced position. That object is the first entry of the collision list,
   * which may be the mover itself or a portal rather than the object that made the
   * collision disallowed.
   */
  lemma MoveCases(m: MoverView, direction: Vec3, timeDiff: real, room: Room, physics: Physics, audio: bool)
    ensures var moved := m.position.Plus(Step(m.speed, direction, timeDiff));
      var poc := room.collisions(m.id, moved);
      var r := MoveOutcome(m, direction, timeDiff, room, physics, audio);
      && (!Allowed(m.id, poc) ==>
            |poc| > 0 && r == (m.position, ImpactEffects(poc[0], m.(position := moved), physics, audio)))
      && (Allowed(m.id, poc) && !room.inside(moved, m.size) ==> r == (m.position, []))
      && (Allowed(m.id, poc) && room.inside(moved, m.size) ==> r == (moved, []))
      && (r.0 == m.position || r.0 == moved)
  {
    var step := Step(m.speed, direction, timeDiff);
    var moved := m.position.Plus(step);
    assert moved.Minus(step) == m.position;
  }

  /** `move(object, direction, timeStamp)`, with the milliseconds elapsed since
      `timeStamp` in place of the clock (`None`: no timestamp). */
  method Move(mover: Mover, direction: Vec3, elapsedMs: Option<real>, room: Room, physics: Physics, audio: bool)
    returns (effects: seq<Effect>)
    modifies mover`position
    ensures (mover.position, effects) == MoveOutcome(old(mover.View()), direction, TimeDiff(elapsedMs), room, physics, audio)
  {
    var timeDiff: real;
    if elapsedMs.Some? {
      timeDiff := elapsedMs.value;
      timeDiff := timeDiff / 1000.0;
    } else {
      timeDiff := 1.0;
    }

    mover.position := mover.position.Plus(mover.speed.Times(direction).Scale(timeDiff));
    var poc := room.collisions(mover.id, mover.position);

    effects := [];
    var allowed := AllowedCollision(mover.id, poc);
    if !allowed {
      effects := PointOfIntersectionForSound(poc[0], mover, physics, audio);
      mover.position := mover.position.Minus(mover.speed.Times(direction).Scale(timeDiff));
    } else if !room.inside(mover.position, mover.size) {
      mover.position := mover.position.Minus(mover.speed.Times(direction).Scale(timeDiff));
    }
  }

  // ---------------------------------------------------------------------------
  // Key bindings and the key switch of `draw`

  /** The module-level `gForward`, `gBackward`, `gLeft`, `gRight` and `gInteract`:
      one set of key codes shared by every `AGNavigation` mover. */
  class KeyBindings {
    var forward: int
    var backward: int
    var left: int
    var right: int
    var interact: int

    constructor ()
    {
    }
  }

  datatype Intent = NoIntent | Forward | Backward | TurnLeft | TurnRight | Interact

  /** The cases of the key switch, in order. */
  const Intents: seq<Intent> := [Forward, Backward, TurnLeft, TurnRight, Interact]

  /**
   * The case of `draw`'s key switch that a key code selects: nothing for -1, which
   * is tested first; otherwise the first case in switch order whose key code is the
   * pressed one, so that a key bound twice does what the earlier case says.
   */
  function KeyIntent(code: int, bindings: seq<int>): (r: Intent)
    requires |bindings| == 5
    ensures code == -1 ==> r == NoIntent
    ensures code != -1 ==> (r == NoIntent <==> code !in bindings)
    ensures r != NoIntent ==> exists j | 0 <= j < 5 ::
      && bindings[j] == code && Intents[j] == r
      && forall k | 0 <= k < j :: bindings[k] != code
  {
    if code == -1 then NoIntent
    else if code == bindings[0] then Forward
    else if code == bindings[1] then Backward
    else if code == bindings[2] then TurnLeft
    else if code == bindings[3] then TurnRight
    else if code == bindings[4] then Interact
    else NoIntent
  }

  /** `AGNavigation`: its setters and constructor write the shared key bindings. */
  class Navigation {
    const id: int
    const keys: KeyBindings

    function Bindings(): seq<int>
      reads this, keys
    {
      [keys.forward, keys.backward, keys.left, keys.right, keys.interact]
    }

    constructor (id: int, keys: KeyBindings, forward: int, backward: int, left: int, right: int, interact: int)
      modifies keys
      ensures this.id == id && this.keys == keys
      ensures Bindings() == [forward, backward, left, right, interact]
    {
      this.id := id;
      this.keys := keys;
      new;
      keys.forward := forward;
      keys.backward := backward;
      keys.left := left;
      keys.right := right;
      keys.interact := interact;
    }

    method SetForward(value: int)
      modifies keys
      ensures Bindings() == old(Bindings())[0 := value]
    {
      keys.forward := value;
    }

    method SetBackward(value: int)
      modifies keys
      ensures Bindings() == old(Bindings())[1 := value]
    {
      keys.backward := value;
    }

    method SetLeft(value: int)
      modifies keys
      ensures Bindings() == old(Bindings())[2 := value]
    {
      keys.left := value;
    }

    method SetRight(value: int)
      modifies keys
      ensures Bindings() == old(Bindings())[3 := value]
    {
      keys.right := value;
    }

    method SetInteract(value: int)
      modifies keys
      ensures Bindings() == old(Bindings())[4 := value]
    {
      keys.interact := value;
    }

    /**
     * The `onkeydown` handler that `draw(player)` installs. Forward and backward
     * move the player along its direction and against it, without a timestamp;
     * left and right turn the direction by 8 degrees either way; interact makes
     * the player interact; any other key, and -1, does nothing.
     */
    method KeyDown(code: int, player: Mover, room: Room, physics: Physics, audio: bool)
      returns (effects: seq<Effect>)
      modifies player`position, player`direction
      ensures var intent := KeyIntent(code, old(Bindings()));
        var m := old(player.View());
        && (intent == Forward ==>
              player.direction == m.direction
              && (player.position, effects) == MoveOutcome(m, m.direction, 1.0, room, physics, audio))
        && (intent == Backward ==>
              player.direction == m.direction
              && (player.position, effects) == MoveOutcome(m, m.direction.Scale(-1.0), 1.0, room, physics, audio))
        && (intent == TurnLeft ==>
              player.direction == physics.turn(m.direction, 8) && player.position == m.position && effects == [])
        && (intent == TurnRight ==>
              player.direction == physics.turn(m.direction, -8) && player.position == m.position && effects == [])
        && (intent == Interact ==> player.View() == m && effects == [Interacted])
        && (intent == NoIntent ==> player.View() == m && effects == [])
    {
      effects := [];
      if code == -1 {
        return;
      }
      if code == keys.forward {
        effects := Move(player, player.direction, None, room, physics, audio);
      } else if code == keys.backward {
        effects := Move(player, player.direction.Scale(-1.0), None, room, physics, audio);
      } else if code == keys.left {
        player.direction := physics.turn(player.direction, 8);
      } else if code == keys.right {
        player.direction := physics.turn(player.direction, -8);
      } else if code == keys.interact {
        effects := [Interacted];
      }
    }
  }
}
