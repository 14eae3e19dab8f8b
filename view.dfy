/** The tick engine (view.py): collision tests, the per-tick sweep over
    particles and killers that builds the state vector, the scores and the
    steering target, and the round loop.  The methods work on the entity
    objects; `World` and `TickWorld` give the same tick on values, and the
    lemmas are stated about those. */
module View {
  import opened Model

  datatype Pos = Pos(x: int, y: int)

  /** Squared Euclidean distance: `coll` and `fight` compare the distance
      with a radius, which is the same as comparing its square with the
      radius squared, so no square root is needed. */
  function SqDist(a: Pos, b: Pos): (d: int)
    ensures d >= 0
    ensures d == 0 <==> a == b
  {
    (a.x - b.x) * (a.x - b.x) + (a.y - b.y) * (a.y - b.y)
  }

  const CaptureRadius := 10
  const HitRadius := 9

  /** `coll`'s test `sqrt(dx*dx + dy*dy) < 10`. */
  predicate Captured(player: Pos, obj: Pos) {
    SqDist(player, obj) < CaptureRadius * CaptureRadius
  }

  /** `fight`'s test `hypot(dx, dy) < 9`. */
  predicate Hit(player: Pos, obj: Pos) {
    SqDist(player, obj) < HitRadius * HitRadius
  }

  /** A particle and a player on the same spot always collide, and so do a
      killer and a player; a killer close enough to hit would also be close
      enough to be captured; anything at distance 10 or more does neither. */
  lemma SamePlaceCollides(p: Pos, q: Pos)
    ensures Captured(p, p) && Hit(p, p)
    ensures Hit(p, q) ==> Captured(p, q)
    ensures SqDist(p, q) >= 100 ==> !Captured(p, q) && !Hit(p, q)
  {
  }

  // ------------------------------------------------------------ validation

  datatype Validation = Accepted | ValueError(message: string)

  /** `App._validate`: a headless game needs the network to move the player. */
  function Validate(render: bool, useNetwork: bool): (v: Validation)
    ensures v.ValueError? <==> !render && !useNetwork
  {
    if render == false && useNetwork == false then ValueError("If render is False, use_network must be True")
    else Accepted
  }

  // --------------------------------------------------------- the tick on values

  /** What the engine needs to know about a killer. */
  datatype KillerView = KillerView(pos: Pos, direction: int, level: int)

  /** The arena seen by one tick: the player's position and level state and
      the positions of the particles and killers, in iteration order. */
  datatype World = World(player: Pos, progress: Progress, particles: seq<Pos>, killers: seq<KillerView>)

  /** The constants of one game. */
  datatype Setting = Setting(width: int, height: int, startTime: real, useNetwork: bool, speed: int)

  /** The random draws and the clock reading one tick consumes: a respawn
      point per particle (`randint(0, width)`, `randint(0, height)`), a step
      per particle and per killer for moveRight/moveUp, and the integer step
      that stands for the network's move of the player. */
  datatype TickDraw = TickDraw(respawns: seq<Pos>, particleSteps: seq<Pos>, killerSteps: seq<Pos>, playerStep: Pos, now: real)

  /** What a tick never changes: the number of particles and the killers'
      directions. */
  datatype Shape = Shape(particles: nat, directions: seq<int>)

  function ShapeOf(w: World): Shape {
    Shape(|w.particles|, seq(|w.killers|, k requires 0 <= k < |w.killers| => w.killers[k].direction))
  }

  /** The draws of a tick have one entry per entity and lie in the ranges the
      source draws them from. */
  predicate Fits(sh: Shape, d: TickDraw, s: Setting) {
    && s.width > 0 && s.height > 0
    && |d.respawns| == sh.particles && |d.particleSteps| == sh.particles && |d.killerSteps| == |sh.directions|
    && (forall k :: 0 <= k < |d.respawns| ==> 0 <= d.respawns[k].x <= s.width && 0 <= d.respawns[k].y <= s.height)
    && (forall k :: 0 <= k < |d.particleSteps| ==> -4 <= d.particleSteps[k].x <= 4 && -4 <= d.particleSteps[k].y <= 4)
    && (forall k :: 0 <= k < |sh.directions| ==>
          KillerStepX(sh.directions[k], d.killerSteps[k].x) && KillerStepY(sh.directions[k], d.killerSteps[k].y))
    && -s.speed <= d.playerStep.x <= s.speed && -s.speed <= d.playerStep.y <= s.speed
  }

  /** Where a particle is after its collision check: respawned when captured. */
  function Checked(p: Pos, q: Pos, respawn: Pos): Pos {
    if Captured(p, q) then respawn else q
  }

  function Moved(q: Pos, step: Pos, s: Setting): Pos
    requires s.width > 0 && s.height > 0
  {
    Pos(Wrap(q.x, step.x, s.width), Wrap(q.y, step.y, s.height))
  }

  /** The player's level state after `coll` with one particle. */
  function AfterColl(prog: Progress, p: Pos, q: Pos, t: real): Progress {
    if Captured(p, q) then PlayerLevelUp(prog, t) else prog
  }

  /** The player's level state after `fight` with one killer. */
  function AfterFight(prog: Progress, p: Pos, k: KillerView, t: real): Progress {
    if Hit(p, k.pos) then PlayerLevelDown(prog, k.level, t) else prog
  }

  /** The player's level state after the first `n` iterations of the
      particle loop: one level_up per captured particle, in order. */
  function ParticlePass(prog: Progress, p: Pos, qs: seq<Pos>, n: nat, t: real): Progress
    requires n <= |qs|
    decreases n
  {
    if n == 0 then prog else AfterColl(ParticlePass(prog, p, qs, n - 1, t), p, qs[n - 1], t)
  }

  /** The player's level state after the first `n` iterations of the
      killer loop: one level_down by the killer's level per killer that
      hits, in order. */
  function KillerPass(prog: Progress, p: Pos, ks: seq<KillerView>, n: nat, t: real): Progress
    requires n <= |ks|
    decreases n
  {
    if n == 0 then prog else AfterFight(KillerPass(prog, p, ks, n - 1, t), p, ks[n - 1], t)
  }

  /** A killer after its moveRight and moveUp. */
  function Stepped(k: KillerView, step: Pos, s: Setting): KillerView
    requires s.width > 0 && s.height > 0
  {
    k.(pos := Moved(k.pos, step, s))
  }

  /** `_update_npc_positions` on values: the particle loop, then the killer
      loop, each visiting its entities in list order. */
  function NpcWorld(w: World, d: TickDraw, s: Setting): (r: World)
    requires Fits(ShapeOf(w), d, s)
    ensures r.player == w.player && |r.particles| == |w.particles| && |r.killers| == |w.killers|
  {
    var m := ParticleSweep(w, d, s, |w.particles|);
    KillerSweep(m, d, s, |m.killers|)
  }

  /** `on_render` on values: the sweep, then the network's move of the player. */
  function TickWorld(w: World, d: TickDraw, s: Setting): (r: World)
    requires Fits(ShapeOf(w), d, s)
    ensures r.progress == NpcWorld(w, d, s).progress && r.particles == NpcWorld(w, d, s).particles
    ensures r.killers == NpcWorld(w, d, s).killers
    ensures r.player == (if s.useNetwork then Moved(w.player, d.playerStep, s) else w.player)
  {
    var n := NpcWorld(w, d, s);
    if s.useNetwork then n.(player := Moved(n.player, d.playerStep, s)) else n
  }

  /** The draws of a tick have an entry for each of `np` particles and `nk`
      killers, and the window is not empty. */
  predicate Covers(d: TickDraw, s: Setting, np: nat, nk: nat) {
    s.width > 0 && s.height > 0 && np <= |d.respawns| && np <= |d.particleSteps| && nk <= |d.killerSteps|
  }

  /** The arena after the particle loop has handled particle `i`: the
      player's `coll` with it, then its respawn (if captured) and its step. */
  function ParticleVisited(w: World, d: TickDraw, s: Setting, i: nat): (r: World)
    requires i < |w.particles| && Covers(d, s, |w.particles|, 0)
    ensures r.player == w.player && r.killers == w.killers && |r.particles| == |w.particles|
    ensures forall k :: 0 <= k < |w.particles| && k != i ==> r.particles[k] == w.particles[k]
  {
    var t := d.now - s.startTime;
    w.(progress := AfterColl(w.progress, w.player, w.particles[i], t),
       particles := w.particles[i := Moved(Checked(w.player, w.particles[i], d.respawns[i]), d.particleSteps[i], s)])
  }

  /** The arena after the killer loop has handled killer `j`. */
  function KillerVisited(w: World, d: TickDraw, s: Setting, j: nat): (r: World)
    requires j < |w.killers| && Covers(d, s, 0, |w.killers|)
    ensures r.player == w.player && r.particles == w.particles && |r.killers| == |w.killers|
    ensures forall k :: 0 <= k < |w.killers| && k != j ==> r.killers[k] == w.killers[k]
  {
    var t := d.now - s.startTime;
    w.(progress := AfterFight(w.progress, w.player, w.killers[j], t),
       killers := w.killers[j := Stepped(w.killers[j], d.killerSteps[j], s)])
  }

  /** The arena after the first `n` iterations of the particle loop. */
  function ParticleSweep(w: World, d: TickDraw, s: Setting, n: nat): (r: World)
    requires n <= |w.particles| && Covers(d, s, |w.particles|, 0)
    ensures r.player == w.player && r.killers == w.killers && |r.particles| == |w.particles|
    decreases n
  {
    if n == 0 then w else ParticleVisited(ParticleSweep(w, d, s, n - 1), d, s, n - 1)
  }

  /** The arena after the first `n` iterations of the killer loop. */
  function KillerSweep(w: World, d: TickDraw, s: Setting, n: nat): (r: World)
    requires n <= |w.killers| && Covers(d, s, 0, |w.killers|)
    ensures r.player == w.player && r.particles == w.particles && |r.killers| == |w.killers|
    decreases n
  {
    if n == 0 then w else KillerVisited(KillerSweep(w, d, s, n - 1), d, s, n - 1)
  }

  /** After `n` iterations of the particle loop the player has levelled up
      once per captured particle among the first `n`, in order. */
  lemma {:induction false} ParticleSweepProgress(w: World, d: TickDraw, s: Setting, n: nat)
    requires n <= |w.particles| && Covers(d, s, |w.particles|, 0)
    ensures ParticleSweep(w, d, s, n).progress == ParticlePass(w.progress, w.player, w.particles, n, d.now - s.startTime)
  {
    if n > 0 {
      var prev, t := ParticleSweep(w, d, s, n - 1), d.now - s.startTime;
      ParticleSweepProgress(w, d, s, n - 1);
      ParticleSweepAhead(w, d, s, n - 1, n - 1);
      assert ParticleSweep(w, d, s, n).progress == AfterColl(prev.progress, w.player, prev.particles[n - 1], t);
    }
  }

  /** Particle `k` is still where it was before the loop reaches it. */
  lemma {:induction false} ParticleSweepAhead(w: World, d: TickDraw, s: Setting, n: nat, k: nat)
    requires n <= k < |w.particles| && Covers(d, s, |w.particles|, 0)
    ensures ParticleSweep(w, d, s, n).particles[k] == w.particles[k]
  {
    if n > 0 {
      ParticleSweepAhead(w, d, s, n - 1, k);
    }
  }

  /** Once visited, particle `k` has respawned (if captured) and stepped, and
      the later iterations leave it there. */
  lemma {:induction false} ParticleSweepMoved(w: World, d: TickDraw, s: Setting, n: nat, k: nat)
    requires k < n <= |w.particles| && Covers(d, s, |w.particles|, 0)
    ensures ParticleSweep(w, d, s, n).particles[k] == Moved(Checked(w.player, w.particles[k], d.respawns[k]), d.particleSteps[k], s)
  {
    if k == n - 1 {
      ParticleSweepAhead(w, d, s, n - 1, k);
    } else {
      ParticleSweepMoved(w, d, s, n - 1, k);
    }
  }

  /** The killer loop's counterparts. */
  lemma {:induction false} KillerSweepProgress(w: World, d: TickDraw, s: Setting, n: nat)
    requires n <= |w.killers| && Covers(d, s, 0, |w.killers|)
    ensures KillerSweep(w, d, s, n).progress == KillerPass(w.progress, w.player, w.killers, n, d.now - s.startTime)
  {
    if n > 0 {
      var prev, t := KillerSweep(w, d, s, n - 1), d.now - s.startTime;
      KillerSweepProgress(w, d, s, n - 1);
      KillerSweepAhead(w, d, s, n - 1, n - 1);
      assert KillerSweep(w, d, s, n).progress == AfterFight(prev.progress, w.player, prev.killers[n - 1], t);
    }
  }

  lemma {:induction false} KillerSweepAhead(w: World, d: TickDraw, s: Setting, n: nat, k: nat)
    requires n <= k < |w.killers| && Covers(d, s, 0, |w.killers|)
    ensures KillerSweep(w, d, s, n).killers[k] == w.killers[k]
  {
    if n > 0 {
      KillerSweepAhead(w, d, s, n - 1, k);
    }
  }

  lemma {:induction false} KillerSweepMoved(w: World, d: TickDraw, s: Setting, n: nat, k: nat)
    requires k < n <= |w.killers| && Covers(d, s, 0, |w.killers|)
    ensures KillerSweep(w, d, s, n).killers[k] == Stepped(w.killers[k], d.killerSteps[k], s)
  {
    if k == n - 1 {
      KillerSweepAhead(w, d, s, n - 1, k);
    } else {
      KillerSweepMoved(w, d, s, n - 1, k);
    }
  }

  /** What the two loops amount to: the player levelled up once per captured
      particle and then down once per hitting killer, in list order; every
      particle respawned (if captured) and stepped; every killer stepped; the
      player not moved. */
  lemma {:induction false} NpcWorldClosedForm(w: World, d: TickDraw, s: Setting)
    requires Fits(ShapeOf(w), d, s)
    ensures var t := d.now - s.startTime;
      NpcWorld(w, d, s) == World(
        w.player,
        KillerPass(ParticlePass(w.progress, w.player, w.particles, |w.particles|, t), w.player, w.killers, |w.killers|, t),
        seq(|w.particles|, k requires 0 <= k < |w.particles| =>
          Moved(Checked(w.player, w.particles[k], d.respawns[k]), d.particleSteps[k], s)),
        seq(|w.killers|, k requires 0 <= k < |w.killers| => Stepped(w.killers[k], d.killerSteps[k], s)))
  {
    var t := d.now - s.startTime;
    var p := ParticleSweep(w, d, s, |w.particles|);
    var r := KillerSweep(p, d, s, |w.killers|);
    ParticleSweepProgress(w, d, s, |w.particles|);
    KillerSweepProgress(p, d, s, |w.killers|);
    forall k | 0 <= k < |w.particles|
      ensures r.particles[k] == Moved(Checked(w.player, w.particles[k], d.respawns[k]), d.particleSteps[k], s)
    {
      ParticleSweepMoved(w, d, s, |w.particles|, k);
    }
    forall k | 0 <= k < |w.killers| ensures r.killers[k] == Stepped(w.killers[k], d.killerSteps[k], s) {
      KillerSweepMoved(p, d, s, |w.killers|, k);
    }
  }

  // ---------------------------------------------- scores, state vector, target

  function ParticleScore(captured: bool): real { if captured then 1.0 else 0.2 }
  function KillerScore(collided: bool): real { if collided then -1.0 else -0.2 }

  /** One score per entity, particles first (see `ScoresMeaning`). */
  function Scores(w: World): (r: seq<real>)
    ensures |r| == |w.particles| + |w.killers|
  {
    ParticleScores(w, |w.particles|) + KillerScores(w.player, w.killers, |w.killers|)
  }

  /** Relative position of `q` seen from `p`, divided by the arena diagonal. */
  function Rel(p: Pos, q: Pos, diag: real): (real, real)
    requires diag > 0.0
  {
    ((q.x - p.x) as real / diag, (q.y - p.y) as real / diag)
  }

  /** The relative positions read during the sweep, particles first (see
      `RelPositionsMeaning`). */
  function RelPositions(w: World, d: TickDraw, diag: real): (r: seq<(real, real)>)
    requires |d.respawns| == |w.particles| && diag > 0.0
    ensures |r| == |w.particles| + |w.killers|
  {
    ParticleRels(w, d, diag, |w.particles|) + KillerRels(w.player, w.killers, diag, |w.killers|)
  }

  /** The scores of the first `n` particles, in the order the loop appends
      them. */
  function ParticleScores(w: World, n: nat): (r: seq<real>)
    requires n <= |w.particles|
    ensures |r| == n
  {
    if n == 0 then [] else ParticleScores(w, n - 1) + [ParticleScore(Captured(w.player, w.particles[n - 1]))]
  }

  function KillerScores(p: Pos, ks: seq<KillerView>, n: nat): (r: seq<real>)
    requires n <= |ks|
    ensures |r| == n
  {
    if n == 0 then [] else KillerScores(p, ks, n - 1) + [KillerScore(Hit(p, ks[n - 1].pos))]
  }

  /** The relative positions of the first `n` particles, read after the
      collision check. */
  function ParticleRels(w: World, d: TickDraw, diag: real, n: nat): (r: seq<(real, real)>)
    requires n <= |w.particles| == |d.respawns| && diag > 0.0
    ensures |r| == n
  {
    if n == 0 then []
    else ParticleRels(w, d, diag, n - 1) + [Rel(w.player, Checked(w.player, w.particles[n - 1], d.respawns[n - 1]), diag)]
  }

  function KillerRels(p: Pos, ks: seq<KillerView>, diag: real, n: nat): (r: seq<(real, real)>)
    requires n <= |ks| && diag > 0.0
    ensures |r| == n
  {
    if n == 0 then [] else KillerRels(p, ks, diag, n - 1) + [Rel(p, ks[n - 1].pos, diag)]
  }

  lemma {:induction false} ParticleScoresAt(w: World, n: nat, k: nat)
    requires k < n <= |w.particles|
    ensures ParticleScores(w, n)[k] == ParticleScore(Captured(w.player, w.particles[k]))
  {
    if k < n - 1 {
      ParticleScoresAt(w, n - 1, k);
    }
  }

  lemma {:induction false} KillerScoresAt(p: Pos, ks: seq<KillerView>, n: nat, k: nat)
    requires k < n <= |ks|
    ensures KillerScores(p, ks, n)[k] == KillerScore(Hit(p, ks[k].pos))
  {
    if k < n - 1 {
      KillerScoresAt(p, ks, n - 1, k);
    }
  }

  lemma {:induction false} ParticleRelsAt(w: World, d: TickDraw, diag: real, n: nat, k: nat)
    requires k < n <= |w.particles| == |d.respawns| && diag > 0.0
    ensures ParticleRels(w, d, diag, n)[k] == Rel(w.player, Checked(w.player, w.particles[k], d.respawns[k]), diag)
  {
    if k < n - 1 {
      ParticleRelsAt(w, d, diag, n - 1, k);
    }
  }

  lemma {:induction false} KillerRelsAt(p: Pos, ks: seq<KillerView>, diag: real, n: nat, k: nat)
    requires k < n <= |ks| && diag > 0.0
    ensures KillerRels(p, ks, diag, n)[k] == Rel(p, ks[k].pos, diag)
  {
    if k < n - 1 {
      KillerRelsAt(p, ks, diag, n - 1, k);
    }
  }

  /** The scores mean what the loops promise: 1.0 exactly for a captured
      particle (0.2 otherwise), -1.0 exactly for a killer in contact
      (-0.2 otherwise). */
  lemma {:induction false} ScoresMeaning(w: World)
    ensures forall k :: 0 <= k < |w.particles| ==>
      (Scores(w)[k] == 1.0 <==> Captured(w.player, w.particles[k])) && (Scores(w)[k] == 1.0 || Scores(w)[k] == 0.2)
    ensures forall k :: |w.particles| <= k < |Scores(w)| ==>
      (Scores(w)[k] == -1.0 <==> Hit(w.player, w.killers[k - |w.particles|].pos))
      && (Scores(w)[k] == -1.0 || Scores(w)[k] == -0.2)
  {
    var ps, ks := ParticleScores(w, |w.particles|), KillerScores(w.player, w.killers, |w.killers|);
    forall k | 0 <= k < |w.particles|
      ensures Scores(w)[k] == ParticleScore(Captured(w.player, w.particles[k]))
    {
      ParticleScoresAt(w, |w.particles|, k);
      assert Scores(w)[k] == ps[k];
    }
    forall k | |w.particles| <= k < |Scores(w)|
      ensures Scores(w)[k] == KillerScore(Hit(w.player, w.killers[k - |w.particles|].pos))
    {
      KillerScoresAt(w.player, w.killers, |w.killers|, k - |w.particles|);
      assert Scores(w)[k] == ks[k - |w.particles|];
    }
  }

  /** A particle's relative position is read after its respawn (if any) and
      before its step; a killer's before its step. */
  lemma {:induction false} RelPositionsMeaning(w: World, d: TickDraw, diag: real)
    requires |d.respawns| == |w.particles| && diag > 0.0
    ensures forall k :: 0 <= k < |w.particles| ==>
      RelPositions(w, d, diag)[k] == Rel(w.player, Checked(w.player, w.particles[k], d.respawns[k]), diag)
    ensures forall k :: 0 <= k < |w.killers| ==>
      RelPositions(w, d, diag)[|w.particles| + k] == Rel(w.player, w.killers[k].pos, diag)
  {
    var ps, ks := ParticleRels(w, d, diag, |w.particles|), KillerRels(w.player, w.killers, diag, |w.killers|);
    forall k | 0 <= k < |w.particles|
      ensures RelPositions(w, d, diag)[k] == Rel(w.player, Checked(w.player, w.particles[k], d.respawns[k]), diag)
    {
      ParticleRelsAt(w, d, diag, |w.particles|, k);
      assert RelPositions(w, d, diag)[k] == ps[k];
    }
    forall k | 0 <= k < |w.killers|
      ensures RelPositions(w, d, diag)[|w.particles| + k] == Rel(w.player, w.killers[k].pos, diag)
    {
      KillerRelsAt(w.player, w.killers, diag, |w.killers|, k);
      assert RelPositions(w, d, diag)[|w.particles| + k] == ks[k];
    }
  }

  function Flatten(rel: seq<(real, real)>): (v: seq<real>)
    ensures |v| == 2 * |rel|
  {
    if rel == [] then [] else [rel[0].0, rel[0].1] + Flatten(rel[1..])
  }

  lemma {:induction false} FlattenAt(rel: seq<(real, real)>, k: nat)
    requires k < |rel|
    ensures Flatten(rel)[2 * k] == rel[k].0 && Flatten(rel)[2 * k + 1] == rel[k].1
  {
    if k > 0 {
      FlattenAt(rel[1..], k - 1);
      assert rel[1..][k - 1] == rel[k];
    }
  }

  /** `v` with the pairs `rel[0]`, ..., `rel[n - 1]` written, in order, to
      the slot pairs `base`, `base + 1`, ...: pair `k` goes to `2 * (base + k)`
      and `2 * (base + k) + 1`. */
  function Slots(v: seq<real>, rel: seq<(real, real)>, base: nat, n: nat): (r: seq<real>)
    requires n <= |rel| && 2 * (base + |rel|) <= |v|
    ensures |r| == |v|
    decreases n
  {
    if n == 0 then v
    else Slots(v, rel, base, n - 1)[2 * (base + n - 1) := rel[n - 1].0][2 * (base + n - 1) + 1 := rel[n - 1].1]
  }

  /** One more pair written. */
  lemma {:induction false} SlotsNext(v: seq<real>, rel: seq<(real, real)>, base: nat, n: nat, slot: nat, x: real, y: real)
    requires n < |rel| && 2 * (base + |rel|) <= |v| && rel[n] == (x, y) && slot == base + n
    ensures Slots(v, rel, base, n + 1) == Slots(v, rel, base, n)[2 * slot := x][2 * slot + 1 := y]
  {
  }

  /** Pair `k < n` of `rel` is in its two slots. */
  lemma {:induction false} SlotsWritten(v: seq<real>, rel: seq<(real, real)>, base: nat, n: nat, k: nat)
    requires k < n <= |rel| && 2 * (base + |rel|) <= |v|
    ensures Slots(v, rel, base, n)[2 * (base + k)] == rel[k].0
    ensures Slots(v, rel, base, n)[2 * (base + k) + 1] == rel[k].1
  {
    if k < n - 1 {
      SlotsWritten(v, rel, base, n - 1, k);
    }
  }

  /** Slots outside the `n` pairs written keep their values. */
  lemma {:induction false} SlotsKept(v: seq<real>, rel: seq<(real, real)>, base: nat, n: nat, m: nat)
    requires n <= |rel| && 2 * (base + |rel|) <= |v| && m < |v|
    requires m < 2 * base || 2 * (base + n) <= m
    ensures Slots(v, rel, base, n)[m] == v[m]
  {
    if n > 0 {
      SlotsKept(v, rel, base, n - 1, m);
    }
  }

  /** `coord_array` before the loops: zeros, with the player's position as
      a fraction of the window in slots 0 and 1. */
  function Header(p: Pos, s: Setting, cells: nat): (v: seq<real>)
    requires s.width > 0 && s.height > 0 && cells >= 1
  {
    seq(2 * cells, _ => 0.0)[0 := p.x as real / s.width as real][1 := p.y as real / s.height as real]
  }

  /** Filling the particles' pairs from slot pair 1 on and the killers' pairs
      after them makes the state vector. */
  lemma {:induction false} SlotsMakeStateVector(p: Pos, pRel: seq<(real, real)>, kRel: seq<(real, real)>, s: Setting)
    requires s.width > 0 && s.height > 0
    ensures var v := Header(p, s, 1 + |pRel| + |kRel|);
      Slots(Slots(v, pRel, 1, |pRel|), kRel, |pRel| + 1, |kRel|) == StateVector(p, pRel + kRel, s)
  {
    var v := Header(p, s, 1 + |pRel| + |kRel|);
    var outer := Slots(Slots(v, pRel, 1, |pRel|), kRel, |pRel| + 1, |kRel|);
    var sv := StateVector(p, pRel + kRel, s);
    forall m | 0 <= m < |v| ensures outer[m] == sv[m] {
      if m < 2 {
        HeaderSlotsKept(v, pRel, kRel, m);
      } else {
        var e := m / 2 - 1;
        PairSlotWritten(v, pRel, kRel, e);
        FlattenAt(pRel + kRel, e);
        PairSlot(outer, sv, pRel + kRel, e, m);
      }
    }
  }

  /** The two loops leave slots 0 and 1 alone. */
  lemma {:induction false} HeaderSlotsKept(v: seq<real>, pRel: seq<(real, real)>, kRel: seq<(real, real)>, m: nat)
    requires |v| == 2 * (1 + |pRel| + |kRel|) && m < 2
    ensures Slots(Slots(v, pRel, 1, |pRel|), kRel, |pRel| + 1, |kRel|)[m] == v[m]
  {
    var inner := Slots(v, pRel, 1, |pRel|);
    SlotsKept(inner, kRel, |pRel| + 1, |kRel|, m);
    SlotsKept(v, pRel, 1, |pRel|, m);
  }

  /** Pair `e` of `pRel + kRel` ends up in slot pair `e + 1`. */
  lemma {:induction false} PairSlotWritten(v: seq<real>, pRel: seq<(real, real)>, kRel: seq<(real, real)>, e: nat)
    requires |v| == 2 * (1 + |pRel| + |kRel|) && e < |pRel| + |kRel|
    ensures var outer := Slots(Slots(v, pRel, 1, |pRel|), kRel, |pRel| + 1, |kRel|);
      outer[2 * (e + 1)] == (pRel + kRel)[e].0 && outer[2 * (e + 1) + 1] == (pRel + kRel)[e].1
  {
    var inner := Slots(v, pRel, 1, |pRel|);
    if e < |pRel| {
      SlotsKept(inner, kRel, |pRel| + 1, |kRel|, 2 * (e + 1));
      SlotsKept(inner, kRel, |pRel| + 1, |kRel|, 2 * (e + 1) + 1);
      SlotsWritten(v, pRel, 1, |pRel|, e);
      assert (pRel + kRel)[e] == pRel[e];
    } else {
      var k := e - |pRel|;
      assert 2 * (|pRel| + 1 + k) == 2 * (e + 1);
      assert (pRel + kRel)[e] == kRel[k];
      SlotsWritten(inner, kRel, |pRel| + 1, |kRel|, k);
    }
  }

  /** The vector the two loops leave in `coord_array` is the state vector
      of the relative positions. */
  lemma {:induction false} SweptVector(w: World, d: TickDraw, s: Setting, diag: real, cells: nat)
    requires s.width > 0 && s.height > 0 && |d.respawns| == |w.particles| && diag > 0.0
    requires cells == 1 + |w.particles| + |w.killers|
    ensures var pRel, kRel := ParticleRels(w, d, diag, |w.particles|), KillerRels(w.player, w.killers, diag, |w.killers|);
      Slots(Slots(Header(w.player, s, cells), pRel, 1, |w.particles|), kRel, |w.particles| + 1, |w.killers|)
      == StateVector(w.player, pRel + kRel, s)
  {
    SlotsMakeStateVector(w.player, ParticleRels(w, d, diag, |w.particles|), KillerRels(w.player, w.killers, diag, |w.killers|), s);
  }

  /** Slot `m >= 2` belongs to pair `m / 2 - 1`. */
  lemma {:induction false} PairSlot(a: seq<real>, b: seq<real>, rel: seq<(real, real)>, e: int, m: int)
    requires 2 <= m < |a| == |b| == 2 * (1 + |rel|) && e == m / 2 - 1
    requires b[2 * (e + 1)] == rel[e].0 && b[2 * (e + 1) + 1] == rel[e].1
    requires a[2 * (e + 1)] == rel[e].0 && a[2 * (e + 1) + 1] == rel[e].1
    ensures a[m] == b[m]
  {
  }

  /** The network input `coord_array` (see `StateVectorLayout`). */
  function StateVector(p: Pos, rel: seq<(real, real)>, s: Setting): (v: seq<real>)
    requires s.width > 0 && s.height > 0
    ensures |v| == 2 * (1 + |rel|)
  {
    [p.x as real / s.width as real, p.y as real / s.height as real] + Flatten(rel)
  }

  /** Slots 0 and 1 hold the player's position as a fraction of the window,
      and entity `k` (counted from 1, particles first) fills slots `2k` and
      `2k+1`. */
  lemma {:induction false} StateVectorLayout(p: Pos, rel: seq<(real, real)>, s: Setting)
    requires s.width > 0 && s.height > 0
    ensures var v := StateVector(p, rel, s);
      && v[0] == p.x as real / s.width as real && v[1] == p.y as real / s.height as real
      && forall k :: 0 <= k < |rel| ==> v[2 * (k + 1)] == rel[k].0 && v[2 * (k + 1) + 1] == rel[k].1
  {
    forall k | 0 <= k < |rel|
      ensures StateVector(p, rel, s)[2 * (k + 1)] == rel[k].0 && StateVector(p, rel, s)[2 * (k + 1) + 1] == rel[k].1
    {
      FlattenAt(rel, k);
    }
  }

  function Abs(r: real): real { if r < 0.0 then -r else r }

  function SumAbs(scores: seq<real>): (s: real)
    ensures s >= 0.0
  {
    if scores == [] then 0.0 else Abs(scores[0]) + SumAbs(scores[1..])
  }

  /** `sum(abs(s) for s in scores) + 1e-6`: never zero, so the target is
      always defined, even with no entities or cancelling scores. */
  function Normaliser(scores: seq<real>): (total: real)
    ensures total > 0.0
    ensures total > SumAbs(scores)
  {
    SumAbs(scores) + 0.000001
  }

  function WeightedSum(xs: seq<real>, scores: seq<real>): real
    requires |xs| == |scores|
  {
    if xs == [] then 0.0 else xs[0] * scores[0] + WeightedSum(xs[1..], scores[1..])
  }

  function Firsts(rel: seq<(real, real)>): (r: seq<real>)
    ensures |r| == |rel| && forall k :: 0 <= k < |rel| ==> r[k] == rel[k].0
  {
    seq(|rel|, k requires 0 <= k < |rel| => rel[k].0)
  }

  function Seconds(rel: seq<(real, real)>): (r: seq<real>)
    ensures |r| == |rel| && forall k :: 0 <= k < |rel| ==> r[k] == rel[k].1
  {
    seq(|rel|, k requires 0 <= k < |rel| => rel[k].1)
  }

  /** The steering target before its final L2 normalisation: the
      score-weighted sum of relative positions over the normaliser. */
  function Target(rel: seq<(real, real)>, scores: seq<real>): (t: (real, real))
    requires |rel| == |scores|
    ensures rel == [] ==> t == (0.0, 0.0)
  {
    (WeightedSum(Firsts(rel), scores) / Normaliser(scores), WeightedSum(Seconds(rel), scores) / Normaliser(scores))
  }

  lemma NonNegProduct(a: real, b: real)
    requires a >= 0.0 && b >= 0.0
    ensures a * b >= 0.0
  {
  }

  lemma NonPosProduct(a: real, b: real)
    requires a >= 0.0 && b <= 0.0
    ensures a * b <= 0.0
  {
  }

  lemma ProductBound(x: real, s: real)
    requires -1.0 <= x <= 1.0
    ensures -Abs(s) <= x * s <= Abs(s)
  {
    if s >= 0.0 {
      NonNegProduct(1.0 - x, s);
      NonNegProduct(x + 1.0, s);
    } else {
      NonPosProduct(1.0 - x, s);
      NonPosProduct(x + 1.0, s);
    }
  }

  /** Every value lies in [-1, 1]. */
  predicate InUnit(xs: seq<real>) {
    forall k :: 0 <= k < |xs| ==> -1.0 <= xs[k] <= 1.0
  }

  /** A score-weighted sum of values in [-1, 1] is bounded by the total weight. */
  lemma {:induction false} WeightedSumBound(xs: seq<real>, scores: seq<real>)
    requires |xs| == |scores| && InUnit(xs)
    ensures -SumAbs(scores) <= WeightedSum(xs, scores) <= SumAbs(scores)
  {
    if xs != [] {
      var x, s := xs[0], scores[0];
      assert InUnit(xs[1..]) by {
        assert forall k :: 0 <= k < |xs[1..]| ==> xs[1..][k] == xs[k + 1];
      }
      WeightedSumBound(xs[1..], scores[1..]);
      ProductBound(x, s);
      var p, w, a := x * s, WeightedSum(xs[1..], scores[1..]), SumAbs(scores[1..]);
      assert WeightedSum(xs, scores) == p + w;
      assert SumAbs(scores) == Abs(s) + a;
    }
  }

  lemma QuotientBound(a: real, b: real)
    requires b > 0.0 && -b < a < b
    ensures -1.0 < a / b < 1.0
  {
    var q := a / b;
    assert (1.0 - q) * b == b - a;
    assert (1.0 + q) * b == b + a;
  }

  /** When every relative position lies in the unit box, so does the target,
      strictly: the normaliser exceeds the total weight. */
  lemma {:induction false} TargetInUnitBox(rel: seq<(real, real)>, scores: seq<real>)
    requires |rel| == |scores|
    requires forall k :: 0 <= k < |rel| ==> -1.0 <= rel[k].0 <= 1.0 && -1.0 <= rel[k].1 <= 1.0
    ensures -1.0 < Target(rel, scores).0 < 1.0 && -1.0 < Target(rel, scores).1 < 1.0
  {
    WeightedSumBound(Firsts(rel), scores);
    WeightedSumBound(Seconds(rel), scores);
    QuotientBound(WeightedSum(Firsts(rel), scores), Normaliser(scores));
    QuotientBound(WeightedSum(Seconds(rel), scores), Normaliser(scores));
  }

  /** A point of the window, edges included (a respawn may land on the
      far edge, `randint(0, width)`). */
  predicate InWindow(q: Pos, s: Setting) {
    0 <= q.x <= s.width && 0 <= q.y <= s.height
  }

  /** Every position of the arena and every respawn point of the draw lies
      in the window. */
  predicate AllInWindow(w: World, d: TickDraw, s: Setting) {
    && InWindow(w.player, s)
    && (forall k :: 0 <= k < |w.particles| ==> InWindow(w.particles[k], s))
    && (forall k :: 0 <= k < |w.killers| ==> InWindow(w.killers[k].pos, s))
    && (forall k :: 0 <= k < |d.respawns| ==> InWindow(d.respawns[k], s))
  }

  /** A side of the window is no longer than its diagonal. */
  lemma SideAtMostDiagonal(side: int, other: int, diag: real)
    requires side >= 0 && diag > 0.0 && diag * diag == (side * side + other * other) as real
    ensures side as real <= diag
  {
    var a := side as real;
    assert a * a <= diag * diag by {
      assert (other * other) as real >= 0.0;
    }
    assert (a - diag) * (a + diag) == a * a - diag * diag;
  }

  /** An offset no longer than a side, over the diagonal, lies in [-1, 1]. */
  lemma OffsetInUnit(dx: int, side: int, other: int, diag: real)
    requires side >= 0 && -side <= dx <= side && diag > 0.0 && diag * diag == (side * side + other * other) as real
    ensures -1.0 <= dx as real / diag <= 1.0
  {
    SideAtMostDiagonal(side, other, diag);
    var q := dx as real / diag;
    assert q * diag == dx as real;
    if q > 1.0 {
      assert q * diag > diag;
    }
    if q < -1.0 {
      assert q * diag < -diag;
    }
  }

  /** With everything inside the window and `diag` its diagonal, every
      relative position of a tick lies in the unit box. */
  lemma {:induction false} RelPositionsInUnit(w: World, d: TickDraw, s: Setting, diag: real)
    requires |d.respawns| == |w.particles| && diag > 0.0 && s.width > 0 && s.height > 0
    requires diag * diag == (s.width * s.width + s.height * s.height) as real
    requires AllInWindow(w, d, s)
    ensures forall k :: 0 <= k < |RelPositions(w, d, diag)| ==>
      -1.0 <= RelPositions(w, d, diag)[k].0 <= 1.0 && -1.0 <= RelPositions(w, d, diag)[k].1 <= 1.0
  {
    var rel := RelPositions(w, d, diag);
    RelPositionsMeaning(w, d, diag);
    assert diag * diag == (s.height * s.height + s.width * s.width) as real;
    forall k | 0 <= k < |rel| ensures -1.0 <= rel[k].0 <= 1.0 && -1.0 <= rel[k].1 <= 1.0 {
      var q := if k < |w.particles| then Checked(w.player, w.particles[k], d.respawns[k])
               else w.killers[k - |w.particles|].pos;
      assert rel[k] == Rel(w.player, q, diag);
      OffsetInUnit(q.x - w.player.x, s.width, s.height, diag);
      OffsetInUnit(q.y - w.player.y, s.height, s.width, diag);
    }
  }

  /** So the steering target of a tick lies strictly inside the unit box. */
  lemma {:induction false} TickTargetInUnitBox(w: World, d: TickDraw, s: Setting, diag: real)
    requires |d.respawns| == |w.particles| && diag > 0.0 && s.width > 0 && s.height > 0
    requires diag * diag == (s.width * s.width + s.height * s.height) as real
    requires AllInWindow(w, d, s)
    ensures var t := Target(RelPositions(w, d, diag), Scores(w));
      -1.0 < t.0 < 1.0 && -1.0 < t.1 < 1.0
  {
    RelPositionsInUnit(w, d, s, diag);
    TargetInUnitBox(RelPositions(w, d, diag), Scores(w));
  }

  // ------------------------------------------------------- the round loop on values

  predicate FitsAll(sh: Shape, draws: seq<TickDraw>, s: Setting) {
    forall j :: 0 <= j < |draws| ==> Fits(sh, draws[j], s)
  }

  /** One tick of the game as a total function: `TickWorld` when the draws
      fit the world, which `App.Run` guarantees.  The `else` branch only
      makes the function total; `TicksKeepShape` shows a round never takes
      it. */
  function Tick(s: Setting): (World, TickDraw) -> World {
    (w: World, d: TickDraw) => if Fits(ShapeOf(w), d, s) then TickWorld(w, d, s) else w
  }

  /** `tick` plays a tick as `TickWorld` does whenever the draws fit. */
  ghost predicate Plays(tick: (World, TickDraw) -> World, s: Setting) {
    forall w, d {:trigger TickWorld(w, d, s)} :: Fits(ShapeOf(w), d, s) ==> tick(w, d) == TickWorld(w, d, s)
  }

  /** `Tick` is a tick function the round loop can be run with. */
  lemma {:induction false} TickPlays(s: Setting)
    ensures Plays(Tick(s), s)
  {
  }

  /** A tick keeps the arena's shape: the number of particles and the
      killers' directions. */
  lemma {:induction false} TickKeepsShape(w: World, d: TickDraw, s: Setting)
    requires Fits(ShapeOf(w), d, s)
    ensures ShapeOf(TickWorld(w, d, s)) == ShapeOf(w)
  {
    NpcWorldClosedForm(w, d, s);
  }

  /** The world after the first `n` ticks of a game, one draw each. */
  function Ticks(tick: (World, TickDraw) -> World, w: World, draws: seq<TickDraw>, n: nat): World
    requires n <= |draws|
    decreases n
  {
    if n == 0 then w else Ticks(tick, tick(w, draws[0]), draws[1..], n - 1)
  }

  /** Played with `Tick`, a round whose draws fit the arena it starts from
      keeps that arena's shape, so each of its draws fits the arena it is
      used on: every tick is `TickWorld`, never the fallback that leaves the
      world alone. */
  lemma {:induction false} TicksKeepShape(s: Setting, w: World, draws: seq<TickDraw>, n: nat)
    requires n <= |draws| && FitsAll(ShapeOf(w), draws, s)
    ensures ShapeOf(Ticks(Tick(s), w, draws, n)) == ShapeOf(w)
    ensures forall j :: 0 <= j < n ==> Fits(ShapeOf(Ticks(Tick(s), w, draws, j)), draws[j], s)
    ensures forall j :: 0 <= j < n ==>
      Ticks(Tick(s), w, draws, j + 1) == TickWorld(Ticks(Tick(s), w, draws, j), draws[j], s)
    decreases n
  {
    if n > 0 {
      var next := Tick(s)(w, draws[0]);
      TickKeepsShape(w, draws[0], s);
      assert FitsAll(ShapeOf(next), draws[1..], s) by {
        forall j | 0 <= j < |draws[1..]| ensures Fits(ShapeOf(next), draws[1..][j], s) {
          assert draws[1..][j] == draws[j + 1];
        }
      }
      TicksKeepShape(s, next, draws[1..], n - 1);
      forall j | 0 <= j < n
        ensures Fits(ShapeOf(Ticks(Tick(s), w, draws, j)), draws[j], s)
        ensures Ticks(Tick(s), w, draws, j + 1) == TickWorld(Ticks(Tick(s), w, draws, j), draws[j], s)
      {
        if j > 0 {
          assert Ticks(Tick(s), w, draws, j) == Ticks(Tick(s), next, draws[1..], j - 1);
          assert draws[1..][j - 1] == draws[j];
        }
      }
    }
  }

  /** `App.run` without rendering: count the round, stop at the round limit,
      play the tick, stop when the player's level is 0.  Returns the world at
      the end and the number of ticks played; `tick` is what `on_render`
      does to the world. */
  function Episode(tick: (World, TickDraw) -> World, w: World, draws: seq<TickDraw>, count: int, limit: int): (r: (World, nat))
    ensures r.1 <= |draws|
    ensures |draws| > 0 ==> r.1 >= 1
    decreases |draws|
  {
    if draws == [] then (w, 0)
    else
      var next := tick(w, draws[0]);
      if count + 1 >= limit || next.progress.level == 0 then (next, 1)
      else
        var rest := Episode(tick, next, draws[1..], count + 1, limit);
        (rest.0, rest.1 + 1)
  }

  /** One turn of the round loop: with `next` the world after the first
      tick, the game either ends there or goes on from `next`. */
  lemma {:induction false} EpisodeAdvance(tick: (World, TickDraw) -> World, w: World, next: World, draws: seq<TickDraw>, t: nat,
                       count: int, limit: int)
    requires t < |draws| && next == tick(w, draws[t])
    ensures count + 1 >= limit || next.progress.level == 0 ==> Episode(tick, w, draws[t..], count, limit) == (next, 1)
    ensures !(count + 1 >= limit || next.progress.level == 0) ==>
      var rest := Episode(tick, next, draws[t + 1..], count + 1, limit);
      Episode(tick, w, draws[t..], count, limit) == (rest.0, rest.1 + 1)
  {
    assert draws[t..][0] == draws[t] && draws[t..][1..] == draws[t + 1..];
  }

  /** The round loop plays at most `max(limit - count, 1)` ticks, and the
      world it ends in is the world after that many ticks. */
  lemma {:induction false} EpisodeTicks(tick: (World, TickDraw) -> World, w: World, draws: seq<TickDraw>, count: int, limit: int)
    ensures var r := Episode(tick, w, draws, count, limit);
      && r.0 == Ticks(tick, w, draws, r.1)
      && r.1 <= Max(limit - count, 1)
    decreases |draws|
  {
    if draws != [] {
      var next := tick(w, draws[0]);
      if !(count + 1 >= limit || next.progress.level == 0) {
        EpisodeTicks(tick, next, draws[1..], count + 1, limit);
      }
    }
  }

  /** Given enough draws, the round loop ends only at the round limit or
      when the player's level reaches 0. */
  lemma {:induction false} EpisodeEnds(tick: (World, TickDraw) -> World, w: World, draws: seq<TickDraw>, count: int, limit: int)
    requires |draws| >= Max(limit - count, 1)
    ensures var r := Episode(tick, w, draws, count, limit);
      count + r.1 >= limit || r.0.progress.level == 0
    decreases |draws|
  {
    var next := tick(w, draws[0]);
    if !(count + 1 >= limit || next.progress.level == 0) {
      EpisodeEnds(tick, next, draws[1..], count + 1, limit);
    }
  }

  /** Every tick before the last leaves the player alive (that the round
      limit is not reached before the last tick is the bound in
      `EpisodeTicks`). */
  lemma {:induction false} EpisodeAlive(tick: (World, TickDraw) -> World, w: World, draws: seq<TickDraw>, count: int, limit: int)
    ensures var r := Episode(tick, w, draws, count, limit);
      forall j :: 1 <= j < r.1 ==> Ticks(tick, w, draws, j).progress.level != 0
    decreases |draws|
  {
    if draws != [] {
      var next := tick(w, draws[0]);
      if !(count + 1 >= limit || next.progress.level == 0) {
        var rest := Episode(tick, next, draws[1..], count + 1, limit);
        EpisodeAdvance(tick, w, next, draws, 0, count, limit);
        EpisodeAlive(tick, next, draws[1..], count + 1, limit);
        forall j | 1 <= j < rest.1 + 1
          ensures Ticks(tick, w, draws, j).progress.level != 0
        {
          assert Ticks(tick, w, draws, j) == Ticks(tick, next, draws[1..], j - 1);
          if j == 1 {
            assert Ticks(tick, next, draws[1..], 0) == next;
          }
        }

      }
    }
  }

  // ------------------------------------------------------------- collisions

  /** `coll`: a particle closer than 10 is respawned at `respawn` and the
      player levels up once; the result is then 0.  Otherwise nothing changes
      and the result is the distance, here squared (so at least 100). */
  method Coll(player: Player, obj: Particle, windowWidth: int, windowHeight: int, respawn: Pos, now: real)
    returns (distance: int)
    requires 0 <= respawn.x <= windowWidth && 0 <= respawn.y <= windowHeight
    modifies player, obj
    ensures player.x == old(player.x) && player.y == old(player.y)
    ensures var p, q := Pos(old(player.x), old(player.y)), Pos(old(obj.x), old(obj.y));
      && (distance == 0 <==> Captured(p, q))
      && (Captured(p, q) ==>
            Pos(obj.x, obj.y) == respawn && player.Standing() == PlayerLevelUp(old(player.Standing()), now - player.startTime))
      && (!Captured(p, q) ==> distance == SqDist(p, q) >= 100 && unchanged(player, obj))
  {
    var dd := SqDist(Pos(player.x, player.y), Pos(obj.x, obj.y));
    if dd < CaptureRadius * CaptureRadius {
      obj.x := respawn.x;
      obj.y := respawn.y;
      player.LevelUp(now);
      return 0;
    }
    return dd;
  }

  /** `fight`: a killer closer than 9 levels the player down by the killer's
      level; otherwise nothing changes. */
  method Fight(player: Player, obj: Killer, now: real) returns (collided: bool)
    modifies player
    ensures collided <==> Hit(Pos(old(player.x), old(player.y)), Pos(obj.x, obj.y))
    ensures collided ==> player.Standing() == PlayerLevelDown(old(player.Standing()), obj.level, now - player.startTime)
    ensures !collided ==> unchanged(player)
    ensures player.x == old(player.x) && player.y == old(player.y)
  {
    var dd := SqDist(Pos(player.x, player.y), Pos(obj.x, obj.y));
    collided := dd < HitRadius * HitRadius;
    if collided {
      player.LevelDown(obj.level, now);
    }
  }

  // ------------------------------------------------------------------- App

  /** The game: one player, its particles and killers, and the round counter. */
  class App {
    const windowWidth: int
    const windowHeight: int
    const diag: real
    const player: Player
    const particles: seq<Particle>
    const killers: seq<Killer>
    const nCells: int
    const eta: real
    const timeSleep: real
    const roundLimit: int
    const render: bool
    const oldNetwork: bool
    var running: bool
    var roundCount: int
    /** Where each entity sits in its list; that it exists says no entity is
        listed twice. */
    ghost const particleIndex: map<Particle, nat>
    ghost const killerIndex: map<Killer, nat>

    /** The window is not empty, `diag` is its diagonal, the entities share
        the window, and no entity is listed twice. */
    ghost predicate Valid() {
      && windowWidth > 0 && windowHeight > 0 && diag > 0.0
      && diag * diag == (windowWidth * windowWidth + windowHeight * windowHeight) as real
      && player.windowWidth == windowWidth && player.windowHeight == windowHeight
      && (forall i :: 0 <= i < |particles| ==>
            particles[i].windowWidth == windowWidth && particles[i].windowHeight == windowHeight)
      && (forall i :: 0 <= i < |killers| ==>
            killers[i].windowWidth == windowWidth && killers[i].windowHeight == windowHeight)
      && (forall i :: 0 <= i < |particles| ==> particles[i] in particleIndex && particleIndex[particles[i]] == i)
      && (forall i :: 0 <= i < |killers| ==> killers[i] in killerIndex && killerIndex[killers[i]] == i)
      && nCells == 1 + |particles| + |killers|
    }

    function Setup(): Setting {
      Setting(windowWidth, windowHeight, player.startTime, player.useNetwork, player.speed)
    }

    function ParticleAt(k: nat): Pos
      requires k < |particles|
      reads particles[k]
    {
      Pos(particles[k].x, particles[k].y)
    }

    function KillerAt(k: nat): KillerView
      requires k < |killers|
      reads killers[k]
    {
      KillerView(Pos(killers[k].x, killers[k].y), killers[k].direction, killers[k].level)
    }

    /** The arena as values. */
    function Snapshot(): World
      reads player, particles, killers
    {
      World(
        Pos(player.x, player.y),
        player.Standing(),
        seq(|particles|, k requires 0 <= k < |particles| reads particles => ParticleAt(k)),
        seq(|killers|, k requires 0 <= k < |killers| reads killers => KillerAt(k)))
    }

    /** What a tick never changes, read off the entity objects: the number
        of particles and the killers' (constant) directions. */
    function Layout(): Shape {
      Shape(|particles|, seq(|killers|, k requires 0 <= k < |killers| => killers[k].direction))
    }

    lemma SnapshotLayout()
      ensures ShapeOf(Snapshot()) == Layout()
    {
    }

    /** What the game expects of its arena: a non-empty window with diagonal
        `diag`, shared by every entity, and no entity listed twice. */
    static ghost predicate WellFormed(player: Player, particles: seq<Particle>, killers: seq<Killer>,
                                      windowWidth: int, windowHeight: int, diag: real)
    {
      && windowWidth > 0 && windowHeight > 0 && diag > 0.0
      && diag * diag == (windowWidth * windowWidth + windowHeight * windowHeight) as real
      && player.windowWidth == windowWidth && player.windowHeight == windowHeight
      && (forall i :: 0 <= i < |particles| ==>
            particles[i].windowWidth == windowWidth && particles[i].windowHeight == windowHeight)
      && (forall i :: 0 <= i < |killers| ==>
            killers[i].windowWidth == windowWidth && killers[i].windowHeight == windowHeight)
      && (forall i, j :: 0 <= i < j < |particles| ==> particles[i] != particles[j])
      && (forall i, j :: 0 <= i < j < |killers| ==> killers[i] != killers[j])
    }

    /** Construction; `Open` is the checked entry point. */
    constructor (player: Player, particles: seq<Particle>, killers: seq<Killer>, windowWidth: int, windowHeight: int,
                 diag: real, eta: real, timeSleep: real, roundLimit: int, render: bool, oldNetwork: bool)
      requires Validate(render, player.useNetwork) == Accepted
      ensures this.player == player && this.particles == particles && this.killers == killers
      ensures this.windowWidth == windowWidth && this.windowHeight == windowHeight && this.diag == diag
      ensures this.eta == eta && this.timeSleep == timeSleep && this.roundLimit == roundLimit
      ensures this.render == render && this.oldNetwork == oldNetwork
      ensures nCells == 1 + |particles| + |killers| && running && roundCount == 0
      ensures WellFormed(player, particles, killers, windowWidth, windowHeight, diag) ==> Valid()
    {
      this.windowWidth, this.windowHeight := windowWidth, windowHeight;
      this.diag := diag;
      this.player := player;
      this.particles := particles;
      this.killers := killers;
      running := true;
      nCells := 1 + |particles| + |killers|;
      this.eta := eta;
      this.timeSleep := timeSleep;
      this.roundLimit := roundLimit;
      roundCount := 0;
      this.render := render;
      this.oldNetwork := oldNetwork;
      if WellFormed(player, particles, killers, windowWidth, windowHeight, diag) {
        particleIndex := map i | 0 <= i < |particles| :: particles[i] := i;
        killerIndex := map i | 0 <= i < |killers| :: killers[i] := i;
      } else {
        particleIndex, killerIndex := map[], map[];
      }
    }

    /** `App(...)`: raises ValueError (here: returns null) exactly when
        `_validate` rejects the configuration. */
    static method Open(player: Player, particles: seq<Particle>, killers: seq<Killer>, windowWidth: int, windowHeight: int,
                       diag: real, eta: real, timeSleep: real, roundLimit: int, render: bool, oldNetwork: bool)
      returns (app: App?)
      ensures app == null <==> Validate(render, player.useNetwork).ValueError?
      ensures app != null ==> (
        && fresh(app)
        && app.player == player && app.particles == particles && app.killers == killers
        && app.windowWidth == windowWidth && app.windowHeight == windowHeight && app.diag == diag
        && app.roundLimit == roundLimit && app.render == render
        && app.nCells == 1 + |particles| + |killers| && app.running && app.roundCount == 0
        && (WellFormed(player, particles, killers, windowWidth, windowHeight, diag) ==> app.Valid()))
    {
      if Validate(render, player.useNetwork).ValueError? {
        return null;
      }
      app := new App(player, particles, killers, windowWidth, windowHeight, diag, eta, timeSleep, roundLimit, render, oldNetwork);
    }

    /** The arena objects show the values of `w`. */
    ghost predicate Shows(w: World)
      reads player, particles, killers
    {
      && Pos(player.x, player.y) == w.player && player.Standing() == w.progress
      && |w.particles| == |particles| && |w.killers| == |killers|
      && (forall k :: 0 <= k < |particles| ==> ParticleAt(k) == w.particles[k])
      && (forall k :: 0 <= k < |killers| ==> KillerAt(k) == w.killers[k])
    }

    lemma SnapshotShows()
      ensures Shows(Snapshot())
    {
    }

    lemma ShowsSnapshot(w: World)
      requires Shows(w)
      ensures Snapshot() == w
    {
    }

    /** One iteration of the particle loop of `_update_npc_positions`: the
        collision, the relative position into slots `2 * slot` and
        `2 * slot + 1`, the score, the step. */
    method VisitParticle(i: nat, slot: nat, d: TickDraw, coord: array<real>, ghost w: World) returns (score: real, dx: real, dy: real)
      requires Valid() && Fits(Layout(), d, Setup()) && i < |particles| && 2 * slot + 1 < coord.Length && Shows(w)
      modifies player, particles[i], coord
      ensures Shows(ParticleVisited(w, d, Setup(), i))
      ensures score == ParticleScore(Captured(w.player, w.particles[i]))
      ensures (dx, dy) == Rel(w.player, Checked(w.player, w.particles[i], d.respawns[i]), diag)
      ensures coord[..] == old(coord[..])[2 * slot := dx][2 * slot + 1 := dy]
    {
      var obj := particles[i];
      var distance := Coll(player, obj, windowWidth, windowHeight, d.respawns[i], d.now);
      assert Pos(obj.x, obj.y) == Checked(w.player, w.particles[i], d.respawns[i]);
      dx := (obj.x - player.x) as real / diag;
      dy := (obj.y - player.y) as real / diag;
      score := if distance == 0 then 1.0 else 0.2;
      coord[2 * slot] := dx;
      coord[2 * slot + 1] := dy;
      assert player.Standing() == AfterColl(w.progress, w.player, w.particles[i], d.now - Setup().startTime);
      obj.MoveRight(d.particleSteps[i].x);
      obj.MoveUp(d.particleSteps[i].y);
    }

    /** One iteration of the killer loop of `_update_npc_positions`. */
    method VisitKiller(j: nat, slot: nat, d: TickDraw, coord: array<real>, ghost w: World) returns (score: real, dx: real, dy: real)
      requires Valid() && Fits(Layout(), d, Setup()) && j < |killers| && 2 * slot + 1 < coord.Length && Shows(w)
      modifies player, killers[j], coord
      ensures Shows(KillerVisited(w, d, Setup(), j))
      ensures score == KillerScore(Hit(w.player, w.killers[j].pos))
      ensures (dx, dy) == Rel(w.player, w.killers[j].pos, diag)
      ensures coord[..] == old(coord[..])[2 * slot := dx][2 * slot + 1 := dy]
    {
      var obj := killers[j];
      var collided := Fight(player, obj, d.now);
      dx := (obj.x - player.x) as real / diag;
      dy := (obj.y - player.y) as real / diag;
      score := if collided then -1.0 else -0.2;
      coord[2 * slot] := dx;
      coord[2 * slot + 1] := dy;
      assert player.Standing() == AfterFight(w.progress, w.player, w.killers[j], d.now - Setup().startTime);
      obj.MoveRight(d.killerSteps[j].x);
      obj.MoveUp(d.killerSteps[j].y);
      assert KillerAt(j) == Stepped(w.killers[j], d.killerSteps[j], Setup());
    }

    /** Where the particle loop of `_update_npc_positions` stands before
        iteration `i`: the first `i` particles visited, their scores and
        relative positions recorded, their slot pairs written. */
    ghost predicate ParticleLoop(w: World, d: TickDraw, v: seq<real>, i: nat, count: int,
                                 scores: seq<real>, rel: seq<(real, real)>, coord: array<real>)
      reads player, particles, killers, coord
    {
      && i <= |w.particles| == |d.respawns| && Covers(d, Setup(), |w.particles|, 0) && diag > 0.0
      && 2 * (1 + |w.particles|) <= |v|
      && Shows(ParticleSweep(w, d, Setup(), i))
      && count == 1 + i
      && scores == ParticleScores(w, i)
      && rel == ParticleRels(w, d, diag, i)
      && coord[..] == Slots(v, ParticleRels(w, d, diag, |w.particles|), 1, i)
    }

    /** One iteration of the particle loop. */
    method ParticleStep(i: nat, count: int, d: TickDraw, coord: array<real>, ghost w: World, ghost v: seq<real>,
                        scores: seq<real>, rel: seq<(real, real)>)
      returns (scores': seq<real>, rel': seq<(real, real)>)
      requires Valid() && Fits(Layout(), d, Setup()) && i < |particles| == |w.particles| && coord.Length == 2 * nCells
      requires ParticleLoop(w, d, v, i, count, scores, rel, coord)
      modifies player, particles[i], coord
      ensures ParticleLoop(w, d, v, i + 1, count + 1, scores', rel', coord)
    {
      ghost var cur := ParticleSweep(w, d, Setup(), i);
      ghost var all := ParticleRels(w, d, diag, |w.particles|);
      ParticleSweepAhead(w, d, Setup(), i, i);
      assert cur.player == w.player && cur.particles[i] == w.particles[i];
      var score, dx, dy := VisitParticle(i, count, d, coord, cur);
      ParticleRelsAt(w, d, diag, |w.particles|, i);
      SlotsNext(v, all, 1, i, count, dx, dy);
      scores' := scores + [score];
      rel' := rel + [(dx, dy)];
    }

    /** The particle loop of `_update_npc_positions`: `coord_array` receives
        the particles' relative positions, read after the collision check,
        from slot pair 1 on. */
    method SweepParticles(d: TickDraw, coord: array<real>, ghost w: World, ghost v: seq<real>) returns (scores: seq<real>, rel: seq<(real, real)>)
      requires Valid() && Fits(Layout(), d, Setup()) && coord.Length == 2 * nCells && Shows(w) && coord[..] == v
      modifies player, particles, coord
      ensures Shows(ParticleSweep(w, d, Setup(), |w.particles|))
      ensures scores == ParticleScores(w, |w.particles|)
      ensures rel == ParticleRels(w, d, diag, |w.particles|)
      ensures coord[..] == Slots(v, rel, 1, |w.particles|)
    {
      assert |w.particles| == |particles| && |w.killers| == |killers|;
      scores, rel := [], [];
      var count := 1;
      var i := 0;
      while i < |particles|
        invariant i <= |particles| && ParticleLoop(w, d, v, i, count, scores, rel, coord)
      {
        scores, rel := ParticleStep(i, count, d, coord, w, v, scores, rel);
        count := count + 1;
        i := i + 1;
      }
    }

    /** Where the killer loop of `_update_npc_positions` stands before
        iteration `j`: the first `j` killers visited, their scores and
        relative positions recorded, their slot pairs written. */
    ghost predicate KillerLoop(w: World, d: TickDraw, v: seq<real>, j: nat, count: int,
                               scores: seq<real>, rel: seq<(real, real)>, coord: array<real>)
      reads player, particles, killers, coord
    {
      && j <= |w.killers| && Covers(d, Setup(), 0, |w.killers|) && diag > 0.0
      && 2 * (|w.particles| + 1 + |w.killers|) <= |v|
      && Shows(KillerSweep(w, d, Setup(), j))
      && count == |w.particles| + 1 + j
      && scores == KillerScores(w.player, w.killers, j)
      && rel == KillerRels(w.player, w.killers, diag, j)
      && coord[..] == Slots(v, KillerRels(w.player, w.killers, diag, |w.killers|), |w.particles| + 1, j)
    }

    /** One iteration of the killer loop. */
    method KillerStep(j: nat, count: int, d: TickDraw, coord: array<real>, ghost w: World, ghost v: seq<real>,
                      scores: seq<real>, rel: seq<(real, real)>)
      returns (scores': seq<real>, rel': seq<(real, real)>)
      requires Valid() && Fits(Layout(), d, Setup()) && j < |killers| == |w.killers| && coord.Length == 2 * nCells
      requires KillerLoop(w, d, v, j, count, scores, rel, coord)
      modifies player, killers[j], coord
      ensures KillerLoop(w, d, v, j + 1, count + 1, scores', rel', coord)
    {
      ghost var cur := KillerSweep(w, d, Setup(), j);
      ghost var all := KillerRels(w.player, w.killers, diag, |w.killers|);
      KillerSweepAhead(w, d, Setup(), j, j);
      assert cur.player == w.player && cur.killers[j] == w.killers[j];
      var score, dx, dy := VisitKiller(j, count, d, coord, cur);
      KillerRelsAt(w.player, w.killers, diag, |w.killers|, j);
      SlotsNext(v, all, |w.particles| + 1, j, count, dx, dy);
      scores' := scores + [score];
      rel' := rel + [(dx, dy)];
    }

    /** The killer loop of `_update_npc_positions`: `coord_array` receives
        the killers' relative positions after the particles'. */
    method SweepKillers(d: TickDraw, coord: array<real>, ghost w: World, ghost v: seq<real>) returns (scores: seq<real>, rel: seq<(real, real)>)
      requires Valid() && Fits(Layout(), d, Setup()) && coord.Length == 2 * nCells && Shows(w) && coord[..] == v
      modifies player, killers, coord
      ensures Shows(KillerSweep(w, d, Setup(), |w.killers|))
      ensures scores == KillerScores(w.player, w.killers, |w.killers|)
      ensures rel == KillerRels(w.player, w.killers, diag, |w.killers|)
      ensures coord[..] == Slots(v, rel, |w.particles| + 1, |w.killers|)
    {
      assert |w.particles| == |particles| && |w.killers| == |killers|;
      scores, rel := [], [];
      var count := |particles| + 1;
      var j := 0;
      while j < |killers|
        invariant j <= |killers| && KillerLoop(w, d, v, j, count, scores, rel, coord)
      {
        scores, rel := KillerStep(j, count, d, coord, w, v, scores, rel);
        count := count + 1;
        j := j + 1;
      }
    }

    /** `coord_array` before the loops: a fresh zero vector of `2 * n_cells`
        entries, the player's position as a fraction of the window in the
        first two. */
    method NewCoord(ghost p: Pos) returns (coord: array<real>)
      requires Valid() && Pos(player.x, player.y) == p
      ensures fresh(coord) && coord[..] == Header(p, Setup(), nCells)
    {
      coord := new real[2 * nCells](_ => 0.0);
      coord[0] := player.x as real / windowWidth as real;
      coord[1] := player.y as real / windowHeight as real;
    }

    /** The two loops of `_update_npc_positions`, one after the other:
        every entity is visited once, its relative position lands in its
        slot pair of `coord_array`, its score is recorded. */
    method Sweep(d: TickDraw, coord: array<real>, ghost w: World) returns (scores: seq<real>, rel: seq<(real, real)>)
      requires Valid() && Fits(Layout(), d, Setup()) && Shows(w)
      requires coord[..] == Header(w.player, Setup(), nCells)
      modifies player, particles, killers, coord
      ensures Shows(NpcWorld(w, d, Setup()))
      ensures scores == Scores(w) && rel == RelPositions(w, d, diag)
      ensures coord[..] == StateVector(w.player, rel, Setup())
    {
      ghost var v := coord[..];
      var pScores, pRel := SweepParticles(d, coord, w, v);
      ghost var m := ParticleSweep(w, d, Setup(), |w.particles|);
      var kScores, kRel := SweepKillers(d, coord, m, Slots(v, pRel, 1, |pRel|));
      scores, rel := pScores + kScores, pRel + kRel;
      assert m.player == w.player && m.killers == w.killers && |m.particles| == |pRel| == |w.particles|;
      SweptVector(w, d, Setup(), diag, nCells);
    }

    /** `_update_npc_positions`: for each particle, then each killer, test
        the collision, record the relative position (in `coord_array`) and
        the score, and step the entity; then form the target.  The target
        returned is the one before its final L2 normalisation. */
    method UpdateNpcPositions(d: TickDraw) returns (coord: array<real>, target: (real, real))
      requires Valid() && Fits(ShapeOf(Snapshot()), d, Setup())
      modifies player, particles, killers
      ensures fresh(coord)
      ensures var w := old(Snapshot());
        && Snapshot() == NpcWorld(w, d, Setup())
        && coord[..] == StateVector(w.player, RelPositions(w, d, diag), Setup())
        && target == Target(RelPositions(w, d, diag), Scores(w))
    {
      ghost var w := Snapshot();
      coord := NewCoord(w.player);
      SnapshotLayout();
      SnapshotShows();
      var scores, relPositions := Sweep(d, coord, w);
      ShowsSnapshot(NpcWorld(w, d, Setup()));
      target := Target(relPositions, scores);
    }

    /** The move `_run_network` makes; the network's prediction, exploration
        noise and normalisation are not modelled, so the step is an input. */
    method RunNetwork(step: Pos)
      requires Valid()
      modifies player
      ensures Snapshot() == old(Snapshot()).(player := Moved(old(Snapshot()).player, step, Setup()))
    {
      player.x := (player.x + step.x) % windowWidth;
      player.y := (player.y + step.y) % windowHeight;
    }

    /** The NPC part of a frame: `_update_npc_positions`, whose state vector
        and target the frame does not use when the network's step is given. */
    method MoveNpcs(d: TickDraw)
      requires Valid() && Fits(ShapeOf(Snapshot()), d, Setup())
      modifies player, particles, killers
      ensures Snapshot() == NpcWorld(old(Snapshot()), d, Setup())
    {
      var coord, target := UpdateNpcPositions(d);
    }

    /** `on_render` without drawing: one tick, then stop if the level is 0. */
    method OnRender(d: TickDraw)
      requires Valid() && Fits(ShapeOf(Snapshot()), d, Setup())
      modifies this, player, particles, killers
      ensures Snapshot() == TickWorld(old(Snapshot()), d, Setup())
      ensures running == (old(running) && Snapshot().progress.level != 0)
      ensures roundCount == old(roundCount)
    {
      ghost var w := Snapshot();
      MoveNpcs(d);
      ghost var n := NpcWorld(w, d, Setup());
      assert Snapshot() == n;
      if player.useNetwork {
        RunNetwork(d.playerStep);
        assert Snapshot() == n.(player := Moved(n.player, d.playerStep, Setup()));
      }
      assert Snapshot() == TickWorld(w, d, Setup());
      if player.level == 0 {
        running := false;
      }
    }

    /** One turn of the loop in `run`: count the round, stop at the round
        limit, play the tick. */
    method Round(d: TickDraw, ghost tick: (World, TickDraw) -> World)
      requires Valid() && Fits(ShapeOf(Snapshot()), d, Setup()) && Plays(tick, Setup())
      modifies this, player, particles, killers
      ensures roundCount == old(roundCount) + 1
      ensures Snapshot() == tick(old(Snapshot()), d)
      ensures running == (old(running) && old(roundCount) + 1 < roundLimit && Snapshot().progress.level != 0)
    {
      roundCount := roundCount + 1;
      if roundCount >= roundLimit {
        running := false;
      }
      OnRender(d);
    }

    /** What holds after each turn of the loop in `Run`: `ticks` ticks have
        been played from `c0` on, the world is `world`, and `goal`, the
        episode from the start, is `world` and `ticks` when the game has
        stopped and the rest of the episode from `world` when it goes on. */
    ghost predicate RunLoop(tick: (World, TickDraw) -> World, draws: seq<TickDraw>, goal: (World, nat),
                            c0: int, world: World, ticks: nat)
      reads this, player, particles, killers
    {
      && roundCount == c0 + ticks && ticks <= |draws|
      && Snapshot() == world
      && (running ==> ticks == 0 || roundCount < roundLimit)
      && (running ==>
            var rest := Episode(tick, world, draws[ticks..], roundCount, roundLimit);
            goal == (rest.0, ticks + rest.1))
      && (!running ==> goal == (world, ticks))
    }

    /** One turn of the loop in `Run`. */
    method RunStep(draws: seq<TickDraw>, ghost tick: (World, TickDraw) -> World, ghost goal: (World, nat),
                   ghost c0: int, ghost world: World, ticks: nat) returns (ghost next: World)
      requires Valid() && FitsAll(Layout(), draws, Setup()) && Plays(tick, Setup())
      requires |draws| >= Max(roundLimit - c0, 1)
      requires running && RunLoop(tick, draws, goal, c0, world, ticks)
      modifies this, player, particles, killers
      ensures RunLoop(tick, draws, goal, c0, next, ticks + 1)
    {
      assert ticks < |draws|;
      SnapshotLayout();
      next := tick(world, draws[ticks]);
      EpisodeAdvance(tick, world, next, draws, ticks, roundCount, roundLimit);
      Round(draws[ticks], tick);
    }

    /** `run` without rendering: play rounds until the game stops.  The
        outcome is the value-level `Episode` of `tick`, which is any function
        that plays a tick as `TickWorld` does (`Tick` is one). */
    method Run(draws: seq<TickDraw>, ghost tick: (World, TickDraw) -> World) returns (ticks: nat)
      requires Valid() && FitsAll(Layout(), draws, Setup())
      requires |draws| >= Max(roundLimit - roundCount, 1)
      requires Plays(tick, Setup())
      modifies this, player, particles, killers
      ensures !running
      ensures roundCount == old(roundCount) + ticks
      ensures old(running) ==> (Snapshot(), ticks) == Episode(tick, old(Snapshot()), draws, old(roundCount), roundLimit)
      ensures !old(running) ==> ticks == 0 && Snapshot() == old(Snapshot())
    {
      ticks := 0;
      if !running {
        return;
      }
      ghost var world := Snapshot();
      ghost var c0 := roundCount;
      ghost var goal := Episode(tick, world, draws, c0, roundLimit);
      assert draws[0..] == draws;
      while running
        invariant RunLoop(tick, draws, goal, c0, world, ticks)
        decreases if running then 1 + Max(roundLimit - roundCount, 0) else 0
      {
        world := RunStep(draws, tick, goal, c0, world, ticks);
        ticks := ticks + 1;
      }
    }
  }
}
