/** The training driver (`dashboard.py`): building the arena of a round,
    running batches of players, keeping the survivors, breeding children from
    them and ranking the last generation.  Random draws, clock readings and
    the networks' mutation are parameters. */
module Dashboard {
  import opened Model
  import opened View
  import Ranking
  import Policy

  datatype Result<T> = Success(value: T) | Failure(message: string)

  /** `Config`, as an immutable record. */
  datatype Config = Config(
    numberOfKillers: nat, numberOfParticles: nat, windowWidth: int, windowHeight: int,
    eta: real, useNetwork: bool, firstLayer: int, secondLayer: int, lr: real,
    timeSleep: real, roundLimit: int, render: bool, oldNetwork: bool)

  /** Decimal digits of `n`, as `f'{n}'` writes them: they spell `n` back,
      and only `0` itself starts with a `0`. */
  function Digits(n: nat): (s: string)
    ensures |s| >= 1 && forall k :: 0 <= k < |s| ==> '0' <= s[k] <= '9'
    ensures DigitsValue(s) == n
    ensures s[0] == '0' ==> n == 0
  {
    if n < 10 then [('0' as int + n) as char] else Digits(n / 10) + [('0' as int + n % 10) as char]
  }

  /** The number a string of decimal digits spells. */
  function DigitsValue(s: string): int {
    if s == [] then 0 else DigitsValue(s[..|s| - 1]) * 10 + (s[|s| - 1] as int - '0' as int)
  }

  /** Different numbers get different names, so the `particle_<i>` and
      `killer_<i>` names of one round are all distinct. */
  lemma NamesDistinct(prefix: string, i: nat, j: nat)
    requires i != j
    ensures prefix + Digits(i) != prefix + Digits(j)
  {
    assert (prefix + Digits(i))[|prefix|..] == Digits(i);
    assert (prefix + Digits(j))[|prefix|..] == Digits(j);
  }

  // ------------------------------------------------------------ get_npcs

  /** The random start draws of one round: a start position per particle,
      and a direction and start position per killer. */
  datatype Starts = Starts(particles: seq<Pos>, killers: seq<(int, Pos)>)

  /** The draws are as many as the configuration asks for, and each lies in
      the range its `randint` draws from. */
  predicate StartsFit(conf: Config, st: Starts) {
    && conf.windowWidth > 0 && conf.windowHeight > 0
    && |st.particles| == conf.numberOfParticles && |st.killers| == conf.numberOfKillers
    && (forall i :: 0 <= i < |st.particles| ==>
          20 <= st.particles[i].x <= conf.windowWidth - 20 && 0 <= st.particles[i].y <= conf.windowHeight)
    && (forall i :: 0 <= i < |st.killers| ==>
          4 * conf.windowWidth <= 5 * st.killers[i].1.x <= 5 * conf.windowWidth
          && 0 <= st.killers[i].1.y <= conf.windowHeight)
  }

  /** The arena a round starts from, as values. */
  function StartWorld(player: Pos, progress: Progress, st: Starts): (w: World)
    ensures |w.particles| == |st.particles| && |w.killers| == |st.killers|
  {
    World(player, progress, st.particles,
          seq(|st.killers|, k requires 0 <= k < |st.killers| => KillerView(st.killers[k].1, st.killers[k].0, KillerStart.level)))
  }

  /** Particle `i` as `get_npcs` creates it. */
  predicate NewParticle(p: Particle, conf: Config, i: nat, at: Pos)
    reads p
  {
    && p.name == "particle_" + Digits(i)
    && p.windowWidth == conf.windowWidth && p.windowHeight == conf.windowHeight
    && Pos(p.x, p.y) == at
  }

  /** Killer `i` as `get_npcs` creates it. */
  predicate NewKiller(k: Killer, conf: Config, i: nat, draw: (int, Pos))
    reads k
  {
    && k.name == "killer_" + Digits(i)
    && k.windowWidth == conf.windowWidth && k.windowHeight == conf.windowHeight
    && k.direction == draw.0 && Pos(k.x, k.y) == draw.1 && k.Look() == KillerStart
  }

  /** `get_npcs`: `numberOfParticles` fresh particles named `particle_<i>`
      and `numberOfKillers` fresh killers named `killer_<i>`, each at its
      drawn start and in the configured window. */
  method GetNpcs(conf: Config, st: Starts) returns (particles: seq<Particle>, killers: seq<Killer>)
    requires StartsFit(conf, st)
    ensures |particles| == conf.numberOfParticles && |killers| == conf.numberOfKillers
    ensures forall i :: 0 <= i < |particles| ==> fresh(particles[i]) && NewParticle(particles[i], conf, i, st.particles[i])
    ensures forall i :: 0 <= i < |killers| ==> fresh(killers[i]) && NewKiller(killers[i], conf, i, st.killers[i])
    ensures forall i, j :: 0 <= i < j < |particles| ==> particles[i] != particles[j]
    ensures forall i, j :: 0 <= i < j < |killers| ==> killers[i] != killers[j]
  {
    particles := NewParticles(conf, st);
    killers := NewKillers(conf, st);
  }

  /** The particle loop of `get_npcs`. */
  method NewParticles(conf: Config, st: Starts) returns (particles: seq<Particle>)
    requires StartsFit(conf, st)
    ensures |particles| == conf.numberOfParticles
    ensures forall i :: 0 <= i < |particles| ==> fresh(particles[i]) && NewParticle(particles[i], conf, i, st.particles[i])
    ensures forall i, j :: 0 <= i < j < |particles| ==> particles[i] != particles[j]
  {
    particles := [];
    var i := 0;
    while i < conf.numberOfParticles
      invariant i <= conf.numberOfParticles && |particles| == i
      invariant forall k :: 0 <= k < i ==> fresh(particles[k]) && NewParticle(particles[k], conf, k, st.particles[k])
      invariant forall k, j :: 0 <= k < j < i ==> particles[k] != particles[j]
      modifies {}
    {
      var p := new Particle("particle_" + Digits(i), conf.windowWidth, conf.windowHeight, st.particles[i].x, st.particles[i].y);
      particles := particles + [p];
      i := i + 1;
    }
  }

  /** The killer loop of `get_npcs`. */
  method NewKillers(conf: Config, st: Starts) returns (killers: seq<Killer>)
    requires StartsFit(conf, st)
    ensures |killers| == conf.numberOfKillers
    ensures forall i :: 0 <= i < |killers| ==> fresh(killers[i]) && NewKiller(killers[i], conf, i, st.killers[i])
    ensures forall i, j :: 0 <= i < j < |killers| ==> killers[i] != killers[j]
  {
    killers := [];
    var i := 0;
    while i < conf.numberOfKillers
      invariant i <= conf.numberOfKillers && |killers| == i
      invariant forall k :: 0 <= k < i ==> fresh(killers[k]) && NewKiller(killers[k], conf, k, st.killers[k])
      invariant forall k, j :: 0 <= k < j < i ==> killers[k] != killers[j]
      modifies {}
    {
      var (direction, at) := st.killers[i];
      var k := new Killer("killer_" + Digits(i), direction, conf.windowWidth, conf.windowHeight, at.x, at.y);
      killers := killers + [k];
      i := i + 1;
    }
  }  // ------------------------------------------------- run_simulation_round

  /** One round's draws: the starts of its entities and one draw per tick. */
  datatype RoundDraw = RoundDraw(starts: Starts, ticks: seq<TickDraw>)

  /** What the ticks of a round never change, read off its starts. */
  function StartShape(st: Starts): Shape {
    Shape(|st.particles|, seq(|st.killers|, k requires 0 <= k < |st.killers| => st.killers[k].0))
  }

  /** The game's setting as a player sees it. */
  function PlayerSetting(player: Player): Setting {
    Setting(player.windowWidth, player.windowHeight, player.startTime, player.useNetwork, player.speed)
  }

  /** A round's draws fit the configuration and the setting `s`, and there
      is a tick draw for every round the game may play. */
  predicate RoundFits(conf: Config, rd: RoundDraw, s: Setting) {
    && StartsFit(conf, rd.starts) && s.width == conf.windowWidth && s.height == conf.windowHeight
    && FitsAll(StartShape(rd.starts), rd.ticks, s) && |rd.ticks| >= Max(conf.roundLimit, 1)
  }

  /** `diag` is the window's diagonal `hypot(width, height)`, exactly. */
  predicate IsDiagonal(conf: Config, diag: real) {
    && conf.windowWidth > 0 && conf.windowHeight > 0 && diag > 0.0
    && diag * diag == (conf.windowWidth * conf.windowWidth + conf.windowHeight * conf.windowHeight) as real
  }

  /** `run_simulation_round`: fresh particles and killers, an `App` around
      them (which raises, here `Failure`, when `_validate` rejects the
      configuration) and its `run`.  The player ends where the episode of
      `Tick` from the round's start world ends; `Success` carries the number
      of ticks played. */
  method RunSimulationRound(player: Player, conf: Config, diag: real, rd: RoundDraw) returns (r: Result<nat>)
    requires IsDiagonal(conf, diag)
    requires player.windowWidth == conf.windowWidth && player.windowHeight == conf.windowHeight
    requires RoundFits(conf, rd, PlayerSetting(player))
    modifies player
    ensures r.Failure? <==> Validate(conf.render, player.useNetwork).ValueError?
    ensures r.Failure? ==> unchanged(player)
    ensures r.Success? ==>
      var e := Episode(Tick(PlayerSetting(player)),
                       StartWorld(Pos(old(player.x), old(player.y)), old(player.Standing()), rd.starts),
                       rd.ticks, 0, conf.roundLimit);
      Pos(player.x, player.y) == e.0.player && player.Standing() == e.0.progress && r.value == e.1
  {
    var particles, killers := GetNpcs(conf, rd.starts);
    var app := App.Open(player, particles, killers, conf.windowWidth, conf.windowHeight, diag,
                        conf.eta, conf.timeSleep, conf.roundLimit, conf.render, conf.oldNetwork);
    if app == null {
      return Failure(Validate(conf.render, player.useNetwork).message);
    }
    ghost var w := StartWorld(Pos(player.x, player.y), player.Standing(), rd.starts);
    assert app.Shows(w);
    app.ShowsSnapshot(w);
    assert app.Layout() == StartShape(rd.starts);
    assert app.Setup() == PlayerSetting(player);
    TickPlays(app.Setup());
    var ticks := app.Run(rd.ticks, Tick(app.Setup()));
    return Success(ticks);
  }

  // ------------------------------------------------- run_simulation_batch

  /** `max(level_data) if level_data else 0`: the highest level in a
      trace, 0 for an empty one. */
  function MaxLevel(trace: seq<Sample>): (m: int)
    ensures trace == [] ==> m == 0
    ensures forall k :: 0 <= k < |trace| ==> trace[k].level <= m
    ensures trace != [] ==> exists k :: 0 <= k < |trace| && trace[k].level == m
  {
    if trace == [] then 0
    else if |trace| == 1 || trace[0].level >= MaxLevel(trace[1..]) then
      assert forall k :: 1 <= k < |trace| ==> trace[k] == trace[1..][k - 1];
      trace[0].level
    else
      assert forall k :: 1 <= k < |trace| ==> trace[k] == trace[1..][k - 1];
      MaxLevel(trace[1..])
  }

  /** A player whose round reached `cutoff` and who ended alive survives. */
  predicate Survives(p: Progress, cutoff: int) {
    MaxLevel(p.trace) >= cutoff && p.level >= 1
  }

  /** The players of `ps` that survive, in their order. */
  function Survivors(ps: seq<Player>, cutoff: int): (r: seq<Player>)
    reads set k | 0 <= k < |ps| :: ps[k]
    ensures |r| <= |ps|
  {
    if ps == [] then []
    else
      var last := ps[|ps| - 1];
      Survivors(ps[..|ps| - 1], cutoff) + (if Survives(last.Standing(), cutoff) then [last] else [])
  }

  /** Every survivor is one of the players, and there are no more of them. */
  lemma {:induction false} SurvivorsFromPlayers(ps: seq<Player>, cutoff: int)
    ensures var r := Survivors(ps, cutoff);
      |r| <= |ps| && forall a :: 0 <= a < |r| ==> r[a] in ps
  {
    if ps != [] {
      var init := ps[..|ps| - 1];
      SurvivorsFromPlayers(init, cutoff);
      var r0 := Survivors(init, cutoff);
      forall a | 0 <= a < |r0| ensures r0[a] in ps {
        var k :| 0 <= k < |init| && init[k] == r0[a];
        assert ps[k] == init[k];
      }
    }
  }

  /** A player is kept exactly when it survives (players listed once). */
  lemma {:induction false} SurvivorsExactly(ps: seq<Player>, cutoff: int)
    requires forall i, j :: 0 <= i < j < |ps| ==> ps[i] != ps[j]
    ensures forall i :: 0 <= i < |ps| ==> (ps[i] in Survivors(ps, cutoff) <==> Survives(ps[i].Standing(), cutoff))
  {
    if ps != [] {
      var init := ps[..|ps| - 1];
      var last := ps[|ps| - 1];
      SurvivorsExactly(init, cutoff);
      SurvivorsFromPlayers(init, cutoff);
      var r0 := Survivors(init, cutoff);
      var r := Survivors(ps, cutoff);
      assert last !in r0;
      forall i | 0 <= i < |ps| ensures ps[i] in r <==> Survives(ps[i].Standing(), cutoff) {
        if i < |ps| - 1 {
          assert ps[i] == init[i];
          assert ps[i] != last;
        }
      }
    }
  }

  /** Survivors keep the players' order: of two survivors, the earlier one
      comes from an earlier player. */
  lemma {:induction false} SurvivorsInOrder(ps: seq<Player>, cutoff: int)
    ensures var r := Survivors(ps, cutoff);
      forall a, b :: 0 <= a < b < |r| ==> exists i, j :: 0 <= i < j < |ps| && r[a] == ps[i] && r[b] == ps[j]
  {
    if ps != [] {
      var init := ps[..|ps| - 1];
      SurvivorsInOrder(init, cutoff);
      SurvivorsFromPlayers(init, cutoff);
      var r0 := Survivors(init, cutoff);
      var r := Survivors(ps, cutoff);
      forall a, b | 0 <= a < b < |r| ensures exists i, j :: 0 <= i < j < |ps| && r[a] == ps[i] && r[b] == ps[j] {
        if b < |r0| {
          var i, j :| 0 <= i < j < |init| && r0[a] == init[i] && r0[b] == init[j];
          assert r[a] == ps[i] && r[b] == ps[j];
        } else {
          var i :| 0 <= i < |init| && init[i] == r0[a];
          assert r[a] == ps[i] && r[b] == ps[|ps| - 1];
        }
      }
    }
  }

  /** `run_simulation_batch`: refuses to run when `render` is set, then plays
      a round per player (failing on the first player the arena rejects) and
      keeps the survivors, in order. */
  method RunSimulationBatch(players: seq<Player>, conf: Config, diag: real, levelCutoff: int, draws: seq<RoundDraw>)
    returns (r: Result<seq<Player>>)
    requires IsDiagonal(conf, diag) && |draws| == |players|
    requires forall i :: 0 <= i < |players| ==>
      && players[i].windowWidth == conf.windowWidth && players[i].windowHeight == conf.windowHeight
      && RoundFits(conf, draws[i], PlayerSetting(players[i]))
    requires forall i, j :: 0 <= i < j < |players| ==> players[i] != players[j]
    modifies set k | 0 <= k < |players| :: players[k]
    ensures r.Failure? <==> conf.render || exists i :: 0 <= i < |players| && !players[i].useNetwork
    ensures r.Success? ==> r.value == Survivors(players, levelCutoff)
  {
    if conf.render {
      return Failure("If render is True, only run a single simulation.");
    }
    var survivors := [];
    var i := 0;
    while i < |players|
      invariant i <= |players| && BatchSoFar(players, i, levelCutoff, survivors)
    {
      var step := BatchStep(players, conf, diag, levelCutoff, draws, i, survivors);
      if step.Failure? {
        return Failure(step.message);
      }
      survivors := step.value;
      i := i + 1;
    }
    assert players[..i] == players;
    return Success(survivors);
  }

  /** After the first `i` players of a batch: all of them use the network
      and `survivors` are those that survived. */
  ghost predicate BatchSoFar(players: seq<Player>, i: nat, levelCutoff: int, survivors: seq<Player>)
    requires i <= |players|
    reads set k | 0 <= k < |players| :: players[k]
  {
    && (forall k :: 0 <= k < i ==> players[k].useNetwork)
    && survivors == Survivors(players[..i], levelCutoff)
  }

  /** One pass of the loop of `run_simulation_batch`: player `i` plays its
      round and is kept when it survived. */
  method BatchStep(players: seq<Player>, conf: Config, diag: real, levelCutoff: int, draws: seq<RoundDraw>,
                   i: nat, survivors: seq<Player>)
    returns (r: Result<seq<Player>>)
    requires IsDiagonal(conf, diag) && |draws| == |players| && i < |players| && !conf.render
    requires players[i].windowWidth == conf.windowWidth && players[i].windowHeight == conf.windowHeight
    requires RoundFits(conf, draws[i], PlayerSetting(players[i]))
    requires forall k :: 0 <= k < i ==> players[k] != players[i]
    requires BatchSoFar(players, i, levelCutoff, survivors)
    modifies players[i]
    ensures r.Failure? <==> !players[i].useNetwork
    ensures r.Success? ==> BatchSoFar(players, i + 1, levelCutoff, r.value)
  {
    var player := players[i];
    var round := RunSimulationRound(player, conf, diag, draws[i]);
    if round.Failure? {
      return Failure(round.message);
    }
    assert players[..i + 1][..i] == players[..i];
    var maxLevel := MaxLevel(player.timeData);
    var finalLevel := player.level;
    if maxLevel >= levelCutoff && finalLevel >= 1 {
      return Success(survivors + [player]);
    }
    return Success(survivors);
  }

  // ------------------------------------------------------ create_children

  /** A player as `Player(conf.window_dim, network, conf.use_network)`
      leaves it, created at clock reading `t`. */
  predicate Newborn(p: Player, conf: Config, net: Policy.Network, t: real)
    reads p
  {
    && p.windowWidth == conf.windowWidth && p.windowHeight == conf.windowHeight
    && p.network == net && p.useNetwork == conf.useNetwork && p.startTime == t
    && p.speed == 8 && p.x == 10 && p.y == conf.windowHeight / 2 && p.Standing() == PlayerStart
  }

  /** The players' networks, in order. */
  function Networks(ps: seq<Player>): (r: seq<Policy.Network>)
    ensures |r| == |ps| && forall k :: 0 <= k < |ps| ==> r[k] == ps[k].network
  {
    seq(|ps|, k requires 0 <= k < |ps| => ps[k].network)
  }

  /** `n` mutated copies of `net`; copy `c` uses the mutation draws of child
      `base + c`. */
  function Copies(net: Policy.Network, n: nat, mutate: (Policy.Network, nat) -> Policy.Network, base: nat): (r: seq<Policy.Network>)
    ensures |r| == n
  {
    seq(n, c requires 0 <= c < n => mutate(net, base + c))
  }

  /** The children's networks: `n` mutated copies of each parent's, parent
      by parent. */
  function ChildNets(parents: seq<Policy.Network>, n: nat, mutate: (Policy.Network, nat) -> Policy.Network): (r: seq<Policy.Network>)
    ensures |r| == |parents| * n
  {
    if parents == [] then []
    else
      var m := |parents| - 1;
      assert m * n + n == |parents| * n;
      ChildNets(parents[..m], n, mutate) + Copies(parents[m], n, mutate, m * n)
  }

  /** One more parent adds its block of copies at the end. */
  lemma ChildNetsStep(parents: seq<Policy.Network>, p: nat, n: nat, mutate: (Policy.Network, nat) -> Policy.Network)
    requires p < |parents|
    ensures ChildNets(parents[..p + 1], n, mutate) == ChildNets(parents[..p], n, mutate) + Copies(parents[p], n, mutate, p * n)
  {
    assert parents[..p + 1][..p] == parents[..p];
  }

  /** Child `q * n + c` is in block `q`. */
  lemma DivBlock(q: nat, c: nat, n: nat)
    requires c < n
    ensures (q * n + c) / n == q
  {
    var k := q * n + c;
    var d, r := k / n, k % n;
    assert k == d * n + r && 0 <= r < n;
    if d < q {
      MulLe(d + 1, q, n);
    } else if d > q {
      MulLe(q + 1, d, n);
    }
  }

  lemma MulLe(a: nat, b: nat, n: nat)
    requires a <= b
    ensures a * n <= b * n
  {
  }
  /** Child `k` is a mutated copy of parent `k / n`, with the mutation
      draws of child `k`: the children come grouped by parent, in the
      parents' order. */
  lemma {:induction false} ChildOfParent(parents: seq<Policy.Network>, n: nat, mutate: (Policy.Network, nat) -> Policy.Network, k: nat)
    requires k < |parents| * n
    ensures k / n < |parents| && ChildNets(parents, n, mutate)[k] == mutate(parents[k / n], k)
  {
    var m := |parents| - 1;
    if k < m * n {
      ChildOfParent(parents[..m], n, mutate, k);
    } else {
      DivBlock(m, k - m * n, n);
    }
  }

  /** `create_children`: for each survivor in order, `nChildren` new
      players, each holding a mutated copy of the survivor's network.  Child
      `k` uses mutation draws `k` and is created at clock reading
      `born(k)`. */
  method CreateChildren(survivors: seq<Player>, conf: Config, nChildren: int,
                        mutate: (Policy.Network, nat) -> Policy.Network, born: nat -> real)
    returns (children: seq<Player>)
    ensures Networks(children) == ChildNets(Networks(survivors), Max(nChildren, 0), mutate)
    ensures forall k :: 0 <= k < |children| ==> fresh(children[k]) && Newborn(children[k], conf, children[k].network, born(k))
    ensures forall i, j :: 0 <= i < j < |children| ==> children[i] != children[j]
  {
    var n := Max(nChildren, 0);
    ghost var nets := Networks(survivors);
    children := [];
    // where each child sits in `children`: a witness that they are distinct
    ghost var place: map<Player, nat> := map[];
    var p := 0;
    while p < |survivors|
      invariant p <= |survivors| && Grown(children, conf, born, nets, p, n, mutate, place)
      invariant forall k :: 0 <= k < |children| ==> fresh(children[k])
      modifies {}
    {
      ghost var before := children;
      children, place := AddBrood(children, survivors[p].network, conf, n, mutate, born, nets, p, place);
      assert forall k :: 0 <= k < |before| ==> children[k] == before[k];
      p := p + 1;
    }
    assert nets[..p] == nets;
    forall i, j | 0 <= i < j < |children|
      ensures children[i] != children[j]
    {
      assert place[children[i]] != place[children[j]];
    }
  }

  /** What the first `p` parents' blocks of children satisfy: their
      networks, their initial state, and their positions in `place`. */
  ghost predicate Grown(children: seq<Player>, conf: Config, born: nat -> real, nets: seq<Policy.Network>, p: nat, n: nat,
                        mutate: (Policy.Network, nat) -> Policy.Network, place: map<Player, nat>)
    reads set k | 0 <= k < |children| :: children[k]
  {
    && p <= |nets| && |children| == p * n
    && Networks(children) == ChildNets(nets[..p], n, mutate)
    && (forall k :: 0 <= k < |children| ==> Newborn(children[k], conf, children[k].network, born(k)))
    && (forall k :: 0 <= k < |children| ==> children[k] in place && place[children[k]] == k)
  }

  /** Each of `b`'s players mapped to its position, counted from `base`. */
  ghost function Places(b: seq<Player>, base: nat): (r: map<Player, nat>)
    requires forall i, j :: 0 <= i < j < |b| ==> b[i] != b[j]
    ensures forall c :: 0 <= c < |b| ==> b[c] in r && r[b[c]] == base + c
    ensures forall x :: x in r ==> x in b
  {
    map c | 0 <= c < |b| :: b[c] := base + c
  }

  /** Positions stay a witness of distinctness when fresh players are
      appended. */
  lemma PlacesAppend(a: seq<Player>, b: seq<Player>, place: map<Player, nat>)
    requires forall k :: 0 <= k < |a| ==> a[k] in place && place[a[k]] == k
    requires forall i, j :: 0 <= i < j < |b| ==> b[i] != b[j]
    requires forall c :: 0 <= c < |b| ==> b[c] !in a
    ensures forall k :: 0 <= k < |a + b| ==> (a + b)[k] in place + Places(b, |a|) && (place + Places(b, |a|))[(a + b)[k]] == k
  {
    forall k | 0 <= k < |a + b|
      ensures (a + b)[k] in place + Places(b, |a|) && (place + Places(b, |a|))[(a + b)[k]] == k
    {
      if k < |a| {
        assert (a + b)[k] == a[k] && a[k] !in Places(b, |a|);
      } else {
        assert (a + b)[k] == b[k - |a|];
      }
    }
  }

  /** Appending players created for the following child numbers keeps
      every child's initial state. */
  lemma NewbornAppend(a: seq<Player>, b: seq<Player>, conf: Config, born: nat -> real)
    requires forall k :: 0 <= k < |a| ==> Newborn(a[k], conf, a[k].network, born(k))
    requires forall c :: 0 <= c < |b| ==> Newborn(b[c], conf, b[c].network, born(|a| + c))
    ensures forall k :: 0 <= k < |a + b| ==> Newborn((a + b)[k], conf, (a + b)[k].network, born(k))
  {
    forall k | |a| <= k < |a + b|
      ensures Newborn((a + b)[k], conf, (a + b)[k].network, born(k))
    {
      var c := k - |a|;
      assert (a + b)[k] == b[c] && k == |a| + c;
    }
  }

  /** One pass of the outer loop of `create_children`: the children of
      parent `p` appended after those of the parents before it. */
  method AddBrood(children: seq<Player>, parent: Policy.Network, conf: Config, n: nat,
                  mutate: (Policy.Network, nat) -> Policy.Network, born: nat -> real,
                  ghost nets: seq<Policy.Network>, ghost p: nat, ghost place: map<Player, nat>)
    returns (more: seq<Player>, ghost place': map<Player, nat>)
    requires p < |nets| && parent == nets[p] && Grown(children, conf, born, nets, p, n, mutate, place)
    ensures Grown(more, conf, born, nets, p + 1, n, mutate, place')
    ensures |children| <= |more| && more[..|children|] == children
    ensures forall k :: |children| <= k < |more| ==> fresh(more[k])
  {
    var brood := Brood(parent, conf, n, |children|, mutate, born, children);
    GrownAppend(children, brood, conf, born, nets, p, n, mutate, place);
    more, place' := children + brood, place + Places(brood, |children|);
    assert more[..|children|] == children;
  }

  /** Appending parent `p`'s block of children to those of the parents
      before it gives the state after `p + 1` parents. */
  lemma GrownAppend(children: seq<Player>, brood: seq<Player>, conf: Config, born: nat -> real,
                    nets: seq<Policy.Network>, p: nat, n: nat, mutate: (Policy.Network, nat) -> Policy.Network,
                    place: map<Player, nat>)
    requires p < |nets| && Grown(children, conf, born, nets, p, n, mutate, place)
    requires Networks(brood) == Copies(nets[p], n, mutate, |children|)
    requires forall c :: 0 <= c < |brood| ==> Newborn(brood[c], conf, brood[c].network, born(|children| + c))
    requires forall i, j :: 0 <= i < j < |brood| ==> brood[i] != brood[j]
    requires forall c :: 0 <= c < |brood| ==> brood[c] !in children
    ensures Grown(children + brood, conf, born, nets, p + 1, n, mutate, place + Places(brood, |children|))
  {
    ChildNetsStep(nets, p, n, mutate);
    assert (p + 1) * n == p * n + n;
    assert Networks(children + brood) == Networks(children) + Networks(brood);
    PlacesAppend(children, brood, place);
    NewbornAppend(children, brood, conf, born);
  }

  /** The inner loop of `create_children`: `n` new players holding mutated
      copies of `parent`, the `c`-th one child number `base + c`. */
  method Brood(parent: Policy.Network, conf: Config, n: nat, base: nat,
               mutate: (Policy.Network, nat) -> Policy.Network, born: nat -> real, ghost earlier: seq<Player>)
    returns (brood: seq<Player>)
    ensures Networks(brood) == Copies(parent, n, mutate, base)
    ensures forall c :: 0 <= c < |brood| ==> fresh(brood[c]) && Newborn(brood[c], conf, brood[c].network, born(base + c))
    ensures forall i, j :: 0 <= i < j < |brood| ==> brood[i] != brood[j]
    ensures forall c :: 0 <= c < |brood| ==> brood[c] !in earlier
  {
    brood := [];
    var c := 0;
    while c < n
      invariant c <= n && |brood| == c
      invariant Networks(brood) == Copies(parent, c, mutate, base)
      invariant forall k :: 0 <= k < c ==> fresh(brood[k]) && Newborn(brood[k], conf, brood[k].network, born(base + k))
      invariant forall i, j :: 0 <= i < j < c ==> brood[i] != brood[j]
      invariant forall k :: 0 <= k < c ==> brood[k] !in earlier
      modifies {}
    {
      var childNetwork := mutate(parent, base + c);
      var child := new Player(conf.windowWidth, conf.windowHeight, childNetwork, conf.useNetwork, born(base + c));
      brood := brood + [child];
      c := c + 1;
    }
  }
  /** `max(n_players // len(survivors) - 1, 1)`: children per survivor. */
  function NChildren(nPlayers: int, survivors: nat): (n: int)
    requires survivors > 0
    ensures n >= 1 && n >= nPlayers / survivors - 1
  {
    Max(nPlayers / survivors - 1, 1)
  }

  /** With between 1 and `nPlayers` survivors, each has at least one child
      and the children number at most `nPlayers`. */
  lemma ChildrenFit(nPlayers: int, s: nat)
    requires 1 <= s <= nPlayers
    ensures 1 <= NChildren(nPlayers, s) && s * NChildren(nPlayers, s) <= nPlayers
  {
    var q := nPlayers / s;
    assert q * s + nPlayers % s == nPlayers;
    if q - 1 >= 1 {
      assert s * (q - 1) <= s * q;
    }
  }

  /** What every player of a generation shares: the configured window and
      network switch, and the speed a player is created with. */
  predicate Generation(p: Player, conf: Config) {
    && p.windowWidth == conf.windowWidth && p.windowHeight == conf.windowHeight
    && p.useNetwork == conf.useNetwork && p.speed == 8
  }

  /** The survivors of distinct players are distinct players, all of which
      survive, and no more numerous. */
  lemma SurvivorsFacts(ps: seq<Player>, cutoff: int)
    requires forall i, j :: 0 <= i < j < |ps| ==> ps[i] != ps[j]
    ensures var r := Survivors(ps, cutoff);
      && |r| <= |ps|
      && (forall a :: 0 <= a < |r| ==> r[a] in ps && Survives(r[a].Standing(), cutoff))
      && (forall a, b :: 0 <= a < b < |r| ==> r[a] != r[b])
  {
    var r := Survivors(ps, cutoff);
    SurvivorsFromPlayers(ps, cutoff);
    SurvivorsExactly(ps, cutoff);
    SurvivorsInOrder(ps, cutoff);
    forall a | 0 <= a < |r| ensures Survives(r[a].Standing(), cutoff) {
      var i :| 0 <= i < |ps| && ps[i] == r[a];
    }
  }

  // -------------------------------------------------------- run_evolution

  /** How `run_evolution` ends: with the last generation ranked, with the
      batch in which nobody survived (the program exits there), or with an
      exception. */
  datatype Outcome = Ranked(players: seq<Player>) | NoSurvivors(batch: nat) | Failed(message: string)

  /** The ranking key `x.level + max(x.level_data)`. */
  function Key(p: Progress): (key: int)
    ensures p.trace == [] ==> key == p.level
    ensures forall k :: 0 <= k < |p.trace| ==> p.level + p.trace[k].level <= key
    ensures p.trace != [] ==> exists k :: 0 <= k < |p.trace| && key == p.level + p.trace[k].level
  {
    p.level + MaxLevel(p.trace)
  }

  /** `run_evolution`: `nPlayers` players with the networks `nets`, then
      `nBatches` batches, each keeping the survivors and (but for the last)
      replacing the players by their children, then the last generation
      sorted by `Key`, best first and stable.  `rounds(b, i)` are the draws
      of player `i`'s round in batch `b`, `born(b, i)` the clock reading when
      player `i` of generation `b` is created, `mutate(b, net, k)` the
      mutated copy of `net` made for child `k` of batch `b`. */
  method RunEvolution(nPlayers: nat, nBatches: nat, levelCutoff: int, conf: Config, diag: real,
                      nets: seq<Policy.Network>, born: (nat, nat) -> real, rounds: (nat, nat) -> RoundDraw,
                      mutate: (nat, Policy.Network, nat) -> Policy.Network)
    returns (out: Outcome)
    requires IsDiagonal(conf, diag) && |nets| == nPlayers
    requires forall b, i, t :: RoundFits(conf, rounds(b, i), Setting(conf.windowWidth, conf.windowHeight, t, conf.useNetwork, 8))
    ensures out.NoSurvivors? ==> out.batch < nBatches
    ensures out.Ranked? && nBatches > 0 ==> |out.players| > 0
    ensures nBatches > 0 && (conf.render || !conf.useNetwork) && nPlayers > 0 ==> out.Failed?
    ensures nBatches == 0 && nPlayers > 0 ==> out.Failed?
    ensures out.Ranked? ==> |out.players| <= nPlayers
    ensures out.Ranked? ==> forall a, b :: 0 <= a < b < |out.players| ==> out.players[a] != out.players[b]
    ensures out.Ranked? ==> forall a, b :: 0 <= a < b < |out.players| ==>
      Key(out.players[a].Standing()) >= Key(out.players[b].Standing())
    ensures out.Ranked? ==> forall k :: 0 <= k < |out.players| ==> out.players[k].timeData != []
    ensures out.Ranked? && nBatches > 0 ==> forall k :: 0 <= k < |out.players| ==>
      Survives(out.players[k].Standing(), levelCutoff)
  {
    var players: seq<Player> := [];
    var i := 0;
    while i < nPlayers
      invariant i <= nPlayers && |players| == i
      invariant forall k :: 0 <= k < i ==> fresh(players[k]) && Newborn(players[k], conf, nets[k], born(0, k))
      invariant forall k, j :: 0 <= k < j < i ==> players[k] != players[j]
    {
      var player := new Player(conf.windowWidth, conf.windowHeight, nets[i], conf.useNetwork, born(0, i));
      players := players + [player];
      i := i + 1;
    }
    var batch := 0;
    while batch < nBatches
      invariant batch <= nBatches && |players| <= nPlayers
      invariant batch == 0 ==> |players| == nPlayers && forall k :: 0 <= k < |players| ==> players[k].timeData == []
      invariant forall k :: 0 <= k < |players| ==> fresh(players[k]) && Generation(players[k], conf)
      invariant forall k, j :: 0 <= k < j < |players| ==> players[k] != players[j]
      invariant batch > 0 && batch == nBatches ==> forall k :: 0 <= k < |players| ==>
        Survives(players[k].Standing(), levelCutoff)
      invariant batch > 0 ==> !conf.render && conf.useNetwork
      invariant batch > 0 ==> |players| > 0
    {
      var draws := seq(|players|, k requires 0 <= k < |players| => rounds(batch, k));
      var r := RunSimulationBatch(players, conf, diag, levelCutoff, draws);
      if r.Failure? {
        return Failed(r.message);
      }
      var survivors := r.value;
      assert |players| > 0 ==> players[0].useNetwork == conf.useNetwork;
      if survivors == [] {
        return NoSurvivors(batch);
      }
      SurvivorsFacts(players, levelCutoff);
      if batch < nBatches - 1 {
        var nChildren := NChildren(nPlayers, |survivors|);
        ChildrenFit(nPlayers, |survivors|);
        var next: nat := batch + 1;
        players := CreateChildren(survivors, conf, nChildren, (net: Policy.Network, k: nat) => mutate(batch, net, k), (k: nat) => born(next, k));
        assert |Networks(players)| == |players|;
      } else {
        players := survivors;
      }
      batch := batch + 1;
    }
    assert nBatches == 0 && nPlayers > 0 ==> players[0].timeData == [];
    out := RankPlayers(players);
    if out.Ranked? && nBatches > 0 {
      forall k | 0 <= k < |out.players| ensures Survives(out.players[k].Standing(), levelCutoff) {
        var j :| 0 <= j < |players| && players[j] == out.players[k];
      }
    }
  }

  /** `sorted(players, key=lambda x: x.level + max(x.level_data),
      reverse=True)`: a stable sort, best first, which raises (here
      `Failed`) when a player's trace is empty. */
  method RankPlayers(players: seq<Player>) returns (out: Outcome)
    requires forall k, j :: 0 <= k < j < |players| ==> players[k] != players[j]
    ensures out.Failed? <==> exists k :: 0 <= k < |players| && players[k].timeData == []
    ensures !out.NoSurvivors?
    ensures out.Ranked? ==> |out.players| == |players| && forall k :: 0 <= k < |out.players| ==> out.players[k] in players
    ensures out.Ranked? ==> forall a, b :: 0 <= a < b < |out.players| ==> out.players[a] != out.players[b]
    ensures out.Ranked? ==> forall a, b :: 0 <= a < b < |out.players| ==>
      Key(out.players[a].Standing()) >= Key(out.players[b].Standing())
    ensures out.Ranked? ==> forall k :: 0 <= k < |out.players| ==> out.players[k].timeData != []
  {
    if exists k :: 0 <= k < |players| && players[k].timeData == [] {
      return Failed("max() arg is an empty sequence");
    }
    var keys := seq(|players|, k requires 0 <= k < |players| reads players => Key(players[k].Standing()));
    var order := Ranking.RankOrder(keys);
    forall a, b | 0 <= a < b < |order| ensures players[order[a]] != players[order[b]] {
      Ranking.RankOrderDistinct(keys, a, b);
    }
    out := Ranked(seq(|order|, k requires 0 <= k < |order| => players[order[k]]));
  }
}
