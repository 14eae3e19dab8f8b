/** The entities of the arena (model.py): particles, killers and the player.
    Each is a class whose methods update its fields in place; the level and
    cosmetic state machines are also given as functions on values, about which
    the lemmas are stated. */
module Model {
  import Policy

  /** Python's `(v + d) % dim`.  For a positive modulus Python's floor modulo and
      Dafny's Euclidean `%` agree: the result is the representative of `v + d`
      in `[0, dim)`. */
  function Wrap(v: int, d: int, dim: int): (r: int)
    requires dim > 0
    ensures 0 <= r < dim
    ensures 0 <= v + d < dim ==> r == v + d
    ensures -dim <= v + d < 0 ==> r == v + d + dim
    ensures dim <= v + d < 2 * dim ==> r == v + d - dim
  {
    (v + d) % dim
  }

  function Max(a: int, b: int): int { if a >= b then a else b }
  function Min(a: int, b: int): int { if a <= b then a else b }

  // ---------------------------------------------------------------- Particle

  /** A reward source.  It walks by `randint(-4, 4)` on each axis per tick. */
  class Particle {
    const name: string
    const windowWidth: int
    const windowHeight: int
    var x: int
    var y: int

    /** The start position `randint(20, windowWidth - 20)`, `randint(0, windowHeight)`
        is drawn by the caller. */
    constructor (name: string, windowWidth: int, windowHeight: int, x0: int, y0: int)
      requires windowHeight > 0
      requires 20 <= x0 <= windowWidth - 20 && 0 <= y0 <= windowHeight
      ensures this.name == name && this.windowWidth == windowWidth && this.windowHeight == windowHeight
      ensures x == x0 && y == y0
    {
      this.name := name;
      this.windowWidth := windowWidth;
      this.windowHeight := windowHeight;
      x, y := x0, y0;
    }

    method MoveRight(delta: int)
      requires windowWidth > 0
      requires -4 <= delta <= 4
      modifies this
      ensures x == Wrap(old(x), delta, windowWidth) && y == old(y)
    {
      x := (x + delta) % windowWidth;
    }

    method MoveUp(delta: int)
      requires windowHeight > 0
      requires -4 <= delta <= 4
      modifies this
      ensures y == Wrap(old(y), delta, windowHeight) && x == old(x)
    {
      y := (y + delta) % windowHeight;
    }
  }

  // ------------------------------------------------------------------ Killer

  /** The horizontal step a killer with this `direction` may draw:
      `randint(-9, -5)` for -1, `randrange(5, 9)` for 0, `randrange(-4, 4)` otherwise. */
  predicate KillerStepX(direction: int, d: int) {
    if direction == -1 then -9 <= d <= -5
    else if direction == 0 then 5 <= d < 9
    else -4 <= d < 4
  }

  /** The vertical step: `randint(-9, -5)` for 1, `randint(5, 10)` for 10,
      `randrange(-4, 4)` otherwise. */
  predicate KillerStepY(direction: int, d: int) {
    if direction == 1 then -9 <= d <= -5
    else if direction == 10 then 5 <= d <= 10
    else -4 <= d < 4
  }

  /** The part of a killer that its level-up changes. */
  datatype KillerLook = KillerLook(level: int, size: int, fill: int, r: int, g: int, b: int)

  const KillerStart := KillerLook(1, 3, 1, 255, 0, 0)

  /** `Killer.level_up`: frozen once green is 255; otherwise three levels more
      and one cosmetic stage further (size, then fill, then colour). */
  function KillerLevelUp(k: KillerLook): (k': KillerLook)
    ensures k.g == 255 ==> k' == k
    ensures k.g != 255 ==> k'.level == k.level + 3 && k'.b == k.b
  {
    if k.g == 255 then k
    else
      var up := k.(level := k.level + 3);
      if up.size < 10 then up.(size := up.size + 1)
      else if up.fill < 10 then up.(fill := up.fill + 1)
      else if up.r < 15 then up.(r := up.r - 10, g := up.g + 10)
      else up.(r := 0, g := 255)
  }

  /** The look of a fresh killer after `n` calls of `level_up`. */
  function KillerAfter(n: nat): KillerLook {
    if n == 0 then KillerStart else KillerLevelUp(KillerAfter(n - 1))
  }

  /** The look after `m <= 17` effective level-ups, in closed form: seven size
      stages, nine fill stages, then the jump to pure green. */
  function KillerStage(m: nat): KillerLook
    requires m <= 17
  {
    if m <= 7 then KillerLook(1 + 3 * m, 3 + m, 1, 255, 0, 0)
    else if m <= 16 then KillerLook(1 + 3 * m, 10, m - 6, 255, 0, 0)
    else KillerLook(52, 10, 10, 0, 255, 0)
  }

  lemma KillerStageStep(m: nat)
    requires m <= 17
    ensures KillerLevelUp(KillerStage(m)) == KillerStage(Min(m + 1, 17))
  {
  }

  /** From the initial state the killer's level is `1 + 3 * min(n, 17)`: it
      stays 1 modulo 3, never exceeds 52, and from the 17th call on level_up is
      a no-op.  Red is only ever 255 or 0, so the fading branch (`R < 15`) of
      level_up is never taken. */
  lemma {:induction false} KillerLevelCap(n: nat)
    ensures KillerAfter(n) == KillerStage(Min(n, 17))
    ensures KillerAfter(n).level == 1 + 3 * Min(n, 17)
    ensures KillerAfter(n).level % 3 == 1 && KillerAfter(n).level <= 52
    ensures n >= 17 <==> KillerAfter(n).g == 255
    ensures KillerAfter(n).r == 0 || KillerAfter(n).r == 255
  {
    if n > 0 {
      KillerLevelCap(n - 1);
      KillerStageStep(Min(n - 1, 17));
    }
  }

  /** A threat source.  `direction` biases its random walk; its `level` is the
      damage it deals to the player. */
  class Killer {
    const name: string
    const windowWidth: int
    const windowHeight: int
    const direction: int
    var x: int
    var y: int
    var level: int
    var size: int
    var fill: int
    var R: int
    var G: int
    var B: int

    function Look(): KillerLook
      reads this
    {
      KillerLook(level, size, fill, R, G, B)
    }

    /** The start position `randint(windowWidth - windowWidth * 0.2, windowWidth)`,
        `randint(0, windowHeight)` is drawn by the caller. */
    constructor (name: string, direction: int, windowWidth: int, windowHeight: int, x0: int, y0: int)
      requires 4 * windowWidth <= 5 * x0 <= 5 * windowWidth
      requires 0 <= y0 <= windowHeight
      ensures this.name == name && this.direction == direction
      ensures this.windowWidth == windowWidth && this.windowHeight == windowHeight
      ensures x == x0 && y == y0 && Look() == KillerStart
    {
      this.name := name;
      this.direction := direction;
      this.windowWidth := windowWidth;
      this.windowHeight := windowHeight;
      x, y := x0, y0;
      level, size, fill := 1, 3, 1;
      R, G, B := 255, 0, 0;
    }

    method MoveRight(delta: int)
      requires windowWidth > 0
      requires KillerStepX(direction, delta)
      modifies this
      ensures x == Wrap(old(x), delta, windowWidth)
      ensures y == old(y) && Look() == old(Look())
    {
      x := (x + delta) % windowWidth;
    }

    method MoveUp(delta: int)
      requires windowHeight > 0
      requires KillerStepY(direction, delta)
      modifies this
      ensures y == Wrap(old(y), delta, windowHeight)
      ensures x == old(x) && Look() == old(Look())
    {
      y := (y + delta) % windowHeight;
    }

    method LevelUp()
      modifies this
      ensures Look() == KillerLevelUp(old(Look()))
      ensures x == old(x) && y == old(y)
    {
      if G == 255 {
        return;
      }
      level := level + 3;
      if size < 10 {
        size := size + 1;
      } else if fill < 10 {
        fill := fill + 1;
      } else if R < 15 {
        R := R - 10;
        G := G + 10;
      } else {
        R := 0;
        G := 255;
      }
    }
  }

  // ------------------------------------------------------------------ Player

  /** One entry of the player's `time_data`: the level reached and the seconds
      elapsed since the player's start time. */
  datatype Sample = Sample(level: int, time: real)

  /** The part of a player that level_up and level_down change. */
  datatype Progress = Progress(level: int, size: int, fill: int, r: int, g: int, b: int, trace: seq<Sample>)

  const PlayerStart := Progress(20, 3, 1, 255, 255, 0, [])

  /** `Player.level_up` at elapsed time `t`. */
  function PlayerLevelUp(p: Progress, t: real): (q: Progress)
    ensures p.b == 255 ==> q == p
    ensures p.b != 255 ==> q.level == p.level + 1 && q.trace == p.trace + [Sample(q.level, t)]
    ensures q.level % 10 != 0 ==> q.(level := p.level, trace := p.trace) == p
  {
    if p.b == 255 then p
    else
      var up := p.(level := p.level + 1, trace := p.trace + [Sample(p.level + 1, t)]);
      if up.level % 10 != 0 then up
      else if up.size < 10 then up.(size := up.size + 1)
      else if up.fill < 10 then up.(fill := up.fill + 1)
      else if up.r > 10 then up.(r := up.r - 2, g := up.g - 2)
      else up.(r := 0, b := 255)
  }

  /** `Player.level_down(num)` at elapsed time `t`. */
  function PlayerLevelDown(p: Progress, num: int, t: real): (q: Progress)
    ensures p.level == 0 ==> q == p
    ensures p.level != 0 ==> q.level == Max(p.level - num, 0) && q.trace == p.trace + [Sample(q.level, t)]
    ensures p.level >= 0 && num >= 0 ==> 0 <= q.level <= p.level
  {
    if p.level == 0 then p
    else
      var down := p.(level := if p.level - num >= 0 then p.level - num else 0);
      var down := down.(trace := p.trace + [Sample(down.level, t)]);
      if down.r < 250 then down.(r := down.r + 2, g := down.g + 2)
      else if down.fill > 1 then down.(fill := down.fill - 1)
      else if down.size > 3 then down.(size := down.size - 1)
      else down.(b := 0)
  }

  /** A call of level_up or level_down, with the elapsed time it records. */
  datatype LevelEvent = Up(t: real) | Down(num: int, t: real)

  /** The level state after the calls `events`, in order. */
  function Replay(p: Progress, events: seq<LevelEvent>): (r: Progress)
    ensures p.trace <= r.trace
    decreases |events|
  {
    if events == [] then p
    else
      var q := match events[0]
        case Up(t) => PlayerLevelUp(p, t)
        case Down(num, t) => PlayerLevelDown(p, num, t);
      Replay(q, events[1..])
  }

  /** Over any sequence of level_up / level_down calls with non-negative
      amounts the level stays non-negative, the trace only grows (at most one
      sample per call), and whenever it grew its last sample is the current
      level. */
  lemma {:induction false} ReplayKeepsLevel(p: Progress, events: seq<LevelEvent>)
    requires p.level >= 0
    requires forall i :: 0 <= i < |events| && events[i].Down? ==> events[i].num >= 0
    ensures Replay(p, events).level >= 0
    ensures p.trace <= Replay(p, events).trace
    ensures |Replay(p, events).trace| <= |p.trace| + |events|
    ensures |Replay(p, events).trace| == |p.trace| ==> Replay(p, events) == p
    ensures |Replay(p, events).trace| > |p.trace| ==> Replay(p, events).trace[|Replay(p, events).trace| - 1].level == Replay(p, events).level
    decreases |events|
  {
    if events != [] {
      var q := match events[0]
        case Up(t) => PlayerLevelUp(p, t)
        case Down(num, t) => PlayerLevelDown(p, num, t);
      assert q.level >= 0;
      assert forall i :: 0 <= i < |events[1..]| && events[1..][i].Down? ==> events[1..][i].num >= 0 by {
        forall i | 0 <= i < |events[1..]| ensures events[1..][i] == events[i + 1] { }
      }
      ReplayKeepsLevel(q, events[1..]);
    }
  }

  /** The learning agent.  Its `network` is never reassigned. */
  class Player {
    const windowWidth: int
    const windowHeight: int
    const network: Policy.Network
    const useNetwork: bool
    const startTime: real
    const speed: int
    var x: int
    var y: int
    var level: int
    var size: int
    var fill: int
    var R: int
    var G: int
    var B: int
    var timeData: seq<Sample>

    function Standing(): Progress
      reads this
    {
      Progress(level, size, fill, R, G, B, timeData)
    }

    constructor (windowWidth: int, windowHeight: int, network: Policy.Network, useNetwork: bool, startTime: real)
      ensures this.windowWidth == windowWidth && this.windowHeight == windowHeight
      ensures this.network == network && this.useNetwork == useNetwork && this.startTime == startTime
      ensures speed == 8 && x == 10 && y == windowHeight / 2
      ensures Standing() == PlayerStart
    {
      this.windowWidth := windowWidth;
      this.windowHeight := windowHeight;
      this.network := network;
      this.useNetwork := useNetwork;
      this.startTime := startTime;
      speed := 8;
      x, y := 10, windowHeight / 2;
      level, size, fill := 20, 3, 1;
      R, G, B := 255, 255, 0;
      timeData := [];
    }

    method MoveRight()
      requires windowWidth > 0
      modifies this
      ensures x == Wrap(old(x), speed, windowWidth)
      ensures y == old(y) && Standing() == old(Standing())
    {
      x := (x + speed) % windowWidth;
    }

    method MoveLeft()
      requires windowWidth > 0
      modifies this
      ensures x == Wrap(old(x), -speed, windowWidth)
      ensures y == old(y) && Standing() == old(Standing())
    {
      x := (x - speed) % windowWidth;
    }

    method MoveUp()
      requires windowHeight > 0
      modifies this
      ensures y == Wrap(old(y), -speed, windowHeight)
      ensures x == old(x) && Standing() == old(Standing())
    {
      y := (y - speed) % windowHeight;
    }

    method MoveDown()
      requires windowHeight > 0
      modifies this
      ensures y == Wrap(old(y), speed, windowHeight)
      ensures x == old(x) && Standing() == old(Standing())
    {
      y := (y + speed) % windowHeight;
    }

    /** `now` is the clock reading (`time.perf_counter()`) at the call. */
    method LevelUp(now: real)
      modifies this
      ensures Standing() == PlayerLevelUp(old(Standing()), now - startTime)
      ensures x == old(x) && y == old(y)
    {
      if B == 255 {
        return;
      }
      level := level + 1;
      timeData := timeData + [Sample(level, now - startTime)];
      if level % 10 == 0 {
        if size < 10 {
          size := size + 1;
        } else if fill < 10 {
          fill := fill + 1;
        } else if R > 10 {
          R := R - 2;
          G := G - 2;
        } else {
          R := 0;
          B := 255;
        }
      }
    }

    method LevelDown(num: int, now: real)
      modifies this
      ensures Standing() == PlayerLevelDown(old(Standing()), num, now - startTime)
      ensures x == old(x) && y == old(y)
    {
      if level == 0 {
        return;
      }
      if level - num >= 0 {
        level := level - num;
      } else {
        level := 0;
      }
      timeData := timeData + [Sample(level, now - startTime)];
      if R < 250 {
        R := R + 2;
        G := G + 2;
      } else if fill > 1 {
        fill := fill - 1;
      } else if size > 3 {
        size := size - 1;
      } else {
        B := 0;
      }
    }
  }
}
