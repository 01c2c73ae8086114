/**
 * The game state held in the closure of createScene: one object whose
 * fields are its variables, with a method per function that changes them
 * and per load or timer callback that the browser would run later.
 */
module ChickieGame {
  import opened Options
  import opened Geometry
  import opened Sweeps
  import opened Terrain
  import opened Combat

  /** Minimum milliseconds between two neighbour checks (checkDelay). */
  const CheckDelay: int := 100

  /** Where the player model is placed when it loads: the centre of tile (0, 0). */
  const PlayerStart: Vec3 := Vec3(2.0, PlayerY, 2.0)
  /** The powerup placed beside the player when it loads. */
  const TestPowerupPos: Vec3 := Vec3(3.0, PowerupY, 3.0)
  /** Where the first enemy is placed when its model loads. */
  const FirstEnemyPos: Vec3 := Vec3(8.0, EnemyY, 8.0)

  /** Error raised by `movesLeft += 2`, a name declared nowhere. */
  const MovesLeftError: string := "ReferenceError: movesLeft is not defined"
  /** Error raised by reading `chickie.position` while `chickie` is null. */
  const NullPlayerError: string := "TypeError: chickie is null"

  class Scene {
    // plots and plotsInProgress: the tile registry (see Terrain.Key).
    var plots: map<Tile, PlotType>
    var plotsInProgress: set<Tile>
    /** addPlot requests whose model has not arrived, with the type drawn for each. */
    var loading: map<Tile, PlotType>
    /** Loaded plots whose rise animation has not finished. */
    var rising: set<Tile>
    /** The load of the forest plot at the origin has not arrived yet. */
    var originLoading: bool
    /** The load of the player model has not arrived yet. */
    var chickieLoading: bool
    /** The player's position; None while `chickie` is null. */
    var chickie: Option<Vec3>
    var targetPosition: Option<Vec3>
    var isGameOver: bool
    var gameActive: bool
    var score: int
    var ammo: int
    /** Planted bombs (the `eggs` array). */
    var eggs: seq<Bomb>
    /** Bombs whose explosion timer is still pending. */
    var fuses: set<Bomb>
    /** Identity for the next mesh created (bombs and powerups). */
    var nextId: nat
    /** Enemy positions, in array order. */
    var enemies: seq<Vec3>
    /** The load started by spawnInitialEnemy has not arrived yet. */
    var firstEnemyLoading: bool
    /** spawnEnemy loads started and not yet arrived. */
    var pendingSpawns: nat
    var bullets: seq<Bullet>
    /** Ammo powerups in the scene, in the order they were added. */
    var powerups: seq<Powerup>
    /** Powerups whose ten-second removal timer is still pending. */
    var powerupTimers: set<Powerup>
    var lastCheckTime: int

    /** What holds between any two callbacks. */
    ghost predicate Valid()
      reads this
    {
      Counters() && Latch() && Registry() && Inventory() && Pickups() && Loaded()
    }

    /** Score and ammo never go below zero. */
    ghost predicate Counters()
      reads this`score, this`ammo
    {
      score >= 0 && ammo >= 0
    }

    /** `gameActive` is always the negation of `isGameOver`. */
    ghost predicate Latch()
      reads this`isGameOver, this`gameActive
    {
      gameActive == !isGameOver
    }

    /** A key is in progress from addPlot until its rise ends, and is loaded meanwhile. */
    ghost predicate Registry()
      reads this`plots, this`plotsInProgress, this`loading, this`rising
    {
      plotsInProgress == loading.Keys + rising &&
      loading.Keys !! rising &&
      rising <= plots.Keys
    }

    /** At most MaxEggs bombs, each once, each with its fuse still pending. */
    ghost predicate Inventory()
      reads this`eggs, this`fuses, this`nextId
    {
      BombsOk(eggs, fuses, nextId)
    }

    /** Each powerup is in the scene once; ids are below the next one. */
    ghost predicate Pickups()
      reads this`powerups, this`powerupTimers, this`nextId
    {
      Distinct(powerups) &&
      (forall q :: q in powerups ==> q.id < nextId) &&
      (forall q :: q in powerupTimers ==> q.id < nextId)
    }

    /** Until the player model arrives, nothing that needs its position exists. */
    ghost predicate Loaded()
      reads this`chickie, this`chickieLoading, this`ammo, this`fuses, this`bullets,
            this`pendingSpawns, this`powerups, this`powerupTimers
    {
      (chickieLoading <==> chickie.None?) &&
      (chickie.None? ==>
        ammo == 0 && fuses == {} && bullets == [] && pendingSpawns == 0 &&
        powerups == [] && powerupTimers == {})
    }

    /** createScene: empty registry, three model loads started, game running. */
    constructor ()
      ensures Valid()
      ensures plots == map[] && plotsInProgress == {} && loading == map[] && rising == {}
      ensures originLoading && chickieLoading && firstEnemyLoading
      ensures chickie == None && targetPosition == None
      ensures !isGameOver && gameActive && score == 0 && ammo == 0
      ensures eggs == [] && fuses == {} && enemies == [] && pendingSpawns == 0 && bullets == []
      ensures powerups == [] && powerupTimers == {} && nextId == 0 && lastCheckTime == 0
    {
      plots, plotsInProgress, loading, rising := map[], {}, map[], {};
      originLoading, chickieLoading, firstEnemyLoading := true, true, true;
      chickie, targetPosition := None, None;
      isGameOver, gameActive := false, true;
      score, ammo := 0, 0;
      eggs, fuses, nextId := [], {}, 0;
      enemies, pendingSpawns, bullets := [], 0, [];
      powerups, powerupTimers := [], {};
      lastCheckTime := 0;
    }

    // ---- model loads -----------------------------------------------------

    /** The origin plot arrives: tile (0, 0) is forest, whatever was there. */
    method OriginLoaded()
      requires Valid() && originLoading
      modifies this`plots, this`originLoading
      ensures Valid()
      ensures plots == old(plots)[Tile(0, 0) := Forest] && !originLoading
    {
      plots := plots[Tile(0, 0) := Forest];
      originLoading := false;
    }

    /** The player arrives at the centre of tile (0, 0), with a powerup beside it. */
    method ChickieLoaded()
      requires Valid() && chickieLoading
      modifies this`chickie, this`chickieLoading, this`powerups, this`nextId
      ensures Valid()
      ensures chickie == Some(PlayerStart) && !chickieLoading
      ensures powerups == old(powerups) + [Powerup(old(nextId), TestPowerupPos)]
      ensures nextId == old(nextId) + 1
    {
      var q := Powerup(nextId, TestPowerupPos);
      assert q !in powerups;
      powerups := powerups + [q];
      nextId := nextId + 1;
      chickie := Some(PlayerStart);
      chickieLoading := false;
    }

    /** spawnInitialEnemy's load arrives. */
    method FirstEnemyLoaded()
      requires Valid() && firstEnemyLoading
      modifies this`enemies, this`firstEnemyLoading
      ensures Valid()
      ensures enemies == old(enemies) + [FirstEnemyPos] && !firstEnemyLoading
    {
      enemies := enemies + [FirstEnemyPos];
      firstEnemyLoading := false;
    }

    /**
     * A spawnEnemy load arrives: the enemy appears 8 units from the player;
     * (ox, oz) is the offset `8 * (cos a, sin a)` for the random angle a.
     */
    method EnemyLoaded(ox: real, oz: real)
      requires Valid() && pendingSpawns > 0
      requires ox * ox + oz * oz == 64.0
      modifies this`enemies, this`pendingSpawns
      ensures Valid()
      ensures var p := chickie.value;
        enemies == old(enemies) + [Vec3(p.x + ox, EnemyY, p.z + oz)]
      ensures pendingSpawns == old(pendingSpawns) - 1
    {
      var p := chickie.value;
      enemies := enemies + [Vec3(p.x + ox, EnemyY, p.z + oz)];
      pendingSpawns := pendingSpawns - 1;
    }

    // ---- plot registry ---------------------------------------------------

    /**
     * addPlot(x, z): ignored when the tile is loaded or already in progress;
     * otherwise marked in progress and a load of `kind` (the random type) starts.
     */
    method AddPlot(x: int, z: int, kind: PlotType)
      requires Registry()
      modifies this`plotsInProgress, this`loading
      ensures Registry()
      ensures var t := Tile(x, z);
        if HasPlot(old(plots), x, z) || t in old(plotsInProgress) then
          plotsInProgress == old(plotsInProgress) && loading == old(loading)
        else
          plotsInProgress == old(plotsInProgress) + {t} && loading == old(loading)[t := kind]
    {
      var t := Tile(x, z);
      if HasPlot(plots, x, z) || t in plotsInProgress {
        return;
      }
      plotsInProgress := plotsInProgress + {t};
      loading := loading[t := kind];
    }

    /** The model for tile t arrives: the plot is stored and starts rising. */
    method PlotLoaded(t: Tile)
      requires Valid() && t in loading
      modifies this`plots, this`loading, this`rising
      ensures Valid()
      ensures plots == old(plots)[t := old(loading)[t]]
      ensures loading == old(loading) - {t} && rising == old(rising) + {t}
      ensures t in plotsInProgress
    {
      plots := plots[t := loading[t]];
      loading := loading - {t};
      rising := rising + {t};
    }

    /** The rise animation of tile t completes: only now is it no longer in progress. */
    method RiseFinished(t: Tile)
      requires Valid() && t in rising
      modifies this`rising, this`plotsInProgress
      ensures Valid()
      ensures rising == old(rising) - {t} && plotsInProgress == old(plotsInProgress) - {t}
      ensures t in plots && t !in plotsInProgress
    {
      rising := rising - {t};
      plotsInProgress := plotsInProgress - {t};
    }

    /**
     * checkAndAddPlots: at most once per CheckDelay ms, asks addPlot for the
     * neighbours of the player's tile across each edge it is near;
     * `choose` stands for the random type drawn in each addPlot.
     */
    method CheckAndAddPlots(now: int, choose: Tile -> PlotType)
      requires Valid()
      modifies this`lastCheckTime, this`plotsInProgress, this`loading
      ensures Valid()
      ensures chickie.None? || now - old(lastCheckTime) < CheckDelay ==>
        lastCheckTime == old(lastCheckTime) &&
        plotsInProgress == old(plotsInProgress) && loading == old(loading)
      ensures chickie.Some? && now - old(lastCheckTime) >= CheckDelay ==>
        lastCheckTime == now &&
        Requested(old(plotsInProgress), old(loading),
                  EdgeRequests(chickie.value.x, chickie.value.z), choose)
    {
      if chickie.None? {
        return;
      }
      if now - lastCheckTime < CheckDelay {
        return;
      }
      lastCheckTime := now;
      var p := chickie.value;
      var c := TileOf(p.x, p.z);
      var rx := RemPlotSize(p.x);
      var rz := RemPlotSize(p.z);
      var east, west := rx > PlotSize - SpawnDistance, rx < SpawnDistance;
      var north, south := rz > PlotSize - SpawnDistance, rz < SpawnDistance;
      assert EdgeRequests(p.x, p.z) == Edges(c, east, west, north, south);
      RequestEdges(c, east, west, north, south, choose);
    }

    /** The four edge tests of checkAndAddPlots from tile c, one addPlot each. */
    method RequestEdges(c: Tile, east: bool, west: bool, north: bool, south: bool,
                        choose: Tile -> PlotType)
      requires Registry()
      modifies this`plotsInProgress, this`loading
      ensures Registry()
      ensures Requested(old(plotsInProgress), old(loading), Edges(c, east, west, north, south), choose)
    {
      EdgesInOrder(c, east, west, north, south);
      ghost var i0, l0 := plotsInProgress, loading;
      ghost var s1 := RequestIfNear(east, Tile(c.x + 1, c.z), choose, i0, l0, {});
      ghost var s2 := RequestIfNear(west, Tile(c.x - 1, c.z), choose, i0, l0, s1);
      ghost var s3 := RequestIfNear(north, Tile(c.x, c.z + 1), choose, i0, l0, s2);
      ghost var s4 := RequestIfNear(south, Tile(c.x, c.z - 1), choose, i0, l0, s3);
    }

    /**
     * The registry once addPlot has run for every tile of `done`, starting
     * from in-progress set `i0` and pending loads `l0`: exactly the tiles of
     * `done` neither loaded nor in progress are added, each with its drawn
     * type, and no earlier entry changes.
     */
    ghost predicate Requested(i0: set<Tile>, l0: map<Tile, PlotType>, done: set<Tile>,
                              choose: Tile -> PlotType)
      reads this`plots, this`plotsInProgress, this`loading
    {
      var added := done - plots.Keys - i0;
      plotsInProgress == i0 + added && loading.Keys == l0.Keys + added &&
      (forall t :: t in l0 ==> loading[t] == l0[t]) &&
      (forall t :: t in added ==> loading[t] == choose(t))
    }

    /**
     * One of checkAndAddPlots' four edge tests: addPlot(t) when the player
     * is near that edge. Returns the tiles asked for so far.
     */
    method RequestIfNear(near: bool, t: Tile, choose: Tile -> PlotType, ghost i0: set<Tile>,
                         ghost l0: map<Tile, PlotType>, ghost done: set<Tile>)
      returns (ghost done': set<Tile>)
      requires Registry() && Requested(i0, l0, done, choose) && l0.Keys <= i0
      modifies this`plotsInProgress, this`loading
      ensures done' == done + EdgeTile(near, t)
      ensures Registry() && Requested(i0, l0, done', choose)
    {
      if near {
        AddPlot(t.x, t.z, choose(t));
      }
      done' := done + EdgeTile(near, t);
    }

    // ---- player and bombs ------------------------------------------------

    /** createBomb: a bomb at the player's ground position, its fuse lit. */
    method CreateBomb(p: Vec3, now: int) returns (b: Bomb)
      requires Valid() && |eggs| < MaxEggs && chickie.Some?
      modifies this`eggs, this`fuses, this`nextId
      ensures Valid()
      ensures b == Bomb(old(nextId), Vec3(p.x, BombY, p.z), now)
      ensures eggs == old(eggs) + [b] && fuses == old(fuses) + {b}
      ensures nextId == old(nextId) + 1
    {
      b := Bomb(nextId, Vec3(p.x, BombY, p.z), now);
      assert b !in eggs;
      eggs := eggs + [b];
      fuses := fuses + {b};
      nextId := nextId + 1;
    }

    /**
     * updateChickiePosition (the later of its two declarations): `len` is
     * the horizontal distance from the player to the target.
     */
    method UpdateChickiePosition(now: int, len: real)
      requires Valid()
      requires chickie.Some? && targetPosition.Some? ==>
        IsLength(len, targetPosition.value.x - chickie.value.x,
                 targetPosition.value.z - chickie.value.z)
      modifies this`chickie, this`targetPosition, this`eggs, this`fuses, this`nextId
      ensures Valid()
      ensures old(chickie.None? || targetPosition.None? || isGameOver) ==>
        chickie == old(chickie) && targetPosition == old(targetPosition) &&
        eggs == old(eggs) && fuses == old(fuses) && nextId == old(nextId)
      ensures old(chickie.Some? && targetPosition.Some? && !isGameOver) && len < ArrivalRadius ==>
        var p := chickie.value;
        var b := Bomb(old(nextId), Vec3(p.x, BombY, p.z), now);
        chickie == old(chickie) && targetPosition == None &&
        if old(|eggs|) < MaxEggs then
          eggs == old(eggs) + [b] && fuses == old(fuses) + {b} && nextId == old(nextId) + 1
        else
          eggs == old(eggs) && fuses == old(fuses) && nextId == old(nextId)
      ensures old(chickie.Some? && targetPosition.Some? && !isGameOver) && len >= ArrivalRadius ==>
        var q := StepToward(old(chickie).value, old(targetPosition).value, len, MoveSpeed);
        eggs == old(eggs) && fuses == old(fuses) && nextId == old(nextId) &&
        if TypeAt(plots, q.x, q.z) == Some(Water) then
          chickie == old(chickie) && targetPosition == None
        else
          chickie == Some(q) && targetPosition == old(targetPosition)
    {
      if chickie.None? || targetPosition.None? || isGameOver {
        return;
      }
      var p, t := chickie.value, targetPosition.value;
      if len < ArrivalRadius {
        if |eggs| < MaxEggs {
          var _ := CreateBomb(p, now);
        }
        targetPosition := None;
        return;
      }
      var q := StepToward(p, t, len, MoveSpeed);
      if TypeAt(plots, q.x, q.z) == Some(Water) {
        targetPosition := None;
        return;
      }
      chickie := Some(q);
    }

    /**
     * explodeBomb: nothing when `b` has left `eggs`; otherwise the forEach
     * over enemies splices out those in the blast (skipping the neighbour of
     * each), and each kill scores and asks for two new enemies.
     */
    method ExplodeBomb(b: Bomb)
      requires Valid()
      modifies this`enemies, this`score, this`pendingSpawns, this`eggs
      ensures Valid()
      ensures b !in old(eggs) ==>
        enemies == old(enemies) && score == old(score) &&
        pendingSpawns == old(pendingSpawns) && eggs == old(eggs)
      ensures b in old(eggs) ==>
        var (left, kills) := Sweep(old(enemies), InBlast(b.pos));
        enemies == left &&
        score == old(score) + BombKillScore * kills &&
        pendingSpawns == old(pendingSpawns) + SpawnsPerKill * kills &&
        eggs == Without(old(eggs), b) && |eggs| == |old(eggs)| - 1
    {
      if b !in eggs {
        return;
      }
      assert b in fuses;
      DropEgg(b);
      Blast(b.pos);
    }

    /** `b` leaves the list of bombs on the field. */
    method DropEgg(b: Bomb)
      requires Valid()
      modifies this`eggs
      ensures Valid()
      ensures eggs == Without(old(eggs), b)
      ensures b in old(eggs) ==> |eggs| == |old(eggs)| - 1
    {
      BombsOkWithout(eggs, fuses, nextId, b);
      eggs := Without(eggs, b);
    }

    /** The blast at `center`: every enemy within BlastRadius is removed and scored. */
    method Blast(center: Vec3)
      requires Valid() && chickie.Some?
      modifies this`enemies, this`score, this`pendingSpawns
      ensures Valid()
      ensures var (left, kills) := Sweep(old(enemies), InBlast(center));
        enemies == left &&
        score == old(score) + BombKillScore * kills &&
        pendingSpawns == old(pendingSpawns) + SpawnsPerKill * kills
    {
      var left, kills := ForEachRemoving(enemies, InBlast(center));
      enemies := left;
      score := score + BombKillScore * kills;
      pendingSpawns := pendingSpawns + SpawnsPerKill * kills;
    }

    /** The bomb timer of `b` fires, bombTimer ms after planting. */
    method FuseExpired(b: Bomb)
      requires Valid() && b in fuses
      modifies this`enemies, this`score, this`pendingSpawns, this`eggs, this`fuses
      ensures Valid()
      ensures fuses == old(fuses) - {b}
      ensures b !in old(eggs) ==>
        enemies == old(enemies) && score == old(score) &&
        pendingSpawns == old(pendingSpawns) && eggs == old(eggs)
      ensures b in old(eggs) ==>
        var (left, kills) := Sweep(old(enemies), InBlast(b.pos));
        enemies == left &&
        score == old(score) + BombKillScore * kills &&
        pendingSpawns == old(pendingSpawns) + SpawnsPerKill * kills &&
        eggs == Without(old(eggs), b)
    {
      ExplodeBomb(b);
      fuses := fuses - {b};
    }

    /**
     * collectEgg: the bomb leaves `eggs` and the score rises by one, then
     * the assignment to the undeclared `movesLeft` throws.
     */
    method CollectEgg(b: Bomb) returns (c: Completion)
      requires Valid()
      modifies this`eggs, this`score
      ensures Valid()
      ensures eggs == Without(old(eggs), b) && score == old(score) + CollectScore
      ensures c == Threw(MovesLeftError)
    {
      DropEgg(b);
      score := score + CollectScore;
      c := Threw(MovesLeftError);
    }

    /** gameOver: latches the game as over. */
    method GameOver()
      requires Valid()
      modifies this`isGameOver, this`gameActive
      ensures Valid()
      ensures isGameOver && !gameActive
    {
      isGameOver := true;
      gameActive := false;
    }

    // ---- enemies, bullets, powerups ---------------------------------------

    /**
     * updateEnemyPositions: each enemy steps toward the player; one that
     * ends within ContactRadius ends the game (the pass still moves the rest).
     */
    method UpdateEnemyPositions(lens: seq<real>)
      requires Valid()
      requires chickie.Some? ==> ChaseLengths(enemies, chickie.value, lens)
      modifies this`enemies, this`isGameOver, this`gameActive
      ensures Valid()
      ensures old(chickie.None? || isGameOver) ==>
        enemies == old(enemies) && isGameOver == old(isGameOver) && gameActive == old(gameActive)
      ensures old(chickie.Some? && !isGameOver) ==>
        enemies == ChaseAll(old(enemies), chickie.value, lens) &&
        isGameOver == Caught(enemies, chickie.value)
    {
      if chickie.None? || isGameOver {
        return;
      }
      var p := chickie.value;
      ghost var target := ChaseAll(enemies, p, lens);
      var i := 0;
      while i < |enemies|
        invariant 0 <= i <= |enemies| == |target|
        invariant enemies[..i] == target[..i]
        invariant enemies[i..] == old(enemies)[i..]
        invariant isGameOver == Caught(enemies[..i], p)
        invariant Valid()
      {
        assert enemies[i] == old(enemies)[i];
        enemies := enemies[i := Chase(enemies[i], p, lens[i])];
        if Within(enemies[i], p, ContactRadius) {
          GameOver();
        }
        assert enemies[..i + 1] == enemies[..i] + [enemies[i]];
        CaughtSnoc(enemies[..i], enemies[i], p);
        i := i + 1;
      }
      assert enemies == enemies[..i];
    }

    /**
     * shootBulletAt: with ammo and a player, a bullet leaves the player at
     * bullet height toward enemy k (`len` is the horizontal distance to it).
     */
    method ShootBulletAt(k: nat, len: real, now: int)
      requires Valid() && k < |enemies|
      requires chickie.Some? ==>
        IsLength(len, enemies[k].x - chickie.value.x, enemies[k].z - chickie.value.z)
      modifies this`bullets, this`ammo
      ensures Valid()
      ensures old(ammo) <= 0 || chickie.None? ==> bullets == old(bullets) && ammo == old(ammo)
      ensures old(ammo) > 0 && chickie.Some? ==>
        var p := chickie.value;
        var e := enemies[k];
        ammo == old(ammo) - 1 &&
        bullets == old(bullets) + [Bullet(Vec3(p.x, BulletY, p.z), Normalize(e.x - p.x, e.z - p.z, len), now)]
    {
      if ammo <= 0 || chickie.None? {
        return;
      }
      var p := chickie.value;
      var e := enemies[k];
      var dir := Normalize(e.x - p.x, e.z - p.z, len);
      bullets := bullets + [Bullet(Vec3(p.x, BulletY, p.z), dir, now)];
      ammo := ammo - 1;
    }

    /**
     * updateBullets: the reverse index loop over `bullets`; each pass is one
     * BulletStep, with its kills scored and their spawns requested.
     */
    method UpdateBullets(now: int)
      requires Valid()
      modifies this`bullets, this`enemies, this`score, this`pendingSpawns
      ensures Valid()
      ensures var v := BulletsFrom(old(bullets), old(enemies), |old(bullets)|, now);
        bullets == v.bullets && enemies == v.enemies &&
        score == old(score) + BulletKillScore * v.kills &&
        pendingSpawns == old(pendingSpawns) + SpawnsPerKill * v.kills
    {
      var bs, es, kills := BulletLoop(bullets, enemies, now);
      SettleBullets(bs, es, kills);
    }

    /** The lists left by updateBullets' loop; each kill scores and asks for two enemies. */
    method SettleBullets(bs: seq<Bullet>, es: seq<Vec3>, kills: nat)
      requires Valid() && (bullets == [] ==> bs == [] && kills == 0)
      modifies this`bullets, this`enemies, this`score, this`pendingSpawns
      ensures Valid()
      ensures bullets == bs && enemies == es
      ensures score == old(score) + BulletKillScore * kills
      ensures pendingSpawns == old(pendingSpawns) + SpawnsPerKill * kills
    {
      bullets, enemies := bs, es;
      score := score + BulletKillScore * kills;
      pendingSpawns := pendingSpawns + SpawnsPerKill * kills;
    }

    /**
     * updateBullets' reverse loop over the bullet indices, on the bullet and
     * enemy lists; `kills` counts the enemies removed.
     */
    static method BulletLoop(bullets: seq<Bullet>, enemies: seq<Vec3>, now: int)
      returns (bs: seq<Bullet>, es: seq<Vec3>, kills: nat)
      ensures Volley(bs, es, kills) == BulletsFrom(bullets, enemies, |bullets|, now)
      ensures bullets == [] ==> bs == [] && kills == 0
    {
      ghost var goal := BulletsFrom(bullets, enemies, |bullets|, now);
      bs, es, kills := bullets, enemies, 0;
      var i: nat := |bs|;
      while i > 0
        invariant i <= |bs|
        invariant bullets == [] ==> bs == [] && kills == 0
        invariant var rest := BulletsFrom(bs, es, i, now);
          goal == Volley(rest.bullets, rest.enemies, kills + rest.kills)
        decreases i
      {
        i := i - 1;
        ghost var whole := BulletsFrom(bs, es, i + 1, now);
        var hits;
        bs, es, hits := BulletPass(bs, es, i, now);
        ghost var rest := BulletsFrom(bs, es, i, now);
        assert whole == Volley(rest.bullets, rest.enemies, hits + rest.kills);
        kills := kills + hits;
      }
    }

    /**
     * One pass of updateBullets' loop body at index i: the bullet moves, the
     * forEach over enemies splices out those it reaches, `bullets.splice(i, 1)`
     * runs once per hit, and once more if the bullet has expired.
     */
    static method BulletPass(bs: seq<Bullet>, es: seq<Vec3>, i: nat, now: int)
      returns (bs': seq<Bullet>, es': seq<Vec3>, hits: nat)
      requires i < |bs|
      ensures Volley(bs', es', hits) == BulletStep(bs, es, i, now)
    {
      var b := Advance(bs[i]);
      bs' := bs[i := b];
      es', hits := ForEachRemoving(es, HitBy(b.pos));
      bs' := RemoveAt(bs', i, hits);
      if Expired(b, now) {
        bs' := RemoveAt(bs', i, 1);
      }
    }

    /**
     * checkPowerupCollection: the forEach over the scene's powerups removes
     * those within PickupRadius of the player, each worth AmmoPerPowerup.
     */
    method CheckPowerupCollection()
      requires Valid()
      modifies this`powerups, this`ammo
      ensures Valid()
      ensures chickie.None? ==> powerups == old(powerups) && ammo == old(ammo)
      ensures chickie.Some? ==>
        var (kept, taken) := Sweep(old(powerups), InReach(chickie.value));
        powerups == kept && ammo == old(ammo) + AmmoPerPowerup * taken
    {
      if chickie.None? {
        return;
      }
      SweepKeepsDistinct(powerups, InReach(chickie.value));
      var kept, taken := ForEachRemoving(powerups, InReach(chickie.value));
      SweepKeepsOnlyElements(powerups, InReach(chickie.value));
      powerups := kept;
      ammo := ammo + AmmoPerPowerup * taken;
    }

    /**
     * spawnAmmoPowerup (every 15 s): a powerup at offset (ox, oz) from the
     * player, 2 to 4 units away, with a ten-second removal timer. Before the
     * player has loaded it throws on the null `chickie`.
     */
    method SpawnPowerup(ox: real, oz: real) returns (c: Completion)
      requires Valid()
      requires 4.0 <= ox * ox + oz * oz < 16.0
      modifies this`powerups, this`powerupTimers, this`nextId
      ensures Valid()
      ensures chickie.None? ==>
        c == Threw(NullPlayerError) && powerups == old(powerups) &&
        powerupTimers == old(powerupTimers) && nextId == old(nextId)
      ensures chickie.Some? ==>
        var p := chickie.value;
        var q := Powerup(old(nextId), Vec3(p.x + ox, PowerupY, p.z + oz));
        c == Normal && powerups == old(powerups) + [q] &&
        powerupTimers == old(powerupTimers) + {q} && nextId == old(nextId) + 1
    {
      if chickie.None? {
        return Threw(NullPlayerError);
      }
      var p := chickie.value;
      var q := Powerup(nextId, Vec3(p.x + ox, PowerupY, p.z + oz));
      assert q !in powerups;
      powerups := powerups + [q];
      powerupTimers := powerupTimers + {q};
      nextId := nextId + 1;
      c := Normal;
    }

    /** A powerup's removal timer fires: it leaves the scene if still there. */
    method PowerupExpired(q: Powerup)
      requires Valid() && q in powerupTimers
      modifies this`powerups, this`powerupTimers
      ensures Valid()
      ensures powerups == Without(old(powerups), q) && powerupTimers == old(powerupTimers) - {q}
    {
      WithoutKeepsOnlyElements(powerups, q);
      powerups := Without(powerups, q);
      powerupTimers := powerupTimers - {q};
    }

    // ---- input -----------------------------------------------------------

    /**
     * The click handler, with the raycasts already resolved: `enemyHit` is
     * the index of the enemy under the cursor, `bombHit` the first bomb
     * under it, `ground` the point where the ray meets the ground plane, and
     * `len` the horizontal distance from the player to the clicked enemy.
     */
    method Click(now: int, enemyHit: Option<nat>, bombHit: Option<Bomb>,
                 ground: Option<(real, real)>, len: real) returns (c: Completion)
      requires Valid()
      requires enemyHit.Some? ==> enemyHit.value < |enemies|
      requires bombHit.Some? ==> bombHit.value in eggs
      requires enemyHit.Some? && chickie.Some? ==>
        IsLength(len, enemies[enemyHit.value].x - chickie.value.x,
                 enemies[enemyHit.value].z - chickie.value.z)
      modifies this`bullets, this`ammo, this`eggs, this`score, this`targetPosition
      ensures Valid()
      ensures var shoot := old(gameActive) && enemyHit.Some? && old(ammo) > 0;
        var collect := old(gameActive) && !shoot && bombHit.Some? &&
          now - bombHit.value.plantTime > CollectMinAge;
        var g := if ground.Some? then ground.value else (0.0, 0.0);
        var move := old(gameActive) && !shoot && !collect && ground.Some? &&
          HasPlot(plots, TileOf(g.0, g.1).x, TileOf(g.0, g.1).z) &&
          TypeAt(plots, g.0, g.1) != Some(Water) && |old(eggs)| < MaxEggs;
        (shoot ==>
          var p := chickie.value;
          var e := enemies[enemyHit.value];
          c == Normal && ammo == old(ammo) - 1 &&
          bullets == old(bullets) + [Bullet(Vec3(p.x, BulletY, p.z), Normalize(e.x - p.x, e.z - p.z, len), now)] &&
          eggs == old(eggs) && score == old(score) && targetPosition == old(targetPosition)) &&
        (collect ==>
          c == Threw(MovesLeftError) &&
          eggs == Without(old(eggs), bombHit.value) && score == old(score) + CollectScore &&
          bullets == old(bullets) && ammo == old(ammo) && targetPosition == old(targetPosition)) &&
        (move ==>
          c == Normal && targetPosition == Some(Vec3(g.0, 0.0, g.1)) &&
          bullets == old(bullets) && ammo == old(ammo) && eggs == old(eggs) && score == old(score)) &&
        (!shoot && !collect && !move ==>
          c == Normal && targetPosition == old(targetPosition) &&
          bullets == old(bullets) && ammo == old(ammo) && eggs == old(eggs) && score == old(score))
    {
      c := Normal;
      if !gameActive {
        return;
      }
      if enemyHit.Some? && ammo > 0 {
        ShootBulletAt(enemyHit.value, len, now);
        return;
      }
      if bombHit.Some? {
        var b := bombHit.value;
        if now - b.plantTime > CollectMinAge {
          c := CollectEgg(b);
          return;
        }
      }
      if ground.Some? {
        var (gx, gz) := ground.value;
        var tile := TileOf(gx, gz);
        if HasPlot(plots, tile.x, tile.z) {
          if TypeAt(plots, gx, gz) == Some(Water) {
            return;
          }
          if |eggs| < MaxEggs {
            targetPosition := Some(Vec3(gx, 0.0, gz));
          }
        }
      }
    }
  }

  /** The bomb inventory: capped, duplicate-free, every bomb's fuse pending, ids issued. */
  ghost predicate BombsOk(eggs: seq<Bomb>, fuses: set<Bomb>, nextId: nat) {
    |eggs| <= MaxEggs &&
    Distinct(eggs) &&
    (forall b :: b in eggs ==> b in fuses) &&
    (forall b :: b in fuses ==> b.id < nextId)
  }

  /** Removing a bomb from `eggs` keeps the inventory sound and removes exactly one entry. */
  lemma BombsOkWithout(eggs: seq<Bomb>, fuses: set<Bomb>, nextId: nat, b: Bomb)
    requires BombsOk(eggs, fuses, nextId)
    ensures BombsOk(Without(eggs, b), fuses, nextId)
    ensures b in eggs ==> |Without(eggs, b)| == |eggs| - 1
  {
    WithoutKeepsOnlyElements(eggs, b);
    if b in eggs {
      WithoutRemovesOne(eggs, b);
    }
  }
}
