/**
 * Entities of the scene and the per-frame rules that move them and test
 * them against each other, as functions of the arrays they act on.
 */
module Combat {
  import opened Geometry
  import opened Sweeps

  /** A planted bomb; `id` stands for the identity of its three.js mesh. */
  datatype Bomb = Bomb(id: nat, pos: Vec3, plantTime: int)

  /** A bullet: its position, unit horizontal direction and spawn time. */
  datatype Bullet = Bullet(pos: Vec3, dir: Dir, spawnTime: int)

  /** An ammo powerup; `id` stands for the identity of its mesh. */
  datatype Powerup = Powerup(id: nat, pos: Vec3)

  const MaxEggs: nat := 5
  const BombTimer: int := 3000
  const BlastRadius: real := 1.5
  const BombKillScore: int := 10
  const CollectScore: int := 1
  const CollectMinAge: int := 1000
  const BulletSpeed: real := 0.2
  const BulletHitRadius: real := 0.5
  const BulletKillScore: int := 5
  const BulletLifetime: int := 3000
  const EnemySpeed: real := 0.03
  const MoveSpeed: real := 0.05
  const ArrivalRadius: real := 0.1
  const ContactRadius: real := 0.8
  const PickupRadius: real := 0.8
  const AmmoPerPowerup: int := 5
  /** Spawns requested per kill, by bomb or by bullet. */
  const SpawnsPerKill: nat := 2

  // Heights at which the scene places each kind of object.
  const PlayerY: real := 0.7
  const EnemyY: real := 0.7
  const BombY: real := 0.2
  const BulletY: real := 0.5
  const PowerupY: real := 0.5

  /** Enemies caught in the blast of a bomb at `center` (distance < 1.5). */
  function InBlast(center: Vec3): Vec3 -> bool {
    e => Within(center, e, BlastRadius)
  }

  /** Enemies hit by a bullet at `p` (distance < 0.5). */
  function HitBy(p: Vec3): Vec3 -> bool {
    e => Within(p, e, BulletHitRadius)
  }

  /** Powerups the player at `p` picks up (distance < 0.8). */
  function InReach(p: Vec3): Powerup -> bool {
    (q: Powerup) => Within(q.pos, p, PickupRadius)
  }

  /**
   * Two enemies standing together on a bomb: the explosion splices out the
   * first and its forEach then skips the second, which survives.
   */
  lemma BlastSparesNeighbour(center: Vec3, e: Vec3)
    requires Within(center, e, BlastRadius)
    ensures Sweep([e, e], InBlast(center)) == ([e], 1)
  {
    var s := [e, e];
    assert s != [] && InBlast(center)(s[0]) && |s| != 1;
    assert s[2..] == [];
    assert Sweep<Vec3>([], InBlast(center)) == ([], 0);
    assert Sweep(s, InBlast(center)) == ([s[1]] + Sweep(s[2..], InBlast(center)).0, Sweep(s[2..], InBlast(center)).1 + 1);
    assert [s[1]] + [] == [e];
  }

  // ---- bullets -----------------------------------------------------------

  /**
   * `bullet.position.add(direction * bulletSpeed)`: only the position
   * changes, it stays level, and along a unit direction it covers exactly
   * BulletSpeed on the ground.
   */
  function Advance(b: Bullet): (r: Bullet)
    ensures r.dir == b.dir && r.spawnTime == b.spawnTime && r.pos.y == b.pos.y
    ensures b.dir.dx * b.dir.dx + b.dir.dz * b.dir.dz == 1.0 ==>
      GroundDist2(r.pos, b.pos) == BulletSpeed * BulletSpeed
  {
    var r := b.(pos := Vec3(b.pos.x + b.dir.dx * BulletSpeed, b.pos.y, b.pos.z + b.dir.dz * BulletSpeed));
    assert GroundDist2(r.pos, b.pos) ==
      (b.dir.dx * b.dir.dx + b.dir.dz * b.dir.dz) * (BulletSpeed * BulletSpeed);
    r
  }

  /** `Date.now() - bullet.userData.spawnTime > 3000`. */
  predicate Expired(b: Bullet, now: int) {
    now - b.spawnTime > BulletLifetime
  }

  /** The arrays and the number of kills after (part of) one updateBullets call. */
  datatype Volley = Volley(bullets: seq<Bullet>, enemies: seq<Vec3>, kills: nat)

  /**
   * One pass of updateBullets' loop body at index i: the bullet moves, every
   * enemy it reaches is spliced out (forEach order), and for each such hit
   * `bullets.splice(i, 1)` runs again; an expired bullet is spliced once more.
   * Every splice is at index i, whatever now stands there.
   */
  function BulletStep(bs: seq<Bullet>, es: seq<Vec3>, i: nat, now: int): (v: Volley)
    requires i < |bs|
    ensures |v.bullets| >= i && v.bullets[..i] == bs[..i]
    ensures |v.enemies| + v.kills == |es|
  {
    var b := Advance(bs[i]);
    assert bs[i := b][..i] == bs[..i];
    var (left, hits) := Sweep(es, HitBy(b.pos));
    var afterHits := RemoveAt(bs[i := b], i, hits);
    var afterAge := if Expired(b, now) then RemoveAt(afterHits, i, 1) else afterHits;
    Volley(afterAge, left, hits)
  }

  /**
   * updateBullets: `for (let i = bullets.length - 1; i >= 0; i--)`, here
   * with the indices below `i` still to visit.
   */
  function BulletsFrom(bs: seq<Bullet>, es: seq<Vec3>, i: nat, now: int): (v: Volley)
    requires i <= |bs|
    ensures |v.enemies| + v.kills == |es|
    ensures |v.bullets| <= |bs|
    decreases i
  {
    if i == 0 then Volley(bs, es, 0)
    else
      var step := BulletStep(bs, es, i - 1, now);
      var rest := BulletsFrom(step.bullets, step.enemies, i - 1, now);
      Volley(rest.bullets, rest.enemies, step.kills + rest.kills)
  }

  /** No bullet from index i on has expired. */
  predicate LiveAfter(s: seq<Bullet>, i: nat, now: int) {
    forall j :: i <= j < |s| ==> !Expired(s[j], now)
  }

  /** Splicing at i, at least once, leaves at i only bullets that were after i. */
  lemma RemoveAtKeepsLive(s: seq<Bullet>, i: nat, c: nat, now: int)
    requires i <= |s| && c >= 1 && LiveAfter(s, i + 1, now)
    ensures LiveAfter(RemoveAt(s, i, c), i, now)
  {
    var r := RemoveAt(s, i, c);
    var cut := if i + c <= |s| then i + c else |s|;
    forall j | i <= j < |r|
      ensures !Expired(r[j], now)
    {
      assert r[j] == r[i..][j - i] == s[cut + j - i];
    }
  }

  /**
   * One pass keeps the bullets from its index on live: a bullet that hits
   * is spliced out, taking later ones with it, and one that hits nothing
   * stays only while it is live.
   */
  lemma BulletStepKeepsLive(bs: seq<Bullet>, es: seq<Vec3>, k: nat, now: int)
    requires k < |bs| && LiveAfter(bs, k + 1, now)
    ensures LiveAfter(BulletStep(bs, es, k, now).bullets, k, now)
  {
    var b := Advance(bs[k]);
    var moved := bs[k := b];
    var hits := Sweep(es, HitBy(b.pos)).1;
    var afterHits := RemoveAt(moved, k, hits);
    assert LiveAfter(moved, k + 1, now);
    if hits == 0 {
      assert afterHits == moved;
      if Expired(b, now) {
        RemoveAtKeepsLive(moved, k, 1, now);
      }
    } else {
      RemoveAtKeepsLive(moved, k, hits, now);
      if Expired(b, now) {
        RemoveAtKeepsLive(afterHits, k, 1, now);
      }
    }
  }

  /**
   * The time-to-live, with any enemies: when every bullet from index i on is
   * live, no bullet left by the loop over the indices below i has expired.
   */
  lemma {:induction false} LiveFrom(bs: seq<Bullet>, es: seq<Vec3>, i: nat, now: int)
    requires i <= |bs| && LiveAfter(bs, i, now)
    ensures forall x :: x in BulletsFrom(bs, es, i, now).bullets ==> !Expired(x, now)
    decreases i
  {
    if i > 0 {
      BulletStepKeepsLive(bs, es, i - 1, now);
      var step := BulletStep(bs, es, i - 1, now);
      LiveFrom(step.bullets, step.enemies, i - 1, now);
    }
  }

  /**
   * updateBullets leaves no expired bullet behind, whatever the enemies:
   * the `Date.now() - spawnTime > 3000` test removes every bullet it
   * reaches that is past its lifetime.
   */
  lemma NoExpiredBulletSurvives(bs: seq<Bullet>, es: seq<Vec3>, now: int)
    ensures forall x :: x in BulletsFrom(bs, es, |bs|, now).bullets ==> !Expired(x, now)
  {
    LiveFrom(bs, es, |bs|, now);
  }

  /**
   * Every enemy the whole loop removes was within BulletHitRadius of some
   * bullet it visited, after that bullet moved.
   */
  lemma {:induction false} BulletsFromRemovesOnlyHit(bs: seq<Bullet>, es: seq<Vec3>, i: nat, now: int, x: Vec3)
    requires i <= |bs|
    requires multiset(BulletsFrom(bs, es, i, now).enemies)[x] < multiset(es)[x]
    ensures exists j :: 0 <= j < i && HitBy(Advance(bs[j]).pos)(x)
    decreases i
  {
    assert i > 0;
    var b := Advance(bs[i - 1]);
    var step := BulletStep(bs, es, i - 1, now);
    if multiset(step.enemies)[x] < multiset(es)[x] {
      SweepRemovesOnlyHits(es, HitBy(b.pos), x);
      assert HitBy(Advance(bs[i - 1]).pos)(x);
    } else {
      BulletsFromRemovesOnlyHit(step.bullets, step.enemies, i - 1, now, x);
      var j :| 0 <= j < i - 1 && HitBy(Advance(step.bullets[j]).pos)(x);
      assert step.bullets[..i - 1][j] == bs[..i - 1][j];
    }
  }

  /** The bullets that outlive a frame with no enemies: moved, expired ones gone. */
  function Survivors(bs: seq<Bullet>, now: int): (r: seq<Bullet>)
    ensures |r| <= |bs|
  {
    if bs == [] then []
    else
      var b := Advance(bs[|bs| - 1]);
      Survivors(bs[..|bs| - 1], now) + (if Expired(b, now) then [] else [b])
  }

  /**
   * With no enemy on the field, updateBullets moves every bullet, removes
   * exactly the expired ones, keeps the order and changes no score. `pre`
   * holds the indices the reverse loop has still to visit, `post` those it
   * has finished with.
   */
  lemma {:induction false} BulletsWithoutEnemies(pre: seq<Bullet>, post: seq<Bullet>, now: int)
    ensures BulletsFrom(pre + post, [], |pre|, now) == Volley(Survivors(pre, now) + post, [], 0)
    decreases |pre|
  {
    if pre == [] {
      assert pre + post == post;
    } else {
      var n := |pre| - 1;
      var front := pre[..n];
      var b := Advance(pre[n]);
      var last := if Expired(b, now) then [] else [b];
      var sf := Survivors(front, now);
      var whole := pre + post;
      BulletStepWithoutEnemies(whole, n, now);
      assert whole[..n] == front && whole[n] == pre[n] && whole[n + 1..] == post;
      Reassociate(front, last, post);
      var step := BulletStep(whole, [], n, now);
      assert step == Volley(front + (last + post), [], 0);
      BulletsWithoutEnemies(front, last + post, now);
      var rest := BulletsFrom(front + (last + post), [], n, now);
      assert rest == Volley(sf + (last + post), [], 0);
      assert BulletsFrom(whole, [], |pre|, now) == Volley(rest.bullets, rest.enemies, 0 + rest.kills);
      assert pre[..n] == front;
      assert Survivors(pre, now) == sf + last;
      Reassociate(sf, last, post);
    }
  }

  /** Concatenation regrouped. */
  lemma Reassociate<T>(a: seq<T>, b: seq<T>, c: seq<T>)
    ensures a + b + c == a + (b + c)
  {
  }

  /** One loop pass with no enemies: the bullet at i moves, or goes if expired. */
  lemma BulletStepWithoutEnemies(bs: seq<Bullet>, i: nat, now: int)
    requires i < |bs|
    ensures var b := Advance(bs[i]);
      BulletStep(bs, [], i, now) ==
        Volley(bs[..i] + (if Expired(b, now) then [] else [b]) + bs[i + 1..], [], 0)
  {
    var b := Advance(bs[i]);
    assert Sweep<Vec3>([], HitBy(b.pos)) == ([], 0);
    var moved := bs[i := b];
    assert RemoveAt(moved, i, 0) == moved == bs[..i] + [b] + bs[i + 1..];
    assert RemoveAt(moved, i, 1) == bs[..i] + bs[i + 1..];
  }

  /**
   * The double splice: bullet A, expired, reaches an enemy and is spliced for
   * the hit; the expiry splice at the same index then removes bullet B, which
   * had already moved, was not expired and hit nothing.
   */
  lemma DoubleSpliceDropsLiveBullet(now: int)
    ensures var e := Vec3(0.0, EnemyY, 0.0);
      var a := Bullet(Vec3(0.0, BulletY, -0.2), Dir(0.0, 1.0), now - 3001);
      var b := Bullet(Vec3(50.0, BulletY, 50.0), Dir(1.0, 0.0), now);
      !Expired(Advance(b), now) && !HitBy(Advance(b).pos)(e) &&
      BulletsFrom([a, b], [e], 2, now) == Volley([], [], 1)
  {
    var e := Vec3(0.0, EnemyY, 0.0);
    var a := Bullet(Vec3(0.0, BulletY, -0.2), Dir(0.0, 1.0), now - 3001);
    var b := Bullet(Vec3(50.0, BulletY, 50.0), Dir(1.0, 0.0), now);
    var b' := Advance(b);
    var a' := Advance(a);
    assert !HitBy(b'.pos)(e);
    assert [e][1..] == [];
    assert Sweep<Vec3>([], HitBy(b'.pos)) == ([], 0);
    assert Sweep([e], HitBy(b'.pos)) == ([e] + Sweep<Vec3>([], HitBy(b'.pos)).0, 0);
    assert [e] + [] == [e];
    var s1 := BulletStep([a, b], [e], 1, now);
    assert s1 == Volley([a, b'], [e], 0);
    assert HitBy(a'.pos)(e);
    assert Sweep([e], HitBy(a'.pos)) == ([], 1);
    var s0 := BulletStep([a, b'], [e], 0, now);
    assert s0 == Volley([], [], 1);
  }

  // ---- enemies -----------------------------------------------------------

  /** One enemy's move toward the player at `p` (`len` is the distance between them). */
  function Chase(e: Vec3, p: Vec3, len: real): (r: Vec3)
    requires IsLength(len, p.x - e.x, p.z - e.z)
    ensures r.y == e.y
    ensures len == 0.0 ==> r == e
  {
    StepToward(e, p, len, EnemySpeed)
  }

  /** `len[i]` is the horizontal distance from enemy i to the player. */
  predicate ChaseLengths(es: seq<Vec3>, p: Vec3, lens: seq<real>) {
    |lens| == |es| &&
    forall i :: 0 <= i < |es| ==> IsLength(lens[i], p.x - es[i].x, p.z - es[i].z)
  }

  /** Every enemy after one updateEnemyPositions pass. */
  function ChaseAll(es: seq<Vec3>, p: Vec3, lens: seq<real>): (r: seq<Vec3>)
    requires ChaseLengths(es, p, lens)
    ensures |r| == |es|
    ensures forall i :: 0 <= i < |es| ==> r[i].y == es[i].y
  {
    seq(|es|, i requires 0 <= i < |es| => Chase(es[i], p, lens[i]))
  }

  /**
   * An enemy farther than one step keeps its height and ends exactly
   * EnemySpeed closer to the player; a closer one may overshoot.
   */
  lemma ChaseCloses(e: Vec3, p: Vec3, len: real)
    requires IsLength(len, p.x - e.x, p.z - e.z) && len >= EnemySpeed
    ensures Chase(e, p, len).y == e.y
    ensures GroundDist2(Chase(e, p, len), p) == (len - EnemySpeed) * (len - EnemySpeed)
  {
    StepTowardCloses(e, p, len, EnemySpeed);
  }

  /** Some enemy is within contact distance of the player. */
  predicate Caught(es: seq<Vec3>, p: Vec3) {
    exists i :: 0 <= i < |es| && Within(es[i], p, ContactRadius)
  }

  /** One more enemy checked: caught so far, or caught by this one. */
  lemma CaughtSnoc(es: seq<Vec3>, e: Vec3, p: Vec3)
    ensures Caught(es + [e], p) <==> Caught(es, p) || Within(e, p, ContactRadius)
  {
    var s := es + [e];
    assert s[|es|] == e;
    if Caught(s, p) && !Within(e, p, ContactRadius) {
      var i :| 0 <= i < |s| && Within(s[i], p, ContactRadius);
      assert s[i] == es[i];
    }
    if Caught(es, p) {
      var i :| 0 <= i < |es| && Within(es[i], p, ContactRadius);
      assert s[i] == es[i];
    }
  }
}
