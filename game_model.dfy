/** The per-frame simulation of the GroupRunner endless runner, written as
    functions over the whole scene state.  Each function is the value-level
    meaning of one method of `GameScene`; the class in game_scene.dfy is proved
    to update its fields exactly as these functions say.

    Coordinates: a child of a layer sits at scene x = layer x + child x
    (SpriteKit's `convert(_:to:)` reduced to a translation along x). */
module GameModel {

  /** `gameState` of the source. */
  datatype GameState = Active | Dead

  /** Physics category bitmasks are 32-bit unsigned integers. */
  newtype u32 = x: int | 0 <= x < 0x1_0000_0000

  const StartingSpeed: real := 200.0
  /** `fixedDelta`: one frame at 60 frames per second. */
  const FixedDelta: real := 1.0 / 60.0
  /** Speed gained per point of score. */
  const SpeedPerPoint: real := 0.01
  /** Spawn timer threshold, in seconds. */
  const SpawnInterval: real := 4.0
  /** Scene x at which a new obstacle appears. */
  const SpawnX: real := 600.0
  /** Range of the random vertical scale of a new obstacle. */
  const MinScale: real := 0.3
  const MaxScale: real := 1.3
  const GroundCategory: u32 := 2
  const ObstacleCategory: u32 := 4

  datatype Vector = Vector(dx: real, dy: real)

  /** The impulse a jump requests from the physics engine. */
  const JumpImpulse: Vector := Vector(0.0, 100.0)

  /** A ground sprite of the scroll layer: layer-local position and width. */
  datatype Tile = Tile(x: real, y: real, width: real)

  /** An obstacle sprite of the obstacle layer: layer-local position and vertical scale. */
  datatype Obstacle = Obstacle(x: real, y: real, yScale: real)

  /** The category bitmasks of the two bodies of a physics contact. */
  datatype Contact = Contact(categoryA: u32, categoryB: u32)

  /** Everything the simulation reads or writes.  `impulses` logs every impulse
      requested from the physics engine, `colorizes` counts the red-tint
      actions started on the hero; `sceneWidth` and `obstacleSourceY` are read
      from the scene graph and never change. */
  datatype Scene = Scene(
    state: GameState,
    touchingGround: bool,
    score: nat,
    scrollSpeed: real,
    spawnTimer: real,
    scrollLayerX: real,
    tiles: seq<Tile>,
    obstacleLayerX: real,
    obstacles: seq<Obstacle>,
    impulses: seq<Vector>,
    colorizes: nat,
    sceneWidth: real,
    obstacleSourceY: real)

  /** The scene as the source initialises it, around the injected layers. */
  function Initial(sceneWidth: real, obstacleSourceY: real, scrollLayerX: real, tiles: seq<Tile>,
                   obstacleLayerX: real, obstacles: seq<Obstacle>): Scene
  {
    Scene(Active, true, 0, StartingSpeed, 0.0, scrollLayerX, tiles, obstacleLayerX, obstacles,
          [], 0, sceneWidth, obstacleSourceY)
  }

  /** The invariant every reachable scene keeps: the spawn timer is never
      negative and never passes one frame beyond the threshold, and the speed
      is the one set from the score before or after the last increment. */
  predicate Valid(s: Scene)
  {
    && 0.0 <= s.spawnTimer < SpawnInterval + FixedDelta
    && StartingSpeed + SpeedPerPoint * (s.score as real - 1.0) <= s.scrollSpeed
    && s.scrollSpeed <= StartingSpeed + SpeedPerPoint * s.score as real
  }

  function LayerToScene(layerX: real, x: real): real { layerX + x }

  function SceneToLayer(layerX: real, x: real): real { x - layerX }

  // ---------------------------------------------------------------- didBegin

  /** Equality with the category, not a bit test: a combined mask does not match. */
  predicate IsGroundContact(c: Contact)
  {
    c.categoryA == GroundCategory || c.categoryB == GroundCategory
  }

  predicate IsObstacleContact(c: Contact)
  {
    c.categoryA == ObstacleCategory || c.categoryB == ObstacleCategory
  }

  /** `didBegin`: a ground contact re-arms the jump, an obstacle contact
      starts the red tint and ends the run; both rules are checked, in that order.
      Neither looks at the game state. */
  function DidBegin(s: Scene, c: Contact): (r: Scene)
    ensures r.touchingGround <==> s.touchingGround || IsGroundContact(c)
    ensures r.state == Dead <==> s.state == Dead || IsObstacleContact(c)
    ensures r.colorizes == s.colorizes + (if IsObstacleContact(c) then 1 else 0)
    ensures r.(touchingGround := s.touchingGround, state := s.state, colorizes := s.colorizes) == s
  {
    var grounded := if IsGroundContact(c) then s.(touchingGround := true) else s;
    if IsObstacleContact(c) then grounded.(colorizes := grounded.colorizes + 1, state := Dead)
    else grounded
  }

  // ------------------------------------------------------------- touchesBegan

  /** `touchesBegan`: jump only while alive and on the ground. */
  function TouchesBegan(s: Scene): (r: Scene)
    ensures r.impulses == if s.state == Active && s.touchingGround then s.impulses + [JumpImpulse] else s.impulses
    ensures r.touchingGround <==> s.touchingGround && s.state == Dead
    ensures r.(touchingGround := s.touchingGround, impulses := s.impulses) == s
  {
    if s.state == Dead || !s.touchingGround then
      assert s.impulses + [] == s.impulses;
      s
    else
      assert s.state == Active;
      s.(impulses := s.impulses + [JumpImpulse], touchingGround := false)
  }

  // -------------------------------------------------------------- scrollWorld

  /** How far a layer moves left in one frame at the given speed. */
  function ScrollDelta(speed: real): real { speed * FixedDelta }

  /** The tile's left half has left the scene. */
  predicate OffScreenLeft(layerX: real, t: Tile)
  {
    LayerToScene(layerX, t.x) <= -t.width / 2.0
  }

  /** One iteration of the loop of `scrollWorld`. */
  function RecycleTile(t: Tile, layerX: real, sceneWidth: real): (r: Tile)
    ensures OffScreenLeft(layerX, t) ==>
              LayerToScene(layerX, r.x) == sceneWidth / 2.0 + t.width && r.y == t.y && r.width == t.width
    ensures !OffScreenLeft(layerX, t) ==> r == t
  {
    if OffScreenLeft(layerX, t) then t.(x := SceneToLayer(layerX, sceneWidth / 2.0 + t.width)) else t
  }

  function RecycleAll(tiles: seq<Tile>, layerX: real, sceneWidth: real): (r: seq<Tile>)
    ensures |r| == |tiles|
    ensures forall i :: 0 <= i < |tiles| ==> r[i] == RecycleTile(tiles[i], layerX, sceneWidth)
  {
    seq(|tiles|, i requires 0 <= i < |tiles| => RecycleTile(tiles[i], layerX, sceneWidth))
  }

  /** `scrollWorld`: move the scroll layer left by one frame's travel, then
      move every tile that has left the scene to just past its right edge. */
  function ScrollWorld(s: Scene): (r: Scene)
    ensures r.scrollLayerX == s.scrollLayerX - s.scrollSpeed / 60.0
    ensures |r.tiles| == |s.tiles|
    ensures forall i :: 0 <= i < |s.tiles| && OffScreenLeft(r.scrollLayerX, s.tiles[i]) ==>
              && LayerToScene(r.scrollLayerX, r.tiles[i].x) == s.sceneWidth / 2.0 + s.tiles[i].width
              && r.tiles[i].y == s.tiles[i].y
              && r.tiles[i].width == s.tiles[i].width
    ensures forall i :: 0 <= i < |s.tiles| && !OffScreenLeft(r.scrollLayerX, s.tiles[i]) ==>
              r.tiles[i] == s.tiles[i]
    ensures r.(scrollLayerX := s.scrollLayerX, tiles := s.tiles) == s
  {
    var layerX := s.scrollLayerX - ScrollDelta(s.scrollSpeed);
    s.(scrollLayerX := layerX, tiles := RecycleAll(s.tiles, layerX, s.sceneWidth))
  }

  // ---------------------------------------------------------- updateObstacles

  predicate OnScreen(layerX: real, o: Obstacle)
  {
    LayerToScene(layerX, o.x) > 0.0
  }

  /** The obstacles the loop of `updateObstacles` leaves in the layer, in order. */
  function Survivors(obstacles: seq<Obstacle>, layerX: real): (r: seq<Obstacle>)
    ensures |r| <= |obstacles|
    ensures forall o :: o in r <==> o in obstacles && OnScreen(layerX, o)
  {
    if obstacles == [] then []
    else
      var last := obstacles[|obstacles| - 1];
      var kept := Survivors(obstacles[..|obstacles| - 1], layerX);
      assert forall o :: o in obstacles <==> o in obstacles[..|obstacles| - 1] || o == last;
      if OnScreen(layerX, last) then kept + [last] else kept
  }

  /** Removal keeps every on-screen obstacle as often as it occurs, and no
      off-screen one. */
  lemma {:induction false} SurvivorsCount(obstacles: seq<Obstacle>, layerX: real)
    ensures forall o :: multiset(Survivors(obstacles, layerX))[o] ==
                        if OnScreen(layerX, o) then multiset(obstacles)[o] else 0
    decreases |obstacles|
  {
    if obstacles != [] {
      var n := |obstacles| - 1;
      assert obstacles == obstacles[..n] + [obstacles[n]];
      SurvivorsCount(obstacles[..n], layerX);
    }
  }

  /** Removal keeps the order of the layer's children: the survivors of two
      consecutive runs of children are the survivors of each, one after the other. */
  lemma {:induction false} SurvivorsKeepOrder(front: seq<Obstacle>, back: seq<Obstacle>, layerX: real)
    ensures Survivors(front + back, layerX) == Survivors(front, layerX) + Survivors(back, layerX)
    decreases |back|
  {
    if back == [] {
      assert front + back == front;
    } else {
      var n := |back| - 1;
      assert (front + back)[..|front + back| - 1] == front + back[..n];
      SurvivorsKeepOrder(front, back[..n], layerX);
    }
  }

  /** The spawn test of `updateObstacles`, on the timer of the previous frame. */
  predicate SpawnDue(s: Scene)
  {
    s.spawnTimer >= SpawnInterval
  }

  /** A copy of the obstacle template, placed at scene x `SpawnX`. */
  function Spawned(layerX: real, sourceY: real, scale: real): Obstacle
  {
    Obstacle(SceneToLayer(layerX, SpawnX), sourceY, scale)
  }

  /** `updateObstacles`: move the obstacle layer left by one frame's travel,
      remove every obstacle that is no longer right of the scene's left edge,
      then, when the timer is due, add one obstacle and reset the timer.
      What happens to the obstacles themselves is UpdateObstaclesMeaning. */
  function UpdateObstacles(s: Scene, randomScale: real): (r: Scene)
    requires MinScale <= randomScale <= MaxScale
    ensures r.obstacleLayerX == s.obstacleLayerX - s.scrollSpeed / 60.0
    ensures |r.obstacles| <= |s.obstacles| + (if SpawnDue(s) then 1 else 0)
    ensures r.spawnTimer == if SpawnDue(s) then 0.0 else s.spawnTimer
    ensures r.(obstacleLayerX := s.obstacleLayerX, obstacles := s.obstacles, spawnTimer := s.spawnTimer) == s
  {
    var layerX := s.obstacleLayerX - ScrollDelta(s.scrollSpeed);
    var kept := Survivors(s.obstacles, layerX);
    if SpawnDue(s) then
      s.(obstacleLayerX := layerX, obstacles := kept + [Spawned(layerX, s.obstacleSourceY, randomScale)],
         spawnTimer := 0.0)
    else
      s.(obstacleLayerX := layerX, obstacles := kept)
  }

  /** After `updateObstacles` every obstacle left is on screen, every old
      obstacle still on screen is left, in its layer-local position, and a
      due timer has added exactly one obstacle at scene x `SpawnX`. */
  lemma UpdateObstaclesMeaning(s: Scene, randomScale: real)
    requires MinScale <= randomScale <= MaxScale
    ensures var r := UpdateObstacles(s, randomScale);
            && (forall o :: o in r.obstacles ==> LayerToScene(r.obstacleLayerX, o.x) > 0.0)
            && (forall o :: o in s.obstacles && LayerToScene(r.obstacleLayerX, o.x) > 0.0 ==> o in r.obstacles)
    ensures var r := UpdateObstacles(s, randomScale);
            var kept := |r.obstacles| - (if SpawnDue(s) then 1 else 0);
            0 <= kept && forall i :: 0 <= i < kept ==> r.obstacles[i] in s.obstacles
    ensures var r := UpdateObstacles(s, randomScale);
            SpawnDue(s) ==>
              && |r.obstacles| > 0
              && var o := r.obstacles[|r.obstacles| - 1];
              && LayerToScene(r.obstacleLayerX, o.x) == SpawnX
              && o.y == s.obstacleSourceY
              && o.yScale == randomScale && MinScale <= o.yScale <= MaxScale
  {
    var layerX := s.obstacleLayerX - ScrollDelta(s.scrollSpeed);
    var kept := Survivors(s.obstacles, layerX);
    var r := UpdateObstacles(s, randomScale);
    if SpawnDue(s) {
      var o := Spawned(layerX, s.obstacleSourceY, randomScale);
      assert r.obstacles == kept + [o];
      forall i | 0 <= i < |kept| ensures r.obstacles[i] in s.obstacles {
        assert r.obstacles[i] == kept[i];
      }
    } else {
      assert r.obstacles == kept;
    }
  }

  // ------------------------------------------------------------------- update

  /** `update`: scroll, update obstacles (on the old timer), advance the timer,
      set the speed from the score before this frame's point, then score a
      point if still alive.  Scrolling and spawning go on after death. */
  function Update(s: Scene, randomScale: real): (r: Scene)
    requires MinScale <= randomScale <= MaxScale
    ensures r.score == s.score + (if s.state == Active then 1 else 0)
    ensures r.scrollSpeed == StartingSpeed + SpeedPerPoint * s.score as real
    ensures r.spawnTimer == (if SpawnDue(s) then 0.0 else s.spawnTimer) + FixedDelta
    ensures 0.0 <= s.spawnTimer ==> 0.0 < r.spawnTimer
    ensures |r.obstacles| <= |s.obstacles| + 1
    ensures r.state == s.state && r.touchingGround == s.touchingGround
    ensures r.impulses == s.impulses && r.colorizes == s.colorizes
    ensures r.sceneWidth == s.sceneWidth && r.obstacleSourceY == s.obstacleSourceY
    ensures r.scrollLayerX == s.scrollLayerX - s.scrollSpeed / 60.0
    ensures r.obstacleLayerX == s.obstacleLayerX - s.scrollSpeed / 60.0
    ensures r.tiles == ScrollWorld(s).tiles
    ensures r.obstacles == UpdateObstacles(ScrollWorld(s), randomScale).obstacles
    ensures Valid(s) ==> Valid(r)
  {
    var moved := UpdateObstacles(ScrollWorld(s), randomScale);
    var timed := moved.(spawnTimer := moved.spawnTimer + FixedDelta);
    var sped := timed.(scrollSpeed := StartingSpeed + SpeedPerPoint * timed.score as real);
    if sped.state == Active then sped.(score := sped.score + 1) else sped
  }
}
