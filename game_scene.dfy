/** The `GameScene` object of GroupRunner: the fields the simulation updates
    in place and its five callbacks.  Each method is proved to leave the scene
    exactly as the matching function of GameModel says, so every property
    proved there holds of the object. */
module GameScene {
  import opened GameModel

  /** The loop of `updateObstacles` over a snapshot of the layer's children:
      every obstacle whose scene x is not positive is removed from the layer. */
  method RemoveOffScreen(children: seq<Obstacle>, layerX: real) returns (kept: seq<Obstacle>)
    ensures kept == Survivors(children, layerX)
    ensures forall o :: o in kept ==> LayerToScene(layerX, o.x) > 0.0
  {
    kept := [];
    for i := 0 to |children|
      invariant kept == Survivors(children[..i], layerX)
    {
      var obstacle := children[i];
      if LayerToScene(layerX, obstacle.x) > 0.0 {
        kept := kept + [obstacle];
      }
      assert children[..i + 1][..i] == children[..i];
    }
    assert children[..|children|] == children;
  }

  class GameScene {
    var state: GameState
    var touchingGround: bool
    var score: nat
    var scrollSpeed: real
    var spawnTimer: real
    /** x position of `scrollLayer` and the ground sprites it holds. */
    var scrollLayerX: real
    var tiles: seq<Tile>
    /** x position of `obstacleLayer` and the obstacles it holds, in child order. */
    var obstacleLayerX: real
    var obstacles: seq<Obstacle>
    /** Every impulse requested from the hero's physics body, in order. */
    var impulses: seq<Vector>
    /** How many red-tint actions were started on the hero. */
    var colorizes: nat
    /** The scene's width and the y of the obstacle template, read from the scene graph. */
    const sceneWidth: real
    const obstacleSourceY: real

    /** The whole state of the object as a value. */
    ghost function Model(): Scene
      reads this
    {
      Scene(state, touchingGround, score, scrollSpeed, spawnTimer, scrollLayerX, tiles,
            obstacleLayerX, obstacles, impulses, colorizes, sceneWidth, obstacleSourceY)
    }

    /** The scene with its layers handed in, as the scene graph would after `didMove`. */
    constructor (sceneWidth: real, obstacleSourceY: real, scrollLayerX: real, tiles: seq<Tile>,
                 obstacleLayerX: real, obstacles: seq<Obstacle>)
      ensures Model() == Initial(sceneWidth, obstacleSourceY, scrollLayerX, tiles, obstacleLayerX, obstacles)
      ensures Valid(Model())
    {
      this.sceneWidth := sceneWidth;
      this.obstacleSourceY := obstacleSourceY;
      this.scrollLayerX := scrollLayerX;
      this.tiles := tiles;
      this.obstacleLayerX := obstacleLayerX;
      this.obstacles := obstacles;
      state := Active;
      touchingGround := true;
      score := 0;
      scrollSpeed := StartingSpeed;
      spawnTimer := 0.0;
      impulses := [];
      colorizes := 0;
    }

    /** `didBegin`: classify a contact by the category of either body. */
    method DidBegin(contact: Contact)
      modifies this
      ensures Model() == GameModel.DidBegin(old(Model()), contact)
      ensures state == Dead <==> old(state) == Dead || IsObstacleContact(contact)
      ensures touchingGround <==> old(touchingGround) || IsGroundContact(contact)
    {
      if contact.categoryA == GroundCategory || contact.categoryB == GroundCategory {
        touchingGround := true;
      }
      if contact.categoryA == ObstacleCategory || contact.categoryB == ObstacleCategory {
        colorizes := colorizes + 1;
        state := Dead;
      }
    }

    /** `touchesBegan`: jump when alive and grounded. */
    method TouchesBegan()
      modifies this
      ensures Model() == GameModel.TouchesBegan(old(Model()))
      ensures impulses == old(impulses) + (if old(state) == Active && old(touchingGround) then [JumpImpulse] else [])
    {
      if state == Dead {
        return;
      }
      if touchingGround {
        impulses := impulses + [JumpImpulse];
        touchingGround := false;
      }
    }

    /** `update`, once per frame; `randomScale` is the value the random
        generator returns should this frame spawn an obstacle. */
    method Update(randomScale: real)
      requires MinScale <= randomScale <= MaxScale
      modifies this
      ensures Model() == GameModel.Update(old(Model()), randomScale)
      ensures score == old(score) + (if old(state) == Active then 1 else 0)
      ensures scrollSpeed == StartingSpeed + SpeedPerPoint * old(score) as real
    {
      ScrollWorld();
      UpdateObstacles(randomScale);
      spawnTimer := spawnTimer + FixedDelta;
      scrollSpeed := StartingSpeed + SpeedPerPoint * score as real;
      if state == Active {
        score := score + 1;
      }
    }

    /** `updateObstacles`: scroll the obstacle layer, drop the obstacles that
        have left the scene, and spawn one when the timer is due. */
    method UpdateObstacles(randomScale: real)
      requires MinScale <= randomScale <= MaxScale
      modifies this
      ensures Model() == GameModel.UpdateObstacles(old(Model()), randomScale)
    {
      ghost var before := Model();
      obstacleLayerX := obstacleLayerX - scrollSpeed * FixedDelta;
      var kept := RemoveOffScreen(obstacles, obstacleLayerX);
      if spawnTimer >= SpawnInterval {
        var spawnPosition := SpawnX;
        obstacles := kept + [Obstacle(SceneToLayer(obstacleLayerX, spawnPosition), obstacleSourceY, randomScale)];
        spawnTimer := 0.0;
      } else {
        obstacles := kept;
      }
      assert Model() == GameModel.UpdateObstacles(before, randomScale);
    }

    /** `scrollWorld`: scroll the ground layer and move every ground sprite
        that has left the scene to just past its right edge. */
    method ScrollWorld()
      modifies this
      ensures Model() == GameModel.ScrollWorld(old(Model()))
    {
      scrollLayerX := scrollLayerX - scrollSpeed * FixedDelta;
      for i := 0 to |tiles|
        modifies this`tiles
        invariant |tiles| == |old(tiles)|
        invariant forall j :: 0 <= j < i ==> tiles[j] == RecycleTile(old(tiles)[j], scrollLayerX, sceneWidth)
        invariant forall j :: i <= j < |tiles| ==> tiles[j] == old(tiles)[j]
      {
        var ground := tiles[i];
        var groundX := LayerToScene(scrollLayerX, ground.x);
        if groundX <= -ground.width / 2.0 {
          var newX := sceneWidth / 2.0 + ground.width;
          tiles := tiles[i := ground.(x := SceneToLayer(scrollLayerX, newX))];
        }
      }
      assert tiles == RecycleAll(old(tiles), scrollLayerX, sceneWidth);
    }
  }
}
