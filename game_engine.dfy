// The canvas game engine: a small state machine (menu, playing, paused)
// driven by start/stop/pause/resume, a table of game objects bounded by
// maxObjects, and the per-frame update that moves objects and bounces them
// off the canvas edges. The clock is a parameter (`now`, in milliseconds);
// the canvas, rendering, the spatial grid, the object pool and collision
// handling are not modelled. Registered callbacks are modelled by the logs
// of what they would receive.
module Engine {
  import opened Util

  datatype GameState = Menu | Playing | Paused

  datatype Vec = Vec(x: real, y: real)

  datatype Box = Box(x: real, y: real, width: real, height: real)

  datatype GameObject = GameObject(
    id: string,
    position: Vec,
    velocity: Vec,
    boundingBox: Box,
    objectType: string,
    active: bool,
    created: int)

  datatype GameConfig = GameConfig(
    canvasWidth: real,
    canvasHeight: real,
    targetFps: real,
    fixedTimeStep: real,
    maxObjects: int,
    collisionEnabled: bool,
    debug: bool)

  /** A `Partial<GameConfig>`. */
  datatype ConfigPatch = ConfigPatch(
    canvasWidth: Option<real>,
    canvasHeight: Option<real>,
    targetFps: Option<real>,
    fixedTimeStep: Option<real>,
    maxObjects: Option<int>,
    collisionEnabled: Option<bool>,
    debug: Option<bool>)

  const NoChanges := ConfigPatch(None, None, None, None, None, None, None)

  const DefaultConfig := GameConfig(800.0, 600.0, 60.0, 1000.0 / 60.0, 1000, true, false)

  /** `{ ...c, ...patch }` */
  function WithPatch(c: GameConfig, patch: ConfigPatch): (r: GameConfig)
    ensures r.canvasWidth == patch.canvasWidth.GetOr(c.canvasWidth)
    ensures r.canvasHeight == patch.canvasHeight.GetOr(c.canvasHeight)
    ensures r.maxObjects == patch.maxObjects.GetOr(c.maxObjects)
    ensures r.targetFps == patch.targetFps.GetOr(c.targetFps) && r.fixedTimeStep == patch.fixedTimeStep.GetOr(c.fixedTimeStep)
    ensures r.collisionEnabled == patch.collisionEnabled.GetOr(c.collisionEnabled) && r.debug == patch.debug.GetOr(c.debug)
  {
    GameConfig(patch.canvasWidth.GetOr(c.canvasWidth), patch.canvasHeight.GetOr(c.canvasHeight),
      patch.targetFps.GetOr(c.targetFps), patch.fixedTimeStep.GetOr(c.fixedTimeStep),
      patch.maxObjects.GetOr(c.maxObjects), patch.collisionEnabled.GetOr(c.collisionEnabled),
      patch.debug.GetOr(c.debug))
  }

  lemma WithPatchNothing(c: GameConfig)
    ensures WithPatch(c, NoChanges) == c
  {
  }

  /** What the engine tells its event listeners. */
  datatype GameEvent = ObjectSpawn(objectId: string) | ObjectDestroy(objectId: string) | InactiveRemoved(removed: nat)

  /** The canvas handed to initialize; `hasContext` says whether it yields a 2D context. */
  datatype Canvas = Canvas(hasContext: bool)

  // ---- moving objects ------------------------------------------------------

  /**
   * One axis of a bounce: a coordinate below 0 is put at 0, one whose far
   * edge passes the limit is put against it, and each time the velocity
   * component is negated.
   */
  function Bounce(pos: real, vel: real, size: real, limit: real): (r: (real, real))
    ensures size <= limit ==> 0.0 <= r.0 <= limit - size
    ensures 0.0 <= pos && pos + size <= limit ==> r == (pos, vel)
    ensures size <= limit && (pos < 0.0 || pos + size > limit) ==> r.1 == -vel
    ensures pos < 0.0 && size <= limit ==> r.0 == 0.0
    ensures pos >= 0.0 && pos + size > limit ==> r.0 == limit - size
  {
    var (p1, v1) := if pos < 0.0 then (0.0, -vel) else (pos, vel);
    if p1 + size > limit then (limit - size, -v1) else (p1, v1)
  }

  /**
   * An active object after a frame of `dt` milliseconds: moved by its
   * velocity (units per second), its bounding box following the move, then
   * kept inside the canvas. Inactive objects do not move.
   */
  function Moved(o: GameObject, dt: real, width: real, height: real): (r: GameObject)
    ensures r.id == o.id && r.active == o.active && r.objectType == o.objectType
    ensures r.boundingBox.width == o.boundingBox.width && r.boundingBox.height == o.boundingBox.height
    ensures !o.active ==> r == o
  {
    if !o.active then o
    else
      var x := Advance(o.position.x, o.velocity.x, dt);
      var y := Advance(o.position.y, o.velocity.y, dt);
      var bx := Bounce(x, o.velocity.x, o.boundingBox.width, width);
      var byy := Bounce(y, o.velocity.y, o.boundingBox.height, height);
      o.(position := Vec(bx.0, byy.0), velocity := Vec(bx.1, byy.1), boundingBox := o.boundingBox.(x := x, y := y))
  }

  /** A coordinate after `dt` milliseconds at `vel` units per second. */
  function Advance(pos: real, vel: real, dt: real): real
  {
    pos + vel * (dt / 1000.0)
  }

  /** An active object that fits the canvas ends the frame inside it. */
  lemma MovedInBounds(o: GameObject, dt: real, width: real, height: real)
    requires o.active && o.boundingBox.width <= width && o.boundingBox.height <= height
    ensures var r := Moved(o, dt, width, height);
      && 0.0 <= r.position.x <= width - o.boundingBox.width
      && 0.0 <= r.position.y <= height - o.boundingBox.height
  {
  }

  /** With no time elapsed, an object already inside the canvas stays put. */
  lemma MovedStill(o: GameObject, width: real, height: real)
    requires o.active
    requires 0.0 <= o.position.x && o.position.x + o.boundingBox.width <= width
    requires 0.0 <= o.position.y && o.position.y + o.boundingBox.height <= height
    ensures Moved(o, 0.0, width, height).position == o.position
    ensures Moved(o, 0.0, width, height).velocity == o.velocity
  {
  }

  function MovedAll(objects: seq<GameObject>, dt: real, width: real, height: real): (r: seq<GameObject>)
    ensures |r| == |objects|
    ensures forall i :: 0 <= i < |r| ==> r[i] == Moved(objects[i], dt, width, height)
  {
    seq(|objects|, i requires 0 <= i < |objects| => Moved(objects[i], dt, width, height))
  }

  /** The active objects, in order. */
  function ActiveOnly(objects: seq<GameObject>): (r: seq<GameObject>)
    ensures |r| <= |objects|
  {
    if objects == [] then []
    else ActiveOnly(objects[..|objects| - 1]) + (if objects[|objects| - 1].active then [objects[|objects| - 1]] else [])
  }

  lemma {:induction false} ActiveOnlyIff(objects: seq<GameObject>, o: GameObject)
    ensures o in ActiveOnly(objects) <==> o in objects && o.active
  {
    if objects != [] {
      ActiveOnlyIff(objects[..|objects| - 1], o);
      assert objects == objects[..|objects| - 1] + [objects[|objects| - 1]];
    }
  }

  lemma {:induction false} ActiveOnlyAllActive(objects: seq<GameObject>)
    requires forall i :: 0 <= i < |objects| ==> objects[i].active
    ensures ActiveOnly(objects) == objects
  {
    if objects != [] {
      ActiveOnlyAllActive(objects[..|objects| - 1]);
      assert objects == objects[..|objects| - 1] + [objects[|objects| - 1]];
    }
  }

  /** The first object with the identifier. */
  function FindObject(objects: seq<GameObject>, id: string): (r: Option<nat>)
    ensures r.Some? ==> r.value < |objects| && objects[r.value].id == id
    ensures r.Some? ==> forall j :: 0 <= j < r.value ==> objects[j].id != id
    ensures r.None? ==> forall j :: 0 <= j < |objects| ==> objects[j].id != id
  {
    if objects == [] then None
    else if objects[0].id == id then Some(0)
    else match FindObject(objects[1..], id)
      case None => None
      case Some(k) => Some(k + 1)
  }

  /**
   * The frame-rate counters after one more frame at `now`: a second after
   * the last update the count becomes the rate and restarts.
   */
  function FpsAfter(fps: nat, frameCount: nat, lastFpsUpdate: int, now: int): (nat, nat, int)
  {
    if now - lastFpsUpdate >= 1000 then (frameCount + 1, 0, now) else (fps, frameCount + 1, lastFpsUpdate)
  }

  /** The cleanup event of a sweep from `before` to `after`: the number removed, when any were. */
  function RemovalEvents(before: seq<GameObject>, after: seq<GameObject>): seq<GameEvent>
    requires |after| <= |before|
  {
    if |after| != |before| then [InactiveRemoved(|before| - |after|)] else []
  }

  // ---- the engine --------------------------------------------------------------

  class GameEngine {
    var state: GameState
    var config: GameConfig
    var objects: seq<GameObject>
    var isRunning: bool
    var isPaused: bool
    var initialized: bool
    var lastFrameTime: int
    var deltaTime: int
    var fps: nat
    var frameCount: nat
    var lastFpsUpdate: int
    /** The states the state-change callbacks have been given, oldest first. */
    var stateLog: seq<GameState>
    /** The events the event callbacks have been given, oldest first. */
    var eventLog: seq<GameEvent>

    /** The state follows the running and paused flags. */
    predicate Valid()
      reads this
    {
      && (state == Menu <==> !isRunning)
      && (state == Paused <==> isRunning && isPaused)
      && (state == Playing <==> isRunning && !isPaused)
    }

    /** A new engine: in the menu, no objects, the defaults overridden by the given fields. */
    constructor(patch: ConfigPatch)
      ensures Valid()
      ensures state == Menu && objects == [] && config == WithPatch(DefaultConfig, patch)
      ensures stateLog == [] && eventLog == [] && !initialized
    {
      state := Menu;
      config := WithPatch(DefaultConfig, patch);
      objects := [];
      isRunning := false;
      isPaused := false;
      initialized := false;
      lastFrameTime := 0;
      deltaTime := 0;
      fps := 0;
      frameCount := 0;
      lastFpsUpdate := 0;
      stateLog := [];
      eventLog := [];
    }

    /** _setState: a change of state is recorded and announced; setting the same state does nothing. */
    method SetState(newState: GameState)
      modifies this
      ensures state == newState
      ensures stateLog == old(stateLog) + (if old(state) != newState then [newState] else [])
      ensures objects == old(objects) && config == old(config) && eventLog == old(eventLog)
      ensures isRunning == old(isRunning) && isPaused == old(isPaused) && initialized == old(initialized)
      ensures lastFrameTime == old(lastFrameTime) && deltaTime == old(deltaTime) && fps == old(fps)
      ensures frameCount == old(frameCount) && lastFpsUpdate == old(lastFpsUpdate)
    {
      if state != newState {
        state := newState;
        stateLog := stateLog + [newState];
      }
    }

    /** initialize: a missing canvas or one without a 2D context is an error; otherwise the configuration is applied. */
    method Initialize(canvas: Option<Canvas>, patch: ConfigPatch, now: int) returns (r: Result<()>)
      requires Valid()
      modifies this
      ensures Valid()
      ensures canvas.None? ==> r == Err("Invalid canvas element") && unchanged(this)
      ensures canvas.Some? && !canvas.value.hasContext ==>
        r == Err("Failed to get 2D rendering context") && unchanged(this)
      ensures canvas.Some? && canvas.value.hasContext ==>
        && r.Ok? && config == WithPatch(old(config), patch) && initialized
        && lastFrameTime == now && lastFpsUpdate == now
        && state == old(state) && objects == old(objects) && stateLog == old(stateLog)
        && eventLog == old(eventLog) && isRunning == old(isRunning) && isPaused == old(isPaused)
        && deltaTime == old(deltaTime) && fps == old(fps) && frameCount == old(frameCount)
    {
      if canvas.None? {
        return Err("Invalid canvas element");
      }
      if !canvas.value.hasContext {
        return Err("Failed to get 2D rendering context");
      }
      config := WithPatch(config, patch);
      initialized := true;
      lastFrameTime := now;
      lastFpsUpdate := now;
      return Ok(());
    }

    /** start: from a stopped engine, playing, and the first frame runs at once; a running engine ignores it. */
    method Start(now: int)
      requires Valid()
      modifies this
      ensures Valid()
      ensures old(isRunning) ==> unchanged(this)
      ensures !old(isRunning) ==> state == Playing && stateLog == old(stateLog) + [Playing] && isRunning && !isPaused
      ensures !old(isRunning) ==>
        var moved := MovedAll(old(objects), 0.0, config.canvasWidth, config.canvasHeight);
        && objects == ActiveOnly(moved)
        && eventLog == old(eventLog) + RemovalEvents(moved, objects)
        && lastFrameTime == now && deltaTime == 0
        && (fps, frameCount, lastFpsUpdate) == FpsAfter(old(fps), old(frameCount), old(lastFpsUpdate), now)
      ensures config == old(config) && initialized == old(initialized)
    {
      if isRunning {
        return;
      }
      isRunning := true;
      isPaused := false;
      SetState(Playing);
      lastFrameTime := now;
      Frame(now);
    }

    /** stop: always back to the menu. */
    method Stop()
      requires Valid()
      modifies this
      ensures Valid() && state == Menu && !isRunning && !isPaused
      ensures stateLog == old(stateLog) + (if old(state) != Menu then [Menu] else [])
      ensures objects == old(objects) && config == old(config) && eventLog == old(eventLog)
      ensures initialized == old(initialized) && lastFrameTime == old(lastFrameTime) && deltaTime == old(deltaTime)
      ensures fps == old(fps) && frameCount == old(frameCount) && lastFpsUpdate == old(lastFpsUpdate)
    {
      isRunning := false;
      isPaused := false;
      SetState(Menu);
    }

    /** pause: only a running, unpaused engine pauses. */
    method Pause()
      requires Valid()
      modifies this
      ensures Valid()
      ensures old(state) == Playing ==> state == Paused && stateLog == old(stateLog) + [Paused]
      ensures old(state) != Playing ==> unchanged(this)
      ensures objects == old(objects) && config == old(config) && eventLog == old(eventLog)
      ensures initialized == old(initialized) && lastFrameTime == old(lastFrameTime) && deltaTime == old(deltaTime)
      ensures fps == old(fps) && frameCount == old(frameCount) && lastFpsUpdate == old(lastFpsUpdate)
    {
      if isRunning && !isPaused {
        isPaused := true;
        SetState(Paused);
      }
    }

    /** resume: only a paused engine resumes, and its next frame runs at once. */
    method Resume(now: int)
      requires Valid()
      modifies this
      ensures Valid()
      ensures old(state) == Paused ==> state == Playing && stateLog == old(stateLog) + [Playing]
      ensures old(state) == Paused ==>
        var moved := MovedAll(old(objects), 0.0, config.canvasWidth, config.canvasHeight);
        && objects == ActiveOnly(moved)
        && eventLog == old(eventLog) + RemovalEvents(moved, objects)
        && lastFrameTime == now && deltaTime == 0
        && (fps, frameCount, lastFpsUpdate) == FpsAfter(old(fps), old(frameCount), old(lastFpsUpdate), now)
      ensures old(state) != Paused ==> unchanged(this)
      ensures config == old(config) && initialized == old(initialized)
    {
      if isRunning && isPaused {
        isPaused := false;
        SetState(Playing);
        lastFrameTime := now;
        Frame(now);
      }
    }

    /** addObject: refused silently when the table is full; otherwise appended and announced. */
    method AddObject(o: GameObject)
      modifies this
      ensures |old(objects)| >= config.maxObjects ==> unchanged(this)
      ensures |old(objects)| < config.maxObjects ==>
        objects == old(objects) + [o] && eventLog == old(eventLog) + [ObjectSpawn(o.id)] && |objects| <= config.maxObjects
      ensures state == old(state) && config == old(config) && stateLog == old(stateLog)
      ensures isRunning == old(isRunning) && isPaused == old(isPaused)
      ensures initialized == old(initialized) && lastFrameTime == old(lastFrameTime) && deltaTime == old(deltaTime)
      ensures fps == old(fps) && frameCount == old(frameCount) && lastFpsUpdate == old(lastFpsUpdate)
    {
      if |objects| >= config.maxObjects {
        return;
      }
      objects := objects + [o];
      eventLog := eventLog + [ObjectSpawn(o.id)];
    }

    /** removeObject: the first object with the identifier leaves the table, announced; an unknown one changes nothing. */
    method RemoveObject(id: string)
      modifies this
      ensures FindObject(old(objects), id).None? ==> unchanged(this)
      ensures FindObject(old(objects), id).Some? ==>
        var i := FindObject(old(objects), id).value;
        objects == old(objects)[..i] + old(objects)[i + 1..] && eventLog == old(eventLog) + [ObjectDestroy(id)]
      ensures state == old(state) && config == old(config) && stateLog == old(stateLog)
      ensures isRunning == old(isRunning) && isPaused == old(isPaused)
      ensures initialized == old(initialized) && lastFrameTime == old(lastFrameTime) && deltaTime == old(deltaTime)
      ensures fps == old(fps) && frameCount == old(frameCount) && lastFpsUpdate == old(lastFpsUpdate)
    {
      var found := FindObject(objects, id);
      if found.Some? {
        var i := found.value;
        objects := objects[..i] + objects[i + 1..];
        eventLog := eventLog + [ObjectDestroy(id)];
      }
    }

    /** getObject: the first object with the identifier. */
    function GetObject(id: string): (r: Option<GameObject>)
      reads this
      ensures r.Some? ==> r.value in objects && r.value.id == id
      ensures r.Some? ==> exists i :: 0 <= i < |objects| && objects[i] == r.value && forall j :: 0 <= j < i ==> objects[j].id != id
      ensures r.None? ==> forall o :: o in objects ==> o.id != id
    {
      match FindObject(objects, id)
      case Some(i) => Some(objects[i])
      case None => None
    }

    /** _updateObjects: every active object moved by `dt` milliseconds and kept inside the canvas. */
    method UpdateObjects(dt: real)
      modifies this
      ensures objects == MovedAll(old(objects), dt, config.canvasWidth, config.canvasHeight)
      ensures state == old(state) && config == old(config) && stateLog == old(stateLog) && eventLog == old(eventLog)
      ensures isRunning == old(isRunning) && isPaused == old(isPaused) && initialized == old(initialized)
      ensures lastFrameTime == old(lastFrameTime) && deltaTime == old(deltaTime) && fps == old(fps)
      ensures frameCount == old(frameCount) && lastFpsUpdate == old(lastFpsUpdate)
    {
      var updated := objects;
      var width, height := config.canvasWidth, config.canvasHeight;
      var i := 0;
      while i < |updated|
        invariant 0 <= i <= |updated| == |objects|
        invariant forall k :: 0 <= k < i ==> updated[k] == Moved(objects[k], dt, width, height)
        invariant forall k :: i <= k < |updated| ==> updated[k] == objects[k]
      {
        var o := updated[i];
        if o.active {
          assert o == objects[i];
          var x := o.position.x + o.velocity.x * (dt / 1000.0);
          var y := o.position.y + o.velocity.y * (dt / 1000.0);
          assert x == Advance(o.position.x, o.velocity.x, dt) && y == Advance(o.position.y, o.velocity.y, dt);
          var box := o.boundingBox.(x := x, y := y);
          ghost var x0, y0 := x, y;
          var vx, vy := o.velocity.x, o.velocity.y;
          if x < 0.0 {
            x, vx := 0.0, -vx;
          }
          if x + box.width > width {
            x, vx := width - box.width, -vx;
          }
          assert (x, vx) == Bounce(x0, o.velocity.x, o.boundingBox.width, width);
          if y < 0.0 {
            y, vy := 0.0, -vy;
          }
          if y + box.height > height {
            y, vy := height - box.height, -vy;
          }
          assert (y, vy) == Bounce(y0, o.velocity.y, o.boundingBox.height, height);
          var moved := o.(position := Vec(x, y), velocity := Vec(vx, vy), boundingBox := box);
          assert moved == Moved(objects[i], dt, width, height);
          updated := updated[i := moved];
        }
        i := i + 1;
      }
      objects := updated;
    }

    /** _removeInactiveObjects: only the active objects stay; a removal is announced with the count. */
    method RemoveInactiveObjects()
      modifies this
      ensures objects == ActiveOnly(old(objects))
      ensures eventLog == old(eventLog) + RemovalEvents(old(objects), objects)
      ensures state == old(state) && config == old(config) && stateLog == old(stateLog)
      ensures isRunning == old(isRunning) && isPaused == old(isPaused) && initialized == old(initialized)
      ensures lastFrameTime == old(lastFrameTime) && deltaTime == old(deltaTime) && fps == old(fps)
      ensures frameCount == old(frameCount) && lastFpsUpdate == old(lastFpsUpdate)
    {
      var initialLength := |objects|;
      objects := ActiveOnly(objects);
      if |objects| != initialLength {
        eventLog := eventLog + [InactiveRemoved(initialLength - |objects|)];
      }
    }

    /**
     * _gameLoop, one frame at time `now`: nothing unless running and not
     * paused; otherwise the frame time and frame rate are updated, the
     * objects move, and inactive ones are dropped.
     */
    method Frame(now: int)
      modifies this
      ensures !(old(isRunning) && !old(isPaused)) ==> unchanged(this)
      ensures old(isRunning) && !old(isPaused) ==>
        var moved := MovedAll(old(objects), (now - old(lastFrameTime)) as real, config.canvasWidth, config.canvasHeight);
        && deltaTime == now - old(lastFrameTime) && lastFrameTime == now
        && objects == ActiveOnly(moved)
        && eventLog == old(eventLog) + RemovalEvents(moved, objects)
        && (fps, frameCount, lastFpsUpdate) == FpsAfter(old(fps), old(frameCount), old(lastFpsUpdate), now)
      ensures state == old(state) && config == old(config) && stateLog == old(stateLog)
      ensures isRunning == old(isRunning) && isPaused == old(isPaused) && initialized == old(initialized)
    {
      if !isRunning || isPaused {
        return;
      }
      deltaTime := now - lastFrameTime;
      lastFrameTime := now;
      frameCount := frameCount + 1;
      if now - lastFpsUpdate >= 1000 {
        fps := frameCount;
        frameCount := 0;
        lastFpsUpdate := now;
      }
      assert (fps, frameCount, lastFpsUpdate) == FpsAfter(old(fps), old(frameCount), old(lastFpsUpdate), now);
      UpdateObjects(deltaTime as real);
      ghost var moved := objects;
      RemoveInactiveObjects();
      assert objects == ActiveOnly(moved) && eventLog == old(eventLog) + RemovalEvents(moved, objects);
    }

    /** dispose: stopped as by `stop`, and with no objects left. */
    method Dispose()
      requires Valid()
      modifies this
      ensures Valid() && state == Menu && objects == [] && !isRunning && !isPaused
      ensures stateLog == old(stateLog) + (if old(state) != Menu then [Menu] else [])
      ensures config == old(config) && eventLog == old(eventLog)
      ensures initialized == old(initialized) && lastFrameTime == old(lastFrameTime) && deltaTime == old(deltaTime)
      ensures fps == old(fps) && frameCount == old(frameCount) && lastFpsUpdate == old(lastFpsUpdate)
    {
      Stop();
      objects := [];
      SetState(Menu);
    }
  }

  /** Starting, pausing, resuming and stopping a new engine announces exactly these four states. */
  method StateSequence(now: int) returns (log: seq<GameState>)
    ensures log == [Playing, Paused, Playing, Menu]
  {
    var engine := new GameEngine(NoChanges);
    engine.Start(now);
    engine.Pause();
    engine.Resume(now);
    engine.Stop();
    log := engine.stateLog;
  }

  /** A second start changes nothing. */
  method StartTwice(now: int) returns (log: seq<GameState>)
    ensures log == [Playing]
  {
    var engine := new GameEngine(NoChanges);
    engine.Start(now);
    engine.Start(now);
    log := engine.stateLog;
  }

  /** An engine limited to two objects keeps only the first two added. */
  method TableLimit(a: GameObject, b: GameObject, c: GameObject) returns (objects: seq<GameObject>)
    ensures objects == [a, b]
  {
    var engine := new GameEngine(NoChanges.(maxObjects := Some(2)));
    engine.AddObject(a);
    engine.AddObject(b);
    engine.AddObject(c);
    objects := engine.objects;
  }
}
