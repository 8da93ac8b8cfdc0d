/** Whole runs of the game: any interleaving of physics contacts, taps and
    frames, and what the scene can and cannot do over such a run. */
module GameRuns {
  import opened GameModel

  /** The three things that happen to the scene between two renders.  A
      frame carries the scale the random generator would return if the frame
      spawns an obstacle. */
  datatype Event = ContactBegan(contact: Contact) | TouchBegan | Frame(randomScale: real)

  predicate ScaleInRange(e: Event)
  {
    e.Frame? ==> MinScale <= e.randomScale <= MaxScale
  }

  predicate ScalesInRange(events: seq<Event>)
  {
    forall i :: 0 <= i < |events| ==> ScaleInRange(events[i])
  }

  function Step(s: Scene, e: Event): Scene
    requires ScaleInRange(e)
  {
    match e
    case ContactBegan(c) => DidBegin(s, c)
    case TouchBegan => TouchesBegan(s)
    case Frame(scale) => Update(s, scale)
  }

  /** The scene after the events, applied in order. */
  function Run(s: Scene, events: seq<Event>): Scene
    requires ScalesInRange(events)
    decreases |events|
  {
    if events == [] then s
    else
      var n := |events| - 1;
      assert ScalesInRange(events[..n]) by {
        forall i | 0 <= i < n ensures ScaleInRange(events[..n][i]) { assert events[..n][i] == events[i]; }
      }
      Step(Run(s, events[..n]), events[n])
  }

  function CountFrames(events: seq<Event>): nat
  {
    if events == [] then 0
    else CountFrames(events[..|events| - 1]) + (if events[|events| - 1].Frame? then 1 else 0)
  }

  function CountGroundContacts(events: seq<Event>): nat
  {
    if events == [] then 0
    else
      var e := events[|events| - 1];
      CountGroundContacts(events[..|events| - 1])
        + (if e.ContactBegan? && IsGroundContact(e.contact) then 1 else 0)
  }

  predicate AllFrames(events: seq<Event>)
  {
    forall i :: 0 <= i < |events| ==> events[i].Frame?
  }

  /** A run split before its last event. */
  lemma ScalesOfPrefix(events: seq<Event>)
    requires ScalesInRange(events) && events != []
    ensures ScalesInRange(events[..|events| - 1]) && ScaleInRange(events[|events| - 1])
    ensures AllFrames(events) ==> AllFrames(events[..|events| - 1]) && events[|events| - 1].Frame?
  {
    var n := |events| - 1;
    forall i | 0 <= i < n ensures events[..n][i] == events[i] { }
  }

  lemma {:induction false} CountFramesOfFrames(events: seq<Event>)
    requires AllFrames(events)
    ensures CountFrames(events) == |events|
    decreases |events|
  {
    if events != [] {
      var n := |events| - 1;
      assert AllFrames(events[..n]) by {
        forall i | 0 <= i < n ensures events[..n][i] == events[i] { }
      }
      CountFramesOfFrames(events[..n]);
    }
  }

  // ---------------------------------------------------------------- invariant

  /** Every event keeps the scene invariant. */
  lemma StepKeepsValid(s: Scene, e: Event)
    requires Valid(s) && ScaleInRange(e)
    ensures Valid(Step(s, e))
  {
  }

  lemma {:induction false} RunKeepsValid(s: Scene, events: seq<Event>)
    requires Valid(s) && ScalesInRange(events)
    ensures Valid(Run(s, events))
    decreases |events|
  {
    if events != [] {
      ScalesOfPrefix(events);
      RunKeepsValid(s, events[..|events| - 1]);
      StepKeepsValid(Run(s, events[..|events| - 1]), events[|events| - 1]);
    }
  }

  lemma InitialIsValid(sceneWidth: real, sourceY: real, scrollX: real, tiles: seq<Tile>,
                       obstacleX: real, obstacles: seq<Obstacle>)
    ensures Valid(Initial(sceneWidth, sourceY, scrollX, tiles, obstacleX, obstacles))
  {
  }

  // -------------------------------------------------------------------- death

  /** Nothing brings a dead scene back to life. */
  lemma {:induction false} DeadIsAbsorbing(s: Scene, events: seq<Event>)
    requires s.state == Dead && ScalesInRange(events)
    ensures Run(s, events).state == Dead
    decreases |events|
  {
    if events != [] {
      ScalesOfPrefix(events);
      DeadIsAbsorbing(s, events[..|events| - 1]);
    }
  }

  /** An obstacle contact kills, and a second one changes nothing but the tint count. */
  lemma ObstacleContactKills(s: Scene, c: Contact)
    requires IsObstacleContact(c)
    ensures DidBegin(s, c).state == Dead
    ensures DidBegin(DidBegin(s, c), c) == DidBegin(s, c).(colorizes := s.colorizes + 2)
  {
  }

  /** A ground contact grounds the hero, and repeating it is a no-op. */
  lemma GroundContactIsIdempotent(s: Scene, c: Contact)
    requires IsGroundContact(c) && !IsObstacleContact(c)
    ensures DidBegin(s, c).touchingGround
    ensures DidBegin(DidBegin(s, c), c) == DidBegin(s, c)
    ensures DidBegin(s, c) == s.(touchingGround := true)
  {
  }

  /** Categories are compared for equality, so a body in both the ground and
      obstacle categories (mask 6) triggers neither rule. */
  lemma CombinedMaskIsIgnored(s: Scene, other: u32)
    requires other != GroundCategory && other != ObstacleCategory
    ensures DidBegin(s, Contact(6, other)) == s
    ensures DidBegin(s, Contact(other, 6)) == s
  {
  }

  /** Once dead, the score is frozen, and the speed is frozen from the first
      frame after death on: each later frame sets it from the same score. */
  lemma {:induction false} FrozenAfterDeath(s: Scene, events: seq<Event>)
    requires s.state == Dead && ScalesInRange(events)
    ensures Run(s, events).score == s.score
    ensures Run(s, events).scrollSpeed ==
              if CountFrames(events) == 0 then s.scrollSpeed
              else StartingSpeed + SpeedPerPoint * s.score as real
    decreases |events|
  {
    if events != [] {
      ScalesOfPrefix(events);
      FrozenAfterDeath(s, events[..|events| - 1]);
      DeadIsAbsorbing(s, events[..|events| - 1]);
    }
  }

  // --------------------------------------------------------- score and speed

  /** The score never decreases, and grows by at most one per frame. */
  lemma {:induction false} ScoreNonDecreasing(s: Scene, events: seq<Event>)
    requires ScalesInRange(events)
    ensures s.score <= Run(s, events).score <= s.score + CountFrames(events)
    decreases |events|
  {
    if events != [] {
      ScalesOfPrefix(events);
      ScoreNonDecreasing(s, events[..|events| - 1]);
    }
  }

  /** In a reachable scene the speed never decreases. */
  lemma {:induction false} SpeedNonDecreasing(s: Scene, events: seq<Event>)
    requires Valid(s) && ScalesInRange(events)
    ensures s.scrollSpeed <= Run(s, events).scrollSpeed
    decreases |events|
  {
    if events != [] {
      ScalesOfPrefix(events);
      SpeedNonDecreasing(s, events[..|events| - 1]);
      RunKeepsValid(s, events[..|events| - 1]);
      ScoreNonDecreasing(s, events[..|events| - 1]);
    }
  }

  /** A run of n frames from a fresh score, with no contact: n points, and the
      speed set by frame n is the base speed plus 0.01 per earlier frame. */
  lemma {:induction false} ActiveRun(s: Scene, events: seq<Event>)
    requires s.state == Active && s.score == 0
    requires AllFrames(events) && ScalesInRange(events)
    ensures Run(s, events).state == Active
    ensures Run(s, events).score == |events|
    ensures |events| > 0 ==>
              Run(s, events).scrollSpeed == StartingSpeed + SpeedPerPoint * (|events| - 1) as real
    decreases |events|
  {
    if events != [] {
      ScalesOfPrefix(events);
      ActiveRun(s, events[..|events| - 1]);
    }
  }

  // ---------------------------------------------------------------- spawning

  /** The spawn timer after k frames from zero: ((k - 1) mod 240 + 1)
      frames' worth of time once a frame has run. */
  function TimerAfter(k: nat): real
  {
    if k == 0 then 0.0 else ((k - 1) % 240 + 1) as real * FixedDelta
  }

  /** One frame of the timer in closed form: after k frames the timer is due
      exactly when k is a positive multiple of 240, and the next frame leaves
      the closed form for k + 1. */
  lemma TimerStep(k: nat)
    ensures TimerAfter(k) >= SpawnInterval <==> k > 0 && k % 240 == 0
    ensures (if TimerAfter(k) >= SpawnInterval then 0.0 else TimerAfter(k)) + FixedDelta == TimerAfter(k + 1)
  {
    if k > 0 {
      var j := (k - 1) % 240 + 1;
      assert j == 240 <==> k % 240 == 0;
      assert j != 240 ==> k % 240 == j;
      assert j as real * FixedDelta >= SpawnInterval <==> j >= 240;
    }
  }

  /** Only a frame touches the spawn timer. */
  lemma StepTimer(s: Scene, e: Event)
    requires ScaleInRange(e)
    ensures Step(s, e).spawnTimer ==
              if e.Frame? then (if SpawnDue(s) then 0.0 else s.spawnTimer) + FixedDelta else s.spawnTimer
  {
  }

  /** From a zero timer, after any run with n frames the timer is
      `TimerAfter(n)`; taps and contacts leave it alone. */
  lemma {:induction false} TimerAfterFrames(s: Scene, events: seq<Event>)
    requires s.spawnTimer == 0.0 && ScalesInRange(events)
    ensures Run(s, events).spawnTimer == TimerAfter(CountFrames(events))
    decreases |events|
  {
    if events != [] {
      var n := |events| - 1;
      ScalesOfPrefix(events);
      TimerAfterFrames(s, events[..n]);
      StepTimer(Run(s, events[..n]), events[n]);
      TimerStep(CountFrames(events[..n]));
    }
  }

  /** Over any run from a zero timer, the frame after the n-th spawns an
      obstacle exactly when n is a positive multiple of 240: the first spawn
      is on frame 241, then one every 240 frames. */
  lemma SpawnCadence(s: Scene, events: seq<Event>)
    requires s.spawnTimer == 0.0 && ScalesInRange(events)
    ensures SpawnDue(Run(s, events)) <==> CountFrames(events) > 0 && CountFrames(events) % 240 == 0
  {
    TimerAfterFrames(s, events);
    TimerStep(CountFrames(events));
  }

  /** Each frame adds at most one obstacle, whatever the timer holds. */
  lemma {:induction false} AtMostOneSpawnPerFrame(s: Scene, events: seq<Event>)
    requires ScalesInRange(events)
    ensures |Run(s, events).obstacles| <= |s.obstacles| + CountFrames(events)
    decreases |events|
  {
    if events != [] {
      ScalesOfPrefix(events);
      AtMostOneSpawnPerFrame(s, events[..|events| - 1]);
    }
  }

  /** The scenario of 240 quiet frames from the initial scene: 240 points, a
      speed of 202.39, and the timer due, so that frame 241 spawns. */
  lemma QuietFirst240Frames(s: Scene, events: seq<Event>)
    requires s.state == Active && s.score == 0 && s.spawnTimer == 0.0
    requires |events| == 240 && AllFrames(events) && ScalesInRange(events)
    ensures Run(s, events).score == 240
    ensures Run(s, events).scrollSpeed == 202.39
    ensures SpawnDue(Run(s, events))
  {
    ActiveRun(s, events);
    CountFramesOfFrames(events);
    SpawnCadence(s, events);
  }

  /** None of the first 240 frames from a zero timer spawns, whatever taps
      and contacts come between them. */
  lemma NoSpawnInFirst240Frames(s: Scene, events: seq<Event>)
    requires s.spawnTimer == 0.0 && ScalesInRange(events) && CountFrames(events) < 240
    ensures !SpawnDue(Run(s, events))
  {
    SpawnCadence(s, events);
  }

  // ----------------------------------------------------------------- jumping

  /** A tap while dead or airborne changes nothing; a second tap right after
      a jump is dropped. */
  lemma SecondTapIsDropped(s: Scene)
    ensures s.state == Dead || !s.touchingGround ==> TouchesBegan(s) == s
    ensures TouchesBegan(TouchesBegan(s)) == TouchesBegan(s)
    ensures |TouchesBegan(TouchesBegan(s)).impulses| ==
              |s.impulses| + (if s.state == Active && s.touchingGround then 1 else 0)
  {
  }

  /** Jumps are paid for by ground contacts: the impulses requested plus the
      "grounded" flag never exceed what the scene started with plus one per
      ground contact. */
  lemma {:induction false} ImpulseBudget(s: Scene, events: seq<Event>)
    requires ScalesInRange(events)
    ensures var r := Run(s, events);
            |r.impulses| + (if r.touchingGround then 1 else 0)
              <= |s.impulses| + (if s.touchingGround then 1 else 0) + CountGroundContacts(events)
    ensures s.impulses <= Run(s, events).impulses
    decreases |events|
  {
    if events != [] {
      ScalesOfPrefix(events);
      ImpulseBudget(s, events[..|events| - 1]);
    }
  }

  /** With no ground contact in between, any number of taps (and frames)
      produce at most one jump, and every jump is the (0, 100) impulse. */
  lemma {:induction false} OneJumpWithoutGroundContact(s: Scene, events: seq<Event>)
    requires ScalesInRange(events) && CountGroundContacts(events) == 0
    ensures |Run(s, events).impulses| <= |s.impulses| + 1
    ensures s.impulses <= Run(s, events).impulses
    ensures forall i :: |s.impulses| <= i < |Run(s, events).impulses| ==> Run(s, events).impulses[i] == JumpImpulse
    decreases |events|
  {
    ImpulseBudget(s, events);
    if events != [] {
      ScalesOfPrefix(events);
      assert CountGroundContacts(events[..|events| - 1]) == 0;
      OneJumpWithoutGroundContact(s, events[..|events| - 1]);
    }
  }
}
