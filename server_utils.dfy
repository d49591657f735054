/**
 * build/ServerUtils.js: the update manager, a one-slot mailbox between the
 * update source and the game loop, and the mock update source that
 * broadcasts scripted snapshots to its registered managers once per timer
 * tick. Each `setInterval` callback is a tick method here; the closure
 * variable each timer keeps (`flag`, `i`) is one entry of a field, one
 * entry per started timer.
 */
module ServerUtils {
  import opened VectorMath
  import opened Snapshots
  import Agents

  /** `Math.PI` as a double. */
  const PI: real := 3.141592653589793

  /** The id every scripted player carries. */
  const EXAMPLE_PLAYER_ID: string := "example player id"

  // ---------------------------------------------------------------------
  // The mailbox

  /** What a manager holds: the dirty flag and the last snapshot accepted. */
  datatype Mailbox = Mailbox(hasUpdate: bool, latest: Snapshot)

  /** A fresh manager: nothing new, an empty snapshot. */
  const EmptyMailbox := Mailbox(false, EmptySnapshot)

  /** `acceptUpdate(update)`. */
  function Accept(m: Mailbox, update: Snapshot): Mailbox {
    Mailbox(true, update)
  }

  /** `getUpdate()`: the mailbox afterwards and the snapshot returned. */
  function Take(m: Mailbox): (Mailbox, Snapshot) {
    (m.(hasUpdate := false), m.latest)
  }

  /** Accepting every update of a sequence, in order. */
  function AcceptAll(m: Mailbox, updates: seq<Snapshot>): Mailbox {
    if updates == [] then m else Accept(AcceptAll(m, updates[..|updates| - 1]), updates[|updates| - 1])
  }

  /** Latest wins: of two accepted updates only the second can be taken. */
  lemma LatestWins(m: Mailbox, a: Snapshot, b: Snapshot)
    ensures Take(Accept(Accept(m, a), b)).1 == b
    ensures Take(Accept(Accept(m, a), b)) == Take(Accept(m, b))
  {
  }

  /** However many updates arrive between two takes, the next take sees only the last. */
  lemma AcceptAllKeepsLast(m: Mailbox, updates: seq<Snapshot>)
    requires updates != []
    ensures AcceptAll(m, updates) == Mailbox(true, updates[|updates| - 1])
    ensures Take(AcceptAll(m, updates)).1 == updates[|updates| - 1]
  {
  }

  /**
   * A take clears the flag and leaves the snapshot in place: taking again
   * without a new update returns the same snapshot, with the flag still down.
   */
  lemma TakeTwice(m: Mailbox)
    ensures !Take(m).0.hasUpdate && Take(m).0.latest == m.latest
    ensures Take(Take(m).0) == (Take(m).0, Take(m).1)
  {
  }

  // ---------------------------------------------------------------------
  // Scripted snapshots

  /** A snapshot holding the one example player and no bullets. */
  function OnePlayer(position: Vec2, velocity: Vec2, acceleration: Vec2, orientation: real): Snapshot {
    Snapshot([PlayerState(EXAMPLE_PLAYER_ID, KinematicState(position, velocity, acceleration, orientation, 0.0))], [])
  }

  /** `sineMotion(toggleFlag)` of `oneSecondSineMotion`. */
  function SineMotion(toggleFlag: bool): Snapshot {
    if toggleFlag then OnePlayer(Vec2(0.0, 0.0), Vec2(300.0, 300.0), Vec2(0.0, 0.0), 0.0)
    else OnePlayer(Vec2(300.0, 300.0), Vec2(-300.0, -300.0), Vec2(0.0, 0.0), 0.0)
  }

  /**
   * The two sine snapshots are one second of motion apart: an agent that
   * takes either and integrates for a second (the tick period) arrives
   * where the other one puts it.
   */
  lemma SineMotionIsConsistent(flag: bool)
    ensures Agents.Integrate(SineMotion(flag).players[0].kinematics, 1.0).position
         == SineMotion(!flag).players[0].kinematics.position
  {
  }

  /** The `mockData` of `oneSecIntervalUpdates`: three snapshots. */
  function MockData(): (data: seq<Snapshot>)
    ensures |data| == 3
  {
    [ OnePlayer(Vec2(0.0, 0.0), Vec2(200.0, 200.0), Vec2(0.0, -50.0), 0.0),
      OnePlayer(Vec2(100.0, 100.0), Vec2(5.0, 5.0), Vec2(0.0, 0.0), PI),
      Snapshot(
        [PlayerState(EXAMPLE_PLAYER_ID, KinematicState(Vec2(100.0, 50.0), Vec2(0.0, 0.0), Vec2(0.0, 0.0), 2.0 * PI, 0.0))],
        [BulletState("example bullet id", Vec2(50.0, 50.0), Vec2(30.0, 5.0))]) ]
  }

  /** What n ticks of a sine timer whose flag is `flag` broadcast, in order. */
  function SineBroadcasts(flag: bool, n: nat): seq<Snapshot>
    decreases n
  {
    if n == 0 then [] else [SineMotion(flag)] + SineBroadcasts(!flag, n - 1)
  }

  /** The sine timer alternates: tick k broadcasts the first snapshot for even k, the second for odd k. */
  lemma {:induction false} SineBroadcastsAlternate(n: nat)
    ensures |SineBroadcasts(true, n)| == n
    ensures forall k :: 0 <= k < n ==> SineBroadcasts(true, n)[k] == SineMotion(k % 2 == 0)
  {
    SineBroadcastsFrom(true, n);
  }

  lemma {:induction false} SineBroadcastsFrom(flag: bool, n: nat)
    decreases n
    ensures |SineBroadcasts(flag, n)| == n
    ensures forall k :: 0 <= k < n ==> SineBroadcasts(flag, n)[k] == SineMotion(if k % 2 == 0 then flag else !flag)
  {
    if n > 0 {
      SineBroadcastsFrom(!flag, n - 1);
      var rest := SineBroadcasts(!flag, n - 1);
      assert SineBroadcasts(flag, n) == [SineMotion(flag)] + rest;
      forall k | 0 < k < n
        ensures SineBroadcasts(flag, n)[k] == SineMotion(if k % 2 == 0 then flag else !flag)
      {
        assert SineBroadcasts(flag, n)[k] == rest[k - 1];
      }
    }
  }

  /** What n ticks of an interval timer whose counter is i broadcast, in order. */
  function IntervalBroadcasts(i: nat, n: nat): seq<Snapshot>
    decreases n
  {
    if n == 0 then []
    else if i < |MockData()| then [MockData()[i]] + IntervalBroadcasts(i + 1, n - 1)
    else IntervalBroadcasts(i, n - 1)
  }

  /**
   * The interval timer broadcasts the scripted snapshots from its counter
   * on, one per tick, and nothing once they are used up.
   */
  lemma {:induction false} IntervalBroadcastsScript(i: nat, n: nat)
    requires i <= |MockData()|
    decreases n
    ensures var end := if i + n < |MockData()| then i + n else |MockData()|;
      IntervalBroadcasts(i, n) == MockData()[i..end]
  {
    if n > 0 {
      if i < |MockData()| {
        IntervalBroadcastsScript(i + 1, n - 1);
      } else {
        IntervalBroadcastsScript(i, n - 1);
      }
    }
  }

  // ---------------------------------------------------------------------
  // The classes

  class ServerUpdateManager {
    var hasUpdateFlag: bool
    var mostRecentUpdate: Snapshot
    const serverUpdateProvider: ServerMock

    function Box(): Mailbox
      reads this
    {
      Mailbox(hasUpdateFlag, mostRecentUpdate)
    }

    /** No update yet, and an empty snapshot. */
    constructor (serverUpdateProvider: ServerMock)
      ensures this.serverUpdateProvider == serverUpdateProvider
      ensures Box() == EmptyMailbox
    {
      this.serverUpdateProvider := serverUpdateProvider;
      hasUpdateFlag := false;
      mostRecentUpdate := EmptySnapshot;
    }

    /** `hasUpdate()`: a peek; it changes nothing. */
    method HasUpdate() returns (b: bool)
      ensures b == hasUpdateFlag
    {
      b := hasUpdateFlag;
    }

    /** `getUpdate()`. */
    method GetUpdate() returns (update: Snapshot)
      modifies this`hasUpdateFlag
      ensures (Box(), update) == Take(old(Box()))
    {
      hasUpdateFlag := false;
      update := mostRecentUpdate;
    }

    /** `acceptUpdate(update)`. */
    method AcceptUpdate(update: Snapshot)
      modifies this`hasUpdateFlag, this`mostRecentUpdate
      ensures Box() == Accept(old(Box()), update)
    {
      hasUpdateFlag := true;
      mostRecentUpdate := update;
    }

    /**
     * `beginRequestingUpdates()`: registers this manager (its `acceptUpdate`)
     * with the provider, once, then starts the provider.
     */
    method BeginRequestingUpdates()
      modifies serverUpdateProvider`updateObservers, serverUpdateProvider`sineFlags
      ensures serverUpdateProvider.updateObservers == old(serverUpdateProvider.updateObservers) + [this]
      ensures serverUpdateProvider.sineFlags == old(serverUpdateProvider.sineFlags) + [true]
    {
      serverUpdateProvider.AddUpdateListener(this);
      serverUpdateProvider.StartProvidingUpdates();
    }
  }

  class ServerMock {
    /** The registered listeners; the only listener ever registered is a manager's `acceptUpdate`. */
    var updateObservers: seq<ServerUpdateManager>
    /** The `flag` of every started sine timer. */
    var sineFlags: seq<bool>
    /** The counter `i` of every started interval timer. */
    var intervalCounters: seq<nat>

    constructor ()
      ensures updateObservers == [] && sineFlags == [] && intervalCounters == []
    {
      updateObservers := [];
      sineFlags := [];
      intervalCounters := [];
    }

    /** `startProvidingUpdates()`: starts a sine timer. */
    method StartProvidingUpdates()
      modifies this`sineFlags
      ensures sineFlags == old(sineFlags) + [true]
    {
      OneSecondSineMotion();
    }

    /** `addUpdateListener(onUpdate)`. */
    method AddUpdateListener(onUpdate: ServerUpdateManager)
      modifies this`updateObservers
      ensures updateObservers == old(updateObservers) + [onUpdate]
    {
      updateObservers := updateObservers + [onUpdate];
    }

    /**
     * `broadcastUpdate(update)`: every observer, in registration order,
     * accepts the same update; `delivered` is that order.
     */
    method BroadcastUpdate(update: Snapshot) returns (ghost delivered: seq<ServerUpdateManager>)
      modifies updateObservers
      ensures delivered == updateObservers
      ensures forall j :: 0 <= j < |updateObservers| ==> updateObservers[j].Box() == Mailbox(true, update)
    {
      delivered := [];
      var observers := updateObservers;
      for i := 0 to |observers|
        invariant delivered == observers[..i]
        invariant forall j :: 0 <= j < i ==> observers[j].Box() == Mailbox(true, update)
      {
        observers[i].AcceptUpdate(update);
        delivered := delivered + [observers[i]];
      }
    }

    /** `oneSecIntervalUpdates()`: starts an interval timer with counter 0. */
    method OneSecIntervalUpdates()
      modifies this`intervalCounters
      ensures intervalCounters == old(intervalCounters) + [0]
    {
      intervalCounters := intervalCounters + [0];
    }

    /** One tick of interval timer t: the next scripted snapshot, while there is one. */
    method IntervalTick(t: nat)
      requires t < |intervalCounters|
      modifies this`intervalCounters, updateObservers
      ensures var i := old(intervalCounters[t]);
        && intervalCounters == old(intervalCounters)[t := if i < |MockData()| then i + 1 else i]
        && (i < |MockData()| ==>
              forall j :: 0 <= j < |updateObservers| ==> updateObservers[j].Box() == Mailbox(true, MockData()[i]))
        && (i >= |MockData()| ==>
              forall j :: 0 <= j < |updateObservers| ==> updateObservers[j].Box() == old(updateObservers[j].Box()))
    {
      var i := intervalCounters[t];
      var mockData := MockData();
      if i < |mockData| {
        var _ := BroadcastUpdate(mockData[i]);
        intervalCounters := intervalCounters[t := i + 1];
      }
    }

    /** `oneSecondSineMotion()`: starts a sine timer whose flag is true. */
    method OneSecondSineMotion()
      modifies this`sineFlags
      ensures sineFlags == old(sineFlags) + [true]
    {
      sineFlags := sineFlags + [true];
    }

    /** One tick of sine timer t: broadcast the snapshot for its flag, then flip the flag. */
    method SineTick(t: nat)
      requires t < |sineFlags|
      modifies this`sineFlags, updateObservers
      ensures sineFlags == old(sineFlags)[t := !old(sineFlags[t])]
      ensures forall j :: 0 <= j < |updateObservers| ==>
        updateObservers[j].Box() == Mailbox(true, SineMotion(old(sineFlags[t])))
    {
      var _ := BroadcastUpdate(SineMotion(sineFlags[t]));
      sineFlags := sineFlags[t := !sineFlags[t]];
    }
  }
}
