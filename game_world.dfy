/**
 * build/GameWorld.js: the game loop. Each call is one animation frame. The
 * first call starts the update source. Frames are paced to FPS by a
 * millisecond accumulator. A paced frame applies the pending snapshot (if
 * any) to the id-keyed players and bullets, creating an entity for every
 * id it has not seen, integrates every tracked entity, and has the camera
 * update and draw.
 */
module Game {
  import opened VectorMath
  import opened Snapshots
  import opened Canvas
  import opened ServerUtils
  import opened Scene
  import Agents
  import Bullets
  import GridBackground

  /** `constants.FPS`. */
  const FPS: real := 30.0
  /** `1000 / constants.FPS`: a frame is due once this many milliseconds have accumulated. */
  const MILLIS_PER_FRAME: real := 1000.0 / FPS
  /** A duration of `millis` milliseconds, in seconds. */
  function Seconds(millis: real): real {
    millis / 1000.0
  }

  /** `constants.DEBUG_MODE`. */
  const DEBUG_MODE: bool := true
  /** The sprite size every player created from a snapshot gets. */
  const PLAYER_SIZE: Vec2 := Vec2(100.0, 150.0)
  /** The menu line added after each new player's line. */
  const SHAKE_HINT: string := "Press \"s\" to simulate camera shake."

  // ---------------------------------------------------------------------
  // Applying entries by id

  /** The (id, state) entries of a snapshot's players. */
  function PlayerEntries(states: seq<PlayerState>): seq<(string, KinematicState)> {
    seq(|states|, i requires 0 <= i < |states| => (states[i].id, states[i].kinematics))
  }

  /** The (id, motion) entries of a snapshot's bullets. */
  function BulletEntries(states: seq<BulletState>): seq<(string, Bullets.BulletMotion)> {
    seq(|states|, i requires 0 <= i < |states| => (states[i].id, Bullets.BulletMotion(states[i].position, states[i].velocity)))
  }

  /** The ids the entries carry. */
  function IdSet<V>(entries: seq<(string, V)>): set<string> {
    set i | 0 <= i < |entries| :: entries[i].0
  }

  /** A map after each entry, in order, has set its id to its value. */
  function Overwrite<V>(m: map<string, V>, entries: seq<(string, V)>): map<string, V> {
    if entries == [] then m
    else
      var last := entries[|entries| - 1];
      Overwrite(m, entries[..|entries| - 1])[last.0 := last.1]
  }

  /**
   * Applying entries by id: every id of the entries becomes a key and no
   * key is lost; an id ends with the value of the last entry carrying it;
   * a key no entry carries keeps its value.
   */
  lemma {:induction false} OverwriteSpec<V>(m: map<string, V>, entries: seq<(string, V)>)
    ensures forall id :: id in Overwrite(m, entries) <==> id in m || id in IdSet(entries)
    ensures forall i :: 0 <= i < |entries| ==> entries[i].0 in Overwrite(m, entries)
    ensures forall i | 0 <= i < |entries| && (forall j :: i < j < |entries| ==> entries[j].0 != entries[i].0) ::
      Overwrite(m, entries)[entries[i].0] == entries[i].1
    ensures forall id :: id in m && id !in IdSet(entries) ==> Overwrite(m, entries)[id] == m[id]
  {
    if entries != [] {
      var n := |entries| - 1;
      var init := entries[..n];
      OverwriteSpec(m, init);
      assert IdSet(entries) == IdSet(init) + {entries[n].0} by {
        forall id | id in IdSet(entries) ensures id in IdSet(init) + {entries[n].0} {
          var i :| 0 <= i < |entries| && entries[i].0 == id;
          if i < n {
            assert init[i].0 == id;
          }
        }
      }
      forall i | 0 <= i < |entries| && (forall j :: i < j < |entries| ==> entries[j].0 != entries[i].0)
        ensures Overwrite(m, entries)[entries[i].0] == entries[i].1
      {
        if i < n {
          assert entries[n].0 != entries[i].0;
          assert init[i] == entries[i];
          assert forall j :: i < j < |init| ==> init[j].0 != init[i].0 by {
            forall j | i < j < |init| ensures init[j].0 != init[i].0 {
              assert init[j] == entries[j];
            }
          }
        }
      }
    }
  }

  /** No element occurs twice. */
  predicate NoDuplicates(ids: seq<string>) {
    forall a, b :: 0 <= a < b < |ids| ==> ids[a] != ids[b]
  }

  /**
   * The ids that are new to `known`, in the order of their first entry:
   * the entities a snapshot creates, in creation order.
   */
  function NewIds<V>(known: set<string>, entries: seq<(string, V)>): seq<string> {
    if entries == [] then []
    else
      var earlier := NewIds(known, entries[..|entries| - 1]);
      var id := entries[|entries| - 1].0;
      if id in known || id in earlier then earlier else earlier + [id]
  }

  /** Exactly the unseen ids are created, and each of them once. */
  lemma {:induction false} NewIdsSpec<V>(known: set<string>, entries: seq<(string, V)>)
    ensures forall id :: id in NewIds(known, entries) <==> id in IdSet(entries) && id !in known
    ensures NoDuplicates(NewIds(known, entries))
  {
    if entries != [] {
      var n := |entries| - 1;
      var init := entries[..n];
      NewIdsSpec(known, init);
      assert IdSet(entries) == IdSet(init) + {entries[n].0} by {
        forall id | id in IdSet(entries) ensures id in IdSet(init) + {entries[n].0} {
          var i :| 0 <= i < |entries| && entries[i].0 == id;
          if i < n {
            assert init[i].0 == id;
          }
        }
      }
      var earlier := NewIds(known, init);
      var id := entries[n].0;
      if !(id in known || id in earlier) {
        var r := earlier + [id];
        assert NoDuplicates(earlier);
        forall a, b | 0 <= a < b < |r| ensures r[a] != r[b] {
          assert r[a] == earlier[a] && earlier[a] in earlier;
          if b < |earlier| {
            assert r[b] == earlier[b];
          } else {
            assert r[b] == id;
          }
        }
      }
    }
  }

  /** Every tracked state after one Euler step of dt seconds. */
  function IntegrateAll(m: map<string, KinematicState>, dt: real): map<string, KinematicState> {
    map id | id in m :: Agents.Integrate(m[id], dt)
  }

  /** Every tracked bullet after dt seconds of straight-line motion. */
  function AdvanceAll(m: map<string, Bullets.BulletMotion>, dt: real): map<string, Bullets.BulletMotion> {
    map id | id in m :: Bullets.Advance(m[id], dt)
  }

  /** What a frame applies: the held snapshot when there is a new one, else nothing. */
  function Pending(box: Mailbox): Snapshot {
    if box.hasUpdate then box.latest else EmptySnapshot
  }

  /**
   * A frame's application and integration never loses a tracked id, and
   * gives each id of the snapshot the state of its last entry, stepped once.
   */
  lemma FrameKeepsIdsAndLastStateWins(m: map<string, KinematicState>, states: seq<PlayerState>, dt: real)
    ensures var r := IntegrateAll(Overwrite(m, PlayerEntries(states)), dt);
      && (forall id :: id in r <==> id in m || id in IdSet(PlayerEntries(states)))
      && (forall i :: 0 <= i < |states| ==> states[i].id in r)
      && (forall i | 0 <= i < |states| && (forall j :: i < j < |states| ==> states[j].id != states[i].id) ::
            r[states[i].id] == Agents.Integrate(states[i].kinematics, dt))
  {
    var e := PlayerEntries(states);
    OverwriteSpec(m, e);
    forall i | 0 <= i < |states|
      ensures states[i].id in Overwrite(m, e)
    {
      assert e[i].0 == states[i].id;
    }
    forall i | 0 <= i < |states| && (forall j :: i < j < |states| ==> states[j].id != states[i].id)
      ensures Overwrite(m, e)[states[i].id] == states[i].kinematics
    {
      assert e[i] == (states[i].id, states[i].kinematics);
      assert forall j :: i < j < |e| ==> e[j].0 != e[i].0 by {
        forall j | i < j < |e| ensures e[j].0 != e[i].0 {
          assert e[j].0 == states[j].id;
        }
      }
    }
  }

  // ---------------------------------------------------------------------
  // What new entities add to the scene and to the menu

  /** The scene entries of the given agents, in order. */
  function PlayerObjectsOf(agents: seq<Agents.Agent>): (objs: seq<SceneObject>)
    ensures |objs| == |agents| && forall k :: 0 <= k < |agents| ==> objs[k] == PlayerObject(agents[k])
  {
    if agents == [] then [] else PlayerObjectsOf(agents[..|agents| - 1]) + [PlayerObject(agents[|agents| - 1])]
  }

  /** The scene entries of the given bullets, in order. */
  function BulletObjectsOf(bullets: seq<Bullets.Bullet>): (objs: seq<SceneObject>)
    ensures |objs| == |bullets| && forall k :: 0 <= k < |bullets| ==> objs[k] == BulletObject(bullets[k])
  {
    if bullets == [] then [] else BulletObjectsOf(bullets[..|bullets| - 1]) + [BulletObject(bullets[|bullets| - 1])]
  }

  /** The two menu lines each new player adds: its live line, then the shake hint. */
  function NewPlayerLines(ids: seq<string>, agents: seq<Agents.Agent>): (lines: seq<DebugLine>)
    requires |ids| == |agents|
    ensures |lines| == 2 * |ids|
  {
    if ids == [] then []
    else
      var n := |ids| - 1;
      NewPlayerLines(ids[..n], agents[..n]) + [PlayerLine(ids[n], agents[n]), StaticLine(SHAKE_HINT)]
  }

  /**
   * The player loop's state after the first i entries, on values: the
   * view holds them overwritten onto the view before, the ids new to
   * `known` (`added`) got the agents `created`, the scene and the menu grew
   * by exactly those, and the camera follows the last one created.
   */
  ghost predicate PlayersAppliedTo(states: seq<PlayerState>, i: nat, known: set<string>, view0: map<string, KinematicState>,
                                   scene0: seq<SceneObject>, lines0: seq<DebugLine>, target0: Target,
                                   added: seq<string>, created: seq<Agents.Agent>,
                                   players: map<string, Agents.Agent>, view: map<string, KinematicState>,
                                   items: seq<SceneObject>, lines: seq<DebugLine>, target: Target)
  {
    && PlayerEntriesAppliedTo(states, i, known, view0, added, players, view)
    && PlayersShown(scene0, lines0, target0, added, created, players, items, lines, target)
  }

  /** The map half of PlayersAppliedTo: the keys, the view and the new ids. */
  ghost predicate PlayerEntriesAppliedTo(states: seq<PlayerState>, i: nat, known: set<string>, view0: map<string, KinematicState>,
                                         added: seq<string>, players: map<string, Agents.Agent>, view: map<string, KinematicState>)
  {
    && i <= |states|
    && view == Overwrite(view0, PlayerEntries(states[..i]))
    && players.Keys == known + IdSet(PlayerEntries(states[..i]))
    && added == NewIds(known, PlayerEntries(states[..i]))
  }

  /** The scene half of PlayersAppliedTo: what the created agents added to the map, the scene, the menu and the camera. */
  ghost predicate PlayersShown(scene0: seq<SceneObject>, lines0: seq<DebugLine>, target0: Target,
                               added: seq<string>, created: seq<Agents.Agent>,
                               players: map<string, Agents.Agent>, items: seq<SceneObject>, lines: seq<DebugLine>, target: Target)
  {
    && |created| == |added|
    && (forall k :: 0 <= k < |added| ==> added[k] in players && players[added[k]] == created[k])
    && items == scene0 + PlayerObjectsOf(created)
    && lines == lines0 + NewPlayerLines(added, created)
    && target == (if created == [] then target0 else AgentPosition(created[|created| - 1]))
  }

  /** An entry for a tracked id only overwrites its state. */
  lemma KnownPlayerApplied(states: seq<PlayerState>, i: nat, known: set<string>, view0: map<string, KinematicState>,
                           scene0: seq<SceneObject>, lines0: seq<DebugLine>, target0: Target,
                           added: seq<string>, created: seq<Agents.Agent>,
                           players: map<string, Agents.Agent>, view: map<string, KinematicState>,
                           items: seq<SceneObject>, lines: seq<DebugLine>, target: Target)
    requires i < |states| && states[i].id in players
    requires PlayersAppliedTo(states, i, known, view0, scene0, lines0, target0, added, created, players, view, items, lines, target)
    ensures PlayersAppliedTo(states, i + 1, known, view0, scene0, lines0, target0, added, created,
                             players, view[states[i].id := states[i].kinematics], items, lines, target)
  {
    PlayerEntriesStep(states, i);
    IdSetStep(PlayerEntries(states[..i]), (states[i].id, states[i].kinematics));
    NewIdsStep(known, PlayerEntries(states[..i]), (states[i].id, states[i].kinematics));
  }

  /** An entry for an unseen id adds its agent everywhere, once. */
  lemma NewPlayerApplied(states: seq<PlayerState>, i: nat, known: set<string>, view0: map<string, KinematicState>,
                         scene0: seq<SceneObject>, lines0: seq<DebugLine>, target0: Target,
                         added: seq<string>, created: seq<Agents.Agent>,
                         players: map<string, Agents.Agent>, view: map<string, KinematicState>,
                         items: seq<SceneObject>, lines: seq<DebugLine>, target: Target, agent: Agents.Agent)
    requires i < |states| && states[i].id !in players
    requires PlayersAppliedTo(states, i, known, view0, scene0, lines0, target0, added, created, players, view, items, lines, target)
    ensures PlayersAppliedTo(states, i + 1, known, view0, scene0, lines0, target0, added + [states[i].id], created + [agent],
                             players[states[i].id := agent], view[states[i].id := states[i].kinematics],
                             items + [PlayerObject(agent)], lines + [PlayerLine(states[i].id, agent), StaticLine(SHAKE_HINT)],
                             AgentPosition(agent))
  {
    NewPlayerEntryApplied(states, i, known, view0, added, players, view, agent);
    NewPlayerShown(scene0, lines0, target0, added, created, players, items, lines, target, states[i].id, agent);
  }

  lemma NewPlayerEntryApplied(states: seq<PlayerState>, i: nat, known: set<string>, view0: map<string, KinematicState>,
                              added: seq<string>, players: map<string, Agents.Agent>, view: map<string, KinematicState>,
                              agent: Agents.Agent)
    requires i < |states| && states[i].id !in players
    requires PlayerEntriesAppliedTo(states, i, known, view0, added, players, view)
    ensures PlayerEntriesAppliedTo(states, i + 1, known, view0, added + [states[i].id],
                                   players[states[i].id := agent], view[states[i].id := states[i].kinematics])
  {
    var e, entry := PlayerEntries(states[..i]), (states[i].id, states[i].kinematics);
    PlayerEntriesStep(states, i);
    IdSetStep(e, entry);
    NewIdsStep(known, e, entry);
  }

  lemma NewPlayerShown(scene0: seq<SceneObject>, lines0: seq<DebugLine>, target0: Target,
                       added: seq<string>, created: seq<Agents.Agent>,
                       players: map<string, Agents.Agent>, items: seq<SceneObject>, lines: seq<DebugLine>, target: Target,
                       id: string, agent: Agents.Agent)
    requires id !in players
    requires PlayersShown(scene0, lines0, target0, added, created, players, items, lines, target)
    ensures PlayersShown(scene0, lines0, target0, added + [id], created + [agent], players[id := agent],
                         items + [PlayerObject(agent)], lines + [PlayerLine(id, agent), StaticLine(SHAKE_HINT)], AgentPosition(agent))
  {
    NewPlayerLinesStep(added, created, id, agent);
    PlayerObjectsOfStep(created, agent);
  }

  /**
   * The bullet loop's state after the first i entries, on values: the
   * view holds them overwritten onto the view before, the ids new to
   * `known` (`added`) got the bullets `created`, and the scene grew by
   * exactly those.
   */
  ghost predicate BulletsAppliedTo(states: seq<BulletState>, i: nat, known: set<string>, view0: map<string, Bullets.BulletMotion>,
                                   scene0: seq<SceneObject>, added: seq<string>, created: seq<Bullets.Bullet>,
                                   bullets: map<string, Bullets.Bullet>, view: map<string, Bullets.BulletMotion>, items: seq<SceneObject>)
  {
    && i <= |states|
    && view == Overwrite(view0, BulletEntries(states[..i]))
    && bullets.Keys == known + IdSet(BulletEntries(states[..i]))
    && added == NewIds(known, BulletEntries(states[..i]))
    && |created| == |added|
    && (forall k :: 0 <= k < |added| ==> added[k] in bullets && bullets[added[k]] == created[k])
    && items == scene0 + BulletObjectsOf(created)
  }

  /** An entry for a tracked id only overwrites its motion. */
  lemma KnownBulletApplied(states: seq<BulletState>, i: nat, known: set<string>, view0: map<string, Bullets.BulletMotion>,
                           scene0: seq<SceneObject>, added: seq<string>, created: seq<Bullets.Bullet>,
                           bullets: map<string, Bullets.Bullet>, view: map<string, Bullets.BulletMotion>, items: seq<SceneObject>)
    requires i < |states| && states[i].id in bullets
    requires BulletsAppliedTo(states, i, known, view0, scene0, added, created, bullets, view, items)
    ensures BulletsAppliedTo(states, i + 1, known, view0, scene0, added, created,
                             bullets, view[states[i].id := Bullets.BulletMotion(states[i].position, states[i].velocity)], items)
  {
    var entry := (states[i].id, Bullets.BulletMotion(states[i].position, states[i].velocity));
    BulletEntriesStep(states, i);
    IdSetStep(BulletEntries(states[..i]), entry);
    NewIdsStep(known, BulletEntries(states[..i]), entry);
  }

  /** An entry for an unseen id adds its bullet to the map and the scene, once. */
  lemma NewBulletApplied(states: seq<BulletState>, i: nat, known: set<string>, view0: map<string, Bullets.BulletMotion>,
                         scene0: seq<SceneObject>, added: seq<string>, created: seq<Bullets.Bullet>,
                         bullets: map<string, Bullets.Bullet>, view: map<string, Bullets.BulletMotion>, items: seq<SceneObject>,
                         bullet: Bullets.Bullet)
    requires i < |states| && states[i].id !in bullets
    requires BulletsAppliedTo(states, i, known, view0, scene0, added, created, bullets, view, items)
    ensures BulletsAppliedTo(states, i + 1, known, view0, scene0, added + [states[i].id], created + [bullet],
                             bullets[states[i].id := bullet],
                             view[states[i].id := Bullets.BulletMotion(states[i].position, states[i].velocity)],
                             items + [BulletObject(bullet)])
  {
    var entry := (states[i].id, Bullets.BulletMotion(states[i].position, states[i].velocity));
    BulletEntriesStep(states, i);
    IdSetStep(BulletEntries(states[..i]), entry);
    NewIdsStep(known, BulletEntries(states[..i]), entry);
    BulletObjectsOfStep(created, bullet);
  }

  lemma NewIdsStep<V>(known: set<string>, entries: seq<(string, V)>, entry: (string, V))
    ensures NewIds(known, entries + [entry])
         == if entry.0 in known + IdSet(entries) then NewIds(known, entries) else NewIds(known, entries) + [entry.0]
  {
    assert (entries + [entry])[..|entries|] == entries;
    NewIdsSpec(known, entries);
  }

  lemma NewPlayerLinesStep(ids: seq<string>, agents: seq<Agents.Agent>, id: string, agent: Agents.Agent)
    requires |ids| == |agents|
    ensures NewPlayerLines(ids + [id], agents + [agent])
         == NewPlayerLines(ids, agents) + [PlayerLine(id, agent), StaticLine(SHAKE_HINT)]
  {
    assert (ids + [id])[..|ids|] == ids;
    assert (agents + [agent])[..|agents|] == agents;
  }

  lemma PlayerObjectsOfStep(agents: seq<Agents.Agent>, agent: Agents.Agent)
    ensures PlayerObjectsOf(agents + [agent]) == PlayerObjectsOf(agents) + [PlayerObject(agent)]
  {
    assert (agents + [agent])[..|agents|] == agents;
  }

  lemma BulletObjectsOfStep(bullets: seq<Bullets.Bullet>, bullet: Bullets.Bullet)
    ensures BulletObjectsOf(bullets + [bullet]) == BulletObjectsOf(bullets) + [BulletObject(bullet)]
  {
    assert (bullets + [bullet])[..|bullets|] == bullets;
  }

  lemma PlayerEntriesStep(states: seq<PlayerState>, i: nat)
    requires i < |states|
    ensures PlayerEntries(states[..i + 1]) == PlayerEntries(states[..i]) + [(states[i].id, states[i].kinematics)]
  {
  }

  lemma BulletEntriesStep(states: seq<BulletState>, i: nat)
    requires i < |states|
    ensures BulletEntries(states[..i + 1])
         == BulletEntries(states[..i]) + [(states[i].id, Bullets.BulletMotion(states[i].position, states[i].velocity))]
  {
  }

  lemma IdSetStep<V>(entries: seq<(string, V)>, entry: (string, V))
    ensures IdSet(entries + [entry]) == IdSet(entries) + {entry.0}
    ensures (entries + [entry])[..|entries|] == entries
  {
    var all := entries + [entry];
    forall id | id in IdSet(all) ensures id in IdSet(entries) + {entry.0} {
      var j :| 0 <= j < |all| && all[j].0 == id;
      if j < |entries| {
        assert entries[j].0 == id;
      }
    }
    forall id | id in IdSet(entries) + {entry.0} ensures id in IdSet(all) {
      if id == entry.0 {
        assert all[|entries|].0 == id;
      } else {
        var j :| 0 <= j < |entries| && entries[j].0 == id;
        assert all[j].0 == id;
      }
    }
  }

  // ---------------------------------------------------------------------
  // A frame, on values

  /**
   * What a frame reads and changes, read off the game at one instant: the
   * update mailbox, the tracked entities and their states, the scene, the
   * debug menu's lines, the camera's state, what it follows and the inputs
   * of its step (`target` is the position the followed target reads).
   */
  datatype WorldState = WorldState(
    box: Mailbox,
    players: map<string, Agents.Agent>, bullets: map<string, Bullets.Bullet>,
    playerView: map<string, KinematicState>, bulletView: map<string, Bullets.BulletMotion>,
    items: seq<SceneObject>, lines: seq<DebugLine>, follow: Target,
    camera: CameraState, keysDown: seq<string>, debugOn: bool, target: Vec2)

  /** The values the given keys map to, in order. */
  function Lookup<V>(m: map<string, V>, ids: seq<string>): seq<V>
    requires forall id :: id in ids ==> id in m
  {
    seq(|ids|, k requires 0 <= k < |ids| => m[ids[k]])
  }

  /**
   * What the entities a frame creates add, from s0 to s1: every id the
   * pending snapshot brings that the world had not seen is tracked; the
   * scene grows by exactly the new players and then the new bullets, each
   * in the order of its first entry; the menu grows by two lines per new
   * player; and the camera follows the last player created, or keeps its
   * target when there is none.
   */
  ghost predicate Shown(s0: WorldState, s1: WorldState) {
    var update := Pending(s0.box);
    var newPlayers := NewIds(s0.players.Keys, PlayerEntries(update.players));
    var newBullets := NewIds(s0.bullets.Keys, BulletEntries(update.bullets));
    && (forall id :: id in newPlayers ==> id in s1.players)
    && (forall id :: id in newBullets ==> id in s1.bullets)
    && var agents := Lookup(s1.players, newPlayers);
      && s1.items == s0.items + PlayerObjectsOf(agents) + BulletObjectsOf(Lookup(s1.bullets, newBullets))
      && s1.lines == s0.lines + NewPlayerLines(newPlayers, agents)
      && s1.follow == (if agents == [] then s0.follow else AgentPosition(agents[|agents| - 1]))
  }

  /**
   * The position the camera steps towards is the one its target reads: the
   * fixed point, or the current position of the tracked player it follows.
   */
  ghost predicate Following(s: WorldState) {
    && (s.follow.FixedPoint? ==> s.target == s.follow.point)
    && (forall id | id in s.players && id in s.playerView && s.follow == AgentPosition(s.players[id]) ::
          s.target == s.playerView[id].position)
  }

  /**
   * The entity half of a frame of dt seconds, from s0 to s1: the pending
   * snapshot left the mailbox, every entry of it landed in the views with
   * the last entry per id winning, every tracked entity was integrated with
   * dt seconds, no tracked id was dropped or rebound, and the new entities
   * were shown.
   */
  ghost predicate Advanced(s0: WorldState, s1: WorldState, dt: real) {
    && s1.box == (if s0.box.hasUpdate then Take(s0.box).0 else s0.box)
    && s1.playerView == IntegrateAll(Overwrite(s0.playerView, PlayerEntries(Pending(s0.box).players)), dt)
    && s1.bulletView == AdvanceAll(Overwrite(s0.bulletView, BulletEntries(Pending(s0.box).bullets)), dt)
    && (forall id :: id in s0.players ==> id in s1.players && s1.players[id] == s0.players[id])
    && (forall id :: id in s0.bullets ==> id in s1.bullets && s1.bullets[id] == s0.bullets[id])
    && Shown(s0, s1)
  }

  /**
   * A whole paced frame of dt seconds, from s0 to s1: the entity half,
   * then one debug-camera step towards the position of the (new) target.
   */
  ghost predicate Framed(s0: WorldState, s1: WorldState, dt: real, sine: real -> real) {
    && Advanced(s0, s1, dt)
    && Following(s1)
    && s1.camera == DebugStep(s0.camera, s1.keysDown, s1.debugOn, s1.target, dt, sine)
  }

  /** The frame clock: milliseconds accumulated since the last frame, and the time of the last loop. */
  datatype ClockState = ClockState(millisPassed: real, before: real)

  /**
   * The frame clock from millis0 to millis1 accumulated milliseconds:
   * below 1000 / FPS nothing happens and nothing is drawn; at or above it
   * the accumulator empties and a whole frame of millis0 / 1000 seconds
   * runs and draws `picture`.
   */
  ghost predicate Due(millis0: real, millis1: real, s0: WorldState, s1: WorldState, sine: real -> real,
                      ops: seq<CanvasOp>, picture: seq<CanvasOp>) {
    if millis0 < MILLIS_PER_FRAME then millis1 == millis0 && ops == [] && s1 == s0
    else millis1 == 0.0 && Framed(s0, s1, Seconds(millis0), sine) && ops == picture
  }

  /**
   * One loop at time `now`, from clock c0 to c1: the time since the last
   * loop is added to the accumulator, `before` becomes `now`, and the frame
   * runs if that made it due.
   */
  ghost predicate Paced(c0: ClockState, now: real, c1: ClockState, s0: WorldState, s1: WorldState, sine: real -> real,
                        ops: seq<CanvasOp>, picture: seq<CanvasOp>) {
    c1.before == now && Due(Accumulated(c0, now), c1.millisPassed, s0, s1, sine, ops, picture)
  }

  /** The accumulator once the time since the last loop, `now - before`, is added. */
  function Accumulated(c: ClockState, now: real): real {
    c.millisPassed + (now - c.before)
  }

  // ---------------------------------------------------------------------
  // The world

  class GameWorld {
    /** Tracked players by id; a key, once added, is never removed. */
    var players: map<string, Agents.Agent>
    /** Tracked bullets by id; a key, once added, is never removed. */
    var bullets: map<string, Bullets.Bullet>
    const serverUpdateManager: ServerUpdateManager
    var isRequestingUpdates: bool
    /** The time of the previous frame callback, in milliseconds. */
    var before: real
    var millisPassedSinceLastFrame: real
    /** Everything drawn, in insertion order; the camera draws this same list. */
    const scene: SceneList
    const camera: DebugCamera
    /** Set by the constructor and never read. */
    var finishedCreatingDebugMenu: bool

    /**
     * The camera draws the world's scene at a positive scale; no two ids
     * share an entity, and no two bullets share a position object, so each
     * entity is moved once per frame.
     */
    ghost predicate Valid()
      reads this`players, this`bullets, camera, camera.base, bullets.Values
    {
      CameraShared() && PlayersDistinct() && BulletsDistinct()
    }

    ghost predicate CameraShared()
      reads camera, camera.base
    {
      camera.Valid() && camera.base.scene == scene
    }

    ghost predicate PlayersDistinct()
      reads this`players
    {
      forall i, j :: i in players && j in players && i != j ==> players[i] != players[j]
    }

    ghost predicate BulletsDistinct()
      reads this`bullets, bullets.Values
    {
      forall i, j :: i in bullets && j in bullets && i != j ==>
        bullets[i] != bullets[j] && bullets[i].position != bullets[j].position
    }

    function TrackedAgents(): set<Agents.Agent>
      reads this`players
    {
      players.Values
    }

    function TrackedBullets(): set<Bullets.Bullet>
      reads this`bullets
    {
      bullets.Values
    }

    function TrackedPoints(): set<Bullets.Point>
      reads this`bullets, bullets.Values
    {
      set id | id in bullets :: bullets[id].position
    }

    /** The kinematic state of every tracked player, by id. */
    function PlayerView(): map<string, KinematicState>
      reads this`players, players.Values
    {
      map id | id in players :: players[id].Kinematics()
    }

    /** The motion of every tracked bullet, by id. */
    function BulletView(): map<string, Bullets.BulletMotion>
      reads this`bullets, bullets.Values, TrackedPoints()
    {
      map id | id in bullets :: bullets[id].Motion()
    }

    /** The frame clock's two fields. */
    function Clock(): ClockState
      reads this`millisPassedSinceLastFrame, this`before
    {
      ClockState(millisPassedSinceLastFrame, before)
    }

    /** The agent the camera follows, if it follows one: what its target's position reads. */
    function TargetAgent(): set<Agents.Agent>
      reads camera, camera.base
    {
      if camera.base.target.AgentPosition? then {camera.base.target.agent} else {}
    }

    /** The objects the world snapshot reads. */
    function WorldObjects(): set<object>
      reads this`players, this`bullets, bullets.Values, camera, camera.base
    {
      {serverUpdateManager, scene, camera, camera.base} + players.Values + bullets.Values + TrackedPoints() + TargetAgent()
    }

    /** The world as a frame sees it. */
    function World(): WorldState
      reads this`players, players.Values, this`bullets, bullets.Values, TrackedPoints(), serverUpdateManager
      reads scene, camera, camera.base, TargetAgent()
    {
      WorldState(serverUpdateManager.Box(), players, bullets, PlayerView(), BulletView(),
                 scene.items, camera.debugLines, camera.base.target,
                 camera.base.State(), camera.keysDown, camera.debugOn, camera.base.target.Position())
    }

    /**
     * No players, no bullets, not yet requesting updates, an empty scene
     * shared with a new debug camera. `now` stands for `Date.now()`.
     */
    constructor (updateManager: ServerUpdateManager, now: real, width: real, height: real, sine: real -> real)
      ensures Valid()
      ensures players == map[] && bullets == map[] && serverUpdateManager == updateManager
      ensures !isRequestingUpdates && before == now && millisPassedSinceLastFrame == 0.0
      ensures fresh(scene) && scene.items == []
      ensures fresh(camera) && fresh(camera.base) && camera.base.scene == scene
      ensures camera.base.width == width && camera.base.height == height && camera.base.sine == sine
      ensures camera.debugOn && camera.keysDown == [] && camera.debugLines == INITIAL_DEBUG_LINES
      ensures camera.base.target == FixedPoint(Origin) && camera.base.scale == 1.0
      ensures camera.base.State() == CameraState(Origin, Origin, 0.0, false)
    {
      players := map[];
      bullets := map[];
      serverUpdateManager := updateManager;
      isRequestingUpdates := false;
      before := now;
      millisPassedSinceLastFrame := 0.0;
      var sceneList := new SceneList();
      scene := sceneList;
      camera := new DebugCamera(sceneList, width, height, sine);
      finishedCreatingDebugMenu := false;
    }

    /** `addPlayer(player, id)`: track the player under id and add it to the scene. */
    method AddPlayer(player: Agents.Agent, id: string)
      requires Valid()
      requires forall other :: other in players && other != id ==> players[other] != player
      modifies this`players, scene
      ensures Valid()
      ensures players == old(players)[id := player]
      ensures scene.items == old(scene.items) + [PlayerObject(player)]
    {
      players := players[id := player];
      scene.Push(PlayerObject(player));
    }

    /** `addBullet(bullet, id)`: track the bullet under id and add it to the scene. */
    method AddBullet(bullet: Bullets.Bullet, id: string)
      requires Valid()
      requires forall other :: other in bullets && other != id ==>
        bullets[other] != bullet && bullets[other].position != bullet.position
      modifies this`bullets, scene
      ensures Valid()
      ensures bullets == old(bullets)[id := bullet]
      ensures scene.items == old(scene.items) + [BulletObject(bullet)]
    {
      bullets := bullets[id := bullet];
      scene.Push(BulletObject(bullet));
    }

    /**
     * The snapshot's player loop: the states applied in order. The ids new
     * to the world get an agent each (`created`), in the order of their
     * first entry; the scene and the menu grow by exactly those, and the
     * camera ends up on the last one created.
     */
    method ApplyPlayers(states: seq<PlayerState>) returns (ghost created: seq<Agents.Agent>)
      requires Valid()
      modifies this`players, scene, camera`debugLines, camera.base`target, TrackedAgents()
      ensures Valid()
      ensures bullets == old(bullets) && BulletView() == old(BulletView())
      ensures PlayerView() == Overwrite(old(PlayerView()), PlayerEntries(states))
      ensures forall id :: id in old(players) ==> id in players && players[id] == old(players[id])
      ensures forall id :: id in players && id !in old(players) ==> fresh(players[id])
      ensures var added := NewIds(old(players.Keys), PlayerEntries(states));
        && |created| == |added|
        && (forall k :: 0 <= k < |added| ==> added[k] in players && players[added[k]] == created[k] && fresh(created[k]))
        && scene.items == old(scene.items) + PlayerObjectsOf(created)
        && camera.debugLines == old(camera.debugLines) + NewPlayerLines(added, created)
      ensures camera.base.target == (if created == [] then old(camera.base.target) else AgentPosition(created[|created| - 1]))
    {
      ghost var known, view0, scene0, lines0, target0 := players.Keys, PlayerView(), scene.items, camera.debugLines, camera.base.target;
      ghost var added: seq<string> := [];
      created := [];
      for i := 0 to |states|
        invariant Valid()
        invariant bullets == old(bullets)
        invariant PlayersApplied(states, i, known, view0, scene0, lines0, target0, added, created)
        invariant forall id :: id in old(players) ==> id in players && players[id] == old(players[id])
        invariant forall id :: id in players && id !in old(players) ==> fresh(players[id])
      {
        added, created := ApplyPlayerStep(states, i, known, view0, scene0, lines0, target0, added, created);
      }
      assert states[..|states|] == states;
      NewIdsSpec(known, PlayerEntries(states));
      BulletsUntouched(this);
    }

    /** The player loop's state after the first i entries (see PlayersAppliedTo). */
    ghost predicate PlayersApplied(states: seq<PlayerState>, i: nat, known: set<string>, view0: map<string, KinematicState>,
                                   scene0: seq<SceneObject>, lines0: seq<DebugLine>, target0: Target,
                                   added: seq<string>, created: seq<Agents.Agent>)
      reads this`players, players.Values, scene, camera, camera.base
    {
      PlayersAppliedTo(states, i, known, view0, scene0, lines0, target0, added, created,
                       players, PlayerView(), scene.items, camera.debugLines, camera.base.target)
    }

    /**
     * The body of the player loop: entry i applied. A known id only has
     * its agent snapped to the entry's state; an unseen one first gets a
     * new agent.
     */
    method ApplyPlayerStep(states: seq<PlayerState>, i: nat, ghost known: set<string>, ghost view0: map<string, KinematicState>,
                           ghost scene0: seq<SceneObject>, ghost lines0: seq<DebugLine>, ghost target0: Target,
                           ghost added: seq<string>, ghost created: seq<Agents.Agent>)
      returns (ghost added': seq<string>, ghost created': seq<Agents.Agent>)
      requires Valid() && i < |states|
      requires PlayersApplied(states, i, known, view0, scene0, lines0, target0, added, created)
      modifies this`players, scene, camera`debugLines, camera.base`target, TrackedAgents()
      ensures Valid() && bullets == old(bullets)
      ensures PlayersApplied(states, i + 1, known, view0, scene0, lines0, target0, added', created')
      ensures forall id :: id in old(players) ==> id in players && players[id] == old(players[id])
      ensures forall id :: id in players && id !in old(players) ==> fresh(players[id])
    {
      if states[i].id in players {
        added', created' := ApplyKnownPlayer(states, i, known, view0, scene0, lines0, target0, added, created);
      } else {
        added', created' := ApplyNewPlayer(states, i, known, view0, scene0, lines0, target0, added, created);
      }
    }

    /** The player loop's body for an id already tracked. */
    method ApplyKnownPlayer(states: seq<PlayerState>, i: nat, ghost known: set<string>, ghost view0: map<string, KinematicState>,
                           ghost scene0: seq<SceneObject>, ghost lines0: seq<DebugLine>, ghost target0: Target,
                           ghost added: seq<string>, ghost created: seq<Agents.Agent>)
      returns (ghost added': seq<string>, ghost created': seq<Agents.Agent>)
      requires Valid() && i < |states|
      requires PlayersApplied(states, i, known, view0, scene0, lines0, target0, added, created)
      requires states[i].id in players
      modifies this`players, scene, camera`debugLines, camera.base`target, TrackedAgents()
      ensures Valid() && bullets == old(bullets)
      ensures PlayersApplied(states, i + 1, known, view0, scene0, lines0, target0, added', created')
      ensures forall id :: id in old(players) ==> id in players && players[id] == old(players[id])
      ensures forall id :: id in players && id !in old(players) ==> fresh(players[id])
    {
      SnapPlayer(states[i].id, states[i].kinematics);
      KnownPlayerApplied(states, i, known, view0, scene0, lines0, target0, added, created,
                         players, old(PlayerView()), scene.items, camera.debugLines, camera.base.target);
      added', created' := added, created;
    }

    /** The player loop's body for an unseen id. */
    method ApplyNewPlayer(states: seq<PlayerState>, i: nat, ghost known: set<string>, ghost view0: map<string, KinematicState>,
                           ghost scene0: seq<SceneObject>, ghost lines0: seq<DebugLine>, ghost target0: Target,
                           ghost added: seq<string>, ghost created: seq<Agents.Agent>)
      returns (ghost added': seq<string>, ghost created': seq<Agents.Agent>)
      requires Valid() && i < |states|
      requires PlayersApplied(states, i, known, view0, scene0, lines0, target0, added, created)
      requires states[i].id !in players
      modifies this`players, scene, camera`debugLines, camera.base`target, TrackedAgents()
      ensures Valid() && bullets == old(bullets)
      ensures PlayersApplied(states, i + 1, known, view0, scene0, lines0, target0, added', created')
      ensures forall id :: id in old(players) ==> id in players && players[id] == old(players[id])
      ensures forall id :: id in players && id !in old(players) ==> fresh(players[id])
    {
      var agent := CreatePlayer(states[i]);
      ghost var created0 := PlayerView();
      SnapPlayer(states[i].id, states[i].kinematics);
      assert PlayerView() == old(PlayerView())[states[i].id := states[i].kinematics] by {
        assert PlayerView() == created0[states[i].id := states[i].kinematics];
      }
      NewPlayerApplied(states, i, known, view0, scene0, lines0, target0, added, created,
                       old(players), old(PlayerView()), old(scene.items), old(camera.debugLines), old(camera.base.target), agent);
      added', created' := added + [states[i].id], created + [agent];
    }

    /** The new-player branch of the snapshot's player loop. */
    method CreatePlayer(state: PlayerState) returns (agent: Agents.Agent)
      requires Valid() && state.id !in players
      modifies this`players, scene, camera`debugLines, camera.base`target
      ensures Valid()
      ensures fresh(agent) && agent.size == PLAYER_SIZE
      ensures players == old(players)[state.id := agent]
      ensures bullets == old(bullets)
      ensures PlayerView() == old(PlayerView())[state.id := state.kinematics]
      ensures scene.items == old(scene.items) + [PlayerObject(agent)]
      ensures camera.base.target == AgentPosition(agent)
      ensures camera.debugLines == old(camera.debugLines) + [PlayerLine(state.id, agent), StaticLine(SHAKE_HINT)]
    {
      agent := new Agents.Agent(state.kinematics, PLAYER_SIZE);
      players := players[state.id := agent];
      assert PlayerView() == old(PlayerView())[state.id := state.kinematics] by {
        assert forall other :: other in old(players) ==> players[other].Kinematics() == old(players[other].Kinematics());
      }
      ShowPlayer(state.id, agent);
    }

    /** A new player joins the scene, the camera centres on it, and the menu shows it. */
    method ShowPlayer(id: string, agent: Agents.Agent)
      requires CameraShared()
      modifies scene, camera`debugLines, camera.base`target
      ensures CameraShared()
      ensures scene.items == old(scene.items) + [PlayerObject(agent)]
      ensures camera.base.target == AgentPosition(agent)
      ensures camera.debugLines == old(camera.debugLines) + [PlayerLine(id, agent), StaticLine(SHAKE_HINT)]
    {
      scene.Push(PlayerObject(agent));
      camera.base.CenterOn(AgentPosition(agent));
      if DEBUG_MODE {
        camera.AddToDebugMenu(PlayerLine(id, agent));
        camera.AddToDebugMenu(StaticLine(SHAKE_HINT));
      }
    }

    /** `players[id].getServerUpdate(state)`: only that id's state changes. */
    method SnapPlayer(id: string, k: KinematicState)
      requires Valid() && id in players
      modifies players[id]
      ensures Valid()
      ensures PlayerView() == old(PlayerView())[id := k]
      ensures BulletView() == old(BulletView())
    {
      players[id].GetServerUpdate(k);
      assert forall j :: j in players && j != id ==> players[j] != players[id];
    }

    /**
     * The snapshot's bullet loop: the states applied in order; the ids new
     * to the world get a bullet each (`created`), in the order of their
     * first entry, and the scene grows by exactly those.
     */
    method ApplyBullets(states: seq<BulletState>) returns (ghost created: seq<Bullets.Bullet>)
      requires Valid()
      modifies this`bullets, scene, TrackedBullets()
      ensures Valid()
      ensures players == old(players) && PlayerView() == old(PlayerView())
      ensures BulletView() == Overwrite(old(BulletView()), BulletEntries(states))
      ensures forall id :: id in old(bullets) ==> id in bullets && bullets[id] == old(bullets[id])
      ensures forall id :: id in bullets && id !in old(bullets) ==> fresh(bullets[id])
      ensures forall id | id in bullets :: fresh(bullets[id].position) || (id in old(bullets) && bullets[id].position == old(bullets[id].position))
      ensures var added := NewIds(old(bullets.Keys), BulletEntries(states));
        && |created| == |added|
        && (forall k :: 0 <= k < |added| ==> added[k] in bullets && bullets[added[k]] == created[k] && fresh(created[k]))
        && scene.items == old(scene.items) + BulletObjectsOf(created)
    {
      ghost var known, view0, scene0 := bullets.Keys, BulletView(), scene.items;
      ghost var added: seq<string> := [];
      created := [];
      for i := 0 to |states|
        invariant Valid()
        invariant players == old(players)
        invariant BulletsApplied(states, i, known, view0, scene0, added, created)
        invariant forall id :: id in old(bullets) ==> id in bullets && bullets[id] == old(bullets[id])
        invariant forall id :: id in bullets && id !in old(bullets) ==> fresh(bullets[id])
        invariant forall id | id in bullets :: fresh(bullets[id].position) || (id in old(bullets) && bullets[id].position == old(bullets[id].position))
      {
        added, created := ApplyBulletStep(states, i, known, view0, scene0, added, created);
      }
      assert states[..|states|] == states;
      NewIdsSpec(known, BulletEntries(states));
      PlayersUntouched(this);
    }

    /** The bullet loop's state after the first i entries (see BulletsAppliedTo). */
    ghost predicate BulletsApplied(states: seq<BulletState>, i: nat, known: set<string>, view0: map<string, Bullets.BulletMotion>,
                                   scene0: seq<SceneObject>, added: seq<string>, created: seq<Bullets.Bullet>)
      reads this`bullets, bullets.Values, TrackedPoints(), scene
    {
      BulletsAppliedTo(states, i, known, view0, scene0, added, created, bullets, BulletView(), scene.items)
    }

    /**
     * The body of the bullet loop: entry i applied. A known id only has
     * its bullet snapped to the entry; an unseen one first gets a new
     * bullet.
     */
    method ApplyBulletStep(states: seq<BulletState>, i: nat, ghost known: set<string>, ghost view0: map<string, Bullets.BulletMotion>,
                           ghost scene0: seq<SceneObject>, ghost added: seq<string>, ghost created: seq<Bullets.Bullet>)
      returns (ghost added': seq<string>, ghost created': seq<Bullets.Bullet>)
      requires Valid() && i < |states|
      requires BulletsApplied(states, i, known, view0, scene0, added, created)
      modifies this`bullets, scene, TrackedBullets()
      ensures Valid() && players == old(players)
      ensures BulletsApplied(states, i + 1, known, view0, scene0, added', created')
      ensures forall id :: id in old(bullets) ==> id in bullets && bullets[id] == old(bullets[id])
      ensures forall id :: id in bullets && id !in old(bullets) ==> fresh(bullets[id])
      ensures forall id | id in bullets :: fresh(bullets[id].position) || (id in old(bullets) && bullets[id].position == old(bullets[id].position))
    {
      if states[i].id in bullets {
        added', created' := ApplyKnownBullet(states, i, known, view0, scene0, added, created);
      } else {
        added', created' := ApplyNewBullet(states, i, known, view0, scene0, added, created);
      }
    }

    /** The bullet loop's body for an id already tracked. */
    method ApplyKnownBullet(states: seq<BulletState>, i: nat, ghost known: set<string>, ghost view0: map<string, Bullets.BulletMotion>,
                           ghost scene0: seq<SceneObject>, ghost added: seq<string>, ghost created: seq<Bullets.Bullet>)
      returns (ghost added': seq<string>, ghost created': seq<Bullets.Bullet>)
      requires Valid() && i < |states|
      requires BulletsApplied(states, i, known, view0, scene0, added, created)
      requires states[i].id in bullets
      modifies this`bullets, scene, TrackedBullets()
      ensures Valid() && players == old(players)
      ensures BulletsApplied(states, i + 1, known, view0, scene0, added', created')
      ensures forall id :: id in old(bullets) ==> id in bullets && bullets[id] == old(bullets[id])
      ensures forall id :: id in bullets && id !in old(bullets) ==> fresh(bullets[id])
      ensures forall id | id in bullets :: fresh(bullets[id].position) || (id in old(bullets) && bullets[id].position == old(bullets[id].position))
    {
      SnapBullet(states[i].id, states[i]);
      KnownBulletApplied(states, i, known, view0, scene0, added, created, bullets, old(BulletView()), scene.items);
      added', created' := added, created;
    }

    /** The bullet loop's body for an unseen id. */
    method ApplyNewBullet(states: seq<BulletState>, i: nat, ghost known: set<string>, ghost view0: map<string, Bullets.BulletMotion>,
                           ghost scene0: seq<SceneObject>, ghost added: seq<string>, ghost created: seq<Bullets.Bullet>)
      returns (ghost added': seq<string>, ghost created': seq<Bullets.Bullet>)
      requires Valid() && i < |states|
      requires BulletsApplied(states, i, known, view0, scene0, added, created)
      requires states[i].id !in bullets
      modifies this`bullets, scene, TrackedBullets()
      ensures Valid() && players == old(players)
      ensures BulletsApplied(states, i + 1, known, view0, scene0, added', created')
      ensures forall id :: id in old(bullets) ==> id in bullets && bullets[id] == old(bullets[id])
      ensures forall id :: id in bullets && id !in old(bullets) ==> fresh(bullets[id])
      ensures forall id | id in bullets :: fresh(bullets[id].position) || (id in old(bullets) && bullets[id].position == old(bullets[id].position))
    {
      var bullet := CreateBullet(states[i]);
      SnapBullet(states[i].id, states[i]);
      NewBulletApplied(states, i, known, view0, scene0, added, created,
                       old(bullets), old(BulletView()), old(scene.items), bullet);
      added', created' := added + [states[i].id], created + [bullet];
    }

    /** The new-bullet branch of the snapshot's bullet loop. */
    method CreateBullet(state: BulletState) returns (bullet: Bullets.Bullet)
      requires Valid() && state.id !in bullets
      modifies this`bullets, scene
      ensures Valid()
      ensures fresh(bullet) && fresh(bullet.position)
      ensures bullets == old(bullets)[state.id := bullet]
      ensures players == old(players)
      ensures BulletView() == old(BulletView())[state.id := Bullets.BulletMotion(state.position, state.velocity)]
      ensures scene.items == old(scene.items) + [BulletObject(bullet)]
    {
      var position := new Bullets.Point(state.position);
      bullet := new Bullets.Bullet(position, state.velocity);
      bullets := bullets[state.id := bullet];
      scene.Push(BulletObject(bullet));
    }

    /** `bullets[id].getServerUpdate(state)`: only that id's motion changes. */
    method SnapBullet(id: string, state: BulletState)
      requires Valid() && id in bullets
      modifies bullets[id]
      ensures Valid()
      ensures bullets == old(bullets)
      ensures BulletView() == old(BulletView())[id := Bullets.BulletMotion(state.position, state.velocity)]
      ensures fresh(bullets[id].position)
      ensures forall j | j in bullets && j != id :: bullets[j].position == old(bullets[j].position)
    {
      bullets[id].GetServerUpdate(state);
      assert forall j :: j in bullets && j != id ==> bullets[j] != bullets[id] && bullets[j].position != bullets[id].position;
    }

    /**
     * `getUpdate` and the two snapshot loops, taken only when `hasUpdate()`
     * says there is a new snapshot.
     */
    method ApplyServerUpdate() returns (ghost createdPlayers: seq<Agents.Agent>, ghost createdBullets: seq<Bullets.Bullet>)
      requires Valid()
      modifies this`players, this`bullets, scene, camera`debugLines, camera.base`target
      modifies TrackedAgents(), TrackedBullets(), serverUpdateManager`hasUpdateFlag
      ensures Valid()
      ensures serverUpdateManager.Box()
           == if old(serverUpdateManager.hasUpdateFlag) then Take(old(serverUpdateManager.Box())).0 else old(serverUpdateManager.Box())
      ensures var update := Pending(old(serverUpdateManager.Box()));
        && PlayerView() == Overwrite(old(PlayerView()), PlayerEntries(update.players))
        && BulletView() == Overwrite(old(BulletView()), BulletEntries(update.bullets))
      ensures forall id :: id in old(players) ==> id in players && players[id] == old(players[id])
      ensures forall id :: id in old(bullets) ==> id in bullets && bullets[id] == old(bullets[id])
      ensures forall id :: id in players && id !in old(players) ==> fresh(players[id])
      ensures forall id :: id in bullets && id !in old(bullets) ==> fresh(bullets[id])
      ensures forall id | id in bullets :: fresh(bullets[id].position) || (id in old(bullets) && bullets[id].position == old(bullets[id].position))
      ensures var update := Pending(old(serverUpdateManager.Box()));
        Created(NewIds(old(players.Keys), PlayerEntries(update.players)), createdPlayers,
                NewIds(old(bullets.Keys), BulletEntries(update.bullets)), createdBullets)
      ensures var newPlayers := NewIds(old(players.Keys), PlayerEntries(Pending(old(serverUpdateManager.Box())).players));
        && (forall k :: 0 <= k < |createdPlayers| ==> fresh(createdPlayers[k]))
        && (forall k :: 0 <= k < |createdBullets| ==> fresh(createdBullets[k]))
        && scene.items == old(scene.items) + PlayerObjectsOf(createdPlayers) + BulletObjectsOf(createdBullets)
        && camera.debugLines == old(camera.debugLines) + NewPlayerLines(newPlayers, createdPlayers)
        && camera.base.target == (if createdPlayers == [] then old(camera.base.target) else AgentPosition(createdPlayers[|createdPlayers| - 1]))
    {
      ghost var playerView, bulletView := PlayerView(), BulletView();
      var hasUpdate := serverUpdateManager.HasUpdate();
      if hasUpdate {
        var serverUpdate := serverUpdateManager.GetUpdate();
        assert PlayerView() == playerView && BulletView() == bulletView;
        createdPlayers, createdBullets := ApplyUpdate(serverUpdate);
      } else {
        assert PlayerEntries([]) == [] && BulletEntries([]) == [];
        createdPlayers, createdBullets := [], [];
      }
    }

    /**
     * The tracked entities the snapshot loops created: the agents for the new
     * player ids, the bullets for the new bullet ids, in order.
     */
    ghost predicate Created(newPlayers: seq<string>, createdPlayers: seq<Agents.Agent>,
                            newBullets: seq<string>, createdBullets: seq<Bullets.Bullet>)
      reads this`players, this`bullets
    {
      && |createdPlayers| == |newPlayers|
      && (forall k :: 0 <= k < |newPlayers| ==> newPlayers[k] in players && players[newPlayers[k]] == createdPlayers[k])
      && |createdBullets| == |newBullets|
      && (forall k :: 0 <= k < |newBullets| ==> newBullets[k] in bullets && bullets[newBullets[k]] == createdBullets[k])
    }

    /**
     * The two snapshot loops: every player state, then every bullet state.
     * The scene grows by the new players, then the new bullets; the menu
     * and the camera target change only through the new players.
     */
    method ApplyUpdate(update: Snapshot) returns (ghost createdPlayers: seq<Agents.Agent>, ghost createdBullets: seq<Bullets.Bullet>)
      requires Valid()
      modifies this`players, this`bullets, scene, camera`debugLines, camera.base`target
      modifies TrackedAgents(), TrackedBullets()
      ensures Valid()
      ensures serverUpdateManager.Box() == old(serverUpdateManager.Box())
      ensures PlayerView() == Overwrite(old(PlayerView()), PlayerEntries(update.players))
      ensures BulletView() == Overwrite(old(BulletView()), BulletEntries(update.bullets))
      ensures forall id :: id in old(players) ==> id in players && players[id] == old(players[id])
      ensures forall id :: id in old(bullets) ==> id in bullets && bullets[id] == old(bullets[id])
      ensures forall id :: id in players && id !in old(players) ==> fresh(players[id])
      ensures forall id :: id in bullets && id !in old(bullets) ==> fresh(bullets[id])
      ensures forall id | id in bullets :: fresh(bullets[id].position) || (id in old(bullets) && bullets[id].position == old(bullets[id].position))
      ensures Created(NewIds(old(players.Keys), PlayerEntries(update.players)), createdPlayers,
                      NewIds(old(bullets.Keys), BulletEntries(update.bullets)), createdBullets)
      ensures && (forall k :: 0 <= k < |createdPlayers| ==> fresh(createdPlayers[k]))
              && (forall k :: 0 <= k < |createdBullets| ==> fresh(createdBullets[k]))
      ensures scene.items == old(scene.items) + PlayerObjectsOf(createdPlayers) + BulletObjectsOf(createdBullets)
      ensures camera.debugLines == old(camera.debugLines) + NewPlayerLines(NewIds(old(players.Keys), PlayerEntries(update.players)), createdPlayers)
      ensures camera.base.target == (if createdPlayers == [] then old(camera.base.target) else AgentPosition(createdPlayers[|createdPlayers| - 1]))
    {
      ghost var bulletView := BulletView();
      createdPlayers := ApplyPlayers(update.players);
      assert BulletView() == bulletView;
      ghost var box := serverUpdateManager.Box();
      ghost var appliedPlayers := PlayerView();
      createdBullets := ApplyBullets(update.bullets);
      assert PlayerView() == appliedPlayers;
      assert serverUpdateManager.Box() == box;
    }

    /**
     * The player loop of the integration step: every tracked player takes
     * one Euler step of dt seconds. The source walks `Object.keys(players)`;
     * no two ids share an agent, so the order does not matter.
     */
    method IntegratePlayers(dt: real)
      requires Valid()
      modifies TrackedAgents()
      ensures Valid()
      ensures PlayerView() == IntegrateAll(old(PlayerView()), dt)
      ensures BulletView() == old(BulletView())
    {
      var ids := players.Keys;
      while ids != {}
        invariant ids <= players.Keys
        invariant forall id | id in players ::
          players[id].Kinematics() == if id in ids then old(players[id].Kinematics()) else Agents.Integrate(old(players[id].Kinematics()), dt)
        decreases ids
      {
        var id :| id in ids;
        players[id].Update(dt);
        ids := ids - {id};
      }
    }

    /**
     * The bullet loop of the integration step: every tracked bullet moves
     * its position object by velocity * dt.
     */
    method IntegrateBullets(dt: real)
      requires Valid()
      modifies TrackedPoints()
      ensures Valid()
      ensures BulletView() == AdvanceAll(old(BulletView()), dt)
      ensures PlayerView() == old(PlayerView())
    {
      var ids := bullets.Keys;
      while ids != {}
        invariant ids <= bullets.Keys
        invariant forall id | id in bullets ::
          bullets[id].Motion() == if id in ids then old(bullets[id].Motion()) else Bullets.Advance(old(bullets[id].Motion()), dt)
        decreases ids
      {
        var id :| id in ids;
        bullets[id].Update(dt);
        ids := ids - {id};
      }
    }

    /**
     * The entity half of a frame: apply the pending snapshot, then
     * integrate every tracked entity with dt seconds.
     */
    method AdvanceWorld(dt: real)
      requires Valid()
      modifies this`players, this`bullets, scene, camera`debugLines, camera.base`target
      modifies TrackedAgents(), TrackedBullets(), TrackedPoints(), serverUpdateManager`hasUpdateFlag
      ensures Valid()
      ensures Advanced(old(World()), World(), dt)
      ensures camera.base.State() == old(camera.base.State())
      ensures camera.keysDown == old(camera.keysDown) && camera.debugOn == old(camera.debugOn)
      ensures forall id :: id in players && id !in old(players) ==> fresh(players[id])
      ensures forall id :: id in bullets && id !in old(bullets) ==> fresh(bullets[id])
    {
      ghost var s0 := World();
      ApplyAndShow();
      ghost var applied := World();
      IntegrateEntities(dt);
      ShownKept(s0, applied, World());
    }

    /**
     * The integration step: every tracked player and bullet moves by dt
     * seconds; what the camera follows then reads its new position.
     */
    method IntegrateEntities(dt: real)
      requires Valid()
      modifies TrackedAgents(), TrackedPoints()
      ensures Valid()
      ensures World() == old(World()).(playerView := IntegrateAll(old(PlayerView()), dt),
                                       bulletView := AdvanceAll(old(BulletView()), dt),
                                       target := camera.base.target.Position())
    {
      ghost var box := serverUpdateManager.Box();
      IntegratePlayers(dt);
      ghost var integrated := PlayerView();
      IntegrateBullets(dt);
      assert PlayerView() == integrated;
      assert serverUpdateManager.Box() == box;
    }

    /** The pending snapshot applied, with the new entities shown. */
    method ApplyAndShow()
      requires Valid()
      modifies this`players, this`bullets, scene, camera`debugLines, camera.base`target
      modifies TrackedAgents(), TrackedBullets(), serverUpdateManager`hasUpdateFlag
      ensures Valid()
      ensures serverUpdateManager.Box()
           == if old(serverUpdateManager.hasUpdateFlag) then Take(old(serverUpdateManager.Box())).0 else old(serverUpdateManager.Box())
      ensures var update := Pending(old(serverUpdateManager.Box()));
        && PlayerView() == Overwrite(old(PlayerView()), PlayerEntries(update.players))
        && BulletView() == Overwrite(old(BulletView()), BulletEntries(update.bullets))
      ensures forall id :: id in old(players) ==> id in players && players[id] == old(players[id])
      ensures forall id :: id in old(bullets) ==> id in bullets && bullets[id] == old(bullets[id])
      ensures forall id :: id in players && id !in old(players) ==> fresh(players[id])
      ensures forall id :: id in bullets && id !in old(bullets) ==> fresh(bullets[id])
      ensures forall id | id in bullets :: fresh(bullets[id].position) || (id in old(bullets) && bullets[id].position == old(bullets[id].position))
      ensures Shown(old(World()), World())
    {
      ghost var s0 := World();
      ghost var createdPlayers, createdBullets := ApplyServerUpdate();
      ShownBy(s0, World(), createdPlayers, createdBullets);
    }

    /**
     * A paced frame: clear the screen, apply the pending snapshot, integrate
     * every tracked entity with dt seconds, update the camera, draw the
     * scene and the debug menu.
     */
    method Frame(dt: real) returns (ops: seq<CanvasOp>)
      requires Valid()
      modifies this`players, this`bullets, scene, camera`debugLines
      modifies camera.base`target, camera.base`pathPosition, camera.base`augmentedPosition, camera.base`shakeTimeElapsed, camera.base`isShaking
      modifies TrackedAgents(), TrackedBullets(), TrackedPoints(), serverUpdateManager`hasUpdateFlag
      ensures Valid()
      ensures Framed(old(World()), World(), dt, camera.base.sine)
      ensures forall id :: id in players && id !in old(players) ==> fresh(players[id])
      ensures forall id :: id in bullets && id !in old(bullets) ==> fresh(bullets[id])
      ensures ops == [ClearRect(Vec2(camera.base.width, camera.base.height))] + DrawnOps()
    {
      ops := [ClearRect(Vec2(camera.base.width, camera.base.height))];
      ghost var s0 := World();
      AdvanceWorld(dt);
      ghost var s1 := World();
      var drawn := DrawFrame(dt);
      ops := ops + drawn;
      WorldFollows(this);
      FramedBy(s0, s1, World(), dt, camera.base.sine);
    }

    /** The camera half of a frame: the camera update, then the drawing. */
    method DrawFrame(dt: real) returns (ops: seq<CanvasOp>)
      requires CameraShared()
      modifies camera.base`pathPosition, camera.base`augmentedPosition, camera.base`shakeTimeElapsed, camera.base`isShaking
      ensures CameraShared()
      ensures camera.base.State()
           == DebugStep(old(camera.base.State()), camera.keysDown, camera.debugOn, camera.base.target.Position(), dt, camera.base.sine)
      ensures ops == DrawnOps()
      ensures World() == old(World()).(camera := camera.base.State())
    {
      MoveCamera(dt);
      WorldAllocated(this);
      label Moved:
      ops := DrawScene();
      WorldKept@Moved(this);
    }

    /** `camera.update(deltaTime)`, which moves the camera and nothing else of the world. */
    method MoveCamera(dt: real)
      requires CameraShared()
      modifies camera.base`pathPosition, camera.base`augmentedPosition, camera.base`shakeTimeElapsed, camera.base`isShaking
      ensures CameraShared()
      ensures camera.base.State()
           == DebugStep(old(camera.base.State()), camera.keysDown, camera.debugOn, camera.base.target.Position(), dt, camera.base.sine)
      ensures World() == old(World()).(camera := camera.base.State())
    {
      ghost var w := World();
      camera.Update(dt);
      assert PlayerView() == w.playerView;
      assert BulletView() == w.bulletView;
      assert serverUpdateManager.Box() == w.box;
      assert camera.base.target.Position() == w.target;
    }

    /** `renderAll()` and then, in debug mode, `displayDebugMenu()`. */
    method DrawScene() returns (ops: seq<CanvasOp>)
      requires CameraShared()
      ensures ops == DrawnOps()
    {
      var rendered, visible := camera.base.RenderAll();
      PictureAllocated(camera.base);
      label Rendered:
      var menu := [];
      if DEBUG_MODE {
        menu := camera.DisplayDebugMenu();
      }
      PictureUnchanged@Rendered(camera.base);
      ops := rendered + menu;
    }

    /**
     * What a frame draws after clearing the screen: the grid with cells of
     * 100 * scale, every scene object inside the view in scene order, then
     * the menu.
     */
    function DrawnOps(): seq<CanvasOp>
      requires CameraShared()
      reads camera, camera.base, scene
      reads Scene.BulletsOf(scene.items), Scene.Footprints(scene.items), Scene.AgentsOf(camera.debugLines)
    {
      camera.base.Picture() + Menu()
    }

    /** The debug menu (drawn because `DEBUG_MODE` is on): the lines' current texts one below the other. */
    function Menu(): seq<CanvasOp>
      reads camera, Scene.AgentsOf(camera.debugLines)
    {
      MenuLayout(LineTexts(camera.debugLines, camera.debugOn))
    }

    /**
     * `gameLoop()` with `Date.now()` passed in as `now`: the first call
     * starts the update source, then the frame clock ticks.
     */
    method GameLoop(now: real) returns (ops: seq<CanvasOp>)
      requires Valid()
      modifies this`isRequestingUpdates, this`millisPassedSinceLastFrame, this`before, this`players, this`bullets
      modifies serverUpdateManager.serverUpdateProvider`updateObservers, serverUpdateManager.serverUpdateProvider`sineFlags
      modifies scene, camera`debugLines, TrackedAgents(), TrackedBullets(), TrackedPoints(), serverUpdateManager`hasUpdateFlag
      modifies camera.base`target, camera.base`pathPosition, camera.base`augmentedPosition, camera.base`shakeTimeElapsed, camera.base`isShaking
      ensures Valid()
      ensures isRequestingUpdates
      ensures Paced(old(Clock()), now, Clock(), old(World()), World(), camera.base.sine,
                    ops, [ClearRect(Vec2(camera.base.width, camera.base.height))] + DrawnOps())
    {
      StartRequestingUpdates();
      ops := Tick(now);
    }

    /** Only the first call of `gameLoop()` starts the update source. */
    method StartRequestingUpdates()
      modifies this`isRequestingUpdates
      modifies serverUpdateManager.serverUpdateProvider`updateObservers, serverUpdateManager.serverUpdateProvider`sineFlags
      ensures isRequestingUpdates
      ensures serverUpdateManager.serverUpdateProvider.updateObservers
           == old(serverUpdateManager.serverUpdateProvider.updateObservers) + (if old(isRequestingUpdates) then [] else [serverUpdateManager])
      ensures serverUpdateManager.serverUpdateProvider.sineFlags
           == old(serverUpdateManager.serverUpdateProvider.sineFlags) + (if old(isRequestingUpdates) then [] else [true])
      ensures Clock() == old(Clock()) && World() == old(World()) && (old(Valid()) ==> Valid())
    {
      if !isRequestingUpdates {
        WorldAllocated(this);
        label Before:
        serverUpdateManager.BeginRequestingUpdates();
        isRequestingUpdates := true;
        WorldKept@Before(this);
      }
    }

    /**
     * The frame clock: `now - before` milliseconds accumulate and `before`
     * becomes `now`; once at least 1000 / FPS milliseconds have accumulated,
     * a frame runs with dt the accumulated time in seconds and the
     * accumulator empties. Neither clock field is read by the frame, so
     * both are settled before it runs.
     */
    method Tick(now: real) returns (ops: seq<CanvasOp>)
      requires Valid()
      modifies this`millisPassedSinceLastFrame, this`before, this`players, this`bullets
      modifies scene, camera`debugLines, TrackedAgents(), TrackedBullets(), TrackedPoints(), serverUpdateManager`hasUpdateFlag
      modifies camera.base`target, camera.base`pathPosition, camera.base`augmentedPosition, camera.base`shakeTimeElapsed, camera.base`isShaking
      ensures Valid()
      ensures Paced(old(Clock()), now, Clock(), old(World()), World(), camera.base.sine,
                    ops, [ClearRect(Vec2(camera.base.width, camera.base.height))] + DrawnOps())
      ensures forall id :: id in players && id !in old(players) ==> fresh(players[id])
      ensures forall id :: id in bullets && id !in old(bullets) ==> fresh(bullets[id])
    {
      var elapsed := Accumulated(Clock(), now);
      SetClock(if elapsed >= MILLIS_PER_FRAME then 0.0 else elapsed, now);
      ops := FrameIfDue(elapsed);
    }

    /**
     * The frame, run only when `elapsed` milliseconds make it due; otherwise
     * nothing changes and nothing is drawn.
     */
    method FrameIfDue(elapsed: real) returns (ops: seq<CanvasOp>)
      requires Valid()
      modifies this`players, this`bullets
      modifies scene, camera`debugLines, TrackedAgents(), TrackedBullets(), TrackedPoints(), serverUpdateManager`hasUpdateFlag
      modifies camera.base`target, camera.base`pathPosition, camera.base`augmentedPosition, camera.base`shakeTimeElapsed, camera.base`isShaking
      ensures Valid()
      ensures elapsed < MILLIS_PER_FRAME ==> ops == [] && World() == old(World())
      ensures elapsed >= MILLIS_PER_FRAME ==>
        && Framed(old(World()), World(), Seconds(elapsed), camera.base.sine)
        && ops == [ClearRect(Vec2(camera.base.width, camera.base.height))] + DrawnOps()
      ensures forall id :: id in players && id !in old(players) ==> fresh(players[id])
      ensures forall id :: id in bullets && id !in old(bullets) ==> fresh(bullets[id])
    {
      if elapsed >= MILLIS_PER_FRAME {
        ops := Frame(Seconds(elapsed));
      } else {
        ops := [];
      }
    }

    /** Sets the two clock fields, which nothing else of the world depends on. */
    method SetClock(millisPassed: real, now: real)
      modifies this`millisPassedSinceLastFrame, this`before
      ensures Clock() == ClockState(millisPassed, now)
      ensures World() == old(World()) && (old(Valid()) ==> Valid())
    {
      millisPassedSinceLastFrame, before := millisPassed, now;
    }
  }

  /**
   * The entities the snapshot loops created, read off the world before and
   * after, are the ones Shown speaks of.
   */
  lemma ShownBy(s0: WorldState, s1: WorldState, createdPlayers: seq<Agents.Agent>, createdBullets: seq<Bullets.Bullet>)
    requires var update := Pending(s0.box);
      var newPlayers := NewIds(s0.players.Keys, PlayerEntries(update.players));
      var newBullets := NewIds(s0.bullets.Keys, BulletEntries(update.bullets));
      && |createdPlayers| == |newPlayers|
      && (forall k :: 0 <= k < |newPlayers| ==> newPlayers[k] in s1.players && s1.players[newPlayers[k]] == createdPlayers[k])
      && |createdBullets| == |newBullets|
      && (forall k :: 0 <= k < |newBullets| ==> newBullets[k] in s1.bullets && s1.bullets[newBullets[k]] == createdBullets[k])
      && s1.items == s0.items + PlayerObjectsOf(createdPlayers) + BulletObjectsOf(createdBullets)
      && s1.lines == s0.lines + NewPlayerLines(newPlayers, createdPlayers)
      && s1.follow == (if createdPlayers == [] then s0.follow else AgentPosition(createdPlayers[|createdPlayers| - 1]))
    ensures Shown(s0, s1)
  {
    var update := Pending(s0.box);
    var newPlayers := NewIds(s0.players.Keys, PlayerEntries(update.players));
    var newBullets := NewIds(s0.bullets.Keys, BulletEntries(update.bullets));
    assert forall id :: id in newPlayers ==> id in s1.players by {
      forall id | id in newPlayers ensures id in s1.players {
        var k :| 0 <= k < |newPlayers| && newPlayers[k] == id;
      }
    }
    assert forall id :: id in newBullets ==> id in s1.bullets by {
      forall id | id in newBullets ensures id in s1.bullets {
        var k :| 0 <= k < |newBullets| && newBullets[k] == id;
      }
    }
    assert Lookup(s1.players, newPlayers) == createdPlayers;
    assert Lookup(s1.bullets, newBullets) == createdBullets;
  }

  /** Shown depends only on the entities, the scene, the menu and the target. */
  lemma ShownKept(s0: WorldState, s1: WorldState, s2: WorldState)
    requires Shown(s0, s1)
    requires s2.players == s1.players && s2.bullets == s1.bullets
    requires s2.items == s1.items && s2.lines == s1.lines && s2.follow == s1.follow
    ensures Shown(s0, s2)
  {
  }

  /** The entity half, then a camera step that changes nothing else, is a whole frame. */
  lemma FramedBy(s0: WorldState, s1: WorldState, s2: WorldState, dt: real, sine: real -> real)
    requires Advanced(s0, s1, dt) && s1.camera == s0.camera
    requires s2 == s1.(camera := DebugStep(s0.camera, s1.keysDown, s1.debugOn, s1.target, dt, sine))
    requires Following(s2)
    ensures Framed(s0, s2, dt, sine)
  {
  }

  /** The world snapshot's target position is the one its followed target reads. */
  lemma WorldFollows(w: GameWorld)
    ensures Following(w.World())
  {
  }

  /** Every object the world snapshot reads is allocated. */
  lemma WorldAllocated(w: GameWorld)
    ensures forall o :: o in w.WorldObjects() ==> allocated(o)
  {
  }

  /** The world snapshot depends only on the objects it reads. */
  twostate lemma WorldKept(w: GameWorld)
    requires unchanged(w`players, w`bullets) && unchanged(old(w.WorldObjects()))
    ensures w.World() == old(w.World())
  {
  }

  /** Every object the camera draws from is allocated. */
  lemma PictureAllocated(c: Camera)
    requires c.Valid()
    ensures forall o :: o in Scene.BulletsOf(c.scene.items) + Scene.Footprints(c.scene.items) ==> allocated(o)
  {
  }

  /** What the camera draws depends only on the camera, the scene and the objects in it. */
  twostate lemma PictureUnchanged(c: Camera)
    requires old(c.Valid())
    requires unchanged(c, c.scene) && unchanged(old(Scene.BulletsOf(c.scene.items) + Scene.Footprints(c.scene.items)))
    ensures c.Picture() == old(c.Picture())
  {
  }

  /** A step that changed no agent leaves the player view as it was. */
  twostate lemma PlayersUntouched(w: GameWorld)
    requires old(w.players) == w.players
    requires forall id :: id in old(w.players) ==> unchanged(old(w.players[id]))
    ensures w.PlayerView() == old(w.PlayerView())
  {
    assert forall id :: id in w.players ==> w.players[id].Kinematics() == old(w.players[id].Kinematics());
  }

  twostate lemma BulletsUntouched(w: GameWorld)
    requires old(w.bullets) == w.bullets
    requires forall id :: id in old(w.bullets) ==> unchanged(old(w.bullets[id]), old(w.bullets[id].position))
    ensures w.BulletView() == old(w.BulletView())
  {
    assert forall id :: id in w.bullets ==> w.bullets[id].Motion() == old(w.bullets[id].Motion());
  }
}
