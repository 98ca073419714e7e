/** The journey map (frontend/src/components/journey/JourneyMap.jsx): for
    each world of the curriculum and each of its levels, whether it is
    locked, active, completed or current, and what a click on it plays,
    read off the player's progress. */
module JourneyMap {
  import opened Common
  import opened Curriculum
  import opened JourneyViews

  /** A level button: its id and flags, and the id a click on it plays. */
  datatype LevelButton = LevelButton(id: string, completed: bool, current: bool, locked: bool, disabled: bool, onClick: Option<string>)

  /** The boss button: whether it is shown beaten, and what a click plays. */
  datatype BossButton = BossButton(id: string, beaten: bool, onClick: Option<string>)

  /** A world section of the map. */
  datatype WorldSection = WorldSection(locked: bool, active: bool, levels: seq<LevelButton>, boss: BossButton)

  predicate WorldLocked(p: Progress, wIdx: int)
  {
    wIdx > p.worldIndex
  }

  predicate WorldActive(p: Progress, wIdx: int)
  {
    wIdx == p.worldIndex
  }

  /** The button of the level `level`, at index `lIdx` of the world at
      index `wIdx`. */
  function LevelButtonOf(p: Progress, wIdx: int, lIdx: int, level: Level): (b: LevelButton)
    ensures b.id == level.id
    ensures b.completed <==> level.id in p.completed
    ensures b.current <==> wIdx == p.worldIndex && lIdx == p.levelIndex
    ensures b.locked <==> level.id !in p.completed && !b.current
    ensures b.disabled <==> b.locked || WorldLocked(p, wIdx)
    ensures b.onClick.Some? <==> !b.locked && !WorldLocked(p, wIdx)
    ensures b.onClick.Some? ==> b.onClick.value == level.id
  {
    var isCompleted := level.id in p.completed;
    var isCurrent := WorldActive(p, wIdx) && lIdx == p.levelIndex;
    var isLocked := !isCompleted && !isCurrent;
    LevelButton(level.id, isCompleted, isCurrent, isLocked, isLocked || WorldLocked(p, wIdx),
      if !isLocked && !WorldLocked(p, wIdx) then Some(level.id) else None)
  }

  /** The boss button of `world`, at index `wIdx`: clickable whenever its
      world is open, whatever the progress inside the world. */
  function BossButtonOf(p: Progress, wIdx: int, world: World): (b: BossButton)
    ensures b.beaten <==> world.boss.id in p.completed
    ensures b.onClick.Some? <==> !WorldLocked(p, wIdx)
    ensures b.onClick.Some? ==> b.onClick.value == world.boss.id
  {
    BossButton(world.boss.id, world.boss.id in p.completed,
      if !WorldLocked(p, wIdx) then Some(world.boss.id) else None)
  }

  function SectionOf(p: Progress, wIdx: int, world: World): (s: WorldSection)
    ensures |s.levels| == |world.levels|
    ensures forall l :: 0 <= l < |world.levels| ==> s.levels[l] == LevelButtonOf(p, wIdx, l, world.levels[l])
  {
    WorldSection(WorldLocked(p, wIdx), WorldActive(p, wIdx),
      seq(|world.levels|, l requires 0 <= l < |world.levels| => LevelButtonOf(p, wIdx, l, world.levels[l])),
      BossButtonOf(p, wIdx, world))
  }

  /** The map drawn for `worlds` and the progress `p`. */
  function MapOf(worlds: seq<World>, p: Progress): (m: seq<WorldSection>)
    ensures |m| == |worlds|
    ensures forall w :: 0 <= w < |worlds| ==> m[w] == SectionOf(p, w, worlds[w])
  {
    seq(|worlds|, w requires 0 <= w < |worlds| => SectionOf(p, w, worlds[w]))
  }

  /** At most one level button of the whole map is current: the one at the
      progress's level index in the progress's world. */
  lemma AtMostOneCurrent(worlds: seq<World>, p: Progress)
    ensures var m := MapOf(worlds, p);
      forall w1, l1, w2, l2 ::
        0 <= w1 < |m| && 0 <= l1 < |m[w1].levels| && m[w1].levels[l1].current &&
        0 <= w2 < |m| && 0 <= l2 < |m[w2].levels| && m[w2].levels[l2].current ==>
        w1 == w2 == p.worldIndex && l1 == l2 == p.levelIndex
  {
    var m := MapOf(worlds, p);
    forall w1, l1 | 0 <= w1 < |m| && 0 <= l1 < |m[w1].levels| && m[w1].levels[l1].current
      ensures w1 == p.worldIndex && l1 == p.levelIndex
    {
      assert m[w1].levels[l1] == LevelButtonOf(p, w1, l1, worlds[w1].levels[l1]);
    }
  }

  /** A click plays a level exactly when neither the level nor its world is
      locked, and the boss exactly when its world is not locked. */
  lemma ClickSpec(worlds: seq<World>, p: Progress, w: int, l: int)
    requires 0 <= w < |worlds| && 0 <= l < |worlds[w].levels|
    ensures var section := MapOf(worlds, p)[w];
      && (section.levels[l].onClick == Some(worlds[w].levels[l].id) <==> !section.levels[l].locked && !section.locked)
      && (section.levels[l].onClick.None? <==> section.levels[l].disabled)
      && (section.boss.onClick == Some(worlds[w].boss.id) <==> !section.locked)
  {
    var section := MapOf(worlds, p)[w];
    assert section == SectionOf(p, w, worlds[w]);
    assert section.levels[l] == LevelButtonOf(p, w, l, worlds[w].levels[l]);
  }

  /** Completing a level never moves back to an earlier world, whatever the
      lookup answered. */
  lemma CompleteLevelNeverLocks(p: Progress, levelId: string, data: LevelData, passed: bool)
    ensures var p' := Complete(p, levelId, data, passed).1;
      p'.worldIndex >= p.worldIndex && p.completed <= p'.completed
      && forall w :: !WorldLocked(p, w) ==> !WorldLocked(p', w)
  {
  }

  /** The first clear of the current level, found as a regular level, makes
      the next level of the same world current, and the cleared one
      completed. (Every level of the curriculum is found as regular by
      `get_level_data`, by `Curriculum.GetLevelDataSpec`.) */
  lemma ClearCurrentAdvances(p: Progress, world: World, l: int, data: LevelData)
    requires 0 <= l < |world.levels| && l == p.levelIndex
    requires data.Regular?
    requires world.levels[l].id !in p.completed
    ensures var p' := Complete(p, world.levels[l].id, data, true).1;
      && LevelButtonOf(p', p.worldIndex, l, world.levels[l]).completed
      && !LevelButtonOf(p', p.worldIndex, l, world.levels[l]).locked
      && (l + 1 < |world.levels| ==> LevelButtonOf(p', p.worldIndex, l + 1, world.levels[l + 1]).current)
      && p'.worldIndex == p.worldIndex
  {
    CompleteLevelSpec(p, world.levels[l].id, data);
  }

  /** A level of an earlier world that was never cleared stays locked, and
      cannot be played from the map, whatever other level is completed:
      beating a boss before its world's levels leaves them locked for good. */
  lemma SkippedLevelStaysLocked(p: Progress, w: int, l: int, level: Level, otherId: string, data: LevelData, passed: bool)
    requires w < p.worldIndex && level.id !in p.completed && otherId != level.id
    ensures var p' := Complete(p, otherId, data, passed).1;
      && LevelButtonOf(p, w, l, level).locked
      && LevelButtonOf(p', w, l, level).locked
      && LevelButtonOf(p', w, l, level).onClick.None?
  {
    var p' := Complete(p, otherId, data, passed).1;
    assert level.id !in p'.completed;
  }
}
