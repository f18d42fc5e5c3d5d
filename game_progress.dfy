/**
 * The progression manager (`GameProgressManager`): which worlds and levels
 * are unlocked, which levels are completed and their best times, kept in
 * hash sets and dictionaries that its methods update in place and save to
 * the key-value store after every change.
 *
 * Completing a level records it, keeps the smaller best time, and unlocks
 * the next level of its world, or at the end of a world the next world and
 * its first level. A first run (no "GameInitialized" key) and a reset leave
 * only the first world and its first level unlocked.
 */
module GameProgress {
  import opened Wrappers
  import opened ListCodec
  import opened Prefs
  import opened ProgressData
  import opened AbilitySystem

  /** A better time replaces the record; a missing record is created. */
  function KeepBest(m: map<string, real>, key: string, t: real): (r: map<string, real>)
    ensures key in r && r[key] == if key in m && m[key] <= t then m[key] else t
    ensures forall k :: k != key ==> (k in r <==> k in m)
    ensures forall k :: k != key && k in m ==> r[k] == m[k]
  {
    if key !in m || t < m[key] then m[key := t] else m
  }

  /** The names of the non-null levels of an array. */
  function LevelKeys(ls: seq<Option<Level>>): set<string>
  {
    if |ls| == 0 then {} else LevelKeys(ls[..|ls| - 1]) + KeyOf(ls[|ls| - 1])
  }

  /** The names of all levels of all worlds. */
  function AllLevelKeys(ws: seq<Option<World>>): set<string>
  {
    if |ws| == 0 then {} else AllLevelKeys(ws[..|ws| - 1]) + LevelKeys(LevelsOf(ws[|ws| - 1]))
  }

  /** The best times `LoadProgress` reads for the levels of one array. */
  function LoadLevels(m: map<string, real>, ls: seq<Option<Level>>, p: Store): (r: map<string, real>)
    ensures forall k :: k in r <==> k in m || (k in LevelKeys(ls) && BestKey(k) in p)
    ensures forall k :: k in r ==>
              r[k] == if k in LevelKeys(ls) && BestKey(k) in p then FloatOr(p, BestKey(k), 0.0) else m[k]
  {
    if |ls| == 0 then m
    else
      var m1 := LoadLevels(m, ls[..|ls| - 1], p);
      var l := ls[|ls| - 1];
      if l.Some? && BestKey(l.value.name) in p then m1[l.value.name := FloatOr(p, BestKey(l.value.name), 0.0)] else m1
  }

  /**
   * The best times `LoadProgress` reads: for every level of every world
   * whose best-time key is stored, the stored float; other records stay.
   */
  function LoadWorlds(m: map<string, real>, ws: seq<Option<World>>, p: Store): (r: map<string, real>)
    ensures forall k :: k in r <==> k in m || (k in AllLevelKeys(ws) && BestKey(k) in p)
    ensures forall k :: k in r ==>
              r[k] == if k in AllLevelKeys(ws) && BestKey(k) in p then FloatOr(p, BestKey(k), 0.0) else m[k]
  {
    if |ws| == 0 then m else LoadLevels(LoadWorlds(m, ws[..|ws| - 1], p), LevelsOf(ws[|ws| - 1]), p)
  }

  /** The in-memory progress after `LoadProgress` from `p`. */
  function Loaded(worlds: seq<Option<World>>, p: Store, s: Progress): Progress
  {
    Progress(LoadedSet(p, WorldsKey, s.worlds), LoadedSet(p, LevelsKey, s.levels),
             LoadWorlds(s.bestTimes, worlds, p), LoadedCompleted(p, s.completed))
  }

  /** The progress of a first run: the first world and its first level, nothing completed. */
  function FirstRun(worlds: seq<Option<World>>): Progress
  {
    Progress(FirstWorlds(worlds), FirstLevels(worlds), map[], map[])
  }

  /**
   * Best times survive a save and a load: every level of the worlds that
   * has a best time in the saved state reads it back.
   */
  lemma BestTimesReadBack(worlds: seq<Option<World>>, p0: Store, p: Store, s: Progress, cur: map<string, real>)
    requires Saved(p0, p, s)
    ensures forall k :: k in AllLevelKeys(worlds) && k in s.bestTimes ==>
              k in LoadWorlds(cur, worlds, p) && LoadWorlds(cur, worlds, p)[k] == s.bestTimes[k]
  {
  }

  // ---------------------------------------------------------------------
  // Helpers of `SaveProgress`
  // ---------------------------------------------------------------------

  /** A hash set's enumeration: every element once, in an unspecified order. */
  method Enumerate(items: set<string>) returns (xs: seq<string>)
    ensures Enumerates(xs, items)
  {
    xs := [];
    var rest := items;
    while rest != {}
      invariant rest <= items
      invariant Elements(xs) == items - rest
      invariant forall i, j :: 0 <= i < j < |xs| ==> xs[i] != xs[j]
      decreases |rest|
    {
      var x :| x in rest;
      ElementsSnoc(xs, x);
      xs := xs + [x];
      rest := rest - {x};
    }
  }

  /** The keys whose completion flag is true, in the dictionary's enumeration order. */
  method CompletedList(m: map<string, bool>) returns (xs: seq<string>)
    ensures Enumerates(xs, CompletedKeys(m))
  {
    xs := [];
    var rest := m.Keys;
    while rest != {}
      invariant rest <= m.Keys
      invariant Elements(xs) == CompletedKeys(m) - rest
      invariant forall i, j :: 0 <= i < j < |xs| ==> xs[i] != xs[j]
      decreases |rest|
    {
      var k :| k in rest;
      if m[k] {
        ElementsSnoc(xs, k);
        xs := xs + [k];
      }
      rest := rest - {k};
    }
  }

  /** One `SetFloat` per best time. */
  method StoreBestTimes(p0: Store, bt: map<string, real>) returns (p: Store)
    ensures forall k :: k in bt ==> BestKey(k) in p && p[BestKey(k)] == PFloat(bt[k])
    ensures forall key :: key !in BestKeys(bt.Keys) ==> (key in p <==> key in p0) && (key in p ==> p[key] == p0[key])
  {
    p := p0;
    var rest := bt.Keys;
    while rest != {}
      invariant rest <= bt.Keys
      invariant forall k :: k in bt && k !in rest ==> BestKey(k) in p && p[BestKey(k)] == PFloat(bt[k])
      invariant forall key :: key !in BestKeys(bt.Keys - rest) ==> (key in p <==> key in p0) && (key in p ==> p[key] == p0[key])
      decreases |rest|
    {
      var k :| k in rest;
      forall k' | k' in bt && k' !in rest ensures BestKey(k') != BestKey(k) {
        BestKeyApart(k', k);
      }
      assert BestKeys(bt.Keys - (rest - {k})) == BestKeys(bt.Keys - rest) + {BestKey(k)};
      p := p[BestKey(k) := PFloat(bt[k])];
      rest := rest - {k};
    }
  }

  // ---------------------------------------------------------------------
  // Helpers of `LoadProgress`
  // ---------------------------------------------------------------------

  /** The loop over the split completion string. */
  method MarkFields(cur: map<string, bool>, fields: seq<string>) returns (m: map<string, bool>)
    ensures m == MarkAll(cur, fields)
  {
    m := cur;
    var j := 0;
    while j < |fields|
      invariant 0 <= j <= |fields|
      invariant m == MarkAll(cur, fields[..j])
    {
      MarkAllStep(cur, fields, j);
      if fields[j] != "" {
        m := m[fields[j] := true];
      }
      j := j + 1;
    }
    assert fields[..|fields|] == fields;
  }

  lemma MarkAllStep(cur: map<string, bool>, fields: seq<string>, j: nat)
    requires j < |fields|
    ensures MarkAll(cur, fields[..j + 1])
            == if fields[j] != "" then MarkAll(cur, fields[..j])[fields[j] := true] else MarkAll(cur, fields[..j])
  {
    assert fields[..j + 1][..j] == fields[..j];
  }

  /** The inner loop: the levels of one world. */
  method LoadLevelTimes(m: map<string, real>, levels: seq<Option<Level>>, p: Store) returns (times: map<string, real>)
    ensures times == LoadLevels(m, levels, p)
  {
    times := m;
    var i := 0;
    while i < |levels|
      invariant 0 <= i <= |levels|
      invariant times == LoadLevels(m, levels[..i], p)
    {
      LoadLevelsStep(m, levels, p, i);
      var level := levels[i];
      if level.Some? && BestKey(level.value.name) in p {
        times := times[level.value.name := FloatOr(p, BestKey(level.value.name), 0.0)];
      }
      i := i + 1;
    }
    assert levels[..|levels|] == levels;
  }

  lemma LoadLevelsStep(m: map<string, real>, levels: seq<Option<Level>>, p: Store, i: nat)
    requires i < |levels|
    ensures var l := levels[i]; var before := LoadLevels(m, levels[..i], p);
            LoadLevels(m, levels[..i + 1], p)
            == if l.Some? && BestKey(l.value.name) in p then before[l.value.name := FloatOr(p, BestKey(l.value.name), 0.0)] else before
  {
    assert levels[..i + 1][..i] == levels[..i];
  }

  /** The outer loop: every world with a levels array. */
  method LoadBestTimes(m: map<string, real>, worlds: seq<Option<World>>, p: Store) returns (times: map<string, real>)
    ensures times == LoadWorlds(m, worlds, p)
  {
    times := m;
    var w := 0;
    while w < |worlds|
      invariant 0 <= w <= |worlds|
      invariant times == LoadWorlds(m, worlds[..w], p)
    {
      assert worlds[..w + 1][..w] == worlds[..w];
      var world := worlds[w];
      if world.Some? && world.value.levels.Some? {
        times := LoadLevelTimes(times, world.value.levels.value, p);
      }
      w := w + 1;
    }
    assert worlds[..|worlds|] == worlds;
  }

  /** The switch of `SetAbilitiesForCurrentWorld`, on cleared flags. */
  method GrantWorld(g: Abilities, n: int)
    requires g.Unlocked() == {}
    modifies g
    ensures g.Unlocked() == AbilitySet(WorldAbilityList(n))
    ensures g.unlockEvents == old(g.unlockEvents) + WorldAbilityList(n)
  {
    AbilitySetOf(n);
    ghost var e := g.unlockEvents;
    var unlocked: bool;
    if n == 2 {
      unlocked := g.Unlock(DoubleJump);
    } else if n == 3 {
      unlocked := g.Unlock(DoubleJump);
      unlocked := g.Unlock(Dash);
      assert g.unlockEvents == e + [DoubleJump, Dash];
    } else if n == 4 {
      unlocked := g.Unlock(DoubleJump);
      unlocked := g.Unlock(Dash);
      unlocked := g.Unlock(WallPass);
      assert g.unlockEvents == e + [DoubleJump, Dash, WallPass];
    }
  }

  // ---------------------------------------------------------------------
  // The manager
  // ---------------------------------------------------------------------

  class ProgressManager {
    /** All worlds of the game, in order (assigned in the inspector). */
    const allWorlds: seq<Option<World>>

    var unlockedWorlds: set<string>
    var unlockedLevels: set<string>
    var levelBestTimes: map<string, real>
    var levelCompleted: map<string, bool>
    /** The persistent key-value store. */
    var prefs: Store
    var selectedWorld: Option<World>
    var selectedLevel: Option<Level>

    function State(): Progress
      reads this
    {
      Progress(unlockedWorlds, unlockedLevels, levelBestTimes, levelCompleted)
    }

    /** The field initialisers: empty sets and maps, over the store as it is on disk. */
    constructor (worlds: seq<Option<World>>, store: Store)
      ensures allWorlds == worlds && prefs == store
      ensures State() == Progress({}, {}, map[], map[])
      ensures selectedWorld.None? && selectedLevel.None?
    {
      allWorlds, prefs := worlds, store;
      unlockedWorlds, unlockedLevels, levelBestTimes, levelCompleted := {}, {}, map[], map[];
      selectedWorld, selectedLevel := None, None;
    }

    /**
     * `Awake` of the surviving instance: load, then initialise a first run.
     * With the initialised key present the progress is what the store
     * holds; without it, it is the first-run progress, saved.
     */
    method Awake()
      modifies this
      ensures InitKey in old(prefs) ==> State() == Loaded(allWorlds, old(prefs), old(State())) && prefs == old(prefs)
      ensures InitKey !in old(prefs) ==> State() == FirstRun(allWorlds) && Saved(old(prefs)[InitKey := PInt(1)], prefs, State())
    {
      LoadProgress();
      InitializeFirstTimeProgress();
    }

    // -------------------------------------------------------------------
    // Queries
    // -------------------------------------------------------------------

    /** A level's key is its asset name. */
    function GetLevelKey(level: Level): string
    {
      level.name
    }

    /** Only the progression counts (the asset's "unlocked by default" flag is ignored); null is locked. */
    function IsWorldUnlocked(world: Option<World>): (r: bool)
      reads this
      ensures world.None? ==> !r
      ensures world.Some? ==> (r <==> world.value.name in unlockedWorlds)
    {
      world.Some? && world.value.name in unlockedWorlds
    }

    function IsLevelUnlocked(level: Option<Level>): (r: bool)
      reads this
      ensures level.None? ==> !r
      ensures level.Some? ==> (r <==> level.value.name in unlockedLevels)
    {
      level.Some? && GetLevelKey(level.value) in unlockedLevels
    }

    /** Completed when the flag is recorded and true; null and unrecorded levels are not. */
    function IsLevelCompleted(level: Option<Level>): (r: bool)
      reads this
      ensures level.None? || level.value.name !in levelCompleted ==> !r
      ensures level.Some? && level.value.name in levelCompleted ==> r == levelCompleted[level.value.name]
    {
      level.Some? && GetLevelKey(level.value) in levelCompleted && levelCompleted[GetLevelKey(level.value)]
    }

    /** The recorded best time; 0 for null and unrecorded levels. */
    function GetBestTime(level: Option<Level>): (r: real)
      reads this
      ensures level.None? || level.value.name !in levelBestTimes ==> r == 0.0
      ensures level.Some? && level.value.name in levelBestTimes ==> r == levelBestTimes[level.value.name]
    {
      if level.None? then 0.0
      else
        var key := GetLevelKey(level.value);
        if key in levelBestTimes then levelBestTimes[key] else 0.0
    }

    // -------------------------------------------------------------------
    // Unlocking and completion
    // -------------------------------------------------------------------

    /** Adds the world's name, removes nothing, and saves; null changes nothing. */
    method UnlockWorld(world: Option<World>)
      modifies this
      ensures unlockedWorlds == old(unlockedWorlds) + (if world.Some? then {world.value.name} else {})
      ensures unlockedLevels == old(unlockedLevels) && levelBestTimes == old(levelBestTimes)
      ensures levelCompleted == old(levelCompleted)
      ensures world.Some? ==> Saved(old(prefs), prefs, State())
      ensures world.None? ==> prefs == old(prefs)
      ensures selectedWorld == old(selectedWorld) && selectedLevel == old(selectedLevel)
    {
      if world.None? {
        return;
      }
      unlockedWorlds := unlockedWorlds + {world.value.name};
      SaveProgress();
    }

    /** Adds the level's key, removes nothing, and saves; null changes nothing. */
    method UnlockLevel(level: Option<Level>)
      modifies this
      ensures unlockedLevels == old(unlockedLevels) + KeyOf(level)
      ensures unlockedWorlds == old(unlockedWorlds) && levelBestTimes == old(levelBestTimes)
      ensures levelCompleted == old(levelCompleted)
      ensures level.Some? ==> Saved(old(prefs), prefs, State())
      ensures level.None? ==> prefs == old(prefs)
      ensures selectedWorld == old(selectedWorld) && selectedLevel == old(selectedLevel)
    {
      if level.None? {
        return;
      }
      unlockedLevels := unlockedLevels + {GetLevelKey(level.value)};
      SaveProgress();
    }

    /**
     * Marks the level completed, keeps the smaller of the recorded and the
     * new time, applies the unlock rule and saves. A null level changes
     * nothing. When the unlock rule faults (`faulted`, see
     * `NextUnlocks`) the final save is skipped: the record and the time
     * stay changed in memory, and the store holds them only when an unlock
     * before the fault saved.
     */
    method CompleteLevel(level: Option<Level>, time: real) returns (faulted: bool)
      modifies this
      ensures level.None? ==> State() == old(State()) && prefs == old(prefs) && !faulted
      ensures level.Some? ==>
                var key := level.value.name;
                var e := NextUnlocks(allWorlds, level.value);
                && levelCompleted == old(levelCompleted)[key := true]
                && levelBestTimes == KeepBest(old(levelBestTimes), key, time)
                && unlockedWorlds == old(unlockedWorlds) + e.worlds
                && unlockedLevels == old(unlockedLevels) + e.levels
                && faulted == e.faulted
                && (e.saves || !faulted ==> Saved(old(prefs), prefs, State()))
                && (!e.saves && faulted ==> prefs == old(prefs))
      ensures selectedWorld == old(selectedWorld) && selectedLevel == old(selectedLevel)
    {
      faulted := false;
      if level.None? {
        return;
      }
      var key := GetLevelKey(level.value);
      levelCompleted := levelCompleted[key := true];
      if key !in levelBestTimes || time < levelBestTimes[key] {
        levelBestTimes := levelBestTimes[key := time];
      }
      ghost var p0, s0 := prefs, State();
      faulted := UnlockNextLevel(level.value);
      if faulted {
        return;
      }
      ghost var p1, s1 := prefs, State();
      SaveProgress();
      if NextUnlocks(allWorlds, level.value).saves {
        SavedTrans(p0, p1, prefs, s1, State());
      }
    }

    /**
     * The unlock rule, as the nested search over the worlds and their
     * levels: the first world holding the level decides, and the search
     * ends there.
     */
    method UnlockNextLevel(completedLevel: Level) returns (faulted: bool)
      modifies this
      ensures var e := NextUnlocks(allWorlds, completedLevel);
              && unlockedWorlds == old(unlockedWorlds) + e.worlds
              && unlockedLevels == old(unlockedLevels) + e.levels
              && levelBestTimes == old(levelBestTimes) && levelCompleted == old(levelCompleted)
              && faulted == e.faulted
              && (e.saves ==> Saved(old(prefs), prefs, State()))
              && (!e.saves ==> prefs == old(prefs))
      ensures selectedWorld == old(selectedWorld) && selectedLevel == old(selectedLevel)
    {
      faulted := false;
      var w := 0;
      while w < |allWorlds|
        invariant 0 <= w <= |allWorlds|
        invariant FindFrom(allWorlds, completedLevel, 0) == FindFrom(allWorlds, completedLevel, w)
        invariant State() == old(State()) && prefs == old(prefs)
        invariant selectedWorld == old(selectedWorld) && selectedLevel == old(selectedLevel)
      {
        var world := allWorlds[w];
        if world.Some? && world.value.levels.Some? {
          var levels := world.value.levels.value;
          var i := 0;
          while i < |levels|
            invariant 0 <= i <= |levels|
            invariant FindIn(levels, completedLevel, 0) == FindIn(levels, completedLevel, i)
            invariant State() == old(State()) && prefs == old(prefs)
            invariant selectedWorld == old(selectedWorld) && selectedLevel == old(selectedLevel)
          {
            if levels[i] == Some(completedLevel) {
              assert FindFrom(allWorlds, completedLevel, 0) == Some((w, i));
              faulted := UnlockAt(completedLevel, w, i);
              return;
            }
            i := i + 1;
          }
        }
        w := w + 1;
      }
    }

    /** The body of the search's hit: world `w` holds the completed level at `i`. */
    method UnlockAt(completedLevel: Level, w: nat, i: nat) returns (faulted: bool)
      requires FindFrom(allWorlds, completedLevel, 0) == Some((w, i))
      modifies this
      ensures var e := NextUnlocks(allWorlds, completedLevel);
              && unlockedWorlds == old(unlockedWorlds) + e.worlds
              && unlockedLevels == old(unlockedLevels) + e.levels
              && levelBestTimes == old(levelBestTimes) && levelCompleted == old(levelCompleted)
              && faulted == e.faulted
              && (e.saves ==> Saved(old(prefs), prefs, State()))
              && (!e.saves ==> prefs == old(prefs))
      ensures selectedWorld == old(selectedWorld) && selectedLevel == old(selectedLevel)
    {
      faulted := false;
      var levels := LevelsOf(allWorlds[w]);
      if i + 1 < |levels| {
        UnlockLevel(levels[i + 1]);
        // The log message reads the name of the level just unlocked.
        faulted := levels[i + 1].None?;
        return;
      }
      IndexOfFound(allWorlds, completedLevel);
      var worldIndex := IndexOf(allWorlds, allWorlds[w], 0);
      if worldIndex >= 0 && worldIndex + 1 < |allWorlds| {
        var next := allWorlds[worldIndex + 1];
        UnlockWorld(next);
        if next.None? {
          // The log message reads the name of the null world.
          faulted := true;
          return;
        }
        ghost var p0, s0 := old(prefs), old(State());
        ghost var p1, s1 := prefs, State();
        if next.value.levels.Some? && |next.value.levels.value| > 0 {
          UnlockLevel(next.value.levels.value[0]);
          if next.value.levels.value[0].Some? {
            SavedTrans(p0, p1, prefs, s1, State());
          } else {
            faulted := true;
          }
        }
      }
    }

    // -------------------------------------------------------------------
    // Navigation and abilities
    // -------------------------------------------------------------------

    /** Remembers the world and, for a non-null world, stores its number for the next level load. */
    method SelectWorld(world: Option<World>)
      modifies this
      ensures selectedWorld == world && selectedLevel == old(selectedLevel)
      ensures State() == old(State())
      ensures prefs == if world.Some? then old(prefs)[WorldNumberKey := PInt(world.value.number)] else old(prefs)
    {
      selectedWorld := world;
      if world.None? {
        return;
      }
      prefs := prefs[WorldNumberKey := PInt(world.value.number)];
    }

    method SelectLevel(level: Option<Level>)
      modifies this
      ensures selectedLevel == level && selectedWorld == old(selectedWorld)
      ensures State() == old(State()) && prefs == old(prefs)
    {
      selectedLevel := level;
    }

    /**
     * On level load: every ability is reset, then the stored world number
     * (1 when absent) grants its abilities from the table, each firing its
     * unlock event. Without an ability component nothing happens.
     */
    method SetAbilitiesForCurrentWorld(abilities: Abilities?)
      modifies abilities
      ensures abilities != null ==>
                var n := IntOr(prefs, WorldNumberKey, 1);
                && abilities.Unlocked() == AbilitySet(WorldAbilityList(n))
                && abilities.unlockEvents == old(abilities.unlockEvents) + WorldAbilityList(n)
    {
      var worldNumber := IntOr(prefs, WorldNumberKey, 1);
      if abilities == null {
        return;
      }
      abilities.ResetAll();
      GrantWorld(abilities, worldNumber);
    }

    // -------------------------------------------------------------------
    // Persistence
    // -------------------------------------------------------------------

    /** Writes the three sets as joined strings and every best time; the progress is unchanged. */
    method SaveProgress()
      modifies this
      ensures State() == old(State())
      ensures Saved(old(prefs), prefs, State())
      ensures selectedWorld == old(selectedWorld) && selectedLevel == old(selectedLevel)
    {
      var worlds := Enumerate(unlockedWorlds);
      var levels := Enumerate(unlockedLevels);
      var completed := CompletedList(levelCompleted);
      var p := prefs[WorldsKey := PStr(Join(worlds))][LevelsKey := PStr(Join(levels))][CompletedKey := PStr(Join(completed))];
      var q := StoreBestTimes(p, levelBestTimes);
      ManagedApart(State());
      assert q[WorldsKey] == PStr(Join(worlds)) && q[LevelsKey] == PStr(Join(levels));
      assert q[CompletedKey] == PStr(Join(completed));
      prefs := q;
    }

    /**
     * Reads the three sets (a set is replaced by its split string unless
     * that is empty; completions are added) and the best time of every
     * level of every world whose key is stored.
     */
    method LoadProgress()
      modifies this
      ensures State() == Loaded(allWorlds, prefs, old(State()))
      ensures prefs == old(prefs)
      ensures selectedWorld == old(selectedWorld) && selectedLevel == old(selectedLevel)
    {
      var worldsStr := StringOr(prefs, WorldsKey, "");
      if worldsStr != "" {
        unlockedWorlds := Elements(Split(worldsStr));
      }
      var levelsStr := StringOr(prefs, LevelsKey, "");
      if levelsStr != "" {
        unlockedLevels := Elements(Split(levelsStr));
      }
      var completedStr := StringOr(prefs, CompletedKey, "");
      if completedStr != "" {
        levelCompleted := MarkFields(levelCompleted, Split(completedStr));
      }
      levelBestTimes := LoadBestTimes(levelBestTimes, allWorlds, prefs);
    }

    /**
     * Without the initialised key: clears everything, unlocks the first
     * world and its first level, writes the key and saves. With it:
     * nothing.
     */
    method InitializeFirstTimeProgress()
      modifies this
      ensures InitKey in old(prefs) ==> State() == old(State()) && prefs == old(prefs)
      ensures InitKey !in old(prefs) ==>
                State() == FirstRun(allWorlds) && Saved(old(prefs)[InitKey := PInt(1)], prefs, State())
      ensures selectedWorld == old(selectedWorld) && selectedLevel == old(selectedLevel)
    {
      if InitKey in prefs {
        return;
      }
      UnlockFirst();
      ghost var p1, s1 := prefs, State();
      prefs := prefs[InitKey := PInt(1)];
      SaveProgress();
      if FirstWorlds(allWorlds) != {} {
        ManagedApart(State());
        SavedOverWrite(old(prefs), p1, prefs, s1, State(), InitKey, PInt(1));
      }
    }

    /** The first-run unlocks: a cleared progress, then the first world and its first level. */
    method UnlockFirst()
      modifies this
      ensures State() == FirstRun(allWorlds)
      ensures FirstWorlds(allWorlds) != {} ==> Saved(old(prefs), prefs, State())
      ensures FirstWorlds(allWorlds) == {} ==> prefs == old(prefs)
      ensures selectedWorld == old(selectedWorld) && selectedLevel == old(selectedLevel)
    {
      unlockedWorlds, unlockedLevels, levelCompleted, levelBestTimes := {}, {}, map[], map[];
      if |allWorlds| > 0 && allWorlds[0].Some? {
        UnlockWorld(allWorlds[0]);
        ghost var p1, s1 := prefs, State();
        var first := allWorlds[0].value;
        if first.levels.Some? && |first.levels.value| > 0 {
          UnlockLevel(first.levels.value[0]);
          if first.levels.value[0].Some? {
            SavedTrans(old(prefs), p1, prefs, s1, State());
          }
        }
      }
    }

    /**
     * Clears the progress and the whole store, then runs the first-run
     * initialisation: afterwards only the first world and its first level
     * are unlocked, and the store holds the save and the initialised key
     * and nothing else.
     */
    method ResetProgress()
      modifies this
      ensures State() == FirstRun(allWorlds)
      ensures Saved(map[InitKey := PInt(1)], prefs, State())
      ensures selectedWorld == old(selectedWorld) && selectedLevel == old(selectedLevel)
    {
      unlockedWorlds, unlockedLevels, levelBestTimes, levelCompleted := {}, {}, map[], map[];
      prefs := map[];
      InitializeFirstTimeProgress();
    }
  }

  /**
   * Selecting a world and then loading one of its levels grants exactly
   * the abilities of that world's number.
   */
  method SelectThenLoad(m: ProgressManager, w: World, g: Abilities)
    modifies m, g
    ensures g.Unlocked() == AbilitySet(WorldAbilityList(w.number))
  {
    m.SelectWorld(Some(w));
    m.SetAbilitiesForCurrentWorld(g);
  }

  /**
   * Completing a level twice keeps the better of the two times (and of
   * any earlier record), and leaves the level completed.
   */
  method CompleteTwice(m: ProgressManager, level: Level, t1: real, t2: real)
    modifies m
    ensures m.IsLevelCompleted(Some(level))
    ensures var old_ := old(m.levelBestTimes);
            var best := if t1 <= t2 then t1 else t2;
            m.GetBestTime(Some(level)) ==
              if level.name in old_ && old_[level.name] <= best then old_[level.name] else best
  {
    var f1 := m.CompleteLevel(Some(level), t1);
    var f2 := m.CompleteLevel(Some(level), t2);
  }
}
