/**
 * The level and world records of the progression (`LevelData`,
 * `WorldData`), the search `UnlockNextLevel` performs over the ordered
 * worlds, and the fixed table of abilities per world number.
 */
module ProgressData {
  import opened Wrappers
  import opened AbilitySystem

  /**
   * A level asset. `asset` stands for the object's identity, which the
   * search compares; `name` is the asset name, the level's key in every
   * set, map and store entry.
   */
  datatype Level = Level(asset: nat, name: string)

  /** A world asset; an unassigned `levels` array or element is `None`. */
  datatype World = World(name: string, number: int, levels: Option<seq<Option<Level>>>)

  /** The levels the search walks through: none for a null world or a null array. */
  function LevelsOf(w: Option<World>): seq<Option<Level>>
  {
    if w.Some? && w.value.levels.Some? then w.value.levels.value else []
  }

  /** The key set of an optional level: its name, or nothing for a null level. */
  function KeyOf(l: Option<Level>): set<string>
  {
    if l.Some? then {l.value.name} else {}
  }

  // ---------------------------------------------------------------------
  // The search of `UnlockNextLevel`
  // ---------------------------------------------------------------------

  /** The first position at or after `i` holding `level`. */
  function FindIn(ls: seq<Option<Level>>, level: Level, i: nat): (r: Option<nat>)
    ensures r.Some? ==> i <= r.value < |ls| && ls[r.value] == Some(level)
    ensures r.Some? ==> forall k :: i <= k < r.value ==> ls[k] != Some(level)
    ensures r.None? ==> forall k :: i <= k < |ls| ==> ls[k] != Some(level)
    decreases |ls| - i
  {
    if i >= |ls| then None
    else if ls[i] == Some(level) then Some(i)
    else FindIn(ls, level, i + 1)
  }

  /**
   * The first world at or after `w` that holds `level`, and the level's
   * first position in it: the world `UnlockNextLevel` acts on.
   */
  function FindFrom(worlds: seq<Option<World>>, level: Level, w: nat): (r: Option<(nat, nat)>)
    ensures r.Some? ==> w <= r.value.0 < |worlds| && FindIn(LevelsOf(worlds[r.value.0]), level, 0) == Some(r.value.1)
    ensures r.Some? ==> forall k :: w <= k < r.value.0 ==> FindIn(LevelsOf(worlds[k]), level, 0).None?
    ensures r.None? ==> forall k :: w <= k < |worlds| ==> FindIn(LevelsOf(worlds[k]), level, 0).None?
    decreases |worlds| - w
  {
    if w >= |worlds| then None
    else
      match FindIn(LevelsOf(worlds[w]), level, 0)
      case Some(i) => Some((w, i))
      case None => FindFrom(worlds, level, w + 1)
  }

  /** `Array.IndexOf`: the first index holding `x`, or -1. */
  function IndexOf(xs: seq<Option<World>>, x: Option<World>, from: nat): (r: int)
    ensures r == -1 || (from <= r < |xs| && xs[r] == x)
    ensures r == -1 ==> forall k :: from <= k < |xs| ==> xs[k] != x
    ensures r != -1 ==> forall k :: from <= k < r ==> xs[k] != x
    decreases |xs| - from
  {
    if from >= |xs| then -1 else if xs[from] == x then from else IndexOf(xs, x, from + 1)
  }

  /**
   * The world found by the search is found again by `IndexOf`: a copy
   * earlier in the array would hold the level too, and would have been
   * found first.
   */
  lemma IndexOfFound(worlds: seq<Option<World>>, level: Level)
    requires FindFrom(worlds, level, 0).Some?
    ensures var w := FindFrom(worlds, level, 0).value.0; IndexOf(worlds, worlds[w], 0) == w
  {
  }

  /**
   * What completing `level` unlocks: the next level of its world, or at
   * the end of the world the next world and that world's first level.
   * `saves` tells whether some unlock was called with a non-null asset
   * (each such call saves). `faulted` marks a null asset that the log
   * message after the unlock call dereferences: a null next level, a null
   * next world, or a null first level of the next world. The unlock call
   * returned early on it, and the exception ends the operation there.
   */
  datatype Effect = Effect(worlds: set<string>, levels: set<string>, saves: bool, faulted: bool)

  function NextUnlocks(worlds: seq<Option<World>>, level: Level): Effect
  {
    match FindFrom(worlds, level, 0)
    case None => Effect({}, {}, false, false)
    case Some((w, i)) =>
      var ls := LevelsOf(worlds[w]);
      if i + 1 < |ls| then Effect({}, KeyOf(ls[i + 1]), ls[i + 1].Some?, ls[i + 1].None?)
      else if w + 1 < |worlds| then
        match worlds[w + 1]
        case None => Effect({}, {}, false, true)
        case Some(next) =>
          var first := if next.levels.Some? && |next.levels.value| > 0 then next.levels.value[0] else None;
          var hasFirst := next.levels.Some? && |next.levels.value| > 0;
          Effect({next.name}, KeyOf(first), true, hasFirst && first.None?)
      else Effect({}, {}, false, false)
  }

  /**
   * The unlock rule: a level followed by another in its world unlocks
   * exactly that one; the last level of a world followed by another
   * unlocks that world and its first level; the last level of the last
   * world, or a level in no world, unlocks nothing. Only the first world
   * holding the level counts. A null asset where the rule looks for the
   * next one ends it with a fault.
   */
  lemma NextUnlockRule(worlds: seq<Option<World>>, level: Level, w: nat, i: nat)
    requires w < |worlds| && i < |LevelsOf(worlds[w])| && LevelsOf(worlds[w])[i] == Some(level)
    requires forall k :: 0 <= k < w ==> Some(level) !in LevelsOf(worlds[k])
    requires forall j :: 0 <= j < i ==> LevelsOf(worlds[w])[j] != Some(level)
    ensures var e := NextUnlocks(worlds, level); var ls := LevelsOf(worlds[w]);
            && (i + 1 < |ls| ==> e == Effect({}, KeyOf(ls[i + 1]), ls[i + 1].Some?, ls[i + 1].None?))
            && (i + 1 == |ls| && w + 1 < |worlds| && worlds[w + 1].Some? ==>
                  var next := LevelsOf(worlds[w + 1]);
                  && e.worlds == {worlds[w + 1].value.name} && e.saves
                  && e.levels == (if |next| > 0 then KeyOf(next[0]) else {})
                  && (e.faulted <==> |next| > 0 && next[0].None?))
            && (i + 1 == |ls| && w + 1 < |worlds| && worlds[w + 1].None? ==> e == Effect({}, {}, false, true))
            && (i + 1 == |ls| && w + 1 == |worlds| ==> e == Effect({}, {}, false, false))
  {
    var r := FindFrom(worlds, level, 0);
    if r.None? || r.value.0 != w {
      assert false;
    }
  }

  /** A level in no world unlocks nothing and saves nothing. */
  lemma NowhereUnlocksNothing(worlds: seq<Option<World>>, level: Level)
    requires forall k :: 0 <= k < |worlds| ==> Some(level) !in LevelsOf(worlds[k])
    ensures NextUnlocks(worlds, level) == Effect({}, {}, false, false)
  {
  }

  // ---------------------------------------------------------------------
  // First-run unlocks
  // ---------------------------------------------------------------------

  /** The first world, when there is one. */
  function FirstWorlds(worlds: seq<Option<World>>): set<string>
  {
    if |worlds| > 0 && worlds[0].Some? then {worlds[0].value.name} else {}
  }

  /** The first level of the first world, when both exist. */
  function FirstLevels(worlds: seq<Option<World>>): set<string>
  {
    if |worlds| > 0 && worlds[0].Some? && |LevelsOf(worlds[0])| > 0 then KeyOf(LevelsOf(worlds[0])[0]) else {}
  }

  // ---------------------------------------------------------------------
  // Abilities per world
  // ---------------------------------------------------------------------

  /** The unlock calls `SetAbilitiesForCurrentWorld` makes for a world number, in order. */
  function WorldAbilityList(n: int): seq<Ability>
  {
    if n == 2 then [DoubleJump]
    else if n == 3 then [DoubleJump, Dash]
    else if n == 4 then [DoubleJump, Dash, WallPass]
    else []
  }

  function AbilitySet(xs: seq<Ability>): set<Ability>
  {
    set i | 0 <= i < |xs| :: xs[i]
  }

  /** The set each world number grants. */
  lemma AbilitySetOf(n: int)
    ensures AbilitySet(WorldAbilityList(n)) ==
              if n == 2 then {DoubleJump} else if n == 3 then {DoubleJump, Dash}
              else if n == 4 then AllAbilities else {}
  {
    AbilityTable(n);
  }

  /**
   * The table: world 1 and every number outside 2 to 4 grant nothing;
   * each world from 2 to 4 grants all that the one before it granted and
   * exactly one ability more, world 4 all three; no call repeats an
   * ability.
   */
  lemma AbilityTable(n: int)
    ensures n < 2 || n > 4 ==> AbilitySet(WorldAbilityList(n)) == {}
    ensures 2 <= n <= 4 ==> AbilitySet(WorldAbilityList(n - 1)) < AbilitySet(WorldAbilityList(n))
    ensures 2 <= n <= 4 ==> |AbilitySet(WorldAbilityList(n))| == n - 1
    ensures AbilitySet(WorldAbilityList(4)) == AllAbilities
    ensures forall i, j :: 0 <= i < j < |WorldAbilityList(n)| ==> WorldAbilityList(n)[i] != WorldAbilityList(n)[j]
  {
    var s1 := AbilitySet(WorldAbilityList(1));
    var s2 := AbilitySet(WorldAbilityList(2));
    var s3 := AbilitySet(WorldAbilityList(3));
    var s4 := AbilitySet(WorldAbilityList(4));
    assert s1 == {};
    assert s2 == {DoubleJump} by { assert WorldAbilityList(2)[0] == DoubleJump; }
    assert s3 == {DoubleJump, Dash} by {
      assert WorldAbilityList(3)[0] == DoubleJump && WorldAbilityList(3)[1] == Dash;
    }
    assert s4 == {DoubleJump, Dash, WallPass} by {
      assert WorldAbilityList(4)[0] == DoubleJump && WorldAbilityList(4)[1] == Dash && WorldAbilityList(4)[2] == WallPass;
    }
  }
}
