/**
 * The engine's key-value store (`PlayerPrefs`) as a map from keys to
 * typed values, and what the progress manager writes into it: the three
 * sets as comma-joined strings, and one float per best time. The order in
 * which a hash set is enumerated is not specified, so a saved set is any
 * text that joins an enumeration of it (`Stores`).
 */
module Prefs {
  import opened ListCodec

  datatype Pref = PStr(s: string) | PInt(i: int) | PFloat(f: real)

  type Store = map<string, Pref>

  const WorldsKey: string := "UnlockedWorlds"
  const LevelsKey: string := "UnlockedLevels"
  const CompletedKey: string := "CompletedLevels"
  const InitKey: string := "GameInitialized"
  const WorldNumberKey: string := "CurrentWorldNumber"
  const BestPrefix: string := "BestTime_"

  /** The key of a level's best time. */
  function BestKey(level: string): string
  {
    BestPrefix + level
  }

  /** `GetString(key, d)`: the stored string, or `d` when the key is absent or holds another type. */
  function StringOr(p: Store, key: string, d: string): string
  {
    if key in p && p[key].PStr? then p[key].s else d
  }

  function IntOr(p: Store, key: string, d: int): int
  {
    if key in p && p[key].PInt? then p[key].i else d
  }

  function FloatOr(p: Store, key: string, d: real): real
  {
    if key in p && p[key].PFloat? then p[key].f else d
  }

  /** The best-time key is one-to-one and never one of the fixed keys. */
  lemma BestKeyApart(a: string, b: string)
    ensures BestKey(a) == BestKey(b) ==> a == b
    ensures BestKey(a) !in {WorldsKey, LevelsKey, CompletedKey, InitKey, WorldNumberKey}
  {
    assert BestKey(a)[..9] == BestPrefix && BestKey(a)[9..] == a;
    assert BestKey(b)[9..] == b;
    assert BestKey(a)[0] == 'B';
  }

  /** The in-memory progress: unlocked world and level names, best times, completion flags. */
  datatype Progress = Progress(
    worlds: set<string>,
    levels: set<string>,
    bestTimes: map<string, real>,
    completed: map<string, bool>)

  /** The levels whose completion flag is true: those `SaveProgress` lists. */
  function CompletedKeys(m: map<string, bool>): set<string>
  {
    set k | k in m && m[k]
  }

  function BestKeys(ks: set<string>): set<string>
  {
    set k | k in ks :: BestKey(k)
  }

  /** The keys a save writes. */
  function Managed(s: Progress): set<string>
  {
    {WorldsKey, LevelsKey, CompletedKey} + BestKeys(s.bestTimes.Keys)
  }

  lemma ManagedApart(s: Progress)
    ensures InitKey !in Managed(s) && WorldNumberKey !in Managed(s)
    ensures WorldsKey !in BestKeys(s.bestTimes.Keys) && LevelsKey !in BestKeys(s.bestTimes.Keys)
    ensures CompletedKey !in BestKeys(s.bestTimes.Keys)
  {
    forall k | k in s.bestTimes {
      BestKeyApart(k, k);
    }
  }

  /** `p[key]` is the string join of some enumeration of `items`. */
  ghost predicate Stores(p: Store, key: string, items: set<string>)
  {
    key in p && p[key].PStr? && exists xs :: Enumerates(xs, items) && p[key].s == Join(xs)
  }

  /**
   * `p` is `p0` after `SaveProgress` of `s`: the three sets stored as
   * joined strings, every best time under its key, and every other key as
   * it was.
   */
  ghost predicate Saved(p0: Store, p: Store, s: Progress)
  {
    && Stores(p, WorldsKey, s.worlds)
    && Stores(p, LevelsKey, s.levels)
    && Stores(p, CompletedKey, CompletedKeys(s.completed))
    && (forall k :: k in s.bestTimes ==> BestKey(k) in p && p[BestKey(k)] == PFloat(s.bestTimes[k]))
    && (forall key :: key !in Managed(s) ==> (key in p <==> key in p0) && (key in p ==> p[key] == p0[key]))
  }

  /** A later save of a state with at least the same best-time keys overrides an earlier one. */
  lemma SavedTrans(p0: Store, p1: Store, p2: Store, s1: Progress, s2: Progress)
    requires Saved(p0, p1, s1) && Saved(p1, p2, s2)
    requires s1.bestTimes.Keys <= s2.bestTimes.Keys
    ensures Saved(p0, p2, s2)
  {
    assert Managed(s1) <= Managed(s2);
  }

  /** A key outside the saved ones, written between two saves, is as if written before both. */
  lemma SavedOverWrite(p0: Store, p1: Store, p2: Store, s1: Progress, s2: Progress, key: string, v: Pref)
    requires Saved(p0, p1, s1) && Saved(p1[key := v], p2, s2)
    requires s1.bestTimes.Keys <= s2.bestTimes.Keys && key !in Managed(s2)
    ensures Saved(p0[key := v], p2, s2)
  {
    assert Managed(s1) <= Managed(s2);
  }

  // ---------------------------------------------------------------------
  // Loading
  // ---------------------------------------------------------------------

  /** A set as `LoadProgress` reads it: replaced by the split string unless that is empty. */
  function LoadedSet(p: Store, key: string, cur: set<string>): set<string>
  {
    var str := StringOr(p, key, "");
    if str == "" then cur else Elements(Split(str))
  }

  /** Each non-empty field, in order, marked completed. */
  function MarkAll(cur: map<string, bool>, fields: seq<string>): (r: map<string, bool>)
    ensures forall k :: k in r <==> k in cur || (k in Elements(fields) && k != "")
    ensures forall k :: k in r ==> r[k] == if k in Elements(fields) && k != "" then true else cur[k]
  {
    if |fields| == 0 then cur
    else
      var m := MarkAll(cur, fields[..|fields| - 1]);
      var last := fields[|fields| - 1];
      assert Elements(fields) == Elements(fields[..|fields| - 1]) + {last} by {
        assert fields == fields[..|fields| - 1] + [last];
      }
      if last != "" then m[last := true] else m
  }

  /** The completion flags as `LoadProgress` reads them: marked on top of the current ones. */
  function LoadedCompleted(p: Store, cur: map<string, bool>): map<string, bool>
  {
    var str := StringOr(p, CompletedKey, "");
    if str == "" then cur else MarkAll(cur, Split(str))
  }

  /**
   * Reading a stored set back: the set itself, when none of its names
   * holds a comma, except that an empty set and the set of the empty name
   * both store "" and leave the current set as it was.
   */
  lemma StoredSetReadsBack(p: Store, key: string, items: set<string>, cur: set<string>)
    requires Stores(p, key, items) && NoSep(items)
    ensures LoadedSet(p, key, cur) == if items == {} || items == {""} then cur else items
  {
    var xs :| Enumerates(xs, items) && p[key].s == Join(xs);
    JoinEmpty(xs);
    if |xs| == 0 {
      assert items == {};
    } else if |xs| == 1 && xs[0] == "" {
      assert items == {""};
    } else {
      forall i | 0 <= i < |xs| ensures Sep !in xs[i] {
        assert xs[i] in items;
      }
      SplitJoin(xs);
    }
  }

  /** Reading stored completions back marks exactly the stored non-empty names. */
  lemma StoredCompletedReadsBack(p: Store, items: set<string>, cur: map<string, bool>)
    requires Stores(p, CompletedKey, items) && NoSep(items)
    ensures var r := LoadedCompleted(p, cur);
            && (forall k :: k in r <==> k in cur || (k in items && k != ""))
            && (forall k :: k in r ==> r[k] == if k in items && k != "" then true else cur[k])
  {
    var xs :| Enumerates(xs, items) && p[CompletedKey].s == Join(xs);
    JoinEmpty(xs);
    if !(|xs| == 0 || (|xs| == 1 && xs[0] == "")) {
      forall i | 0 <= i < |xs| ensures Sep !in xs[i] {
        assert xs[i] in items;
      }
      SplitJoin(xs);
    } else if |xs| == 1 {
      assert items == {""};
    } else {
      assert items == {};
    }
  }

  /**
   * Save then load: a store saved from `s` gives a freshly started
   * manager back the same worlds, levels and completed levels, whenever
   * no name holds a comma and none of the sets is just the empty name.
   */
  lemma SaveLoadRoundTrip(p0: Store, p: Store, s: Progress)
    requires Saved(p0, p, s)
    requires NoSep(s.worlds) && NoSep(s.levels) && NoSep(CompletedKeys(s.completed))
    requires s.worlds != {""} && s.levels != {""} && "" !in s.completed
    ensures LoadedSet(p, WorldsKey, {}) == s.worlds
    ensures LoadedSet(p, LevelsKey, {}) == s.levels
    ensures LoadedCompleted(p, map[]) == map k | k in CompletedKeys(s.completed) :: true
  {
    StoredSetReadsBack(p, WorldsKey, s.worlds, {});
    StoredSetReadsBack(p, LevelsKey, s.levels, {});
    StoredCompletedReadsBack(p, CompletedKeys(s.completed), map[]);
  }
}
