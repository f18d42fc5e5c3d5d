/**
 * The ability gate: three unlock flags consulted by the jump and dash
 * controllers. Unlocking is idempotent and reports whether anything changed;
 * each effective unlock fires the `OnAbilityUnlocked` event, recorded here as
 * the trace `unlockEvents`. Nothing is persisted.
 */
module AbilitySystem {

  datatype Ability = DoubleJump | Dash | WallPass

  const AllAbilities: set<Ability> := {DoubleJump, Dash, WallPass}

  class Abilities {
    var hasDoubleJump: bool
    var hasDash: bool
    var hasWallPass: bool
    /** Every invocation of `OnAbilityUnlocked`, in order. */
    var unlockEvents: seq<Ability>

    /** The flags start at the values set in the inspector. */
    constructor (doubleJump: bool, dash: bool, wallPass: bool)
      ensures hasDoubleJump == doubleJump && hasDash == dash && hasWallPass == wallPass
      ensures unlockEvents == []
    {
      hasDoubleJump, hasDash, hasWallPass := doubleJump, dash, wallPass;
      unlockEvents := [];
    }

    /** The set of abilities whose flag is on. */
    function Unlocked(): (s: set<Ability>)
      reads this
      ensures s <= AllAbilities
      ensures DoubleJump in s <==> hasDoubleJump
      ensures Dash in s <==> hasDash
      ensures WallPass in s <==> hasWallPass
    {
      (if hasDoubleJump then {DoubleJump} else {}) +
      (if hasDash then {Dash} else {}) +
      (if hasWallPass then {WallPass} else {})
    }

    /** The switch expression: each ability reads its own flag. */
    function Has(a: Ability): (r: bool)
      reads this
      ensures r <==> a in Unlocked()
    {
      match a
      case DoubleJump => hasDoubleJump
      case Dash => hasDash
      case WallPass => hasWallPass
    }

    /**
     * Sets the flag of `a`; returns false, and fires nothing, when it was
     * already set. No other flag changes.
     */
    method Unlock(a: Ability) returns (changed: bool)
      modifies this
      ensures changed <==> a !in old(Unlocked())
      ensures Unlocked() == old(Unlocked()) + {a}
      ensures unlockEvents == old(unlockEvents) + (if changed then [a] else [])
    {
      if Has(a) {
        return false;
      }
      match a {
        case DoubleJump => hasDoubleJump := true;
        case Dash => hasDash := true;
        case WallPass => hasWallPass := true;
      }
      unlockEvents := unlockEvents + [a];
      changed := true;
    }

    /** Clears every flag; no event fires. */
    method ResetAll()
      modifies this
      ensures Unlocked() == {}
      ensures unlockEvents == old(unlockEvents)
    {
      hasDoubleJump := false;
      hasDash := false;
      hasWallPass := false;
    }
  }

  /**
   * Unlocking twice is unlocking once: the second call reports no change and
   * fires no second event. Flags only ever go from false to true.
   */
  method UnlockTwiceIsUnlockOnce(g: Abilities, a: Ability)
    modifies g
    ensures g.Has(a)
    ensures g.Unlocked() == old(g.Unlocked()) + {a}
    ensures old(g.Unlocked()) <= g.Unlocked()
    ensures g.unlockEvents == old(g.unlockEvents) + (if a in old(g.Unlocked()) then [] else [a])
  {
    var first := g.Unlock(a);
    var second := g.Unlock(a);
    assert !second;
  }
}
