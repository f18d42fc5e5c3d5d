/**
 * The ability-granting NPC (`NPCDialogueAbility`): the shared conversation
 * rules of `Dialogue`, without rewinding, plus one effect at the end of a
 * conversation: when `unlockAbilityOnFinish` is set and the player's
 * ability component was found, `Unlock(abilityToUnlock)` is called on it.
 */
module NpcDialogueAbility {
  import opened Wrappers
  import opened Dialogue
  import opened AbilitySystem

  class DialogueAbility {
    const cfg: DialogueConfig
    const unlockAbilityOnFinish: bool
    const abilityToUnlock: Ability

    var isPlayerNear: bool
    var isDialogueActive: bool
    var lineIndex: nat
    /** Whether `playerInput` holds a reference. */
    var hasInput: bool
    var panelShown: bool
    var promptShown: bool
    var text: string
    /** The player's `AbilitySystem`, taken from the collider on entry; null when absent or after exit. */
    var playerAbilities: Abilities?

    function State(): Talk
      reads this
    {
      Talk(isPlayerNear, isDialogueActive, lineIndex, hasInput, panelShown, promptShown, text)
    }

    ghost predicate Valid()
      reads this
    {
      Inv(cfg, State()) && (!isPlayerNear ==> playerAbilities == null)
    }

    /** Whether advancing now ends the conversation with an unlock. */
    predicate UnlocksOnAdvance()
      reads this
    {
      Finishes(cfg, State()) && unlockAbilityOnFinish && playerAbilities != null
    }

    /** The field initialisers (the inspector defaults are parameters) followed by `Start`. */
    constructor (c: DialogueConfig, unlockOnFinish: bool, ability: Ability)
      ensures cfg == c && unlockAbilityOnFinish == unlockOnFinish && abilityToUnlock == ability
      ensures State() == Initial() && playerAbilities == null && Valid()
    {
      cfg, unlockAbilityOnFinish, abilityToUnlock := c, unlockOnFinish, ability;
      isPlayerNear, isDialogueActive, lineIndex, hasInput := false, false, 0, false;
      panelShown, promptShown, text := false, false, "";
      playerAbilities := null;
    }

    /**
     * `Update`: the radius probe when triggers are off (`probe` and
     * `probeAbilities` describe the collider found), then the interact
     * key. The conversation follows `AfterUpdate`; the ability reference
     * is replaced on entry and cleared on exit; and exactly an update
     * that finishes the conversation, with unlocking on and a reference,
     * unlocks the ability on that reference.
     */
    method Update(probe: Option<bool>, probeAbilities: Abilities?, pressed: bool)
      modifies this, playerAbilities, probeAbilities
      ensures State() == AfterUpdate(cfg, old(State()), probe, pressed, false)
      ensures playerAbilities ==
                if !cfg.useTrigger && probe.Some? && !old(isPlayerNear) then probeAbilities
                else if !cfg.useTrigger && probe.None? && old(isPlayerNear) then null
                else old(playerAbilities)
      ensures var r := playerAbilities;
              UpdateFinishes(cfg, old(State()), probe, pressed) && unlockAbilityOnFinish && r != null ==>
                && r.Unlocked() == old(r.Unlocked()) + {abilityToUnlock}
                && r.unlockEvents == old(r.unlockEvents) + (if abilityToUnlock in old(r.Unlocked()) then [] else [abilityToUnlock])
      ensures !(UpdateFinishes(cfg, old(State()), probe, pressed) && unlockAbilityOnFinish && playerAbilities != null) ==>
                && (old(playerAbilities) != null ==> unchanged(old(playerAbilities)))
                && (probeAbilities != null ==> unchanged(probeAbilities))
    {
      if !cfg.useTrigger {
        if probe.Some? && !isPlayerNear {
          OnPlayerEnter(probe.value, probeAbilities);
        } else if probe.None? && isPlayerNear {
          OnPlayerExit();
        }
      }
      if !isPlayerNear || !hasInput {
        return;
      }
      if !isDialogueActive && pressed {
        ShowFirstLine();
      } else if isDialogueActive && pressed {
        Advance();
      }
    }

    method ShowFirstLine()
      modifies this
      ensures State() == AfterShowFirstLine(cfg, old(State()))
      ensures playerAbilities == old(playerAbilities)
    {
      lineIndex := 0;
      if cfg.panels.dialoguePanel && cfg.panels.dialogueText {
        panelShown, text := true, LineText(cfg.lines, lineIndex);
        isDialogueActive := true;
        if cfg.panels.interactPanel {
          promptShown := false;
        }
      }
    }

    /**
     * `Advance`: the next line, or the end of the conversation; at the end,
     * the ability is unlocked once on the player's component when unlocking
     * is on and the component was found.
     */
    method Advance()
      modifies this, playerAbilities
      ensures State() == AfterAdvance(cfg, old(State()), false)
      ensures playerAbilities == old(playerAbilities)
      ensures var r := playerAbilities;
              old(UnlocksOnAdvance()) ==>
                && r.Unlocked() == old(r.Unlocked()) + {abilityToUnlock}
                && r.unlockEvents == old(r.unlockEvents) + (if abilityToUnlock in old(r.Unlocked()) then [] else [abilityToUnlock])
      ensures !old(UnlocksOnAdvance()) && playerAbilities != null ==> unchanged(playerAbilities)
    {
      lineIndex := lineIndex + 1;
      if lineIndex < |cfg.lines| {
        if cfg.panels.dialogueText {
          text := cfg.lines[lineIndex];
        }
      } else {
        if cfg.panels.dialoguePanel {
          panelShown := false;
        }
        isDialogueActive := false;
        if unlockAbilityOnFinish && playerAbilities != null {
          var unlocked := playerAbilities.Unlock(abilityToUnlock);
        }
        if cfg.panels.interactPanel && isPlayerNear {
          promptShown := true;
        }
      }
    }

    /**
     * `OnTriggerEnter2D`: `hasPlayerInput` tells whether the collider
     * carries the player's input, `found` is its ability component.
     */
    method OnTriggerEnter(hasPlayerInput: bool, found: Abilities?)
      modifies this
      ensures State() == AfterTriggerEnter(cfg, old(State()), hasPlayerInput)
      ensures playerAbilities == if !cfg.useTrigger || !hasPlayerInput then old(playerAbilities) else found
    {
      if !cfg.useTrigger || !hasPlayerInput {
        return;
      }
      OnPlayerEnter(true, found);
    }

    method OnTriggerExit(hasPlayerInput: bool)
      modifies this
      ensures State() == AfterTriggerExit(cfg, old(State()), hasPlayerInput)
      ensures playerAbilities == if !cfg.useTrigger || !hasPlayerInput then old(playerAbilities) else null
    {
      if !cfg.useTrigger || !hasPlayerInput {
        return;
      }
      OnPlayerExit();
    }

    method OnPlayerEnter(inputFound: bool, found: Abilities?)
      modifies this
      ensures State() == AfterEnter(cfg.panels, old(State()), inputFound)
      ensures playerAbilities == found
    {
      isPlayerNear, hasInput, playerAbilities := true, inputFound, found;
      if !isDialogueActive && cfg.panels.interactPanel {
        promptShown := true;
      }
    }

    method OnPlayerExit()
      modifies this
      ensures State() == AfterExit(cfg.panels, old(State()))
      ensures playerAbilities == null
    {
      isPlayerNear, hasInput, playerAbilities := false, false, null;
      if cfg.panels.interactPanel {
        promptShown := false;
      }
      if cfg.panels.dialoguePanel {
        panelShown := false;
      }
      isDialogueActive, lineIndex := false, 0;
    }
  }

  /**
   * Talking a whole conversation through grants the ability: a player near
   * with their input and ability component, in front of a closed dialogue
   * whose widgets exist, presses interact once per line and once more;
   * afterwards the dialogue is closed and the ability is unlocked, however
   * many lines there are.
   */
  method TalkThrough(n: DialogueAbility, g: Abilities)
    requires n.Valid() && n.isPlayerNear && n.hasInput && !n.isDialogueActive && n.playerAbilities == g
    requires n.cfg.useTrigger && n.unlockAbilityOnFinish
    requires n.cfg.panels.dialoguePanel && n.cfg.panels.dialogueText
    modifies n, g
    ensures !n.isDialogueActive && n.isPlayerNear && n.Valid()
    ensures g.Unlocked() == old(g.Unlocked()) + {n.abilityToUnlock}
  {
    n.Update(None, null, true);
    while !Finishes(n.cfg, n.State())
      invariant n.Valid() && n.isPlayerNear && n.hasInput && n.playerAbilities == g
      invariant n.isDialogueActive
      invariant g.Unlocked() == old(g.Unlocked())
      decreases |n.cfg.lines| - n.lineIndex
    {
      ghost var s := n.State();
      n.Update(None, null, true);
      UpdateKeepsInv(n.cfg, s, None, true, false);
    }
    ghost var s := n.State();
    n.Update(None, null, true);
    UpdateKeepsInv(n.cfg, s, None, true, false);
  }
}
