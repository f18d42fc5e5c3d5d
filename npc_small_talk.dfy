/**
 * The small-talk NPC (`NPCSmallTalk`): the shared conversation rules of
 * `Dialogue`, with the `loopDialogue` option that rewinds the index when a
 * conversation ends. Every handler updates the controller's fields in
 * place and is specified by the matching `Dialogue` function.
 */
module NpcSmallTalk {
  import opened Wrappers
  import opened Dialogue

  class SmallTalk {
    const cfg: DialogueConfig
    const loopDialogue: bool

    var isPlayerNear: bool
    var isDialogueActive: bool
    var lineIndex: nat
    /** Whether `playerInput` holds a reference. */
    var hasInput: bool
    var panelShown: bool
    var promptShown: bool
    var text: string

    function State(): Talk
      reads this
    {
      Talk(isPlayerNear, isDialogueActive, lineIndex, hasInput, panelShown, promptShown, text)
    }

    ghost predicate Valid()
      reads this
    {
      Inv(cfg, State())
    }

    /** The field initialisers followed by `Start`, which hides both panels. */
    constructor (c: DialogueConfig, loop: bool)
      ensures cfg == c && loopDialogue == loop
      ensures State() == Initial() && Valid()
    {
      cfg, loopDialogue := c, loop;
      isPlayerNear, isDialogueActive, lineIndex, hasInput := false, false, 0, false;
      panelShown, promptShown, text := false, false, "";
    }

    /** `Update`: the radius probe when triggers are off, then the interact key. */
    method Update(probe: Option<bool>, pressed: bool)
      modifies this
      ensures State() == AfterUpdate(cfg, old(State()), probe, pressed, loopDialogue)
    {
      if !cfg.useTrigger {
        if probe.Some? && !isPlayerNear {
          OnPlayerEnter(probe.value);
        } else if probe.None? && isPlayerNear {
          OnPlayerExit();
        }
      }
      if !isPlayerNear || !hasInput {
        return;
      }
      if !isDialogueActive && pressed {
        ShowFirstLine();
      } else if isDialogueActive && pressed {
        Advance();
      }
    }

    method ShowFirstLine()
      modifies this
      ensures State() == AfterShowFirstLine(cfg, old(State()))
    {
      lineIndex := 0;
      if cfg.panels.dialoguePanel && cfg.panels.dialogueText {
        panelShown, text := true, LineText(cfg.lines, lineIndex);
        isDialogueActive := true;
        if cfg.panels.interactPanel {
          promptShown := false;
        }
      }
    }

    method Advance()
      modifies this
      ensures State() == AfterAdvance(cfg, old(State()), loopDialogue)
    {
      lineIndex := lineIndex + 1;
      if lineIndex < |cfg.lines| {
        if cfg.panels.dialogueText {
          text := cfg.lines[lineIndex];
        }
      } else {
        if cfg.panels.dialoguePanel {
          panelShown := false;
        }
        isDialogueActive := false;
        if loopDialogue {
          lineIndex := 0;
        }
        if cfg.panels.interactPanel && isPlayerNear {
          promptShown := true;
        }
      }
    }

    /** `OnTriggerEnter2D`: `hasPlayerInput` tells whether the collider carries the player's input. */
    method OnTriggerEnter(hasPlayerInput: bool)
      modifies this
      ensures State() == AfterTriggerEnter(cfg, old(State()), hasPlayerInput)
    {
      if !cfg.useTrigger || !hasPlayerInput {
        return;
      }
      OnPlayerEnter(true);
    }

    method OnTriggerExit(hasPlayerInput: bool)
      modifies this
      ensures State() == AfterTriggerExit(cfg, old(State()), hasPlayerInput)
    {
      if !cfg.useTrigger || !hasPlayerInput {
        return;
      }
      OnPlayerExit();
    }

    method OnPlayerEnter(inputFound: bool)
      modifies this
      ensures State() == AfterEnter(cfg.panels, old(State()), inputFound)
    {
      isPlayerNear, hasInput := true, inputFound;
      if !isDialogueActive && cfg.panels.interactPanel {
        promptShown := true;
      }
    }

    method OnPlayerExit()
      modifies this
      ensures State() == AfterExit(cfg.panels, old(State()))
    {
      isPlayerNear, hasInput := false, false;
      if cfg.panels.interactPanel {
        promptShown := false;
      }
      if cfg.panels.dialoguePanel {
        panelShown := false;
      }
      isDialogueActive, lineIndex := false, 0;
    }
  }

  /**
   * A frame keeps the controller valid, and whether the dialogue loops is
   * invisible: the same frame on a controller that does not loop ends in
   * a state indistinguishable from this one's.
   */
  method Frame(n: SmallTalk, probe: Option<bool>, pressed: bool)
    requires n.Valid()
    modifies n
    ensures n.Valid()
    ensures Alike(n.State(), AfterUpdate(n.cfg, old(n.State()), probe, pressed, false))
  {
    ghost var s := n.State();
    n.Update(probe, pressed);
    UpdateKeepsInv(n.cfg, s, probe, pressed, n.loopDialogue);
    LoopUnobservable(n.cfg, s, s, probe, pressed);
  }
}
