/**
 * The conversation rules shared by the two NPC dialogue controllers
 * (`NPCDialogueAbility` and `NPCSmallTalk`): a player who comes near may
 * press interact to open the dialogue at its first line, each further press
 * shows the next line, and a press on the last line closes the dialogue.
 * Leaving closes everything and rewinds to line 0.
 *
 * The state of a controller is a `Talk` value; every handler is a function
 * from the old value to the new one, which the two classes follow field by
 * field. The two controllers differ only at the end of a conversation: the
 * small talk may rewind its index (`loopReset`), the ability NPC unlocks an
 * ability (see `Finishes`).
 */
module Dialogue {
  import opened Wrappers

  /** Which scene widgets were found by `Start` (assigned or looked up by name). */
  datatype Panels = Panels(dialoguePanel: bool, dialogueText: bool, interactPanel: bool)

  /**
   * The inspector settings. A null `lines` array behaves exactly as an
   * empty one in every branch, so the lines are a plain sequence.
   */
  datatype DialogueConfig = DialogueConfig(lines: seq<string>, panels: Panels, useTrigger: bool)

  /**
   * The fields of a controller: `isPlayerNear`, `isDialogueActive`,
   * `lineIndex`, whether the player's input component was found, whether
   * the dialogue panel and the "press E" prompt are shown, and the text in
   * the dialogue box.
   */
  datatype Talk = Talk(
    near: bool,
    active: bool,
    lineIndex: nat,
    hasInput: bool,
    panelShown: bool,
    promptShown: bool,
    text: string)

  /** After `Start`: nobody near, nothing shown. */
  function Initial(): (s: Talk)
    ensures !s.near && !s.active && s.lineIndex == 0 && !s.hasInput
    ensures !s.panelShown && !s.promptShown
  {
    Talk(false, false, 0, false, false, false, "")
  }

  /** The text of line `i`, or "" when there are no lines. */
  function LineText(lines: seq<string>, i: nat): string
  {
    if i < |lines| then lines[i] else ""
  }

  /**
   * What a controller keeps true between frames: nobody near means nothing
   * open, no input and index 0; an open dialogue has its panel and text box,
   * shows its panel and the text of the current line, and the current line
   * exists (or is line 0 of an empty dialogue).
   */
  ghost predicate Inv(c: DialogueConfig, s: Talk)
  {
    && (!s.near ==> !s.active && !s.hasInput && s.lineIndex == 0)
    && (s.active ==>
          && c.panels.dialoguePanel && c.panels.dialogueText && s.panelShown
          && (s.lineIndex < |c.lines| || s.lineIndex == 0)
          && s.text == LineText(c.lines, s.lineIndex))
  }

  // ---------------------------------------------------------------------
  // Handlers
  // ---------------------------------------------------------------------

  /** `OnPlayerEnter`: near, the input reference taken from the collider, the prompt shown unless talking. */
  function AfterEnter(p: Panels, s: Talk, inputFound: bool): Talk
  {
    s.(near := true, hasInput := inputFound,
       promptShown := if !s.active && p.interactPanel then true else s.promptShown)
  }

  /** `OnPlayerExit`: not near, no references, both panels hidden, closed, back to line 0. */
  function AfterExit(p: Panels, s: Talk): (r: Talk)
    ensures !r.near && !r.active && r.lineIndex == 0 && !r.hasInput
    ensures p.interactPanel ==> !r.promptShown
    ensures p.dialoguePanel ==> !r.panelShown
    ensures r.text == s.text
  {
    s.(near := false, hasInput := false,
       promptShown := if p.interactPanel then false else s.promptShown,
       panelShown := if p.dialoguePanel then false else s.panelShown,
       active := false, lineIndex := 0)
  }

  /**
   * `ShowFirstLine`: back to line 0; only with both the panel and the text
   * box does the dialogue open, showing line 0 (or "" without lines) and
   * hiding the prompt.
   */
  function AfterShowFirstLine(c: DialogueConfig, s: Talk): Talk
  {
    var p := c.panels;
    if p.dialoguePanel && p.dialogueText then
      s.(lineIndex := 0, panelShown := true, text := LineText(c.lines, 0), active := true,
         promptShown := if p.interactPanel then false else s.promptShown)
    else
      s.(lineIndex := 0)
  }

  /** Whether `Advance` from `s` runs past the last line. */
  predicate Finishes(c: DialogueConfig, s: Talk)
  {
    s.lineIndex + 1 >= |c.lines|
  }

  /**
   * `Advance`: the next line is shown when it exists; otherwise the
   * dialogue closes, its panel is hidden, the prompt comes back if the
   * player is still near, and the index is rewound when `loopReset`.
   */
  function AfterAdvance(c: DialogueConfig, s: Talk, loopReset: bool): Talk
  {
    var p := c.panels;
    var i := s.lineIndex + 1;
    if i < |c.lines| then
      s.(lineIndex := i, text := if p.dialogueText then c.lines[i] else s.text)
    else
      s.(lineIndex := if loopReset then 0 else i,
         panelShown := if p.dialoguePanel then false else s.panelShown,
         active := false,
         promptShown := if p.interactPanel && s.near then true else s.promptShown)
  }

  /** The interact part of `Update`: ignored unless near with an input, then open or advance on a press. */
  function AfterInteract(c: DialogueConfig, s: Talk, pressed: bool, loopReset: bool): Talk
  {
    if !s.near || !s.hasInput then s
    else if !s.active && pressed then AfterShowFirstLine(c, s)
    else if s.active && pressed then AfterAdvance(c, s, loopReset)
    else s
  }

  /**
   * The radius probe of `Update` when triggers are off: `probe` is the
   * collider found in the talk radius, `Some(inputFound)`, or `None`.
   */
  function AfterProbe(c: DialogueConfig, s: Talk, probe: Option<bool>): Talk
  {
    if c.useTrigger then s
    else if probe.Some? && !s.near then AfterEnter(c.panels, s, probe.value)
    else if probe.None? && s.near then AfterExit(c.panels, s)
    else s
  }

  /** One `Update`: the probe, then the interact key. */
  function AfterUpdate(c: DialogueConfig, s: Talk, probe: Option<bool>, pressed: bool, loopReset: bool): Talk
  {
    AfterInteract(c, AfterProbe(c, s, probe), pressed, loopReset)
  }

  /** Whether this `Update` advances past the last line. */
  predicate UpdateFinishes(c: DialogueConfig, s: Talk, probe: Option<bool>, pressed: bool)
  {
    var t := AfterProbe(c, s, probe);
    t.near && t.hasInput && t.active && pressed && Finishes(c, t)
  }

  /** `OnTriggerEnter2D`: only with triggers on, and only a collider carrying the player's input. */
  function AfterTriggerEnter(c: DialogueConfig, s: Talk, hasPlayerInput: bool): Talk
  {
    if !c.useTrigger || !hasPlayerInput then s else AfterEnter(c.panels, s, true)
  }

  /** `OnTriggerExit2D`: the same filter, then `OnPlayerExit`. */
  function AfterTriggerExit(c: DialogueConfig, s: Talk, hasPlayerInput: bool): Talk
  {
    if !c.useTrigger || !hasPlayerInput then s else AfterExit(c.panels, s)
  }

  // ---------------------------------------------------------------------
  // Properties
  // ---------------------------------------------------------------------

  /** The interact key does nothing unless the player is near and their input was found. */
  lemma InteractGate(c: DialogueConfig, s: Talk, pressed: bool, loopReset: bool)
    ensures (!s.near || !s.hasInput || !pressed) ==> AfterInteract(c, s, pressed, loopReset) == s
    ensures s.near && s.hasInput && pressed ==>
              AfterInteract(c, s, pressed, loopReset)
              == if s.active then AfterAdvance(c, s, loopReset) else AfterShowFirstLine(c, s)
  {
  }

  /**
   * Opening: the index is 0, and the dialogue is open exactly when it
   * already was or the panel and the text box exist; when it opens it
   * shows line 0, or "" when there are no lines.
   */
  lemma ShowFirstLineRule(c: DialogueConfig, s: Talk)
    ensures var r := AfterShowFirstLine(c, s);
            && r.lineIndex == 0
            && (r.active <==> s.active || (c.panels.dialoguePanel && c.panels.dialogueText))
            && (c.panels.dialoguePanel && c.panels.dialogueText ==>
                  r.panelShown && r.text == (if |c.lines| > 0 then c.lines[0] else ""))
            && (!(c.panels.dialoguePanel && c.panels.dialogueText) ==> r == s.(lineIndex := 0))
  {
  }

  /**
   * Advancing moves one line on: within range the dialogue stays open on
   * the new line; past the end it closes, and the prompt is shown again
   * when the player is near.
   */
  lemma AdvanceRule(c: DialogueConfig, s: Talk, loopReset: bool)
    requires c.panels.dialogueText
    ensures var r := AfterAdvance(c, s, loopReset);
            && (s.lineIndex + 1 < |c.lines| ==>
                  r.lineIndex == s.lineIndex + 1 && r.active == s.active && r.text == c.lines[r.lineIndex])
            && (s.lineIndex + 1 >= |c.lines| ==>
                  !r.active && (s.near && c.panels.interactPanel ==> r.promptShown)
                  && (c.panels.dialoguePanel ==> !r.panelShown)
                  && r.lineIndex == (if loopReset then 0 else s.lineIndex + 1))
  {
  }

  /** Every handler keeps the controller invariant. */
  lemma UpdateKeepsInv(c: DialogueConfig, s: Talk, probe: Option<bool>, pressed: bool, loopReset: bool)
    requires Inv(c, s)
    ensures Inv(c, AfterProbe(c, s, probe))
    ensures Inv(c, AfterUpdate(c, s, probe, pressed, loopReset))
  {
    var t := AfterProbe(c, s, probe);
    assert Inv(c, t);
    if t.near && t.hasInput && pressed && t.active {
      var r := AfterAdvance(c, t, loopReset);
      if t.lineIndex + 1 < |c.lines| {
        assert r.text == LineText(c.lines, r.lineIndex);
      }
    }
  }

  lemma TriggersKeepInv(c: DialogueConfig, s: Talk, hasPlayerInput: bool)
    requires Inv(c, s)
    ensures Inv(c, AfterTriggerEnter(c, s, hasPlayerInput))
    ensures Inv(c, AfterTriggerExit(c, s, hasPlayerInput))
  {
  }

  /** Only an update that finds an open dialogue on its last line, with the key pressed, finishes it. */
  lemma FinishCloses(c: DialogueConfig, s: Talk, probe: Option<bool>, pressed: bool, loopReset: bool)
    ensures UpdateFinishes(c, s, probe, pressed) ==> !AfterUpdate(c, s, probe, pressed, loopReset).active
    ensures AfterProbe(c, s, probe).active && !AfterUpdate(c, s, probe, pressed, loopReset).active
            ==> UpdateFinishes(c, s, probe, pressed) || (!c.useTrigger && probe.None?)
  {
  }

  /**
   * Two states an observer cannot tell apart: equal, or both closed and
   * equal except for the index. A closed dialogue's index is never shown
   * and the next opening resets it.
   */
  predicate Alike(s: Talk, t: Talk)
  {
    s == t || (!s.active && !t.active && s.(lineIndex := 0) == t.(lineIndex := 0))
  }

  /**
   * The small talk's `loopDialogue` flag changes nothing an observer can
   * see: from indistinguishable states, updates with and without the
   * rewind reach indistinguishable states again, and so do the trigger
   * handlers.
   */
  lemma LoopUnobservable(c: DialogueConfig, s: Talk, t: Talk, probe: Option<bool>, pressed: bool)
    requires Alike(s, t)
    ensures Alike(AfterUpdate(c, s, probe, pressed, true), AfterUpdate(c, t, probe, pressed, false))
    ensures forall h :: Alike(AfterTriggerEnter(c, s, h), AfterTriggerEnter(c, t, h))
    ensures forall h :: Alike(AfterTriggerExit(c, s, h), AfterTriggerExit(c, t, h))
  {
    var s1, t1 := AfterProbe(c, s, probe), AfterProbe(c, t, probe);
    assert Alike(s1, t1);
  }

  /** `n` consecutive interact presses with nothing else happening. */
  function Presses(c: DialogueConfig, s: Talk, n: nat, loopReset: bool): Talk
  {
    if n == 0 then s else AfterInteract(c, Presses(c, s, n - 1, loopReset), true, loopReset)
  }

  /**
   * A whole conversation: a player near with their input, in front of a
   * closed dialogue whose widgets exist, sees line k-1 after the k-th
   * press, for every line of a non-empty dialogue.
   */
  lemma {:induction false} ConversationLines(c: DialogueConfig, s: Talk, loopReset: bool, k: nat)
    requires s.near && s.hasInput && !s.active
    requires c.panels.dialoguePanel && c.panels.dialogueText
    requires 1 <= k <= |c.lines|
    ensures var r := Presses(c, s, k, loopReset);
            r.active && r.near && r.hasInput && r.lineIndex == k - 1 && r.text == c.lines[k - 1]
  {
    if k > 1 {
      ConversationLines(c, s, loopReset, k - 1);
    }
  }

  /** The press after the last line closes the conversation, and the prompt comes back. */
  lemma ConversationEnds(c: DialogueConfig, s: Talk, loopReset: bool)
    requires s.near && s.hasInput && !s.active
    requires c.panels.dialoguePanel && c.panels.dialogueText
    requires |c.lines| >= 1
    ensures var r := Presses(c, s, |c.lines| + 1, loopReset);
            !r.active && r.near && (c.panels.interactPanel ==> r.promptShown) && !r.panelShown
  {
    ConversationLines(c, s, loopReset, |c.lines|);
  }
}
