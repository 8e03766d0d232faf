/**
 * Modifier masks of keyboard events, the Orca-modifier test and the folding
 * of the held Orca modifier and of sticky modifiers into an event.
 *
 * A mask is the set of its bit positions: `m & k` is `m * k`, `m | k` is
 * `m + k`, and "no modifiers" is the empty set. Bit positions follow
 * Atspi.ModifierType (SHIFT = 0, SHIFTLOCK = 1, NUMLOCK = 14); Gdk's
 * MODIFIER_MASK is 0x5c001fff. The Orca modifier bit is the one
 * keybindings.py defines (bit 8); keybindings.py itself is not part of
 * this model.
 */
module Modifiers {

  import opened Wrappers

  type Mask = set<nat>

  const ShiftBit: nat := 0
  const ShiftLockBit: nat := 1
  const NumLockBit: nat := 14
  const OrcaModifierBit: nat := 8

  const OrcaModifierMask: Mask := {OrcaModifierBit}

  /** The bits of Gdk.ModifierType.MODIFIER_MASK = 0x5c001fff. */
  const GdkModifierMask: Mask := {0, 1, 2, 3, 4, 5, 6, 7, 8, 9, 10, 11, 12, 26, 27, 28, 30}

  /**
   * The modifiers a new keyboard event keeps: the Gdk modifier bits of the
   * raw mask, with the NumLock bit put back when the raw mask had it
   * (input_event.py:245-247).
   */
  function NormaliseModifiers(raw: Mask): (m: Mask)
    ensures m == raw * (GdkModifierMask + {NumLockBit})
    ensures NumLockBit in m <==> NumLockBit in raw
    ensures OrcaModifierBit in m <==> OrcaModifierBit in raw
  {
    var kept := raw * GdkModifierMask;
    if NumLockBit in raw then kept + {NumLockBit} else kept
  }

  /**
   * Whether a key whose keyval name is `keyvalName` is the Orca modifier,
   * given the names the Orca-modifier manager treats as Orca modifiers.
   * Keypad 0 reported with Shift stands for KP_Insert (input_event.py:579-585).
   */
  function IsOrcaModifier(keyvalName: string, modifiers: Mask, orcaNames: set<string>): (r: bool)
    ensures keyvalName != "KP_0" ==> (r <==> keyvalName in orcaNames)
    ensures ShiftBit !in modifiers ==> (r <==> keyvalName in orcaNames)
    ensures keyvalName == "KP_0" && ShiftBit in modifiers ==> (r <==> "KP_Insert" in orcaNames)
  {
    if keyvalName == "KP_0" && ShiftBit in modifiers then
      "KP_Insert" in orcaNames
    else
      keyvalName in orcaNames
  }

  /** Orca-modified: not the Orca modifier itself, but carrying the Orca bit (input_event.py:587-593). */
  function IsOrcaModified(keyvalName: string, modifiers: Mask, orcaNames: set<string>): (r: bool)
    ensures r <==> !IsOrcaModifier(keyvalName, modifiers, orcaNames) && OrcaModifierBit in modifiers
  {
    if IsOrcaModifier(keyvalName, modifiers, orcaNames) then false
    else OrcaModifierBit in modifiers
  }

  /** The class-level state KeyboardEvent keeps between events. */
  datatype ModifierState = ModifierState(orcaModifierPressed: bool, stickyModifiers: Mask)

  /** What the modifier folding needs to know about the event being built. */
  datatype ModifierInput = ModifierInput(
    isOrcaModifier: bool,               // isOrcaModifier() on the normalised modifiers
    isModifierKey: bool,                // the event was classified as a modifier key
    isDuplicate: bool,
    pressed: bool,
    modifiers: Mask,                    // the normalised modifiers of the event
    candidateModifiers: Option<Mask>)   // modifiers of the double-click candidate, if any

  /**
   * The accumulator once the second press of a double press has taken over
   * the whole modifier mask of a first press that carried the Orca bit
   * (input_event.py:318-324).
   */
  function CarriedSticky(s: ModifierState, stickyKeys: bool, e: ModifierInput): (sticky: Mask)
    ensures !stickyKeys || e.isOrcaModifier ==> sticky == s.stickyModifiers
    ensures sticky != s.stickyModifiers ==>
              e.candidateModifiers.Some? && sticky == e.candidateModifiers.value && OrcaModifierBit in sticky
    ensures stickyKeys && !e.isOrcaModifier && e.candidateModifiers.Some? && OrcaModifierBit in e.candidateModifiers.value ==>
              sticky == e.candidateModifiers.value
  {
    if stickyKeys && !e.isOrcaModifier && e.candidateModifiers.Some?
       && OrcaModifierBit in e.candidateModifiers.value
    then e.candidateModifiers.value
    else s.stickyModifiers
  }

  /** orcaModifierPressed after the event: set by a non-duplicate Orca-modifier key (input_event.py:330-333). */
  function OrcaPressedAfter(s: ModifierState, e: ModifierInput): (pressed: bool)
    ensures pressed != s.orcaModifierPressed ==>
              e.isOrcaModifier && e.isModifierKey && !e.isDuplicate && pressed == e.pressed
    ensures e.isOrcaModifier && e.isModifierKey && !e.isDuplicate ==> pressed == e.pressed
  {
    if e.isModifierKey && e.isOrcaModifier && !e.isDuplicate then e.pressed else s.orcaModifierPressed
  }

  /**
   * The effect of building one keyboard event on the modifier state, and the
   * event's final modifiers (input_event.py:318-324, 330-333, 353-367).
   */
  function ModifierStep(s: ModifierState, stickyKeys: bool, e: ModifierInput): (r: (ModifierState, Mask))
    ensures r.0.orcaModifierPressed == OrcaPressedAfter(s, e)
  {
    var sticky := CarriedSticky(s, stickyKeys, e);
    var orcaPressed := OrcaPressedAfter(s, e);
    var withOrca := if orcaPressed then e.modifiers + OrcaModifierMask else e.modifiers;
    var final := if stickyKeys then withOrca + sticky else withOrca;
    var sticky' := if !stickyKeys then sticky
                   else if e.isModifierKey then sticky + final
                   else {};
    (ModifierState(orcaPressed, sticky'), final)
  }

  /** The event keeps its own modifiers and carries the Orca bit while the Orca modifier is held. */
  lemma ModifierStepKeepsOwnBits(s: ModifierState, stickyKeys: bool, e: ModifierInput)
    ensures e.modifiers <= ModifierStep(s, stickyKeys, e).1
    ensures ModifierStep(s, stickyKeys, e).0.orcaModifierPressed ==>
              OrcaModifierBit in ModifierStep(s, stickyKeys, e).1
  {
  }

  /** Without sticky keys only the held Orca modifier is added, and the accumulator is untouched. */
  lemma ModifierStepWithoutStickyKeys(s: ModifierState, e: ModifierInput)
    ensures var r := ModifierStep(s, false, e);
            && r.0.stickyModifiers == s.stickyModifiers
            && r.1 == (if r.0.orcaModifierPressed then e.modifiers + OrcaModifierMask else e.modifiers)
  {
  }

  /**
   * With sticky keys the event carries the accumulator; a modifier key adds
   * its final modifiers to it and any other key clears it.
   */
  lemma ModifierStepWithStickyKeys(s: ModifierState, e: ModifierInput)
    ensures var r := ModifierStep(s, true, e);
            var carried := CarriedSticky(s, true, e);
            && carried <= r.1
            && r.1 == (if r.0.orcaModifierPressed then e.modifiers + OrcaModifierMask else e.modifiers) + carried
            && (e.isModifierKey ==> r.0.stickyModifiers == r.1)
            && (!e.isModifierKey ==> r.0.stickyModifiers == {})
  {
  }

  /**
   * Sticky keys: a modifier pressed and released, then a letter, gives the
   * letter the modifier's bits; the letter consumes them, so the next letter
   * carries only its own modifiers.
   */
  lemma StickyModifierSequence(s: ModifierState, shift: Mask, letterMods: Mask)
    requires s.stickyModifiers == {} && !s.orcaModifierPressed
    ensures var press := ModifierStep(s, true, ModifierInput(false, true, false, true, shift, None));
            var release := ModifierStep(press.0, true, ModifierInput(false, true, false, false, shift, None));
            var letter := ModifierStep(release.0, true, ModifierInput(false, false, false, true, letterMods, None));
            var next := ModifierStep(letter.0, true, ModifierInput(false, false, false, true, letterMods, None));
            && letter.1 == letterMods + shift
            && letter.0.stickyModifiers == {}
            && next.1 == letterMods
  {
  }
}
