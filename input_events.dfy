/**
 * Keyboard, braille and mouse-button input events (input_event.py) and the
 * session state they share: the two history slots of orca_state, the
 * class-level state of KeyboardEvent (held Orca modifier, sticky
 * modifiers, duplicate counter, sticky keys), key capturing, the queue of
 * deferred `_consume` calls and a trace of what the events ask of their
 * scripts and handlers.
 *
 * The focus manager, script manager and pointer come in as values: the
 * active script, the active window, the focus object, the Orca-modifier
 * key names and the pointer position.
 */
module InputEvents {

  import opened Wrappers
  import opened Modifiers
  import opened KeyClassifier
  import opened ClickCounting
  import opened Handlers
  import opened LearnMode

  /** A script, by the parts this layer reads. */
  class Script {
    const scriptModule: string
    const name: string
    const brailleBindings: map<int, InputEventHandler>
    const learnModePresenter: LearnModePresenter
    const view: ScriptView

    constructor (scriptModule: string, name: string, brailleBindings: map<int, InputEventHandler>,
                 learnModePresenter: LearnModePresenter, view: ScriptView)
      ensures this.scriptModule == scriptModule && this.name == name && this.brailleBindings == brailleBindings
      ensures this.learnModePresenter == learnModePresenter && this.view == view
    {
      this.scriptModule := scriptModule;
      this.name := name;
      this.brailleBindings := brailleBindings;
      this.learnModePresenter := learnModePresenter;
      this.view := view;
    }
  }

  /** orca_state.lastInputEvent: nothing yet, or an event of one of the three kinds. */
  datatype LastEvent =
    | NoEvent
    | KeyEvent(key: KeyboardEvent)
    | BrailleEv(braille: BrailleEvent)
    | MouseEv(mouse: MouseButtonEvent)

  /** What the events ask of scripts, handlers and the Orca-modifier manager, in order. */
  datatype SessionEffect =
    | PresentationInterrupt
    | PresentKeyboardEvent(key: KeyboardEvent)
    | ToggleOrcaModifier(key: KeyboardEvent)
    | HandlerCall(callback: Callable, key: KeyboardEvent)
    | BrailleHandlerCall(callback: Callable, braille: BrailleEvent)

  /** The state shared by all input events. */
  class Session {
    var lastInputEvent: LastEvent
    var lastNonModifierKeyEvent: Option<KeyboardEvent>
    var orcaModifierPressed: bool
    var orcaStickyModifiers: Mask
    var duplicateCount: nat
    const stickyKeys: bool
    var capturingKeys: bool
    /** Keyboard events whose `_consume` GLib will run, oldest first. */
    var pending: seq<KeyboardEvent>
    var trace: seq<SessionEffect>

    /** The state at start-up; sticky keys is read once from the X server. */
    constructor (stickyKeys: bool)
      ensures lastInputEvent == NoEvent && lastNonModifierKeyEvent.None?
      ensures !orcaModifierPressed && orcaStickyModifiers == {} && duplicateCount == 0
      ensures this.stickyKeys == stickyKeys && !capturingKeys && pending == [] && trace == []
    {
      lastInputEvent := NoEvent;
      lastNonModifierKeyEvent := None;
      orcaModifierPressed := false;
      orcaStickyModifiers := {};
      duplicateCount := 0;
      this.stickyKeys := stickyKeys;
      capturingKeys := false;
      pending := [];
      trace := [];
    }

    function ModifierState(): ModifierState
      reads this
    {
      Modifiers.ModifierState(orcaModifierPressed, orcaStickyModifiers)
    }

    /** The class-level updates a new keyboard event makes: the duplicate counter and the modifier state. */
    method SetKeyboardState(duplicates: nat, s: ModifierState)
      modifies this
      ensures duplicateCount == duplicates && ModifierState() == s
      ensures lastInputEvent == old(lastInputEvent) && lastNonModifierKeyEvent == old(lastNonModifierKeyEvent)
      ensures capturingKeys == old(capturingKeys) && pending == old(pending) && trace == old(trace)
    {
      duplicateCount := duplicates;
      orcaModifierPressed, orcaStickyModifiers := s.orcaModifierPressed, s.stickyModifiers;
    }

    /**
     * One turn of the GLib main loop: the oldest deferred `_consume` runs
     * (input_event.py:845, 851-881); GLib drops it since it returns False.
     */
    method RunNextTask(focusAfter: Option<ObjId>, activeScript: Option<Script>, isDesktop: bool) returns (r: Option<Outcome>)
      modifies this, if pending != [] then {pending[0]} else {}
      modifies if pending != [] && pending[0].consumer.Some? then {pending[0].consumer.value} else {}
      ensures old(pending) == [] ==> r.None? && pending == [] && trace == old(trace)
      ensures old(pending) != [] ==> r.Some? && pending == old(pending)[1..]
      ensures old(pending) != [] && r.Some? && r.value.Returned? ==> old(pending)[0].objAfterConsuming == focusAfter
      ensures lastInputEvent == old(lastInputEvent) && lastNonModifierKeyEvent == old(lastNonModifierKeyEvent)
      ensures ModifierState() == old(ModifierState()) && duplicateCount == old(duplicateCount)
      ensures capturingKeys == old(capturingKeys)
    {
      if pending == [] {
        return None;
      }
      var e := pending[0];
      pending := pending[1..];
      var o := e.Consume(this, focusAfter, activeScript, isDesktop);
      return Some(o);
    }
  }

  /** The reasons `_process` gives (input_event.py:817-849). */
  datatype Reason =
    | IsDuplicate | NoActiveScript | CapturingKeys | OrcaModifier | NoConsumerOrHandler
    | WillBeConsumed | ReleaseForConsumedHandler | UnaddressedCase

  function ReasonText(r: Reason): string {
    match r
    case IsDuplicate => "Is duplicate"
    case NoActiveScript => "No active script"
    case CapturingKeys => "Capturing keys"
    case OrcaModifier => "Orca modifier"
    case NoConsumerOrHandler => "No consumer or handler"
    case WillBeConsumed => "Will be consumed"
    case ReleaseForConsumedHandler => "Is release for consumed handler"
    case UnaddressedCase => "Unaddressed case"
  }

  /**
   * The decision table of `_process` (input_event.py:817-849), on what it
   * tests: whether the event is consumed, and why.
   */
  function Decide(isDuplicate: bool, hasScript: bool, capturing: bool, isOrcaModifier: bool,
                  hasConsumer: bool, hasHandler: bool, handlerActive: bool, pressed: bool): (r: (bool, Reason))
    ensures r.0 <==> !isDuplicate && hasScript && !capturing &&
                     (isOrcaModifier || hasConsumer || (hasHandler && handlerActive))
    ensures r.1 == WillBeConsumed ==> r.0 && pressed && (hasConsumer || (hasHandler && handlerActive))
    ensures r.1 == UnaddressedCase <==>
              !isDuplicate && hasScript && !capturing && !isOrcaModifier && !hasConsumer && hasHandler && !handlerActive
    // The reason given, check by check in the order the source makes them.
    ensures isDuplicate ==> r == (false, IsDuplicate)
    ensures !isDuplicate && !hasScript ==> r == (false, NoActiveScript)
    ensures !isDuplicate && hasScript && capturing ==> r == (false, CapturingKeys)
    ensures !isDuplicate && hasScript && !capturing && isOrcaModifier ==> r == (true, OrcaModifier)
    ensures !isDuplicate && hasScript && !capturing && !isOrcaModifier && !hasConsumer && !hasHandler ==>
              r == (false, NoConsumerOrHandler)
    ensures !isDuplicate && hasScript && !capturing && !isOrcaModifier && (hasConsumer || (hasHandler && handlerActive)) ==>
              r == (true, if pressed then WillBeConsumed else ReleaseForConsumedHandler)
  {
    if isDuplicate then (false, IsDuplicate)
    else if !hasScript then (false, NoActiveScript)
    else if capturing then (false, CapturingKeys)
    else if isOrcaModifier then (true, OrcaModifier)
    else if !(hasConsumer || hasHandler) then (false, NoConsumerOrHandler)
    else if hasConsumer || handlerActive then
      (if pressed then (true, WillBeConsumed) else (true, ReleaseForConsumedHandler))
    else (false, UnaddressedCase)
  }

  /**
   * Only a consumed press is deferred to `_consume`; a release the table
   * consumes is the release of a consumed key.
   */
  lemma DecideDefersOnlyPresses(isDuplicate: bool, hasScript: bool, capturing: bool, isOrcaModifier: bool,
                                hasConsumer: bool, hasHandler: bool, handlerActive: bool, pressed: bool)
    ensures var r := Decide(isDuplicate, hasScript, capturing, isOrcaModifier, hasConsumer, hasHandler, handlerActive, pressed);
            (r.1 == WillBeConsumed <==> r.0 && pressed && !isOrcaModifier)
            && (r.1 == ReleaseForConsumedHandler <==> r.0 && !pressed && !isOrcaModifier)
  {
  }

  /** An event is a keyboard event with the same type, hardware code and timestamp (input_event.py:408-415). */
  predicate SameKeyEvent(pressed: bool, hwCode: int, timestamp: int, other: LastEvent) {
    other.KeyEvent? && other.key.pressed == pressed && other.key.hwCode == hwCode && other.key.timestamp == timestamp
  }

  function AsLastEvent(e: Option<KeyboardEvent>): LastEvent {
    if e.Some? then KeyEvent(e.value) else NoEvent
  }

  /**
   * The double-click candidate (input_event.py:369-378): the last
   * non-modifier key event for a non-modifier key, the last input event for
   * a modifier key, if it is a keyboard event with the same text at most
   * `timeout` older.
   */
  function DoubleClickCandidate(lastInput: LastEvent, lastNonModifier: Option<KeyboardEvent>, isModifier: bool,
                                text: string, time: int, timeout: int): (c: Option<KeyboardEvent>)
    ensures c.Some? ==> c.value.eventString == text && time - c.value.time <= timeout
    ensures c.Some? ==> if isModifier then lastInput == KeyEvent(c.value) else lastNonModifier == c
    ensures c.None? && !isModifier && lastNonModifier.Some? ==>
              !QualifiesAsCandidate(lastNonModifier.value.eventString, lastNonModifier.value.time, text, time, timeout)
    ensures c.None? && isModifier && lastInput.KeyEvent? ==>
              !QualifiesAsCandidate(lastInput.key.eventString, lastInput.key.time, text, time, timeout)
  {
    var last := if !isModifier then lastNonModifier
                else if lastInput.KeyEvent? then Some(lastInput.key) else None;
    if last.Some? && QualifiesAsCandidate(last.value.eventString, last.value.time, text, time, timeout) then last else None
  }

  /** What setClickCount reads of a candidate. */
  function ViewOf(c: Option<KeyboardEvent>): Option<CandidateView>
    reads if c.Some? then {c.value} else {}
  {
    if c.Some? then Some(CandidateView(c.value.clickCount, c.value.obj, c.value.objAfterConsuming)) else None
  }

  /** The modifiers of a candidate, if any. */
  function ModifiersOf(c: Option<KeyboardEvent>): Option<Mask>
    reads if c.Some? then {c.value} else {}
  {
    if c.Some? then Some(c.value.modifiers) else None
  }

  /**
   * _isReleaseForLastNonModifierKeyEvent (input_event.py:464-475), for a
   * new event not yet folded: a release of the same keysym and hardware
   * code as a pressed last non-modifier key event, with the same modifiers.
   */
  function IsReleaseForLast(pressed: bool, id: int, hwCode: int, modifiers: Mask, last: Option<KeyboardEvent>): (r: bool)
    reads if last.Some? then {last.value} else {}
    ensures last.None? || pressed ==> !r
    ensures r ==> last.value.pressed && last.value.id == id && last.value.hwCode == hwCode && last.value.modifiers == modifiers
    ensures (last.Some? && last.value.pressed && !pressed && last.value.id == id && last.value.hwCode == hwCode &&
             last.value.modifiers == modifiers) ==> r
  {
    last.Some? && last.value.pressed && !pressed
    && last.value.id == id && last.value.hwCode == hwCode && modifiers == last.value.modifiers
  }

  /** A raw key notification. */
  datatype RawKey = RawKey(pressed: bool, keycode: int, keysym: int, modifiers: Mask, text: string,
                           keyvalName: string, time: int, timestamp: int)

  /** What the managers and settings tell a new keyboard event. */
  datatype KeyContext = KeyContext(activeScript: Option<Script>, activeWindow: Option<ObjId>, focus: Option<ObjId>,
                                   orcaNames: set<string>, cc: CharClasses, doubleClickTimeout: int)

  class KeyboardEvent {
    const id: int
    const hwCode: int
    const pressed: bool
    const keyvalName: string
    const eventString: string
    const time: int
    const timestamp: int
    const isDuplicate: bool
    const isKpWithNumlock: bool
    const orcaNames: set<string>
    const cc: CharClasses
    const script: Option<Script>
    const window: Option<ObjId>
    const obj: Option<ObjId>
    var modifiers: Mask
    var keyType: KeyType
    var clickCount: nat
    var objAfterConsuming: Option<ObjId>
    var handler: Option<InputEventHandler>
    var consumer: Option<LearnModePresenter>
    var didConsume: Option<bool>
    var resultReason: Option<Reason>

    /** isOrcaModifier (input_event.py:579-585) on the current modifiers. */
    predicate IsOrcaModifierKey()
      reads this
    {
      IsOrcaModifier(keyvalName, modifiers, orcaNames)
    }

    /** __eq__ (input_event.py:408-415). */
    function Equals(other: LastEvent): (r: bool)
      ensures other == KeyEvent(this) ==> r
      ensures r ==> other.KeyEvent? && other.key.pressed == pressed
    {
      SameKeyEvent(pressed, hwCode, timestamp, other)
    }

    /**
     * isReleaseFor (input_event.py:477-492): this is a release and `other` a
     * press of the same key, with the same modifiers, text, tag and count.
     */
    function IsReleaseFor(other: Option<KeyboardEvent>): (r: bool)
      reads this, if other.Some? then {other.value} else {}
      ensures r ==> other.Some? && other.value != this && other.value.pressed && !pressed
      ensures r ==> IsReleaseForLast(pressed, id, hwCode, modifiers, other)
    {
      other.Some? && other.value.pressed && !pressed
      && id == other.value.id && hwCode == other.value.hwCode && modifiers == other.value.modifiers
      && eventString == other.value.eventString && keyvalName == other.value.keyvalName
      && keyType == other.value.keyType && clickCount == other.value.clickCount
    }

    /** What learn mode reads of this event. */
    function View(): KeyEventView
      reads this
    {
      KeyEventView(eventString, modifiers, clickCount, IsPrintableKey(eventString, cc), handler)
    }

    /**
     * The constructor (input_event.py:227-367): normalises modifiers and
     * text, detects a duplicate of either history slot, takes its script,
     * window and focus from the managers (a press), from the press it
     * releases, or from the managers again; counts duplicates; classifies;
     * counts clicks; and folds the held Orca modifier and sticky modifiers
     * into its modifiers.
     */
    constructor (session: Session, raw: RawKey, ctx: KeyContext)
      modifies session
      ensures id == raw.keysym && hwCode == raw.keycode && pressed == raw.pressed && keyvalName == raw.keyvalName
      ensures time == raw.time && timestamp == raw.timestamp && orcaNames == ctx.orcaNames && cc == ctx.cc
      ensures eventString == NormaliseText(raw.text, raw.keyvalName, raw.keysym)
      ensures isDuplicate == (Equals(old(session.lastInputEvent)) || Equals(AsLastEvent(old(session.lastNonModifierKeyEvent))))
      ensures isKpWithNumlock == (StartsWith(keyvalName, "KP") && NumLockBit in NormaliseModifiers(raw.modifiers))
      ensures session.duplicateCount == if isDuplicate then old(session.duplicateCount) + 1 else 0
      ensures keyType == Classify(eventString, IsOrcaModifier(keyvalName, NormaliseModifiers(raw.modifiers), orcaNames), cc)
      ensures var kt := keyType; var es := eventString;
              clickCount == KeyClickCount(old(ViewOf(DoubleClickCandidate(session.lastInputEvent, session.lastNonModifierKeyEvent,
                                                                          kt == Modifier, es, raw.time, ctx.doubleClickTimeout))),
                                          isDuplicate, pressed)
      ensures var mods := NormaliseModifiers(raw.modifiers);
              var isOrca := IsOrcaModifier(raw.keyvalName, mods, ctx.orcaNames);
              var es := eventString;
              var first := old(ModifiersOf(DoubleClickCandidate(session.lastInputEvent, session.lastNonModifierKeyEvent,
                                                                Matches(Modifier, es, isOrca, ctx.cc), es, raw.time,
                                                                ctx.doubleClickTimeout)));
              var step := ModifierStep(old(session.ModifierState()), session.stickyKeys,
                                       ModifierInput(isOrca, keyType == Modifier, isDuplicate, pressed, mods, first));
              session.ModifierState() == step.0 && modifiers == step.1
      ensures var releasesLast := old(IsReleaseForLast(raw.pressed, raw.keysym, raw.keycode, NormaliseModifiers(raw.modifiers),
                                                       session.lastNonModifierKeyEvent));
              if releasesLast then
                var last := old(session.lastNonModifierKeyEvent.value);
                script == last.script && window == last.window && obj == last.obj
                && objAfterConsuming == old(last.objAfterConsuming)
              else
                script == ctx.activeScript && window == ctx.activeWindow && obj == ctx.focus
                && objAfterConsuming == (if pressed then None else ctx.focus)
      ensures handler.None? && consumer.None? && didConsume.None? && resultReason.None?
      ensures session.lastInputEvent == old(session.lastInputEvent)
              && session.lastNonModifierKeyEvent == old(session.lastNonModifierKeyEvent)
              && session.capturingKeys == old(session.capturingKeys)
              && session.pending == old(session.pending) && session.trace == old(session.trace)
    {
      // Everything the history and the class-level state decide, read before any update.
      var mods := NormaliseModifiers(raw.modifiers);
      var es := NormaliseText(raw.text, raw.keyvalName, raw.keysym);
      var isOrca := IsOrcaModifier(raw.keyvalName, mods, ctx.orcaNames);
      var kt := Classify(es, isOrca, ctx.cc);
      var dup := SameKeyEvent(raw.pressed, raw.keycode, raw.timestamp, session.lastInputEvent)
                 || SameKeyEvent(raw.pressed, raw.keycode, raw.timestamp, AsLastEvent(session.lastNonModifierKeyEvent));
      var releasesLast := IsReleaseForLast(raw.pressed, raw.keysym, raw.keycode, mods, session.lastNonModifierKeyEvent);
      // The sticky copy looks for a candidate before the tag is cached.
      var first := ModifiersOf(DoubleClickCandidate(session.lastInputEvent, session.lastNonModifierKeyEvent,
                                                    Matches(Modifier, es, isOrca, ctx.cc), es, raw.time, ctx.doubleClickTimeout));
      var step := ModifierStep(session.ModifierState(), session.stickyKeys,
                               ModifierInput(isOrca, kt == Modifier, dup, raw.pressed, mods, first));
      var count := KeyClickCount(ViewOf(DoubleClickCandidate(session.lastInputEvent, session.lastNonModifierKeyEvent,
                                                             kt == Modifier, es, raw.time, ctx.doubleClickTimeout)),
                                 dup, raw.pressed);
      var duplicates := if dup then session.duplicateCount + 1 else 0;

      id, hwCode, pressed, keyvalName, eventString := raw.keysym, raw.keycode, raw.pressed, raw.keyvalName, es;
      time, timestamp, isDuplicate, orcaNames, cc := raw.time, raw.timestamp, dup, ctx.orcaNames, ctx.cc;
      isKpWithNumlock := StartsWith(raw.keyvalName, "KP") && NumLockBit in mods;
      // Context: from the press being released, or else from the managers.
      if releasesLast {
        var last := session.lastNonModifierKeyEvent.value;
        script, window, obj, objAfterConsuming := last.script, last.window, last.obj, last.objAfterConsuming;
      } else {
        script, window, obj := ctx.activeScript, ctx.activeWindow, ctx.focus;
        objAfterConsuming := if raw.pressed then None else ctx.focus;
      }
      keyType, clickCount, modifiers := kt, count, step.1;
      handler, consumer, didConsume, resultReason := None, None, None, None;
      new;
      session.SetKeyboardState(duplicates, step.0);
    }

    /**
     * setClickCount (input_event.py:380-406): the count KeyClickCount gives
     * for the double-click candidate the history offers.
     */
    method SetClickCount(session: Session, doubleClickTimeout: int)
      modifies this
      ensures clickCount == KeyClickCount(old(ViewOf(DoubleClickCandidate(session.lastInputEvent, session.lastNonModifierKeyEvent,
                                                                          keyType == Modifier, eventString, time, doubleClickTimeout))),
                                          isDuplicate, pressed)
      ensures modifiers == old(modifiers) && keyType == old(keyType) && objAfterConsuming == old(objAfterConsuming)
      ensures handler == old(handler) && consumer == old(consumer)
      ensures didConsume == old(didConsume) && resultReason == old(resultReason)
    {
      var candidate := DoubleClickCandidate(session.lastInputEvent, session.lastNonModifierKeyEvent,
                                            keyType == Modifier, eventString, time, doubleClickTimeout);
      clickCount := KeyClickCount(ViewOf(candidate), isDuplicate, pressed);
    }

    /** The handler counts as active: it has a function and is enabled (input_event.py:843, 861). */
    function HandlerActive(): (r: bool)
      reads this, if handler.Some? then {handler.value} else {}
      ensures r ==> handler.Some? && handler.value.IsEnabled() && handler.value.callback.Some?
    {
      handler.Some? && handler.value.callback.Some? && handler.value.enabled
    }

    /**
     * What the history step of `_process` adds to the trace: the lock toggle
     * of an Orca modifier pressed twice (input_event.py:820-822).
     */
    function ToggleEffects(): seq<SessionEffect>
      reads this
    {
      if IsOrcaModifierKey() && clickCount == 2 then [ToggleOrcaModifier(this)] else []
    }

    /**
     * The key type after the history step of `_process`: a twice-pressed
     * Orca modifier that is Caps_Lock or Shift_Lock becomes locking
     * (input_event.py:823-824).
     */
    function TypeAfterToggle(): KeyType
      reads this
    {
      if IsOrcaModifierKey() && clickCount == 2 && keyvalName in ["Caps_Lock", "Shift_Lock"] then Locking else keyType
    }

    /** What `_present` adds to the trace, when there is a script (input_event.py:721-728). */
    function PresentEffects(): seq<SessionEffect>
      reads this, if script.Some? then {script.value.learnModePresenter} else {}
    {
      if script.None? then []
      else
        (if pressed then [PresentationInterrupt] else [])
        + (if !script.value.learnModePresenter.isActive then [PresentKeyboardEvent(this)] else [])
    }

    /** The non-modifier history slot after `_process`. */
    function NonModifierSlotAfter(slot: Option<KeyboardEvent>): Option<KeyboardEvent>
      reads this
    {
      if keyType != Modifier then Some(this) else slot
    }

    /**
     * The history step of `_process` (input_event.py:820-829): an Orca
     * modifier pressed twice toggles its lock, and a Caps_Lock or Shift_Lock
     * one is retagged as locking; the event becomes the last input event, and
     * the last non-modifier key event unless it is (still) a modifier.
     */
    method RecordInHistory(session: Session)
      modifies this, session
      ensures keyType == old(TypeAfterToggle()) && session.trace == old(session.trace) + old(ToggleEffects())
      ensures session.lastInputEvent == KeyEvent(this)
      ensures session.lastNonModifierKeyEvent == NonModifierSlotAfter(old(session.lastNonModifierKeyEvent))
      ensures modifiers == old(modifiers) && clickCount == old(clickCount) && handler == old(handler)
      ensures consumer == old(consumer) && objAfterConsuming == old(objAfterConsuming)
      ensures didConsume == old(didConsume) && resultReason == old(resultReason)
      ensures session.pending == old(session.pending) && session.capturingKeys == old(session.capturingKeys)
      ensures session.ModifierState() == old(session.ModifierState()) && session.duplicateCount == old(session.duplicateCount)
    {
      if IsOrcaModifierKey() && clickCount == 2 {
        session.trace := session.trace + [ToggleOrcaModifier(this)];
        if keyvalName in ["Caps_Lock", "Shift_Lock"] {
          keyType := Locking;
        }
      }
      session.lastInputEvent := KeyEvent(this);
      if keyType != Modifier {
        session.lastNonModifierKeyEvent := Some(this);
      }
    }

    /**
     * _present (input_event.py:721-728): a press interrupts the
     * presentation, and the script presents the event unless learn mode is
     * active.
     */
    method Present(session: Session)
      requires script.Some?
      modifies session
      ensures session.trace == old(session.trace) + PresentEffects()
      ensures session.lastInputEvent == old(session.lastInputEvent)
      ensures session.lastNonModifierKeyEvent == old(session.lastNonModifierKeyEvent)
      ensures session.pending == old(session.pending) && session.capturingKeys == old(session.capturingKeys)
      ensures session.ModifierState() == old(session.ModifierState()) && session.duplicateCount == old(session.duplicateCount)
    {
      if pressed {
        session.trace := session.trace + [PresentationInterrupt];
      }
      if !script.value.learnModePresenter.isActive {
        session.trace := session.trace + [PresentKeyboardEvent(this)];
      }
    }

    /**
     * _process (input_event.py:814-849). A duplicate changes nothing.
     * Otherwise the event enters the history, is presented when there is a
     * script, and Decide's table answers; a press it consumes is queued for
     * `_consume`.
     */
    method ProcessEvent(session: Session) returns (r: (bool, Reason))
      modifies this, session
      ensures r == Decide(isDuplicate, script.Some?, old(session.capturingKeys), IsOrcaModifierKey(),
                          consumer.Some?, handler.Some?, HandlerActive(), pressed)
      ensures isDuplicate ==>
                keyType == old(keyType) && session.lastInputEvent == old(session.lastInputEvent)
                && session.lastNonModifierKeyEvent == old(session.lastNonModifierKeyEvent)
                && session.trace == old(session.trace)
      ensures !isDuplicate ==>
                && session.lastInputEvent == KeyEvent(this)
                && session.lastNonModifierKeyEvent == NonModifierSlotAfter(old(session.lastNonModifierKeyEvent))
                && keyType == old(TypeAfterToggle())
                && session.trace == old(session.trace) + old(ToggleEffects()) + old(PresentEffects())
      ensures session.pending == old(session.pending) + (if r.1 == WillBeConsumed then [this] else [])
      ensures modifiers == old(modifiers) && clickCount == old(clickCount) && handler == old(handler)
      ensures consumer == old(consumer) && objAfterConsuming == old(objAfterConsuming)
      ensures didConsume == old(didConsume) && resultReason == old(resultReason)
      ensures session.ModifierState() == old(session.ModifierState()) && session.duplicateCount == old(session.duplicateCount)
      ensures session.capturingKeys == old(session.capturingKeys)
    {
      if isDuplicate {
        return (false, IsDuplicate);
      }
      RecordInHistory(session);
      if script.Some? {
        Present(session);
      }
      r := Decide(false, script.Some?, session.capturingKeys, IsOrcaModifierKey(),
                  consumer.Some?, handler.Some?, HandlerActive(), pressed);
      if r.1 == WillBeConsumed {
        session.pending := session.pending + [this];
      }
    }

    /**
     * The set-up of `process` when there is a script (input_event.py:793-800):
     * the chosen handler is installed and an active learn mode becomes the
     * consumer; nothing `_process` reads about the key changes.
     */
    method SelectHandler(chosen: Option<InputEventHandler>)
      requires script.Some?
      modifies this
      ensures handler == chosen
      ensures consumer == (if script.value.learnModePresenter.isActive then Some(script.value.learnModePresenter) else old(consumer))
      ensures keyType == old(keyType) && modifiers == old(modifiers) && clickCount == old(clickCount)
      ensures objAfterConsuming == old(objAfterConsuming) && didConsume == old(didConsume) && resultReason == old(resultReason)
      ensures TypeAfterToggle() == old(TypeAfterToggle()) && ToggleEffects() == old(ToggleEffects())
      ensures PresentEffects() == old(PresentEffects())
    {
      handler := chosen;
      if script.value.learnModePresenter.isActive {
        consumer := Some(script.value.learnModePresenter);
      }
    }

    /**
     * process (input_event.py:767-812). The handler is the user's one
     * (UserKeyHandler over `userHandlers`) or else the one the script's key
     * bindings find (`scriptHandler`); an active learn mode becomes the
     * consumer; `_process` decides. Without a script the user lookup falls
     * back to "default" and the script is then dereferenced, which raises.
     */
    method Process(session: Session, userHandlers: map<string, Option<InputEventHandler>>,
                   scriptHandler: Option<InputEventHandler>) returns (r: Outcome)
      modifies this, session
      ensures script.None? ==>
                r == Raised
                && handler == (if UserKeyHandler(userHandlers, None).Some? then UserKeyHandler(userHandlers, None) else old(handler))
                && session.lastInputEvent == old(session.lastInputEvent)
                && session.lastNonModifierKeyEvent == old(session.lastNonModifierKeyEvent)
                && session.pending == old(session.pending) && session.trace == old(session.trace) && keyType == old(keyType)
                && consumer == old(consumer) && didConsume == old(didConsume) && resultReason == old(resultReason)
      ensures script.Some? ==>
                var user := UserKeyHandler(userHandlers, Some(script.value.scriptModule));
                && handler == (if user.Some? then user else scriptHandler)
                && consumer == (if script.value.learnModePresenter.isActive then Some(script.value.learnModePresenter) else old(consumer))
                && didConsume.Some? && resultReason.Some? && r == Returned(didConsume.value)
                && (didConsume.value, resultReason.value) ==
                     Decide(isDuplicate, true, old(session.capturingKeys), IsOrcaModifierKey(),
                            consumer.Some?, handler.Some?, HandlerActive(), pressed)
                && session.pending == old(session.pending) + (if resultReason.value == WillBeConsumed then [this] else [])
      ensures script.Some? && isDuplicate ==>
                keyType == old(keyType) && session.lastInputEvent == old(session.lastInputEvent)
                && session.lastNonModifierKeyEvent == old(session.lastNonModifierKeyEvent)
                && session.trace == old(session.trace)
      ensures script.Some? && !isDuplicate ==>
                && keyType == old(TypeAfterToggle())
                && session.lastInputEvent == KeyEvent(this)
                && session.lastNonModifierKeyEvent == NonModifierSlotAfter(old(session.lastNonModifierKeyEvent))
                && session.trace == old(session.trace) + old(ToggleEffects()) + old(PresentEffects())
      ensures session.ModifierState() == old(session.ModifierState()) && session.duplicateCount == old(session.duplicateCount)
      ensures session.capturingKeys == old(session.capturingKeys)
      ensures modifiers == old(modifiers) && clickCount == old(clickCount) && objAfterConsuming == old(objAfterConsuming)
    {
      if script.None? {
        var user := UserKeyHandler(userHandlers, None);
        if user.Some? {
          handler := user;
        }
        return Raised;
      }
      var user := UserKeyHandler(userHandlers, Some(script.value.scriptModule));
      SelectHandler(if user.Some? then user else scriptHandler);
      var res := ProcessEvent(session);
      didConsume, resultReason := Some(res.0), Some(res.1);
      return Returned(res.0);
    }

    /**
     * _consume (input_event.py:851-881): the consumer handles the event, or
     * else an active handler's function is called; with neither the handler
     * is dereferenced, which raises (when there is none). Afterwards the
     * focus object is recorded for the next click count.
     */
    method Consume(session: Session, focusAfter: Option<ObjId>, activeScript: Option<Script>, isDesktop: bool)
      returns (r: Outcome)
      modifies this, session, if consumer.Some? then {consumer.value} else {}
      ensures r.Raised? <==>
                (old(consumer).Some? && old(consumer.value.isActive) && activeScript.None?)
                || (old(consumer).None? && old(handler).None?)
      ensures r.Returned? ==> !r.value && objAfterConsuming == focusAfter
      ensures r.Raised? ==> objAfterConsuming == old(objAfterConsuming)
      ensures session.trace == old(session.trace) +
                (if old(consumer).None? && old(HandlerActive()) then [HandlerCall(old(handler).value.callback.value, this)] else [])
      ensures session.pending == old(session.pending) && consumer == old(consumer) && handler == old(handler)
      ensures modifiers == old(modifiers) && keyType == old(keyType) && clickCount == old(clickCount)
      ensures session.lastInputEvent == old(session.lastInputEvent)
              && session.lastNonModifierKeyEvent == old(session.lastNonModifierKeyEvent)
      ensures session.ModifierState() == old(session.ModifierState()) && session.duplicateCount == old(session.duplicateCount)
      ensures session.capturingKeys == old(session.capturingKeys)
      ensures didConsume == old(didConsume) && resultReason == old(resultReason)
      ensures old(consumer).Some? ==> consumer.value.handlers == old(consumer.value.handlers)
      // What the learn-mode consumer does with the event, as HandleEvent states it.
      ensures old(consumer).Some? && (!old(consumer.value.isActive) || activeScript.None?) ==>
                consumer.value.effects == old(consumer.value.effects) && consumer.value.isActive == old(consumer.value.isActive)
      ensures old(consumer).Some? && old(consumer.value.isActive) && activeScript.Some? ==>
                var k := old(View());
                var echoed := old(consumer.value.effects) + EchoEffects(k);
                && |echoed| <= |consumer.value.effects| && consumer.value.effects[..|echoed|] == echoed
                && (consumer.value.isActive <==>
                      Dispatch(k) == PresentCommand
                      || (Dispatch(k) == ListCommand && k.eventString == "F3" && AppListing(activeScript.value.view).0 == []))
    {
      if consumer.Some? {
        var lastView := if session.lastNonModifierKeyEvent.Some? then Some(session.lastNonModifierKeyEvent.value.View()) else None;
        var scriptView := if activeScript.Some? then Some(activeScript.value.view) else None;
        var o := consumer.value.HandleEvent(KeyArg(View()), scriptView, lastView, isDesktop);
        if o.Raised? {
          return Raised;
        }
      } else if handler.None? {
        return Raised;
      } else if HandlerActive() {
        session.trace := session.trace + [HandlerCall(handler.value.callback.value, this)];
      }
      objAfterConsuming := focusAfter;
      return Returned(false);
    }
  }

  /** Equality of keyboard events (input_event.py:408-415) is reflexive and symmetric, and never holds for a non-keyboard event. */
  lemma KeyEventEqualityIsSymmetric(a: KeyboardEvent, b: KeyboardEvent, other: LastEvent)
    ensures a.Equals(KeyEvent(a))
    ensures a.Equals(KeyEvent(b)) <==> b.Equals(KeyEvent(a))
    ensures !other.KeyEvent? ==> !a.Equals(other)
  {
  }

  /**
   * Keyboard-event equality, the duplicate test of the constructor, is
   * exactly "same direction, same hardware code, same timestamp": two
   * distinct event objects can be equal (input_event.py:408-415).
   */
  lemma KeyEventEqualityIsByKeyAndTime(a: KeyboardEvent, b: KeyboardEvent)
    ensures a.Equals(KeyEvent(b)) <==> a.pressed == b.pressed && a.hwCode == b.hwCode && a.timestamp == b.timestamp
  {
  }

  /** isReleaseFor (input_event.py:477-492) only pairs a release with a press, so it never holds both ways. */
  lemma ReleasePairsArePressThenRelease(a: KeyboardEvent, b: KeyboardEvent)
    ensures a.IsReleaseFor(Some(b)) ==> !a.pressed && b.pressed && !b.IsReleaseFor(Some(a))
    ensures !a.IsReleaseFor(None)
  {
  }

  /**
   * After `_process`, a key that is not (or no longer) tagged as a modifier
   * is the last non-modifier key event, and a modifier leaves that slot alone;
   * a retagged Caps_Lock is therefore recorded as a non-modifier.
   */
  lemma NonModifierSlotKeepsModifiersOut(e: KeyboardEvent, slot: Option<KeyboardEvent>)
    ensures e.keyType == Locking ==> e.NonModifierSlotAfter(slot) == Some(e)
    ensures e.NonModifierSlotAfter(slot) != slot ==> e.keyType != Modifier && e.NonModifierSlotAfter(slot) == Some(e)
    ensures e.keyType == Modifier ==> e.NonModifierSlotAfter(slot) == slot
  {
  }

  /** A braille display command. */
  class BrailleEvent {
    const command: int
    const script: Option<Script>

    /** __init__ (input_event.py:885-893): the command and the active script. */
    constructor (command: int, activeScript: Option<Script>)
      ensures this.command == command && script == activeScript
    {
      this.command := command;
      script := activeScript;
    }

    /**
     * _process (input_event.py:933-951): the event becomes the last input
     * event; with no handler it is consumed exactly when learn mode is
     * active; with one, its function (if any) is called and it is consumed.
     * Without a script the lookup raises.
     */
    method Process(session: Session, userBindings: map<string, map<int, InputEventHandler>>) returns (r: Outcome)
      modifies session
      ensures session.lastInputEvent == BrailleEv(this)
      ensures script.None? ==> r == Raised && session.trace == old(session.trace)
      ensures script.Some? ==>
                var h := BrailleHandler(userBindings, script.value.name, script.value.brailleBindings, command);
                && r == Returned(h.Some? || script.value.learnModePresenter.isActive)
                && session.trace == old(session.trace) +
                     (if h.Some? && h.value.callback.Some? then [BrailleHandlerCall(h.value.callback.value, this)] else [])
      ensures session.lastNonModifierKeyEvent == old(session.lastNonModifierKeyEvent) && session.pending == old(session.pending)
      ensures session.ModifierState() == old(session.ModifierState()) && session.duplicateCount == old(session.duplicateCount)
      ensures session.capturingKeys == old(session.capturingKeys)
    {
      session.lastInputEvent := BrailleEv(this);
      if script.None? {
        return Raised;
      }
      var h := BrailleHandler(userBindings, script.value.name, script.value.brailleBindings, command);
      if h.None? {
        return Returned(script.value.learnModePresenter.isActive);
      }
      if h.value.callback.Some? {
        session.trace := session.trace + [BrailleHandlerCall(h.value.callback.value, this)];
      }
      return Returned(true);
    }
  }

  // -----------------------------------------------------------------------
  // Mouse button events

  const MouseButtonPrefix: string := "mouse:button:"

  /** Python's `s[start:-1]` for 0 <= start. */
  function SliceToLast(s: string, start: nat): (r: string)
    ensures |s| <= start + 1 ==> r == ""
    ensures |s| > start + 1 ==> r == s[start..|s| - 1]
  {
    if |s| > start + 1 then s[start..|s| - 1] else ""
  }

  /** The button of an event type: `type[len("mouse:button:"):-1]` (input_event.py:969). */
  function ButtonOf(eventType: string): string {
    SliceToLast(eventType, |MouseButtonPrefix|)
  }

  /** A press: the type ends in 'p' (input_event.py:968). */
  predicate IsPressType(eventType: string) {
    |eventType| > 0 && eventType[|eventType| - 1] == 'p'
  }

  /** Every mouse button type "mouse:button:<b><p|r>" gives back its button and its direction. */
  lemma MouseTypeRoundTrip(button: string, pressed: bool)
    requires button != ""
    ensures var t := MouseButtonPrefix + button + (if pressed then "p" else "r");
            ButtonOf(t) == button && IsPressType(t) == pressed
  {
    var t := MouseButtonPrefix + button + (if pressed then "p" else "r");
    assert t[|MouseButtonPrefix|..|t| - 1] == button;
  }

  /** The squared distance between two points. */
  function SquaredDistance(x: int, y: int, px: int, py: int): nat {
    (x - px) * (x - px) + (y - py) * (y - py)
  }

  /**
   * _validateCoordinates (input_event.py:988-1001): a position at distance
   * 25 or more from the pointer is replaced by the pointer's. The distance
   * test is on squares, dx² + dy² < 625, which is the same test as
   * sqrt(dx² + dy²) < 25.
   */
  function ValidatedPosition(x: int, y: int, pointer: Option<(int, int)>): (p: (int, int))
    ensures pointer.None? ==> p == (x, y)
    ensures pointer.Some? ==> SquaredDistance(p.0, p.1, pointer.value.0, pointer.value.1) < 625
    ensures pointer.Some? && SquaredDistance(x, y, pointer.value.0, pointer.value.1) < 625 ==> p == (x, y)
    ensures p != (x, y) ==> pointer.Some? && p == pointer.value
  {
    if pointer.None? then (x, y)
    else if SquaredDistance(x, y, pointer.value.0, pointer.value.1) < 625 then (x, y)
    else pointer.value
  }

  /** A press reported at (100, 100) while the pointer is at (100, 140) moves to the pointer. */
  lemma BogusCoordinatesAreCorrected()
    ensures ValidatedPosition(100, 100, Some((100, 140))) == (100, 140)
    ensures ValidatedPosition(100, 120, Some((100, 140))) == (100, 120)
  {
  }

  class MouseButtonEvent {
    const pressed: bool
    const button: string
    const time: int
    const script: Option<Script>
    var x: int
    var y: int
    var window: Option<ObjId>
    var app: Option<ObjId>
    var clickCount: nat

    /**
     * __init__ (input_event.py:962-986): position, direction and button from
     * the notification; a press has its position validated against the
     * pointer. With a script, a window that cannot be active is replaced by
     * the one found active, and the application is that window's.
     */
    constructor (eventType: string, detail1: int, detail2: int, time: int, activeScript: Option<Script>,
                 activeWindow: Option<ObjId>, canBeActive: bool, foundWindow: Option<ObjId>,
                 applicationOf: ObjId -> Option<ObjId>, pointer: Option<(int, int)>)
      ensures pressed == IsPressType(eventType) && button == ButtonOf(eventType) && this.time == time
      ensures script == activeScript && clickCount == 0
      ensures (x, y) == (if pressed then ValidatedPosition(detail1, detail2, pointer) else (detail1, detail2))
      ensures window == (if activeScript.Some? && !canBeActive then foundWindow else activeWindow)
      ensures app == (if activeScript.Some? && window.Some? then applicationOf(window.value) else None)
    {
      pressed := IsPressType(eventType);
      button := ButtonOf(eventType);
      this.time := time;
      script := activeScript;
      window := activeWindow;
      app := None;
      clickCount := 0;
      x, y := detail1, detail2;
      new;
      if pressed {
        ValidateCoordinates(pointer);
      }
      if activeScript.None? {
        return;
      }
      if !canBeActive {
        window := foundWindow;
      }
      if window.None? {
        return;
      }
      app := applicationOf(window.value);
    }

    /** _validateCoordinates (input_event.py:988-1001) on this event's position. */
    method ValidateCoordinates(pointer: Option<(int, int)>)
      modifies this
      ensures (x, y) == ValidatedPosition(old(x), old(y), pointer)
      ensures window == old(window) && app == old(app) && clickCount == old(clickCount)
    {
      if pointer.None? {
        return;
      }
      var (px, py) := pointer.value;
      if SquaredDistance(x, y, px, py) < 625 {
        return;
      }
      x, y := px, py;
    }

    /** setClickCount (input_event.py:1003-1020), against the last input event of the session. */
    method SetClickCount(session: Session, doubleClickTimeout: int)
      modifies this
      ensures var last := session.lastInputEvent;
              clickCount == MouseClickCount(pressed, old(clickCount), last.MouseEv?,
                                            if last.MouseEv? then last.mouse.time else 0,
                                            if last.MouseEv? then last.mouse.button else "",
                                            time, button, doubleClickTimeout)
      ensures x == old(x) && y == old(y) && window == old(window) && app == old(app)
    {
      var last := session.lastInputEvent;
      clickCount := MouseClickCount(pressed, clickCount, last.MouseEv?,
                                    if last.MouseEv? then last.mouse.time else 0,
                                    if last.MouseEv? then last.mouse.button else "",
                                    time, button, doubleClickTimeout);
    }
  }
}
