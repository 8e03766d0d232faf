/**
 * Learn mode (learn_mode_presenter.py): a presenter whose `isActive` flag
 * start and quit turn on and off, the dispatch of keyboard events while it
 * is active, the presentation of a key's command, and the grouping and
 * counting of the shortcut list.
 *
 * Speech, braille, keyboard grabs, help pages and the command-list dialog
 * are recorded as an output trace of `Effect`s. A script is seen through
 * `ScriptView`, the values the presenter reads from it.
 */
module LearnMode {

  import opened Wrappers
  import opened Modifiers
  import opened Handlers

  /** keybindings.KeyBinding: key name, the modifiers that matter, the modifiers required, the handler. */
  datatype KeyBinding = KeyBinding(keysymString: string, modifierMask: Mask, modifiers: Mask, handler: Option<InputEventHandler>)

  /** keybindings.KeyBindings, seen as the list of its bindings. */
  class KeyBindings {
    var entries: seq<KeyBinding>

    constructor ()
      ensures entries == []
    {
      entries := [];
    }

    method Add(b: KeyBinding)
      modifies this
      ensures entries == old(entries) + [b]
    {
      entries := entries + [b];
    }
  }

  /** keybindings.defaultModifierMask: Shift, Control, Alt and the Orca modifier. */
  const DefaultModifierMask: Mask := {ShiftBit, 2, 3, OrcaModifierBit}

  /** The key of the presenter's only handler (learn_mode_presenter.py:94). */
  const EnterLearnModeKey: string := "enterLearnModeHandler"

  /** The presenter's own start method, as a handler function. */
  const StartCallable: Callable := Callable("LearnModePresenter.start")

  /** cmdnames.ENTER_LEARN_MODE. */
  const EnterLearnModeDescription: string := "Enters learn mode.  Press escape to exit learn mode."

  /** The groups of the shortcut list, in the order they are added (learn_mode_presenter.py:223-280). */
  datatype Group =
    | Default | LearnModeGroup | WhereAmI | SpeechAndVerbosity | FlatReview | ObjectNavigation
    | TableNavigation | DateAndTime | Notifications | Bookmarks | MouseReview | Actions

  const GroupOrder: seq<Group> :=
    [Default, LearnModeGroup, WhereAmI, SpeechAndVerbosity, FlatReview, ObjectNavigation,
     TableNavigation, DateAndTime, Notifications, Bookmarks, MouseReview, Actions]

  /** An application's name, or messages.APPLICATION_NO_NAME when it has none. */
  datatype AppName = Named(name: string) | NoName

  /** A heading of the shortcut list: one of the general groups, or an application. */
  datatype GroupLabel = General(group: Group) | Application(app: AppName)

  /** The messages the presenter sends. */
  datatype Message =
    | Version | LearnModeStartSpeech | LearnModeStartBraille | LearnModeStop
    | ShortcutsFoundOrca(count: nat)
    | ShortcutsFoundApp(count: nat, app: AppName)
    | Description(text: string)

  /** What the presenter does to the outside world, in order. */
  datatype Effect =
    | PresentMessage(message: Message)
    | SpeakMessage(message: Message)
    | DisplayBrailleMessage(message: Message)
    | GrabKeyboard
    | UngrabKeyboard
    | SpeakKeyEvent(text: string)
    | PhoneticSpell(text: string)
    | ShowUri(uri: string)
    | ShowCommandList(title: Message, groups: seq<(GroupLabel, seq<KeyBinding>)>)

  /** A call returns a value or raises (a method called on a missing script). */
  datatype Outcome = Returned(value: bool) | Raised

  /** What the presenter reads from a script: its application's name and its bound key bindings. */
  datatype ScriptView = ScriptView(
    appName: string,
    defaultBindings: seq<KeyBinding>,
    whereAmIBindings: seq<KeyBinding>,
    speechAndVerbosityBindings: seq<KeyBinding>,
    flatReviewBindings: seq<KeyBinding>,
    objectNavigatorBindings: seq<KeyBinding>,
    tableNavigatorBindings: seq<KeyBinding>,
    dateAndTimeBindings: seq<KeyBinding>,
    notificationBindings: seq<KeyBinding>,
    bookmarkBindings: seq<KeyBinding>,
    mouseReviewerBindings: seq<KeyBinding>,
    actionBindings: seq<KeyBinding>,
    appBindings: seq<KeyBinding>,
    toolkitBindings: seq<KeyBinding>)

  /** What the presenter reads from a keyboard event. */
  datatype KeyEventView = KeyEventView(
    eventString: string, modifiers: Mask, clickCount: nat, isPrintable: bool, handler: Option<InputEventHandler>)

  /** The event argument: absent, a keyboard event, or another kind of input event. */
  datatype EventArg = NoArg | KeyArg(key: KeyEventView) | OtherArg

  // ---------------------------------------------------------------------
  // Shortcut listing

  /** The number of bindings in all the lists. */
  function TotalBindings(lists: seq<seq<KeyBinding>>): nat {
    if lists == [] then 0 else TotalBindings(lists[..|lists| - 1]) + |lists[|lists| - 1]|
  }

  /** The count is zero exactly when every list is empty. */
  lemma {:induction false} TotalBindingsZero(lists: seq<seq<KeyBinding>>)
    ensures TotalBindings(lists) == 0 <==> forall i | 0 <= i < |lists| :: lists[i] == []
  {
    if lists != [] {
      var init := lists[..|lists| - 1];
      TotalBindingsZero(init);
      if forall i | 0 <= i < |lists| :: lists[i] == [] {
        forall i | 0 <= i < |init| ensures init[i] == [] { assert init[i] == lists[i]; }
      }
      if TotalBindings(lists) == 0 {
        forall i | 0 <= i < |lists| ensures lists[i] == [] {
          if i < |lists| - 1 { assert lists[i] == init[i]; }
        }
      }
    }
  }

  /** Each list's bindings are part of the count. */
  lemma {:induction false} TotalBindingsCountsEachList(lists: seq<seq<KeyBinding>>, i: nat)
    requires i < |lists|
    ensures |lists[i]| <= TotalBindings(lists)
  {
    if i < |lists| - 1 {
      TotalBindingsCountsEachList(lists[..|lists| - 1], i);
    }
  }

  /** The twelve general lists of a script, the learn-mode one being `learnBindings`. */
  function GeneralLists(s: ScriptView, learnBindings: seq<KeyBinding>): (lists: seq<seq<KeyBinding>>)
    ensures |lists| == |GroupOrder|
  {
    [s.defaultBindings, learnBindings, s.whereAmIBindings, s.speechAndVerbosityBindings,
     s.flatReviewBindings, s.objectNavigatorBindings, s.tableNavigatorBindings, s.dateAndTimeBindings,
     s.notificationBindings, s.bookmarkBindings, s.mouseReviewerBindings, s.actionBindings]
  }

  /** `groups` is the general listing of `lists`: every group, in order, with its list. */
  predicate IsGeneralListing(groups: seq<(GroupLabel, seq<KeyBinding>)>, lists: seq<seq<KeyBinding>>) {
    |groups| == |lists| == |GroupOrder| &&
    forall i | 0 <= i < |groups| :: groups[i] == (General(GroupOrder[i]), lists[i])
  }

  /**
   * The F2 listing (learn_mode_presenter.py:220-282): each general group is
   * added with its list, even an empty one, and `items` grows by its length.
   */
  method CollectGeneralGroups(lists: seq<seq<KeyBinding>>) returns (groups: seq<(GroupLabel, seq<KeyBinding>)>, items: nat)
    requires |lists| == |GroupOrder|
    ensures IsGeneralListing(groups, lists)
    ensures items == TotalBindings(lists)
  {
    groups := [];
    items := 0;
    var i := 0;
    while i < |lists|
      invariant 0 <= i <= |lists|
      invariant |groups| == i
      invariant forall j | 0 <= j < i :: groups[j] == (General(GroupOrder[j]), lists[j])
      invariant items == TotalBindings(lists[..i])
    {
      assert lists[..i + 1][..i] == lists[..i];
      groups := groups + [(General(GroupOrder[i]), lists[i])];
      items := items + |lists[i]|;
      i := i + 1;
    }
    assert lists[..i] == lists;
  }

  /** The label of a script's application: its name, or "no name" when that is empty. */
  function AppLabel(s: ScriptView): AppName {
    if s.appName == "" then NoName else Named(s.appName)
  }

  /**
   * The application listing (learn_mode_presenter.py:284-289): the app and
   * toolkit bindings together under the application's label, only when
   * there are some, and a title counting them.
   */
  function AppListing(s: ScriptView): (r: (seq<(GroupLabel, seq<KeyBinding>)>, Message))
    ensures r.0 == [] <==> s.appBindings == [] && s.toolkitBindings == []
    ensures r.0 != [] ==> r.0 == [(Application(AppLabel(s)), s.appBindings + s.toolkitBindings)]
    ensures r.1 == ShortcutsFoundApp(|s.appBindings| + |s.toolkitBindings|, AppLabel(s))
  {
    var bound := s.appBindings + s.toolkitBindings;
    (if bound != [] then [(Application(AppLabel(s)), bound)] else [], ShortcutsFoundApp(|bound|, AppLabel(s)))
  }

  /** The F2 title counts exactly the bindings the list shows, and is zero only when every group is empty. */
  lemma GeneralTitleCountsRows(groups: seq<(GroupLabel, seq<KeyBinding>)>, lists: seq<seq<KeyBinding>>, items: nat)
    requires IsGeneralListing(groups, lists) && items == TotalBindings(lists)
    ensures items == 0 <==> forall i | 0 <= i < |groups| :: groups[i].1 == []
    ensures forall i | 0 <= i < |groups| :: |groups[i].1| <= items
    ensures groups != []
  {
    TotalBindingsZero(lists);
    forall i | 0 <= i < |groups| ensures |groups[i].1| <= items {
      TotalBindingsCountsEachList(lists, i);
    }
  }

  // ---------------------------------------------------------------------
  // Effects

  /** The messages and grab of start (learn_mode_presenter.py:128-135). */
  function StartEffects(hasScript: bool): seq<Effect> {
    (if hasScript then [PresentMessage(Version), SpeakMessage(LearnModeStartSpeech), DisplayBrailleMessage(LearnModeStartBraille)]
     else []) + [GrabKeyboard]
  }

  /** The message and ungrab of quit (learn_mode_presenter.py:153-158). */
  function QuitEffects(hasScript: bool): seq<Effect> {
    (if hasScript then [PresentMessage(LearnModeStop)] else []) + [UngrabKeyboard]
  }

  /** The help URI show_help opens (learn_mode_presenter.py:305-307). */
  function HelpUri(page: string): (uri: string)
    ensures |uri| >= 9 && uri[..9] == "help:orca"
    ensures page == "" <==> uri == "help:orca"
    ensures page != "" ==> uri[9..] == "/" + page
  {
    "help:orca" + (if page != "" then "/" + page else "")
  }

  /** present_command presents the handler's description (learn_mode_presenter.py:198-207). */
  predicate PresentsDescription(event: EventArg) {
    event.KeyArg? && event.key.handler.Some? && event.key.handler.value.learnModeEnabled
    && event.key.handler.value.description != ""
  }

  /** handle_event asks for phonetic spelling (learn_mode_presenter.py:176-178). */
  predicate SpellsPhonetically(k: KeyEventView) {
    k.isPrintable && k.clickCount == 2 && k.handler.None?
  }

  /** What handle_event always does first with a keyboard event (learn_mode_presenter.py:175-178). */
  function EchoEffects(k: KeyEventView): (e: seq<Effect>)
    ensures |e| >= 1 && e[0] == SpeakKeyEvent(k.eventString)
    ensures PhoneticSpell(k.eventString) in e <==> SpellsPhonetically(k)
  {
    [SpeakKeyEvent(k.eventString)] + (if SpellsPhonetically(k) then [PhoneticSpell(k.eventString)] else [])
  }

  /** The command a keyboard event selects in learn mode. */
  datatype Command = QuitCommand | HelpCommand | ListCommand | PresentCommand

  /**
   * The dispatch of handle_event (learn_mode_presenter.py:180-193): Escape
   * quits whatever the modifiers; F1 without modifiers shows help; F2 or F3
   * without modifiers lists shortcuts; anything else presents the command.
   */
  function Dispatch(k: KeyEventView): (c: Command)
    ensures c == QuitCommand <==> k.eventString == "Escape"
    ensures c == HelpCommand <==> k.eventString == "F1" && k.modifiers == {}
    ensures c == ListCommand <==> k.eventString in ["F2", "F3"] && k.modifiers == {}
  {
    if k.eventString == "Escape" then QuitCommand
    else if k.eventString == "F1" && k.modifiers == {} then HelpCommand
    else if k.eventString in ["F2", "F3"] && k.modifiers == {} then ListCommand
    else PresentCommand
  }

  /**
   * The presenter. `effects` is the trace of everything it has done to the
   * outside world.
   */
  class LearnModePresenter {
    var handlers: map<string, InputEventHandler>
    var bindings: KeyBindings
    var isActive: bool
    var effects: seq<Effect>

    /** The handler _setup_handlers installs (learn_mode_presenter.py:94-97). */
    predicate IsEnterLearnModeHandler(h: InputEventHandler)
      reads h
    {
      h.callback == Some(StartCallable) && h.description == EnterLearnModeDescription
      && h.learnModeEnabled && h.enabled
    }

    /** The binding _setup_bindings installs (learn_mode_presenter.py:107-112): Orca+h for the handler, if any. */
    function EnterLearnModeBinding(): KeyBinding
      reads this
    {
      KeyBinding("h", DefaultModifierMask, OrcaModifierMask,
                 if EnterLearnModeKey in handlers then Some(handlers[EnterLearnModeKey]) else None)
    }

    /** __init__ (learn_mode_presenter.py:56-60): handlers set up, no bindings, inactive. */
    constructor ()
      ensures !isActive && effects == [] && fresh(bindings) && bindings.entries == []
      ensures handlers.Keys == {EnterLearnModeKey} && fresh(handlers[EnterLearnModeKey])
      ensures IsEnterLearnModeHandler(handlers[EnterLearnModeKey])
    {
      handlers := map[];
      bindings := new KeyBindings();
      isActive := false;
      effects := [];
      new;
      var _ := GetHandlers(true);
    }

    /**
     * get_handlers (learn_mode_presenter.py:79-100): a refresh replaces the
     * handlers with a fresh start handler; otherwise they are returned as
     * they are.
     */
    method GetHandlers(refresh: bool) returns (r: map<string, InputEventHandler>)
      modifies this
      ensures handlers == r
      ensures refresh ==> r.Keys == {EnterLearnModeKey} && fresh(r[EnterLearnModeKey])
                          && IsEnterLearnModeHandler(r[EnterLearnModeKey])
      ensures !refresh ==> r == old(handlers)
      ensures bindings == old(bindings) && isActive == old(isActive) && effects == old(effects)
    {
      if refresh {
        var h := new InputEventHandler(Some(StartCallable), EnterLearnModeDescription, true, true);
        handlers := map[EnterLearnModeKey := h];
      }
      r := handlers;
    }

    /**
     * get_bindings (learn_mode_presenter.py:67-77, 102-112): the bindings are
     * rebuilt, as a fresh object holding the Orca+h binding, when a refresh
     * is asked for or they are empty; otherwise the same object is returned.
     * The keyboard layout argument is not used.
     */
    method GetBindings(refresh: bool, isDesktop: bool) returns (r: KeyBindings)
      modifies this
      ensures bindings == r
      ensures refresh || old(bindings.entries) == [] ==> fresh(r) && r.entries == [EnterLearnModeBinding()]
      ensures !refresh && old(bindings.entries) != [] ==> r == old(bindings)
      ensures handlers == old(handlers) && isActive == old(isActive) && effects == old(effects)
    {
      if refresh || bindings.entries == [] {
        var b := new KeyBindings();
        b.Add(EnterLearnModeBinding());
        bindings := b;
      }
      r := bindings;
    }

    /**
     * start (learn_mode_presenter.py:117-140): from inactive, greets through
     * the given or else the active script (if any), grabs the keyboard and
     * becomes active; when already active nothing happens. Always True.
     */
    method Start(script: Option<ScriptView>, activeScript: Option<ScriptView>) returns (r: bool)
      modifies this
      ensures r && isActive
      ensures effects == old(effects) + (if old(isActive) then [] else StartEffects(script.Some? || activeScript.Some?))
      ensures handlers == old(handlers) && bindings == old(bindings)
    {
      if isActive {
        return true;
      }
      var s := if script.None? then activeScript else script;
      effects := effects + StartEffects(s.Some?);
      isActive := true;
      return true;
    }

    /**
     * quit (learn_mode_presenter.py:142-163): from active, says goodbye
     * through the given or else the active script (if any), releases the
     * keyboard and becomes inactive; when inactive nothing happens. Always True.
     */
    method Quit(script: Option<ScriptView>, activeScript: Option<ScriptView>) returns (r: bool)
      modifies this
      ensures r && !isActive
      ensures effects == old(effects) + (if old(isActive) then QuitEffects(script.Some? || activeScript.Some?) else [])
      ensures handlers == old(handlers) && bindings == old(bindings)
    {
      if !isActive {
        return true;
      }
      var s := if script.None? then activeScript else script;
      effects := effects + QuitEffects(s.Some?);
      isActive := false;
      return true;
    }

    /** show_help (learn_mode_presenter.py:301-309): quits, then opens the help page. */
    method ShowHelp(script: Option<ScriptView>, activeScript: Option<ScriptView>, page: string) returns (r: bool)
      modifies this
      ensures r && !isActive
      ensures effects == old(effects) + (if old(isActive) then QuitEffects(script.Some? || activeScript.Some?) else [])
                         + [ShowUri(HelpUri(page))]
      ensures handlers == old(handlers) && bindings == old(bindings)
    {
      var _ := Quit(script, activeScript);
      effects := effects + [ShowUri(HelpUri(page))];
      return true;
    }

    /**
     * present_command (learn_mode_presenter.py:195-209): the description of
     * the event's handler is presented through the active script when the
     * handler is learn-mode enabled and described; presenting with no
     * active script raises. Otherwise True.
     */
    method PresentCommandOf(event: EventArg, activeScript: Option<ScriptView>) returns (r: Outcome)
      modifies this
      ensures r == (if PresentsDescription(event) && activeScript.None? then Raised else Returned(true))
      ensures effects == old(effects) +
                (if PresentsDescription(event) && activeScript.Some?
                 then [PresentMessage(Description(event.key.handler.value.description))] else [])
      ensures isActive == old(isActive) && handlers == old(handlers) && bindings == old(bindings)
    {
      if !PresentsDescription(event) {
        return Returned(true);
      }
      if activeScript.None? {
        return Raised;
      }
      effects := effects + [PresentMessage(Description(event.key.handler.value.description))];
      return Returned(true);
    }

    /**
     * list_orca_shortcuts (learn_mode_presenter.py:211-299). Without an
     * event the last non-modifier key event is used. With none, or with F2,
     * the twelve general groups are listed (the learn-mode group from this
     * presenter's own bindings); otherwise the application's bindings. An
     * empty listing only presents its title; a listing with groups quits
     * learn mode and shows the command list.
     */
    method ListOrcaShortcuts(script: ScriptView, event: Option<KeyEventView>, lastNonModifier: Option<KeyEventView>,
                             activeScript: Option<ScriptView>, isDesktop: bool) returns (r: bool)
      modifies this
      ensures r
      ensures var e := if event.None? then lastNonModifier else event;
              var general := e.None? || e.value.eventString == "F2";
              && (general ==>
                    && (old(bindings.entries) == [] ==> fresh(bindings) && bindings.entries == [EnterLearnModeBinding()])
                    && (old(bindings.entries) != [] ==> bindings == old(bindings))
                    && !isActive
                    && |effects| == |old(effects)| + (if old(isActive) then |QuitEffects(true)| else 0) + 1
                    && effects[..|effects| - 1] == old(effects) + (if old(isActive) then QuitEffects(true) else [])
                    && effects[|effects| - 1].ShowCommandList?
                    && effects[|effects| - 1].title ==
                         ShortcutsFoundOrca(TotalBindings(GeneralLists(script, bindings.entries)))
                    && IsGeneralListing(effects[|effects| - 1].groups, GeneralLists(script, bindings.entries)))
              && (!general && AppListing(script).0 == [] ==>
                    && bindings == old(bindings) && isActive == old(isActive)
                    && effects == old(effects) + [PresentMessage(AppListing(script).1)])
              && (!general && AppListing(script).0 != [] ==>
                    && bindings == old(bindings) && !isActive
                    && effects == old(effects) + (if old(isActive) then QuitEffects(true) else [])
                       + [ShowCommandList(AppListing(script).1, AppListing(script).0)])
      ensures handlers == old(handlers)
    {
      var e := if event.None? then lastNonModifier else event;
      var groups, title;
      if e.None? || e.value.eventString == "F2" {
        var learn := GetBindings(false, isDesktop);
        var items;
        groups, items := CollectGeneralGroups(GeneralLists(script, learn.entries));
        title := ShortcutsFoundOrca(items);
      } else {
        groups, title := AppListing(script).0, AppListing(script).1;
      }
      if groups == [] {
        effects := effects + [PresentMessage(title)];
        return true;
      }
      var _ := Quit(Some(script), activeScript);
      effects := effects + [ShowCommandList(title, groups)];
      return true;
    }

    /**
     * handle_event (learn_mode_presenter.py:165-193), the consumer of
     * keyboard events while learn mode is active. Inactive, or given
     * something other than a keyboard event, it returns False and does
     * nothing. With no active script it raises. Otherwise it speaks the key,
     * asks for phonetic spelling of a printable key pressed twice with no
     * handler, runs the command Dispatch selects, and returns True.
     */
    method HandleEvent(event: EventArg, activeScript: Option<ScriptView>, lastNonModifier: Option<KeyEventView>, isDesktop: bool)
      returns (r: Outcome)
      modifies this
      ensures !old(isActive) || !event.KeyArg? ==>
                r == Returned(false) && isActive == old(isActive) && effects == old(effects) && bindings == old(bindings)
      ensures old(isActive) && event.KeyArg? && activeScript.None? ==>
                r == Raised && isActive == old(isActive) && effects == old(effects) && bindings == old(bindings)
      ensures old(isActive) && event.KeyArg? && activeScript.Some? ==>
                var k := event.key;
                var echoed := old(effects) + EchoEffects(k);
                && r == Returned(true)
                && |echoed| <= |effects| && effects[..|echoed|] == echoed
                && (Dispatch(k) != ListCommand ==> bindings == old(bindings))
                && (Dispatch(k) == QuitCommand ==> !isActive && effects == echoed + QuitEffects(true))
                && (Dispatch(k) == HelpCommand ==> !isActive && effects == echoed + QuitEffects(true) + [ShowUri(HelpUri(""))])
                && (Dispatch(k) == ListCommand ==>
                      (isActive <==> k.eventString == "F3" && AppListing(activeScript.value).0 == []))
                && (Dispatch(k) == ListCommand && k.eventString == "F2" ==>
                      && (old(bindings.entries) == [] ==> fresh(bindings) && bindings.entries == [EnterLearnModeBinding()])
                      && (old(bindings.entries) != [] ==> bindings == old(bindings))
                      && |effects| == |echoed| + |QuitEffects(true)| + 1
                      && effects[..|effects| - 1] == echoed + QuitEffects(true)
                      && effects[|effects| - 1].ShowCommandList?
                      && effects[|effects| - 1].title ==
                           ShortcutsFoundOrca(TotalBindings(GeneralLists(activeScript.value, bindings.entries)))
                      && IsGeneralListing(effects[|effects| - 1].groups, GeneralLists(activeScript.value, bindings.entries)))
                && (Dispatch(k) == ListCommand && k.eventString != "F2" && AppListing(activeScript.value).0 == [] ==>
                      bindings == old(bindings) && effects == echoed + [PresentMessage(AppListing(activeScript.value).1)])
                && (Dispatch(k) == ListCommand && k.eventString != "F2" && AppListing(activeScript.value).0 != [] ==>
                      && bindings == old(bindings)
                      && effects == echoed + QuitEffects(true)
                         + [ShowCommandList(AppListing(activeScript.value).1, AppListing(activeScript.value).0)])
                && (Dispatch(k) == PresentCommand ==>
                      && isActive
                      && effects == echoed + (if PresentsDescription(event)
                                              then [PresentMessage(Description(k.handler.value.description))] else []))
      ensures handlers == old(handlers)
    {
      if !isActive || !event.KeyArg? {
        return Returned(false);
      }
      if activeScript.None? {
        return Raised;
      }
      var k := event.key;
      effects := effects + EchoEffects(k);
      ghost var echoed := effects;
      match Dispatch(k) {
        case QuitCommand =>
          var _ := Quit(None, activeScript);
        case HelpCommand =>
          var _ := ShowHelp(activeScript, activeScript, "");
        case ListCommand =>
          var _ := ListOrcaShortcuts(activeScript.value, Some(k), lastNonModifier, activeScript, isDesktop);
        case PresentCommand =>
          var _ := PresentCommandOf(event, activeScript);
      }
      assert effects[..|echoed|] == echoed;
      return Returned(true);
    }
  }
}
