/**
 * Input-event handlers (input_event.py:1023-1070) and the layered lookups
 * that pick the handler of a keyboard event from the user's key bindings
 * (input_event.py:696-713) and the handler of a braille command
 * (input_event.py:898-918).
 */
module Handlers {

  import opened Wrappers

  /** A callable a handler invokes, compared by identity. */
  datatype Callable = Callable(name: string)

  /**
   * InputEventHandler: a function (the `callback`, possibly None), a description, the
   * learn-mode flag, and an enabled flag that is the only mutable part.
   */
  class InputEventHandler {
    const callback: Option<Callable>
    const description: string
    const learnModeEnabled: bool
    var enabled: bool

    constructor (callback: Option<Callable>, description: string, learnModeEnabled: bool, enabled: bool)
      ensures this.callback == callback && this.description == description
      ensures this.learnModeEnabled == learnModeEnabled && this.enabled == enabled
    {
      this.callback := callback;
      this.description := description;
      this.learnModeEnabled := learnModeEnabled;
      this.enabled := enabled;
    }

    /** is_enabled (input_event.py:1060-1065). */
    function IsEnabled(): (r: bool)
      reads this
    {
      enabled
    }

    /** set_enabled (input_event.py:1067-1070): only the enabled flag changes. */
    method SetEnabled(enabled: bool)
      modifies this
      ensures IsEnabled() == enabled
    {
      this.enabled := enabled;
    }

    /**
     * __eq__ (input_event.py:1049-1055): no handler is never equal; otherwise
     * handlers are equal when they call the same function (two handlers
     * without a function are equal).
     */
    function Equals(other: Option<InputEventHandler>): (r: bool)
      ensures other == Some(this) ==> r
      ensures other.None? ==> !r
    {
      other.Some? && other.value.callback == callback
    }
  }

  /**
   * Handler equality ignores the description and both flags (it reads no
   * mutable state, so set_enabled cannot change it), and is reflexive,
   * symmetric and transitive on present handlers.
   */
  lemma HandlerEqualityIsByFunction(a: InputEventHandler, b: InputEventHandler, c: InputEventHandler)
    ensures a.Equals(Some(a))
    ensures !a.Equals(None)
    ensures a.Equals(Some(b)) <==> a.callback == b.callback
    ensures a.Equals(Some(b)) <==> b.Equals(Some(a))
    ensures a.Equals(Some(b)) && b.Equals(Some(c)) ==> a.Equals(Some(c))
  {
  }

  /**
   * _getUserHandler (input_event.py:696-713). The user's key-bindings map is
   * given as, for each key present in settings.keyBindingsMap, the handler
   * that table's getInputHandler finds for this event. The table named after
   * the script's module is used when there is one, else the "default"
   * table; no script reads as no module. A missing table yields no handler.
   */
  function UserKeyHandler<H>(keyBindingsMap: map<string, Option<H>>, scriptModule: Option<string>): (h: Option<H>)
    ensures h.Some? ==> exists k | k in keyBindingsMap :: keyBindingsMap[k] == h && (k == "default" || Some(k) == scriptModule)
    ensures scriptModule.Some? && scriptModule.value in keyBindingsMap ==> h == keyBindingsMap[scriptModule.value]
  {
    if scriptModule.Some? && scriptModule.value in keyBindingsMap then keyBindingsMap[scriptModule.value]
    else if "default" in keyBindingsMap then keyBindingsMap["default"]
    else None
  }

  /**
   * The "default" table is consulted exactly when the script has no table
   * of its own: a script table without a binding for the event hides the
   * default one.
   */
  lemma UserKeyHandlerShadowsDefault<H>(keyBindingsMap: map<string, Option<H>>, scriptModule: Option<string>)
    ensures (scriptModule.None? || scriptModule.value !in keyBindingsMap) && "default" in keyBindingsMap ==>
              UserKeyHandler(keyBindingsMap, scriptModule) == keyBindingsMap["default"]
    ensures scriptModule.Some? && scriptModule.value in keyBindingsMap && keyBindingsMap[scriptModule.value].None? ==>
              UserKeyHandler(keyBindingsMap, scriptModule).None?
    ensures (scriptModule.None? || scriptModule.value !in keyBindingsMap) && "default" !in keyBindingsMap ==>
              UserKeyHandler(keyBindingsMap, scriptModule).None?
  {
  }

  /**
   * The user braille table getHandler consults (input_event.py:902-907):
   * the one named after the script, else the "default" one, else none.
   */
  function UserBrailleTable<H>(userMap: map<string, map<int, H>>, scriptName: string): (t: Option<map<int, H>>)
    ensures scriptName in userMap ==> t == Some(userMap[scriptName])
    ensures scriptName !in userMap ==> t == (if "default" in userMap then Some(userMap["default"]) else None)
  {
    if scriptName in userMap then Some(userMap[scriptName])
    else if "default" in userMap then Some(userMap["default"])
    else None
  }

  /**
   * BrailleEvent.getHandler (input_event.py:898-918): the chosen user table's
   * handler when it binds the command, otherwise the script's own table's.
   */
  function BrailleHandler<H>(userMap: map<string, map<int, H>>, scriptName: string, scriptTable: map<int, H>, command: int): (h: Option<H>)
    ensures h.Some? ==>
              (UserBrailleTable(userMap, scriptName).Some? && command in UserBrailleTable(userMap, scriptName).value
               && h.value == UserBrailleTable(userMap, scriptName).value[command])
              || (command in scriptTable && h.value == scriptTable[command])
    ensures h.None? <==>
              command !in scriptTable &&
              (UserBrailleTable(userMap, scriptName).None? || command !in UserBrailleTable(userMap, scriptName).value)
  {
    var user := UserBrailleTable(userMap, scriptName);
    if user.Some? && command in user.value then Some(user.value[command])
    else if command in scriptTable then Some(scriptTable[command])
    else None
  }

  /**
   * Layering of braille lookups: a user binding wins over the script's
   * table; a table named after the script hides "default" even when it
   * lacks the command, so the script's own table answers then.
   */
  lemma BrailleLookupLayers<H>(userMap: map<string, map<int, H>>, scriptName: string, scriptTable: map<int, H>, command: int)
    ensures scriptName in userMap && command in userMap[scriptName] ==>
              BrailleHandler(userMap, scriptName, scriptTable, command) == Some(userMap[scriptName][command])
    ensures scriptName !in userMap && "default" in userMap && command in userMap["default"] ==>
              BrailleHandler(userMap, scriptName, scriptTable, command) == Some(userMap["default"][command])
    ensures scriptName in userMap && command !in userMap[scriptName] ==>
              BrailleHandler(userMap, scriptName, scriptTable, command) ==
                (if command in scriptTable then Some(scriptTable[command]) else None)
  {
  }
}
