/**
 * Keyboard-event text normalisation and classification into one key-type
 * tag, the cached `is*Key` queries, printability, the locking state and
 * the echo decision.
 *
 * Python's str.isalpha, isnumeric, isprintable and isspace are not defined
 * here: they come in as a `CharClasses` record of predicates on characters.
 */
module KeyClassifier {

  import opened Wrappers
  import opened Modifiers

  /** The character predicates of the platform's string type. */
  datatype CharClasses = CharClasses(
    isAlpha: char -> bool,
    isNumeric: char -> bool,
    isPrintable: char -> bool,
    isSpace: char -> bool)

  /** The key-type tags of KeyboardEvent (input_event.py:101-112). Printable is never assigned. */
  datatype KeyType =
    | Unknown | Printable | Modifier | Locking | Function | Action
    | Navigation | Diacritical | Alphabetic | Numeric | Punctuation | Space

  /** The tag's string value. */
  function TagName(t: KeyType): string {
    match t
    case Unknown => "unknown"
    case Printable => "printable"
    case Modifier => "modifier"
    case Locking => "locking"
    case Function => "function"
    case Action => "action"
    case Navigation => "navigation"
    case Diacritical => "diacritical"
    case Alphabetic => "alphabetic"
    case Numeric => "numeric"
    case Punctuation => "punctuation"
    case Space => "space"
  }

  // ---------------------------------------------------------------------
  // Key-name lists (input_event.py:494-636)

  const NavigationNames: seq<string> := ["Left", "Right", "Up", "Down", "Home", "End"]
  const ActionNames: seq<string> := ["Return", "Escape", "Tab", "BackSpace", "Delete", "Page_Up", "Page_Down"]
  const FunctionNames: seq<string> := ["F1", "F2", "F3", "F4", "F5", "F6", "F7", "F8", "F9", "F10", "F11", "F12"]
  const LockingNames: seq<string> := ["Caps_Lock", "Shift_Lock", "Num_Lock", "Scroll_Lock"]
  const ModifierNames: seq<string> :=
    ["Alt_L", "Alt_R", "Control_L", "Control_R", "Shift_L", "Shift_R", "Meta_L", "Meta_R", "ISO_Level3_Shift"]
  const SpaceNames: seq<string> := ["space", " "]

  /**
   * GDK_PUNCTUATION_KEYS (input_event.py:114-170): the X11 keysyms of these
   * symbols, which are their Latin-1 (for EuroSign, Unicode) code points.
   */
  const GdkPunctuationKeys: seq<int> := [
    0xb4 /* acute */, 0x26 /* ampersand */, 0x27 /* apostrophe */, 0x5e /* asciicircum */,
    0x7e /* asciitilde */, 0x2a /* asterisk */, 0x40 /* at */, 0x5c /* backslash */,
    0x7c /* bar */, 0x7b /* braceleft */, 0x7d /* braceright */, 0x5b /* bracketleft */,
    0x5d /* bracketright */, 0xa6 /* brokenbar */, 0xb8 /* cedilla */, 0xa2 /* cent */,
    0x3a /* colon */, 0x2c /* comma */, 0xa9 /* copyright */, 0xa4 /* currency */,
    0xb0 /* degree */, 0xa8 /* diaeresis */, 0x24 /* dollar */, 0x20ac /* EuroSign */,
    0x3d /* equal */, 0x21 /* exclam */, 0xa1 /* exclamdown */, 0x60 /* grave */,
    0x3e /* greater */, 0xab /* guillemotleft */, 0xbb /* guillemotright */, 0xad /* hyphen */,
    0x3c /* less */, 0xaf /* macron */, 0x2d /* minus */, 0xac /* notsign */,
    0x23 /* numbersign */, 0xb6 /* paragraph */, 0x28 /* parenleft */, 0x29 /* parenright */,
    0x25 /* percent */, 0x2e /* period */, 0xb7 /* periodcentered */, 0x2b /* plus */,
    0xb1 /* plusminus */, 0x3f /* question */, 0xbf /* questiondown */, 0x22 /* quotedbl */,
    0x60 /* quoteleft */, 0x27 /* quoteright */, 0xae /* registered */, 0xa7 /* section */,
    0x3b /* semicolon */, 0x2f /* slash */, 0xa3 /* sterling */, 0x5f /* underscore */,
    0xa5 /* yen */]

  /** GDK_ACCENTED_LETTER_KEYS (input_event.py:172-225), as X11 Latin-1 keysyms. */
  const GdkAccentedLetterKeys: seq<int> := [
    0xc1, 0xe1, 0xc2, 0xe2, 0xc4, 0xe4, 0xc0, 0xe0, 0xc5, 0xe5, 0xc3, 0xe3,  // A
    0xc7, 0xe7,                                                              // C cedilla
    0xc9, 0xe9, 0xca, 0xea, 0xcb, 0xeb, 0xc8, 0xe8,                          // E
    0xcd, 0xed, 0xce, 0xee, 0xcf, 0xef, 0xcc, 0xec,                          // I
    0xd1, 0xf1,                                                              // N tilde
    0xd3, 0xf3, 0xd4, 0xf4, 0xd6, 0xf6, 0xd2, 0xf2, 0xd8, 0xf8, 0xd5, 0xf5,  // O
    0xda, 0xfa, 0xdb, 0xfb, 0xdc, 0xfc, 0xd9, 0xf9,                          // U
    0xdd, 0xfd]                                                              // Y

  /**
   * The keysym is one whose text some implementors report as its key name.
   * Every listed keysym is below 0x2100, so the range conjunct only makes
   * the character conversion total.
   */
  predicate IsSymbolKeysym(keysym: int) {
    0 <= keysym < 0xD800 && (keysym in GdkPunctuationKeys || keysym in GdkAccentedLetterKeys)
  }

  /** Python's chr on a listed keysym: the character with that code point. */
  function KeysymChar(keysym: int): (c: char)
    requires IsSymbolKeysym(keysym)
    ensures c as int == keysym
  {
    keysym as char
  }

  /**
   * The event text the source keeps (input_event.py:248-251, 265-275): empty
   * or " " becomes the keyval name; a name longer than one character for a
   * punctuation or accented-letter keysym becomes that single character.
   */
  function NormaliseText(text: string, keyvalName: string, keysym: int): (es: string)
    ensures es == "" ==> keyvalName == "" && (text == "" || text == " ")
    ensures es == " " ==> keyvalName == " " || keysym == 0x20
    ensures IsSymbolKeysym(keysym) ==> |es| <= 1
    ensures IsSymbolKeysym(keysym) && |es| == 1 && es != text && es != keyvalName ==> es == [KeysymChar(keysym)]
    ensures IsSymbolKeysym(keysym) && |(if text == "" || text == " " then keyvalName else text)| > 1 ==>
              es == [KeysymChar(keysym)]
    ensures text != "" && text != " " && (|text| <= 1 || !IsSymbolKeysym(keysym)) ==> es == text
    ensures (text == "" || text == " ") && (|keyvalName| <= 1 || !IsSymbolKeysym(keysym)) ==> es == keyvalName
  {
    var fromName := if text == "" || text == " " then keyvalName else text;
    var populated := if fromName == "" then keyvalName else fromName;
    if |populated| > 1 && IsSymbolKeysym(keysym) then [KeysymChar(keysym)] else populated
  }

  /** A punctuation keysym reported by its name is replaced by its character. */
  lemma NamedPunctuationBecomesCharacter()
    ensures NormaliseText("comma", "comma", 0x2c) == ","
  {
    assert GdkPunctuationKeys[17] == 0x2c;
  }

  /** An accented letter with empty text takes its character. */
  lemma NamedAccentedLetterBecomesCharacter()
    ensures NormaliseText("", "eacute", 0xe9) == "é"
  {
    assert GdkAccentedLetterKeys[15] == 0xe9;
  }

  // ---------------------------------------------------------------------
  // Classification

  predicate StartsWith(s: string, prefix: string) {
    |prefix| <= |s| && s[..|prefix|] == prefix
  }

  /**
   * The test each `is*Key` query applies when no tag is cached yet
   * (input_event.py:494-636). `isOrca` is isOrcaModifier() of the event.
   */
  function Matches(t: KeyType, es: string, isOrca: bool, cc: CharClasses): (r: bool)
    ensures t == Unknown || t == Printable ==> !r
    ensures r && t in {Alphabetic, Numeric, Punctuation} ==> |es| == 1
    ensures r && t == Punctuation ==> !cc.isAlpha(es[0]) && !cc.isNumeric(es[0]) && !cc.isSpace(es[0])
    ensures isOrca ==> (t == Modifier ==> r)
  {
    match t
    case Navigation => es in NavigationNames
    case Action => es in ActionNames
    case Modifier => isOrca || es in ModifierNames
    case Function => es in FunctionNames
    case Diacritical => StartsWith(es, "dead_")
    case Locking => es in LockingNames
    case Alphabetic => |es| == 1 && cc.isAlpha(es[0])
    case Numeric => |es| == 1 && cc.isNumeric(es[0])
    case Punctuation =>
      |es| == 1 && !cc.isAlpha(es[0]) && !cc.isNumeric(es[0]) && cc.isPrintable(es[0]) && !cc.isSpace(es[0])
    case Space => es in SpaceNames
    case Unknown => false
    case Printable => false
  }

  /** The precedence in which the constructor tries the categories (input_event.py:326-349). */
  const ClassificationOrder: seq<KeyType> :=
    [Navigation, Action, Modifier, Function, Diacritical, Locking, Alphabetic, Numeric, Punctuation, Space]

  /** Reference definition: the first category of `order` whose test matches, else Unknown. */
  function FirstMatch(order: seq<KeyType>, es: string, isOrca: bool, cc: CharClasses): (t: KeyType)
    ensures t == Unknown || t in order
  {
    if order == [] then Unknown
    else if Matches(order[0], es, isOrca, cc) then order[0]
    else FirstMatch(order[1..], es, isOrca, cc)
  }

  /** FirstMatch returns a category of the order that matches and no earlier one matches. */
  lemma {:induction false} FirstMatchIsFirst(order: seq<KeyType>, es: string, isOrca: bool, cc: CharClasses)
    ensures var t := FirstMatch(order, es, isOrca, cc);
            && (t == Unknown <==> forall i | 0 <= i < |order| :: !Matches(order[i], es, isOrca, cc))
            && (t != Unknown ==> exists k | 0 <= k < |order| :: order[k] == t && Matches(t, es, isOrca, cc)
                                   && forall j | 0 <= j < k :: !Matches(order[j], es, isOrca, cc))
  {
    if order != [] && !Matches(order[0], es, isOrca, cc) {
      FirstMatchIsFirst(order[1..], es, isOrca, cc);
      var t := FirstMatch(order, es, isOrca, cc);
      if t != Unknown {
        var k :| 0 <= k < |order[1..]| && order[1..][k] == t && Matches(t, es, isOrca, cc)
                 && forall j | 0 <= j < k :: !Matches(order[1..][j], es, isOrca, cc);
        assert order[k + 1] == t;
        forall j | 0 <= j < k + 1 ensures !Matches(order[j], es, isOrca, cc) {
          if j > 0 { assert order[j] == order[1..][j - 1]; }
        }
      } else {
        forall i | 0 <= i < |order| ensures !Matches(order[i], es, isOrca, cc) {
          if i > 0 { assert order[i] == order[1..][i - 1]; }
        }
      }
    }
  }

  /** A category that matches bounds the search: nothing after it is returned. */
  lemma {:induction false} FirstMatchStopsAt(order: seq<KeyType>, k: nat, es: string, isOrca: bool, cc: CharClasses)
    requires k < |order| && Matches(order[k], es, isOrca, cc)
    ensures exists j | 0 <= j <= k :: FirstMatch(order, es, isOrca, cc) == order[j]
  {
    if !Matches(order[0], es, isOrca, cc) {
      FirstMatchStopsAt(order[1..], k - 1, es, isOrca, cc);
      var j :| 0 <= j <= k - 1 && FirstMatch(order[1..], es, isOrca, cc) == order[1..][j];
      assert FirstMatch(order, es, isOrca, cc) == order[j + 1];
    } else {
      assert FirstMatch(order, es, isOrca, cc) == order[0];
    }
  }

  /**
   * The constructor's classification (input_event.py:326-349): its if-chain
   * tries the categories in ClassificationOrder and keeps the first match.
   */
  function Classify(es: string, isOrca: bool, cc: CharClasses): (t: KeyType)
    ensures t != Printable
  {
    assert Printable !in ClassificationOrder;
    FirstMatch(ClassificationOrder, es, isOrca, cc)
  }

  /**
   * Every event gets exactly one tag: the first category, in the source's
   * precedence, whose test matches, or Unknown when none does.
   */
  lemma ClassifyIsFirstMatch(es: string, isOrca: bool, cc: CharClasses)
    ensures var t := Classify(es, isOrca, cc);
            && (t == Unknown <==> forall i | 0 <= i < |ClassificationOrder| :: !Matches(ClassificationOrder[i], es, isOrca, cc))
            && (t != Unknown ==> exists k | 0 <= k < |ClassificationOrder| :: ClassificationOrder[k] == t && Matches(t, es, isOrca, cc)
                                   && forall j | 0 <= j < k :: !Matches(ClassificationOrder[j], es, isOrca, cc))
  {
    FirstMatchIsFirst(ClassificationOrder, es, isOrca, cc);
  }

  /** A digit is numeric, never punctuation: the numeric test comes first and punctuation excludes it. */
  lemma DigitIsNotPunctuation(es: string, isOrca: bool, cc: CharClasses)
    requires |es| == 1 && cc.isNumeric(es[0])
    ensures Classify(es, isOrca, cc) != Punctuation
  {
    FirstMatchStopsAt(ClassificationOrder, 7, es, isOrca, cc);
  }

  // ---------------------------------------------------------------------
  // Cached queries

  /** Substring test, Python's `needle in haystack` on strings. */
  predicate IsInfix(needle: string, haystack: string)
    decreases |haystack|
  {
    if |needle| > |haystack| then false
    else haystack[..|needle|] == needle || (|haystack| > 0 && IsInfix(needle, haystack[1..]))
  }

  /**
   * The answer of a query for tag `t` once the tag `cached` is set: tag
   * equality, except that isLockingKey tests whether the cached tag's string
   * is a substring of "locking" (input_event.py:545-546).
   */
  predicate CachedIs(cached: KeyType, t: KeyType) {
    if t == Locking then IsInfix(TagName(cached), TagName(Locking)) else cached == t
  }

  /** Every character of a substring occurs in the string. */
  lemma {:induction false} InfixCharsOccur(needle: string, haystack: string)
    requires IsInfix(needle, haystack)
    ensures forall i | 0 <= i < |needle| :: needle[i] in haystack
    decreases |haystack|
  {
    if haystack[..|needle|] != needle {
      InfixCharsOccur(needle, haystack[1..]);
      forall i | 0 <= i < |needle| ensures needle[i] in haystack {
        var j :| 0 <= j < |haystack[1..]| && haystack[1..][j] == needle[i];
        assert haystack[j + 1] == needle[i];
      }
    } else {
      forall i | 0 <= i < |needle| ensures needle[i] in haystack {
        assert haystack[i] == needle[i];
      }
    }
  }

  /** A string with a character that "locking" lacks is not a substring of it. */
  lemma NotInfixOfLocking(s: string, i: nat)
    requires i < |s| && s[i] !in "locking"
    ensures !IsInfix(s, "locking")
  {
    if IsInfix(s, "locking") {
      InfixCharsOccur(s, "locking");
    }
  }

  /** No other tag's string is a substring of "locking", so the cached locking query is tag equality. */
  lemma CachedIsExact(cached: KeyType, t: KeyType)
    ensures CachedIs(cached, t) <==> cached == t
  {
    if t == Locking {
      match cached
      case Unknown => NotInfixOfLocking("unknown", 0);
      case Printable => NotInfixOfLocking("printable", 0);
      case Modifier => NotInfixOfLocking("modifier", 0);
      case Locking => assert "locking"[..7] == "locking";
      case Function => NotInfixOfLocking("function", 0);
      case Action => NotInfixOfLocking("action", 0);
      case Navigation => NotInfixOfLocking("navigation", 1);
      case Diacritical => NotInfixOfLocking("diacritical", 0);
      case Alphabetic => NotInfixOfLocking("alphabetic", 0);
      case Numeric => NotInfixOfLocking("numeric", 1);
      case Punctuation => NotInfixOfLocking("punctuation", 0);
      case Space => NotInfixOfLocking("space", 0);
    }
  }

  /**
   * The `is*Key` query for tag `t` (input_event.py:494-636): the cached tag
   * decides once it is set, the category test before.
   */
  function IsKey(cache: Option<KeyType>, t: KeyType, es: string, isOrca: bool, cc: CharClasses): (r: bool)
    ensures cache.Some? ==> (r <==> cache.value == t)
    ensures cache.None? ==> (r <==> Matches(t, es, isOrca, cc))
  {
    if cache.Some? then CachedIsExact(cache.value, t); CachedIs(cache.value, t) else Matches(t, es, isOrca, cc)
  }

  /**
   * Once the tag is set every query answers "is it this tag", whatever the
   * text, so repeated queries give the same answer.
   */
  lemma CachedQueriesAreStable(cached: KeyType, t: KeyType, es: string, es': string, isOrca: bool, isOrca': bool, cc: CharClasses)
    ensures IsKey(Some(cached), t, es, isOrca, cc) <==> cached == t
    ensures IsKey(Some(cached), t, es, isOrca, cc) == IsKey(Some(cached), t, es', isOrca', cc)
  {
    CachedIsExact(cached, t);
  }

  /** The tag classification assigns is the one category whose cached query holds. */
  lemma ClassifiedEventAnswersOneQuery(es: string, isOrca: bool, cc: CharClasses, t: KeyType)
    ensures IsKey(Some(Classify(es, isOrca, cc)), t, es, isOrca, cc) <==> t == Classify(es, isOrca, cc)
  {
    CachedIsExact(Classify(es, isOrca, cc), t);
  }

  /** isPrintableKey (input_event.py:600-609). */
  function IsPrintableKey(es: string, cc: CharClasses): (r: bool)
    ensures Matches(Space, es, false, cc) ==> r
    ensures Matches(Punctuation, es, false, cc) ==> r
    ensures r ==> es in SpaceNames || |es| == 1
  {
    es in SpaceNames || (|es| == 1 && cc.isPrintable(es[0]))
  }

  /**
   * getLockingState (input_event.py:649-666): Some(true) when the event locked
   * a locking key, Some(false) when it unlocked it, None when unknown or not
   * a locking key. Shift_Lock is read from the SHIFT bit, as written.
   */
  function LockingState(cache: Option<KeyType>, es: string, isOrca: bool, modifiers: Mask, cc: CharClasses): (r: Option<bool>)
    ensures r.Some? ==> IsKey(cache, Locking, es, isOrca, cc)
    ensures r.Some? <==> IsKey(cache, Locking, es, isOrca, cc) && es in ["Caps_Lock", "Shift_Lock", "Num_Lock"]
    ensures r.Some? && es == "Caps_Lock" ==> r.value == (ShiftLockBit !in modifiers)
    ensures r.Some? && es == "Shift_Lock" ==> r.value == (ShiftBit !in modifiers)
    ensures r.Some? && es == "Num_Lock" ==> r.value == (NumLockBit !in modifiers)
  {
    if !IsKey(cache, Locking, es, isOrca, cc) then None
    else if es == "Caps_Lock" then Some(ShiftLockBit !in modifiers)
    else if es == "Shift_Lock" then Some(ShiftBit !in modifiers)
    else if es == "Num_Lock" then Some(NumLockBit !in modifiers)
    else None
  }

  // ---------------------------------------------------------------------
  // Echo

  /** The settings shouldEcho reads; None is the tri-state "use the default". */
  datatype EchoSettings = EchoSettings(
    presentLockingKeys: Option<bool>,
    onlySpeakDisplayedText: bool,
    enableKeyEcho: bool,
    enableNavigationKeys: bool,
    enableActionKeys: bool,
    enableModifierKeys: bool,
    enableFunctionKeys: bool,
    enableDiacriticalKeys: Option<bool>,
    enableAlphabeticKeys: bool,
    enableNumericKeys: bool,
    enablePunctuationKeys: bool,
    enableSpace: bool,
    enableEchoByCharacter: bool)

  /**
   * shouldEcho for an event whose tag is `keyType` (input_event.py:730-765).
   * `isTerminal` says whether the event's object is a terminal.
   */
  function ShouldEcho(pressed: bool, isTerminal: bool, keyType: KeyType, s: EchoSettings): (r: bool)
    ensures r ==> pressed || isTerminal
    ensures r && keyType != Locking ==> s.enableKeyEcho
    ensures keyType == Unknown || keyType == Printable ==> !r
  {
    CachedIsExact(keyType, Locking);
    if !(pressed || isTerminal) then false
    else if CachedIs(keyType, Locking) then
      (if s.presentLockingKeys.None? then !s.onlySpeakDisplayedText else s.presentLockingKeys.value)
    else if !s.enableKeyEcho then false
    else if CachedIs(keyType, Navigation) then s.enableNavigationKeys
    else if CachedIs(keyType, Action) then s.enableActionKeys
    else if CachedIs(keyType, Modifier) then s.enableModifierKeys
    else if CachedIs(keyType, Function) then s.enableFunctionKeys
    else if CachedIs(keyType, Diacritical) then
      (if s.enableDiacriticalKeys.None? then !s.onlySpeakDisplayedText else s.enableDiacriticalKeys.value)
    else if CachedIs(keyType, Alphabetic) then s.enableAlphabeticKeys || s.enableEchoByCharacter
    else if CachedIs(keyType, Numeric) then s.enableNumericKeys || s.enableEchoByCharacter
    else if CachedIs(keyType, Punctuation) then s.enablePunctuationKeys || s.enableEchoByCharacter
    else if CachedIs(keyType, Space) then s.enableSpace || s.enableEchoByCharacter
    else false
  }

  /** Nothing echoes unless it is a press or the object is a terminal. */
  lemma EchoNeedsPressOrTerminal(keyType: KeyType, s: EchoSettings)
    ensures !ShouldEcho(false, false, keyType, s)
  {
  }

  /**
   * Locking keys follow presentLockingKeys alone; unset, they echo exactly
   * when not only displayed text is spoken.
   */
  lemma LockingKeyEcho(pressed: bool, isTerminal: bool, s: EchoSettings)
    requires pressed || isTerminal
    ensures ShouldEcho(pressed, isTerminal, Locking, s) ==
              (if s.presentLockingKeys.None? then !s.onlySpeakDisplayedText else s.presentLockingKeys.value)
  {
    CachedIsExact(Locking, Locking);
  }

  /** With key echo off only locking keys can echo. */
  lemma KeyEchoOffSilencesOtherKeys(pressed: bool, isTerminal: bool, keyType: KeyType, s: EchoSettings)
    requires !s.enableKeyEcho && keyType != Locking
    ensures !ShouldEcho(pressed, isTerminal, keyType, s)
  {
    CachedIsExact(keyType, Locking);
  }

  /** Binary categories follow their own flag once key echo is on. */
  lemma BinaryCategoryEcho(pressed: bool, isTerminal: bool, keyType: KeyType, s: EchoSettings)
    requires pressed || isTerminal
    requires s.enableKeyEcho
    ensures keyType == Navigation ==> ShouldEcho(pressed, isTerminal, keyType, s) == s.enableNavigationKeys
    ensures keyType == Action ==> ShouldEcho(pressed, isTerminal, keyType, s) == s.enableActionKeys
    ensures keyType == Modifier ==> ShouldEcho(pressed, isTerminal, keyType, s) == s.enableModifierKeys
    ensures keyType == Function ==> ShouldEcho(pressed, isTerminal, keyType, s) == s.enableFunctionKeys
    ensures keyType == Diacritical ==>
              (ShouldEcho(pressed, isTerminal, keyType, s) ==
                 (if s.enableDiacriticalKeys.None? then !s.onlySpeakDisplayedText else s.enableDiacriticalKeys.value))
  {
    CachedIsExact(keyType, Locking);
  }

  /**
   * Character categories echo when their own flag or echo-by-character is
   * set; unknown keys never echo.
   */
  lemma CharacterCategoryEcho(pressed: bool, isTerminal: bool, keyType: KeyType, s: EchoSettings)
    requires pressed || isTerminal
    requires s.enableKeyEcho
    ensures keyType == Alphabetic ==> ShouldEcho(pressed, isTerminal, keyType, s) == (s.enableAlphabeticKeys || s.enableEchoByCharacter)
    ensures keyType == Numeric ==> ShouldEcho(pressed, isTerminal, keyType, s) == (s.enableNumericKeys || s.enableEchoByCharacter)
    ensures keyType == Punctuation ==> ShouldEcho(pressed, isTerminal, keyType, s) == (s.enablePunctuationKeys || s.enableEchoByCharacter)
    ensures keyType == Space ==> ShouldEcho(pressed, isTerminal, keyType, s) == (s.enableSpace || s.enableEchoByCharacter)
    ensures keyType == Unknown ==> !ShouldEcho(pressed, isTerminal, keyType, s)
  {
    CachedIsExact(keyType, Locking);
  }

  /** Turning on echo by character never silences a key. */
  lemma EchoByCharacterIsMonotone(pressed: bool, isTerminal: bool, keyType: KeyType, s: EchoSettings)
    ensures ShouldEcho(pressed, isTerminal, keyType, s) ==>
              ShouldEcho(pressed, isTerminal, keyType, s.(enableEchoByCharacter := true))
  {
  }
}
