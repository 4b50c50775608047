/** The window manager's configuration: the key-binding tables built from
    the default shortcuts, the per-class action lists, and the core
    settings, with the parsers that update them from configuration
    entries.  Warnings the source sends to syslog are appended to `log`. */
module Config {
  import opened Wrappers
  import opened Text
  import opened Utils
  import opened Keyboard
  import Actions

  /** An X key symbol. */
  type KeySym = nat

  /** A default shortcut: the action, its name in the configuration file
      and the key symbol bound to it. */
  datatype Shortcut = Shortcut(action: KeyboardAction, name: string, key: KeySym)

  /** The default shortcuts, in order. */
  function DefaultShortcut(i: nat): Shortcut
    requires i < 27
  {
    match i
    case 0 => Shortcut(ClientNextDesktop, "client-next-desktop", 0x5d)  // XK_bracketright
    case 1 => Shortcut(ClientPrevDesktop, "client-prev-desktop", 0x5b)  // XK_bracketleft
    case 2 => Shortcut(NextDesktop, "next-desktop", 0x2e)  // XK_period
    case 3 => Shortcut(PrevDesktop, "prev-desktop", 0x2c)  // XK_comma
    case 4 => Shortcut(ToggleStick, "toggle-stick", 0x5c)  // XK_backslash
    case 5 => Shortcut(Iconify, "iconify", 0x68)  // XK_h
    case 6 => Shortcut(Keyboard.Maximize, "maximize", 0x6d)  // XK_m
    case 7 => Shortcut(RequestClose, "request-close", 0x63)  // XK_c
    case 8 => Shortcut(ForceClose, "force-close", 0x78)  // XK_x
    case 9 => Shortcut(SnapTop, "snap-top", 0xff52)  // XK_Up
    case 10 => Shortcut(SnapBottom, "snap-bottom", 0xff54)  // XK_Down
    case 11 => Shortcut(SnapLeft, "snap-left", 0xff51)  // XK_Left
    case 12 => Shortcut(SnapRight, "snap-right", 0xff53)  // XK_Right
    case 13 => Shortcut(LayerAbove, "layer-above", 0xff55)  // XK_Page_Up
    case 14 => Shortcut(LayerBelow, "layer-below", 0xff56)  // XK_Page_Down
    case 15 => Shortcut(LayerTop, "layer-top", 0xff50)  // XK_Home
    case 16 => Shortcut(LayerBottom, "layer-bottom", 0xff57)  // XK_End
    case 17 => Shortcut(Layer1, "layer-1", 0x31)  // XK_1
    case 18 => Shortcut(Layer2, "layer-2", 0x32)  // XK_2
    case 19 => Shortcut(Layer3, "layer-3", 0x33)  // XK_3
    case 20 => Shortcut(Layer4, "layer-4", 0x34)  // XK_4
    case 21 => Shortcut(Layer5, "layer-5", 0x35)  // XK_5
    case 22 => Shortcut(Layer6, "layer-6", 0x36)  // XK_6
    case 23 => Shortcut(Layer7, "layer-7", 0x37)  // XK_7
    case 24 => Shortcut(Layer8, "layer-8", 0x38)  // XK_8
    case 25 => Shortcut(Layer9, "layer-9", 0x39)  // XK_9
    case _ => Shortcut(ExitWM, "exit", 0xff1b)  // XK_Escape
  }

  const DEFAULT_SHORTCUTS: seq<Shortcut> := seq(27, i requires 0 <= i < 27 => DefaultShortcut(i))

  /** The position of a key symbol among the default shortcuts, -1 for
      none. */
  function DefaultKeyIndex(key: KeySym): int
  {
    if key == 0x5d then 0
    else if key == 0x5b then 1
    else if key == 0x2e then 2
    else if key == 0x2c then 3
    else if key == 0x5c then 4
    else if key == 0x68 then 5
    else if key == 0x6d then 6
    else if key == 0x63 then 7
    else if key == 0x78 then 8
    else if key == 0xff52 then 9
    else if key == 0xff54 then 10
    else if key == 0xff51 then 11
    else if key == 0xff53 then 12
    else if key == 0xff55 then 13
    else if key == 0xff56 then 14
    else if key == 0xff50 then 15
    else if key == 0xff57 then 16
    else if key == 0x31 then 17
    else if key == 0x32 then 18
    else if key == 0x33 then 19
    else if key == 0x34 then 20
    else if key == 0x35 then 21
    else if key == 0x36 then 22
    else if key == 0x37 then 23
    else if key == 0x38 then 24
    else if key == 0x39 then 25
    else if key == 0xff1b then 26
    else -1
  }

  /** The position of an action among the default shortcuts. */
  function DefaultActionIndex(action: KeyboardAction): int
  {
    match action
    case ClientNextDesktop => 0
    case ClientPrevDesktop => 1
    case NextDesktop => 2
    case PrevDesktop => 3
    case ToggleStick => 4
    case Iconify => 5
    case Maximize => 6
    case RequestClose => 7
    case ForceClose => 8
    case SnapTop => 9
    case SnapBottom => 10
    case SnapLeft => 11
    case SnapRight => 12
    case LayerAbove => 13
    case LayerBelow => 14
    case LayerTop => 15
    case LayerBottom => 16
    case Layer1 => 17
    case Layer2 => 18
    case Layer3 => 19
    case Layer4 => 20
    case Layer5 => 21
    case Layer6 => 22
    case Layer7 => 23
    case Layer8 => 24
    case Layer9 => 25
    case ExitWM => 26
  }

  /** Each default shortcut is found again at its own position by its key. */
  lemma DefaultKeyRoundTrip(i: nat)
    requires i < 27
    ensures DefaultKeyIndex(DefaultShortcut(i).key) == i
  {
  }

  /** Each default shortcut is found again at its own position by its action. */
  lemma DefaultActionRoundTrip(i: nat)
    requires i < 27
    ensures DefaultActionIndex(DefaultShortcut(i).action) == i
  {
  }

  /** No two shortcuts share a key, an action or a name. */
  ghost predicate DistinctShortcuts(s: seq<Shortcut>) {
    forall i, j :: 0 <= i < j < |s| ==>
      s[i].key != s[j].key && s[i].action != s[j].action && s[i].name != s[j].name
  }

  /** The position of a configuration name among the default shortcuts,
      -1 for none. */
  function DefaultNameIndex(name: string): int
  {
    if name == "client-next-desktop" then 0
    else if name == "client-prev-desktop" then 1
    else if name == "next-desktop" then 2
    else if name == "prev-desktop" then 3
    else if name == "toggle-stick" then 4
    else if name == "iconify" then 5
    else if name == "maximize" then 6
    else if name == "request-close" then 7
    else if name == "force-close" then 8
    else if name == "snap-top" then 9
    else if name == "snap-bottom" then 10
    else if name == "snap-left" then 11
    else if name == "snap-right" then 12
    else if name == "layer-above" then 13
    else if name == "layer-below" then 14
    else if name == "layer-top" then 15
    else if name == "layer-bottom" then 16
    else if name == "layer-1" then 17
    else if name == "layer-2" then 18
    else if name == "layer-3" then 19
    else if name == "layer-4" then 20
    else if name == "layer-5" then 21
    else if name == "layer-6" then 22
    else if name == "layer-7" then 23
    else if name == "layer-8" then 24
    else if name == "layer-9" then 25
    else if name == "exit" then 26
    else -1
  }

  /** Each default shortcut is found again at its own position by its
      configuration name. */
  lemma DefaultNameRoundTrip(i: nat)
    requires i < 27
    ensures DefaultNameIndex(DefaultShortcut(i).name) == i
  {
  }

  /** The default shortcuts bind every key, every action and every name
      once. */
  lemma DefaultShortcutsDistinct()
    ensures DistinctShortcuts(DEFAULT_SHORTCUTS)
  {
    forall i | 0 <= i < 27
      ensures DefaultKeyIndex(DEFAULT_SHORTCUTS[i].key) == i
      ensures DefaultActionIndex(DEFAULT_SHORTCUTS[i].action) == i
      ensures DefaultNameIndex(DEFAULT_SHORTCUTS[i].name) == i
    {
      DefaultKeyRoundTrip(i);
      DefaultActionRoundTrip(i);
      DefaultNameRoundTrip(i);
    }
  }

  // The syslog priorities, by their configuration names.
  const SYSLOG_LEVEL: map<string, int> := map[
    "EMERG" := 0, "ALERT" := 1, "CRIT" := 2, "ERR" := 3,
    "WARNING" := 4, "NOTICE" := 5, "INFO" := 6, "DEBUG" := 7]

  /** `LOG_UPTO(LOG_WARNING)`: the mask of the priorities 0 to 4. */
  const DEFAULT_LOG_MASK: int := 31

  // The snapping directions, by their configuration names.
  const SNAP_DIRS: map<string, Actions.SnapDir> := map[
    "left" := Actions.Left, "right" := Actions.Right, "top" := Actions.Top, "bottom" := Actions.Bottom]

  /** The warnings the parsers send to syslog. */
  datatype Warning =
    | InvalidLogLevel(value: string)
    | InvalidCardinal(value: string)
    | InvalidBoolean(value: string)
    | NonexistentKey(section: string, key: string)
    | InvalidAction(action: string)
    | InvalidKeyboardBinding(key: string)
    | InvalidKeyboardShortcut(value: string)
    | KeyBindingCollision(value: string)

  // ---------------------------------------------------------------------
  // The key-binding tables.

  /** The key-to-action table that binding the shortcuts in order builds. */
  function KeyTable(shortcuts: seq<Shortcut>): (r: map<KeySym, KeyboardAction>)
    ensures forall k :: k in r ==> exists i :: 0 <= i < |shortcuts| && shortcuts[i].key == k
  {
    if |shortcuts| == 0 then map[]
    else
      var last := shortcuts[|shortcuts| - 1];
      KeyTable(shortcuts[..|shortcuts| - 1])[last.key := last.action]
  }

  /** The action-to-key table that binding the shortcuts in order builds. */
  function ActionTable(shortcuts: seq<Shortcut>): (r: map<KeyboardAction, KeySym>)
    ensures forall a :: a in r ==> exists i :: 0 <= i < |shortcuts| && shortcuts[i].action == a
  {
    if |shortcuts| == 0 then map[]
    else
      var last := shortcuts[|shortcuts| - 1];
      ActionTable(shortcuts[..|shortcuts| - 1])[last.action := last.key]
  }

  /** The configuration-name-to-action table for the shortcuts. */
  function NameTable(shortcuts: seq<Shortcut>): (r: map<string, KeyboardAction>)
    ensures forall i :: 0 <= i < |shortcuts| ==> shortcuts[i].name in r
  {
    if |shortcuts| == 0 then map[]
    else
      var last := shortcuts[|shortcuts| - 1];
      NameTable(shortcuts[..|shortcuts| - 1])[last.name := last.action]
  }

  /** Every bound key's action is bound back to that key. */
  predicate KeysAgree(keyCommands: map<KeySym, KeyboardAction>, commandKeys: map<KeyboardAction, KeySym>) {
    forall k :: k in keyCommands ==> keyCommands[k] in commandKeys && commandKeys[keyCommands[k]] == k
  }

  /** Every bound action's key is bound back to that action. */
  predicate ActionsAgree(keyCommands: map<KeySym, KeyboardAction>, commandKeys: map<KeyboardAction, KeySym>) {
    forall a :: a in commandKeys ==> commandKeys[a] in keyCommands && keyCommands[commandKeys[a]] == a
  }

  /** The two tables are mutual inverses. */
  predicate Inverse(keyCommands: map<KeySym, KeyboardAction>, commandKeys: map<KeyboardAction, KeySym>) {
    KeysAgree(keyCommands, commandKeys) && ActionsAgree(keyCommands, commandKeys)
  }

  /** Shortcuts that bind each key and each action once build tables that
      are mutual inverses. */
  lemma {:induction false} TablesInverse(shortcuts: seq<Shortcut>)
    requires DistinctShortcuts(shortcuts)
    ensures Inverse(KeyTable(shortcuts), ActionTable(shortcuts))
  {
    if |shortcuts| > 0 {
      var n := |shortcuts| - 1;
      DistinctPrefix(shortcuts);
      TablesInverse(shortcuts[..n]);
      LastUnbound(shortcuts);
      InverseExtend(KeyTable(shortcuts[..n]), ActionTable(shortcuts[..n]), shortcuts[n].key, shortcuts[n].action);
    }
  }

  /** Binding a key and an action that are both still unbound keeps the
      tables inverse. */
  lemma InverseExtend(keyCommands: map<KeySym, KeyboardAction>, commandKeys: map<KeyboardAction, KeySym>,
                      key: KeySym, action: KeyboardAction)
    requires Inverse(keyCommands, commandKeys)
    requires key !in keyCommands && action !in commandKeys
    ensures Inverse(keyCommands[key := action], commandKeys[action := key])
  {
  }

  /** With distinct shortcuts, the last one's key and action are bound by
      none of the others. */
  lemma LastUnbound(shortcuts: seq<Shortcut>)
    requires |shortcuts| > 0 && DistinctShortcuts(shortcuts)
    ensures var n := |shortcuts| - 1;
      && shortcuts[n].key !in KeyTable(shortcuts[..n])
      && shortcuts[n].action !in ActionTable(shortcuts[..n])
  {
    var n := |shortcuts| - 1;
    var prefix := shortcuts[..n];
    forall i | 0 <= i < |prefix| ensures prefix[i].key != shortcuts[n].key && prefix[i].action != shortcuts[n].action {
      assert prefix[i] == shortcuts[i];
    }
  }

  /** Dropping the last shortcut keeps the others distinct. */
  lemma DistinctPrefix(shortcuts: seq<Shortcut>)
    requires |shortcuts| > 0 && DistinctShortcuts(shortcuts)
    ensures DistinctShortcuts(shortcuts[..|shortcuts| - 1])
  {
    var prefix := shortcuts[..|shortcuts| - 1];
    forall i, j | 0 <= i < j < |prefix|
      ensures prefix[i].key != prefix[j].key && prefix[i].action != prefix[j].action && prefix[i].name != prefix[j].name
    {
      assert prefix[i] == shortcuts[i] && prefix[j] == shortcuts[j];
    }
  }

  /** A shortcut whose key no later shortcut binds again keeps its action
      in the key table: the last binding of a key wins. */
  lemma {:induction false} KeyTableLast(shortcuts: seq<Shortcut>, i: nat)
    requires i < |shortcuts|
    requires forall j :: i < j < |shortcuts| ==> shortcuts[j].key != shortcuts[i].key
    ensures shortcuts[i].key in KeyTable(shortcuts)
    ensures KeyTable(shortcuts)[shortcuts[i].key] == shortcuts[i].action
  {
    var n := |shortcuts| - 1;
    if i < n {
      var prefix := shortcuts[..n];
      assert prefix[i] == shortcuts[i];
      forall j | i < j < |prefix| ensures prefix[j].key != prefix[i].key {
        assert prefix[j] == shortcuts[j];
      }
      KeyTableLast(prefix, i);
    }
  }

  /** The last binding of an action wins in the action table. */
  lemma {:induction false} ActionTableLast(shortcuts: seq<Shortcut>, i: nat)
    requires i < |shortcuts|
    requires forall j :: i < j < |shortcuts| ==> shortcuts[j].action != shortcuts[i].action
    ensures shortcuts[i].action in ActionTable(shortcuts)
    ensures ActionTable(shortcuts)[shortcuts[i].action] == shortcuts[i].key
  {
    var n := |shortcuts| - 1;
    if i < n {
      var prefix := shortcuts[..n];
      assert prefix[i] == shortcuts[i];
      forall j | i < j < |prefix| ensures prefix[j].action != prefix[i].action {
        assert prefix[j] == shortcuts[j];
      }
      ActionTableLast(prefix, i);
    }
  }

  /** The last shortcut with a name wins in the name table. */
  lemma {:induction false} NameTableLast(shortcuts: seq<Shortcut>, i: nat)
    requires i < |shortcuts|
    requires forall j :: i < j < |shortcuts| ==> shortcuts[j].name != shortcuts[i].name
    ensures shortcuts[i].name in NameTable(shortcuts)
    ensures NameTable(shortcuts)[shortcuts[i].name] == shortcuts[i].action
  {
    var n := |shortcuts| - 1;
    if i < n {
      var prefix := shortcuts[..n];
      assert prefix[i] == shortcuts[i];
      forall j | i < j < |prefix| ensures prefix[j].name != prefix[i].name {
        assert prefix[j] == shortcuts[j];
      }
      NameTableLast(prefix, i);
    }
  }

  /** Shortcuts that bind each key, action and name once are all bound:
      each key to its action and back, and each name to its action. */
  lemma TablesBindShortcuts(shortcuts: seq<Shortcut>, i: nat)
    requires DistinctShortcuts(shortcuts) && i < |shortcuts|
    ensures var s := shortcuts[i];
      && s.key in KeyTable(shortcuts) && KeyTable(shortcuts)[s.key] == s.action
      && s.action in ActionTable(shortcuts) && ActionTable(shortcuts)[s.action] == s.key
      && s.name in NameTable(shortcuts) && NameTable(shortcuts)[s.name] == s.action
  {
    KeyTableLast(shortcuts, i);
    ActionTableLast(shortcuts, i);
    NameTableLast(shortcuts, i);
  }

  /** A shortcut is bound: its key to its action and back, and its name
      to its action. */
  predicate ShortcutBound(keyCommands: map<KeySym, KeyboardAction>, commandKeys: map<KeyboardAction, KeySym>,
                         configActions: map<string, KeyboardAction>, s: Shortcut) {
    && s.key in keyCommands && keyCommands[s.key] == s.action
    && s.action in commandKeys && commandKeys[s.action] == s.key
    && s.name in configActions && configActions[s.name] == s.action
  }

  /** Every one of the shortcuts is bound. */
  predicate ShortcutsBound(keyCommands: map<KeySym, KeyboardAction>, commandKeys: map<KeyboardAction, KeySym>,
                           configActions: map<string, KeyboardAction>, shortcuts: seq<Shortcut>) {
    forall i :: 0 <= i < |shortcuts| ==> ShortcutBound(keyCommands, commandKeys, configActions, shortcuts[i])
  }

  /** The tables built from the default shortcuts are mutual inverses and
      bind every default shortcut. */
  lemma DefaultTables()
    ensures Inverse(KeyTable(DEFAULT_SHORTCUTS), ActionTable(DEFAULT_SHORTCUTS))
    ensures ShortcutsBound(KeyTable(DEFAULT_SHORTCUTS), ActionTable(DEFAULT_SHORTCUTS), NameTable(DEFAULT_SHORTCUTS), DEFAULT_SHORTCUTS)
  {
    DefaultShortcutsDistinct();
    TablesInverse(DEFAULT_SHORTCUTS);
    forall i | 0 <= i < |DEFAULT_SHORTCUTS|
      ensures ShortcutBound(KeyTable(DEFAULT_SHORTCUTS), ActionTable(DEFAULT_SHORTCUTS), NameTable(DEFAULT_SHORTCUTS), DEFAULT_SHORTCUTS[i])
    {
      TablesBindShortcuts(DEFAULT_SHORTCUTS, i);
    }
  }

  /** The result of one `parse_key_binding` call: its outcome, the two
      tables afterwards and the warnings it logged. */
  datatype Binding = Binding(
    outcome: Outcome,
    keyCommands: map<KeySym, KeyboardAction>,
    commandKeys: map<KeyboardAction, KeySym>,
    warnings: seq<Warning>)

  /** Whether a binding value asks to overwrite an existing binding. */
  predicate Forced(value: string) {
    |value| > 0 && value[0] == '!'
  }

  /** The key name of a binding value, without its `!`. */
  function KeyName(value: string): string {
    if Forced(value) then value[1..] else value
  }

  /** `parse_key_binding(key, value)` on the given tables, with `xk` the
      key names X knows.  An empty value fails with IndexError; an unknown
      action name, an unknown key name, or an already bound key without
      `!` is logged and changes nothing.  Otherwise the action's previous
      key is unbound and the new key bound both ways; if that previous key
      was already taken from the action by a forced binding, the action's
      entry is deleted and then the deletion of the key fails with
      KeyError. */
  function BindKey(keyCommands: map<KeySym, KeyboardAction>, commandKeys: map<KeyboardAction, KeySym>,
                   configActions: map<string, KeyboardAction>, key: string, value: string,
                   xk: map<string, KeySym>): Binding
  {
    if |value| == 0 then Binding(Fail(IndexError), keyCommands, commandKeys, [])
    else if key !in configActions then Binding(Pass, keyCommands, commandKeys, [InvalidKeyboardBinding(key)])
    else if KeyName(value) !in xk then Binding(Pass, keyCommands, commandKeys, [InvalidKeyboardShortcut(KeyName(value))])
    else
      var action := configActions[key];
      var sym := xk[KeyName(value)];
      if !Forced(value) && sym in keyCommands then
        Binding(Pass, keyCommands, commandKeys, [KeyBindingCollision(KeyName(value))])
      else if action in commandKeys && commandKeys[action] !in keyCommands then
        Binding(Fail(KeyError), keyCommands, commandKeys - {action}, [])
      else
        var unbound := if action in commandKeys then keyCommands - {commandKeys[action]} else keyCommands;
        Binding(Pass, unbound[sym := action], (commandKeys - {action})[action := sym], [])
  }

  /** Every call keeps each bound key's action bound back to that key. */
  lemma BindKeepsKeysAgree(keyCommands: map<KeySym, KeyboardAction>, commandKeys: map<KeyboardAction, KeySym>,
                           configActions: map<string, KeyboardAction>, key: string, value: string,
                           xk: map<string, KeySym>)
    requires KeysAgree(keyCommands, commandKeys)
    ensures var b := BindKey(keyCommands, commandKeys, configActions, key, value, xk);
      KeysAgree(b.keyCommands, b.commandKeys)
  {
    var b := BindKey(keyCommands, commandKeys, configActions, key, value, xk);
    if |value| > 0 && key in configActions && KeyName(value) in xk {
      var action := configActions[key];
      var sym := xk[KeyName(value)];
      if b.outcome.Fail? {
        forall k | k in b.keyCommands ensures b.keyCommands[k] in b.commandKeys && b.commandKeys[b.keyCommands[k]] == k {
          assert keyCommands[k] != action;
        }
      } else if Forced(value) || sym !in keyCommands {
        forall k | k in b.keyCommands ensures b.keyCommands[k] in b.commandKeys && b.commandKeys[b.keyCommands[k]] == k {
          if k != sym {
            assert keyCommands[k] != action;
          }
        }
      }
    }
  }

  /** Without `!`, every call keeps the tables mutual inverses. */
  lemma UnforcedBindKeepsInverse(keyCommands: map<KeySym, KeyboardAction>, commandKeys: map<KeyboardAction, KeySym>,
                                 configActions: map<string, KeyboardAction>, key: string, value: string,
                                 xk: map<string, KeySym>)
    requires Inverse(keyCommands, commandKeys)
    requires !Forced(value)
    ensures var b := BindKey(keyCommands, commandKeys, configActions, key, value, xk);
      Inverse(b.keyCommands, b.commandKeys)
  {
    BindKeepsKeysAgree(keyCommands, commandKeys, configActions, key, value, xk);
    var b := BindKey(keyCommands, commandKeys, configActions, key, value, xk);
    if |value| > 0 && key in configActions && KeyName(value) in xk {
      var action := configActions[key];
      var sym := xk[KeyName(value)];
      if sym !in keyCommands {
        forall a | a in b.commandKeys ensures b.commandKeys[a] in b.keyCommands && b.keyCommands[b.commandKeys[a]] == a {
          if a != action {
            assert commandKeys[a] != sym;
            assert action in commandKeys ==> commandKeys[a] != commandKeys[action];
          }
        }
      }
    }
  }

  /** On tables that are mutual inverses, a binding of a known action to a
      known key that is free, or forced, succeeds silently: the key and the
      action are bound to each other, the action's previous key is
      unbound, and every other entry is kept. */
  lemma BindSucceeds(keyCommands: map<KeySym, KeyboardAction>, commandKeys: map<KeyboardAction, KeySym>,
                     configActions: map<string, KeyboardAction>, key: string, value: string,
                     xk: map<string, KeySym>)
    requires Inverse(keyCommands, commandKeys)
    requires |value| > 0 && key in configActions && KeyName(value) in xk
    requires Forced(value) || xk[KeyName(value)] !in keyCommands
    ensures var b := BindKey(keyCommands, commandKeys, configActions, key, value, xk);
      var action := configActions[key];
      var sym := xk[KeyName(value)];
      && b.outcome == Pass && b.warnings == []
      && sym in b.keyCommands && b.keyCommands[sym] == action
      && action in b.commandKeys && b.commandKeys[action] == sym
      && (action in commandKeys && commandKeys[action] != sym ==> commandKeys[action] !in b.keyCommands)
      && (forall k :: k in b.keyCommands && k != sym ==> k in keyCommands && b.keyCommands[k] == keyCommands[k])
      && (forall a :: a in b.commandKeys && a != action ==> a in commandKeys && b.commandKeys[a] == commandKeys[a])
  {
  }

  /** A forced binding of a key that belongs to another action leaves that
      other action's entry pointing at the key it lost, so the tables stop
      being mutual inverses. */
  lemma ForcedStealLeavesStaleEntry(keyCommands: map<KeySym, KeyboardAction>, commandKeys: map<KeyboardAction, KeySym>,
                                    configActions: map<string, KeyboardAction>, key: string, value: string,
                                    xk: map<string, KeySym>)
    requires Inverse(keyCommands, commandKeys)
    requires Forced(value) && key in configActions && KeyName(value) in xk
    requires xk[KeyName(value)] in keyCommands && keyCommands[xk[KeyName(value)]] != configActions[key]
    ensures var b := BindKey(keyCommands, commandKeys, configActions, key, value, xk);
      var sym := xk[KeyName(value)];
      var other := keyCommands[sym];
      && b.outcome == Pass
      && other in b.commandKeys && b.commandKeys[other] == sym
      && b.keyCommands[sym] != other
      && !ActionsAgree(b.keyCommands, b.commandKeys)
  {
    var b := BindKey(keyCommands, commandKeys, configActions, key, value, xk);
    var sym := xk[KeyName(value)];
    var other := keyCommands[sym];
    assert b.commandKeys[other] in b.keyCommands && b.keyCommands[b.commandKeys[other]] != other;
  }

  /** A forced binding that steals a key, followed by a rebinding of the
      robbed action's old key, leaves the first action pointing at a key
      nobody holds; binding that action again then fails with KeyError
      after deleting its entry. */
  lemma StaleEntryKeyError()
    ensures var actions := map["iconify" := Iconify, "exit" := ExitWM];
      var xk := map["a" := 97, "b" := 98];
      var first := BindKey(map[97 := Iconify, 98 := ExitWM], map[Iconify := 97, ExitWM := 98], actions, "iconify", "!b", xk);
      var second := BindKey(first.keyCommands, first.commandKeys, actions, "exit", "a", xk);
      var third := BindKey(second.keyCommands, second.commandKeys, actions, "iconify", "!a", xk);
      && first.outcome == Pass && first.keyCommands == map[98 := Iconify]
      && first.commandKeys == map[Iconify := 98, ExitWM := 98]
      && second.outcome == Pass && second.keyCommands == map[97 := ExitWM]
      && second.commandKeys == map[Iconify := 98, ExitWM := 97]
      && third.outcome == Fail(KeyError)
      && third.keyCommands == map[97 := ExitWM] && third.commandKeys == map[ExitWM := 97]
  {
    var actions := map["iconify" := Iconify, "exit" := ExitWM];
    var xk := map["a" := 97, "b" := 98];
    assert KeyName("!b") == "b" && Forced("!b");
    assert KeyName("!a") == "a" && Forced("!a");
    var first := BindKey(map[97 := Iconify, 98 := ExitWM], map[Iconify := 97, ExitWM := 98], actions, "iconify", "!b", xk);
    assert first.keyCommands == map[98 := Iconify];
    var second := BindKey(first.keyCommands, first.commandKeys, actions, "exit", "a", xk);
    assert second.keyCommands == map[97 := ExitWM];
  }

  /** The logged refusals change neither table, and an empty value fails
      before anything is looked up. */
  lemma BindRefusalsChangeNothing(keyCommands: map<KeySym, KeyboardAction>, commandKeys: map<KeyboardAction, KeySym>,
                                  configActions: map<string, KeyboardAction>, key: string, value: string,
                                  xk: map<string, KeySym>)
    ensures var b := BindKey(keyCommands, commandKeys, configActions, key, value, xk);
      && (|value| == 0 ==> b.outcome == Fail(IndexError) && b.warnings == [])
      && (b.warnings != [] ==> b.outcome == Pass && b.keyCommands == keyCommands && b.commandKeys == commandKeys)
      && (|value| > 0 && (key !in configActions || KeyName(value) !in xk) ==> |b.warnings| == 1)
      && (|value| > 0 && key in configActions && KeyName(value) in xk && !Forced(value) && xk[KeyName(value)] in keyCommands ==>
            b.warnings == [KeyBindingCollision(KeyName(value))])
  {
  }

  // ---------------------------------------------------------------------
  // Class actions.

  /** Python's `str.startswith`. */
  predicate StartsWith(s: string, prefix: string) {
    |prefix| <= |s| && s[..|prefix|] == prefix
  }

  /** The actions a configuration entry can produce: layers are 1..MAX_LAYER. */
  predicate ValidAction(a: Actions.ClassAction) {
    a.SetLayer? ==> 0 < a.layer <= MAX_LAYER
  }

  /** One stripped token of a class-action list: `stick`, `maximize`,
      `layer:<positive int up to MAX_LAYER>` or `snap:<direction>`;
      None for anything else. */
  function ParseAction(token: string): (r: Option<Actions.ClassAction>)
    ensures r.Some? ==> ValidAction(r.value)
  {
    if token == "stick" then Some(Actions.Stick)
    else if token == "maximize" then Some(Actions.Maximize)
    else if StartsWith(token, "layer:") then
      match PositiveInt(token[6..])
      case Ok(layer) => if layer > MAX_LAYER then None else Some(Actions.SetLayer(layer))
      case Err(_) => None
    else if StartsWith(token, "snap:") then
      if token[5..] in SNAP_DIRS then Some(Actions.Snap(SNAP_DIRS[token[5..]])) else None
    else None
  }

  /** The configuration name of a snapping direction. */
  function SnapName(d: Actions.SnapDir): (name: string)
    ensures name in SNAP_DIRS && SNAP_DIRS[name] == d
  {
    match d
    case Left => "left"
    case Right => "right"
    case Top => "top"
    case Bottom => "bottom"
  }

  /** The token that configures an action. */
  function FormatAction(a: Actions.ClassAction): (token: string)
    requires ValidAction(a)
  {
    match a
    case Stick => "stick"
    case Maximize => "maximize"
    case SetLayer(layer) => "layer:" + DigitString(layer, 10)
    case Snap(d) => "snap:" + SnapName(d)
  }

  /** Every action a configuration entry can produce is parsed back from
      the token that configures it. */
  lemma ParseFormatAction(a: Actions.ClassAction)
    requires ValidAction(a)
    ensures ParseAction(FormatAction(a)) == Some(a)
  {
    var token := FormatAction(a);
    match a
    case Stick =>
    case Maximize =>
    case SetLayer(layer) =>
      var digits := DigitString(layer, 10);
      assert token[..6] == "layer:" && token[6..] == digits;
      assert token != "stick" && token != "maximize" by {
        assert token[0] == 'l';
      }
      DigitStringLength(layer, 10);
      PositiveIntDecimal(layer);
    case Snap(d) =>
      assert token[..5] == "snap:" && token[5..] == SnapName(d);
      assert token != "stick" && token != "maximize" by {
        assert token[1] == 'n';
      }
      assert !StartsWith(token, "layer:") by {
        assert token[0] == 's';
      }
  }

  /** A layer with an information separator before it is refused, like
      any other layer `positive_int` refuses. */
  lemma ParseActionRefusesInfoSeparator()
    ensures ParseAction("layer:\U{1C}5") == None
  {
    var token := "layer:\U{1C}5";
    assert token[..6] == "layer:" && token[6..] == "\U{1C}5";
    assert token != "stick" && token != "maximize" by {
      assert token[0] == 'l';
    }
    PositiveIntRefusesInfoSeparators();
  }

  /** A configured token holds no comma and no surrounding space. */
  lemma FormatActionPlain(a: Actions.ClassAction)
    requires ValidAction(a)
    ensures ',' !in FormatAction(a)
    ensures Strip(FormatAction(a)) == FormatAction(a)
  {
    var token := FormatAction(a);
    if a.SetLayer? {
      var digits := DigitString(a.layer, 10);
      assert token == "layer:" + digits;
      DigitStringUnspaced(a.layer, 10);
      forall i | 0 <= i < |token| ensures token[i] != ',' {
        if i >= 6 {
          assert token[i] == digits[i - 6];
          assert DigitValue(digits[i - 6]) < 10;
        }
      }
      assert token[|token| - 1] == digits[|digits| - 1];
    } else if a.Snap? {
      assert token == "snap:" + SnapName(a.direction);
    }
    StripUnspaced(token);
  }

  /** A token parser: the action one stripped token configures, or None. */
  type TokenParser = string -> Option<Actions.ClassAction>

  /** The actions `parse` reads from the pieces of a split entry, in
      order, each piece stripped and the refused ones skipped. */
  function ParsedWith(parse: TokenParser, pieces: seq<string>): (r: seq<Actions.ClassAction>)
    ensures |r| <= |pieces|
  {
    if |pieces| == 0 then []
    else
      var prefix := ParsedWith(parse, pieces[..|pieces| - 1]);
      match parse(Strip(pieces[|pieces| - 1]))
      case Some(a) => prefix + [a]
      case None => prefix
  }

  /** The warnings for the pieces `parse` refuses, in order. */
  function RejectedWith(parse: TokenParser, pieces: seq<string>): (r: seq<Warning>)
    ensures |ParsedWith(parse, pieces)| + |r| == |pieces|
  {
    if |pieces| == 0 then []
    else
      var prefix := RejectedWith(parse, pieces[..|pieces| - 1]);
      var token := Strip(pieces[|pieces| - 1]);
      match parse(token)
      case Some(_) => prefix
      case None => prefix + [InvalidAction(token)]
  }

  /** A parser that yields only valid actions reads only valid actions. */
  lemma {:induction false} ParsedWithValid(parse: TokenParser, pieces: seq<string>)
    requires forall t :: parse(t).Some? ==> ValidAction(parse(t).value)
    ensures forall i :: 0 <= i < |ParsedWith(parse, pieces)| ==> ValidAction(ParsedWith(parse, pieces)[i])
  {
    if |pieces| > 0 {
      ParsedWithValid(parse, pieces[..|pieces| - 1]);
    }
  }

  /** The actions `parse_class_action` reads from the pieces of an entry. */
  function ParsedActions(pieces: seq<string>): (r: seq<Actions.ClassAction>)
    ensures |r| <= |pieces|
    ensures forall i :: 0 <= i < |r| ==> ValidAction(r[i])
  {
    ParsedWithValid(ParseAction, pieces);
    ParsedWith(ParseAction, pieces)
  }

  /** The warnings `parse_class_action` logs for the pieces of an entry. */
  function RejectedActions(pieces: seq<string>): (r: seq<Warning>)
    ensures |ParsedActions(pieces)| + |r| == |pieces|
  {
    RejectedWith(ParseAction, pieces)
  }

  /** The tokens of a list of actions. */
  function FormatPieces(acts: seq<Actions.ClassAction>): (r: seq<string>)
    requires forall i :: 0 <= i < |acts| ==> ValidAction(acts[i])
    ensures |r| == |acts|
    ensures forall i :: 0 <= i < |acts| ==> r[i] == FormatAction(acts[i])
  {
    if |acts| == 0 then [] else FormatPieces(acts[..|acts| - 1]) + [FormatAction(acts[|acts| - 1])]
  }

  /** The entry that configures a non-empty list of actions. */
  function FormatActions(acts: seq<Actions.ClassAction>): string
    requires 1 <= |acts|
    requires forall i :: 0 <= i < |acts| ==> ValidAction(acts[i])
  {
    Join(FormatPieces(acts), ',')
  }

  /** A parser that reads every configured token back reads the tokens
      of a list of actions back to that list, refusing none. */
  lemma {:induction false} ParseFormatPiecesWith(parse: TokenParser, acts: seq<Actions.ClassAction>)
    requires forall i :: 0 <= i < |acts| ==> ValidAction(acts[i])
    requires forall i :: 0 <= i < |acts| ==> parse(Strip(FormatAction(acts[i]))) == Some(acts[i])
    ensures ParsedWith(parse, FormatPieces(acts)) == acts
    ensures RejectedWith(parse, FormatPieces(acts)) == []
  {
    if |acts| > 0 {
      var n := |acts| - 1;
      var pieces := FormatPieces(acts);
      assert |pieces| - 1 == n;
      assert pieces[..n] == FormatPieces(acts[..n]);
      ParseFormatPiecesWith(parse, acts[..n]);
      assert acts[..n] + [acts[n]] == acts;
    }
  }

  /** The tokens of a list of actions parse back to that list, with
      nothing rejected. */
  lemma ParseFormatPieces(acts: seq<Actions.ClassAction>)
    requires forall i :: 0 <= i < |acts| ==> ValidAction(acts[i])
    ensures ParsedActions(FormatPieces(acts)) == acts
    ensures RejectedActions(FormatPieces(acts)) == []
  {
    forall i | 0 <= i < |acts| ensures ParseAction(Strip(FormatAction(acts[i]))) == Some(acts[i]) {
      FormatActionPlain(acts[i]);
      ParseFormatAction(acts[i]);
    }
    ParseFormatPiecesWith(ParseAction, acts);
  }

  /** Every non-empty list of actions is read back, in order and without
      warnings, from the entry that configures it. */
  lemma ParseFormatActions(acts: seq<Actions.ClassAction>)
    requires 1 <= |acts|
    requires forall i :: 0 <= i < |acts| ==> ValidAction(acts[i])
    ensures ParsedActions(Split(FormatActions(acts), ',')) == acts
    ensures RejectedActions(Split(FormatActions(acts), ',')) == []
  {
    var pieces := FormatPieces(acts);
    forall i | 0 <= i < |pieces| ensures ',' !in pieces[i] {
      FormatActionPlain(acts[i]);
    }
    SplitJoin(pieces, ',');
    ParseFormatPieces(acts);
  }

  // ---------------------------------------------------------------------
  // Core settings.

  /** `value.lower()` compared with `true` and `false`. */
  function ParseBool(value: string): (r: Option<bool>)
  {
    var lowered := Lower(value);
    if lowered == "true" then Some(true)
    else if lowered == "false" then Some(false)
    else None
  }

  /** The configuration tests accept `true` and `false` in any case. */
  lemma ParseBoolAnyCase()
    ensures ParseBool("tRue") == Some(true) && ParseBool("TRUE") == Some(true)
    ensures ParseBool("FAlSe") == Some(false)
  {
    assert Lower("tRue") == "true";
    assert Lower("TRUE") == "true";
    assert Lower("FAlSe") == "false";
  }

  /** The configuration tests refuse misspellings of `true` and `false`. */
  lemma ParseBoolRefusesMisspellings()
    ensures ParseBool("ture") == None && ParseBool("flase") == None
  {
    assert Lower("ture") == "ture";
    assert Lower("flase") == "flase";
  }

  /** The keys of the core section. */
  datatype BodyKey = LogLevelKey | ShellKey | DesktopsKey | IconWidthKey | IconHeightKey
                   | BorderWidthKey | IconPixmapsKey | UnknownKey

  /** Which key of the core section an entry names. */
  function BodyKeyOf(key: string): BodyKey
  {
    if key == "log-level" then LogLevelKey
    else if key == "shell" then ShellKey
    else if key == "desktops" then DesktopsKey
    else if key == "icon-width" then IconWidthKey
    else if key == "icon-height" then IconHeightKey
    else if key == "border-width" then BorderWidthKey
    else if key == "icon-pixmaps" then IconPixmapsKey
    else UnknownKey
  }

  /** The name of a key of the core section. */
  function BodyKeyName(field: BodyKey): string
    requires field != UnknownKey
  {
    match field
    case LogLevelKey => "log-level"
    case ShellKey => "shell"
    case DesktopsKey => "desktops"
    case IconWidthKey => "icon-width"
    case IconHeightKey => "icon-height"
    case BorderWidthKey => "border-width"
    case IconPixmapsKey => "icon-pixmaps"
  }

  /** Each key of the core section is recognised by its own name, and only
      those seven names are recognised. */
  lemma BodyKeyNames(key: string, field: BodyKey)
    requires field != UnknownKey
    ensures BodyKeyOf(BodyKeyName(field)) == field
    ensures BodyKeyOf(key) == UnknownKey <==>
      forall f: BodyKey :: f != UnknownKey ==> key != BodyKeyName(f)
  {
    if BodyKeyOf(key) != UnknownKey {
      assert key == BodyKeyName(BodyKeyOf(key));
    }
  }

  /** The warnings `parse_smallwm_body(key, value)` logs. */
  function BodyWarnings(key: string, value: string): seq<Warning>
  {
    match BodyKeyOf(key)
    case LogLevelKey => if value in SYSLOG_LEVEL then [] else [InvalidLogLevel(value)]
    case ShellKey => []
    case IconPixmapsKey => if ParseBool(value).Some? then [] else [InvalidBoolean(value)]
    case UnknownKey => [NonexistentKey("smallwm", "key")]
    case _ => if PositiveInt(value).Ok? then [] else [InvalidCardinal(value)]
  }

  /** The value a numeric setting takes when the entry `key = value` is
      read: the entry's value if it names this setting with a positive
      integer, otherwise the previous one. */
  function Cardinal(field: BodyKey, key: string, value: string, previous: int): int
  {
    if BodyKeyOf(key) == field && PositiveInt(value).Ok? then PositiveInt(value).value else previous
  }

  /** The loop of `parse_class_action` over the pieces of an entry, with
      `parse` reading each stripped piece: the actions of the pieces that
      parse, in order, and a warning for each piece that does not. */
  method ReadActions(pieces: seq<string>, parse: TokenParser)
    returns (actions: seq<Actions.ClassAction>, rejected: seq<Warning>)
    ensures actions == ParsedWith(parse, pieces)
    ensures rejected == RejectedWith(parse, pieces)
  {
    actions, rejected := [], [];
    var i := 0;
    while i < |pieces|
      invariant 0 <= i <= |pieces|
      invariant actions == ParsedWith(parse, pieces[..i])
      invariant rejected == RejectedWith(parse, pieces[..i])
    {
      assert pieces[..i + 1][..i] == pieces[..i];
      assert pieces[..i + 1][i] == pieces[i];
      var action := Strip(pieces[i]);
      match parse(action) {
        case Some(a) =>
          actions := actions + [a];
        case None =>
          rejected := rejected + [InvalidAction(action)];
      }
      i := i + 1;
    }
    assert pieces[..i] == pieces;
  }

  /** Binds the shortcuts in order, both ways, as `SmallWMConfig()` does
      with the default ones. */
  method BindShortcuts(shortcuts: seq<Shortcut>)
    returns (keys: map<KeySym, KeyboardAction>, commands: map<KeyboardAction, KeySym>, names: map<string, KeyboardAction>)
    ensures keys == KeyTable(shortcuts)
    ensures commands == ActionTable(shortcuts)
    ensures names == NameTable(shortcuts)
  {
    keys, commands, names := map[], map[], map[];
    var i := 0;
    while i < |shortcuts|
      invariant 0 <= i <= |shortcuts|
      invariant keys == KeyTable(shortcuts[..i])
      invariant commands == ActionTable(shortcuts[..i])
      invariant names == NameTable(shortcuts[..i])
    {
      var shortcut := shortcuts[i];
      keys := keys[shortcut.key := shortcut.action];
      commands := commands[shortcut.action := shortcut.key];
      names := names[shortcut.name := shortcut.action];
      assert shortcuts[..i + 1][..i] == shortcuts[..i];
      i := i + 1;
    }
    assert shortcuts[..i] == shortcuts;
  }

  // ---------------------------------------------------------------------
  // The configuration object.

  class SmallWMConfig {
    var logMask: int
    var shell: string
    var keyCommands: map<KeySym, KeyboardAction>
    var commandKeys: map<KeyboardAction, KeySym>
    var configActions: map<string, KeyboardAction>
    var numDesktops: int
    var iconWidth: int
    var iconHeight: int
    var borderWidth: int
    var classActions: map<string, seq<Actions.ClassAction>>
    var showPixmaps: bool
    /** The warnings sent to syslog so far. */
    var log: seq<Warning>

    /** The settings are usable: the sizes and the desktop count are
        positive and the log mask is the default mask or a priority. */
    ghost predicate SettingsValid()
      reads this`numDesktops, this`iconWidth, this`iconHeight, this`borderWidth, this`logMask
    {
      && numDesktops > 0 && iconWidth > 0 && iconHeight > 0 && borderWidth > 0
      && (logMask == DEFAULT_LOG_MASK || 0 <= logMask <= 7)
    }

    /** Every configured class action is one a configuration entry can
        produce. */
    ghost predicate ClassActionsValid()
      reads this`classActions
    {
      forall c :: c in classActions ==> forall i :: 0 <= i < |classActions[c]| ==> ValidAction(classActions[c][i])
    }

    /** `SmallWMConfig()`: the default settings, and the default shortcuts
        bound both ways. */
    constructor ()
      ensures logMask == DEFAULT_LOG_MASK && shell == "/usr/bin/xterm"
      ensures keyCommands == KeyTable(DEFAULT_SHORTCUTS)
      ensures commandKeys == ActionTable(DEFAULT_SHORTCUTS)
      ensures configActions == NameTable(DEFAULT_SHORTCUTS)
      ensures Inverse(keyCommands, commandKeys)
      ensures ShortcutsBound(keyCommands, commandKeys, configActions, DEFAULT_SHORTCUTS)
      ensures numDesktops == 5 && iconWidth == 75 && iconHeight == 20 && borderWidth == 2
      ensures classActions == map[] && showPixmaps && log == []
      ensures SettingsValid() && ClassActionsValid()
    {
      var keys, commands, names := BindShortcuts(DEFAULT_SHORTCUTS);
      DefaultTables();
      logMask := DEFAULT_LOG_MASK;
      shell := "/usr/bin/xterm";
      keyCommands := keys;
      commandKeys := commands;
      configActions := names;
      numDesktops := 5;
      iconWidth := 75;
      iconHeight := 20;
      borderWidth := 2;
      classActions := map[];
      showPixmaps := true;
      log := [];
    }

    /** `parse_key_binding(key, value)`, with `xk` the key names X knows. */
    method ParseKeyBinding(key: string, value: string, xk: map<string, KeySym>) returns (r: Outcome)
      modifies this`keyCommands, this`commandKeys, this`log
      ensures var b := BindKey(old(keyCommands), old(commandKeys), configActions, key, value, xk);
        && r == b.outcome
        && keyCommands == b.keyCommands && commandKeys == b.commandKeys
        && log == old(log) + b.warnings
      ensures old(KeysAgree(keyCommands, commandKeys)) ==> KeysAgree(keyCommands, commandKeys)
    {
      if KeysAgree(keyCommands, commandKeys) {
        BindKeepsKeysAgree(keyCommands, commandKeys, configActions, key, value, xk);
      }
      if |value| == 0 {
        return Fail(IndexError);
      }
      var name := value;
      var forceOverwrite := false;
      if value[0] == '!' {
        forceOverwrite := true;
        name := value[1..];
      }
      if key !in configActions {
        log := log + [InvalidKeyboardBinding(key)];
        return Pass;
      }
      var action := configActions[key];
      if name !in xk {
        log := log + [InvalidKeyboardShortcut(name)];
        return Pass;
      }
      var keyBinding := xk[name];
      if !forceOverwrite && keyBinding in keyCommands {
        log := log + [KeyBindingCollision(name)];
        return Pass;
      }
      if action in commandKeys {
        var existingKey := commandKeys[action];
        commandKeys := commandKeys - {action};
        if existingKey !in keyCommands {
          return Fail(KeyError);
        }
        keyCommands := keyCommands - {existingKey};
      }
      keyCommands := keyCommands[keyBinding := action];
      commandKeys := commandKeys[action := keyBinding];
      r := Pass;
    }

    /** `parse_class_action(key, value)`: the class's list becomes the
        actions of the comma-separated, stripped tokens in order; the
        tokens that do not parse are logged and skipped. */
    method ParseClassAction(key: string, value: string)
      requires ClassActionsValid()
      modifies this`classActions, this`log
      ensures classActions == old(classActions)[key := ParsedActions(Split(value, ','))]
      ensures log == old(log) + RejectedActions(Split(value, ','))
      ensures ClassActionsValid()
    {
      var actions, rejected := ReadActions(Split(value, ','), ParseAction);
      classActions := classActions[key := actions];
      log := log + rejected;
    }

    /** `parse_smallwm_body(key, value)`: sets the one setting `key` names
        when `value` is valid for it, and otherwise logs and keeps the
        previous setting. */
    method ParseSmallwmBody(key: string, value: string)
      requires SettingsValid()
      modifies this`logMask, this`shell, this`numDesktops, this`iconWidth, this`iconHeight,
               this`borderWidth, this`showPixmaps, this`log
      ensures logMask == if BodyKeyOf(key) == LogLevelKey && value in SYSLOG_LEVEL then SYSLOG_LEVEL[value] else old(logMask)
      ensures shell == if BodyKeyOf(key) == ShellKey then value else old(shell)
      ensures numDesktops == Cardinal(DesktopsKey, key, value, old(numDesktops))
      ensures iconWidth == Cardinal(IconWidthKey, key, value, old(iconWidth))
      ensures iconHeight == Cardinal(IconHeightKey, key, value, old(iconHeight))
      ensures borderWidth == Cardinal(BorderWidthKey, key, value, old(borderWidth))
      ensures showPixmaps == if BodyKeyOf(key) == IconPixmapsKey && ParseBool(value).Some? then ParseBool(value).value else old(showPixmaps)
      ensures log == old(log) + BodyWarnings(key, value)
      ensures SettingsValid()
    {
      var field := BodyKeyOf(key);
      match field {
        case LogLevelKey =>
          if value in SYSLOG_LEVEL {
            logMask := SYSLOG_LEVEL[value];
          } else {
            log := log + [InvalidLogLevel(value)];
          }
        case ShellKey =>
          shell := value;
        case DesktopsKey =>
          match PositiveInt(value) {
            case Ok(n) => numDesktops := n;
            case Err(_) => log := log + [InvalidCardinal(value)];
          }
        case IconWidthKey =>
          match PositiveInt(value) {
            case Ok(n) => iconWidth := n;
            case Err(_) => log := log + [InvalidCardinal(value)];
          }
        case IconHeightKey =>
          match PositiveInt(value) {
            case Ok(n) => iconHeight := n;
            case Err(_) => log := log + [InvalidCardinal(value)];
          }
        case BorderWidthKey =>
          match PositiveInt(value) {
            case Ok(n) => borderWidth := n;
            case Err(_) => log := log + [InvalidCardinal(value)];
          }
        case IconPixmapsKey =>
          var lowered := Lower(value);
          if lowered == "true" {
            showPixmaps := true;
          } else if lowered == "false" {
            showPixmaps := false;
          } else {
            log := log + [InvalidBoolean(value)];
          }
        case UnknownKey =>
          log := log + [NonexistentKey("smallwm", "key")];
      }
    }
  }
}
