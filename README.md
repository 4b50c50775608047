# SmallWM core, modelled in Dafny

SmallWM is a small X11 window manager. This project models its state-keeping core and proves properties of it:

- **The client registry** (`ClientData`, module `ClientRegistry`). For every managed window it records the desktop, the stacking layer, the location and the size. It also records which window holds the focus and which desktop is shown. Every operation queues change records for the X layer.
  - The desktops are the real ones `1..max_desktops` plus four virtual ones: all desktops `-2`, icons `-3`, moving `-4` and resizing `-5`.
  - Desktop and layer membership are each kept in a `BijectiveSetMapping` (module `CategoryMapping`). Its source is not part of this model, so it is rebuilt from how the registry uses it.
  - The layers are `MIN_LAYER = 1`, `DEFAULT_LAYER = 5` and `MAX_LAYER = 9`. The registry's tests rely on these bounds.
- **The configuration** (`SmallWMConfig`, module `Config`):
  - the default shortcuts and the two key-binding tables built from them;
  - the `[keyboard]` binding parser, with its `!` override;
  - the `[actions]` class-action grammar;
  - the `[smallwm]` core settings.
- **`positive_int`** (module `Utils`). It parses text the way Python's `int(text, 0)` does, then refuses values that are not above zero. As in CPython, a file, group, record or unit separator (U+001C to U+001F) anywhere in the text makes it invalid, although `str.strip` would drop one at either end. A decimal literal with more than 4300 digits (underscores not counted) is refused too, as Python 3.11 and later refuse it by default; prefixed literals have no such limit. Module `Text` holds the `str` operations the parsers rely on: `strip`, `split` and `lower`.
- **The C++ `XModel`** (module `Model`). It holds two icon maps, one keyed by client window and one by icon window. It also holds the one move or resize that may be under way; the first request wins.

Each class and each state-changing method stays imperative, as in the source. Its contract gives the whole new state. A failing call on the client registry, on a `BijectiveSetMapping` or on `XModel` is proved to leave the state and the change queue unchanged. The one failing call that changes state is `parse_key_binding`'s `KeyError`: it has already deleted the action's entry when it fails.

Where the code and its documentation disagree, the model follows the code:

- `remove_client` says it emits no change, but it emits `ChangeFocus(client, None)` when the client is focused.
- `focus` refuses a client on the all-desktops desktop, although such a client is shown.
- `add_client` focuses the new client. The first step of the desktop-cycling tests therefore also emits a `ChangeFocus` record, not just the one record the tests expect.
- `stop_resizing` stores the size height first, while its `ChangeSize` record carries the width first.
- `parse_smallwm_body` logs an unknown key as the literal `smallwm.key`.
- `add_client` with a hint for any initial state other than the normal one evaluates the undefined name `wm`. The model returns `NameError` before anything changes.
- In `parse_key_binding`, a forced binding can steal a key from another action. That action is left pointing at the stolen key. A later binding for it deletes its entry and then fails with `KeyError`, and the model does the same (`Config.StaleEntryKeyError`).

The registry uses layers 1..9, but a class action may ask for a layer up to the `MAX_LAYER = 119` of `utils.py`. Both bounds are kept as the source has them.

## Model

| member | source | states |
|---|---|---|
| CategoryMapping.MembersPartition | src-python/smallwm/client_data.py:117-123 | the per-category member sets partition the elements: each element is in its own category's set and no other |
| CategoryMapping.EmptyCategory | src-python/smallwm/client_data.py:435-436 | a category's member count is zero exactly when no element is filed under it |
| CategoryMapping.MoveChangesTwoCategories | src-python/smallwm/client_data.py:326 | moving one element changes only its old and its new category's member sets, by that element |
| CategoryMapping.BijectiveSetMapping.constructor | src-python/smallwm/client_data.py:117-123 | a mapping over the given categories with no elements |
| CategoryMapping.BijectiveSetMapping.Categories | src-python/smallwm/client_data.py:384 | the fixed category set |
| CategoryMapping.BijectiveSetMapping.Add | src-python/smallwm/client_data.py:199 | files a new element; KeyError for an unknown category, ValueError for an element already filed, and no change on failure |
| CategoryMapping.BijectiveSetMapping.Remove | src-python/smallwm/client_data.py:231-232 | forgets the element; KeyError if it is unknown |
| CategoryMapping.BijectiveSetMapping.Move | src-python/smallwm/client_data.py:326 | refiles the element; KeyError for an unknown element or category, with no change |
| CategoryMapping.BijectiveSetMapping.GetCategoryOf | src-python/smallwm/client_data.py:297 | the element's category, which holds it; KeyError exactly for unknown elements |
| CategoryMapping.BijectiveSetMapping.GetElementsOf | src-python/smallwm/client_data.py:165 | exactly the elements filed under one of the categories; KeyError if one is unknown |
| CategoryMapping.BijectiveSetMapping.Get | src-python/test/test-clientdata.py:103 | exactly the elements of one category; KeyError for an unknown category |
| CategoryMapping.BijectiveSetMapping.CountElementsOf | src-python/smallwm/client_data.py:435-436 | the size of the category's member set as `Get` returns it, so zero exactly when no element is in the category; KeyError for an unknown one |
| CategoryMapping.BijectiveSetMapping.IsElement | src-python/smallwm/client_data.py:246 | true exactly for filed elements |
| ClientRegistry.Interval | src-python/smallwm/client_data.py:120-121 | exactly the integers from lo to hi |
| ClientRegistry.LayerNames | src-python/smallwm/client_data.py:117 | exactly the layers MIN_LAYER..MAX_LAYER |
| ClientRegistry.NextOf | src-python/smallwm/client_data.py:442-445 | the next desktop stays among the real desktops |
| ClientRegistry.PrevOf | src-python/smallwm/client_data.py:461-464 | the previous desktop stays among the real desktops |
| ClientRegistry.NextPrevInverse | src-python/smallwm/client_data.py:442-445 | going forward one desktop and back one (or back then forward) returns to the start |
| ClientRegistry.WrapByDesktopNames | src-python/smallwm/client_data.py:406-408 | the rule "old + 1 (old - 1) unless that is not a desktop, then 1 (max)" is the cyclic successor (predecessor), because no virtual desktop is zero or positive |
| ClientRegistry.StepsForwardWrapsOnce | src-python/smallwm/client_data.py:406-408 | k steps forward, with k up to the desktop count, reach d + k, wrapping once past the last desktop |
| ClientRegistry.StepsForwardPeriod | src-python/smallwm/client_data.py:406-408 | cycling visits every desktop once and is back at the start after exactly max_desktops steps |
| ClientRegistry.Enumerate | src-python/smallwm/client_data.py:185-186 | iterating over a set yields each of its elements once and nothing else |
| ClientRegistry.ClientData.constructor | src-python/smallwm/client_data.py:112-127 | an empty registry showing desktop 1, no focus and an empty queue, with the invariant established |
| ClientRegistry.ClientData.PushChange | src-python/smallwm/client_data.py:129-135 | appends one record to the queue |
| ClientRegistry.ClientData.FlushChanges | src-python/smallwm/client_data.py:137-145 | returns the queued records and leaves the queue empty |
| ClientRegistry.ClientData.FindDesktop | src-python/smallwm/client_data.py:289-297 | the client's desktop, one of the registry's desktops; KeyError exactly for unknown clients |
| ClientRegistry.ClientData.FindLayer | src-python/smallwm/client_data.py:299-307 | the client's layer, within MIN_LAYER..MAX_LAYER; KeyError exactly for unknown clients |
| ClientRegistry.ClientData.IsClient | src-python/smallwm/client_data.py:237-246 | true exactly when the window has a desktop, a layer and a location |
| ClientRegistry.ClientData.IsVisible | src-python/smallwm/client_data.py:147-155 | true exactly when the client is on the current desktop or on all desktops; KeyError for unknown clients |
| ClientRegistry.ClientData.GetClientsOf | src-python/smallwm/client_data.py:157-165 | exactly the clients on one desktop; KeyError for an unknown desktop |
| ClientRegistry.ClientData.GetVisibleClients | src-python/smallwm/client_data.py:167-173 | exactly the registered clients for which is_visible holds |
| ClientRegistry.ClientData.IterByLayer | src-python/smallwm/client_data.py:175-186 | every visible client once, nothing else, in non-decreasing layer order |
| ClientRegistry.ClientData.Unfocus | src-python/smallwm/client_data.py:280-287 | drops the focus; emits ChangeFocus(old, None) only when something was focused |
| ClientRegistry.ClientData.UnfocusIfFocused | src-python/smallwm/client_data.py:265-278 | drops the focus only if the client holds it; KeyError, with no change, for an unknown client |
| ClientRegistry.ClientData.Focus | src-python/smallwm/client_data.py:248-263 | focuses a client on the current desktop and emits ChangeFocus(old, client); KeyError or ValueError, with no change, otherwise |
| ClientRegistry.ClientData.MoveToDesktop | src-python/smallwm/client_data.py:309-327 | equal desktops do and emit nothing; otherwise the client is moved, its focus dropped first when asked, the records emitted in that order, and the invariant kept |
| ClientRegistry.ClientData.AddClient | src-python/smallwm/client_data.py:188-218 | registers the client on the current desktop and the default layer with its geometry, focuses it, and emits desktop, layer and focus records in that order; NameError for a non-normal initial-state hint and ValueError for a known client, both with no change |
| ClientRegistry.ClientData.RemoveClient | src-python/smallwm/client_data.py:220-235 | the client is gone from both tables, location and size, and its focus is dropped; KeyError with no change for an unknown client |
| ClientRegistry.ClientData.ToggleStick | src-python/smallwm/client_data.py:329-349 | moves the client to all desktops or from all desktops to the current one, keeping the focus; ValueError for icons, moving and resizing, with no change |
| ClientRegistry.ClientData.UpLayer | src-python/smallwm/client_data.py:351-361 | raises the client by one layer with one ChangeLayer record; at MAX_LAYER it changes and emits nothing |
| ClientRegistry.ClientData.DownLayer | src-python/smallwm/client_data.py:363-373 | lowers the client by one layer with one ChangeLayer record; at MIN_LAYER it changes and emits nothing |
| ClientRegistry.ClientData.SetLayer | src-python/smallwm/client_data.py:375-390 | ValueError for a layer outside the layers (checked first), KeyError for an unknown client; an unchanged layer emits nothing |
| ClientRegistry.ClientData.ClientNextDesktop | src-python/smallwm/client_data.py:392-409 | a client on a real desktop moves to the cyclic next one, giving up its focus; ValueError for virtual desktops, with no change |
| ClientRegistry.ClientData.ClientPrevDesktop | src-python/smallwm/client_data.py:411-428 | a client on a real desktop moves to the cyclic previous one, giving up its focus; ValueError for virtual desktops, with no change |
| ClientRegistry.ClientData.NextDesktop | src-python/smallwm/client_data.py:430-447 | shows the cyclic next desktop after dropping the focus; ValueError, with no change, while anything moves or resizes |
| ClientRegistry.ClientData.PrevDesktop | src-python/smallwm/client_data.py:449-466 | shows the cyclic previous desktop after dropping the focus; ValueError, with no change, while anything moves or resizes |
| ClientRegistry.ClientData.Iconify | src-python/smallwm/client_data.py:468-486 | moves a shown client to the icons, ChangeFocus before ChangeClientDesktop; ValueError for icons, moving and resizing |
| ClientRegistry.ClientData.Deiconify | src-python/smallwm/client_data.py:488-502 | brings an icon back on the current desktop, then focuses it, in that order; ValueError for a client that is not an icon |
| ClientRegistry.ClientData.StartMoving | src-python/smallwm/client_data.py:504-526 | moves the client to the moving desktop; refused while any client moves or resizes, so at most one ever does |
| ClientRegistry.ClientData.StopMoving | src-python/smallwm/client_data.py:528-548 | back on the current desktop at the new location, focused; desktop, location and focus records in that order; ValueError unless moving |
| ClientRegistry.ClientData.StartResizing | src-python/smallwm/client_data.py:550-572 | moves the client to the resizing desktop; refused while any client moves or resizes |
| ClientRegistry.ClientData.StopResizing | src-python/smallwm/client_data.py:574-596 | back on the current desktop with size stored as (height, width), records desktop, ChangeSize(width, height) and focus; ValueError unless resizing with positive width and height |
| ClientScenarios.LayerClampTop | src-python/test/test-clientdata.py:96-107 | setting the top layer emits one record; raising from it emits none and stays at MAX_LAYER |
| ClientScenarios.LayerClampBottom | src-python/test/test-clientdata.py:109-122 | setting the bottom layer emits one record; lowering from it emits none and stays at MIN_LAYER |
| ClientScenarios.LayerRefused | src-python/test/test-clientdata.py:89-94 | layers 0, 10 and 42 are refused with ValueError and queue nothing |
| ClientScenarios.IconifyRoundTrip | src-python/smallwm/client_data.py:468-502 | iconify then deiconify emits unfocus, to-icons, back-to-desktop and refocus, and the client ends on its desktop |
| ClientScenarios.MoveRoundTrip | src-python/smallwm/client_data.py:504-548 | a move emits unfocus and to-moving, then desktop, location and focus |
| ClientScenarios.ResizeRoundTrip | src-python/smallwm/client_data.py:574-596 | a resize to 640x480 stores (480, 640) and emits ChangeSize(640, 480); a zero width is refused |
| ClientScenarios.MoveExcludesMoveResize | src-python/smallwm/client_data.py:517-520 | while one client moves, another can neither start moving nor start resizing |
| ClientScenarios.MoveExcludesDesktopChange | src-python/smallwm/client_data.py:434-437 | while a client moves, the shown desktop cannot change |
| ClientScenarios.StickAcrossDesktops | src-python/smallwm/client_data.py:329-349 | a stuck client stays visible on another desktop and unsticks onto that one |
| ClientScenarios.ClientCyclingFirstSteps | src-python/test/test-clientdata.py:174-189 | the first client_next_desktop also drops the initial focus; the second emits one record |
| ClientScenarios.DesktopCyclingFirstSteps | src-python/test/test-clientdata.py:208-240 | next_desktop drops the initial focus on its first step only; prev_desktop steps back |
| ClientScenarios.RemoveForgets | src-python/test/test-clientdata.py:53-69 | after remove_client, is_client is false and both finders raise KeyError |
| Text.StripLeftSuffix | src-python/smallwm/config.py:272 | lstrip keeps a suffix and drops only spaces |
| Text.StripRightPrefix | src-python/smallwm/config.py:272 | rstrip keeps a prefix and drops only spaces |
| Text.Split | src-python/smallwm/config.py:269 | the pieces hold no separator and join back to the text |
| Text.SplitJoin | src-python/smallwm/config.py:269 | splitting undoes joining separator-free pieces |
| Utils.PositiveInt | src-python/smallwm/utils.py:19-27 | a value above zero exactly when `int(text, 0)` gives one, and then that value; ValueError otherwise |
| Utils.PositiveIntRefusesInfoSeparators | src-python/smallwm/utils.py:24 | a U+001C before or a U+001F after a number gives ValueError, as `int()` refuses it |
| Utils.ParseDigitString | src-python/smallwm/utils.py:24 | a number written in any base up to 16 is read back as itself |
| Utils.PositiveIntDecimal | src-python/smallwm/utils.py:19-27 | every positive number written in decimal with at most 4300 digits is accepted as itself |
| Utils.PositiveIntRefusesLongDecimal | src-python/smallwm/utils.py:24 | a decimal literal with more than 4300 digits gives ValueError, with or without a minus sign |
| Utils.PositiveIntRefusesTooManyDigits | src-python/smallwm/utils.py:24 | 4301 ones give ValueError |
| Utils.PositiveIntHex | src-python/smallwm/utils.py:24 | every positive number written as 0x-hex is accepted as itself |
| Utils.PositiveIntRefusesNonPositive | src-python/smallwm/utils.py:25-26 | any text denoting zero or a negative number gives ValueError |
| Utils.PositiveIntTwelve | src-python/test/test-config.py:145-146 | `12` gives 12 |
| Utils.PositiveIntHexTwelve | src-python/test/test-config.py:148 | `0x12` gives 18 |
| Utils.PositiveIntRefusesZeroAndNegative | src-python/smallwm/utils.py:25-26 | `0` and `-12` give ValueError |
| Utils.PositiveIntRefusesFraction | src-python/test/test-config.py:150 | `1.27` gives ValueError |
| Utils.PositiveIntRefusesExponent | src-python/test/test-config.py:150 | `1e2` gives ValueError |
| Utils.PositiveIntRefusesWords | src-python/test/test-config.py:150 | `not-a-number` gives ValueError |
| Config.DefaultKeyRoundTrip | src-python/smallwm/config.py:35-63 | each default shortcut's key symbol identifies that shortcut |
| Config.DefaultActionRoundTrip | src-python/smallwm/config.py:35-63 | each default shortcut's action identifies that shortcut |
| Config.DefaultNameRoundTrip | src-python/smallwm/config.py:35-63 | each default shortcut's configuration name identifies that shortcut |
| Config.DefaultShortcutsDistinct | src-python/smallwm/config.py:35-63 | no two default shortcuts share a key, an action or a name |
| Config.KeyTable | src-python/smallwm/config.py:131-132 | every bound key comes from some shortcut |
| Config.ActionTable | src-python/smallwm/config.py:131-133 | every bound action comes from some shortcut |
| Config.NameTable | src-python/smallwm/config.py:131-134 | every shortcut's configuration name is bound |
| Config.KeyTableLast | src-python/smallwm/config.py:131-132 | a shortcut whose key no later shortcut rebinds keeps its action in the key table |
| Config.ActionTableLast | src-python/smallwm/config.py:131-133 | a shortcut whose action no later shortcut rebinds keeps its key in the action table |
| Config.NameTableLast | src-python/smallwm/config.py:131-134 | a shortcut whose name no later shortcut reuses keeps its action in the name table |
| Config.TablesBindShortcuts | src-python/smallwm/config.py:131-134 | with distinct keys, actions and names, every shortcut is bound key to action, action to key and name to action |
| Config.TablesInverse | src-python/smallwm/config.py:131-134 | shortcuts with distinct keys and actions build mutually inverse key and action tables |
| Config.DefaultTables | src-python/smallwm/config.py:124-134 | the default tables are mutual inverses and bind every default shortcut both ways and by name |
| Config.BindShortcuts | src-python/smallwm/config.py:131-134 | the loop builds exactly the three tables |
| Config.SmallWMConfig.constructor | src-python/smallwm/config.py:124-141 | the default settings, and every default shortcut bound both ways and by name, in mutually inverse tables |
| Config.BindKeepsKeysAgree | src-python/smallwm/config.py:301-342 | every binding call keeps each bound key's action bound back to that key |
| Config.UnforcedBindKeepsInverse | src-python/smallwm/config.py:308-342 | without `!`, every binding call keeps the tables mutual inverses |
| Config.BindSucceeds | src-python/smallwm/config.py:330-342 | a known action bound to a free (or forced) known key is bound both ways, its previous key unbound, all else kept, nothing logged |
| Config.ForcedStealLeavesStaleEntry | src-python/smallwm/config.py:330-342 | a forced binding of another action's key leaves that action pointing at the lost key, so the tables stop being inverses |
| Config.StaleEntryKeyError | src-python/smallwm/config.py:336-339 | after such a steal and a rebinding, binding the robbed action again deletes its entry and fails with KeyError |
| Config.BindRefusalsChangeNothing | src-python/smallwm/config.py:308-333 | empty value: IndexError; an unknown action, an unknown key name or an unforced collision logs one warning and changes neither table |
| Config.SmallWMConfig.ParseKeyBinding | src-python/smallwm/config.py:301-342 | the tables and the log become what the binding rule gives, and key agreement is kept |
| Config.ParseAction | src-python/smallwm/config.py:274-299 | a parsed token is a valid action: a set layer lies in 1..MAX_LAYER |
| Config.SnapName | src-python/smallwm/config.py:71-76 | each direction's name maps back to it in SNAP_DIRS |
| Config.ParseFormatAction | src-python/smallwm/config.py:274-296 | every valid action is parsed back from its configuration token |
| Config.ParseActionRefusesInfoSeparator | src-python/smallwm/config.py:278-285 | `layer:` followed by U+001C and `5` is not an action |
| Config.FormatActionPlain | src-python/smallwm/config.py:269-272 | a configuration token has no comma and no surrounding space |
| Config.ParsedActions | src-python/smallwm/config.py:266-299 | only valid actions are read from an entry, at most one per piece |
| Config.RejectedActions | src-python/smallwm/config.py:286-299 | every piece is either read as an action or logged |
| Config.ReadActions | src-python/smallwm/config.py:270-299 | the loop yields the parsed actions in order and a warning per refused piece |
| Config.ParseFormatPieces | src-python/smallwm/config.py:270-299 | the tokens of a list of valid actions parse back to the list with no warning |
| Config.ParseFormatActions | src-python/smallwm/config.py:266-299 | every non-empty list of valid actions is read back, in order and without warnings, from its comma-joined entry |
| Config.SmallWMConfig.ParseClassAction | src-python/smallwm/config.py:248-299 | the class's list becomes the entry's parsed actions and the refused tokens are logged; all stored actions stay valid |
| Config.ParseBoolAnyCase | src-python/test/test-config.py:186-188 | `tRue`, `TRUE` and `FAlSe` are accepted |
| Config.ParseBoolRefusesMisspellings | src-python/test/test-config.py:189 | `ture` and `flase` are refused |
| Config.BodyKeyNames | src-python/smallwm/config.py:202-246 | each core key is recognised by its own name and only the seven names are recognised |
| Config.SmallWMConfig.ParseSmallwmBody | src-python/smallwm/config.py:190-246 | only the named setting changes, and only to a valid value (positive int, case-insensitive bool, syslog name); otherwise it is logged and kept; settings stay valid |
| Model.XModel.IconOfClient | src/model/x-model.cpp:32-35 | an icon found by client hides that client |
| Model.XModel.IconOfWindow | src/model/x-model.cpp:40-43 | an icon found by icon window is shown by that window |
| Model.XModel.RegisterIcon | src/model/x-model.cpp:11-15 | both finders then return the icon; every other lookup is unchanged |
| Model.XModel.UnregisterIcon | src/model/x-model.cpp:23-27 | both entries are erased, so both finders return null; every other lookup is unchanged |
| Model.XModel.FindIconFromClient | src/model/x-model.cpp:32-35 | returns the filed icon or null; a miss inserts null, which changes no lookup |
| Model.XModel.FindIconFromIconWindow | src/model/x-model.cpp:40-43 | returns the filed icon or null; a miss inserts null, which changes no lookup |
| Model.XModel.EnterMove | src/model/x-model.cpp:52-58 | from idle records (client, placeholder, move); while busy changes nothing |
| Model.XModel.EnterResize | src/model/x-model.cpp:67-73 | from idle records (client, placeholder, resize); while busy changes nothing |
| Model.XModel.MoveResizePlaceholder | src/model/x-model.cpp:80-86 | None when idle, else the placeholder |
| Model.XModel.MoveResizeClient | src/model/x-model.cpp:93-99 | None when idle, else the client |
| Model.XModel.MoveResizeStateOf | src/model/x-model.cpp:104-110 | MR_INVALID exactly when idle, and otherwise the state of the move or resize under way |
| Model.XModel.ExitMoveResize | src/model/x-model.cpp:115-122 | always idle afterwards; a no-op when already idle |
| Model.IconLifecycle | src/model/x-model.cpp:11-43 | register then find gives the icon both ways; unregister then find gives null both ways |
| Model.UnknownWindowFindsNothing | src/model/x-model.cpp:32-43 | unregistered windows find null, also when asked again |
| Model.FirstMoveResizeWins | src/model/x-model.cpp:52-122 | the first move wins over later enters; after exit (twice) the getters report idle, and a new resize is accepted |

## Left out

- X I/O. The Xlib hint and geometry objects are plain records (`WMHints`, `Geometry`), and only the hint flag bit and initial state that `add_client` reads are kept. X window identifiers are a type parameter in the registry and `nat` in `XModel`.
- Syslog. Each warning the parsers would send is appended to the configuration's `log` field, so "logs and changes nothing" can be stated. Message texts and priorities are not modelled.
- Loading the configuration file: `SmallWMConfig.parse`, `get_config_filename`, `nonexistent_section`, and the `configparser` dispatch table in `__init__`. This is file I/O and a third-party parser.
- The X key-name lookup `getattr(XK, 'XK_' + value)` is the parameter `xk`, a partial map from names to key symbols. The default shortcuts carry the X11 key symbol values of their keys.
- `ClientScenarios.FreshWithOne`, `StartMovingOne`, `FreshWithTwo` and `MovingWithTwo` only set up scenarios.
- Config.ParseBool, Config.BodyWarnings and Config.Cardinal: their meaning is stated through `ParseSmallwmBody`'s contract and the lemmas, not by contracts of their own.
- Text.Lower: lower-cases ASCII letters only; Python's full Unicode case mapping is not modelled. Text.IsSpace follows Python's `isspace`; Utils.ParseInt refuses the four separators U+001C to U+001F that `int()` does not skip.
- Utils.PositiveInt: models `int(text, 0)` for ASCII digits and letters. Python also accepts non-ASCII decimal digits, which are refused here. The 4300-digit limit on decimal literals is Python's default since 3.11. A limit changed through `sys.set_int_max_str_digits` or `PYTHONINTMAXSTRDIGITS` is not modelled, and neither is the unlimited `int()` of older Pythons.
- `ClientData`'s `wm_state` is reduced to the constant `maxDesktops`, its only field the registry reads.
- Config.ReadActions: the source appends to the list it has already stored in `class_actions`, while the model stores the finished list. Nothing can observe the difference, since nothing else runs in between.
- `XModel`'s `Icon` and `MoveResize` come from a header that is not part of this model. They are rebuilt from their uses: an icon has constant `client` and `icon` windows, and a move or resize is a value held in an `Option`. Memory management (`new`/`delete`) is not modelled.
- `utils.is_visible` and the rest of the older window-level modules are not part of this model.
