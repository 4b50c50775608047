/** The window manager's model of its own X state (`XModel`): the icons,
    found by the client they hide or by the window that shows them, and the
    one client that may be in the middle of a move or a resize. */
module Model {
  import opened Wrappers

  /** An X window identifier; 0 is X's `None`. */
  type Window = nat

  const NONE: Window := 0

  /** What the client under the pointer is doing: nothing, a move or a resize. */
  datatype MoveResizeState = MRInvalid | MRMove | MRResize

  /** An icon: the client it hides and the window that shows it in its place. */
  class Icon {
    const client: Window
    const icon: Window

    constructor (client: Window, icon: Window)
      ensures this.client == client && this.icon == icon
    {
      this.client := client;
      this.icon := icon;
    }
  }

  /** The client being moved or resized, the placeholder window that follows
      the pointer meanwhile, and which of the two it is. */
  datatype MoveResize = MoveResize(client: Window, placeholder: Window, state: MoveResizeState)

  class XModel {
    /** Icons by the client they hide; `null` where a lookup missed. */
    var clientsToIcons: map<Window, Icon?>
    /** Icons by the window that shows them; `null` where a lookup missed. */
    var iconWindowsToIcons: map<Window, Icon?>
    /** The move or resize under way, if any. */
    var moveResize: Option<MoveResize>

    /** Every icon is filed under its own client and its own icon window,
        and a move or resize under way is one of the two. */
    ghost predicate Valid()
      reads this
    {
      && (forall w :: w in clientsToIcons && clientsToIcons[w] != null ==> clientsToIcons[w].client == w)
      && (forall w :: w in iconWindowsToIcons && iconWindowsToIcons[w] != null ==> iconWindowsToIcons[w].icon == w)
      && (moveResize.Some? ==> moveResize.value.state != MRInvalid)
    }

    /** What `find_icon_from_client(client)` returns: the icon filed under
        `client`, or null. */
    function IconOfClient(client: Window): (icon: Icon?)
      reads this
      requires Valid()
      ensures icon != null ==> icon.client == client
    {
      if client in clientsToIcons then clientsToIcons[client] else null
    }

    /** What `find_icon_from_icon_window(window)` returns: the icon filed
        under `window`, or null. */
    function IconOfWindow(window: Window): (icon: Icon?)
      reads this
      requires Valid()
      ensures icon != null ==> icon.icon == window
    {
      if window in iconWindowsToIcons then iconWindowsToIcons[window] else null
    }

    /** A model with no icons and no move or resize. */
    constructor ()
      ensures Valid()
      ensures clientsToIcons == map[] && iconWindowsToIcons == map[] && moveResize == None
    {
      clientsToIcons := map[];
      iconWindowsToIcons := map[];
      moveResize := None;
    }

    /** `register_icon`: files the icon under its client and its icon
        window, replacing what was filed there. */
    method RegisterIcon(icon: Icon)
      requires Valid()
      modifies this`clientsToIcons, this`iconWindowsToIcons
      ensures Valid()
      ensures clientsToIcons == old(clientsToIcons)[icon.client := icon]
      ensures iconWindowsToIcons == old(iconWindowsToIcons)[icon.icon := icon]
      ensures IconOfClient(icon.client) == icon && IconOfWindow(icon.icon) == icon
      ensures forall w :: w != icon.client ==> IconOfClient(w) == old(IconOfClient(w))
      ensures forall w :: w != icon.icon ==> IconOfWindow(w) == old(IconOfWindow(w))
    {
      clientsToIcons := clientsToIcons[icon.client := icon];
      iconWindowsToIcons := iconWindowsToIcons[icon.icon := icon];
    }

    /** `unregister_icon`: erases the entries under the icon's client and
        icon window, whatever is filed there. */
    method UnregisterIcon(icon: Icon)
      requires Valid()
      modifies this`clientsToIcons, this`iconWindowsToIcons
      ensures Valid()
      ensures clientsToIcons == old(clientsToIcons) - {icon.client}
      ensures iconWindowsToIcons == old(iconWindowsToIcons) - {icon.icon}
      ensures IconOfClient(icon.client) == null && IconOfWindow(icon.icon) == null
      ensures forall w :: w != icon.client ==> IconOfClient(w) == old(IconOfClient(w))
      ensures forall w :: w != icon.icon ==> IconOfWindow(w) == old(IconOfWindow(w))
    {
      clientsToIcons := clientsToIcons - {icon.client};
      iconWindowsToIcons := iconWindowsToIcons - {icon.icon};
    }

    /** `find_icon_from_client`: the icon hiding `client`, or null.  A miss
        files null under `client`, which no later lookup can tell apart
        from no entry. */
    method FindIconFromClient(client: Window) returns (icon: Icon?)
      requires Valid()
      modifies this`clientsToIcons
      ensures Valid()
      ensures icon == old(IconOfClient(client))
      ensures icon != null ==> icon.client == client
      ensures clientsToIcons == if client in old(clientsToIcons) then old(clientsToIcons)
                                else old(clientsToIcons)[client := null]
      ensures forall w :: IconOfClient(w) == old(IconOfClient(w))
    {
      if client !in clientsToIcons {
        clientsToIcons := clientsToIcons[client := null];
      }
      icon := clientsToIcons[client];
    }

    /** `find_icon_from_icon_window`: the icon shown by `window`, or null;
        a miss files null under `window`. */
    method FindIconFromIconWindow(window: Window) returns (icon: Icon?)
      requires Valid()
      modifies this`iconWindowsToIcons
      ensures Valid()
      ensures icon == old(IconOfWindow(window))
      ensures icon != null ==> icon.icon == window
      ensures iconWindowsToIcons == if window in old(iconWindowsToIcons) then old(iconWindowsToIcons)
                                    else old(iconWindowsToIcons)[window := null]
      ensures forall w :: IconOfWindow(w) == old(IconOfWindow(w))
    {
      if window !in iconWindowsToIcons {
        iconWindowsToIcons := iconWindowsToIcons[window := null];
      }
      icon := iconWindowsToIcons[window];
    }

    /** `enter_move`: starts moving `client` with `placeholder`, unless a
        move or resize is already under way, which then stays as it was. */
    method EnterMove(client: Window, placeholder: Window)
      requires Valid()
      modifies this`moveResize
      ensures Valid()
      ensures moveResize == if old(moveResize).Some? then old(moveResize)
                            else Some(MoveResize(client, placeholder, MRMove))
    {
      if moveResize.Some? {
        return;
      }
      moveResize := Some(MoveResize(client, placeholder, MRMove));
    }

    /** `enter_resize`: starts resizing `client` with `placeholder`, unless
        a move or resize is already under way. */
    method EnterResize(client: Window, placeholder: Window)
      requires Valid()
      modifies this`moveResize
      ensures Valid()
      ensures moveResize == if old(moveResize).Some? then old(moveResize)
                            else Some(MoveResize(client, placeholder, MRResize))
    {
      if moveResize.Some? {
        return;
      }
      moveResize := Some(MoveResize(client, placeholder, MRResize));
    }

    /** `get_move_resize_placeholder`: NONE when nothing is under way. */
    function MoveResizePlaceholder(): (w: Window)
      reads this
      ensures moveResize.None? ==> w == NONE
      ensures moveResize.Some? ==> w == moveResize.value.placeholder
    {
      if moveResize.None? then NONE else moveResize.value.placeholder
    }

    /** `get_move_resize_client`: NONE when nothing is under way. */
    function MoveResizeClient(): (w: Window)
      reads this
      ensures moveResize.None? ==> w == NONE
      ensures moveResize.Some? ==> w == moveResize.value.client
    {
      if moveResize.None? then NONE else moveResize.value.client
    }

    /** `get_move_resize_state`: MRInvalid exactly when nothing is under
        way, and otherwise the state of what is under way. */
    function MoveResizeStateOf(): (s: MoveResizeState)
      reads this
      requires Valid()
      ensures s == MRInvalid <==> moveResize.None?
      ensures moveResize.Some? ==> s == moveResize.value.state
    {
      if moveResize.None? then MRInvalid else moveResize.value.state
    }

    /** `exit_move_resize`: ends the move or resize under way, if any. */
    method ExitMoveResize()
      requires Valid()
      modifies this`moveResize
      ensures Valid()
      ensures moveResize == None
    {
      if moveResize.None? {
        return;
      }
      moveResize := None;
    }
  }

  /** Registering an icon makes both finders return it; unregistering it
      makes both return null again. */
  method IconLifecycle(client: Window, window: Window)
    returns (icon: Icon, byClient: Icon?, byWindow: Icon?, goneByClient: Icon?, goneByWindow: Icon?)
    ensures byClient == icon && byWindow == icon
    ensures goneByClient == null && goneByWindow == null
  {
    var model := new XModel();
    icon := new Icon(client, window);
    model.RegisterIcon(icon);
    byClient := model.FindIconFromClient(client);
    byWindow := model.FindIconFromIconWindow(window);
    model.UnregisterIcon(icon);
    goneByClient := model.FindIconFromClient(client);
    goneByWindow := model.FindIconFromIconWindow(window);
  }

  /** A window nobody registered finds no icon, even when asked twice. */
  method UnknownWindowFindsNothing(client: Window, window: Window)
    returns (first: Icon?, second: Icon?, byWindow: Icon?)
    ensures first == null && second == null && byWindow == null
  {
    var model := new XModel();
    first := model.FindIconFromClient(client);
    second := model.FindIconFromClient(client);
    byWindow := model.FindIconFromIconWindow(window);
  }

  /** The first move or resize wins: a later one changes nothing until the
      first is ended; then the getters report idle again, and ending twice
      is harmless. */
  method FirstMoveResizeWins(client: Window, placeholder: Window, other: Window, otherPlaceholder: Window)
    returns (state: MoveResizeState, who: Window, where: Window,
             idleState: MoveResizeState, idleClient: Window, idlePlaceholder: Window,
             nextState: MoveResizeState, nextClient: Window)
    ensures state == MRMove && who == client && where == placeholder
    ensures idleState == MRInvalid && idleClient == NONE && idlePlaceholder == NONE
    ensures nextState == MRResize && nextClient == other
  {
    var model := new XModel();
    model.EnterMove(client, placeholder);
    model.EnterResize(other, otherPlaceholder);
    model.EnterMove(other, otherPlaceholder);
    state := model.MoveResizeStateOf();
    who := model.MoveResizeClient();
    where := model.MoveResizePlaceholder();
    model.ExitMoveResize();
    model.ExitMoveResize();
    idleState := model.MoveResizeStateOf();
    idleClient := model.MoveResizeClient();
    idlePlaceholder := model.MoveResizePlaceholder();
    model.EnterResize(other, otherPlaceholder);
    nextState := model.MoveResizeStateOf();
    nextClient := model.MoveResizeClient();
  }
}
