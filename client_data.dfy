/** The client registry of SmallWM: for every managed window, its desktop,
    its layer, its geometry, which window holds the focus, which desktop
    is shown, and the queue of change records that the X layer applies.

    Every mutator checks its guards before it changes anything, so a call
    that fails leaves the registry and its queue as they were. */
module ClientRegistry {
  import opened Wrappers
  import opened CategoryMapping

  // The virtual desktops.  The real desktops are 1..max_desktops; no
  // virtual desktop is zero or positive, which is what lets the desktop
  // cycling below wrap by asking whether `old + 1` or `old - 1` is a
  // desktop at all.
  const DESKTOP_ALL: int := -2
  const DESKTOP_ICONS: int := -3
  const DESKTOP_MOVING: int := -4
  const DESKTOP_RESIZING: int := -5

  const VIRTUAL_DESKTOPS: set<int> := {DESKTOP_ALL, DESKTOP_ICONS, DESKTOP_MOVING, DESKTOP_RESIZING}
  const INVISIBLE_DESKTOPS: set<int> := {DESKTOP_ICONS, DESKTOP_MOVING, DESKTOP_RESIZING}

  // The stacking layers of the registry, bottom to top.
  const MIN_LAYER: int := 1
  const DEFAULT_LAYER: int := 5
  const MAX_LAYER: int := 9

  // The parts of the X window-manager hints and geometry that the registry reads.
  const STATE_HINT: nat := 2     // Xutil.StateHint, bit 1 of the hint flags
  const NORMAL_STATE: int := 1   // Xutil.NormalState
  const ICONIC_STATE: int := 3   // Xutil.IconicState

  datatype WMHints = WMHints(flags: nat, initialState: int)
  datatype Geometry = Geometry(x: int, y: int, width: int, height: int)

  /** Whether the hints carry an initial state. */
  predicate HasStateHint(flags: nat) {
    (flags / STATE_HINT) % 2 == 1
  }

  /** The notifications the registry queues for the X layer. */
  datatype Change<W> =
    | ChangeLayer(window: W, layer: int)
    | ChangeFocus(oldFocus: Option<W>, newFocus: Option<W>)
    | ChangeClientDesktop(window: W, desktop: int)
    | ChangeCurrentDesktop(desktop: int)
    | ChangeLocation(window: W, x: int, y: int)
    | ChangeSize(window: W, width: int, height: int)

  /** The integers from `lo` to `hi`, both included. */
  function Interval(lo: int, hi: int): (r: set<int>)
    ensures forall i :: i in r <==> lo <= i <= hi
    decreases hi - lo
  {
    if lo > hi then {} else {lo} + Interval(lo + 1, hi)
  }

  /** The desktops of a registry with `n` real desktops. */
  function DesktopNames(n: nat): set<int>
  {
    VIRTUAL_DESKTOPS + Interval(1, n)
  }

  /** The layers of a registry. */
  function LayerNames(): (r: set<int>)
    ensures forall l :: l in r <==> MIN_LAYER <= l <= MAX_LAYER
  {
    {1, 2, 3, 4, 5, 6, 7, 8, 9}
  }

  /** The desktops a window sits on while it is being moved or resized. */
  predicate InMoveResize(d: int) {
    d == DESKTOP_MOVING || d == DESKTOP_RESIZING
  }

  /** At most one window is being moved or resized. */
  ghost predicate AtMostOneMoveResize<W>(desk: map<W, int>) {
    forall a, b :: a in desk && b in desk && InMoveResize(desk[a]) && InMoveResize(desk[b]) ==> a == b
  }

  /** Some window is being moved or resized. */
  predicate MoveResizeBusy<W>(desk: map<W, int>) {
    exists c :: c in desk && InMoveResize(desk[c])
  }

  /** The focus, when there is one, is a registered window that is shown:
      it is on the current desktop or on all of them. */
  ghost predicate FocusVisible<W>(desk: map<W, int>, focused: Option<W>, current: int) {
    focused.Some? ==> focused.value in desk && (desk[focused.value] == current || desk[focused.value] == DESKTOP_ALL)
  }

  /** Placing a new window on a desktop that is not a move or resize keeps
      both invariants of the desktop table. */
  lemma PlaceKeepsInvariants<W>(desk: map<W, int>, client: W, d: int, focused: Option<W>, current: int)
    requires AtMostOneMoveResize(desk) && FocusVisible(desk, focused, current)
    requires client !in desk && !InMoveResize(d)
    ensures AtMostOneMoveResize(desk[client := d]) && FocusVisible(desk[client := d], focused, current)
  {
  }

  /** The focus after `client` gives it up, if it holds it. */
  function Unfocused<W(==)>(focused: Option<W>, client: W): Option<W> {
    if focused == Some(client) then None else focused
  }

  /** The change record for `client` giving up the focus, if it holds it. */
  function UnfocusRecord<W(==)>(focused: Option<W>, client: W): seq<Change<W>> {
    if focused == Some(client) then [ChangeFocus(Some(client), None)] else []
  }

  // ---------------------------------------------------------------------
  // Desktop cycling.

  /** The real desktop after `d`, the last one wrapping to the first. */
  function NextOf(d: int, n: int): (r: int)
    requires 1 <= d <= n
    ensures 1 <= r <= n
  {
    if d == n then 1 else d + 1
  }

  /** The real desktop before `d`, the first one wrapping to the last. */
  function PrevOf(d: int, n: int): (r: int)
    requires 1 <= d <= n
    ensures 1 <= r <= n
  {
    if d == 1 then n else d - 1
  }

  /** Going forward one desktop and back one returns to where one started. */
  lemma NextPrevInverse(d: int, n: int)
    requires 1 <= d <= n
    ensures PrevOf(NextOf(d, n), n) == d
    ensures NextOf(PrevOf(d, n), n) == d
  {
  }

  /** The rule `client_next_desktop` and `client_prev_desktop` use, "`d + 1`
      (`d - 1`) unless that is not a desktop, then the first (last) one",
      is the cyclic successor (predecessor), because no virtual desktop
      is zero or positive. */
  lemma WrapByDesktopNames(d: int, n: nat)
    requires 1 <= d <= n
    ensures (if d + 1 in DesktopNames(n) then d + 1 else 1) == NextOf(d, n)
    ensures (if d - 1 in DesktopNames(n) then d - 1 else n) == PrevOf(d, n)
  {
    assert d + 1 in DesktopNames(n) <==> d + 1 <= n;
    assert d - 1 in DesktopNames(n) <==> d - 1 >= 1;
  }

  /** The desktop reached from `d` by `k` steps forward. */
  function StepsForward(d: int, n: int, k: nat): (r: int)
    requires 1 <= d <= n
    ensures 1 <= r <= n
  {
    if k == 0 then d else NextOf(StepsForward(d, n, k - 1), n)
  }

  /** `k` steps forward from `d`, for `k` up to the number of desktops,
      reach `d + k`, wrapping once past the last desktop. */
  lemma {:induction false} StepsForwardWrapsOnce(d: int, n: int, k: nat)
    requires 1 <= d <= n && k <= n
    ensures StepsForward(d, n, k) == if d + k <= n then d + k else d + k - n
  {
    if k > 0 {
      StepsForwardWrapsOnce(d, n, k - 1);
    }
  }

  /** After as many steps as there are desktops, every desktop is back
      where it started, and not before: the cycle visits each desktop once. */
  lemma StepsForwardPeriod(d: int, n: int)
    requires 1 <= d <= n
    ensures StepsForward(d, n, n) == d
    ensures forall k :: 0 < k < n ==> StepsForward(d, n, k) != d
  {
    StepsForwardWrapsOnce(d, n, n);
    forall k | 0 < k < n ensures StepsForward(d, n, k) != d {
      StepsForwardWrapsOnce(d, n, k);
    }
  }

  /** No element occurs twice. */
  predicate Distinct<T(==)>(s: seq<T>) {
    forall i, j :: 0 <= i < j < |s| ==> s[i] != s[j]
  }

  /** Iterating over a set: its elements, each once, in some order. */
  method Enumerate<T(==)>(items: set<T>) returns (s: seq<T>)
    ensures forall x :: x in s <==> x in items
    ensures Distinct(s)
  {
    s := [];
    var pending := items;
    while pending != {}
      invariant pending <= items
      invariant forall x :: x in s <==> x in items && x !in pending
      invariant Distinct(s)
      decreases pending
    {
      var x :| x in pending;
      s := s + [x];
      pending := pending - {x};
    }
  }

  // ---------------------------------------------------------------------
  // The registry.

  class ClientData<W(==)> {
    /** `wm_state.max_desktops`: the number of real desktops. */
    const maxDesktops: nat
    /** The desktop of every client. */
    const desktops: BijectiveSetMapping<int, W>
    /** The layer of every client. */
    const layers: BijectiveSetMapping<int, W>

    var changes: seq<Change<W>>
    var currentDesktop: int
    var focused: Option<W>
    var location: map<W, (int, int)>
    var size: map<W, (int, int)>

    /** The registry's invariant: every client has exactly one desktop,
        one layer, a location and a size; at most one client is moving or
        resizing; the focus is on a shown client; the current desktop is
        a real one. */
    ghost predicate Valid()
      reads this, desktops, layers
    {
      && desktops != layers
      && maxDesktops >= 1
      && desktops.cats == DesktopNames(maxDesktops) && desktops.Valid()
      && layers.cats == LayerNames() && layers.Valid()
      && 1 <= currentDesktop <= maxDesktops
      && layers.owner.Keys == desktops.owner.Keys
      && location.Keys == desktops.owner.Keys
      && size.Keys == desktops.owner.Keys
      && AtMostOneMoveResize(desktops.owner)
      && FocusVisible(desktops.owner, focused, currentDesktop)
    }

    /** An empty registry showing desktop 1. */
    constructor (maxDesktops: nat)
      requires maxDesktops >= 1
      ensures Valid() && fresh(desktops) && fresh(layers)
      ensures this.maxDesktops == maxDesktops
      ensures changes == [] && currentDesktop == 1 && focused == None
      ensures desktops.owner == map[] && layers.owner == map[]
      ensures location == map[] && size == map[]
    {
      this.maxDesktops := maxDesktops;
      changes := [];
      currentDesktop := 1;
      layers := new BijectiveSetMapping(LayerNames());
      desktops := new BijectiveSetMapping(DesktopNames(maxDesktops));
      focused := None;
      location := map[];
      size := map[];
    }

    /** `push_change`. */
    method PushChange(change: Change<W>)
      modifies this`changes
      ensures changes == old(changes) + [change]
    {
      changes := changes + [change];
    }

    /** `flush_changes`: hands over the queued changes and empties the queue. */
    method FlushChanges() returns (flushed: seq<Change<W>>)
      modifies this`changes
      ensures flushed == old(changes) && changes == []
    {
      flushed := changes;
      changes := [];
    }

    /** `find_desktop`: KeyError for an unknown client. */
    function FindDesktop(client: W): (r: Result<int>)
      reads this, desktops, layers
      requires Valid()
      ensures r.Ok? <==> client in desktops.owner
      ensures r.Ok? ==> r.value == desktops.owner[client] && r.value in DesktopNames(maxDesktops)
    {
      desktops.GetCategoryOf(client)
    }

    /** `find_layer`: KeyError for an unknown client. */
    function FindLayer(client: W): (r: Result<int>)
      reads this, desktops, layers
      requires Valid()
      ensures r.Ok? <==> client in desktops.owner
      ensures r.Ok? ==> r.value == layers.owner[client] && MIN_LAYER <= r.value <= MAX_LAYER
    {
      layers.GetCategoryOf(client)
    }

    /** `is_client`: whether the window is registered. */
    function IsClient(window: W): (r: bool)
      reads this, desktops, layers
      requires Valid()
      ensures r <==> window in desktops.owner && window in layers.owner && window in location
    {
      desktops.IsElement(window)
    }

    /** `is_visible`: whether the client is on the current desktop or on
        all of them; KeyError for an unknown client. */
    function IsVisible(client: W): (r: Result<bool>)
      reads this, desktops, layers
      requires Valid()
      ensures r.Ok? <==> client in desktops.owner
      ensures r.Ok? ==> (r.value <==> desktops.owner[client] in {currentDesktop, DESKTOP_ALL})
    {
      match FindDesktop(client)
      case Err(e) => Err(e)
      case Ok(d) => Ok(d == currentDesktop || d == DESKTOP_ALL)
    }

    /** `get_clients_of`: the clients on one desktop; KeyError for an
        unknown desktop. */
    function GetClientsOf(desktop: int): (r: Result<set<W>>)
      reads this, desktops, layers
      requires Valid()
      ensures r.Ok? <==> desktop in DesktopNames(maxDesktops)
      ensures r.Ok? ==> forall c :: c in r.value ==> c in desktops.owner && desktops.owner[c] == desktop
      ensures r.Ok? ==> forall c :: c in desktops.owner && desktops.owner[c] == desktop ==> c in r.value
    {
      desktops.GetElementsOf({desktop})
    }

    /** `get_visible_clients`: the clients on the current desktop or on all. */
    function GetVisibleClients(): (r: set<W>)
      reads this, desktops, layers
      requires Valid()
      ensures forall c :: c in r ==> c in desktops.owner && IsVisible(c) == Ok(true)
      ensures forall c :: c in desktops.owner && IsVisible(c) == Ok(true) ==> c in r
    {
      desktops.GetElementsOf({currentDesktop, DESKTOP_ALL}).value
    }

    /** `iter_by_layer`: the shown clients from the bottom layer to the top,
        each once. */
    method IterByLayer() returns (order: seq<W>)
      requires Valid()
      ensures forall c :: c in order ==> c in GetVisibleClients()
      ensures forall c :: c in GetVisibleClients() ==> c in order
      ensures Distinct(order)
      ensures forall i, j :: 0 <= i < j < |order| ==> layers.owner[order[i]] <= layers.owner[order[j]]
    {
      var visible := GetVisibleClients();
      var layerOf := layers.owner;
      forall c | c in visible ensures c in layerOf && MIN_LAYER <= layerOf[c] <= MAX_LAYER {
        assert layerOf[c] in layerOf.Values;
      }
      order := [];
      var layer := MIN_LAYER;
      while layer <= MAX_LAYER
        invariant MIN_LAYER <= layer <= MAX_LAYER + 1
        invariant forall c :: c in order ==> c in visible && layerOf[c] < layer
        invariant forall c :: c in visible && layerOf[c] < layer ==> c in order
        invariant Distinct(order)
        invariant forall i, j :: 0 <= i < j < |order| ==> layerOf[order[i]] <= layerOf[order[j]]
      {
        var batch := Enumerate(layers.Get(layer).value * visible);
        assert forall c :: c in batch ==> c in visible && layerOf[c] == layer;
        forall i, j | 0 <= i < j < |order + batch|
          ensures (order + batch)[i] != (order + batch)[j]
          ensures layerOf[(order + batch)[i]] <= layerOf[(order + batch)[j]]
        {
          if j >= |order| {
            assert (order + batch)[j] == batch[j - |order|];
            if i >= |order| {
              assert (order + batch)[i] == batch[i - |order|];
            }
          }
        }
        order := order + batch;
        layer := layer + 1;
      }
    }

    /** `unfocus`: drops the focus, announcing it only when there was one. */
    method Unfocus()
      requires Valid()
      modifies this`focused, this`changes
      ensures Valid()
      ensures focused == None
      ensures changes == old(changes) + (if old(focused).Some? then [ChangeFocus(old(focused), None)] else [])
    {
      if focused.Some? {
        var oldFocus := focused;
        focused := None;
        PushChange(ChangeFocus(oldFocus, None));
      }
    }

    /** `unfocus_if_focused`: drops the focus if `client` holds it;
        KeyError for an unknown client. */
    method UnfocusIfFocused(client: W) returns (r: Outcome)
      requires Valid()
      modifies this`focused, this`changes
      ensures Valid()
      ensures r == if client in desktops.owner then Pass else Fail(KeyError)
      ensures focused == if r.Pass? then Unfocused(old(focused), client) else old(focused)
      ensures changes == old(changes) + if r.Pass? then UnfocusRecord(old(focused), client) else []
    {
      if !IsClient(client) {
        return Fail(KeyError);
      }
      if focused == Some(client) {
        Unfocus();
      }
      r := Pass;
    }

    /** `focus`: gives the focus to a client on the current desktop;
        KeyError for an unknown client, ValueError for any other desktop
        (the all-desktops one included). */
    method Focus(client: W) returns (r: Outcome)
      requires Valid()
      modifies this`focused, this`changes
      ensures Valid()
      ensures r == if client !in desktops.owner then Fail(KeyError)
                   else if desktops.owner[client] != currentDesktop then Fail(ValueError)
                   else Pass
      ensures focused == if r.Pass? then Some(client) else old(focused)
      ensures changes == old(changes) + if r.Pass? then [ChangeFocus(old(focused), Some(client))] else []
    {
      var found := FindDesktop(client);
      if found.Err? {
        return Fail(found.error);
      }
      if found.value != currentDesktop {
        return Fail(ValueError);
      }
      var oldFocus := focused;
      focused := Some(client);
      PushChange(ChangeFocus(oldFocus, Some(client)));
      r := Pass;
    }

    /** `_move_to_desktop`: moves a client between desktops, giving up
        its focus first when `unfocus` is set; nothing at all happens when
        the two desktops are the same. */
    method MoveToDesktop(client: W, oldDesktop: int, newDesktop: int, unfocus: bool)
      requires Valid()
      requires client in desktops.owner && desktops.owner[client] == oldDesktop
      requires newDesktop in DesktopNames(maxDesktops)
      requires !unfocus && focused == Some(client) ==> newDesktop == currentDesktop || newDesktop == DESKTOP_ALL
      requires InMoveResize(newDesktop) ==>
        forall c :: c in desktops.owner && c != client ==> !InMoveResize(desktops.owner[c])
      modifies this`focused, this`changes, desktops
      ensures Valid()
      ensures desktops.owner == old(desktops.owner)[client := newDesktop]
      ensures focused == if oldDesktop != newDesktop && unfocus then Unfocused(old(focused), client) else old(focused)
      ensures changes == old(changes) +
        if oldDesktop == newDesktop then []
        else (if unfocus then UnfocusRecord(old(focused), client) else []) + [ChangeClientDesktop(client, newDesktop)]
    {
      if oldDesktop == newDesktop {
        assert desktops.owner == desktops.owner[client := newDesktop];
        return;
      }
      if unfocus {
        var unfocused := UnfocusIfFocused(client);
      }
      var moved := desktops.Move(client, newDesktop);
      PushChange(ChangeClientDesktop(client, newDesktop));
    }

    /** `add_client`: registers a window on the current desktop and the
        default layer and focuses it.  Hints that ask for any initial state
        but the normal one make the source evaluate an undefined name, so
        the call fails with NameError before anything changes; registering
        a window twice fails too. */
    method AddClient(client: W, hints: WMHints, geometry: Geometry) returns (r: Outcome)
      requires Valid()
      modifies this`focused, this`changes, this`location, this`size, desktops, layers
      ensures Valid()
      ensures r == if HasStateHint(hints.flags) && hints.initialState != NORMAL_STATE then Fail(NameError)
                   else if client in old(desktops.owner) then Fail(ValueError)
                   else Pass
      ensures r.Fail? ==> unchanged(this) && desktops.owner == old(desktops.owner) && layers.owner == old(layers.owner)
      ensures r.Pass? ==>
        && desktops.owner == old(desktops.owner)[client := currentDesktop]
        && layers.owner == old(layers.owner)[client := DEFAULT_LAYER]
        && location == old(location)[client := (geometry.x, geometry.y)]
        && size == old(size)[client := (geometry.width, geometry.height)]
        && focused == Some(client)
        && changes == old(changes) + [ChangeClientDesktop(client, currentDesktop),
                                      ChangeLayer(client, DEFAULT_LAYER),
                                      ChangeFocus(old(focused), Some(client))]
    {
      if HasStateHint(hints.flags) && hints.initialState != NORMAL_STATE {
        return Fail(NameError);
      }
      var added := desktops.Add(currentDesktop, client);
      if added.Fail? {
        return added;
      }
      PlaceKeepsInvariants(old(desktops.owner), client, currentDesktop, focused, currentDesktop);
      PushChange(ChangeClientDesktop(client, currentDesktop));
      PushChange(ChangeLayer(client, DEFAULT_LAYER));
      var layered := layers.Add(DEFAULT_LAYER, client);
      location := location[client := (geometry.x, geometry.y)];
      size := size[client := (geometry.width, geometry.height)];
      assert desktops.owner.Keys == old(desktops.owner).Keys + {client};
      assert layers.owner.Keys == old(layers.owner).Keys + {client};
      assert location.Keys == old(location).Keys + {client};
      assert size.Keys == old(size).Keys + {client};
      r := Focus(client);
    }

    /** `remove_client`: forgets a client, dropping its focus first;
        KeyError for an unknown client. */
    method RemoveClient(client: W) returns (r: Outcome)
      requires Valid()
      modifies this`focused, this`changes, this`location, this`size, desktops, layers
      ensures Valid()
      ensures r == if client in old(desktops.owner) then Pass else Fail(KeyError)
      ensures r.Fail? ==> unchanged(this) && unchanged(desktops) && unchanged(layers)
      ensures r.Pass? ==>
        && desktops.owner == old(desktops.owner) - {client}
        && layers.owner == old(layers.owner) - {client}
        && location == old(location) - {client}
        && size == old(size) - {client}
        && focused == Unfocused(old(focused), client)
        && changes == old(changes) + UnfocusRecord(old(focused), client)
    {
      r := UnfocusIfFocused(client);
      if r.Fail? {
        assert changes == old(changes);
        return;
      }
      var removed := desktops.Remove(client);
      removed := layers.Remove(client);
      location := location - {client};
      size := size - {client};
    }

    /** `toggle_stick`: moves a client from its desktop to all desktops,
        or from all desktops to the current one, keeping its focus;
        ValueError for an iconified, moving or resizing client. */
    method ToggleStick(client: W) returns (r: Outcome)
      requires Valid()
      modifies this`focused, this`changes, desktops
      ensures Valid()
      ensures r == if client !in old(desktops.owner) then Fail(KeyError)
                   else if old(desktops.owner)[client] in INVISIBLE_DESKTOPS then Fail(ValueError)
                   else Pass
      ensures focused == old(focused)
      ensures r.Fail? ==> unchanged(this) && unchanged(desktops)
      ensures r.Pass? ==>
        var target := if old(desktops.owner)[client] == DESKTOP_ALL then currentDesktop else DESKTOP_ALL;
        && desktops.owner == old(desktops.owner)[client := target]
        && changes == old(changes) + [ChangeClientDesktop(client, target)]
    {
      var found := FindDesktop(client);
      if found.Err? {
        return Fail(found.error);
      }
      var desktop := found.value;
      if desktop in INVISIBLE_DESKTOPS {
        return Fail(ValueError);
      } else if desktop == DESKTOP_ALL {
        MoveToDesktop(client, DESKTOP_ALL, currentDesktop, false);
      } else {
        MoveToDesktop(client, desktop, DESKTOP_ALL, false);
      }
      r := Pass;
    }

    /** `up_layer`: raises a client one layer, doing and announcing nothing
        at the top layer; KeyError for an unknown client. */
    method UpLayer(client: W) returns (r: Outcome)
      requires Valid()
      modifies this`changes, layers
      ensures Valid()
      ensures r == if client in old(layers.owner) then Pass else Fail(KeyError)
      ensures r.Pass? && old(layers.owner)[client] < MAX_LAYER ==>
        && layers.owner == old(layers.owner)[client := old(layers.owner)[client] + 1]
        && changes == old(changes) + [ChangeLayer(client, old(layers.owner)[client] + 1)]
      ensures !(r.Pass? && old(layers.owner)[client] < MAX_LAYER) ==> unchanged(this) && unchanged(layers)
    {
      var found := FindLayer(client);
      if found.Err? {
        return Fail(found.error);
      }
      var oldLayer := found.value;
      if oldLayer < MAX_LAYER {
        PushChange(ChangeLayer(client, oldLayer + 1));
        var moved := layers.Move(client, oldLayer + 1);
      }
      r := Pass;
    }

    /** `down_layer`: lowers a client one layer, doing and announcing
        nothing at the bottom layer; KeyError for an unknown client. */
    method DownLayer(client: W) returns (r: Outcome)
      requires Valid()
      modifies this`changes, layers
      ensures Valid()
      ensures r == if client in old(layers.owner) then Pass else Fail(KeyError)
      ensures r.Pass? && old(layers.owner)[client] > MIN_LAYER ==>
        && layers.owner == old(layers.owner)[client := old(layers.owner)[client] - 1]
        && changes == old(changes) + [ChangeLayer(client, old(layers.owner)[client] - 1)]
      ensures !(r.Pass? && old(layers.owner)[client] > MIN_LAYER) ==> unchanged(this) && unchanged(layers)
    {
      var found := FindLayer(client);
      if found.Err? {
        return Fail(found.error);
      }
      var oldLayer := found.value;
      if oldLayer > MIN_LAYER {
        PushChange(ChangeLayer(client, oldLayer - 1));
        var moved := layers.Move(client, oldLayer - 1);
      }
      r := Pass;
    }

    /** `set_layer`: puts a client on a layer, announcing it only when the
        layer changes; ValueError for a layer outside the layers (checked
        first), KeyError for an unknown client. */
    method SetLayer(client: W, layer: int) returns (r: Outcome)
      requires Valid()
      modifies this`changes, layers
      ensures Valid()
      ensures r == if layer !in LayerNames() then Fail(ValueError)
                   else if client !in old(layers.owner) then Fail(KeyError)
                   else Pass
      ensures r.Pass? && old(layers.owner)[client] != layer ==>
        && layers.owner == old(layers.owner)[client := layer]
        && changes == old(changes) + [ChangeLayer(client, layer)]
      ensures !(r.Pass? && old(layers.owner)[client] != layer) ==> unchanged(this) && unchanged(layers)
    {
      if layer !in layers.Categories() {
        return Fail(ValueError);
      }
      var found := FindLayer(client);
      if found.Err? {
        return Fail(found.error);
      }
      var oldLayer := found.value;
      if oldLayer != layer {
        PushChange(ChangeLayer(client, layer));
        var moved := layers.Move(client, layer);
      }
      r := Pass;
    }

    /** `client_next_desktop`: moves a client on a real desktop to the next
        one, the last wrapping to the first, giving up its focus;
        ValueError for a client on a virtual desktop. */
    method ClientNextDesktop(client: W) returns (r: Outcome)
      requires Valid()
      modifies this`focused, this`changes, desktops
      ensures Valid()
      ensures r == if client !in old(desktops.owner) then Fail(KeyError)
                   else if old(desktops.owner)[client] in VIRTUAL_DESKTOPS then Fail(ValueError)
                   else Pass
      ensures r.Fail? ==> unchanged(this) && unchanged(desktops)
      ensures r.Pass? ==>
        var d := old(desktops.owner)[client];
        var next := NextOf(d, maxDesktops);
        && desktops.owner == old(desktops.owner)[client := next]
        && focused == (if next != d then Unfocused(old(focused), client) else old(focused))
        && changes == old(changes) +
             if next == d then [] else UnfocusRecord(old(focused), client) + [ChangeClientDesktop(client, next)]
    {
      var found := FindDesktop(client);
      if found.Err? {
        return Fail(found.error);
      }
      var oldDesktop := found.value;
      if oldDesktop in VIRTUAL_DESKTOPS {
        return Fail(ValueError);
      }
      WrapByDesktopNames(oldDesktop, maxDesktops);
      var next := oldDesktop + 1;
      if next !in desktops.Categories() {
        next := 1;
      }
      MoveToDesktop(client, oldDesktop, next, true);
      r := Pass;
    }

    /** `client_prev_desktop`: moves a client on a real desktop to the
        previous one, the first wrapping to the last, giving up its focus;
        ValueError for a client on a virtual desktop. */
    method ClientPrevDesktop(client: W) returns (r: Outcome)
      requires Valid()
      modifies this`focused, this`changes, desktops
      ensures Valid()
      ensures r == if client !in old(desktops.owner) then Fail(KeyError)
                   else if old(desktops.owner)[client] in VIRTUAL_DESKTOPS then Fail(ValueError)
                   else Pass
      ensures r.Fail? ==> unchanged(this) && unchanged(desktops)
      ensures r.Pass? ==>
        var d := old(desktops.owner)[client];
        var prev := PrevOf(d, maxDesktops);
        && desktops.owner == old(desktops.owner)[client := prev]
        && focused == (if prev != d then Unfocused(old(focused), client) else old(focused))
        && changes == old(changes) +
             if prev == d then [] else UnfocusRecord(old(focused), client) + [ChangeClientDesktop(client, prev)]
    {
      var found := FindDesktop(client);
      if found.Err? {
        return Fail(found.error);
      }
      var oldDesktop := found.value;
      if oldDesktop in VIRTUAL_DESKTOPS {
        return Fail(ValueError);
      }
      WrapByDesktopNames(oldDesktop, maxDesktops);
      var prev := oldDesktop - 1;
      if prev !in desktops.Categories() {
        prev := maxDesktops;
      }
      MoveToDesktop(client, oldDesktop, prev, true);
      r := Pass;
    }

    /** `next_desktop`: shows the next desktop, the last wrapping to the
        first, dropping the focus; ValueError while a client is being moved
        or resized. */
    method NextDesktop() returns (r: Outcome)
      requires Valid()
      modifies this`focused, this`changes, this`currentDesktop
      ensures Valid()
      ensures r == if MoveResizeBusy(desktops.owner) then Fail(ValueError) else Pass
      ensures r.Fail? ==> unchanged(this)
      ensures r.Pass? ==>
        && currentDesktop == NextOf(old(currentDesktop), maxDesktops)
        && focused == None
        && changes == old(changes) +
             (if old(focused).Some? then [ChangeFocus(old(focused), None)] else []) +
             [ChangeCurrentDesktop(currentDesktop)]
    {
      if desktops.CountElementsOf(DESKTOP_MOVING).value > 0 || desktops.CountElementsOf(DESKTOP_RESIZING).value > 0 {
        return Fail(ValueError);
      }
      Unfocus();
      if currentDesktop == maxDesktops {
        currentDesktop := 1;
      } else {
        currentDesktop := currentDesktop + 1;
      }
      PushChange(ChangeCurrentDesktop(currentDesktop));
      r := Pass;
    }

    /** `prev_desktop`: shows the previous desktop, the first wrapping to
        the last, dropping the focus; ValueError while a client is being
        moved or resized. */
    method PrevDesktop() returns (r: Outcome)
      requires Valid()
      modifies this`focused, this`changes, this`currentDesktop
      ensures Valid()
      ensures r == if MoveResizeBusy(desktops.owner) then Fail(ValueError) else Pass
      ensures r.Fail? ==> unchanged(this)
      ensures r.Pass? ==>
        && currentDesktop == PrevOf(old(currentDesktop), maxDesktops)
        && focused == None
        && changes == old(changes) +
             (if old(focused).Some? then [ChangeFocus(old(focused), None)] else []) +
             [ChangeCurrentDesktop(currentDesktop)]
    {
      if desktops.CountElementsOf(DESKTOP_MOVING).value > 0 || desktops.CountElementsOf(DESKTOP_RESIZING).value > 0 {
        return Fail(ValueError);
      }
      Unfocus();
      if currentDesktop == 1 {
        currentDesktop := maxDesktops;
      } else {
        currentDesktop := currentDesktop - 1;
      }
      PushChange(ChangeCurrentDesktop(currentDesktop));
      r := Pass;
    }

    /** `iconify`: hides a shown client among the icons, giving up its
        focus first; ValueError for a client that is already iconified,
        moving or resizing. */
    method Iconify(client: W) returns (r: Outcome)
      requires Valid()
      modifies this`focused, this`changes, desktops
      ensures Valid()
      ensures r == if client !in old(desktops.owner) then Fail(KeyError)
                   else if old(desktops.owner)[client] == DESKTOP_ICONS then Fail(ValueError)
                   else if old(desktops.owner)[client] in INVISIBLE_DESKTOPS then Fail(ValueError)
                   else Pass
      ensures r.Fail? ==> unchanged(this) && unchanged(desktops)
      ensures r.Pass? ==>
        && desktops.owner == old(desktops.owner)[client := DESKTOP_ICONS]
        && focused == Unfocused(old(focused), client)
        && changes == old(changes) + UnfocusRecord(old(focused), client) + [ChangeClientDesktop(client, DESKTOP_ICONS)]
    {
      var found := FindDesktop(client);
      if found.Err? {
        return Fail(found.error);
      }
      var oldDesktop := found.value;
      if oldDesktop == DESKTOP_ICONS {
        return Fail(ValueError);
      } else if oldDesktop in INVISIBLE_DESKTOPS {
        return Fail(ValueError);
      }
      MoveToDesktop(client, oldDesktop, DESKTOP_ICONS, true);
      r := Pass;
    }

    /** `deiconify`: brings an iconified client back on the current desktop
        and focuses it; ValueError for a client that is not iconified. */
    method Deiconify(client: W) returns (r: Outcome)
      requires Valid()
      modifies this`focused, this`changes, desktops
      ensures Valid()
      ensures r == if client !in old(desktops.owner) then Fail(KeyError)
                   else if old(desktops.owner)[client] != DESKTOP_ICONS then Fail(ValueError)
                   else Pass
      ensures r.Fail? ==> unchanged(this) && unchanged(desktops)
      ensures r.Pass? ==>
        && desktops.owner == old(desktops.owner)[client := currentDesktop]
        && focused == Some(client)
        && changes == old(changes) + [ChangeClientDesktop(client, currentDesktop),
                                      ChangeFocus(old(focused), Some(client))]
    {
      var found := FindDesktop(client);
      if found.Err? {
        return Fail(found.error);
      }
      if found.value != DESKTOP_ICONS {
        return Fail(ValueError);
      }
      MoveToDesktop(client, DESKTOP_ICONS, currentDesktop, true);
      r := Focus(client);
    }

    /** `start_moving`: puts a shown client on the moving desktop, giving
        up its focus first; ValueError if it is already moving, if any
        client is moving or resizing, or if it is iconified or resizing. */
    method StartMoving(client: W) returns (r: Outcome)
      requires Valid()
      modifies this`focused, this`changes, desktops
      ensures Valid()
      ensures r == if client !in old(desktops.owner) then Fail(KeyError)
                   else if old(desktops.owner)[client] == DESKTOP_MOVING then Fail(ValueError)
                   else if MoveResizeBusy(old(desktops.owner)) then Fail(ValueError)
                   else if old(desktops.owner)[client] in {DESKTOP_RESIZING, DESKTOP_ICONS} then Fail(ValueError)
                   else Pass
      ensures r.Fail? ==> unchanged(this) && unchanged(desktops)
      ensures r.Pass? ==>
        && desktops.owner == old(desktops.owner)[client := DESKTOP_MOVING]
        && focused == Unfocused(old(focused), client)
        && changes == old(changes) + UnfocusRecord(old(focused), client) + [ChangeClientDesktop(client, DESKTOP_MOVING)]
    {
      var found := FindDesktop(client);
      if found.Err? {
        return Fail(found.error);
      }
      var oldDesktop := found.value;
      if oldDesktop == DESKTOP_MOVING {
        return Fail(ValueError);
      } else if desktops.CountElementsOf(DESKTOP_MOVING).value != 0 || desktops.CountElementsOf(DESKTOP_RESIZING).value != 0 {
        return Fail(ValueError);
      } else if oldDesktop in {DESKTOP_RESIZING, DESKTOP_ICONS} {
        return Fail(ValueError);
      }
      MoveToDesktop(client, oldDesktop, DESKTOP_MOVING, true);
      r := Pass;
    }

    /** `stop_moving`: puts a moving client back on the current desktop at
        its new location and focuses it; ValueError if it is not moving. */
    method StopMoving(client: W, geometry: Geometry) returns (r: Outcome)
      requires Valid()
      modifies this`focused, this`changes, this`location, desktops
      ensures Valid()
      ensures r == if client !in old(desktops.owner) then Fail(KeyError)
                   else if old(desktops.owner)[client] != DESKTOP_MOVING then Fail(ValueError)
                   else Pass
      ensures r.Fail? ==> unchanged(this) && unchanged(desktops)
      ensures r.Pass? ==>
        && desktops.owner == old(desktops.owner)[client := currentDesktop]
        && location == old(location)[client := (geometry.x, geometry.y)]
        && focused == Some(client)
        && changes == old(changes) + [ChangeClientDesktop(client, currentDesktop),
                                      ChangeLocation(client, geometry.x, geometry.y),
                                      ChangeFocus(old(focused), Some(client))]
    {
      var found := FindDesktop(client);
      if found.Err? {
        return Fail(found.error);
      }
      if found.value != DESKTOP_MOVING {
        return Fail(ValueError);
      }
      MoveToDesktop(client, DESKTOP_MOVING, currentDesktop, true);
      location := location[client := (geometry.x, geometry.y)];
      PushChange(ChangeLocation(client, geometry.x, geometry.y));
      r := Focus(client);
    }

    /** `start_resizing`: puts a shown client on the resizing desktop,
        giving up its focus first; ValueError if it is already resizing,
        if any client is moving or resizing, or if it is iconified or
        moving. */
    method StartResizing(client: W) returns (r: Outcome)
      requires Valid()
      modifies this`focused, this`changes, desktops
      ensures Valid()
      ensures r == if client !in old(desktops.owner) then Fail(KeyError)
                   else if old(desktops.owner)[client] == DESKTOP_RESIZING then Fail(ValueError)
                   else if MoveResizeBusy(old(desktops.owner)) then Fail(ValueError)
                   else if old(desktops.owner)[client] in {DESKTOP_MOVING, DESKTOP_ICONS} then Fail(ValueError)
                   else Pass
      ensures r.Fail? ==> unchanged(this) && unchanged(desktops)
      ensures r.Pass? ==>
        && desktops.owner == old(desktops.owner)[client := DESKTOP_RESIZING]
        && focused == Unfocused(old(focused), client)
        && changes == old(changes) + UnfocusRecord(old(focused), client) + [ChangeClientDesktop(client, DESKTOP_RESIZING)]
    {
      var found := FindDesktop(client);
      if found.Err? {
        return Fail(found.error);
      }
      var oldDesktop := found.value;
      if oldDesktop == DESKTOP_RESIZING {
        return Fail(ValueError);
      } else if desktops.CountElementsOf(DESKTOP_MOVING).value > 0 || desktops.CountElementsOf(DESKTOP_RESIZING).value != 0 {
        return Fail(ValueError);
      } else if oldDesktop in {DESKTOP_MOVING, DESKTOP_ICONS} {
        return Fail(ValueError);
      }
      MoveToDesktop(client, oldDesktop, DESKTOP_RESIZING, true);
      r := Pass;
    }

    /** `stop_resizing`: puts a resizing client back on the current desktop
        with its new size and focuses it; ValueError if it is not resizing
        or the new width or height is not positive.  The size is stored
        height first, while the change record carries width first. */
    method StopResizing(client: W, geometry: Geometry) returns (r: Outcome)
      requires Valid()
      modifies this`focused, this`changes, this`size, desktops
      ensures Valid()
      ensures r == if client !in old(desktops.owner) then Fail(KeyError)
                   else if old(desktops.owner)[client] != DESKTOP_RESIZING then Fail(ValueError)
                   else if geometry.width <= 0 || geometry.height <= 0 then Fail(ValueError)
                   else Pass
      ensures r.Fail? ==> unchanged(this) && unchanged(desktops)
      ensures r.Pass? ==>
        && desktops.owner == old(desktops.owner)[client := currentDesktop]
        && size == old(size)[client := (geometry.height, geometry.width)]
        && focused == Some(client)
        && changes == old(changes) + [ChangeClientDesktop(client, currentDesktop),
                                      ChangeSize(client, geometry.width, geometry.height),
                                      ChangeFocus(old(focused), Some(client))]
    {
      var found := FindDesktop(client);
      if found.Err? {
        return Fail(found.error);
      }
      if found.value != DESKTOP_RESIZING {
        return Fail(ValueError);
      }
      if geometry.width <= 0 || geometry.height <= 0 {
        return Fail(ValueError);
      }
      MoveToDesktop(client, DESKTOP_RESIZING, currentDesktop, true);
      size := size[client := (geometry.height, geometry.width)];
      PushChange(ChangeSize(client, geometry.width, geometry.height));
      r := Focus(client);
    }
  }
}
