/** Short operation sequences on a fresh registry, with the exact records
    each step queues.  Each starts like the registry's own tests: a
    registry with five desktops, one window added with empty hints and
    the queue flushed. */
module ClientScenarios {
  import opened Wrappers
  import opened ClientRegistry

  /** A registry holding the focused window `x` on desktop 1 and layer 5,
      with nothing queued. */
  method FreshWithOne<W(==)>(x: W) returns (data: ClientData<W>)
    ensures fresh(data) && fresh(data.desktops) && fresh(data.layers) && data.Valid()
    ensures data.maxDesktops == 5 && data.currentDesktop == 1
    ensures data.desktops.owner == map[x := 1] && data.layers.owner == map[x := DEFAULT_LAYER]
    ensures data.focused == Some(x) && data.changes == []
  {
    data := new ClientData<W>(5);
    var added := data.AddClient(x, WMHints(0, 0), Geometry(0, 0, 0, 0));
    var flushed := data.FlushChanges();
  }

  /** Setting the top layer announces it once; raising the window further
      changes nothing and announces nothing. */
  method LayerClampTop<W(==)>(x: W) returns (toTop: seq<Change<W>>, aboveTop: seq<Change<W>>, layer: Result<int>)
    ensures toTop == [ChangeLayer(x, MAX_LAYER)] && aboveTop == []
    ensures layer == Ok(MAX_LAYER)
  {
    var data := FreshWithOne(x);
    var r := data.SetLayer(x, MAX_LAYER);
    toTop := data.FlushChanges();
    r := data.UpLayer(x);
    aboveTop := data.FlushChanges();
    layer := data.FindLayer(x);
  }

  /** The same at the bottom layer. */
  method LayerClampBottom<W(==)>(x: W) returns (toBottom: seq<Change<W>>, belowBottom: seq<Change<W>>, layer: Result<int>)
    ensures toBottom == [ChangeLayer(x, MIN_LAYER)] && belowBottom == []
    ensures layer == Ok(MIN_LAYER)
  {
    var data := FreshWithOne(x);
    var r := data.SetLayer(x, MIN_LAYER);
    toBottom := data.FlushChanges();
    r := data.DownLayer(x);
    belowBottom := data.FlushChanges();
    layer := data.FindLayer(x);
  }

  /** Layers outside 1..9 are refused and nothing is queued. */
  method LayerRefused<W(==)>(x: W) returns (zero: Outcome, ten: Outcome, fortyTwo: Outcome, queued: seq<Change<W>>)
    ensures zero == Fail(ValueError) && ten == Fail(ValueError) && fortyTwo == Fail(ValueError)
    ensures queued == []
  {
    var data := FreshWithOne(x);
    zero := data.SetLayer(x, 0);
    ten := data.SetLayer(x, 10);
    fortyTwo := data.SetLayer(x, 42);
    queued := data.FlushChanges();
  }

  /** Iconifying the focused window gives up the focus before the window
      leaves; deiconifying brings it back before focusing it. */
  method IconifyRoundTrip<W(==)>(x: W) returns (hiding: seq<Change<W>>, restoring: seq<Change<W>>, desktop: Result<int>)
    ensures hiding == [ChangeFocus(Some(x), None), ChangeClientDesktop(x, DESKTOP_ICONS)]
    ensures restoring == [ChangeClientDesktop(x, 1), ChangeFocus(None, Some(x))]
    ensures desktop == Ok(1)
  {
    var data := FreshWithOne(x);
    var r := data.Iconify(x);
    hiding := data.FlushChanges();
    r := data.Deiconify(x);
    restoring := data.FlushChanges();
    desktop := data.FindDesktop(x);
  }

  /** The focused window `x` starts moving: it gives up the focus and
      leaves for the moving desktop. */
  method StartMovingOne<W(==)>(x: W) returns (data: ClientData<W>, start: seq<Change<W>>)
    ensures fresh(data) && fresh(data.desktops) && fresh(data.layers) && data.Valid()
    ensures data.maxDesktops == 5 && data.currentDesktop == 1
    ensures data.desktops.owner == map[x := DESKTOP_MOVING] && data.focused == None && data.changes == []
    ensures start == [ChangeFocus(Some(x), None), ChangeClientDesktop(x, DESKTOP_MOVING)]
  {
    data := FreshWithOne(x);
    assert !MoveResizeBusy(data.desktops.owner) by {
      assert data.desktops.owner[x] == 1;
    }
    var r := data.StartMoving(x);
    start := data.FlushChanges();
  }

  /** A move announces the window's departure, then on its end its return,
      its location and its focus, in that order. */
  method MoveRoundTrip<W(==)>(x: W) returns (start: seq<Change<W>>, stop: seq<Change<W>>)
    ensures start == [ChangeFocus(Some(x), None), ChangeClientDesktop(x, DESKTOP_MOVING)]
    ensures stop == [ChangeClientDesktop(x, 1), ChangeLocation(x, 42, 42), ChangeFocus(None, Some(x))]
  {
    var data;
    data, start := StartMovingOne(x);
    var r := data.StopMoving(x, Geometry(42, 42, 0, 0));
    stop := data.FlushChanges();
  }

  /** A resize ends with the return, the size record (width first) and the
      focus; the stored size is height first. */
  method ResizeRoundTrip<W(==)>(x: W) returns (stop: seq<Change<W>>, stored: (int, int), refused: Outcome)
    ensures stop == [ChangeClientDesktop(x, 1), ChangeSize(x, 640, 480), ChangeFocus(None, Some(x))]
    ensures stored == (480, 640)
    ensures refused == Fail(ValueError)
  {
    var data := FreshWithOne(x);
    var r := data.StartResizing(x);
    refused := data.StopResizing(x, Geometry(0, 0, 0, 480));
    var flushed := data.FlushChanges();
    r := data.StopResizing(x, Geometry(0, 0, 640, 480));
    stop := data.FlushChanges();
    stored := data.size[x];
  }

  /** A registry holding the focused window `x` and the window `y`, both
      on desktop 1, with nothing queued. */
  method FreshWithTwo<W(==)>(x: W, y: W) returns (data: ClientData<W>)
    requires x != y
    ensures fresh(data) && fresh(data.desktops) && fresh(data.layers) && data.Valid()
    ensures data.desktops.owner == map[x := 1, y := 1]
    ensures data.changes == []
  {
    data := FreshWithOne(x);
    var r := data.AddClient(y, WMHints(0, 0), Geometry(0, 0, 0, 0));
    var flushed := data.FlushChanges();
  }

  /** A registry holding `x` in the middle of a move and `y` on desktop 1,
      with nothing queued. */
  method MovingWithTwo<W(==)>(x: W, y: W) returns (data: ClientData<W>)
    requires x != y
    ensures fresh(data) && fresh(data.desktops) && fresh(data.layers) && data.Valid()
    ensures data.desktops.owner == map[x := DESKTOP_MOVING, y := 1]
    ensures data.changes == []
  {
    data := FreshWithTwo(x, y);
    assert !MoveResizeBusy(data.desktops.owner) by {
      forall c | c in data.desktops.owner ensures !InMoveResize(data.desktops.owner[c]) {
        assert data.desktops.owner[c] == 1;
      }
    }
    var r := data.StartMoving(x);
    assert data.desktops.owner == map[x := 1, y := 1][x := DESKTOP_MOVING];
    var flushed := data.FlushChanges();
  }

  /** While one window is moving, no other may start moving or resizing,
      and nothing is queued. */
  method MoveExcludesMoveResize<W(==)>(x: W, y: W) returns (moveY: Outcome, resizeY: Outcome, queued: seq<Change<W>>)
    requires x != y
    ensures moveY == Fail(ValueError) && resizeY == Fail(ValueError)
    ensures queued == []
  {
    var data := MovingWithTwo(x, y);
    assert MoveResizeBusy(data.desktops.owner) by {
      assert x in data.desktops.owner && InMoveResize(data.desktops.owner[x]);
    }
    moveY := data.StartMoving(y);
    resizeY := data.StartResizing(y);
    queued := data.FlushChanges();
  }

  /** While one window is moving, the shown desktop may not change. */
  method MoveExcludesDesktopChange<W(==)>(x: W, y: W) returns (shown: Outcome, queued: seq<Change<W>>)
    requires x != y
    ensures shown == Fail(ValueError)
    ensures queued == []
  {
    var data := MovingWithTwo(x, y);
    assert MoveResizeBusy(data.desktops.owner) by {
      assert x in data.desktops.owner && InMoveResize(data.desktops.owner[x]);
    }
    shown := data.NextDesktop();
    queued := data.FlushChanges();
  }

  /** A window stuck to all desktops keeps the focus and stays shown when
      the shown desktop changes; unsticking puts it on the shown desktop. */
  method StickAcrossDesktops<W(==)>(x: W) returns (stick: seq<Change<W>>, visible: Result<bool>, unstick: seq<Change<W>>)
    ensures stick == [ChangeClientDesktop(x, DESKTOP_ALL)]
    ensures visible == Ok(true)
    ensures unstick == [ChangeClientDesktop(x, 2)]
  {
    var data := FreshWithOne(x);
    var r := data.ToggleStick(x);
    assert data.desktops.owner == map[x := DESKTOP_ALL];
    stick := data.FlushChanges();
    assert !MoveResizeBusy(data.desktops.owner) by {
      assert data.desktops.owner[x] == DESKTOP_ALL;
    }
    r := data.NextDesktop();
    assert data.currentDesktop == 2 && data.desktops.owner == map[x := DESKTOP_ALL];
    visible := data.IsVisible(x);
    var flushed := data.FlushChanges();
    r := data.ToggleStick(x);
    unstick := data.FlushChanges();
  }

  /** The first step of moving the focused window to the next desktop also
      gives up its focus; later steps queue only the desktop change. */
  method ClientCyclingFirstSteps<W(==)>(x: W) returns (first: seq<Change<W>>, second: seq<Change<W>>)
    ensures first == [ChangeFocus(Some(x), None), ChangeClientDesktop(x, 2)]
    ensures second == [ChangeClientDesktop(x, 3)]
  {
    var data := FreshWithOne(x);
    var r := data.ClientNextDesktop(x);
    first := data.FlushChanges();
    r := data.ClientNextDesktop(x);
    second := data.FlushChanges();
  }

  /** Likewise the first change of the shown desktop drops the focus. */
  method DesktopCyclingFirstSteps<W(==)>(x: W) returns (first: seq<Change<W>>, second: seq<Change<W>>, back: seq<Change<W>>)
    ensures first == [ChangeFocus(Some(x), None), ChangeCurrentDesktop(2)]
    ensures second == [ChangeCurrentDesktop(3)]
    ensures back == [ChangeCurrentDesktop(2)]
  {
    var data := FreshWithOne(x);
    var r := data.NextDesktop();
    first := data.FlushChanges();
    r := data.NextDesktop();
    second := data.FlushChanges();
    r := data.PrevDesktop();
    back := data.FlushChanges();
  }

  /** A removed window is no longer a client and cannot be found. */
  method RemoveForgets<W(==)>(x: W) returns (isClient: bool, desktop: Result<int>, layer: Result<int>, queued: seq<Change<W>>)
    ensures !isClient && desktop == Err(KeyError) && layer == Err(KeyError)
    ensures queued == [ChangeFocus(Some(x), None)]
  {
    var data := FreshWithOne(x);
    var r := data.RemoveClient(x);
    isClient := data.IsClient(x);
    desktop := data.FindDesktop(x);
    layer := data.FindLayer(x);
    queued := data.FlushChanges();
  }
}
