/**
 * The docking service of the Electron front end: it reads the appearance
 * settings, docks the main window (telling the host the dock mode, setting
 * always-on-top and applying the computed bounds), brings a window back
 * when it has left every display, and stores the ratios the host reports
 * after the user resizes a docked window.
 */
module Docking {
  import opened DockGeometry
  import opened Displays

  /** The window's top-left point lies inside the closed rectangle `r`. */
  predicate ContainsPoint(r: Bounds, x: int, y: int)
  {
    r.x <= x <= r.x + r.width && r.y <= y <= r.y + r.height
  }

  /** Whether the point (x, y) lies on some display's bounds, searched in order with an early exit. */
  method OnAnyDisplay(displays: seq<Display>, x: int, y: int) returns (inside: bool)
    ensures inside <==> exists i :: 0 <= i < |displays| && ContainsPoint(displays[i].bounds, x, y)
  {
    for n := 0 to |displays|
      invariant forall i :: 0 <= i < n ==> !ContainsPoint(displays[i].bounds, x, y)
    {
      var bounds := displays[n].bounds;
      if x >= bounds.x && x <= bounds.x + bounds.width && y >= bounds.y && y <= bounds.y + bounds.height {
        return true;
      }
    }
    return false;
  }

  class ElectronDockingService {
    // The appearance section of the configuration store.
    var dock: DockSide
    var dockScreen: int
    var dockFill: real
    var dockSpace: real
    var dockAlwaysOnTop: bool

    /** Whether this renderer belongs to the application's main window. */
    const isMainWindow: bool

    // What the service has done to the host: the dock modes it sent, in
    // order, and the window's always-on-top flag and bounds.
    var sentDockModes: seq<DockSide>
    var alwaysOnTop: bool
    var windowBounds: Bounds

    constructor (isMainWindow: bool, dock: DockSide, dockScreen: int, dockFill: real, dockSpace: real,
                 dockAlwaysOnTop: bool, alwaysOnTop: bool, windowBounds: Bounds)
      ensures this.isMainWindow == isMainWindow && this.dock == dock && this.dockScreen == dockScreen
      ensures this.dockFill == dockFill && this.dockSpace == dockSpace && this.dockAlwaysOnTop == dockAlwaysOnTop
      ensures sentDockModes == [] && this.alwaysOnTop == alwaysOnTop && this.windowBounds == windowBounds
    {
      this.isMainWindow := isMainWindow;
      this.dock := dock;
      this.dockScreen := dockScreen;
      this.dockFill := dockFill;
      this.dockSpace := dockSpace;
      this.dockAlwaysOnTop := dockAlwaysOnTop;
      sentDockModes := [];
      this.alwaysOnTop := alwaysOnTop;
      this.windowBounds := windowBounds;
    }

    /** The host reports the ratios of a docked window the user resized; they are stored as received. */
    method OnDockedResize(fill: real, space: real)
      modifies this`dockFill, this`dockSpace
      ensures dockFill == fill && dockSpace == space
    {
      dockFill := fill;
      dockSpace := space;
    }

    /**
     * Docks the window as configured. Off, or any window but the main one:
     * the host is told "off", always-on-top is cleared and the bounds stay.
     * Otherwise the host is told the dock side, always-on-top follows the
     * setting and the window takes the bounds of `DockBounds` on the work
     * area of the chosen display. `displays`, `nearest`, `cursor` and the
     * minimum size are what the screen API and the window report.
     */
    method Dock(displays: seq<Display>, nearest: Point -> Display, cursor: Point,
                minWidth: int, minHeight: int)
      modifies this`sentDockModes, this`alwaysOnTop, this`windowBounds
      ensures dock == Off || !isMainWindow ==>
                && sentDockModes == old(sentDockModes) + [Off]
                && !alwaysOnTop
                && windowBounds == old(windowBounds)
      ensures dock != Off && isMainWindow ==>
                && sentDockModes == old(sentDockModes) + [dock]
                && alwaysOnTop == dockAlwaysOnTop
                && windowBounds == DockBounds(dock, dockFill, dockSpace,
                                              SelectDockDisplay(displays, dockScreen, nearest, cursor).workArea,
                                              minWidth, minHeight)
    {
      var dockSide := dock;
      if dockSide == Off || !isMainWindow {
        sentDockModes := sentDockModes + [Off];
        alwaysOnTop := false;
        return;
      }

      var display := SelectDockDisplay(displays, dockScreen, nearest, cursor);
      var x, y, width, height := 0, 0, 0, 0;
      var fill := Clamp01(dockFill);
      var space := Clamp01(dockSpace);
      var wa := display.workArea;
      match dockSide {
        case Center =>
          width := MaxInt(minWidth, RoundedProduct(fill, wa.width));
          height := MaxInt(minHeight, RoundedProduct(space, wa.height));
          x := wa.x + Round((wa.width - width) as real / 2.0);
          y := wa.y + Round((wa.height - height) as real / 2.0);
        case Left =>
          width := MaxInt(minWidth, RoundedProduct(fill, wa.width));
          height := RoundedProduct(space, wa.height);
          x := wa.x;
          y := wa.y + Round((wa.height - height) as real / 2.0);
        case Right =>
          width := MaxInt(minWidth, RoundedProduct(fill, wa.width));
          height := RoundedProduct(space, wa.height);
          x := wa.x + wa.width - width;
          y := wa.y + Round((wa.height - height) as real / 2.0);
        case Top =>
          width := RoundedProduct(space, wa.width);
          height := MaxInt(minHeight, RoundedProduct(fill, wa.height));
          x := wa.x + Round((wa.width - width) as real / 2.0);
          y := wa.y;
        case Bottom =>
          width := RoundedProduct(space, wa.width);
          height := MaxInt(minHeight, RoundedProduct(fill, wa.height));
          x := wa.x + Round((wa.width - width) as real / 2.0);
          y := wa.y + wa.height - height;
      }

      sentDockModes := sentDockModes + [dockSide];
      alwaysOnTop := dockAlwaysOnTop;
      windowBounds := Bounds(x, y, width, height);
    }

    /**
     * Brings the window back after displays changed: if its top-left point
     * lies on no display any more, it moves to the primary display's origin;
     * its size stays.
     */
    method RepositionWindow(displays: seq<Display>, primary: Display)
      modifies this`windowBounds
      ensures (exists i :: 0 <= i < |displays| && ContainsPoint(displays[i].bounds, old(windowBounds).x, old(windowBounds).y)) ==>
                windowBounds == old(windowBounds)
      ensures (forall i :: 0 <= i < |displays| ==> !ContainsPoint(displays[i].bounds, old(windowBounds).x, old(windowBounds).y)) ==>
                windowBounds == old(windowBounds).(x := primary.bounds.x, y := primary.bounds.y)
      // The window's top-left point ends up on a display when the primary one is listed.
      ensures primary in displays && primary.bounds.width >= 0 && primary.bounds.height >= 0 ==>
                exists i :: 0 <= i < |displays| && ContainsPoint(displays[i].bounds, windowBounds.x, windowBounds.y)
    {
      var inside := OnAnyDisplay(displays, windowBounds.x, windowBounds.y);
      if inside {
        return;
      }
      windowBounds := windowBounds.(x := primary.bounds.x, y := primary.bounds.y);
      if primary in displays && primary.bounds.width >= 0 && primary.bounds.height >= 0 {
        var k :| 0 <= k < |displays| && displays[k] == primary;
        assert ContainsPoint(displays[k].bounds, windowBounds.x, windowBounds.y);
      }
    }
  }
}
