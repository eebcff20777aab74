# Window docking for the Tabby terminal, modelled in Dafny

Tabby can dock its main window to an edge of a display (left, right, top or
bottom) or centre it, sized by two ratios from the appearance settings:
`dockFill`, the window's depth away from the edge it is docked to, and
`dockSpace`, how much of the parallel edge it covers. This project models
the Electron docking service that turns those settings into window bounds
and applies them, the choice of the display to dock to, the list of
displays shown in the settings panel, the recovery of a window that is left
on no display, the storing of ratios after the user resizes a docked window,
and the settings panel's labels for the two ratios.

Files and modules:

- `dock_geometry.dfy`, module `DockGeometry`: dock sides, bounds, the
  clamping of ratios, JavaScript's `Math.round` as `Floor(x + 0.5)` over
  `real`, and `DockBounds`, the bounds of a docked window, defined axis by
  axis (which ratio sizes the axis, whether the minimum size floors it, and
  whether the window is anchored to an edge or centred on it). The lemmas
  give size ranges, containment in the work area, independence of the span
  axis from the fill ratio and the minimum size, and two worked examples.
- `displays.dfy`, module `Displays`: displays, the choice of the display to
  dock to (the configured id, else the display nearest the cursor), the
  sort of displays by position (left to right, then top to bottom; an
  insertion sort, proved stable like JavaScript's sort) and the names "Primary Display" and
  "Display k", with decimal numbers and their read-back.
- `docking_service.dfy`, module `Docking`: the class
  `ElectronDockingService`, whose fields are the appearance settings it
  reads, whether its window is the main window, the log of dock modes it
  has sent to the host, the window's always-on-top flag and the window's
  bounds. `Dock` builds the new bounds field by field in a `match`, as the
  service does, and is proved to produce `DockBounds`. `RepositionWindow`
  searches the displays with an early exit (`OnAnyDisplay`) and moves the
  window to the primary display's origin when its top-left point is on
  none. `OnDockedResize` stores the reported ratios as received.
- `window_settings.dfy`, module `WindowSettings`: the four label getters
  of the window settings panel, and a lemma that the labels name the
  dimensions that the two ratios actually size in `DockBounds`.

Inputs that come from Electron are parameters: the list of displays, the
primary display (or its id), the cursor position, the display nearest to a
point (a function parameter `nearest`) and the window's minimum size. A
configured `dockScreen` that is not a display id (such as a symbolic
"current screen" value) behaves like an id that no display has, so it is
modelled as an `int`.

Behaviour of the code worth noting:

- After a display change the service runs `RepositionWindow`; it does not
  dock the window again (tabby-electron/src/services/docking.service.ts:18-19).
- For `center` both axes are floored at the minimum size, so there the span
  axis has a floor too (docking.service.ts:65-66).
- The fill-axis size lies in `[minimum, max(minimum, extent)]`: when the
  minimum is larger than the work area the window overflows it
  (docking.service.ts:65, 71, 77, 84, 90; `DockBoundsSizeRanges`,
  `DockBoundsFitWorkArea`).
- The label getters give "Width" for the fill ratio on every side other
  than top and bottom, including `off`.
- The off-screen test uses closed intervals. A point on the right or bottom
  border line (`x == bounds.x + bounds.width`) counts as on the display.
- Centring uses `Math.round` on half the free space, so when the free space
  is odd the window sits half a pixel past the centre, away from the origin.

## Model

| member | source | states |
|---|---|---|
| `DockGeometry.Clamp01` | tabby-electron/src/services/docking.service.ts:58-59 | the clamped ratio lies in [0, 1]. A ratio already in [0, 1] is kept. A ratio below 0 becomes 0 and one above 1 becomes 1 |
| `DockGeometry.Round` | tabby-electron/src/services/docking.service.ts:65-68 | `Math.round` gives the integer n with v - 1/2 < n <= v + 1/2, the nearest integer with halves rounded up |
| `DockGeometry.Place` | tabby-electron/src/services/docking.service.ts:67-92 | placed at the start, the window sits at the origin. Placed at the end, its far edge meets the far edge of the axis. Placed in the middle, its centre is the axis's centre or, when the free space is odd, half a pixel past it, as `origin + round((extent - size) / 2)` places it |
| `DockGeometry.CentredIsPlaceMiddle` | tabby-electron/src/services/docking.service.ts:67-68 | a centred position is exactly `origin + round((extent - size) / 2)`, so the centring clauses pin the source's value |
| `DockGeometry.DockBounds` | tabby-electron/src/services/docking.service.ts:58-94 | fill axis (width for left/right/center, height for top/bottom) = max(minimum, round(clamp(fill) * extent)) and never below the minimum. Span axis = round(clamp(space) * extent), floored at the minimum only for center. Left: x = wa.x. Right: x + width = wa.x + wa.width. Top: y = wa.y. Bottom: y + height = wa.y + wa.height. Every axis not anchored is centred as `origin + round((extent - size) / 2)` places it: exactly, or half a pixel past the centre when the free space is odd |
| `DockGeometry.ScaledWithinExtent` | tabby-electron/src/services/docking.service.ts:58-59 | a clamped ratio of a non-negative extent, rounded, lies in [0, extent] |
| `DockGeometry.DockBoundsSizeRanges` | tabby-electron/src/services/docking.service.ts:58-94 | for any ratios, the fill-axis size lies in [minimum, max(minimum, extent)], and the span axis of an edge dock lies in [0, extent] |
| `DockGeometry.PlaceWithinExtent` | tabby-electron/src/services/docking.service.ts:67-92 | a window no larger than the axis, placed at the start, the end or the middle, stays inside the axis |
| `DockGeometry.DockBoundsFitWorkArea` | tabby-electron/src/services/docking.service.ts:62-94 | when the minimum size fits the work area, the docked window has non-negative size and lies inside the work area |
| `DockGeometry.SpanIndependentOfFill` | tabby-electron/src/services/docking.service.ts:70-93 | docked to an edge, the span-axis size and position do not depend on the fill ratio or on the minimum size |
| `DockGeometry.FillIndependentOfSpan` | tabby-electron/src/services/docking.service.ts:63-93 | the fill-axis size does not depend on the span ratio |
| `DockGeometry.LeftDockExample` | tabby-electron/src/services/docking.service.ts:70-75 | a 1000x800 work area, minimum 400x300, left dock, fill 0.3, span 0.5 gives {x 0, y 200, width 400, height 400}. The 300-pixel width is raised to the minimum |
| `DockGeometry.TopDockExample` | tabby-electron/src/services/docking.service.ts:82-87 | a 1200x900 work area, minimum 0x100, top dock, fill 0.2, span 0.6 gives {x 240, y 0, width 720, height 180} |
| `Displays.FirstWithId` | tabby-electron/src/services/docking.service.ts:43-44 | None exactly when no display has the id. Otherwise it gives a listed display with that id, and no earlier display has the id |
| `Displays.SelectDockDisplay` | tabby-electron/src/services/docking.service.ts:43-48 | if some display has the configured id, the first such display is chosen. Otherwise the display nearest the cursor is chosen. The choice never fails |
| `Displays.InsertByPosition` | tabby-electron/src/services/docking.service.ts:107-108 | inserting into a list sorted by (x, y) keeps it sorted, and the result holds the old elements plus the new one |
| `Displays.SortByPosition` | tabby-electron/src/services/docking.service.ts:107-108 | the result is sorted by bounds.x, with ties broken by bounds.y, and is a permutation of the input |
| `Displays.InsertKeepsOrderAtPosition` | tabby-electron/src/services/docking.service.ts:107-108 | an inserted display goes ahead of every display already at its (x, y) position, and the displays at other positions keep their order |
| `Displays.SortKeepsOrderAtPosition` | tabby-electron/src/services/docking.service.ts:107-108 | the sort is stable: the displays at each (x, y) position keep the order in which they were listed, as JavaScript's stable `Array.prototype.sort` keeps them |
| `Displays.DecimalString` | tabby-electron/src/services/docking.service.ts:113 | the decimal text of a number is a non-empty string of digits with no leading zero |
| `Displays.DecimalRoundTrip` | tabby-electron/src/services/docking.service.ts:113 | reading the decimal text back gives the number it was written from |
| `Displays.DecimalStringInjective` | tabby-electron/src/services/docking.service.ts:113 | distinct numbers have distinct decimal texts |
| `Displays.GetScreens` | tabby-electron/src/services/docking.service.ts:105-116 | the screens list every display exactly once (same multiset), sorted by (x, y), with displays at the same position in their listed order. The primary display is named "Primary Display". Every other display at sorted index i is named "Display i+1" |
| `Displays.ScreenNamesDistinct` | tabby-electron/src/services/docking.service.ts:109-115 | two screens share a name exactly when both are the primary display |
| `Docking.OnAnyDisplay` | tabby-electron/src/services/docking.service.ts:124-129 | true exactly when the point lies in the closed bounds rectangle of some display |
| `Docking.ElectronDockingService.RepositionWindow` | tabby-electron/src/services/docking.service.ts:122-132 | if the window's top-left point lies on some display, the bounds are unchanged. Otherwise the window moves to the primary display's (bounds.x, bounds.y) and keeps its size. Afterwards, when the primary display is listed and its bounds have non-negative width and height, the point lies on a display |
| `Docking.ElectronDockingService.Dock` | tabby-electron/src/services/docking.service.ts:34-103 | off, or not the main window: exactly one "off" is sent, always-on-top is cleared and no bounds are applied. Otherwise: the dock side is sent, always-on-top follows the setting, and the window's bounds become `DockBounds` on the chosen display's work area. The settings are not changed |
| `Docking.ElectronDockingService.OnDockedResize` | tabby-electron/src/services/docking.service.ts:25-31 | the reported fill and space are stored as received, without clamping. Nothing else changes |
| `WindowSettings.DockFillLabel` | tabby-settings/src/components/windowSettingsTab.component.ts:53-56 | "Height" exactly when docked to top or bottom, "Width" on every other side, off and center included |
| `WindowSettings.DockFillDescription` | tabby-settings/src/components/windowSettingsTab.component.ts:58-61 | "Percentage of screen height" exactly when the fill label is "Height". "Percentage of screen width" exactly when it is "Width" |
| `WindowSettings.DockSpaceLabel` | tabby-settings/src/components/windowSettingsTab.component.ts:63-66 | always one of "Width" and "Height", and never the fill label |
| `WindowSettings.DockSpaceDescription` | tabby-settings/src/components/windowSettingsTab.component.ts:68-71 | "Percentage of screen width" exactly when docked to top or bottom, and exactly when the span label is "Width" |
| `WindowSettings.LabelsMatchDockGeometry` | tabby-settings/src/components/windowSettingsTab.component.ts:53-71 | the dimension the fill label names is the one the fill ratio sizes in `DockBounds`, and the dimension the span label names is the one the span ratio sizes |

## Left out

- Inter-process messages: sending `window-set-dock-mode` is modelled as appending the mode to `sentDockModes`. The `host:displays-changed` forwarding and the IPC listeners are plumbing.
- The Angular wiring is left out: dependency injection, `NgZone.run`, `subscribeUntilDestroyed`, and the `screensChanged$` and `displayMetricsChanged$` subscriptions that call `RepositionWindow`. Callers invoke the methods directly instead.
- `Docking.ElectronDockingService.Dock`: the `setImmediate` deferral is not modelled. The new bounds are applied at the end of the call. The model therefore does not capture that the host sees the dock mode before the bounds.
- Electron's screen and window APIs are foreign calls, so their results are parameters. These are `getAllDisplays`, `getPrimaryDisplay`, `getCursorScreenPoint`, `getDisplayNearestPoint` (the `nearest` function) and `getMinimumSize`. Any adjustment Electron makes to bounds passed to `setBounds` is not modelled.
- `config.save()` after a resize is not modelled, and neither are the debounced `saveConfiguration`, `requestRestart`, the theme list, `isWindowsBuild` and the screens list the settings panel keeps. These are persistence and platform checks.
- Ratios are exact `real`s. The IEEE-754 double rounding of `fill * wa.width` and NaN ratios are not modelled.
