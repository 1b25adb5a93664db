# Popout-Notepad in Dafny

Popout-Notepad is a sticky-note panel docked to one edge of the screen. While
collapsed only a 20-pixel strip of it is on screen. When the pointer enters the
strip, the panel slides out in steps of 10 pixels. When the pointer leaves the
panel, it slides back. The panel holds a text area with Copy and Paste buttons.
It remembers these across restarts in a JSON settings file:

- button size, dock side, font and theme
- its position along the dock edge
- the text and the text font size

This project models the `NotepadApp` class of `Popout-Notepad.py`:

- loading and saving the settings
- the theme's colours
- the dock geometry computed from the button size and dock side
- dragging the panel along its edge
- the slide animation, one step at a time and as the whole chain of timer steps
- the hover poll that expands and collapses the panel
- the menu commands that change a setting, rebuild the panel and save

Modules:

- `Wrappers` (`wrappers.dfy`): `Option`.
- `Settings` (`settings.dfy`): the persisted record and the settings object.
  - `Load` reads the object, falling back to defaults.
  - `Save` builds the object.
  - Lemmas give the defaults and the two round trips.
- `Palette` (`palette.dfy`): the light and dark palettes.
- `Dock` (`dock.dfy`): the panel's integer geometry as pure functions, with lemmas.
  - the sizes and the shown and hidden offsets of each dock side
  - the drag clamp and centring
  - the slide step and its iteration
  - the hover rectangles
- `Notepad` (`notepad.dfy`): the class `NotepadApp`.
  - Its fields are the ones the Python object updates in place.
  - Each method is specified against the `Dock`, `Settings` and `Palette` functions.
  - The invariants `Valid` and `Sized` are kept by every method that changes geometry.
  - `Valid`: the offsets are the ones `Dock.Offsets` gives, and the slide offset lies between them.
  - `Sized`: the dimensions follow the button size.

Where the code does something other than what it evidently sets out to do, the
model follows the code:

- **The OS theme is never used.** `is_light_theme` says it is used when no
  configuration exists (`Popout-Notepad.py:12`), and `__init__` calls it when
  `theme` is unset (`:41-42`). But `load_config` always assigns `theme`, at `:98`,
  `:107` and `:116`. So the `hasattr` fallbacks and `is_light_theme` never run.
  Without settings the theme is "light", not the OS theme.
- **No slide on the left and top docks.** On those docks the shown offset (20) is
  nearer the screen edge than the hidden one (the content size). But `slide_in`
  moves only while the offset is below the shown offset, and `slide_out` only while it is above
  the hidden one. So from either resting position no step moves the panel.
  `slide_in` and `slide_out` each have a branch for all four sides
  (`Popout-Notepad.py:386-405`, `:409-428`), so the code means to slide on every
  edge. On the left and top docks those branches' guards never hold from a resting
  offset. `Dock.SlideStuckOnLeftAndTop` states this, and the methods keep the code's guards.
- **A rebuild drops unsaved typing.** A rebuild fills the new text widget from
  `content`, and the save that follows reads it back. So the menu commands that
  rebuild (`update_theme`, `update_size`, `update_side`, `update_font`) save the
  old `content`, not what was typed since the last save.
- **A drag keeps the panel on screen only if it fits.** The clamp pushes the
  panel to an edge. A panel longer than the screen ends at 0 when it is dragged
  before the start of the screen, and otherwise at the negative `screen - size`.
  Either way part of it is off screen.

## Model

| member | source | states |
|---|---|---|
| Settings.Load | Popout-Notepad.py:90-120 | The eight fields read from the settings object, each falling back to its default when its key is missing or holds another type; a missing or unreadable file gives all defaults |
| Settings.Save | Popout-Notepad.py:126-135 | The object `save_config` writes: the eight keys with the record's values, a missing position as `null`; its properties are `Settings.LoadAfterSave`, `Settings.SaveAfterLoad` and `Settings.SavedIsWellFormed` |
| Settings.LoadFallsBack | Popout-Notepad.py:90-120 | A missing or unreadable file gives all eight defaults (48, "right", "Arial", "light", no x, no y, "", 12); a key missing from the object gives that key's default |
| Settings.LoadReadsValues | Popout-Notepad.py:95-102 | A key holding a value of its type is read as that value; a `null` position is read as no position |
| Settings.LoadAfterSave | Popout-Notepad.py:122-137 | Loading the object `save_config` writes restores every one of the eight fields exactly |
| Settings.SaveAfterLoad | Popout-Notepad.py:95-102 | A well-formed settings object is written back unchanged after a load and a save |
| Settings.SavedIsWellFormed | Popout-Notepad.py:126-135 | `save_config` writes all eight keys, each with a value of its own type |
| Settings.KeyNamesDistinct | Popout-Notepad.py:126-135 | The eight JSON key names are pairwise distinct |
| Palette.ColorsFor | Popout-Notepad.py:77-87 | The light palette exactly when the theme is "light", the dark one for every other theme; text and handle never take the background colour |
| Dock.SideNamed | Popout-Notepad.py:147-172 | A stored side name selects right, left, top or bottom; any other name docks nowhere, and the name is kept as given |
| Dock.SideNameRoundTrip | Popout-Notepad.py:128 | The side written to the settings is read back as the same side |
| Dock.Offsets | Popout-Notepad.py:147-172 | On the right, hidden is 20 from the screen edge, shown is flush with it, and hidden − shown is the width (4·bs); on the bottom the same holds with the height. On the left and top, shown is 20 and hidden − shown is the size less 20 |
| Dock.Centered | Popout-Notepad.py:152 | For the vertical docks here and the horizontal docks at `:165`: the first position is half the free space truncated toward zero; a panel that fits starts wholly on screen |
| Dock.Clamp | Popout-Notepad.py:318-321 | A panel that fits ends wholly on screen; a position already on screen is kept; one before the start goes to 0; one past the end goes flush with the end |
| Dock.ClampMonotone | Popout-Notepad.py:314-322 | For a panel that fits, a larger pointer travel never gives a smaller position |
| Dock.Step | Popout-Notepad.py:384-428 | At or past the target nothing moves. Otherwise the offset moves toward the target by exactly min(10, distance), so it lands on the target only when that is at most 10 away, and never passes it; the distance left shrinks by the distance moved |
| Dock.StepStaysBetween | Popout-Notepad.py:384-428 | A step toward the shown or hidden offset keeps the offset between the two |
| Dock.SlideNeverOvershoots | Popout-Notepad.py:384-428 | From any start, any number of steps leaves the offset between its start and the target |
| Dock.SlideStaysAt | Popout-Notepad.py:384-428 | Steps taken on the target stay on it |
| Dock.SlidePastTargetStays | Popout-Notepad.py:384-428 | An offset at or past the target is never moved |
| Dock.Slide | Popout-Notepad.py:384-428 | The offset after `n` scheduled steps of the `root.after` chain; its properties are the `Dock.Slide…` lemmas |
| Dock.SlideReachesTarget | Popout-Notepad.py:384-428 | An offset short of the target reaches it exactly after ⌈distance/10⌉ steps, and not before |
| Dock.SlideRunEnds | Popout-Notepad.py:384-428 | After the ⌈distance/10⌉ steps the distance needs, an offset short of the target is on it and any other offset is where it started |
| Dock.SlideStuckOnLeftAndTop | Popout-Notepad.py:391-423 | On the left and top docks neither `slide_in` from the hidden offset nor `slide_out` from the shown offset moves |
| Dock.StripRect | Popout-Notepad.py:349-357 | The strip rectangle: 20 wide across the dock edge and the content's length along it, from the panel's position; against the screen edge on the right, left and bottom, and just below the content's height on the top (`:371-378`) |
| Dock.PanelRect | Popout-Notepad.py:341-345 | The full-panel rectangle: content plus strip across the edge, the content's length along it; ending at the screen edge on the right, starting there on the left, starting at the shown offset on the top and bottom (`:363-366`) |
| Dock.Hover | Popout-Notepad.py:338-381 | One poll's new flag: with content at least a strip long, the pointer in the strip sets it, outside the panel clears it, and in the panel outside the strip keeps it |
| Dock.Polls | Popout-Notepad.py:338-382 | The flag after a run of polls, one per `root.after(100, ...)`: unchanged with no polls; set if the last pointer position is in the strip, clear if it is outside the panel |
| Dock.StripWithinPanel | Popout-Notepad.py:338-381 | A pointer in the strip is inside the panel's rectangle |
| Dock.StaysExpandedInside | Popout-Notepad.py:338-382 | An expanded panel stays expanded over any run of polls with the pointer inside it |
| Dock.EnteringStripExpands | Popout-Notepad.py:338-382 | Entering the strip expands a collapsed panel, which then stays expanded while the pointer stays inside |
| Notepad.NotepadApp.SavedLoadsBack | Popout-Notepad.py:122-137 | After a save, loading the settings file gives back the panel's eight fields |
| Notepad.NotepadApp.constructor | Popout-Notepad.py:26-75 | Starts collapsed and at rest, with the loaded settings, the centred position where none was stored, the theme's palette and valid sized geometry |
| Notepad.NotepadApp.UpdateColors | Popout-Notepad.py:77-88 | The four colours become the current theme's palette |
| Notepad.NotepadApp.SaveConfig | Popout-Notepad.py:122-137 | Takes the text widget's contents when there is a widget; the file then holds the eight fields, and reading it back restores them |
| Notepad.NotepadApp.SetGeometryParameters | Popout-Notepad.py:139-172 | Handle bs//4, copy row bs//2, text 6·bs. On a dock side the panel is laid out for 4·bs by their sum, the offset is at rest for the hover flag, and a missing position is centred. Another side leaves offset and positions alone, and the sizes and offsets of the other axis are never changed |
| Notepad.NotepadApp.SetVerticalGeometry | Popout-Notepad.py:147-159 | Right/left: width 4·bs, height the stacked parts, window width plus the strip, offsets and a missing y centred; x untouched |
| Notepad.NotepadApp.SetHorizontalGeometry | Popout-Notepad.py:160-172 | Top/bottom: height the stacked parts, width 4·bs, window height plus the strip, offsets and a missing x centred; y untouched |
| Notepad.NotepadApp.StartMove | Popout-Notepad.py:306-312 | Records the pointer and the position along the dock edge, and only those; nothing on another side |
| Notepad.NotepadApp.DoMove | Popout-Notepad.py:314-332 | The new position along the edge is the clamped start position plus pointer travel. The panel stays on screen when it fits, the other axis does not move, the layout stays valid, and the settings file then holds the moved panel's settings |
| Notepad.NotepadApp.SlideIn | Popout-Notepad.py:384-405 | Exactly one `Dock.Step` toward the shown offset; another step is scheduled exactly when this one moved; the offset stays between shown and hidden |
| Notepad.NotepadApp.SlideOut | Popout-Notepad.py:407-428 | Exactly one `Dock.Step` toward the hidden offset; rescheduled exactly when it moved; the offset stays between shown and hidden |
| Notepad.NotepadApp.RunSlideIn | Popout-Notepad.py:384-405 | The chain of scheduled `slide_in` calls ends exactly on the shown offset when it started short of it, and otherwise does not move; either way where `Dock.Slide` puts it after the steps the distance needs |
| Notepad.NotepadApp.RunSlideOut | Popout-Notepad.py:407-428 | The chain of scheduled `slide_out` calls ends exactly on the hidden offset when it started short of it, and otherwise does not move; either way where `Dock.Slide` puts it after the steps the distance needs |
| Notepad.NotepadApp.CheckHover | Popout-Notepad.py:338-382 | A collapsed panel expands iff the pointer is in the strip; an expanded one collapses iff the pointer is outside the panel. A change takes the first slide step, no change moves nothing, and the layout stays valid |
| Notepad.NotepadApp.CheckHoverVertical | Popout-Notepad.py:340-360 | The right/left poll, against `Dock.Hover` with the panel's width, height and y position |
| Notepad.NotepadApp.CheckHoverHorizontal | Popout-Notepad.py:361-381 | The top/bottom poll, against `Dock.Hover` with the panel's width, height and x position |
| Notepad.NotepadApp.RebuildUi | Popout-Notepad.py:284-289 | The geometry is recomputed valid, sized and at rest, and the colours are the theme's palette |
| Notepad.NotepadApp.UpdateTheme | Popout-Notepad.py:430-435 | The new theme and its palette, a valid rebuilt layout, `content` unchanged, settings saved |
| Notepad.NotepadApp.UpdateSize | Popout-Notepad.py:437-441 | The new button size and a layout rebuilt for it, the colours the theme's palette, `content` unchanged, settings saved |
| Notepad.NotepadApp.UpdateSide | Popout-Notepad.py:443-447 | The new side and, on a dock side, exactly that side's offsets for the current button size; at rest; the colours the theme's palette; settings saved |
| Notepad.NotepadApp.UpdateFont | Popout-Notepad.py:449-453 | The new font, a valid rebuilt layout, the colours the theme's palette, `content` unchanged, settings saved |
| Notepad.NotepadApp.UpdateTextFontSize | Popout-Notepad.py:455-460 | The new text font size, the widget's text taken into `content`, settings saved; no rebuild |

## Left out

- Widgets and window placement are not modelled: `build_ui`, `update_geometry`,
  the strip label, the right-click menu and its Tk variables. The model keeps
  only the numbers those widgets are placed by.
- Timers and the event loop are not modelled. Each scheduled callback is one method call.
  `RunSlideIn` and `RunSlideOut` run a slide chain to its end, with nothing else
  running. The code can interleave them. A 100 ms hover poll can start a
  `slide_out` chain while a `slide_in` chain is still stepping every 10 ms. The
  two chains then move the offset in opposite directions. The offset stays
  strictly between the shown and hidden offsets, so neither guard fails and
  neither chain ends. "Ends exactly on the shown offset" holds only for a chain
  that runs alone.
- `is_light_theme` and its registry query are not modelled, because the code never reaches them. `pyautogui.position()` and the screen size
  become parameters.
- Opening, parsing and writing the JSON file are not modelled. The file arrives as
  `Settings.SettingsFile`, with a missing file, an unreadable one and an object as
  its cases. A failed write is not modelled.
- Settings.Value: holds only integers, strings and `null`. A settings object
  whose keys hold a float, a boolean, an array or a nested object cannot be
  written in the model. So the reading of such values by `load_config` (kept as
  they are, with the consequences described for `Settings.Load`) is not modelled.
- Settings.Load: a key holding a value of the wrong JSON type gets its default
  in the model. The code stores the value as it is, and what follows depends on the key:
  - A non-string `theme` (say `1`) is not "light", so `update_colors` picks the dark
    palette (`Popout-Notepad.py:78`). The model loads "light" and the light palette.
  - A non-string `side` is in neither list at `:147` and `:160`, so the panel docks
    nowhere. The model docks it on the right.
  - A string or `null` `button_size` makes `bs // 4` raise at `:142`.
  - A non-integer position along the dock edge is kept, because it is not
    `None`, and the code raises at start-up. A value Tk cannot read as an
    integer is rejected when the geometry is set at `:176` or `:188`. A numeric
    string such as "100" passes there. The first hover poll (`:72`) then raises
    a TypeError at `self.y_pos + self.full_height` (`:357`) or
    `self.x_pos + self.full_width` (`:378`).
  - A wrong-typed font, text font size or content goes on to Tk unchanged.
- Settings.Save: keys of the JSON object other than the eight are not kept. The
  code drops them too, since it writes a fresh object.
- Notepad.NotepadApp.UpdateTheme: states `content == old(content)`. Tk's text widget
  returns its text with a trailing newline, so each rebuild-and-save adds one. Tk's
  text handling is not modelled.
- Notepad.NotepadApp.UpdateSize: as for UpdateTheme, the trailing newline Tk adds is not modelled.
- Notepad.NotepadApp.UpdateSide: as for UpdateTheme, the trailing newline Tk adds is not modelled.
- Notepad.NotepadApp.UpdateFont: as for UpdateTheme, the trailing newline Tk adds is not modelled.
- Notepad.NotepadApp.UpdateTheme: the code calls `update_colors` before `rebuild_ui`,
  which calls it again. The model calls it once, with the same result.
- Notepad.NotepadApp.UpdateSide: accepts any name. The menu offers only the four
  dock sides (`Popout-Notepad.py:492`); a name outside them comes only from the
  settings file. The right-click menu (`:71`) still opens on such a panel, and
  no text widget is built until the side is switched to a dock side. Choosing one
  calls `update_side`, and the rebuild creates the widget (`:237`, `:272`). Were the code to switch
  from a dock side to another name, `save_config` would call `get` on the
  destroyed text widget and raise. The model instead saves the old `content`, and
  `Saved()` holds. The model is broader than the menu here.
- Notepad.NotepadApp.RebuildUi: does not repeat that the sizes and offsets of the
  axis the panel does not slide along are unchanged. `SetGeometryParameters` states
  this, and `UpdateColors` touches no geometry. Carrying the fact on through the
  constructor and the four rebuild commands makes each of their proofs too costly.
- Notepad.NotepadApp.constructor: the first hover poll at the end of `__init__`
  is not part of it. A call to `CheckHover` follows construction instead.
- The drag fields hold no particular value until the first `StartMove`. In the code they do not exist until then, and a drag needs a press first.
- Copy and paste (`copy_text`, `paste_text`) are not modelled, because they only involve the clipboard.
- `on_exit` is not modelled. It is `SaveConfig` followed by closing the window.
- Colours are RGB triples, not "#rrggbb" strings; each palette entry keeps the code's value.
- The dock side is a datatype. A stored name outside the four is kept as
  `Unknown(name)` and written back unchanged.
- Integers are unbounded; Python's are too.
