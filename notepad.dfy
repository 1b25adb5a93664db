/**
  The notepad panel itself (`NotepadApp`): the persisted settings, the colours,
  the dock geometry, the slide offset, the hover flag and the drag state, as the
  fields its methods update in place.

  Toolkit calls (building and placing widgets, timers, the pointer query, the
  clipboard) are not modelled: screen size, pointer positions and the text
  widget's contents arrive as parameters, and each timer callback is one call.
 */
module Notepad {
  import opened Wrappers
  import Settings
  import Palette
  import Dock

  class NotepadApp {
    // The persisted settings.
    var buttonSize: int
    var side: Dock.Side
    var currentFont: string
    var theme: string
    var xPos: Option<int>
    var yPos: Option<int>
    var content: string
    var textFontSize: int

    // The palette chosen by the theme.
    var bgColor: Palette.Color
    var btnColor: Palette.Color
    var fgColor: Palette.Color
    var handleColor: Palette.Color

    const hiddenSize: int := Dock.HiddenSize
    const screenWidth: int
    const screenHeight: int

    var isExpanded: bool

    // Geometry; the first group serves the left and right docks, the second the top and bottom ones.
    var handleHeight: int
    var copyHeight: int
    var textHeight: int
    var slidingWidth: int
    var totalWidth: int
    var fullHeight: int
    var xVisible: int
    var xHidden: int
    var slidingHeight: int
    var totalHeight: int
    var fullWidth: int
    var yVisible: int
    var yHidden: int
    var currentOffset: int

    // Where the current drag started.
    var dragStartX: int
    var dragStartY: int
    var initialX: int
    var initialY: int

    /** The settings file as last written (or as found at start-up). */
    var settingsFile: Settings.SettingsFile

    /** The panel on the current dock side is laid out for its content: the window
        spans the content and the strip, the offsets are the ones `Dock.Offsets`
        gives, the slide offset lies between them, and the panel has a position
        along its edge. */
    ghost predicate Valid()
      reads this
    {
      && (Dock.IsVertical(side) ==>
            && yPos.Some?
            && Dock.LaidOut(side, slidingWidth, fullHeight, totalWidth, xVisible, xHidden, currentOffset,
                            screenWidth, screenHeight))
      && (Dock.IsHorizontal(side) ==>
            && xPos.Some?
            && Dock.LaidOut(side, fullWidth, slidingHeight, totalHeight, yVisible, yHidden, currentOffset,
                            screenWidth, screenHeight))
    }

    /** The panel's dimensions follow from the button size: a handle of a quarter,
        a copy row of a half and a text area of six button sizes, stacked; four
        buttons wide. */
    ghost predicate Sized()
      reads this
    {
      && handleHeight == buttonSize / 4
      && copyHeight == buttonSize / 2
      && textHeight == 6 * buttonSize
      && (Dock.IsVertical(side) ==> Dock.SizedFor(buttonSize, slidingWidth, fullHeight))
      && (Dock.IsHorizontal(side) ==> Dock.SizedFor(buttonSize, fullWidth, slidingHeight))
    }

    /** The width of the panel's content on the current dock side. */
    function Width(): int
      reads this
    {
      if Dock.IsVertical(side) then slidingWidth else fullWidth
    }

    /** The height of the panel's content on the current dock side. */
    function Height(): int
      reads this
    {
      if Dock.IsVertical(side) then fullHeight else slidingHeight
    }

    /** The eight persisted fields as a record. */
    function Config(): Settings.Config
      reads this
    {
      Settings.Config(buttonSize, Dock.Name(side), currentFont, theme, xPos, yPos, content, textFontSize)
    }

    /** The settings file holds what `save_config` writes for the current settings. */
    ghost predicate Saved()
      reads this
    {
      settingsFile == Settings.Object(Settings.Save(Config()))
    }

    /** A saved panel is restored by loading its settings file: every persisted
        field comes back exactly. */
    lemma SavedLoadsBack()
      requires Saved()
      ensures Settings.Load(settingsFile) == Config()
    {
      Settings.LoadAfterSave(Config());
    }

    function Colors(): Palette.Colors
      reads this
    {
      Palette.Colors(bgColor, btnColor, fgColor, handleColor)
    }

    /** The offset at which the panel is shown. */
    function Visible(): int
      reads this
    {
      if Dock.IsVertical(side) then xVisible else yVisible
    }

    /** The offset at which only the strip is on screen. */
    function Hidden(): int
      reads this
    {
      if Dock.IsVertical(side) then xHidden else yHidden
    }

    /** The panel's position along its dock edge. */
    function Along(): int
      reads this
      requires Valid() && Dock.IsDockSide(side)
    {
      if Dock.IsVertical(side) then yPos.value else xPos.value
    }

    /** Not moving: the offset is the resting position for the hover flag. */
    ghost predicate AtRest()
      reads this
    {
      && (Dock.IsVertical(side) ==> currentOffset == if isExpanded then xVisible else xHidden)
      && (Dock.IsHorizontal(side) ==> currentOffset == if isExpanded then yVisible else yHidden)
    }

    /** The position after `set_geometry_parameters`, given the one before: a missing
        position along the dock edge is centred, everything else is kept. */
    ghost predicate PlacedFrom(oldX: Option<int>, oldY: Option<int>)
      reads this
    {
      && (Dock.IsVertical(side) ==>
            && xPos == oldX
            && yPos == (if oldY.Some? then oldY else Some(Dock.Centered(screenHeight, fullHeight))))
      && (Dock.IsHorizontal(side) ==>
            && yPos == oldY
            && xPos == (if oldX.Some? then oldX else Some(Dock.Centered(screenWidth, fullWidth))))
      && (!Dock.IsDockSide(side) ==> xPos == oldX && yPos == oldY)
    }

    /** `__init__`: load the settings (`load_config`, whose record is `Settings.Load`),
        then compute the geometry of a collapsed panel and pick the colours, as
        `rebuild_ui` does. The theme
        always comes from the settings (or is "light"): the query of the system
        theme is never reached. */
    constructor (screenWidth: int, screenHeight: int, file: Settings.SettingsFile)
      ensures this.screenWidth == screenWidth && this.screenHeight == screenHeight
      ensures Valid() && Sized() && AtRest() && !isExpanded
      ensures var c := Settings.Load(file);
              && buttonSize == c.buttonSize && side == Dock.SideNamed(c.side) && currentFont == c.currentFont
              && theme == c.theme && content == c.content && textFontSize == c.textFontSize
              && PlacedFrom(c.xPos, c.yPos)
      ensures Colors() == Palette.ColorsFor(theme)
      ensures settingsFile == file
    {
      this.screenWidth := screenWidth;
      this.screenHeight := screenHeight;
      settingsFile := file;
      var c := Settings.Load(file);
      buttonSize, side, currentFont, theme := c.buttonSize, Dock.SideNamed(c.side), c.currentFont, c.theme;
      xPos, yPos, content, textFontSize := c.xPos, c.yPos, c.content, c.textFontSize;
      isExpanded := false;
      new;
      RebuildUi();
    }

    /** `update_colors`: the palette of the current theme. */
    method UpdateColors()
      modifies this`bgColor, this`btnColor, this`fgColor, this`handleColor
      ensures Colors() == Palette.ColorsFor(theme)
    {
      var c := Palette.ColorsFor(theme);
      bgColor, btnColor, fgColor, handleColor := c.bg, c.btn, c.fg, c.handle;
    }

    /** `save_config`: take the text widget's contents when there is a widget, then
        write the eight fields. Reading the file back restores every field. */
    method SaveConfig(widgetText: Option<string>)
      modifies this`content, this`settingsFile
      ensures content == if widgetText.Some? then widgetText.value else old(content)
      ensures Saved()
    {
      if widgetText.Some? {
        content := widgetText.value;
      }
      settingsFile := Settings.Object(Settings.Save(Config()));
    }

    /** `set_geometry_parameters`: the panel's dimensions and offsets for the current
        button size and dock side, a centred position if it has none, and the offset
        put at rest for the hover flag. The other axis's sizes and offsets are left alone. */
    method SetGeometryParameters()
      modifies this`handleHeight, this`copyHeight, this`textHeight,
               this`slidingWidth, this`totalWidth, this`fullHeight, this`xVisible, this`xHidden,
               this`slidingHeight, this`totalHeight, this`fullWidth, this`yVisible, this`yHidden,
               this`xPos, this`yPos, this`currentOffset
      ensures Valid() && Sized() && AtRest()
      ensures PlacedFrom(old(xPos), old(yPos))
      ensures !Dock.IsDockSide(side) ==> currentOffset == old(currentOffset)
      ensures !Dock.IsVertical(side) ==>
                && slidingWidth == old(slidingWidth) && totalWidth == old(totalWidth) && fullHeight == old(fullHeight)
                && xVisible == old(xVisible) && xHidden == old(xHidden)
      ensures !Dock.IsHorizontal(side) ==>
                && slidingHeight == old(slidingHeight) && totalHeight == old(totalHeight) && fullWidth == old(fullWidth)
                && yVisible == old(yVisible) && yHidden == old(yHidden)
    {
      var bs := buttonSize;
      handleHeight := bs / 4;
      copyHeight := bs / 2;
      textHeight := 6 * bs;
      if side.Right? || side.Left? {
        SetVerticalGeometry();
      } else if side.Top? || side.Bottom? {
        SetHorizontalGeometry();
      }
    }

    /** The right/left branch of `set_geometry_parameters`. */
    method SetVerticalGeometry()
      requires Dock.IsVertical(side)
      modifies this`slidingWidth, this`totalWidth, this`fullHeight, this`xVisible, this`xHidden,
               this`yPos, this`currentOffset
      ensures slidingWidth == 4 * buttonSize && fullHeight == handleHeight + copyHeight + textHeight
      ensures Valid() && AtRest()
      ensures PlacedFrom(old(xPos), old(yPos))
    {
      slidingWidth := 4 * buttonSize;
      totalWidth := slidingWidth + hiddenSize;
      fullHeight := handleHeight + copyHeight + textHeight;
      if yPos.None? {
        yPos := Some(Dock.Centered(screenHeight, fullHeight));
      }
      if side.Right? {
        xVisible := screenWidth - totalWidth;
        xHidden := screenWidth - hiddenSize;
      } else {
        xVisible := hiddenSize;
        xHidden := slidingWidth;
      }
      currentOffset := if isExpanded then xVisible else xHidden;
    }

    /** The top/bottom branch of `set_geometry_parameters`. */
    method SetHorizontalGeometry()
      requires Dock.IsHorizontal(side)
      modifies this`slidingHeight, this`totalHeight, this`fullWidth, this`yVisible, this`yHidden,
               this`xPos, this`currentOffset
      ensures slidingHeight == handleHeight + copyHeight + textHeight && fullWidth == 4 * buttonSize
      ensures Valid() && AtRest()
      ensures PlacedFrom(old(xPos), old(yPos))
    {
      slidingHeight := handleHeight + copyHeight + textHeight;
      totalHeight := slidingHeight + hiddenSize;
      fullWidth := 4 * buttonSize;
      if xPos.None? {
        xPos := Some(Dock.Centered(screenWidth, fullWidth));
      }
      if side.Top? {
        yVisible := hiddenSize;
        yHidden := slidingHeight;
      } else {
        yVisible := screenHeight - totalHeight;
        yHidden := screenHeight - hiddenSize;
      }
      currentOffset := if isExpanded then yVisible else yHidden;
    }

    /** `start_move`: remember where the drag started along the dock edge. */
    method StartMove(pointerX: int, pointerY: int)
      requires Valid()
      modifies this`dragStartX, this`dragStartY, this`initialX, this`initialY
      ensures Dock.IsVertical(side) ==>
                && dragStartY == pointerY && initialY == yPos.value
                && dragStartX == old(dragStartX) && initialX == old(initialX)
      ensures Dock.IsHorizontal(side) ==>
                && dragStartX == pointerX && initialX == xPos.value
                && dragStartY == old(dragStartY) && initialY == old(initialY)
      ensures !Dock.IsDockSide(side) ==>
                && dragStartX == old(dragStartX) && initialX == old(initialX)
                && dragStartY == old(dragStartY) && initialY == old(initialY)
    {
      if side.Right? || side.Left? {
        dragStartY := pointerY;
        initialY := yPos.value;
      } else if side.Top? || side.Bottom? {
        dragStartX := pointerX;
        initialX := xPos.value;
      }
    }

    /** `do_move`: move the panel along its dock edge by the pointer's travel since
        the drag started, clamped to the screen, then save the settings. A panel
        that fits the screen stays wholly on it; the other axis does not move. */
    method DoMove(pointerX: int, pointerY: int, widgetText: Option<string>)
      requires Valid()
      modifies this`xPos, this`yPos, this`content, this`settingsFile
      ensures Valid()
      ensures Dock.IsVertical(side) ==>
                && yPos == Some(Dock.Clamp(initialY + (pointerY - dragStartY), fullHeight, screenHeight))
                && xPos == old(xPos)
      ensures Dock.IsVertical(side) && fullHeight <= screenHeight ==>
                0 <= yPos.value && yPos.value + fullHeight <= screenHeight
      ensures Dock.IsHorizontal(side) ==>
                && xPos == Some(Dock.Clamp(initialX + (pointerX - dragStartX), fullWidth, screenWidth))
                && yPos == old(yPos)
      ensures Dock.IsHorizontal(side) && fullWidth <= screenWidth ==>
                0 <= xPos.value && xPos.value + fullWidth <= screenWidth
      ensures !Dock.IsDockSide(side) ==> xPos == old(xPos) && yPos == old(yPos)
      ensures content == if widgetText.Some? then widgetText.value else old(content)
      ensures Saved()
    {
      if side.Right? || side.Left? {
        var delta := pointerY - dragStartY;
        var newY := initialY + delta;
        if newY < 0 {
          newY := 0;
        } else if newY + fullHeight > screenHeight {
          newY := screenHeight - fullHeight;
        }
        yPos := Some(newY);
      } else if side.Top? || side.Bottom? {
        var delta := pointerX - dragStartX;
        var newX := initialX + delta;
        if newX < 0 {
          newX := 0;
        } else if newX + fullWidth > screenWidth {
          newX := screenWidth - fullWidth;
        }
        xPos := Some(newX);
      }
      SaveConfig(widgetText);
    }

    /** `slide_in`: one step toward the shown offset. `rescheduled` says whether the
        step moved, and so whether another step is scheduled. */
    method SlideIn() returns (rescheduled: bool)
      requires Valid()
      modifies this`currentOffset
      ensures Valid()
      ensures Dock.IsDockSide(side) ==>
                && currentOffset == Dock.Step(Dock.InDirection(side), old(currentOffset), Visible())
                && rescheduled == Dock.Approaching(Dock.InDirection(side), old(currentOffset), Visible())
      ensures !Dock.IsDockSide(side) ==> currentOffset == old(currentOffset) && !rescheduled
    {
      var step := Dock.StepSize;
      rescheduled := false;
      if side.Right? {
        if currentOffset > xVisible {
          currentOffset := Dock.Max(currentOffset - step, xVisible);
          rescheduled := true;
        }
      } else if side.Left? {
        if currentOffset < xVisible {
          currentOffset := Dock.Min(currentOffset + step, xVisible);
          rescheduled := true;
        }
      } else if side.Top? {
        if currentOffset < yVisible {
          currentOffset := Dock.Min(currentOffset + step, yVisible);
          rescheduled := true;
        }
      } else if side.Bottom? {
        if currentOffset > yVisible {
          currentOffset := Dock.Max(currentOffset - step, yVisible);
          rescheduled := true;
        }
      }
    }

    /** `slide_out`: one step toward the hidden offset. */
    method SlideOut() returns (rescheduled: bool)
      requires Valid()
      modifies this`currentOffset
      ensures Valid()
      ensures Dock.IsDockSide(side) ==>
                && currentOffset == Dock.Step(Dock.OutDirection(side), old(currentOffset), Hidden())
                && rescheduled == Dock.Approaching(Dock.OutDirection(side), old(currentOffset), Hidden())
      ensures !Dock.IsDockSide(side) ==> currentOffset == old(currentOffset) && !rescheduled
    {
      var step := Dock.StepSize;
      rescheduled := false;
      if side.Right? {
        if currentOffset < xHidden {
          currentOffset := Dock.Min(currentOffset + step, xHidden);
          rescheduled := true;
        }
      } else if side.Left? {
        if currentOffset > xHidden {
          currentOffset := Dock.Max(currentOffset - step, xHidden);
          rescheduled := true;
        }
      } else if side.Top? {
        if currentOffset > yHidden {
          currentOffset := Dock.Max(currentOffset - step, yHidden);
          rescheduled := true;
        }
      } else if side.Bottom? {
        if currentOffset < yHidden {
          currentOffset := Dock.Min(currentOffset + step, yHidden);
          rescheduled := true;
        }
      }
    }

    /** The chain of `slide_in` calls that each step schedules, run to its end: an
        offset short of the shown position ends exactly on it, any other stays put.
        Either way it ends where `Dock.Slide` puts it after the steps the distance needs. */
    method RunSlideIn()
      requires Valid()
      modifies this`currentOffset
      ensures Valid()
      ensures Dock.IsDockSide(side) && Dock.Approaching(Dock.InDirection(side), old(currentOffset), Visible()) ==>
                currentOffset == Visible()
      ensures !(Dock.IsDockSide(side) && Dock.Approaching(Dock.InDirection(side), old(currentOffset), Visible())) ==>
                currentOffset == old(currentOffset)
      ensures Dock.IsDockSide(side) ==>
                currentOffset == Dock.Slide(Dock.StepsNeeded(old(currentOffset), Visible()), Dock.InDirection(side),
                                            old(currentOffset), Visible())
    {
      var more := SlideIn();
      while more
        invariant Valid()
        invariant more ==> Dock.IsDockSide(side)
        invariant more ==> Dock.Approaching(Dock.InDirection(side), old(currentOffset), Visible())
        invariant more ==> Dock.Approaching(Dock.InDirection(side), currentOffset, Visible()) || currentOffset == Visible()
        invariant !more && Dock.IsDockSide(side) && Dock.Approaching(Dock.InDirection(side), old(currentOffset), Visible()) ==>
                    currentOffset == Visible()
        invariant !more && !(Dock.IsDockSide(side) && Dock.Approaching(Dock.InDirection(side), old(currentOffset), Visible())) ==>
                    currentOffset == old(currentOffset)
        decreases Dock.Distance(currentOffset, Visible()) + (if more then 1 else 0)
      {
        more := SlideIn();
      }
      if Dock.IsDockSide(side) {
        ghost var start := old(currentOffset);
        Dock.SlideRunEnds(Dock.InDirection(side), start, Visible());
      }
    }

    /** The chain of `slide_out` calls run to its end: an offset short of the hidden
        position ends exactly on it, any other stays put, as `Dock.Slide` gives. */
    method RunSlideOut()
      requires Valid()
      modifies this`currentOffset
      ensures Valid()
      ensures Dock.IsDockSide(side) && Dock.Approaching(Dock.OutDirection(side), old(currentOffset), Hidden()) ==>
                currentOffset == Hidden()
      ensures !(Dock.IsDockSide(side) && Dock.Approaching(Dock.OutDirection(side), old(currentOffset), Hidden())) ==>
                currentOffset == old(currentOffset)
      ensures Dock.IsDockSide(side) ==>
                currentOffset == Dock.Slide(Dock.StepsNeeded(old(currentOffset), Hidden()), Dock.OutDirection(side),
                                            old(currentOffset), Hidden())
    {
      var more := SlideOut();
      while more
        invariant Valid()
        invariant more ==> Dock.IsDockSide(side)
        invariant more ==> Dock.Approaching(Dock.OutDirection(side), old(currentOffset), Hidden())
        invariant more ==> Dock.Approaching(Dock.OutDirection(side), currentOffset, Hidden()) || currentOffset == Hidden()
        invariant !more && Dock.IsDockSide(side) && Dock.Approaching(Dock.OutDirection(side), old(currentOffset), Hidden()) ==>
                    currentOffset == Hidden()
        invariant !more && !(Dock.IsDockSide(side) && Dock.Approaching(Dock.OutDirection(side), old(currentOffset), Hidden())) ==>
                    currentOffset == old(currentOffset)
        decreases Dock.Distance(currentOffset, Hidden()) + (if more then 1 else 0)
      {
        more := SlideOut();
      }
      if Dock.IsDockSide(side) {
        ghost var start := old(currentOffset);
        Dock.SlideRunEnds(Dock.OutDirection(side), start, Hidden());
      }
    }

    /** `check_hover`, one poll with the pointer at (`mouseX`, `mouseY`): a collapsed
        panel expands exactly when the pointer is in the strip, an expanded one
        collapses exactly when the pointer is outside the panel, and a change starts
        the slide with its first step. `rescheduled` says whether that step moved. */
    method CheckHover(mouseX: int, mouseY: int) returns (rescheduled: bool)
      requires Valid()
      modifies this`isExpanded, this`currentOffset
      ensures Valid()
      ensures Dock.IsDockSide(side) ==>
                isExpanded == Dock.Hover(old(isExpanded), side, Width(), Height(), screenWidth, screenHeight,
                                         Along(), mouseX, mouseY)
      ensures !Dock.IsDockSide(side) ==> isExpanded == old(isExpanded)
      ensures isExpanded && !old(isExpanded) ==>
                currentOffset == Dock.Step(Dock.InDirection(side), old(currentOffset), Visible())
      ensures !isExpanded && old(isExpanded) ==>
                currentOffset == Dock.Step(Dock.OutDirection(side), old(currentOffset), Hidden())
      ensures isExpanded == old(isExpanded) ==> currentOffset == old(currentOffset)
      ensures rescheduled <==> currentOffset != old(currentOffset)
    {
      rescheduled := false;
      if side.Right? || side.Left? {
        rescheduled := CheckHoverVertical(mouseX, mouseY);
      } else if side.Top? || side.Bottom? {
        rescheduled := CheckHoverHorizontal(mouseX, mouseY);
      }
    }

    /** The right/left branch of `check_hover`. */
    method CheckHoverVertical(mouseX: int, mouseY: int) returns (rescheduled: bool)
      requires Valid() && Dock.IsVertical(side)
      modifies this`isExpanded, this`currentOffset
      ensures Valid()
      ensures isExpanded == Dock.Hover(old(isExpanded), side, slidingWidth, fullHeight, screenWidth, screenHeight,
                                       yPos.value, mouseX, mouseY)
      ensures isExpanded && !old(isExpanded) ==>
                currentOffset == Dock.Step(Dock.InDirection(side), old(currentOffset), xVisible)
      ensures !isExpanded && old(isExpanded) ==>
                currentOffset == Dock.Step(Dock.OutDirection(side), old(currentOffset), xHidden)
      ensures isExpanded == old(isExpanded) ==> currentOffset == old(currentOffset)
      ensures rescheduled <==> currentOffset != old(currentOffset)
    {
      rescheduled := false;
      if isExpanded {
        var fullLeft := if side.Right? then xVisible else 0;
        var fullRight := if side.Right? then screenWidth else totalWidth;
        var fullTop := yPos.value;
        var fullBottom := yPos.value + fullHeight;
        if !(fullLeft <= mouseX <= fullRight && fullTop <= mouseY <= fullBottom) {
          rescheduled := SlideOut();
          isExpanded := false;
        }
      } else {
        var barLeft, barRight;
        if side.Right? {
          barLeft := screenWidth - hiddenSize;
          barRight := screenWidth;
        } else {
          barLeft := 0;
          barRight := hiddenSize;
        }
        var barTop := yPos.value;
        var barBottom := yPos.value + fullHeight;
        if barLeft <= mouseX <= barRight && barTop <= mouseY <= barBottom {
          rescheduled := SlideIn();
          isExpanded := true;
        }
      }
    }

    /** The top/bottom branch of `check_hover`. */
    method CheckHoverHorizontal(mouseX: int, mouseY: int) returns (rescheduled: bool)
      requires Valid() && Dock.IsHorizontal(side)
      modifies this`isExpanded, this`currentOffset
      ensures Valid()
      ensures isExpanded == Dock.Hover(old(isExpanded), side, fullWidth, slidingHeight, screenWidth, screenHeight,
                                       xPos.value, mouseX, mouseY)
      ensures isExpanded && !old(isExpanded) ==>
                currentOffset == Dock.Step(Dock.InDirection(side), old(currentOffset), yVisible)
      ensures !isExpanded && old(isExpanded) ==>
                currentOffset == Dock.Step(Dock.OutDirection(side), old(currentOffset), yHidden)
      ensures isExpanded == old(isExpanded) ==> currentOffset == old(currentOffset)
      ensures rescheduled <==> currentOffset != old(currentOffset)
    {
      rescheduled := false;
      if isExpanded {
        var fullLeft := xPos.value;
        var fullRight := xPos.value + fullWidth;
        var fullTop := yVisible;
        var fullBottom := yVisible + totalHeight;
        if !(fullLeft <= mouseX <= fullRight && fullTop <= mouseY <= fullBottom) {
          rescheduled := SlideOut();
          isExpanded := false;
        }
      } else {
        var barTop, barBottom;
        if side.Top? {
          barTop := slidingHeight;
          barBottom := slidingHeight + hiddenSize;
        } else {
          barTop := screenHeight - hiddenSize;
          barBottom := screenHeight;
        }
        var barLeft := xPos.value;
        var barRight := xPos.value + fullWidth;
        if barLeft <= mouseX <= barRight && barTop <= mouseY <= barBottom {
          rescheduled := SlideIn();
          isExpanded := true;
        }
      }
    }

    /** `rebuild_ui`: recompute the geometry, then the colours. The widgets it
        rebuilds are not modelled; the new text widget is filled from `content`. */
    method RebuildUi()
      modifies this`handleHeight, this`copyHeight, this`textHeight,
               this`slidingWidth, this`totalWidth, this`fullHeight, this`xVisible, this`xHidden,
               this`slidingHeight, this`totalHeight, this`fullWidth, this`yVisible, this`yHidden,
               this`xPos, this`yPos, this`currentOffset,
               this`bgColor, this`btnColor, this`fgColor, this`handleColor
      ensures Valid() && Sized() && AtRest()
      ensures PlacedFrom(old(xPos), old(yPos))
      ensures Colors() == Palette.ColorsFor(theme)
    {
      SetGeometryParameters();
      UpdateColors();
    }

    /** `update_theme`: the new palette, a rebuild, and a save. The rebuilt text
        widget holds `content`, so that is the text saved. The source also calls
        `update_colors` before the rebuild; the rebuild repeats it, so one call is kept. */
    method UpdateTheme(newTheme: string)
      modifies this`theme,
               this`handleHeight, this`copyHeight, this`textHeight,
               this`slidingWidth, this`totalWidth, this`fullHeight, this`xVisible, this`xHidden,
               this`slidingHeight, this`totalHeight, this`fullWidth, this`yVisible, this`yHidden,
               this`xPos, this`yPos, this`currentOffset,
               this`bgColor, this`btnColor, this`fgColor, this`handleColor, this`content, this`settingsFile
      ensures Valid() && Sized() && AtRest()
      ensures PlacedFrom(old(xPos), old(yPos))
      ensures theme == newTheme && Colors() == Palette.ColorsFor(newTheme)
      ensures content == old(content)
      ensures Saved()
    {
      theme := newTheme;
      RebuildUi();
      SaveConfig(if Dock.IsDockSide(side) then Some(content) else None);
    }

    /** `update_size`: a new button size rescales the whole panel. */
    method UpdateSize(newSize: int)
      modifies this`buttonSize,
               this`handleHeight, this`copyHeight, this`textHeight,
               this`slidingWidth, this`totalWidth, this`fullHeight, this`xVisible, this`xHidden,
               this`slidingHeight, this`totalHeight, this`fullWidth, this`yVisible, this`yHidden,
               this`xPos, this`yPos, this`currentOffset,
               this`bgColor, this`btnColor, this`fgColor, this`handleColor, this`content, this`settingsFile
      ensures Valid() && Sized() && AtRest()
      ensures PlacedFrom(old(xPos), old(yPos))
      ensures buttonSize == newSize
      ensures Colors() == Palette.ColorsFor(theme)
      ensures content == old(content)
      ensures Saved()
    {
      buttonSize := newSize;
      RebuildUi();
      SaveConfig(if Dock.IsDockSide(side) then Some(content) else None);
    }

    /** `update_side`: docking to another edge recomputes the offsets for that edge
        and puts the panel at rest there. */
    method UpdateSide(newSide: string)
      modifies this`side,
               this`handleHeight, this`copyHeight, this`textHeight,
               this`slidingWidth, this`totalWidth, this`fullHeight, this`xVisible, this`xHidden,
               this`slidingHeight, this`totalHeight, this`fullWidth, this`yVisible, this`yHidden,
               this`xPos, this`yPos, this`currentOffset,
               this`bgColor, this`btnColor, this`fgColor, this`handleColor, this`content, this`settingsFile
      ensures Valid() && Sized() && AtRest()
      ensures PlacedFrom(old(xPos), old(yPos))
      ensures side == Dock.SideNamed(newSide)
      ensures Colors() == Palette.ColorsFor(theme)
      ensures Dock.IsDockSide(side) ==>
                Dock.Span(Visible(), Hidden()) ==
                Dock.Offsets(side, Dock.ContentWidth(buttonSize), Dock.ContentHeight(buttonSize), screenWidth, screenHeight)
      ensures content == old(content)
      ensures Saved()
    {
      side := Dock.SideNamed(newSide);
      RebuildUi();
      SaveConfig(if Dock.IsDockSide(side) then Some(content) else None);
    }

    /** `update_font`. */
    method UpdateFont(newFont: string)
      modifies this`currentFont,
               this`handleHeight, this`copyHeight, this`textHeight,
               this`slidingWidth, this`totalWidth, this`fullHeight, this`xVisible, this`xHidden,
               this`slidingHeight, this`totalHeight, this`fullWidth, this`yVisible, this`yHidden,
               this`xPos, this`yPos, this`currentOffset,
               this`bgColor, this`btnColor, this`fgColor, this`handleColor, this`content, this`settingsFile
      ensures Valid() && Sized() && AtRest()
      ensures PlacedFrom(old(xPos), old(yPos))
      ensures currentFont == newFont
      ensures Colors() == Palette.ColorsFor(theme)
      ensures content == old(content)
      ensures Saved()
    {
      currentFont := newFont;
      RebuildUi();
      SaveConfig(if Dock.IsDockSide(side) then Some(content) else None);
    }

    /** `update_text_font_size`: no rebuild, so the text typed into the widget is kept and saved. */
    method UpdateTextFontSize(newSize: int, widgetText: Option<string>)
      modifies this`textFontSize, this`content, this`settingsFile
      ensures textFontSize == newSize
      ensures content == if widgetText.Some? then widgetText.value else old(content)
      ensures Saved()
    {
      textFontSize := newSize;
      SaveConfig(widgetText);
    }
  }
}
