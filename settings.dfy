/**
  The persisted settings record of the notepad (`load_config` and `save_config`).

  The settings file is a JSON object; here it is the map from keys to JSON
  values that `json.load` would produce. Reading the file, parsing it and
  writing it back are not modelled: the file arrives as a `SettingsFile`.
 */
module Settings {
  import opened Wrappers

  /** The JSON values the eight keys can hold. */
  datatype Value = Int(n: int) | Str(s: string) | Null

  /** The eight keys `load_config` reads and `save_config` writes. */
  datatype Key = ButtonSizeKey | SideKey | FontKey | ThemeKey | XPosKey | YPosKey | ContentKey | TextFontSizeKey

  /** The name of each key in the JSON object. */
  function KeyName(k: Key): string {
    match k
    case ButtonSizeKey => "button_size"
    case SideKey => "side"
    case FontKey => "current_font"
    case ThemeKey => "theme"
    case XPosKey => "x_pos"
    case YPosKey => "y_pos"
    case ContentKey => "content"
    case TextFontSizeKey => "text_font_size"
  }

  /** The settings object, keyed by the eight keys. Other keys of the JSON object
      are never read, and `save_config` does not write them back. */
  type Store = map<Key, Value>

  /** What reading the settings file yields: no file at all, a file that cannot
      be read or does not hold a JSON object, or the object it holds. */
  datatype SettingsFile = Absent | Corrupt | Object(entries: Store)

  /** The eight persisted fields of the panel. */
  datatype Config = Config(
    buttonSize: int,
    side: string,
    currentFont: string,
    theme: string,
    xPos: Option<int>,
    yPos: Option<int>,
    content: string,
    textFontSize: int)

  /** The keys `save_config` writes: all eight. */
  const Keys: set<Key> :=
    {ButtonSizeKey, SideKey, FontKey, ThemeKey, XPosKey, YPosKey, ContentKey, TextFontSizeKey}

  /** Distinct keys have distinct names, so keying by `Key` loses nothing. */
  lemma KeyNamesDistinct(k: Key, l: Key)
    requires k != l
    ensures KeyName(k) != KeyName(l)
  {
  }

  const DefaultButtonSize := 48
  const DefaultSide := "right"
  const DefaultFont := "Arial"
  const DefaultTheme := "light"
  const DefaultContent := ""
  const DefaultTextFontSize := 12

  /** The record used when there is no readable settings file. */
  function Defaults(): Config {
    Config(DefaultButtonSize, DefaultSide, DefaultFont, DefaultTheme, None, None,
           DefaultContent, DefaultTextFontSize)
  }

  function IntOr(m: Store, key: Key, default: int): int {
    if key in m && m[key].Int? then m[key].n else default
  }

  function StringOr(m: Store, key: Key, default: string): string {
    if key in m && m[key].Str? then m[key].s else default
  }

  /** A stored position: an integer, or `None` for JSON `null` and for a missing key. */
  function PositionOf(m: Store, key: Key): Option<int> {
    if key in m && m[key].Int? then Some(m[key].n) else None
  }

  /** `load_config`: each key read from the object, falling back to its default.
      A file that is missing or cannot be read gives every default. */
  function Load(file: SettingsFile): (c: Config)
    ensures !file.Object? ==> c == Defaults()
  {
    match file
    case Object(m) =>
      Config(
        IntOr(m, ButtonSizeKey, DefaultButtonSize),
        StringOr(m, SideKey, DefaultSide),
        StringOr(m, FontKey, DefaultFont),
        StringOr(m, ThemeKey, DefaultTheme),
        PositionOf(m, XPosKey),
        PositionOf(m, YPosKey),
        StringOr(m, ContentKey, DefaultContent),
        IntOr(m, TextFontSizeKey, DefaultTextFontSize))
    case _ => Defaults()
  }

  /** An unreadable file gives every default; a key missing from the object gives
      its own default. */
  lemma LoadFallsBack(file: SettingsFile)
    ensures !file.Object? ==> Load(file) == Defaults()
    ensures file.Object? && ButtonSizeKey !in file.entries ==> Load(file).buttonSize == DefaultButtonSize
    ensures file.Object? && SideKey !in file.entries ==> Load(file).side == DefaultSide
    ensures file.Object? && FontKey !in file.entries ==> Load(file).currentFont == DefaultFont
    ensures file.Object? && ThemeKey !in file.entries ==> Load(file).theme == DefaultTheme
    ensures file.Object? && XPosKey !in file.entries ==> Load(file).xPos == None
    ensures file.Object? && YPosKey !in file.entries ==> Load(file).yPos == None
    ensures file.Object? && ContentKey !in file.entries ==> Load(file).content == DefaultContent
    ensures file.Object? && TextFontSizeKey !in file.entries ==> Load(file).textFontSize == DefaultTextFontSize
  {
  }

  /** A key holding a value of its own type is read as that value; a `null`
      position is read as no position. */
  lemma LoadReadsValues(file: SettingsFile)
    ensures file.Object? && ButtonSizeKey in file.entries && file.entries[ButtonSizeKey].Int? ==>
              Load(file).buttonSize == file.entries[ButtonSizeKey].n
    ensures file.Object? && SideKey in file.entries && file.entries[SideKey].Str? ==>
              Load(file).side == file.entries[SideKey].s
    ensures file.Object? && FontKey in file.entries && file.entries[FontKey].Str? ==>
              Load(file).currentFont == file.entries[FontKey].s
    ensures file.Object? && ThemeKey in file.entries && file.entries[ThemeKey].Str? ==>
              Load(file).theme == file.entries[ThemeKey].s
    ensures file.Object? && XPosKey in file.entries && file.entries[XPosKey].Int? ==>
              Load(file).xPos == Some(file.entries[XPosKey].n)
    ensures file.Object? && XPosKey in file.entries && file.entries[XPosKey].Null? ==> Load(file).xPos == None
    ensures file.Object? && YPosKey in file.entries && file.entries[YPosKey].Int? ==>
              Load(file).yPos == Some(file.entries[YPosKey].n)
    ensures file.Object? && YPosKey in file.entries && file.entries[YPosKey].Null? ==> Load(file).yPos == None
    ensures file.Object? && ContentKey in file.entries && file.entries[ContentKey].Str? ==>
              Load(file).content == file.entries[ContentKey].s
    ensures file.Object? && TextFontSizeKey in file.entries && file.entries[TextFontSizeKey].Int? ==>
              Load(file).textFontSize == file.entries[TextFontSizeKey].n
  {
  }

  function PositionValue(p: Option<int>): Value {
    if p.Some? then Int(p.value) else Null
  }

  /** `save_config`: the object written to the settings file. */
  function Save(c: Config): Store {
    map[ButtonSizeKey := Int(c.buttonSize),
        SideKey := Str(c.side),
        FontKey := Str(c.currentFont),
        ThemeKey := Str(c.theme),
        XPosKey := PositionValue(c.xPos),
        YPosKey := PositionValue(c.yPos),
        ContentKey := Str(c.content),
        TextFontSizeKey := Int(c.textFontSize)]
  }

  /** Loading what `save_config` wrote gives back every field exactly. */
  lemma LoadAfterSave(c: Config)
    ensures Load(Object(Save(c))) == c
  {
  }

  /** A settings object exactly as `save_config` writes one: the eight keys, each
      holding a value of its own type. */
  predicate WellFormed(m: Store) {
    && m.Keys == Keys
    && m[ButtonSizeKey].Int? && m[TextFontSizeKey].Int?
    && m[SideKey].Str? && m[FontKey].Str? && m[ThemeKey].Str? && m[ContentKey].Str?
    && (m[XPosKey].Int? || m[XPosKey].Null?)
    && (m[YPosKey].Int? || m[YPosKey].Null?)
  }

  /** The other round trip: a well-formed settings object survives a load followed by a save. */
  lemma SaveAfterLoad(m: Store)
    requires WellFormed(m)
    ensures Save(Load(Object(m))) == m
  {
  }

  /** Everything `save_config` writes is well formed. */
  lemma SavedIsWellFormed(c: Config)
    ensures WellFormed(Save(c))
  {
  }
}
