/**
 * What the settings classes have in common: the Python values a settings
 * file and a settings object hold, the attribute names, and the conversions
 * the constructors apply (pathlib.Path and hotkey_or_none).
 *
 * Paths are strings joined with "/"; pathlib's normalisation is not modelled.
 */
module SettingsCommon {
  import opened Wrappers
  import opened Errors

  /** A Python object as the settings code sees it: what json.loads yields, plus Path and Hotkey instances. */
  datatype Value =
    | VNone
    | VBool(b: bool)
    | VInt(i: int)
    | VFloat(r: real)
    | VStr(s: string)
    | VList(items: seq<Value>)
    | VDict(entries: map<string, Value>)
    | VPath(path: string)
    | VHotkey(scancodes: Value, name: Value)

  /** Python truthiness; a Path or a Hotkey instance is always true. */
  predicate Truthy(v: Value)
  {
    match v
    case VNone => false
    case VBool(b) => b
    case VInt(i) => i != 0
    case VFloat(r) => r != 0.0
    case VStr(s) => s != ""
    case VList(items) => items != []
    case VDict(entries) => entries != map[]
    case VPath(_) => true
    case VHotkey(_, _) => true
  }

  /** `folder / name` on paths. */
  function Div(folder: string, name: string): string
  {
    folder + "/" + name
  }

  /** `Path(v)`: a string or a path becomes a path; anything else raises TypeError. */
  function ToPath(v: Value): (r: Result<Value, Exc>)
    ensures r.Ok? <==> v.VStr? || v.VPath?
    ensures r.Ok? ==> r.value.VPath? && r.value.path == (if v.VStr? then v.s else v.path)
  {
    match v
    case VStr(s) => Ok(VPath(s))
    case VPath(p) => Ok(VPath(p))
    case _ => Err(TypeError)
  }

  /** `hotkey_or_none(v)`: a falsy value is None, a dict with exactly the Hotkey fields becomes a Hotkey. */
  function HotkeyOrNone(v: Value): (r: Result<Value, Exc>)
    ensures !Truthy(v) ==> r == Ok(VNone)
    ensures r.Ok? && r.value.VHotkey? ==>
      v.VDict? && v.entries.Keys == {"scancodes", "name"}
      && r.value == VHotkey(v.entries["scancodes"], v.entries["name"])
    ensures Truthy(v) && !v.VDict? ==> r == Err(TypeError)
  {
    if !Truthy(v) then Ok(VNone)
    else match v
      case VDict(m) =>
        if m.Keys == {"scancodes", "name"} then Ok(VHotkey(m["scancodes"], m["name"])) else Err(TypeError)
      case _ => Err(TypeError)
  }

  /** A keyword argument of a call, or None when the call leaves it to its default. */
  function KeywordOr(m: map<string, Value>, key: string): Value
  {
    if key in m then m[key] else VNone
  }

  /**
   * `hotkey_or_none(v)` of the hotkeys package, whose Hotkey defaults both
   * fields to None: a falsy value is None, and a dict whose keys are among
   * the Hotkey fields becomes a Hotkey, a missing field None. Any other
   * value raises TypeError, as `Hotkey(**v)` does on a non-mapping or an
   * unexpected keyword.
   */
  function DefaultedHotkeyOrNone(v: Value): (r: Result<Value, Exc>)
    ensures !Truthy(v) ==> r == Ok(VNone)
    ensures r.Ok? ==> IsHotkeySetting(r.value)
    ensures r.Err? ==> r.error == TypeError
  {
    if !Truthy(v) then Ok(VNone)
    else match v
      case VDict(m) =>
        if m.Keys <= {"scancodes", "name"} then Ok(VHotkey(KeywordOr(m, "scancodes"), KeywordOr(m, "name")))
        else Err(TypeError)
      case _ => Err(TypeError)
  }

  /**
   * A truthy value is accepted exactly when it is a dict naming only Hotkey
   * fields, and becomes the Hotkey of those keywords, None for a missing one.
   */
  lemma DefaultedAccepts(v: Value)
    requires Truthy(v)
    ensures DefaultedHotkeyOrNone(v).Ok? <==> v.VDict? && v.entries.Keys <= {"scancodes", "name"}
    ensures DefaultedHotkeyOrNone(v).Ok? ==>
      DefaultedHotkeyOrNone(v).value == VHotkey(KeywordOr(v.entries, "scancodes"), KeywordOr(v.entries, "name"))
  {
  }

  /**
   * The defaulted converter accepts everything the exact one accepts, with the
   * same result, and more: a dict naming only some of the fields.
   */
  lemma DefaultedExtendsExact(v: Value)
    ensures HotkeyOrNone(v).Ok? ==> DefaultedHotkeyOrNone(v) == HotkeyOrNone(v)
    ensures DefaultedHotkeyOrNone(VDict(map["name" := VStr("f1")])) == Ok(VHotkey(VNone, VStr("f1")))
    ensures HotkeyOrNone(VDict(map["name" := VStr("f1")])) == Err(TypeError)
  {
    var m := map["name" := VStr("f1")];
    assert "name" in m && "scancodes" !in m;
    assert m.Keys == {"name"};
  }

  /** A hotkey setting, saved with the default hook, comes back through the defaulted converter unchanged. */
  lemma DefaultedSerializedRoundTrip(v: Value)
    requires IsHotkeySetting(v)
    ensures DefaultedHotkeyOrNone(Serialized(v)) == Ok(v)
  {
    if v.VHotkey? {
      var m := map["scancodes" := v.scancodes, "name" := v.name];
      assert "scancodes" in m && "name" in m;
      assert m.Keys == {"scancodes", "name"};
    }
  }

  /** The text of a str or a Path. */
  function Text(v: Value): string
    requires v.VStr? || v.VPath?
  {
    if v.VStr? then v.s else v.path
  }

  /** `folder / file`: defined when one side is a Path and the other a str or a Path. */
  function JoinPath(folder: Value, file: Value): (r: Result<string, Exc>)
    ensures r.Ok? <==> (folder.VStr? || folder.VPath?) && (file.VStr? || file.VPath?) && (folder.VPath? || file.VPath?)
  {
    if (folder.VStr? || folder.VPath?) && (file.VStr? || file.VPath?) && (folder.VPath? || file.VPath?) then
      Ok(Div(Text(folder), Text(file)))
    else Err(TypeError)
  }

  /** How json.dumps writes a value with the settings' default hook: paths as strings, hotkeys as dicts. */
  function Serialized(v: Value): Value
  {
    match v
    case VPath(p) => VStr(p)
    case VHotkey(sc, n) => VDict(map["scancodes" := sc, "name" := n])
    case _ => v
  }

  /** A value a settings object holds after its constructor: None or a Hotkey. */
  predicate IsHotkeySetting(v: Value)
  {
    v.VNone? || v.VHotkey?
  }

  /** A value the default hook leaves alone. */
  predicate IsPlain(v: Value)
  {
    !v.VPath? && !v.VHotkey?
  }

  /** Saving and loading a path gives the same path; a hotkey or None survives hotkey_or_none after saving. */
  lemma SerializedRoundTrip(v: Value)
    ensures v.VPath? ==> ToPath(Serialized(v)) == Ok(v)
    ensures IsHotkeySetting(v) ==> HotkeyOrNone(Serialized(v)) == Ok(v)
    ensures IsPlain(v) ==> Serialized(v) == v
  {
    if v.VHotkey? {
      var m := map["scancodes" := v.scancodes, "name" := v.name];
      assert "scancodes" in m;
      assert m.Keys == {"scancodes", "name"};
    }
  }

  /** The attributes of the settings classes; each class uses some of them. */
  datatype Field =
    | OutputFile | Timer | Hostname | Port | SplitSeparator | PreviousSplits | NextSplits
    | FontSize | FontColor | BackgroundColor
    | HtmlTemplateFolder | HtmlTemplateFile | CssFolder | CssFile
    | NotesFolder | HotkeysEnabled | IncreaseOffsetHotkey | DecreaseOffsetHotkey
    | OnTop | Transparency | Width | Height
    | ServerHostname | ServerPort | ServerPreviousSplits | ServerNextSplits
    | ServerTemplateFolder | ServerHtmlTemplateFile | ServerStaticFolder | ServerCssFile

  /** The attribute's name, as it appears as a key in a settings file. */
  function FieldName(f: Field): string
  {
    match f
    case OutputFile => "output_file"
    case Timer => "timer"
    case Hostname => "hostname"
    case Port => "port"
    case SplitSeparator => "split_separator"
    case PreviousSplits => "previous_splits"
    case NextSplits => "next_splits"
    case FontSize => "font_size"
    case FontColor => "font_color"
    case BackgroundColor => "background_color"
    case HtmlTemplateFolder => "html_template_folder"
    case HtmlTemplateFile => "html_template_file"
    case CssFolder => "css_folder"
    case CssFile => "css_file"
    case NotesFolder => "notes_folder"
    case HotkeysEnabled => "hotkeys_enabled"
    case IncreaseOffsetHotkey => "increase_offset_hotkey"
    case DecreaseOffsetHotkey => "decrease_offset_hotkey"
    case OnTop => "on_top"
    case Transparency => "transparency"
    case Width => "width"
    case Height => "height"
    case ServerHostname => "server_hostname"
    case ServerPort => "server_port"
    case ServerPreviousSplits => "server_previous_splits"
    case ServerNextSplits => "server_next_splits"
    case ServerTemplateFolder => "server_template_folder"
    case ServerHtmlTemplateFile => "server_html_template_file"
    case ServerStaticFolder => "server_static_folder"
    case ServerCssFile => "server_css_file"
  }

  /**
   * The one attribute whose name has this length, first character and
   * eighth character, if any: those three tell the names apart.
   */
  function Candidate(length: nat, first: char, eighth: char): Option<Field>
  {
    match (length, first, eighth)
    case (11, 'o', 'f') => Some(OutputFile)
    case (5, 't', _) => Some(Timer)
    case (8, 'h', 'e') => Some(Hostname)
    case (4, 'p', _) => Some(Port)
    case (15, 's', 'e') => Some(SplitSeparator)
    case (15, 'p', 's') => Some(PreviousSplits)
    case (11, 'n', 'l') => Some(NextSplits)
    case (9, 'f', 'z') => Some(FontSize)
    case (10, 'f', 'l') => Some(FontColor)
    case (16, 'b', 'u') => Some(BackgroundColor)
    case (20, 'h', 'm') => Some(HtmlTemplateFolder)
    case (18, 'h', 'm') => Some(HtmlTemplateFile)
    case (10, 'c', 'd') => Some(CssFolder)
    case (8, 'c', 'e') => Some(CssFile)
    case (12, 'n', 'o') => Some(NotesFolder)
    case (15, 'h', '_') => Some(HotkeysEnabled)
    case (22, 'i', 'e') => Some(IncreaseOffsetHotkey)
    case (22, 'd', 'e') => Some(DecreaseOffsetHotkey)
    case (6, 'o', _) => Some(OnTop)
    case (12, 't', 'r') => Some(Transparency)
    case (5, 'w', _) => Some(Width)
    case (6, 'h', _) => Some(Height)
    case (15, 's', 'h') => Some(ServerHostname)
    case (11, 's', 'p') => Some(ServerPort)
    case (22, 's', 'p') => Some(ServerPreviousSplits)
    case (18, 's', 'n') => Some(ServerNextSplits)
    case (22, 's', 't') => Some(ServerTemplateFolder)
    case (25, 's', 'h') => Some(ServerHtmlTemplateFile)
    case (20, 's', 's') => Some(ServerStaticFolder)
    case (15, 's', 'c') => Some(ServerCssFile)
    case _ => None
  }

  /** The attribute a key names, if any. */
  function FieldNamed(key: string): (r: Option<Field>)
    ensures r.Some? ==> FieldName(r.value) == key
  {
    if key == [] then None
    else
      var f := Candidate(|key|, key[0], if |key| > 7 then key[7] else ' ');
      if f.Some? && FieldName(f.value) == key then f else None
  }

  /** Every attribute is found under its own name. */
  lemma FieldNamedRoundTrip(f: Field)
    ensures FieldNamed(FieldName(f)) == Some(f)
  {
    if f in {OutputFile, Timer, Hostname} {
      ConnectionNamesRoundTrip(f);
    } else if f in {Port, SplitSeparator, PreviousSplits} {
      SeparatorNamesRoundTrip(f);
    } else if f in {NextSplits, FontSize, FontColor} {
      FontNamesRoundTrip(f);
    } else if f in {BackgroundColor, HtmlTemplateFolder, HtmlTemplateFile} {
      TemplateNamesRoundTrip(f);
    } else if f in {CssFolder, CssFile, NotesFolder} {
      CssNamesRoundTrip(f);
    } else if f in {HotkeysEnabled, IncreaseOffsetHotkey, DecreaseOffsetHotkey} {
      HotkeyNamesRoundTrip(f);
    } else if f in {OnTop, Transparency, Width} {
      WindowNamesRoundTrip(f);
    } else if f in {Height, ServerHostname, ServerPort} {
      ServerAddressNamesRoundTrip(f);
    } else if f in {ServerPreviousSplits, ServerNextSplits, ServerTemplateFolder} {
      ServerSplitsNamesRoundTrip(f);
    } else {
      ServerFileNamesRoundTrip(f);
    }
  }

  lemma ConnectionNamesRoundTrip(f: Field)
    requires f in {OutputFile, Timer, Hostname}
    ensures FieldNamed(FieldName(f)) == Some(f)
  {
  }

  lemma SeparatorNamesRoundTrip(f: Field)
    requires f in {Port, SplitSeparator, PreviousSplits}
    ensures FieldNamed(FieldName(f)) == Some(f)
  {
  }

  lemma FontNamesRoundTrip(f: Field)
    requires f in {NextSplits, FontSize, FontColor}
    ensures FieldNamed(FieldName(f)) == Some(f)
  {
  }

  lemma TemplateNamesRoundTrip(f: Field)
    requires f in {BackgroundColor, HtmlTemplateFolder, HtmlTemplateFile}
    ensures FieldNamed(FieldName(f)) == Some(f)
  {
  }

  lemma CssNamesRoundTrip(f: Field)
    requires f in {CssFolder, CssFile, NotesFolder}
    ensures FieldNamed(FieldName(f)) == Some(f)
  {
  }

  lemma HotkeyNamesRoundTrip(f: Field)
    requires f in {HotkeysEnabled, IncreaseOffsetHotkey, DecreaseOffsetHotkey}
    ensures FieldNamed(FieldName(f)) == Some(f)
  {
  }

  lemma WindowNamesRoundTrip(f: Field)
    requires f in {OnTop, Transparency, Width}
    ensures FieldNamed(FieldName(f)) == Some(f)
  {
  }

  lemma ServerAddressNamesRoundTrip(f: Field)
    requires f in {Height, ServerHostname, ServerPort}
    ensures FieldNamed(FieldName(f)) == Some(f)
  {
  }

  lemma ServerSplitsNamesRoundTrip(f: Field)
    requires f in {ServerPreviousSplits, ServerNextSplits, ServerTemplateFolder}
    ensures FieldNamed(FieldName(f)) == Some(f)
  {
  }

  lemma ServerFileNamesRoundTrip(f: Field)
    requires f in {ServerHtmlTemplateFile, ServerStaticFolder, ServerCssFile}
    ensures FieldNamed(FieldName(f)) == Some(f)
  {
  }

  /** The names are distinct. */
  lemma FieldNameInjective(f: Field, g: Field)
    requires FieldName(f) == FieldName(g)
    ensures f == g
  {
    FieldNamedRoundTrip(f);
    FieldNamedRoundTrip(g);
  }

  /** Two attribute maps with the same attributes. */
  predicate SameKeys(a: map<Field, Value>, b: map<Field, Value>)
  {
    a.Keys == b.Keys
  }

  /** The object a save writes: every attribute but output_file, under its name, as the default hook writes it. */
  function Saved(v: map<Field, Value>): map<string, Value>
  {
    map k | k in (set f | f in v.Keys && f != OutputFile :: FieldName(f)) && FieldNamed(k).Some? && FieldNamed(k).value in v
      :: Serialized(v[FieldNamed(k).value])
  }

  lemma SavedSpec(v: map<Field, Value>)
    ensures forall f :: FieldName(f) in Saved(v) <==> f in v && f != OutputFile
    ensures forall f :: f in v && f != OutputFile ==> Saved(v)[FieldName(f)] == Serialized(v[f])
  {
    forall f
      ensures FieldName(f) in Saved(v) <==> f in v && f != OutputFile
      ensures f in v && f != OutputFile ==> Saved(v)[FieldName(f)] == Serialized(v[f])
    {
      FieldNamedRoundTrip(f);
      if FieldName(f) in Saved(v) {
        var g :| g in v.Keys && g != OutputFile && FieldName(g) == FieldName(f);
        FieldNameInjective(f, g);
      }
    }
  }
}
