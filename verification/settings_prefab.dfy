/**
 * BaseSettings and its two concrete classes, DesktopSettings and
 * ServerSettings: a settings object built from defaults and the keys of a
 * JSON file that name init attributes, with its template paths reset when
 * they do not exist.
 *
 * The platform lookups done at import (the settings folder, the application
 * folder, the user's documents folder, the host name) are an `Env`
 * parameter; whether a path exists is a predicate parameter, and reading and
 * decoding the file is the `contents` parameter.
 */
module PrefabSettings {
  import opened Wrappers
  import opened Errors
  import opened SettingsCommon

  /** DesktopSettings or ServerSettings. */
  datatype Flavour = Desktop | Server

  /** The module constants the import computes from the platform. */
  datatype Env = Env(
    desktopSettingsFile: string, serverSettingsFile: string,
    templateFolder: string, staticFolder: string,
    userPath: string, localHostname: string)

  /**
   * The import: the settings files sit in the settings folder, the default
   * template and static folders in the application folder, the notes folder
   * is the user's Documents folder, and the host name falls back to the
   * loopback address when the lookup raises OSError; any other exception
   * propagates out of the import.
   */
  function ImportEnv(settingsFolder: string, applicationFolder: string, home: string, hostname: Result<string, Exc>): (r: Result<Env, Exc>)
    ensures r.Ok? <==> hostname.Ok? || IsOSError(hostname.error)
    ensures r.Err? ==> r.error == hostname.error
    ensures r.Ok? ==> r.value.desktopSettingsFile != r.value.serverSettingsFile
    ensures r.Ok? ==> r.value.localHostname == if hostname.Ok? then hostname.value else "127.0.0.1"
  {
    var desktop := Div(settingsFolder, "settings.json");
    var server := Div(settingsFolder, "server_settings.json");
    assert |desktop| != |server|;
    if hostname.Err? && !IsOSError(hostname.error) then Err(hostname.error)
    else
      Ok(Env(desktop, server, Div(applicationFolder, "templates"), Div(applicationFolder, "static"),
        Div(home, "Documents"), if hostname.Ok? then hostname.value else "127.0.0.1"))
  }

  /** SETTINGS_FILE: DESKTOP_SETTINGS_FILE or SERVER_SETTINGS_FILE. */
  function SettingsFile(fl: Flavour, env: Env): string
  {
    if fl == Desktop then env.desktopSettingsFile else env.serverSettingsFile
  }

  /** The class variables default_template_filename and default_css_filename. */
  function DefaultTemplateFilename(fl: Flavour): string
  {
    if fl == Desktop then "desktop.html" else "server.html"
  }

  function DefaultCssFilename(fl: Flavour): string
  {
    if fl == Desktop then "desktop.css" else "server.css"
  }

  /**
   * The init attributes of each concrete class: those BaseSettings declares,
   * and the window attributes of DesktopSettings or the server address of
   * ServerSettings.
   */
  predicate InClass(fl: Flavour, f: Field)
  {
    match f
    case OnTop | Transparency | Width | Height => fl == Desktop
    case ServerHostname | ServerPort => fl == Server
    case ServerPreviousSplits | ServerNextSplits | ServerTemplateFolder | ServerHtmlTemplateFile
      | ServerStaticFolder | ServerCssFile => false
    case _ => true
  }

  /** A settings object's attributes: exactly its class's init attributes. */
  predicate OfClass(fl: Flavour, v: map<Field, Value>)
  {
    forall f :: f in v <==> InClass(fl, f)
  }

  /** Keyword arguments the class's __init__ accepts. */
  predicate Keywords(fl: Flavour, kwargs: map<Field, Value>)
  {
    forall f :: f in kwargs ==> InClass(fl, f)
  }

  /** Each attribute's default in each class. */
  function Default(fl: Flavour, env: Env, f: Field): Value
  {
    match f
    case OutputFile => VPath(SettingsFile(fl, env))
    case Timer => VStr("LiveSplit")
    case Hostname => VStr("localhost")
    case Port => VInt(16834)
    case SplitSeparator => VStr("")
    case PreviousSplits => VInt(0)
    case NextSplits => VInt(2)
    case FontSize => VFloat(20.0)
    case FontColor => VStr("#000000ff")
    case BackgroundColor => VStr("#f1f8ffff")
    case HtmlTemplateFolder => VPath(env.templateFolder)
    case CssFolder => VPath(env.staticFolder)
    case HtmlTemplateFile => VStr(DefaultTemplateFilename(fl))
    case CssFile => VStr(DefaultCssFilename(fl))
    case NotesFolder => VStr(env.userPath)
    case HotkeysEnabled => VBool(false)
    case IncreaseOffsetHotkey => VNone
    case DecreaseOffsetHotkey => VNone
    case OnTop => VBool(false)
    case Transparency => VBool(false)
    case Width => VInt(800)
    case Height => VInt(800)
    case ServerHostname => VStr(env.localHostname)
    case ServerPort => VInt(8000)
    case _ => VNone
  }

  /** The defaults of a class's init attributes. */
  function Defaults(fl: Flavour, env: Env): map<Field, Value>
  {
    map f | InClass(fl, f) :: Default(fl, env, f)
  }

  /** The attributes __prefab_post_init__ converts. */
  predicate Converted(f: Field)
  {
    f == OutputFile || f == HtmlTemplateFolder || f == CssFolder || f == IncreaseOffsetHotkey || f == DecreaseOffsetHotkey
  }

  /** The attribute map holds every attribute the post-init hook converts. */
  predicate HasConverted(v: map<Field, Value>)
  {
    OutputFile in v && HtmlTemplateFolder in v && CssFolder in v && IncreaseOffsetHotkey in v && DecreaseOffsetHotkey in v
  }

  /** The attribute map holds the template and css folders and files. */
  predicate HasTemplatePaths(v: map<Field, Value>)
  {
    HtmlTemplateFolder in v && HtmlTemplateFile in v && CssFolder in v && CssFile in v
  }

  /** __prefab_post_init__: output file and folders become paths, hotkey entries go through hotkey_or_none. */
  function PostInitValues(v: map<Field, Value>): (r: Result<map<Field, Value>, Exc>)
    requires HasConverted(v)
    ensures r.Ok? ==> SameKeys(r.value, v)
  {
    var o := ToPath(v[OutputFile]);
    var t := ToPath(v[HtmlTemplateFolder]);
    var c := ToPath(v[CssFolder]);
    var i := HotkeyOrNone(v[IncreaseOffsetHotkey]);
    var d := HotkeyOrNone(v[DecreaseOffsetHotkey]);
    if o.Err? then Err(o.error)
    else if t.Err? then Err(t.error)
    else if c.Err? then Err(c.error)
    else if i.Err? then Err(i.error)
    else if d.Err? then Err(d.error)
    else Ok(v[OutputFile := o.value][HtmlTemplateFolder := t.value][CssFolder := c.value]
             [IncreaseOffsetHotkey := i.value][DecreaseOffsetHotkey := d.value])
  }

  /** `cls(**kwargs)`: the defaults overridden by the keyword arguments, then the post-init hook. */
  function Construct(fl: Flavour, env: Env, kwargs: map<Field, Value>): (r: Result<map<Field, Value>, Exc>)
    requires Keywords(fl, kwargs)
    ensures r.Ok? ==> OfClass(fl, r.value)
  {
    ArgumentKeys(fl, env, kwargs);
    PostInitValues(Defaults(fl, env) + kwargs)
  }

  /** The constructor's arguments cover every attribute, the converted ones among them. */
  lemma ArgumentKeys(fl: Flavour, env: Env, kwargs: map<Field, Value>)
    requires Keywords(fl, kwargs)
    ensures OfClass(fl, Defaults(fl, env) + kwargs)
    ensures HasConverted(Defaults(fl, env) + kwargs)
  {
  }

  /** An attribute the hook does not convert is its keyword argument when one is given, and its default otherwise. */
  lemma ConstructKeeps(fl: Flavour, env: Env, kwargs: map<Field, Value>, f: Field)
    requires Keywords(fl, kwargs)
    requires Construct(fl, env, kwargs).Ok?
    requires InClass(fl, f) && !Converted(f)
    ensures Construct(fl, env, kwargs).value[f] == if f in kwargs then kwargs[f] else Default(fl, env, f)
  {
    ArgumentKeys(fl, env, kwargs);
    var args := Defaults(fl, env) + kwargs;
    PostInitKeeps(args);
    assert args[f] == if f in kwargs then kwargs[f] else Default(fl, env, f);
  }

  /** The post-init hook succeeds exactly when the paths are strings or paths and the hotkey entries are accepted. */
  lemma PostInitSucceeds(v: map<Field, Value>)
    requires HasConverted(v)
    ensures PostInitValues(v).Ok? <==>
      (v[OutputFile].VStr? || v[OutputFile].VPath?)
      && (v[HtmlTemplateFolder].VStr? || v[HtmlTemplateFolder].VPath?)
      && (v[CssFolder].VStr? || v[CssFolder].VPath?)
      && HotkeyOrNone(v[IncreaseOffsetHotkey]).Ok? && HotkeyOrNone(v[DecreaseOffsetHotkey]).Ok?
  {
  }

  /** The post-init hook leaves every attribute but its five as given. */
  lemma PostInitKeeps(v: map<Field, Value>)
    requires HasConverted(v) && PostInitValues(v).Ok?
    ensures forall f :: f in v && !Converted(f) ==> PostInitValues(v).value[f] == v[f]
  {
  }

  /** The post-init hook leaves paths as Path instances and hotkey entries as None or a Hotkey, a falsy entry None. */
  lemma PostInitConverts(v: map<Field, Value>)
    requires HasConverted(v) && PostInitValues(v).Ok?
    ensures var w := PostInitValues(v).value;
      && w[OutputFile].VPath? && w[HtmlTemplateFolder].VPath? && w[CssFolder].VPath?
      && IsHotkeySetting(w[IncreaseOffsetHotkey]) && IsHotkeySetting(w[DecreaseOffsetHotkey])
      && (!Truthy(v[IncreaseOffsetHotkey]) ==> w[IncreaseOffsetHotkey] == VNone)
      && (!Truthy(v[DecreaseOffsetHotkey]) ==> w[DecreaseOffsetHotkey] == VNone)
  {
  }

  /**
   * fix_template_paths: the template folder and file go back to the class
   * defaults when the template path does not exist, then the css pair the
   * same way; a value that cannot be joined into a path raises TypeError.
   */
  function FixedPaths(fl: Flavour, env: Env, v: map<Field, Value>, present: string -> bool): (r: Result<map<Field, Value>, Exc>)
    requires HasTemplatePaths(v)
    ensures r.Ok? <==> JoinPath(v[HtmlTemplateFolder], v[HtmlTemplateFile]).Ok? && JoinPath(v[CssFolder], v[CssFile]).Ok?
    ensures r.Ok? ==> SameKeys(r.value, v)
  {
    var t := JoinPath(v[HtmlTemplateFolder], v[HtmlTemplateFile]);
    if t.Err? then Err(t.error)
    else
      var v1 := if present(t.value) then v
        else v[HtmlTemplateFolder := VPath(env.templateFolder)][HtmlTemplateFile := VStr(DefaultTemplateFilename(fl))];
      var c := JoinPath(v1[CssFolder], v1[CssFile]);
      if c.Err? then Err(c.error)
      else Ok(if present(c.value) then v1
        else v1[CssFolder := VPath(env.staticFolder)][CssFile := VStr(DefaultCssFilename(fl))])
  }

  /** fix_template_paths changes nothing but the template and css folders and files. */
  lemma FixedPathsSpec(fl: Flavour, env: Env, v: map<Field, Value>, present: string -> bool)
    requires HasTemplatePaths(v) && FixedPaths(fl, env, v, present).Ok?
    ensures var w := FixedPaths(fl, env, v, present).value;
      forall f :: f in v && f != HtmlTemplateFolder && f != HtmlTemplateFile && f != CssFolder && f != CssFile ==> w[f] == v[f]
  {
  }

  /**
   * The template pair is reset exactly when the template path does not
   * exist, the css pair exactly when the css path does not, independently.
   */
  lemma FixedPathsResets(fl: Flavour, env: Env, v: map<Field, Value>, present: string -> bool)
    requires HasTemplatePaths(v) && FixedPaths(fl, env, v, present).Ok?
    ensures var w := FixedPaths(fl, env, v, present).value;
      var t := JoinPath(v[HtmlTemplateFolder], v[HtmlTemplateFile]).value;
      var c := JoinPath(v[CssFolder], v[CssFile]).value;
      && (present(t) ==> w[HtmlTemplateFolder] == v[HtmlTemplateFolder] && w[HtmlTemplateFile] == v[HtmlTemplateFile])
      && (!present(t) ==>
            w[HtmlTemplateFolder] == VPath(env.templateFolder)
            && w[HtmlTemplateFile] == VStr(DefaultTemplateFilename(fl)))
      && (present(c) ==> w[CssFolder] == v[CssFolder] && w[CssFile] == v[CssFile])
      && (!present(c) ==> w[CssFolder] == VPath(env.staticFolder) && w[CssFile] == VStr(DefaultCssFilename(fl)))
  {
  }

  /** When both paths exist, fix_template_paths changes nothing. */
  lemma FixedPathsWhenPresent(fl: Flavour, env: Env, v: map<Field, Value>, present: string -> bool)
    requires HasTemplatePaths(v) && PathsExist(v, present)
    ensures FixedPaths(fl, env, v, present) == Ok(v)
  {
  }

  /** The keyword arguments load passes on: the file's entries whose key names an init attribute. */
  function Known(fl: Flavour, m: map<string, Value>): (k: map<Field, Value>)
    ensures Keywords(fl, k)
  {
    map f | InClass(fl, f) && FieldName(f) in m :: m[FieldName(f)]
  }

  /** Known values are passed on unchanged under their attribute; keys naming no init attribute are dropped. */
  lemma KnownSpec(fl: Flavour, m: map<string, Value>)
    ensures forall k :: k in m && FieldNamed(k).Some? && InClass(fl, FieldNamed(k).value) ==>
      FieldNamed(k).value in Known(fl, m) && Known(fl, m)[FieldNamed(k).value] == m[k]
    ensures forall f :: f in Known(fl, m) ==> FieldName(f) in m && FieldNamed(FieldName(f)) == Some(f)
  {
    forall f | f in Known(fl, m) {
      FieldNamedRoundTrip(f);
    }
  }

  /** load's input path: the class's settings file when none is given. */
  function InputPath(fl: Flavour, env: Env, inputFilename: Option<string>): string
  {
    if inputFilename.None? then SettingsFile(fl, env) else inputFilename.value
  }

  /**
   * load: a missing file gives the defaults with output_file set to the
   * path; otherwise the decoded object's known keys go to the constructor
   * beside output_file, and the template paths are fixed.
   */
  function LoadedValues(fl: Flavour, env: Env, inputFilename: Option<string>, present: string -> bool, contents: Result<Value, Exc>): (r: Result<map<Field, Value>, Exc>)
    ensures r.Ok? ==> OfClass(fl, r.value)
  {
    var path := InputPath(fl, env, inputFilename);
    if !present(path) then Construct(fl, env, map[OutputFile := VPath(path)])
    else match contents
      case Err(e) => Err(e)
      case Ok(VDict(m)) => FromObject(fl, env, path, present, m)
      case Ok(_) => Err(AttributeError)
  }

  /** The keyword arguments load passes to the constructor: the known entries, and output_file. */
  function Arguments(fl: Flavour, m: map<string, Value>, path: string): (a: map<Field, Value>)
    ensures Keywords(fl, a)
  {
    Known(fl, m)[OutputFile := VPath(path)]
  }

  /** load once the file decoded to an object `m`. */
  function FromObject(fl: Flavour, env: Env, path: string, present: string -> bool, m: map<string, Value>): (r: Result<map<Field, Value>, Exc>)
    ensures r.Ok? ==> OfClass(fl, r.value)
  {
    var kwargs := Known(fl, m);
    if OutputFile in kwargs then Err(TypeError)
    else
      match Construct(fl, env, Arguments(fl, m, path))
      case Err(e) => Err(e)
      case Ok(v) => FixedPaths(fl, env, v, present)
  }

  /** When the file exists and decodes to an object, load is FromObject on it. */
  lemma LoadReadsObject(fl: Flavour, env: Env, inputFilename: Option<string>, present: string -> bool, m: map<string, Value>)
    requires present(InputPath(fl, env, inputFilename))
    ensures LoadedValues(fl, env, inputFilename, present, Ok(VDict(m))) == FromObject(fl, env, InputPath(fl, env, inputFilename), present, m)
  {
  }

  /** post-init changes nothing on values that are already paths, with no hotkeys set. */
  lemma PostInitKeepsConverted(v: map<Field, Value>)
    requires HasConverted(v)
    requires v[OutputFile].VPath? && v[HtmlTemplateFolder].VPath? && v[CssFolder].VPath?
    requires v[IncreaseOffsetHotkey] == VNone && v[DecreaseOffsetHotkey] == VNone
    ensures PostInitValues(v) == Ok(v)
  {
    assert ToPath(v[OutputFile]) == Ok(v[OutputFile]);
    assert ToPath(v[HtmlTemplateFolder]) == Ok(v[HtmlTemplateFolder]);
    assert ToPath(v[CssFolder]) == Ok(v[CssFolder]);
    assert HotkeyOrNone(VNone) == Ok(VNone);
    assert PostInitValues(v).Ok?;
    var w := PostInitValues(v).value;
    assert SameKeys(w, v);
    assert forall f :: f in v ==> w[f] == v[f];
    assert w == v;
  }

  /** The defaults of the converted attributes are already converted. */
  lemma DefaultsConverted(fl: Flavour, env: Env)
    ensures HasConverted(Defaults(fl, env))
    ensures Defaults(fl, env)[OutputFile] == VPath(SettingsFile(fl, env))
    ensures Defaults(fl, env)[HtmlTemplateFolder] == VPath(env.templateFolder)
    ensures Defaults(fl, env)[CssFolder] == VPath(env.staticFolder)
    ensures Defaults(fl, env)[IncreaseOffsetHotkey] == VNone && Defaults(fl, env)[DecreaseOffsetHotkey] == VNone
  {
    DefaultPaths(fl, env);
    DefaultHotkeys(fl, env);
  }

  lemma DefaultPaths(fl: Flavour, env: Env)
    ensures OutputFile in Defaults(fl, env) && HtmlTemplateFolder in Defaults(fl, env) && CssFolder in Defaults(fl, env)
    ensures Defaults(fl, env)[OutputFile] == VPath(SettingsFile(fl, env))
    ensures Defaults(fl, env)[HtmlTemplateFolder] == VPath(env.templateFolder)
    ensures Defaults(fl, env)[CssFolder] == VPath(env.staticFolder)
  {
    var d := Defaults(fl, env);
    assert d[OutputFile] == Default(fl, env, OutputFile);
    assert d[HtmlTemplateFolder] == Default(fl, env, HtmlTemplateFolder);
    assert d[CssFolder] == Default(fl, env, CssFolder);
  }

  lemma DefaultHotkeys(fl: Flavour, env: Env)
    ensures IncreaseOffsetHotkey in Defaults(fl, env) && DecreaseOffsetHotkey in Defaults(fl, env)
    ensures Defaults(fl, env)[IncreaseOffsetHotkey] == VNone && Defaults(fl, env)[DecreaseOffsetHotkey] == VNone
  {
    var d := Defaults(fl, env);
    assert d[IncreaseOffsetHotkey] == Default(fl, env, IncreaseOffsetHotkey);
    assert d[DecreaseOffsetHotkey] == Default(fl, env, DecreaseOffsetHotkey);
  }

  /** Without a file, every attribute has its default except output_file, which is the path; no template is checked. */
  lemma LoadMissingFile(fl: Flavour, env: Env, inputFilename: Option<string>, present: string -> bool, contents: Result<Value, Exc>)
    requires !present(InputPath(fl, env, inputFilename))
    ensures LoadedValues(fl, env, inputFilename, present, contents) == Ok(Defaults(fl, env)[OutputFile := VPath(InputPath(fl, env, inputFilename))])
    ensures inputFilename.None? ==> LoadedValues(fl, env, inputFilename, present, contents) == Ok(Defaults(fl, env))
  {
    var path := InputPath(fl, env, inputFilename);
    var d := Defaults(fl, env);
    var a := map[OutputFile := VPath(path)];
    DefaultsConverted(fl, env);
    assert d + a == d[OutputFile := VPath(path)];
    PostInitKeepsConverted(d[OutputFile := VPath(path)]);
    assert Construct(fl, env, a) == Ok(d[OutputFile := VPath(path)]);
    if inputFilename.None? {
      assert d[OutputFile := VPath(path)] == d;
    }
  }

  /** A file that names output_file passes it twice to the constructor; a file that is not an object has no items(). */
  lemma LoadRejects(fl: Flavour, env: Env, inputFilename: Option<string>, present: string -> bool, m: map<string, Value>, other: Value)
    requires present(InputPath(fl, env, inputFilename)) && !other.VDict?
    ensures "output_file" in m ==> LoadedValues(fl, env, inputFilename, present, Ok(VDict(m))) == Err(TypeError)
    ensures LoadedValues(fl, env, inputFilename, present, Ok(other)) == Err(AttributeError)
  {
    if "output_file" in m {
      assert FieldName(OutputFile) == "output_file";
      assert OutputFile in Known(fl, m);
    }
  }

  /** Keys that name no init attribute are not passed on. */
  lemma KnownIgnoresUnknown(fl: Flavour, m: map<string, Value>, k: string, x: Value)
    requires FieldNamed(k).None? || !InClass(fl, FieldNamed(k).value)
    ensures Known(fl, m[k := x]) == Known(fl, m)
  {
    forall f | InClass(fl, f)
      ensures FieldName(f) in m[k := x] <==> FieldName(f) in m
      ensures FieldName(f) in m ==> m[k := x][FieldName(f)] == m[FieldName(f)]
    {
      FieldNamedRoundTrip(f);
    }
  }

  /** Keys that name no init attribute make no difference to what load returns. */
  lemma LoadIgnoresUnknown(fl: Flavour, env: Env, inputFilename: Option<string>, present: string -> bool, m: map<string, Value>, k: string, x: Value)
    requires FieldNamed(k).None? || !InClass(fl, FieldNamed(k).value)
    ensures LoadedValues(fl, env, inputFilename, present, Ok(VDict(m[k := x]))) == LoadedValues(fl, env, inputFilename, present, Ok(VDict(m)))
  {
    var path := InputPath(fl, env, inputFilename);
    KnownIgnoresUnknown(fl, m, k, x);
    assert FromObject(fl, env, path, present, m[k := x]) == FromObject(fl, env, path, present, m);
  }

  /** The attributes load takes from the file as they are: neither converted nor reset. */
  predicate Kept(f: Field)
  {
    !Converted(f) && f != HtmlTemplateFile && f != CssFile
  }

  /** From a decoded object, every kept attribute is the object's value when it has the key, and the default otherwise. */
  lemma FromObjectKeepsValues(fl: Flavour, env: Env, path: string, present: string -> bool, m: map<string, Value>, f: Field)
    requires FromObject(fl, env, path, present, m).Ok?
    requires InClass(fl, f) && Kept(f)
    ensures FromObject(fl, env, path, present, m).value[f]
      == if FieldName(f) in m then m[FieldName(f)] else Default(fl, env, f)
  {
    var a := Arguments(fl, m, path);
    ObjectArgumentKeeps(fl, env, path, m, f);
    var v := Construct(fl, env, a).value;
    assert FromObject(fl, env, path, present, m) == FixedPaths(fl, env, v, present);
    FixedPathsSpec(fl, env, v, present);
  }

  /** The constructor load calls keeps a non-converted attribute as the object gives it, or its default. */
  lemma ObjectArgumentKeeps(fl: Flavour, env: Env, path: string, m: map<string, Value>, f: Field)
    requires OutputFile !in Known(fl, m) && Construct(fl, env, Arguments(fl, m, path)).Ok?
    requires InClass(fl, f) && !Converted(f)
    ensures Construct(fl, env, Arguments(fl, m, path)).value[f]
      == if FieldName(f) in m then m[FieldName(f)] else Default(fl, env, f)
  {
    var a := Arguments(fl, m, path);
    assert f in a <==> FieldName(f) in m;
    ConstructKeeps(fl, env, a, f);
  }

  /** Every kept attribute is the file's value when the file has its key, and the default otherwise. */
  lemma LoadKeepsValues(fl: Flavour, env: Env, inputFilename: Option<string>, present: string -> bool, m: map<string, Value>, f: Field)
    requires present(InputPath(fl, env, inputFilename))
    requires LoadedValues(fl, env, inputFilename, present, Ok(VDict(m))).Ok?
    requires InClass(fl, f) && Kept(f)
    ensures LoadedValues(fl, env, inputFilename, present, Ok(VDict(m))).value[f]
      == if FieldName(f) in m then m[FieldName(f)] else Default(fl, env, f)
  {
    FromObjectKeepsValues(fl, env, InputPath(fl, env, inputFilename), present, m, f);
  }

  /** The state a loaded settings object is in: every path a Path, every hotkey set or None, the rest plain values. */
  predicate WellFormed(fl: Flavour, v: map<Field, Value>)
  {
    && OfClass(fl, v)
    && v[OutputFile].VPath? && v[HtmlTemplateFolder].VPath? && v[CssFolder].VPath?
    && IsHotkeySetting(v[IncreaseOffsetHotkey]) && IsHotkeySetting(v[DecreaseOffsetHotkey])
    && (forall f :: f in v && !Converted(f) ==> IsPlain(v[f]))
  }

  /** The template and css paths of a settings object exist. */
  predicate PathsExist(v: map<Field, Value>, present: string -> bool)
    requires HasTemplatePaths(v)
  {
    var t := JoinPath(v[HtmlTemplateFolder], v[HtmlTemplateFile]);
    var c := JoinPath(v[CssFolder], v[CssFile]);
    t.Ok? && c.Ok? && present(t.value) && present(c.value)
  }

  /** The keyword arguments load takes from a saved file: every attribute but output_file, as saved. */
  lemma KnownSaved(fl: Flavour, v: map<Field, Value>)
    requires OfClass(fl, v)
    ensures forall f :: f in Known(fl, Saved(v)) <==> f in v && f != OutputFile
    ensures forall f :: f in Known(fl, Saved(v)) ==> Known(fl, Saved(v))[f] == Serialized(v[f])
  {
    SavedSpec(v);
  }

  /** What the constructor receives when a saved file is loaded from `path`. */
  function Reloaded(v: map<Field, Value>, path: string): (w: map<Field, Value>)
    ensures SameKeys(w, v)
  {
    map f | f in v :: if f == OutputFile then VPath(path) else Serialized(v[f])
  }

  /** Keyword arguments that name every attribute override every default. */
  lemma OverrideAll(d: map<Field, Value>, k: map<Field, Value>, r: map<Field, Value>)
    requires SameKeys(d, r) && SameKeys(k, r)
    requires forall f :: f in k ==> k[f] == r[f]
    ensures d + k == r
  {
  }

  /** Keyword arguments holding every saved attribute, with output_file beside them, are what is reloaded. */
  lemma SavedKeywords(k: map<Field, Value>, v: map<Field, Value>, path: string)
    requires forall f :: f in k <==> f in v && f != OutputFile
    requires forall f :: f in k ==> k[f] == Serialized(v[f])
    requires OutputFile in v
    ensures SameKeys(k[OutputFile := VPath(path)], v)
    ensures forall f :: f in v ==> k[OutputFile := VPath(path)][f] == Reloaded(v, path)[f]
  {
    assert forall f :: f in k[OutputFile := VPath(path)] <==> f in v;
  }

  /** Loading a saved file passes the constructor every attribute: output_file the path, the rest as saved. */
  lemma SavedArguments(fl: Flavour, env: Env, v: map<Field, Value>, path: string)
    requires OfClass(fl, v)
    ensures OutputFile !in Known(fl, Saved(v))
    ensures Defaults(fl, env) + Arguments(fl, Saved(v), path) == Reloaded(v, path)
  {
    KnownSaved(fl, v);
    SavedKeywords(Known(fl, Saved(v)), v, path);
    OverrideAll(Defaults(fl, env), Arguments(fl, Saved(v), path), Reloaded(v, path));
  }

  /** post-init turns what was saved back into the saved object, output_file being the path. */
  lemma PostInitReloaded(fl: Flavour, v: map<Field, Value>, path: string)
    requires WellFormed(fl, v)
    ensures PostInitValues(Reloaded(v, path)) == Ok(v[OutputFile := VPath(path)])
  {
    var a := Reloaded(v, path);
    SerializedRoundTrip(v[HtmlTemplateFolder]);
    SerializedRoundTrip(v[CssFolder]);
    SerializedRoundTrip(v[IncreaseOffsetHotkey]);
    SerializedRoundTrip(v[DecreaseOffsetHotkey]);
    var w := a[OutputFile := VPath(path)][HtmlTemplateFolder := v[HtmlTemplateFolder]][CssFolder := v[CssFolder]]
      [IncreaseOffsetHotkey := v[IncreaseOffsetHotkey]][DecreaseOffsetHotkey := v[DecreaseOffsetHotkey]];
    assert ToPath(a[OutputFile]) == Ok(VPath(path));
    assert ToPath(a[HtmlTemplateFolder]) == Ok(v[HtmlTemplateFolder]);
    assert ToPath(a[CssFolder]) == Ok(v[CssFolder]);
    assert HotkeyOrNone(a[IncreaseOffsetHotkey]) == Ok(v[IncreaseOffsetHotkey]);
    assert HotkeyOrNone(a[DecreaseOffsetHotkey]) == Ok(v[DecreaseOffsetHotkey]);
    assert PostInitValues(a) == Ok(w);
    forall f | f in v && !Converted(f)
      ensures a[f] == v[f]
    {
      SerializedRoundTrip(v[f]);
    }
    ConvertedAgree(a, v, VPath(path));
  }

  /** Two maps that agree off the converted attributes agree everywhere once those are set alike. */
  lemma ConvertedAgree(a: map<Field, Value>, v: map<Field, Value>, o: Value)
    requires SameKeys(a, v) && HasConverted(v)
    requires forall f :: f in v && !Converted(f) ==> a[f] == v[f]
    ensures a[OutputFile := o][HtmlTemplateFolder := v[HtmlTemplateFolder]][CssFolder := v[CssFolder]]
      [IncreaseOffsetHotkey := v[IncreaseOffsetHotkey]][DecreaseOffsetHotkey := v[DecreaseOffsetHotkey]]
      == v[OutputFile := o]
  {
    var w := a[OutputFile := o][HtmlTemplateFolder := v[HtmlTemplateFolder]][CssFolder := v[CssFolder]]
      [IncreaseOffsetHotkey := v[IncreaseOffsetHotkey]][DecreaseOffsetHotkey := v[DecreaseOffsetHotkey]];
    var u := v[OutputFile := o];
    assert SameKeys(w, u);
    forall f | f in u
      ensures w[f] == u[f]
    {
      if !Converted(f) {
        assert w[f] == a[f];
      }
    }
    assert w == u;
  }

  /**
   * save followed by load reproduces every attribute, output_file being the
   * path it was loaded from, as long as the template and css paths exist.
   */
  lemma SaveLoadRoundTrip(fl: Flavour, env: Env, v: map<Field, Value>, path: string, present: string -> bool)
    requires WellFormed(fl, v) && PathsExist(v, present) && present(path)
    ensures LoadedValues(fl, env, Some(path), present, Ok(VDict(Saved(v)))) == Ok(v[OutputFile := VPath(path)])
  {
    FromSavedObject(fl, env, v, path, present);
    LoadReadsObject(fl, env, Some(path), present, Saved(v));
  }

  /** The object a save wrote goes back through the constructor and fix_template_paths unchanged. */
  lemma FromSavedObject(fl: Flavour, env: Env, v: map<Field, Value>, path: string, present: string -> bool)
    requires WellFormed(fl, v) && PathsExist(v, present)
    ensures FromObject(fl, env, path, present, Saved(v)) == Ok(v[OutputFile := VPath(path)])
  {
    var m := Saved(v);
    SavedArguments(fl, env, v, path);
    PostInitReloaded(fl, v, path);
    assert Construct(fl, env, Arguments(fl, m, path)) == Ok(v[OutputFile := VPath(path)]);
    FixedPathsKeep(fl, env, v, VPath(path), present);
  }

  /** Resetting output_file leaves existing template paths alone, and fix_template_paths then changes nothing. */
  lemma FixedPathsKeep(fl: Flavour, env: Env, v: map<Field, Value>, o: Value, present: string -> bool)
    requires HasTemplatePaths(v) && PathsExist(v, present)
    ensures FixedPaths(fl, env, v[OutputFile := o], present) == Ok(v[OutputFile := o])
  {
    var w := v[OutputFile := o];
    assert w[HtmlTemplateFolder] == v[HtmlTemplateFolder] && w[HtmlTemplateFile] == v[HtmlTemplateFile];
    assert w[CssFolder] == v[CssFolder] && w[CssFile] == v[CssFile];
    FixedPathsWhenPresent(fl, env, w, present);
  }

  /** The two classes differ only in their output file, their default file names and their own extra attributes. */
  lemma FlavoursDiffer(env: Env, f: Field)
    requires env.desktopSettingsFile != env.serverSettingsFile
    requires InClass(Desktop, f) && InClass(Server, f)
    ensures f != OutputFile && f != HtmlTemplateFile && f != CssFile <==> Default(Desktop, env, f) == Default(Server, env, f)
  {
  }

  /** DesktopSettings alone has the window attributes, ServerSettings alone the server address. */
  lemma ClassesDiffer(f: Field)
    ensures InClass(Desktop, f) && !InClass(Server, f) <==> f == OnTop || f == Transparency || f == Width || f == Height
    ensures InClass(Server, f) && !InClass(Desktop, f) <==> f == ServerHostname || f == ServerPort
  {
  }

  /** A settings object: its class, the platform's folders, and its attributes. */
  class Settings {
    const flavour: Flavour
    const env: Env
    var values: map<Field, Value>

    predicate Valid()
      reads this
    {
      OfClass(flavour, values)
    }

    /** The generated __init__ before its post-init hook: defaults, overridden by the keyword arguments. */
    constructor (flavour: Flavour, env: Env, kwargs: map<Field, Value>)
      requires Keywords(flavour, kwargs)
      ensures this.flavour == flavour && this.env == env
      ensures values == Defaults(flavour, env) + kwargs && Valid()
    {
      this.flavour := flavour;
      this.env := env;
      values := Defaults(flavour, env) + kwargs;
    }

    method PostInit() returns (r: Result<(), Exc>)
      requires Valid()
      modifies this
      ensures Valid()
      ensures r.Ok? <==> PostInitValues(old(values)).Ok?
      ensures r.Ok? ==> values == PostInitValues(old(values)).value
    {
      var o := ToPath(values[OutputFile]);
      if o.Err? { return Err(o.error); }
      var t := ToPath(values[HtmlTemplateFolder]);
      if t.Err? { return Err(t.error); }
      var c := ToPath(values[CssFolder]);
      if c.Err? { return Err(c.error); }
      var i := HotkeyOrNone(values[IncreaseOffsetHotkey]);
      if i.Err? { return Err(i.error); }
      var d := HotkeyOrNone(values[DecreaseOffsetHotkey]);
      if d.Err? { return Err(d.error); }
      values := values[OutputFile := o.value];
      values := values[HtmlTemplateFolder := t.value];
      values := values[CssFolder := c.value];
      values := values[IncreaseOffsetHotkey := i.value];
      values := values[DecreaseOffsetHotkey := d.value];
      r := Ok(());
    }

    /** full_template_path: the template folder joined with the template file. */
    function FullTemplatePath(): (r: Result<string, Exc>)
      reads this
      requires Valid()
      ensures r.Ok? ==>
        && (values[HtmlTemplateFolder].VStr? || values[HtmlTemplateFolder].VPath?)
        && (values[HtmlTemplateFile].VStr? || values[HtmlTemplateFile].VPath?)
        && r.value == Div(Text(values[HtmlTemplateFolder]), Text(values[HtmlTemplateFile]))
      ensures values[HtmlTemplateFolder].VPath? && values[HtmlTemplateFile].VStr? ==> r.Ok?
    {
      JoinPath(values[HtmlTemplateFolder], values[HtmlTemplateFile])
    }

    /** full_css_path: the css folder joined with the css file. */
    function FullCssPath(): (r: Result<string, Exc>)
      reads this
      requires Valid()
      ensures r.Ok? ==>
        && (values[CssFolder].VStr? || values[CssFolder].VPath?)
        && (values[CssFile].VStr? || values[CssFile].VPath?)
        && r.value == Div(Text(values[CssFolder]), Text(values[CssFile]))
      ensures values[CssFolder].VPath? && values[CssFile].VStr? ==> r.Ok?
    {
      JoinPath(values[CssFolder], values[CssFile])
    }

    method FixTemplatePaths(present: string -> bool) returns (r: Result<(), Exc>)
      requires Valid()
      modifies this
      ensures Valid()
      ensures r.Ok? <==> FixedPaths(flavour, env, old(values), present).Ok?
      ensures r.Ok? ==> values == FixedPaths(flavour, env, old(values), present).value
    {
      var t := FullTemplatePath();
      if t.Err? { return Err(t.error); }
      if !present(t.value) {
        values := values[HtmlTemplateFolder := VPath(env.templateFolder)];
        values := values[HtmlTemplateFile := VStr(DefaultTemplateFilename(flavour))];
      }
      var c := FullCssPath();
      if c.Err? { return Err(c.error); }
      if !present(c.value) {
        values := values[CssFolder := VPath(env.staticFolder)];
        values := values[CssFile := VStr(DefaultCssFilename(flavour))];
      }
      r := Ok(());
    }
  }

  /** `cls(**kwargs)`: the generated __init__ followed by its post-init hook. */
  method New(fl: Flavour, env: Env, kwargs: map<Field, Value>) returns (r: Result<Settings, Exc>)
    requires Keywords(fl, kwargs)
    ensures r.Ok? <==> Construct(fl, env, kwargs).Ok?
    ensures r.Ok? ==>
      fresh(r.value) && r.value.flavour == fl && r.value.env == env && r.value.Valid()
      && r.value.values == Construct(fl, env, kwargs).value
  {
    var s := new Settings(fl, env, kwargs);
    var p := s.PostInit();
    if p.Err? {
      return Err(p.error);
    }
    r := Ok(s);
  }

  /** The load class method. */
  method Load(fl: Flavour, env: Env, inputFilename: Option<string>, present: string -> bool, contents: Result<Value, Exc>)
    returns (r: Result<Settings, Exc>)
    ensures r.Ok? <==> LoadedValues(fl, env, inputFilename, present, contents).Ok?
    ensures r.Ok? ==>
      fresh(r.value) && r.value.flavour == fl && r.value.Valid()
      && r.value.values == LoadedValues(fl, env, inputFilename, present, contents).value
  {
    var path := InputPath(fl, env, inputFilename);
    if !present(path) {
      r := New(fl, env, map[OutputFile := VPath(path)]);
      return;
    }
    if contents.Err? {
      return Err(contents.error);
    }
    if !contents.value.VDict? {
      return Err(AttributeError);
    }
    var m := contents.value.entries;
    LoadReadsObject(fl, env, inputFilename, present, m);
    var kwargs := Known(fl, m);
    if OutputFile in kwargs {
      return Err(TypeError);
    }
    r := New(fl, env, Arguments(fl, m, path));
    if r.Err? {
      return;
    }
    var s := r.value;
    var f := s.FixTemplatePaths(present);
    if f.Err? {
      return Err(f.error);
    }
  }
}
