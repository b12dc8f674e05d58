/**
 * The compiled-prefab Settings class of the splitguides.settings package:
 * every keyword of a JSON file goes to the constructor, whose converters turn
 * the folders and the output file into paths and the hotkey entries into
 * hotkeys; load then resets the desktop template and css pairs when their
 * full paths do not exist, and the server template and static pairs when
 * their folders do not.
 *
 * The module constants computed at import are an `Env` parameter; whether a
 * path exists is a predicate parameter, and reading and decoding the file is
 * the `contents` parameter.
 */
module CompiledSettings {
  import opened Wrappers
  import opened Errors
  import opened SettingsCommon

  /** The module constants the import computes from the platform. */
  datatype Env = Env(settingsFile: string, templateFolder: string, staticFolder: string, userPath: string, localHostname: string)

  /**
   * The import: settings.json, the templates and the static folder sit in
   * the package's base folder, the notes folder is the user's Documents
   * folder, and the host name falls back to the loopback address when the
   * lookup raises anything.
   */
  function ImportEnv(basePath: string, home: string, hostname: Result<string, Exc>): (env: Env)
    ensures env.templateFolder != env.staticFolder
    ensures hostname.Err? ==> env.localHostname == "127.0.0.1"
    ensures hostname.Ok? ==> env.localHostname == hostname.value
  {
    var templates := Div(basePath, "templates");
    var statics := Div(basePath, "static");
    assert |templates| != |statics|;
    Env(Div(basePath, "settings.json"), templates, statics, Div(home, "Documents"),
        if hostname.Ok? then hostname.value else "127.0.0.1")
  }

  /** The class's attributes: all but the timer choice and the window transparency. */
  predicate Attribute(f: Field)
  {
    f != Timer && f != Transparency
  }

  /** A settings object's attributes: exactly the class's. */
  predicate OfClass(v: map<Field, Value>)
  {
    forall f :: f in v <==> Attribute(f)
  }

  /** Keyword arguments the constructor accepts. */
  predicate Keywords(kwargs: map<Field, Value>)
  {
    forall f :: f in kwargs ==> Attribute(f)
  }

  /** Each attribute's default. */
  function Default(env: Env, f: Field): Value
  {
    match f
    case OutputFile => VPath(env.settingsFile)
    case Hostname => VStr("localhost")
    case Port => VInt(16834)
    case SplitSeparator => VStr("")
    case PreviousSplits => VInt(0)
    case NextSplits => VInt(2)
    case FontSize => VInt(20)
    case FontColor => VStr("#000000")
    case BackgroundColor => VStr("#f1f8ff")
    case HtmlTemplateFolder => VPath(env.templateFolder)
    case HtmlTemplateFile => VStr("desktop.html")
    case CssFolder => VPath(env.staticFolder)
    case CssFile => VStr("desktop.css")
    case OnTop => VBool(false)
    case Width => VInt(800)
    case Height => VInt(800)
    case NotesFolder => VStr(env.userPath)
    case HotkeysEnabled => VBool(false)
    case IncreaseOffsetHotkey => VNone
    case DecreaseOffsetHotkey => VNone
    case ServerPreviousSplits => VInt(0)
    case ServerNextSplits => VInt(0)
    case ServerHostname => VStr(env.localHostname)
    case ServerPort => VInt(14250)
    case ServerTemplateFolder => VPath(env.templateFolder)
    case ServerHtmlTemplateFile => VStr("server.html")
    case ServerStaticFolder => VPath(env.staticFolder)
    case ServerCssFile => VStr("server.css")
    case _ => VNone
  }

  /** The defaults of the class's attributes. */
  function Defaults(env: Env): map<Field, Value>
  {
    map f | Attribute(f) :: Default(env, f)
  }

  /** The attributes with a converter. */
  predicate Converted(f: Field)
  {
    f == OutputFile || f == HtmlTemplateFolder || f == CssFolder || f == IncreaseOffsetHotkey || f == DecreaseOffsetHotkey
    || f == ServerTemplateFolder || f == ServerStaticFolder
  }

  /** The attribute map holds every attribute with a converter. */
  predicate HasConverted(v: map<Field, Value>)
  {
    OutputFile in v && HtmlTemplateFolder in v && CssFolder in v && IncreaseOffsetHotkey in v && DecreaseOffsetHotkey in v
    && ServerTemplateFolder in v && ServerStaticFolder in v
  }

  /** The attribute map holds the four folder and file pairs load checks. */
  predicate HasTemplatePaths(v: map<Field, Value>)
  {
    HtmlTemplateFolder in v && HtmlTemplateFile in v && CssFolder in v && CssFile in v
    && ServerTemplateFolder in v && ServerHtmlTemplateFile in v && ServerStaticFolder in v && ServerCssFile in v
  }

  /**
   * The converters of the desktop attributes, in attribute order: Path on
   * the output file and the two folders, the hotkeys package's
   * hotkey_or_none on the two hotkey entries.
   */
  function DesktopConverted(v: map<Field, Value>): (r: Result<map<Field, Value>, Exc>)
    requires HasConverted(v)
    ensures r.Ok? ==> SameKeys(r.value, v) && HasConverted(r.value)
  {
    var o := ToPath(v[OutputFile]);
    var t := ToPath(v[HtmlTemplateFolder]);
    var c := ToPath(v[CssFolder]);
    var i := DefaultedHotkeyOrNone(v[IncreaseOffsetHotkey]);
    var d := DefaultedHotkeyOrNone(v[DecreaseOffsetHotkey]);
    if o.Err? then Err(o.error)
    else if t.Err? then Err(t.error)
    else if c.Err? then Err(c.error)
    else if i.Err? then Err(i.error)
    else if d.Err? then Err(d.error)
    else Ok(v[OutputFile := o.value][HtmlTemplateFolder := t.value][CssFolder := c.value]
             [IncreaseOffsetHotkey := i.value][DecreaseOffsetHotkey := d.value])
  }

  /** The converters of the server folders, which come last: Path on both. */
  function ServerConverted(v: map<Field, Value>): (r: Result<map<Field, Value>, Exc>)
    requires ServerTemplateFolder in v && ServerStaticFolder in v
    ensures r.Ok? ==> SameKeys(r.value, v)
  {
    var st := ToPath(v[ServerTemplateFolder]);
    var ss := ToPath(v[ServerStaticFolder]);
    if st.Err? then Err(st.error)
    else if ss.Err? then Err(ss.error)
    else Ok(v[ServerTemplateFolder := st.value][ServerStaticFolder := ss.value])
  }

  /** All seven converters, in attribute order. */
  function ConvertedValues(v: map<Field, Value>): (r: Result<map<Field, Value>, Exc>)
    requires HasConverted(v)
    ensures r.Ok? ==> SameKeys(r.value, v)
  {
    match DesktopConverted(v)
    case Err(e) => Err(e)
    case Ok(w) => ServerConverted(w)
  }

  /** `Settings(**kwargs)`: the defaults overridden by the keyword arguments, then the converters. */
  function Construct(env: Env, kwargs: map<Field, Value>): (r: Result<map<Field, Value>, Exc>)
    requires Keywords(kwargs)
    ensures r.Ok? ==> OfClass(r.value) && HasTemplatePaths(r.value)
  {
    ArgumentKeys(env, kwargs);
    match ConvertedValues(Defaults(env) + kwargs)
    case Err(e) => Err(e)
    case Ok(v) => SameKeysOfClass(v, Defaults(env) + kwargs); Ok(v)
  }

  /** A map with the keys of a settings object is one, and holds the four pairs. */
  lemma SameKeysOfClass(a: map<Field, Value>, b: map<Field, Value>)
    requires SameKeys(a, b) && OfClass(b)
    ensures OfClass(a) && HasTemplatePaths(a)
  {
  }

  /** The constructor's arguments cover every attribute, the converted ones among them. */
  lemma ArgumentKeys(env: Env, kwargs: map<Field, Value>)
    requires Keywords(kwargs)
    ensures OfClass(Defaults(env) + kwargs)
    ensures HasConverted(Defaults(env) + kwargs)
  {
  }

  /** An attribute without a converter is its keyword argument when one is given, and its default otherwise. */
  lemma ConstructKeeps(env: Env, kwargs: map<Field, Value>, f: Field)
    requires Keywords(kwargs)
    requires Construct(env, kwargs).Ok?
    requires Attribute(f) && !Converted(f)
    ensures Construct(env, kwargs).value[f] == if f in kwargs then kwargs[f] else Default(env, f)
  {
    ArgumentKeys(env, kwargs);
    var args := Defaults(env) + kwargs;
    ConvertKeeps(args, f);
    assert args[f] == if f in kwargs then kwargs[f] else Default(env, f);
  }

  /** The converters succeed exactly when the five paths are strings or paths and the hotkey entries are accepted. */
  lemma ConvertSucceeds(v: map<Field, Value>)
    requires HasConverted(v)
    ensures ConvertedValues(v).Ok? <==>
      (v[OutputFile].VStr? || v[OutputFile].VPath?)
      && (v[HtmlTemplateFolder].VStr? || v[HtmlTemplateFolder].VPath?)
      && (v[CssFolder].VStr? || v[CssFolder].VPath?)
      && DefaultedHotkeyOrNone(v[IncreaseOffsetHotkey]).Ok? && DefaultedHotkeyOrNone(v[DecreaseOffsetHotkey]).Ok?
      && (v[ServerTemplateFolder].VStr? || v[ServerTemplateFolder].VPath?)
      && (v[ServerStaticFolder].VStr? || v[ServerStaticFolder].VPath?)
  {
    var d := DesktopConverted(v);
    if d.Ok? {
      assert d.value[ServerTemplateFolder] == v[ServerTemplateFolder];
      assert d.value[ServerStaticFolder] == v[ServerStaticFolder];
    }
  }

  /** The converters leave an attribute without a converter as given. */
  lemma ConvertKeeps(v: map<Field, Value>, f: Field)
    requires HasConverted(v) && ConvertedValues(v).Ok?
    requires f in v && !Converted(f)
    ensures ConvertedValues(v).value[f] == v[f]
  {
    var d := DesktopConverted(v).value;
    assert d[f] == v[f];
  }

  /** After the converters the five paths are Path instances and the hotkey entries None or a Hotkey. */
  lemma ConvertConverts(v: map<Field, Value>)
    requires HasConverted(v) && ConvertedValues(v).Ok?
    ensures var w := ConvertedValues(v).value;
      && w[OutputFile].VPath? && w[HtmlTemplateFolder].VPath? && w[CssFolder].VPath?
      && w[ServerTemplateFolder].VPath? && w[ServerStaticFolder].VPath?
      && IsHotkeySetting(w[IncreaseOffsetHotkey]) && IsHotkeySetting(w[DecreaseOffsetHotkey])
      && (!Truthy(v[IncreaseOffsetHotkey]) ==> w[IncreaseOffsetHotkey] == VNone)
      && (!Truthy(v[DecreaseOffsetHotkey]) ==> w[DecreaseOffsetHotkey] == VNone)
  {
    var d := DesktopConverted(v).value;
    var w := ConvertedValues(v).value;
    assert w == ServerConverted(d).value;
    assert w[OutputFile] == d[OutputFile] && w[HtmlTemplateFolder] == d[HtmlTemplateFolder] && w[CssFolder] == d[CssFolder];
    assert w[IncreaseOffsetHotkey] == d[IncreaseOffsetHotkey] && w[DecreaseOffsetHotkey] == d[DecreaseOffsetHotkey];
  }

  /** A hotkey entry naming only the key, `{"name": "f1"}`, constructs a Hotkey whose scancodes are None. */
  lemma ConstructPartialHotkey(env: Env)
    ensures var kwargs := map[IncreaseOffsetHotkey := VDict(map["name" := VStr("f1")])];
      && Construct(env, kwargs).Ok?
      && Construct(env, kwargs).value[IncreaseOffsetHotkey] == VHotkey(VNone, VStr("f1"))
  {
    var kwargs := map[IncreaseOffsetHotkey := VDict(map["name" := VStr("f1")])];
    var d := Defaults(env);
    DefaultsConverted(env);
    OneArgument(d, IncreaseOffsetHotkey, kwargs[IncreaseOffsetHotkey]);
    ConvertPartialHotkey(d[IncreaseOffsetHotkey := kwargs[IncreaseOffsetHotkey]]);
    ConstructConverts(env, kwargs);
  }

  /** One keyword argument overrides its attribute's default and nothing else. */
  lemma OneArgument(d: map<Field, Value>, f: Field, x: Value)
    ensures d + map[f := x] == d[f := x]
  {
  }

  /** The constructor is the converters applied to the defaults overridden by the arguments. */
  lemma ConstructConverts(env: Env, kwargs: map<Field, Value>)
    requires Keywords(kwargs)
    ensures HasConverted(Defaults(env) + kwargs)
    ensures Construct(env, kwargs) == ConvertedValues(Defaults(env) + kwargs)
  {
    ArgumentKeys(env, kwargs);
  }

  /** With the paths already paths, the converters turn `{"name": "f1"}` into that Hotkey and change nothing else. */
  lemma ConvertPartialHotkey(a: map<Field, Value>)
    requires HasConverted(a)
    requires a[OutputFile].VPath? && a[HtmlTemplateFolder].VPath? && a[CssFolder].VPath?
    requires a[ServerTemplateFolder].VPath? && a[ServerStaticFolder].VPath?
    requires a[IncreaseOffsetHotkey] == VDict(map["name" := VStr("f1")]) && a[DecreaseOffsetHotkey] == VNone
    ensures ConvertedValues(a) == Ok(a[IncreaseOffsetHotkey := VHotkey(VNone, VStr("f1"))])
  {
    DefaultedExtendsExact(VNone);
    ConvertsTo(a, a[IncreaseOffsetHotkey := VHotkey(VNone, VStr("f1"))]);
  }

  /** The folder and file pair reset to the given defaults unless the checked path exists. */
  function ResetUnless(v: map<Field, Value>, found: bool, folder: Field, folderDefault: Value, file: Field, fileDefault: Value): map<Field, Value>
  {
    if found then v else v[folder := folderDefault][file := fileDefault]
  }

  /**
   * The first two checks: the full template path, then the full css path;
   * each missing one resets its folder and file to the desktop defaults. A
   * pair that cannot be joined into a path raises TypeError.
   */
  function FixedDesktop(env: Env, v: map<Field, Value>, present: string -> bool): (r: Result<map<Field, Value>, Exc>)
    requires HasTemplatePaths(v)
    ensures r.Ok? <==> JoinPath(v[HtmlTemplateFolder], v[HtmlTemplateFile]).Ok? && JoinPath(v[CssFolder], v[CssFile]).Ok?
    ensures r.Ok? ==> SameKeys(r.value, v) && HasTemplatePaths(r.value)
  {
    var t := JoinPath(v[HtmlTemplateFolder], v[HtmlTemplateFile]);
    if t.Err? then Err(t.error)
    else
      var v1 := ResetUnless(v, present(t.value), HtmlTemplateFolder, VPath(env.templateFolder), HtmlTemplateFile, VStr("desktop.html"));
      var c := JoinPath(v1[CssFolder], v1[CssFile]);
      if c.Err? then Err(c.error)
      else Ok(ResetUnless(v1, present(c.value), CssFolder, VPath(env.staticFolder), CssFile, VStr("desktop.css")))
  }

  /**
   * The last two checks, on the server template folder and then the server
   * static folder alone; each missing one resets its folder and file.
   */
  function FixedServer(env: Env, v: map<Field, Value>, present: string -> bool): (r: Result<map<Field, Value>, Exc>)
    requires HasTemplatePaths(v)
    ensures r.Ok? <==> ToPath(v[ServerTemplateFolder]).Ok? && ToPath(v[ServerStaticFolder]).Ok?
    ensures r.Ok? ==> SameKeys(r.value, v)
  {
    var st := ToPath(v[ServerTemplateFolder]);
    if st.Err? then Err(st.error)
    else
      var v1 := ResetUnless(v, present(st.value.path), ServerTemplateFolder, VPath(env.templateFolder), ServerHtmlTemplateFile, VStr("server.html"));
      var ss := ToPath(v1[ServerStaticFolder]);
      if ss.Err? then Err(ss.error)
      else Ok(ResetUnless(v1, present(ss.value.path), ServerStaticFolder, VPath(env.staticFolder), ServerCssFile, VStr("server.css")))
  }

  /** The four checks load makes, in order. */
  function FixedPaths(env: Env, v: map<Field, Value>, present: string -> bool): (r: Result<map<Field, Value>, Exc>)
    requires HasTemplatePaths(v)
    ensures r.Ok? ==> SameKeys(r.value, v)
  {
    match FixedDesktop(env, v, present)
    case Err(e) => Err(e)
    case Ok(w) => FixedServer(env, w, present)
  }

  /** The eight attributes load may reset. */
  predicate Checked(f: Field)
  {
    f == HtmlTemplateFolder || f == HtmlTemplateFile || f == CssFolder || f == CssFile
    || f == ServerTemplateFolder || f == ServerHtmlTemplateFile || f == ServerStaticFolder || f == ServerCssFile
  }

  /** The checks change nothing but the four folder and file pairs. */
  lemma FixedPathsSpec(env: Env, v: map<Field, Value>, present: string -> bool, f: Field)
    requires HasTemplatePaths(v) && FixedPaths(env, v, present).Ok?
    requires f in v && !Checked(f)
    ensures FixedPaths(env, v, present).value[f] == v[f]
  {
    var d := FixedDesktop(env, v, present).value;
    assert d[f] == v[f];
  }

  /** The checks succeed exactly when both desktop pairs join into paths and both server folders are paths or strings. */
  lemma FixedPathsSucceed(env: Env, v: map<Field, Value>, present: string -> bool)
    requires HasTemplatePaths(v)
    ensures FixedPaths(env, v, present).Ok? <==>
      JoinPath(v[HtmlTemplateFolder], v[HtmlTemplateFile]).Ok? && JoinPath(v[CssFolder], v[CssFile]).Ok?
      && ToPath(v[ServerTemplateFolder]).Ok? && ToPath(v[ServerStaticFolder]).Ok?
  {
    var d := FixedDesktop(env, v, present);
    if d.Ok? {
      assert d.value[ServerTemplateFolder] == v[ServerTemplateFolder];
      assert d.value[ServerStaticFolder] == v[ServerStaticFolder];
    }
  }

  /**
   * The template pair is reset to the desktop defaults exactly when the full
   * template path does not exist, and the css pair exactly when the full css
   * path does not, independently of each other.
   */
  lemma FixedDesktopPaths(env: Env, v: map<Field, Value>, present: string -> bool)
    requires HasTemplatePaths(v) && FixedPaths(env, v, present).Ok?
    ensures var w := FixedPaths(env, v, present).value;
      var t := JoinPath(v[HtmlTemplateFolder], v[HtmlTemplateFile]).value;
      var c := JoinPath(v[CssFolder], v[CssFile]).value;
      && (present(t) ==> w[HtmlTemplateFolder] == v[HtmlTemplateFolder] && w[HtmlTemplateFile] == v[HtmlTemplateFile])
      && (!present(t) ==> w[HtmlTemplateFolder] == VPath(env.templateFolder) && w[HtmlTemplateFile] == VStr("desktop.html"))
      && (present(c) ==> w[CssFolder] == v[CssFolder] && w[CssFile] == v[CssFile])
      && (!present(c) ==> w[CssFolder] == VPath(env.staticFolder) && w[CssFile] == VStr("desktop.css"))
  {
    var d := FixedDesktop(env, v, present).value;
    var w := FixedServer(env, d, present).value;
    assert w[HtmlTemplateFolder] == d[HtmlTemplateFolder] && w[HtmlTemplateFile] == d[HtmlTemplateFile];
    assert w[CssFolder] == d[CssFolder] && w[CssFile] == d[CssFile];
  }

  /**
   * The server pairs are checked on their folder alone: the template pair is
   * reset exactly when the server template folder does not exist, whatever
   * the file, and the static pair exactly when the static folder does not.
   */
  lemma FixedServerPaths(env: Env, v: map<Field, Value>, present: string -> bool)
    requires HasTemplatePaths(v) && FixedPaths(env, v, present).Ok?
    ensures ToPath(v[ServerTemplateFolder]).Ok? && ToPath(v[ServerStaticFolder]).Ok?
    ensures var w := FixedPaths(env, v, present).value;
      var st := ToPath(v[ServerTemplateFolder]).value.path;
      var ss := ToPath(v[ServerStaticFolder]).value.path;
      && (present(st) ==> w[ServerTemplateFolder] == v[ServerTemplateFolder] && w[ServerHtmlTemplateFile] == v[ServerHtmlTemplateFile])
      && (!present(st) ==> w[ServerTemplateFolder] == VPath(env.templateFolder) && w[ServerHtmlTemplateFile] == VStr("server.html"))
      && (present(ss) ==> w[ServerStaticFolder] == v[ServerStaticFolder] && w[ServerCssFile] == v[ServerCssFile])
      && (!present(ss) ==> w[ServerStaticFolder] == VPath(env.staticFolder) && w[ServerCssFile] == VStr("server.css"))
  {
    var d := FixedDesktop(env, v, present).value;
    assert d[ServerTemplateFolder] == v[ServerTemplateFolder] && d[ServerHtmlTemplateFile] == v[ServerHtmlTemplateFile];
    assert d[ServerStaticFolder] == v[ServerStaticFolder] && d[ServerCssFile] == v[ServerCssFile];
  }

  /** Every key of the file names an attribute of the class. */
  predicate Accepted(m: map<string, Value>)
  {
    forall k :: k in m ==> k in Names()
  }

  /** The names of the class's attributes: the keywords its constructor takes. */
  function Names(): set<string>
  {
    set f | Attribute(f) :: FieldName(f)
  }

  /** The file's entries as keyword arguments. */
  function Entries(m: map<string, Value>): (k: map<Field, Value>)
    ensures Keywords(k)
  {
    map f | Attribute(f) && FieldName(f) in m :: m[FieldName(f)]
  }

  /** Every entry of an accepted file reaches the constructor under its attribute: nothing is filtered. */
  lemma EntriesSpec(m: map<string, Value>)
    requires Accepted(m)
    ensures forall k :: k in m ==> exists f :: f in Entries(m) && FieldName(f) == k && Entries(m)[f] == m[k]
    ensures forall f :: f in Entries(m) ==> FieldName(f) in m
  {
  }

  /** The keyword arguments load passes: the file's entries, and output_file. */
  function Arguments(m: map<string, Value>, output: Value): (a: map<Field, Value>)
    ensures Keywords(a) && OutputFile in a
  {
    Entries(m)[OutputFile := output]
  }

  /** The value load passes as output_file: the given name, or the settings file. */
  function OutputArgument(env: Env, inputFilename: Option<string>): Value
  {
    if inputFilename.None? then VPath(env.settingsFile) else VStr(inputFilename.value)
  }

  /** The path load checks and reads. */
  function InputPath(env: Env, inputFilename: Option<string>): string
  {
    if inputFilename.None? then env.settingsFile else inputFilename.value
  }

  /**
   * load: a missing file gives the defaults with output_file set to the
   * input; otherwise every key of the decoded object goes to the constructor
   * beside output_file, and the four pairs are checked.
   */
  function LoadedValues(env: Env, inputFilename: Option<string>, present: string -> bool, contents: Result<Value, Exc>): (r: Result<map<Field, Value>, Exc>)
    ensures r.Ok? ==> OfClass(r.value)
  {
    if !present(InputPath(env, inputFilename)) then Construct(env, map[OutputFile := OutputArgument(env, inputFilename)])
    else match contents
      case Err(e) => Err(e)
      case Ok(VDict(m)) => FromObject(env, OutputArgument(env, inputFilename), present, m)
      case Ok(_) => Err(TypeError)
  }

  /** load once the file decoded to an object `m`: a repeated output_file or an unknown keyword raises TypeError. */
  function FromObject(env: Env, output: Value, present: string -> bool, m: map<string, Value>): (r: Result<map<Field, Value>, Exc>)
    ensures r.Ok? ==> OfClass(r.value)
  {
    if "output_file" in m || !Accepted(m) then Err(TypeError)
    else
      match Construct(env, Arguments(m, output))
      case Err(e) => Err(e)
      case Ok(v) => FixedPaths(env, v, present)
  }

  /** The defaults of the converted attributes are already converted: paths are Path instances, no hotkey is set. */
  lemma DefaultsConverted(env: Env)
    ensures ConvertedState(Defaults(env)) && Defaults(env)[OutputFile] == VPath(env.settingsFile)
  {
    DesktopDefaults(env);
    ServerDefaults(env);
  }

  /** The defaults of output_file, the desktop folders and the hotkeys. */
  lemma DesktopDefaults(env: Env)
    ensures OutputFile in Defaults(env) && Defaults(env)[OutputFile] == VPath(env.settingsFile)
    ensures HtmlTemplateFolder in Defaults(env) && Defaults(env)[HtmlTemplateFolder].VPath?
    ensures CssFolder in Defaults(env) && Defaults(env)[CssFolder].VPath?
    ensures IncreaseOffsetHotkey in Defaults(env) && Defaults(env)[IncreaseOffsetHotkey] == VNone
    ensures DecreaseOffsetHotkey in Defaults(env) && Defaults(env)[DecreaseOffsetHotkey] == VNone
  {
    DefaultAt(env, OutputFile);
    DefaultAt(env, HtmlTemplateFolder);
    DefaultAt(env, CssFolder);
    DefaultAt(env, IncreaseOffsetHotkey);
    DefaultAt(env, DecreaseOffsetHotkey);
  }

  /** The defaults of the server folders are paths. */
  lemma ServerDefaults(env: Env)
    ensures ServerTemplateFolder in Defaults(env) && Defaults(env)[ServerTemplateFolder].VPath?
    ensures ServerStaticFolder in Defaults(env) && Defaults(env)[ServerStaticFolder].VPath?
  {
    DefaultAt(env, ServerTemplateFolder);
    DefaultAt(env, ServerStaticFolder);
  }

  /** Every attribute has its default among the defaults. */
  lemma DefaultAt(env: Env, f: Field)
    requires Attribute(f)
    ensures f in Defaults(env) && Defaults(env)[f] == Default(env, f)
  {
  }

  /** The desktop converters, given what each of them yields. */
  lemma DesktopConvertsTo(a: map<Field, Value>, o: Value, t: Value, c: Value, i: Value, d: Value)
    requires HasConverted(a)
    requires ToPath(a[OutputFile]) == Ok(o) && ToPath(a[HtmlTemplateFolder]) == Ok(t) && ToPath(a[CssFolder]) == Ok(c)
    requires DefaultedHotkeyOrNone(a[IncreaseOffsetHotkey]) == Ok(i) && DefaultedHotkeyOrNone(a[DecreaseOffsetHotkey]) == Ok(d)
    ensures DesktopConverted(a) == Ok(a[OutputFile := o][HtmlTemplateFolder := t][CssFolder := c][IncreaseOffsetHotkey := i][DecreaseOffsetHotkey := d])
  {
  }

  /** The server converters, given what each of them yields. */
  lemma ServerConvertsTo(d: map<Field, Value>, st: Value, ss: Value)
    requires ServerTemplateFolder in d && ServerStaticFolder in d
    requires ToPath(d[ServerTemplateFolder]) == Ok(st) && ToPath(d[ServerStaticFolder]) == Ok(ss)
    ensures ServerConverted(d) == Ok(d[ServerTemplateFolder := st][ServerStaticFolder := ss])
  {
  }

  /** Two maps with the same attributes that agree off the converted ones agree once those are set alike. */
  lemma ConvertedAgree(a: map<Field, Value>, u: map<Field, Value>)
    requires SameKeys(a, u) && HasConverted(a) && HasConverted(u)
    requires forall f :: f in a && !Converted(f) ==> a[f] == u[f]
    ensures a[OutputFile := u[OutputFile]][HtmlTemplateFolder := u[HtmlTemplateFolder]][CssFolder := u[CssFolder]]
      [IncreaseOffsetHotkey := u[IncreaseOffsetHotkey]][DecreaseOffsetHotkey := u[DecreaseOffsetHotkey]]
      [ServerTemplateFolder := u[ServerTemplateFolder]][ServerStaticFolder := u[ServerStaticFolder]] == u
  {
    var w := a[OutputFile := u[OutputFile]][HtmlTemplateFolder := u[HtmlTemplateFolder]][CssFolder := u[CssFolder]]
      [IncreaseOffsetHotkey := u[IncreaseOffsetHotkey]][DecreaseOffsetHotkey := u[DecreaseOffsetHotkey]]
      [ServerTemplateFolder := u[ServerTemplateFolder]][ServerStaticFolder := u[ServerStaticFolder]];
    assert w.Keys == u.Keys;
    forall f | f in u
      ensures w[f] == u[f]
    {
      if !Converted(f) {
        assert w[f] == a[f];
      }
    }
  }

  /**
   * The converters turn `a` into `u` when each converter maps its attribute
   * of `a` to that of `u`, and `a` and `u` agree on every other attribute.
   */
  lemma ConvertsTo(a: map<Field, Value>, u: map<Field, Value>)
    requires SameKeys(a, u) && HasConverted(a) && HasConverted(u)
    requires ToPath(a[OutputFile]) == Ok(u[OutputFile])
    requires ToPath(a[HtmlTemplateFolder]) == Ok(u[HtmlTemplateFolder]) && ToPath(a[CssFolder]) == Ok(u[CssFolder])
    requires DefaultedHotkeyOrNone(a[IncreaseOffsetHotkey]) == Ok(u[IncreaseOffsetHotkey])
    requires DefaultedHotkeyOrNone(a[DecreaseOffsetHotkey]) == Ok(u[DecreaseOffsetHotkey])
    requires ToPath(a[ServerTemplateFolder]) == Ok(u[ServerTemplateFolder]) && ToPath(a[ServerStaticFolder]) == Ok(u[ServerStaticFolder])
    requires forall f :: f in a && !Converted(f) ==> a[f] == u[f]
    ensures ConvertedValues(a) == Ok(u)
  {
    var d := a[OutputFile := u[OutputFile]][HtmlTemplateFolder := u[HtmlTemplateFolder]][CssFolder := u[CssFolder]]
      [IncreaseOffsetHotkey := u[IncreaseOffsetHotkey]][DecreaseOffsetHotkey := u[DecreaseOffsetHotkey]];
    DesktopConvertsTo(a, u[OutputFile], u[HtmlTemplateFolder], u[CssFolder], u[IncreaseOffsetHotkey], u[DecreaseOffsetHotkey]);
    assert DesktopConverted(a) == Ok(d);
    assert d[ServerTemplateFolder] == a[ServerTemplateFolder] && d[ServerStaticFolder] == a[ServerStaticFolder];
    ServerConvertsTo(d, u[ServerTemplateFolder], u[ServerStaticFolder]);
    ConvertedAgree(a, u);
    assert ConvertedValues(a) == ServerConverted(d);
  }

  /**
   * Without a file, every attribute has its default except output_file,
   * which is the input as a path; nothing is checked.
   */
  lemma LoadMissingFile(env: Env, inputFilename: Option<string>, present: string -> bool, contents: Result<Value, Exc>)
    requires !present(InputPath(env, inputFilename))
    ensures LoadedValues(env, inputFilename, present, contents) == Ok(Defaults(env)[OutputFile := VPath(InputPath(env, inputFilename))])
    ensures inputFilename.None? ==> LoadedValues(env, inputFilename, present, contents) == Ok(Defaults(env))
  {
    var path := InputPath(env, inputFilename);
    var d := Defaults(env);
    var a := map[OutputFile := OutputArgument(env, inputFilename)];
    DefaultsConverted(env);
    var u := d[OutputFile := a[OutputFile]];
    assert d + a == u;
    assert DefaultedHotkeyOrNone(VNone) == Ok(VNone);
    ConvertsTo(u, d[OutputFile := VPath(path)]);
    if inputFilename.None? {
      assert d[OutputFile := VPath(path)] == d;
    }
  }

  /**
   * An existing file is rejected with TypeError when it is not an object,
   * when it names output_file, or when it has a key that is not an attribute.
   */
  lemma LoadRejects(env: Env, inputFilename: Option<string>, present: string -> bool, m: map<string, Value>, other: Value, k: string)
    requires present(InputPath(env, inputFilename)) && !other.VDict?
    ensures LoadedValues(env, inputFilename, present, Ok(other)) == Err(TypeError)
    ensures "output_file" in m ==> LoadedValues(env, inputFilename, present, Ok(VDict(m))) == Err(TypeError)
    ensures k in m && k !in Names() ==>
      LoadedValues(env, inputFilename, present, Ok(VDict(m))) == Err(TypeError)
  {
  }

  /** The attributes load takes from the file as they are: neither converted nor checked. */
  predicate Kept(f: Field)
  {
    !Converted(f) && !Checked(f)
  }

  /** From a decoded object, every kept attribute is the object's value when it has the key, and the default otherwise. */
  lemma FromObjectKeepsValues(env: Env, output: Value, present: string -> bool, m: map<string, Value>, f: Field)
    requires FromObject(env, output, present, m).Ok?
    requires Attribute(f) && Kept(f)
    ensures FromObject(env, output, present, m).value[f] == if FieldName(f) in m then m[FieldName(f)] else Default(env, f)
  {
    var a := Arguments(m, output);
    FromObjectSteps(env, output, present, m);
    ArgumentsSpec(m, output, f);
    ConstructKeeps(env, a, f);
    FixedPathsSpec(env, Construct(env, a).value, present, f);
  }

  /** A successful load from an object is the checks applied to what the constructor built from its entries. */
  lemma FromObjectSteps(env: Env, output: Value, present: string -> bool, m: map<string, Value>)
    requires FromObject(env, output, present, m).Ok?
    ensures Construct(env, Arguments(m, output)).Ok?
    ensures FromObject(env, output, present, m) == FixedPaths(env, Construct(env, Arguments(m, output)).value, present)
  {
  }

  /** An attribute other than output_file is an argument exactly when the object has its name, with the object's value. */
  lemma ArgumentsSpec(m: map<string, Value>, output: Value, f: Field)
    requires Attribute(f) && f != OutputFile
    ensures f in Arguments(m, output) <==> FieldName(f) in m
    ensures f in Arguments(m, output) ==> Arguments(m, output)[f] == m[FieldName(f)]
  {
  }

  /** Every kept attribute is the file's value when the file has its key, and the default otherwise. */
  lemma LoadKeepsValues(env: Env, inputFilename: Option<string>, present: string -> bool, m: map<string, Value>, f: Field)
    requires present(InputPath(env, inputFilename))
    requires LoadedValues(env, inputFilename, present, Ok(VDict(m))).Ok?
    requires Attribute(f) && Kept(f)
    ensures LoadedValues(env, inputFilename, present, Ok(VDict(m))).value[f]
      == if FieldName(f) in m then m[FieldName(f)] else Default(env, f)
  {
    FromObjectKeepsValues(env, OutputArgument(env, inputFilename), present, m, f);
  }

  /**
   * What save writes, through to_json and the hook: every attribute but
   * output_file under its name, a path as its string, a hotkey as the dict
   * of its two fields, and any other value as it is.
   */
  lemma SaveSpec(v: map<Field, Value>)
    ensures forall f :: FieldName(f) in Saved(v) <==> f in v && f != OutputFile
    ensures forall f :: f in v && f != OutputFile && v[f].VPath? ==> Saved(v)[FieldName(f)] == VStr(v[f].path)
    ensures forall f :: f in v && f != OutputFile && v[f].VHotkey? ==>
      Saved(v)[FieldName(f)] == VDict(map["scancodes" := v[f].scancodes, "name" := v[f].name])
    ensures forall f :: f in v && f != OutputFile && IsPlain(v[f]) ==> Saved(v)[FieldName(f)] == v[f]
  {
    SavedSpec(v);
  }

  /** The converted attributes as the constructor leaves them: the four folders Path instances, each hotkey None or a Hotkey. */
  predicate ConvertedState(v: map<Field, Value>)
  {
    && HasConverted(v)
    && v[HtmlTemplateFolder].VPath? && v[CssFolder].VPath? && v[ServerTemplateFolder].VPath? && v[ServerStaticFolder].VPath?
    && IsHotkeySetting(v[IncreaseOffsetHotkey]) && IsHotkeySetting(v[DecreaseOffsetHotkey])
  }

  /** Every attribute without a converter holds a value the save hook leaves alone. */
  predicate PlainElsewhere(v: map<Field, Value>)
  {
    forall f :: f in v && !Converted(f) ==> IsPlain(v[f])
  }

  /** The state a loaded settings object is in: every path a Path, each hotkey None or a Hotkey, the rest plain values. */
  predicate WellFormed(v: map<Field, Value>)
  {
    OfClass(v) && ConvertedState(v) && v[OutputFile].VPath? && PlainElsewhere(v)
  }

  /** The four paths load checks exist. */
  predicate PathsExist(v: map<Field, Value>, present: string -> bool)
    requires HasTemplatePaths(v)
  {
    var t := JoinPath(v[HtmlTemplateFolder], v[HtmlTemplateFile]);
    var c := JoinPath(v[CssFolder], v[CssFile]);
    && t.Ok? && c.Ok? && present(t.value) && present(c.value)
    && v[ServerTemplateFolder].VPath? && v[ServerStaticFolder].VPath?
    && present(v[ServerTemplateFolder].path) && present(v[ServerStaticFolder].path)
  }

  /** When the four paths exist, the checks change nothing. */
  lemma FixedPathsWhenPresent(env: Env, v: map<Field, Value>, present: string -> bool)
    requires HasTemplatePaths(v) && PathsExist(v, present)
    ensures FixedPaths(env, v, present) == Ok(v)
  {
  }

  /** A saved object is accepted: its keys are the attributes but output_file. */
  lemma SavedAccepted(v: map<Field, Value>)
    requires OfClass(v)
    ensures Accepted(Saved(v)) && "output_file" !in Saved(v)
    ensures forall f :: f in Entries(Saved(v)) <==> f in v && f != OutputFile
    ensures forall f :: f in Entries(Saved(v)) ==> Entries(Saved(v))[f] == Serialized(v[f])
  {
    SavedSpec(v);
    forall k | k in Saved(v)
      ensures k in Names()
    {
      var f :| f in v.Keys && f != OutputFile && FieldName(f) == k;
      assert Attribute(f);
    }
    assert FieldName(OutputFile) == "output_file";
  }

  /** What the constructor receives when a saved file is loaded with output_file `o`. */
  function Reloaded(v: map<Field, Value>, o: Value): (w: map<Field, Value>)
    ensures SameKeys(w, v)
  {
    map f | f in v :: if f == OutputFile then o else Serialized(v[f])
  }

  /** Loading a saved object passes the constructor every attribute: output_file as given, the rest as saved. */
  lemma SavedArguments(env: Env, v: map<Field, Value>, o: Value)
    requires OfClass(v)
    ensures Defaults(env) + Arguments(Saved(v), o) == Reloaded(v, o)
  {
    SavedAccepted(v);
    var a := Arguments(Saved(v), o);
    var r := Reloaded(v, o);
    assert forall f :: f in a <==> f in r;
    var u := Defaults(env) + a;
    assert forall f :: f in u <==> f in r;
    forall f | f in r
      ensures u[f] == r[f]
    {
    }
    assert u == r;
  }

  /** The converters turn what was saved back into the saved object, output_file being the path. */
  lemma ConvertReloaded(v: map<Field, Value>, o: Value, path: string)
    requires ConvertedState(v) && PlainElsewhere(v) && ToPath(o) == Ok(VPath(path))
    ensures ConvertedValues(Reloaded(v, o)) == Ok(v[OutputFile := VPath(path)])
  {
    var a := Reloaded(v, o);
    var u := v[OutputFile := VPath(path)];
    ReloadedConverters(v, o, path);
    ReloadedKept(v, o, path);
    ConvertsTo(a, u);
  }

  /** Each converter maps the saved form of its attribute back to the attribute. */
  lemma ReloadedConverters(v: map<Field, Value>, o: Value, path: string)
    requires ConvertedState(v) && ToPath(o) == Ok(VPath(path))
    ensures var a := Reloaded(v, o);
      var u := v[OutputFile := VPath(path)];
      && HasConverted(a) && HasConverted(u) && SameKeys(a, u)
      && ToPath(a[OutputFile]) == Ok(u[OutputFile])
      && ToPath(a[HtmlTemplateFolder]) == Ok(u[HtmlTemplateFolder]) && ToPath(a[CssFolder]) == Ok(u[CssFolder])
      && DefaultedHotkeyOrNone(a[IncreaseOffsetHotkey]) == Ok(u[IncreaseOffsetHotkey])
      && DefaultedHotkeyOrNone(a[DecreaseOffsetHotkey]) == Ok(u[DecreaseOffsetHotkey])
      && ToPath(a[ServerTemplateFolder]) == Ok(u[ServerTemplateFolder]) && ToPath(a[ServerStaticFolder]) == Ok(u[ServerStaticFolder])
  {
    var a := Reloaded(v, o);
    var u := v[OutputFile := VPath(path)];
    assert a.Keys == v.Keys == u.Keys;
    assert a[OutputFile] == o;
    ReloadedPath(v, o, path, HtmlTemplateFolder);
    ReloadedPath(v, o, path, CssFolder);
    ReloadedPath(v, o, path, ServerTemplateFolder);
    ReloadedPath(v, o, path, ServerStaticFolder);
    ReloadedHotkey(v, o, path, IncreaseOffsetHotkey);
    ReloadedHotkey(v, o, path, DecreaseOffsetHotkey);
  }

  /** A saved path goes back through Path to itself. */
  lemma ReloadedPath(v: map<Field, Value>, o: Value, path: string, f: Field)
    requires f in v && f != OutputFile && v[f].VPath?
    ensures f in Reloaded(v, o) && ToPath(Reloaded(v, o)[f]) == Ok(v[OutputFile := VPath(path)][f])
  {
    SerializedRoundTrip(v[f]);
  }

  /** A saved hotkey entry, None or a Hotkey, goes back through hotkey_or_none to itself. */
  lemma ReloadedHotkey(v: map<Field, Value>, o: Value, path: string, f: Field)
    requires f in v && f != OutputFile && IsHotkeySetting(v[f])
    ensures f in Reloaded(v, o) && DefaultedHotkeyOrNone(Reloaded(v, o)[f]) == Ok(v[OutputFile := VPath(path)][f])
  {
    DefaultedSerializedRoundTrip(v[f]);
  }

  /** An attribute without a converter comes back from its saved form as it was. */
  lemma ReloadedKept(v: map<Field, Value>, o: Value, path: string)
    requires PlainElsewhere(v)
    ensures forall f :: f in Reloaded(v, o) && !Converted(f) ==> Reloaded(v, o)[f] == v[OutputFile := VPath(path)][f]
  {
    forall f | f in Reloaded(v, o) && !Converted(f)
      ensures Reloaded(v, o)[f] == v[OutputFile := VPath(path)][f]
    {
      SerializedRoundTrip(v[f]);
    }
  }

  /**
   * save followed by load reproduces every attribute, hotkeys included,
   * output_file being the path it was loaded from, as long as the four
   * checked paths exist.
   */
  lemma SaveLoadRoundTrip(env: Env, v: map<Field, Value>, path: string, present: string -> bool)
    requires WellFormed(v) && PathsExist(v, present) && present(path)
    ensures LoadedValues(env, Some(path), present, Ok(VDict(Saved(v)))) == Ok(v[OutputFile := VPath(path)])
  {
    FromSavedObject(env, v, path, present);
    LoadReadsObject(env, Some(path), present, Saved(v));
  }

  /** When the file exists and decodes to an object, load is FromObject on it. */
  lemma LoadReadsObject(env: Env, inputFilename: Option<string>, present: string -> bool, m: map<string, Value>)
    requires present(InputPath(env, inputFilename))
    ensures LoadedValues(env, inputFilename, present, Ok(VDict(m))) == FromObject(env, OutputArgument(env, inputFilename), present, m)
  {
  }

  /** The object a save wrote goes back through the constructor and the checks unchanged. */
  lemma FromSavedObject(env: Env, v: map<Field, Value>, path: string, present: string -> bool)
    requires WellFormed(v) && PathsExist(v, present)
    ensures FromObject(env, VStr(path), present, Saved(v)) == Ok(v[OutputFile := VPath(path)])
  {
    var m := Saved(v);
    var o := VStr(path);
    SavedAccepted(v);
    SavedArguments(env, v, o);
    ConvertReloaded(v, o, path);
    assert Construct(env, Arguments(m, o)) == Ok(v[OutputFile := VPath(path)]);
    FixedPathsKeep(env, v, VPath(path), present);
  }

  /** Resetting output_file leaves existing paths alone, and the checks then change nothing. */
  lemma FixedPathsKeep(env: Env, v: map<Field, Value>, o: Value, present: string -> bool)
    requires HasTemplatePaths(v) && PathsExist(v, present)
    ensures FixedPaths(env, v[OutputFile := o], present) == Ok(v[OutputFile := o])
  {
    var w := v[OutputFile := o];
    assert w[HtmlTemplateFolder] == v[HtmlTemplateFolder] && w[HtmlTemplateFile] == v[HtmlTemplateFile];
    assert w[CssFolder] == v[CssFolder] && w[CssFile] == v[CssFile];
    assert w[ServerTemplateFolder] == v[ServerTemplateFolder] && w[ServerStaticFolder] == v[ServerStaticFolder];
    FixedPathsWhenPresent(env, w, present);
  }

  /** A settings object: the platform's folders and its attributes. */
  class Settings {
    const env: Env
    var values: map<Field, Value>

    predicate Valid()
      reads this
    {
      OfClass(values)
    }

    /** An object holding the attributes the constructor computed. */
    constructor (env: Env, values: map<Field, Value>)
      requires OfClass(values)
      ensures this.env == env && this.values == values && Valid()
    {
      this.env := env;
      this.values := values;
    }

    /** full_template_path: the template folder joined with the template file. */
    function FullTemplatePath(): (r: Result<string, Exc>)
      reads this
      requires HtmlTemplateFolder in values && HtmlTemplateFile in values
      ensures r.Ok? ==>
        && (values[HtmlTemplateFolder].VStr? || values[HtmlTemplateFolder].VPath?)
        && (values[HtmlTemplateFile].VStr? || values[HtmlTemplateFile].VPath?)
        && r.value == Div(Text(values[HtmlTemplateFolder]), Text(values[HtmlTemplateFile]))
      ensures values[HtmlTemplateFolder].VPath? && values[HtmlTemplateFile].VStr? ==> r.Ok?
    {
      JoinPath(values[HtmlTemplateFolder], values[HtmlTemplateFile])
    }

    /** full_css_path: the css folder joined with the css file. */
    function FullCssPath(): (r: Result<string, Exc>)
      reads this
      requires CssFolder in values && CssFile in values
      ensures r.Ok? ==>
        && (values[CssFolder].VStr? || values[CssFolder].VPath?)
        && (values[CssFile].VStr? || values[CssFile].VPath?)
        && r.value == Div(Text(values[CssFolder]), Text(values[CssFile]))
      ensures values[CssFolder].VPath? && values[CssFile].VStr? ==> r.Ok?
    {
      JoinPath(values[CssFolder], values[CssFile])
    }

    /** The first two checks of load: each missing desktop pair is reset in place. */
    method ResetDesktopPaths(present: string -> bool) returns (err: Option<Exc>)
      requires HasTemplatePaths(values)
      modifies this
      ensures err.None? <==> FixedDesktop(env, old(values), present).Ok?
      ensures err.Some? ==> err.value == FixedDesktop(env, old(values), present).error
      ensures err.None? ==> values == FixedDesktop(env, old(values), present).value
    {
      var t := FullTemplatePath();
      if t.Err? {
        return Some(t.error);
      }
      if !present(t.value) {
        values := values[HtmlTemplateFolder := VPath(env.templateFolder)];
        values := values[HtmlTemplateFile := VStr("desktop.html")];
      }
      var c := FullCssPath();
      if c.Err? {
        return Some(c.error);
      }
      if !present(c.value) {
        values := values[CssFolder := VPath(env.staticFolder)];
        values := values[CssFile := VStr("desktop.css")];
      }
      return None;
    }

    /** The last two checks of load: each missing server folder resets its pair in place. */
    method ResetServerPaths(present: string -> bool) returns (err: Option<Exc>)
      requires HasTemplatePaths(values)
      modifies this
      ensures err.None? <==> FixedServer(env, old(values), present).Ok?
      ensures err.Some? ==> err.value == FixedServer(env, old(values), present).error
      ensures err.None? ==> values == FixedServer(env, old(values), present).value
    {
      var st := ToPath(values[ServerTemplateFolder]);
      if st.Err? {
        return Some(st.error);
      }
      if !present(st.value.path) {
        values := values[ServerTemplateFolder := VPath(env.templateFolder)];
        values := values[ServerHtmlTemplateFile := VStr("server.html")];
      }
      var ss := ToPath(values[ServerStaticFolder]);
      if ss.Err? {
        return Some(ss.error);
      }
      if !present(ss.value.path) {
        values := values[ServerStaticFolder := VPath(env.staticFolder)];
        values := values[ServerCssFile := VStr("server.css")];
      }
      return None;
    }
  }

  /** `Settings(**kwargs)`: the generated constructor with its converters. */
  method New(env: Env, kwargs: map<Field, Value>) returns (r: Result<Settings, Exc>)
    requires Keywords(kwargs)
    ensures r.Ok? <==> Construct(env, kwargs).Ok?
    ensures r.Ok? ==> fresh(r.value) && r.value.env == env && r.value.Valid() && r.value.values == Construct(env, kwargs).value
  {
    var v := Construct(env, kwargs);
    if v.Err? {
      return Err(v.error);
    }
    var s := new Settings(env, v.value);
    r := Ok(s);
  }

  /** The load class method, resetting the four pairs on the loaded object in place. */
  method Load(env: Env, inputFilename: Option<string>, present: string -> bool, contents: Result<Value, Exc>)
    returns (r: Result<Settings, Exc>)
    ensures r.Ok? <==> LoadedValues(env, inputFilename, present, contents).Ok?
    ensures r.Ok? ==> fresh(r.value) && r.value.Valid() && r.value.values == LoadedValues(env, inputFilename, present, contents).value
  {
    var output := OutputArgument(env, inputFilename);
    if !present(InputPath(env, inputFilename)) {
      r := New(env, map[OutputFile := output]);
      return;
    }
    if contents.Err? {
      return Err(contents.error);
    }
    if !contents.value.VDict? {
      return Err(TypeError);
    }
    var m := contents.value.entries;
    if "output_file" in m || !Accepted(m) {
      return Err(TypeError);
    }
    r := New(env, Arguments(m, output));
    if r.Err? {
      return;
    }
    var s := r.value;
    ghost var v := s.values;
    LoadReadsObject(env, inputFilename, present, m);
    assert LoadedValues(env, inputFilename, present, contents) == FixedPaths(env, v, present);
    var err := s.ResetDesktopPaths(present);
    if err.Some? {
      return Err(err.value);
    }
    ghost var d := s.values;
    err := s.ResetServerPaths(present);
    if err.Some? {
      return Err(err.value);
    }
    assert FixedPaths(env, v, present) == Ok(s.values);
  }
}
