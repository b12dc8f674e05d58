/**
 * The older dict-backed Settings class of splitnotes2's user interface: the
 * settings live in a dict that starts as a copy of the class's defaults and
 * is updated from settings.json; attribute reads fall back to that dict, and
 * attribute writes go to it when the name is one of the defaults.
 *
 * Whether the settings file exists is a parameter, and reading and decoding
 * it is a parameter holding the decoded object or the exception raised;
 * writing the file is left out, and save returns the object json.dumps is
 * handed. Paths are strings joined with "/".
 */
module DictSettings {
  import opened Wrappers
  import opened Errors
  import opened SettingsCommon

  /** The module's constants: the settings file, the template folder and the notes folder. */
  datatype Env = Env(settingsFile: string, templateFolder: string, userPath: string)

  /**
   * The constants as the module computes them from the folder it runs from
   * and the user's home: the settings file and the template folder are two
   * different entries of that folder.
   */
  function ImportEnv(basePath: string, home: string): (env: Env)
    ensures env.settingsFile != env.templateFolder
    ensures basePath <= env.settingsFile && basePath <= env.templateFolder
    ensures home <= env.userPath
  {
    var env := Env(Div(basePath, "settings.json"), Div(basePath, "html"), Div(home, "Documents"));
    assert |env.settingsFile| != |env.templateFolder|;
    env
  }

  const HtmlTemplateFolderKey: string := "html_template_folder"
  const CssFolderKey: string := "css_folder"

  /** The names of the defaults: the only names an attribute write routes to the dict. */
  const DefaultKeys: set<string> := {
    "hostname", "port", "split_separator", "previous_splits", "next_splits", "font_size", "font_color",
    "background_color", HtmlTemplateFolderKey, "html_template_file", CssFolderKey, "css_file", "on_top",
    "width", "height", "notes_folder"
  }

  /** The class-level defaults; both folders default to the template folder. */
  function Defaults(env: Env): (d: map<string, Value>)
    ensures d.Keys == DefaultKeys
    ensures d[HtmlTemplateFolderKey] == VPath(env.templateFolder) && d[CssFolderKey] == VPath(env.templateFolder)
  {
    map[
      "hostname" := VStr("localhost"),
      "port" := VInt(16834),
      "split_separator" := VStr(""),
      "previous_splits" := VInt(0),
      "next_splits" := VInt(2),
      "font_size" := VInt(20),
      "font_color" := VStr("#000000"),
      "background_color" := VStr("#f1f8ff"),
      HtmlTemplateFolderKey := VPath(env.templateFolder),
      "html_template_file" := VStr("default.html"),
      CssFolderKey := VPath(env.templateFolder),
      "css_file" := VStr("default.css"),
      "on_top" := VBool(false),
      "width" := VInt(800),
      "height" := VInt(800),
      "notes_folder" := VStr(env.userPath)
    ]
  }

  /** No default but the two folders is a path. */
  lemma DefaultsPlain(env: Env)
    ensures forall k :: k in Defaults(env) && k != HtmlTemplateFolderKey && k != CssFolderKey ==> !Defaults(env)[k].VPath?
  {
    var d := Defaults(env);
    forall k | k in d && k != HtmlTemplateFolderKey && k != CssFolderKey
      ensures !d[k].VPath?
    {
    }
  }

  /** The file's entries with `key` made a Path; a missing key raises KeyError and a value that is not a string TypeError. */
  function WithPath(entries: map<string, Value>, key: string): (r: Result<map<string, Value>, Exc>)
    ensures r.Ok? <==> key in entries && (entries[key].VStr? || entries[key].VPath?)
    ensures key !in entries ==> r == Err(KeyError)
    ensures r.Err? && key in entries ==> r.error == TypeError
    ensures r.Ok? ==> r.value.Keys == entries.Keys && r.value[key] == VPath(Text(entries[key]))
    ensures r.Ok? ==> forall k :: k in entries && k != key ==> r.value[k] == entries[k]
  {
    if key !in entries then Err(KeyError)
    else match ToPath(entries[key])
      case Err(e) => Err(e)
      case Ok(p) => Ok(entries[key := p])
  }

  /**
   * `__init__`: the defaults, then, when the file exists, every entry of the
   * decoded object with the two folders made paths. Only an object can be
   * subscripted, so anything else raises TypeError.
   */
  function Initial(env: Env, present: bool, contents: Result<Value, Exc>): (r: Result<map<string, Value>, Exc>)
    ensures r.Ok? ==> DefaultKeys <= r.value.Keys
  {
    if !present then Ok(Defaults(env))
    else match contents
      case Err(e) => Err(e)
      case Ok(VDict(entries)) =>
        (match WithPath(entries, HtmlTemplateFolderKey)
         case Err(e) => Err(e)
         case Ok(e1) =>
           match WithPath(e1, CssFolderKey)
           case Err(e) => Err(e)
           case Ok(e2) => Ok(Defaults(env) + e2))
      case Ok(_) => Err(TypeError)
  }

  /**
   * Without a settings file the dict is a copy of the defaults, whatever the
   * file would hold, and saving it and loading it back gives it again.
   */
  lemma InitialWithoutFile(env: Env, contents: Result<Value, Exc>)
    ensures Initial(env, false, contents) == Ok(Defaults(env))
    ensures Reloadable(Defaults(env))
  {
    DefaultsPlain(env);
  }

  /**
   * With a settings file the dict holds the defaults' names and the file's;
   * every name of the file has the file's value, the two folders made paths,
   * and every other name keeps its default.
   */
  lemma InitialOverrides(env: Env, entries: map<string, Value>)
    requires HtmlTemplateFolderKey in entries && CssFolderKey in entries
    requires entries[HtmlTemplateFolderKey].VStr? || entries[HtmlTemplateFolderKey].VPath?
    requires entries[CssFolderKey].VStr? || entries[CssFolderKey].VPath?
    ensures Initial(env, true, Ok(VDict(entries))).Ok?
    ensures var s := Initial(env, true, Ok(VDict(entries))).value;
      && s.Keys == DefaultKeys + entries.Keys
      && s[HtmlTemplateFolderKey] == VPath(Text(entries[HtmlTemplateFolderKey]))
      && s[CssFolderKey] == VPath(Text(entries[CssFolderKey]))
      && (forall k :: k in entries && k != HtmlTemplateFolderKey && k != CssFolderKey ==> s[k] == entries[k])
      && (forall k :: k in DefaultKeys && k !in entries ==> s[k] == Defaults(env)[k])
  {
    var e1 := WithPath(entries, HtmlTemplateFolderKey).value;
    var e2 := WithPath(e1, CssFolderKey).value;
    assert Initial(env, true, Ok(VDict(entries))) == Ok(Defaults(env) + e2);
  }

  /**
   * An existing file fails when it cannot be read or decoded, when it is not
   * an object, when it lacks a folder entry (KeyError) and when a folder is
   * neither a string nor a path (TypeError); it succeeds otherwise.
   */
  lemma InitialFails(env: Env, contents: Result<Value, Exc>)
    ensures contents.Err? ==> Initial(env, true, contents) == Err(contents.error)
    ensures contents.Ok? && !contents.value.VDict? ==> Initial(env, true, contents) == Err(TypeError)
    ensures contents.Ok? && contents.value.VDict? ==>
      var entries := contents.value.entries;
      && (HtmlTemplateFolderKey !in entries ==> Initial(env, true, contents) == Err(KeyError))
      && (HtmlTemplateFolderKey in entries && CssFolderKey !in entries ==> Initial(env, true, contents).Err?)
      && (Initial(env, true, contents).Ok? <==>
            HtmlTemplateFolderKey in entries && CssFolderKey in entries
            && (entries[HtmlTemplateFolderKey].VStr? || entries[HtmlTemplateFolderKey].VPath?)
            && (entries[CssFolderKey].VStr? || entries[CssFolderKey].VPath?))
  {
    if contents.Ok? && contents.value.VDict? {
      var entries := contents.value.entries;
      var r1 := WithPath(entries, HtmlTemplateFolderKey);
      if r1.Ok? {
        assert CssFolderKey in r1.value <==> CssFolderKey in entries;
        assert CssFolderKey in entries ==> r1.value[CssFolderKey] == entries[CssFolderKey];
      }
    }
  }

  /** How json.dumps with `default=str` writes a value: a Path as its string. */
  function Dumped(v: Value): (w: Value)
    ensures v.VPath? ==> w == VStr(v.path)
    ensures !v.VPath? ==> w == v
  {
    if v.VPath? then VStr(v.path) else v
  }

  /** The object save writes: the whole dict, paths as strings. */
  function Output(settings: map<string, Value>): (m: map<string, Value>)
    ensures m.Keys == settings.Keys
    ensures forall k :: k in settings ==> m[k] == Dumped(settings[k])
  {
    map k | k in settings :: Dumped(settings[k])
  }

  /** A dict as a freshly loaded object holds it: both folders paths, no other path anywhere. */
  predicate Reloadable(settings: map<string, Value>)
  {
    && DefaultKeys <= settings.Keys
    && settings[HtmlTemplateFolderKey].VPath? && settings[CssFolderKey].VPath?
    && forall k :: k in settings && k != HtmlTemplateFolderKey && k != CssFolderKey ==> !settings[k].VPath?
  }

  /** Saving a loaded dict and loading the file again gives back the same dict. */
  lemma SaveLoadRoundTrip(env: Env, settings: map<string, Value>)
    requires Reloadable(settings)
    ensures Initial(env, true, Ok(VDict(Output(settings)))) == Ok(settings)
  {
    var m := Output(settings);
    ReloadedEntries(env, settings);
    var s := Initial(env, true, Ok(VDict(m))).value;
    assert s == settings;
  }

  /** Loading what save wrote gives every name of the dict, each with its value. */
  lemma ReloadedEntries(env: Env, settings: map<string, Value>)
    requires Reloadable(settings)
    ensures Initial(env, true, Ok(VDict(Output(settings)))).Ok?
    ensures var s := Initial(env, true, Ok(VDict(Output(settings)))).value;
      s.Keys == settings.Keys && forall k :: k in settings ==> s[k] == settings[k]
  {
    ReloadedKeys(env, settings);
    var s := Initial(env, true, Ok(VDict(Output(settings)))).value;
    forall k | k in settings
      ensures s[k] == settings[k]
    {
      ReloadedEntry(env, settings, k);
    }
  }

  lemma ReloadedKeys(env: Env, settings: map<string, Value>)
    requires Reloadable(settings)
    ensures Initial(env, true, Ok(VDict(Output(settings)))).Ok?
    ensures Initial(env, true, Ok(VDict(Output(settings)))).value.Keys == settings.Keys
  {
    var m := Output(settings);
    InitialOverrides(env, m);
    assert m.Keys == settings.Keys;
    assert DefaultKeys + settings.Keys == settings.Keys by {
      assert DefaultKeys <= settings.Keys;
    }
  }

  lemma ReloadedEntry(env: Env, settings: map<string, Value>, k: string)
    requires Reloadable(settings) && k in settings
    ensures Initial(env, true, Ok(VDict(Output(settings)))).Ok?
    ensures var s := Initial(env, true, Ok(VDict(Output(settings)))).value;
      k in s && s[k] == settings[k]
  {
    var m := Output(settings);
    InitialOverrides(env, m);
    if k == HtmlTemplateFolderKey || k == CssFolderKey {
      assert m[k] == VStr(settings[k].path);
    } else {
      assert m[k] == Dumped(settings[k]);
    }
  }

  /** A dict loaded from a file that held no path is reloadable, as a decoded file never holds one. */
  lemma InitialReloadable(env: Env, entries: map<string, Value>)
    requires Initial(env, true, Ok(VDict(entries))).Ok?
    requires forall k :: k in entries ==> !entries[k].VPath?
    ensures Reloadable(Initial(env, true, Ok(VDict(entries))).value)
  {
    InitialFails(env, Ok(VDict(entries)));
    InitialOverrides(env, entries);
    DefaultsPlain(env);
  }

  /** A settings object: its dict, and the attributes set on the instance itself. */
  class Settings {
    const env: Env
    var settings: map<string, Value>
    var attributes: map<string, Value>

    /** The dict holds every default, and no name of the defaults is an instance attribute. */
    predicate Valid()
      reads this
    {
      DefaultKeys <= settings.Keys && forall k :: k in attributes ==> k !in DefaultKeys
    }

    /** An object whose dict is the one `__init__` computed. */
    constructor (env: Env, settings: map<string, Value>)
      requires DefaultKeys <= settings.Keys
      ensures this.env == env && this.settings == settings && attributes == map[] && Valid()
    {
      this.env := env;
      this.settings := settings;
      attributes := map[];
    }

    /**
     * Reading an attribute: an instance attribute first; otherwise
     * `__getattr__` looks the name up in the dict, raising AttributeError
     * when it is not there.
     */
    function GetAttr(name: string): (r: Result<Value, Exc>)
      reads this
      ensures r.Err? <==> name !in attributes && name !in settings
      ensures r.Err? ==> r.error == AttributeError
      ensures r.Ok? && name !in attributes ==> r.value == settings[name]
      ensures r.Ok? && name in attributes ==> r.value == attributes[name]
    {
      if name in attributes then Ok(attributes[name])
      else if name in settings then Ok(settings[name])
      else Err(AttributeError)
    }

    /**
     * `__setattr__`: a name of the defaults updates the dict; any other name
     * becomes an instance attribute and leaves the dict as it was, even when
     * the dict holds that name from the file.
     */
    method SetAttr(key: string, value: Value)
      requires Valid()
      modifies this
      ensures Valid()
      ensures key in DefaultKeys ==> settings == old(settings)[key := value] && attributes == old(attributes)
      ensures key !in DefaultKeys ==> settings == old(settings) && attributes == old(attributes)[key := value]
      ensures GetAttr(key) == Ok(value)
      ensures forall k :: k != key ==> GetAttr(k) == old(GetAttr(k))
    {
      if key in DefaultKeys {
        settings := settings[key := value];
      } else {
        attributes := attributes[key := value];
      }
    }

    /** save: the object json.dumps is handed, the whole dict. */
    function SaveOutput(): (m: map<string, Value>)
      reads this
      ensures m == Output(settings)
      ensures forall k :: k in settings && !settings[k].VPath? ==> m[k] == settings[k]
    {
      Output(settings)
    }

    /** full_template_path: the template folder joined with the template file, both read as attributes. */
    function FullTemplatePath(): (r: Result<string, Exc>)
      reads this
      ensures Valid() && "html_template_file" in settings ==>
        r == JoinPath(settings[HtmlTemplateFolderKey], settings["html_template_file"])
      ensures r.Ok? ==>
        exists folder, file :: GetAttr(HtmlTemplateFolderKey) == Ok(folder) && GetAttr("html_template_file") == Ok(file) && JoinPath(folder, file) == Ok(r.value)
    {
      match GetAttr(HtmlTemplateFolderKey)
      case Err(e) => Err(e)
      case Ok(folder) =>
        match GetAttr("html_template_file")
        case Err(e) => Err(e)
        case Ok(file) => JoinPath(folder, file)
    }

    /** full_css_path: the css folder joined with the css file, both read as attributes. */
    function FullCssPath(): (r: Result<string, Exc>)
      reads this
      ensures Valid() && "css_file" in settings ==>
        r == JoinPath(settings[CssFolderKey], settings["css_file"])
      ensures r.Ok? ==>
        exists folder, file :: GetAttr(CssFolderKey) == Ok(folder) && GetAttr("css_file") == Ok(file) && JoinPath(folder, file) == Ok(r.value)
    {
      match GetAttr(CssFolderKey)
      case Err(e) => Err(e)
      case Ok(folder) =>
        match GetAttr("css_file")
        case Err(e) => Err(e)
        case Ok(file) => JoinPath(folder, file)
    }
  }

  /**
   * `Settings()`: copy the defaults, then, when the file exists, subscript
   * the decoded object for the two folders, make them paths and update the
   * dict with every entry.
   */
  method New(env: Env, present: bool, contents: Result<Value, Exc>) returns (r: Result<Settings, Exc>)
    ensures r.Ok? <==> Initial(env, present, contents).Ok?
    ensures r.Err? ==> r.error == Initial(env, present, contents).error
    ensures r.Ok? ==>
      && fresh(r.value) && r.value.env == env && r.value.Valid()
      && r.value.settings == Initial(env, present, contents).value && r.value.attributes == map[]
  {
    var settings := Defaults(env);
    if present {
      if contents.Err? {
        return Err(contents.error);
      }
      if !contents.value.VDict? {
        return Err(TypeError);
      }
      var newSettings := contents.value.entries;
      if HtmlTemplateFolderKey !in newSettings {
        return Err(KeyError);
      }
      var folder := ToPath(newSettings[HtmlTemplateFolderKey]);
      if folder.Err? {
        return Err(folder.error);
      }
      newSettings := newSettings[HtmlTemplateFolderKey := folder.value];
      if CssFolderKey !in newSettings {
        return Err(KeyError);
      }
      var css := ToPath(newSettings[CssFolderKey]);
      if css.Err? {
        return Err(css.error);
      }
      newSettings := newSettings[CssFolderKey := css.value];
      settings := settings + newSettings;
    }
    var s := new Settings(env, settings);
    r := Ok(s);
  }
}
