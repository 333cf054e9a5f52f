/**
 * The handler-declaration check of the `analyse` command: a skill's
 * configuration must declare every common handler, and every handler class
 * it declares must exist in the skill's `handlers` module.
 *
 * The import of the module and the reading of the YAML file are inputs: the
 * importable modules with the names each one defines (`dir(module)`), and the
 * parsed configuration.
 */
module AnalyseHandlers {
  import opened Wrappers
  import opened Strings

  /** A filesystem path, as the list of its components. */
  datatype Path = Path(parts: seq<string>)

  /** `path.parent`; the root is its own parent. */
  function Parent(p: Path): Path
  {
    if |p.parts| == 0 then p else Path(p.parts[..|p.parts| - 1])
  }

  /** `path.name`; the root has the empty name. */
  function Name(p: Path): string
  {
    if |p.parts| == 0 then "" else p.parts[|p.parts| - 1]
  }

  /** `path / name`. */
  function Child(p: Path, name: string): Path
  {
    Path(p.parts + [name])
  }

  /** `str(path)` for a relative path. */
  function Str(p: Path): string
  {
    Join(p.parts, "/")
  }

  datatype CheckError =
      /** ValueError of `relative_to`: the skill is not below the working directory */
    | NotUnderCwd
      /** FileNotFoundError: the handler module cannot be imported */
    | HandlerFileMissing(moduleName: string)
      /** KeyError: the configuration has no `handlers` */
    | NoHandlersKey
      /** ValueError: a common handler is not declared */
    | CommonHandlerMissing(handler: string)
      /** KeyError: a declared handler has no `class_name` */
    | NoClassName(handler: string)
      /** ValueError: a declared handler class is not in the module */
    | HandlerClassMissing(className: string)

  /** `path.relative_to(base)`: the components after `base`, when `base` is a prefix. */
  function RelativeTo(p: Path, base: Path): (r: Result<Path, CheckError>)
    ensures r.Ok? <==> |base.parts| <= |p.parts| && p.parts[..|base.parts|] == base.parts
    ensures r.Ok? ==> base.parts + r.value.parts == p.parts
    ensures r.Err? ==> r.error == NotUnderCwd
  {
    if |base.parts| <= |p.parts| && p.parts[..|base.parts|] == base.parts then
      assert p.parts == p.parts[..|base.parts|] + p.parts[|base.parts|..];
      Ok(Path(p.parts[|base.parts|..]))
    else Err(NotUnderCwd)
  }

  /** The dotted module name of a relative file path: `.py` removed, `/` turned into `.`. */
  function ModuleName(rel: Path): string
  {
    ReplaceAll(ReplaceAll(Str(rel), ".py", ""), "/", ".")
  }

  /** One entry of the configuration's `handlers` mapping. */
  datatype HandlerInfo = HandlerInfo(className: Option<string>)

  /**
   * The parsed skill configuration: the `handlers` mapping, in declaration
   * order, if present. A parsed YAML mapping holds each name once; this
   * list does not require it.
   */
  datatype SkillConfig = SkillConfig(handlers: Option<seq<(string, HandlerInfo)>>)

  function HandlerNames(entries: seq<(string, HandlerInfo)>): set<string>
  {
    set i | 0 <= i < |entries| :: entries[i].0
  }

  /** The first name of `names`, in list order, that is not in `declared`. */
  function FirstMissing(names: seq<string>, declared: set<string>): (r: Option<string>)
    ensures r.None? <==> forall i | 0 <= i < |names| :: names[i] in declared
    ensures r.Some? ==> r.value in names && r.value !in declared
  {
    if |names| == 0 then None
    else if names[0] !in declared then Some(names[0])
    else
      var r := FirstMissing(names[1..], declared);
      assert forall i | 1 <= i < |names| :: names[i] == names[1..][i - 1];
      r
  }

  /** An entry passes when it names a class that the module defines. */
  predicate ClassDefined(info: HandlerInfo, attributes: set<string>)
  {
    info.className.Some? && info.className.value in attributes
  }

  /** The second loop: the first declared handler, in order, whose class is missing. */
  function CheckClasses(entries: seq<(string, HandlerInfo)>, attributes: set<string>): (r: Outcome<CheckError>)
    ensures r.Fail? ==> r.error.NoClassName? || r.error.HandlerClassMissing?
  {
    if |entries| == 0 then Pass
    else
      var (name, info) := entries[0];
      if info.className.None? then Fail(NoClassName(name))
      else if info.className.value !in attributes then Fail(HandlerClassMissing(info.className.value))
      else CheckClasses(entries[1..], attributes)
  }

  /**
   * `check_handlers`: the module path is computed first; a skipped skill then
   * passes; otherwise the module must be importable, every common handler
   * must be declared, and every declared class must exist.
   */
  function CheckHandlers(configFile: Path, cwd: Path, commonHandlers: seq<string>, skipSkills: seq<string>,
                         modules: map<string, set<string>>, config: SkillConfig): Outcome<CheckError>
  {
    var skillDir := Parent(configFile);
    match RelativeTo(Child(skillDir, "handlers.py"), cwd)
    case Err(e) => Fail(e)
    case Ok(rel) =>
      var moduleName := ModuleName(rel);
      if Name(skillDir) in skipSkills then Pass
      else if moduleName !in modules then Fail(HandlerFileMissing(moduleName))
      else if config.handlers.None? then Fail(NoHandlersKey)
      else
        match FirstMissing(commonHandlers, HandlerNames(config.handlers.value))
        case Some(h) => Fail(CommonHandlerMissing(h))
        case None => CheckClasses(config.handlers.value, modules[moduleName])
  }

  // ---------------------------------------------------------------------------
  // Properties

  /** The name reported is the first missing one: every name before it is declared. */
  lemma {:induction false} FirstMissingIsFirst(names: seq<string>, declared: set<string>)
    requires FirstMissing(names, declared).Some?
    ensures exists i | 0 <= i < |names| ::
      && names[i] == FirstMissing(names, declared).value
      && forall j | 0 <= j < i :: names[j] in declared
  {
    if names[0] in declared {
      FirstMissingIsFirst(names[1..], declared);
      var k :| 0 <= k < |names[1..]| && names[1..][k] == FirstMissing(names[1..], declared).value
        && forall j | 0 <= j < k :: names[1..][j] in declared;
      assert names[k + 1] == FirstMissing(names, declared).value;
      forall j | 0 <= j < k + 1 ensures names[j] in declared {
        if j > 0 {
          assert names[j] == names[1..][j - 1];
        }
      }
    } else {
      assert names[0] == FirstMissing(names, declared).value;
    }
  }

  /** The classes pass exactly when every declared handler names a class the module defines. */
  lemma {:induction false} CheckClassesPasses(entries: seq<(string, HandlerInfo)>, attributes: set<string>)
    ensures CheckClasses(entries, attributes).Pass? <==>
      forall i | 0 <= i < |entries| :: ClassDefined(entries[i].1, attributes)
    decreases |entries|
  {
    if |entries| > 0 {
      CheckClassesPasses(entries[1..], attributes);
      assert forall i | 1 <= i < |entries| :: entries[i] == entries[1..][i - 1];
    }
  }

  /** A skipped skill passes whatever its module and configuration hold, once its path is below the working directory. */
  lemma SkippedSkillPasses(configFile: Path, cwd: Path, commonHandlers: seq<string>, skipSkills: seq<string>,
                           modules: map<string, set<string>>, config: SkillConfig)
    requires Name(Parent(configFile)) in skipSkills
    ensures CheckHandlers(configFile, cwd, commonHandlers, skipSkills, modules, config).Pass? <==>
      RelativeTo(Child(Parent(configFile), "handlers.py"), cwd).Ok?
  {
  }

  /** The module path is computed before the skip check, so even a skipped skill outside the working directory fails. */
  lemma PathCheckedFirst(configFile: Path, cwd: Path, commonHandlers: seq<string>, skipSkills: seq<string>,
                         modules: map<string, set<string>>, config: SkillConfig)
    requires RelativeTo(Child(Parent(configFile), "handlers.py"), cwd).Err?
    ensures CheckHandlers(configFile, cwd, commonHandlers, skipSkills, modules, config) == Fail(NotUnderCwd)
  {
  }

  /**
   * A skill that is not skipped passes exactly when its module is importable,
   * its configuration has `handlers`, every common handler is declared, and
   * every declared class is defined by the module.
   */
  lemma CheckHandlersPasses(configFile: Path, cwd: Path, commonHandlers: seq<string>, skipSkills: seq<string>,
                            modules: map<string, set<string>>, config: SkillConfig)
    requires Name(Parent(configFile)) !in skipSkills
    ensures var rel := RelativeTo(Child(Parent(configFile), "handlers.py"), cwd);
      CheckHandlers(configFile, cwd, commonHandlers, skipSkills, modules, config).Pass? <==>
        && rel.Ok?
        && ModuleName(rel.value) in modules
        && config.handlers.Some?
        && (forall i | 0 <= i < |commonHandlers| :: commonHandlers[i] in HandlerNames(config.handlers.value))
        && (forall i | 0 <= i < |config.handlers.value| ::
              ClassDefined(config.handlers.value[i].1, modules[ModuleName(rel.value)]))
  {
    var rel := RelativeTo(Child(Parent(configFile), "handlers.py"), cwd);
    if rel.Ok? && ModuleName(rel.value) in modules && config.handlers.Some? {
      CheckClassesPasses(config.handlers.value, modules[ModuleName(rel.value)]);
    }
  }

  /**
   * The common handlers are checked before the classes: when one is missing,
   * the error names the first missing one, whatever the classes are.
   */
  lemma CommonHandlersFirst(configFile: Path, cwd: Path, commonHandlers: seq<string>, skipSkills: seq<string>,
                            modules: map<string, set<string>>, config: SkillConfig)
    requires Name(Parent(configFile)) !in skipSkills
    requires RelativeTo(Child(Parent(configFile), "handlers.py"), cwd).Ok?
    requires ModuleName(RelativeTo(Child(Parent(configFile), "handlers.py"), cwd).value) in modules
    requires config.handlers.Some?
    requires exists i | 0 <= i < |commonHandlers| :: commonHandlers[i] !in HandlerNames(config.handlers.value)
    ensures var r := CheckHandlers(configFile, cwd, commonHandlers, skipSkills, modules, config);
      && r.Fail? && r.error.CommonHandlerMissing?
      && r.error.handler !in HandlerNames(config.handlers.value)
      && exists i | 0 <= i < |commonHandlers| ::
           && commonHandlers[i] == r.error.handler
           && forall j | 0 <= j < i :: commonHandlers[j] in HandlerNames(config.handlers.value)
  {
    FirstMissingIsFirst(commonHandlers, HandlerNames(config.handlers.value));
  }

  // ---------------------------------------------------------------------------
  // The module name of a skill's handler file

  /**
   * `replace` of a pattern that occurs nowhere in `a` and cannot straddle the
   * boundary (the first character of `b` is not in the pattern) leaves `a`
   * alone and goes on with `b`.
   */
  lemma {:induction false} ReplaceAllNoStraddle(a: string, b: string, pat: string, rep: string)
    requires |pat| > 0 && |b| > 0
    requires !Contains(a, pat)
    requires b[0] !in pat
    ensures ReplaceAll(a + b, pat, rep) == a + ReplaceAll(b, pat, rep)
    decreases |a|
  {
    if |a| == 0 {
      assert a + b == b;
    } else {
      var s := a + b;
      if |s| < |pat| {
        assert ReplaceAll(b, pat, rep) == b;
      } else {
        NoMatchAtStart(a, b, pat);
        assert !Contains(a[1..], pat);
        assert s[1..] == a[1..] + b;
        ReplaceAllNoStraddle(a[1..], b, pat, rep);
        assert ReplaceAll(s, pat, rep) == [a[0]] + (a[1..] + ReplaceAll(b, pat, rep));
        assert [a[0]] + a[1..] == a;
      }
    }
  }

  /** The pattern does not start at the head of `a + b`. */
  lemma NoMatchAtStart(a: string, b: string, pat: string)
    requires |pat| > 0 && |b| > 0 && |a| > 0 && |a + b| >= |pat|
    requires !Contains(a, pat)
    requires b[0] !in pat
    ensures (a + b)[..|pat|] != pat
  {
    var s := a + b;
    if |pat| <= |a| {
      assert s[..|pat|] == a[..|pat|];
      assert !IsPrefix(pat, a);
    } else {
      assert s[..|pat|][|a|] == b[0];
      assert pat[|a|] in pat;
    }
  }

  /** Replacing a one-character pattern works piece by piece. */
  lemma {:induction false} ReplaceAllCharConcat(a: string, b: string, pat: string, rep: string)
    requires |pat| == 1
    ensures ReplaceAll(a + b, pat, rep) == ReplaceAll(a, pat, rep) + ReplaceAll(b, pat, rep)
    decreases |a|
  {
    if |a| == 0 {
      assert a + b == b;
    } else {
      var s := a + b;
      assert s[..1] == a[..1];
      assert s[1..] == a[1..] + b;
      ReplaceAllCharConcat(a[1..], b, pat, rep);
    }
  }

  lemma NoSlash(d: string)
    requires '/' !in d
    ensures !Contains(d, "/")
  {
    NotContainsByHead(d, "/");
  }

  /** Removing `.py` from a `/`-joined path whose directories hold no `.py` touches only the file's suffix. */
  lemma {:induction false} StripPy(dirs: seq<string>)
    requires forall d | d in dirs :: !Contains(d, ".py")
    ensures ReplaceAll(Join(dirs + ["handlers.py"], "/"), ".py", "") == Join(dirs + ["handlers"], "/")
    decreases |dirs|
  {
    if |dirs| == 0 {
      assert dirs + ["handlers.py"] == ["handlers.py"];
      assert dirs + ["handlers"] == ["handlers"];
      StripPyFile();
    } else {
      var rest := dirs[1..];
      StripPy(rest);
      StripPyDir(dirs[0], Join(rest + ["handlers.py"], "/"), Join(rest + ["handlers"], "/"));
      JoinCons(dirs[0], rest + ["handlers.py"], "/");
      JoinCons(dirs[0], rest + ["handlers"], "/");
      assert [dirs[0]] + (rest + ["handlers.py"]) == dirs + ["handlers.py"];
      assert [dirs[0]] + (rest + ["handlers"]) == dirs + ["handlers"];
    }
  }

  lemma StripPyFile()
    ensures ReplaceAll("handlers.py", ".py", "") == "handlers"
  {
    assert "handlers.py" == "handlers" + ".py";
    ReplaceAllSkip("handlers", ".py", ".py", "");
    ReplaceAllLeading(".py", "", "");
    assert "handlers" + "" == "handlers";
  }

  /** A directory without `.py` in front of a path is carried over unchanged. */
  lemma StripPyDir(d: string, path: string, stripped: string)
    requires !Contains(d, ".py")
    requires ReplaceAll(path, ".py", "") == stripped
    ensures ReplaceAll(d + "/" + path, ".py", "") == d + "/" + stripped
  {
    calc {
      ReplaceAll(d + "/" + path, ".py", "");
      { assert d + "/" + path == d + ("/" + path); }
      ReplaceAll(d + ("/" + path), ".py", "");
      { ReplaceAllNoStraddle(d, "/" + path, ".py", ""); }
      d + ReplaceAll("/" + path, ".py", "");
      { ReplaceAllSkip("/", path, ".py", ""); }
      d + ("/" + stripped);
      d + "/" + stripped;
    }
  }

  lemma JoinCons(d: string, parts: seq<string>, sep: string)
    requires |parts| > 0
    ensures Join([d] + parts, sep) == d + sep + Join(parts, sep)
  {
    assert ([d] + parts)[1..] == parts;
  }

  /** Turning `/` into `.` in a `/`-joined list of names without `/` gives the `.`-joined list. */
  lemma {:induction false} SlashesToDots(parts: seq<string>)
    requires forall d | d in parts :: '/' !in d
    ensures ReplaceAll(Join(parts, "/"), "/", ".") == Join(parts, ".")
    decreases |parts|
  {
    if |parts| == 1 {
      NoSlash(parts[0]);
      ReplaceAllAbsent(parts[0], "/", ".");
    } else if |parts| > 1 {
      var d := parts[0];
      SlashesToDots(parts[1..]);
      NoSlash(d);
      ReplaceAllAbsent(d, "/", ".");
      ReplaceAllCharConcat(d, "/" + Join(parts[1..], "/"), "/", ".");
      ReplaceAllCharConcat("/", Join(parts[1..], "/"), "/", ".");
      ReplaceAllLeading("/", "", ".");
      assert d + "/" + Join(parts[1..], "/") == d + ("/" + Join(parts[1..], "/"));
      assert "/" + "" == "/";
      assert "." + "" == ".";
    }
  }

  /**
   * For a handler file below package directories whose names hold neither a
   * `/` nor `.py`, the module name is the directories and `handlers` joined
   * by dots, as Python's import system names it.
   */
  lemma ModuleNameOfPackage(dirs: seq<string>)
    requires forall d | d in dirs :: '/' !in d && !Contains(d, ".py")
    ensures ModuleName(Path(dirs + ["handlers.py"])) == Join(dirs + ["handlers"], ".")
  {
    StripPy(dirs);
    assert forall d | d in dirs + ["handlers"] :: '/' !in d;
    SlashesToDots(dirs + ["handlers"]);
  }

  /** The path of the handler file relative to the working directory is the skill's path there, then the file. */
  lemma HandlerFileBelowCwd(cwd: Path, dirs: seq<string>, configName: string)
    ensures RelativeTo(Child(Parent(Path(cwd.parts + dirs + [configName])), "handlers.py"), cwd)
      == Ok(Path(dirs + ["handlers.py"]))
  {
    var full := cwd.parts + dirs + [configName];
    assert Parent(Path(full)).parts == cwd.parts + dirs;
    assert (cwd.parts + dirs + ["handlers.py"])[..|cwd.parts|] == cwd.parts;
    assert (cwd.parts + dirs + ["handlers.py"])[|cwd.parts|..] == dirs + ["handlers.py"];
  }
}
