/** The engine: validating the capability selection, generating a project (base bundle, then
    the database, OpenAPI and Docker modules, then the post-generation tools), adding one
    module to an existing project, and reading the module path back from its go.mod. */
module Engine {
  import opened Paths
  import opened Common
  import FileTree
  import opened TemplateStore
  import opened Overlay
  import opened Recipes
  import opened Modules
  import opened GoMod
  import OS
  import PostgresModule
  import OpenAPIGenModule

  /** engine.AddOptions: the module category ("db", "openapi" or "docker") and its selectors. */
  datatype AddOptions = AddOptions(category: string, dbType: string, mode: string, spec: string)

  /** The outcome of the three external tools run after generation: go mod init, go mod tidy
      and go fmt. */
  datatype ToolResults = ToolResults(modInit: bool, tidy: bool, format: bool)

  const BaseBundle: Path := ["files", "base"]

  // ---------------------------------------------------------------------------------------
  // Validation

  const Routers: set<string> := {"chi", "gin", "fiber"}
  const Databases: set<string> := {"none", "postgres", "mongo"}
  const OpenAPIModes: set<string> := {"none", "gen", "manual"}
  const MigrationTools: set<string> := {"none", "goose"}

  /** validateInitOptions: accepts exactly the selections whose four enumerated fields are in
      range, and reports the first field out of range in the order router, database, openapi,
      migrations. No other field is looked at. */
  function Validate(opts: InitOptions): (r: Outcome)
    ensures r.Pass? <==>
      opts.router in Routers && opts.database in Databases && opts.openAPI in OpenAPIModes && opts.migrations in MigrationTools
    ensures opts.router !in Routers ==>
      r == Fail(InvalidOption("router", opts.router, "chi, gin, or fiber"))
    ensures opts.router in Routers && opts.database !in Databases ==>
      r == Fail(InvalidOption("database", opts.database, "none, postgres, or mongo"))
    ensures opts.router in Routers && opts.database in Databases && opts.openAPI !in OpenAPIModes ==>
      r == Fail(InvalidOption("openapi", opts.openAPI, "none, gen, or manual"))
    ensures opts.router in Routers && opts.database in Databases && opts.openAPI in OpenAPIModes && opts.migrations !in MigrationTools ==>
      r == Fail(InvalidOption("migrations", opts.migrations, "none or goose"))
  {
    if opts.router !in Routers then Fail(InvalidOption("router", opts.router, "chi, gin, or fiber"))
    else if opts.database !in Databases then Fail(InvalidOption("database", opts.database, "none, postgres, or mongo"))
    else if opts.openAPI !in OpenAPIModes then Fail(InvalidOption("openapi", opts.openAPI, "none, gen, or manual"))
    else if opts.migrations !in MigrationTools then Fail(InvalidOption("migrations", opts.migrations, "none or goose"))
    else Pass
  }

  // ---------------------------------------------------------------------------------------
  // InitProject as a function of the tree

  /** The rendering data every template of a new project sees. */
  function InitData(opts: InitOptions): Data
  {
    map[
      "ProjectName" := Str(opts.projectName),
      "ModulePath" := Str(opts.modulePath),
      "Router" := Str(opts.router),
      "Database" := Str(opts.database),
      "OpenAPI" := Str(opts.openAPI),
      "Migrations" := Str(opts.migrations),
      "HasDocker" := Flag(opts.docker)]
  }

  /** One module InitProject may apply: where to look it up, the error when the lookup is nil,
      and the message an Apply error is wrapped with. */
  datatype Step = Step(category: string, name: string, missing: string, message: string)

  function DbStep(opts: InitOptions): Step
  {
    Step("db", opts.database, "database module " + opts.database + " not found", "failed to apply database module")
  }

  function OpenAPIStep(opts: InitOptions): Step
  {
    Step("openapi", opts.openAPI, "openapi module " + opts.openAPI + " not found", "failed to apply openapi module")
  }

  const DockerStep := Step("docker", "", "docker module not found", "failed to apply docker module")

  function Rank(s: Step): nat
  {
    if s.category == "db" then 0 else if s.category == "openapi" then 1 else 2
  }

  /** The modules a selection asks for: the database unless "none", then OpenAPI unless
      "none", then Docker when requested, in that order. */
  function Selected(opts: InitOptions): (r: seq<Step>)
    ensures forall s :: s in r <==>
      || (s == DbStep(opts) && opts.database != "none")
      || (s == OpenAPIStep(opts) && opts.openAPI != "none")
      || (s == DockerStep && opts.docker)
    ensures forall i, j :: 0 <= i < j < |r| ==> Rank(r[i]) < Rank(r[j])
  {
    (if opts.database != "none" then [DbStep(opts)] else []) +
    (if opts.openAPI != "none" then [OpenAPIStep(opts)] else []) +
    (if opts.docker then [DockerStep] else [])
  }

  /** The steps Selected lists after the database step, and after the OpenAPI step. */
  function AfterDb(opts: InitOptions): seq<Step>
  {
    (if opts.openAPI != "none" then [OpenAPIStep(opts)] else []) + AfterOpenAPI(opts)
  }

  function AfterOpenAPI(opts: InitOptions): seq<Step>
  {
    if opts.docker then [DockerStep] else []
  }

  lemma SelectedShape(opts: InitOptions)
    ensures opts.database != "none" ==> Selected(opts) == [DbStep(opts)] + AfterDb(opts)
    ensures opts.database == "none" ==> Selected(opts) == AfterDb(opts)
    ensures opts.openAPI != "none" ==> AfterDb(opts) == [OpenAPIStep(opts)] + AfterOpenAPI(opts)
    ensures opts.openAPI == "none" ==> AfterDb(opts) == AfterOpenAPI(opts)
    ensures opts.docker ==> AfterOpenAPI(opts) == [DockerStep] + []
    ensures !opts.docker ==> AfterOpenAPI(opts) == []
  {
    var d := if opts.database != "none" then [DbStep(opts)] else [];
    var o := if opts.openAPI != "none" then [OpenAPIStep(opts)] else [];
    assert d + o + AfterOpenAPI(opts) == d + (o + AfterOpenAPI(opts));
  }

  /** Look the module up and apply it; a nil lookup and an Apply error both end the run. */
  function UseModuleSpec(t: FileTree.Tree, store: Store, table: Table, render: Renderer, ctx: Context, s: Step): (r: FileTree.Run)
    ensures FileTree.Valid(t) ==> FileTree.Valid(r.tree)
  {
    match Lookup(table, s.category, s.name)
    case None => FileTree.Run(t, Fail(ModuleNotFound(s.missing)))
    case Some(m) =>
      var a := RecipeRun(t, store, RecipeOf(m, ctx), ctx, render);
      if a.out.Fail? then FileTree.Run(a.tree, Fail(Wrapped(s.message, a.out.error))) else a
  }

  /** The selected modules in order, all with the same context; the first failure ends it. */
  function ApplySelected(t: FileTree.Tree, store: Store, table: Table, render: Renderer, ctx: Context, steps: seq<Step>): (r: FileTree.Run)
    ensures FileTree.Valid(t) ==> FileTree.Valid(r.tree)
    decreases |steps|
  {
    if steps == [] then FileTree.Run(t, Pass)
    else
      var u := UseModuleSpec(t, store, table, render, ctx, steps[0]);
      if u.out.Fail? then u else ApplySelected(u.tree, store, table, render, ctx, steps[1..])
  }

  /** The files the selected modules write when they all succeed, a later module winning. */
  function StepsWrites(store: Store, table: Table, render: Renderer, ctx: Context, steps: seq<Step>): map<Path, string>
    decreases |steps|
  {
    if steps == [] then map[]
    else
      var w := match Lookup(table, steps[0].category, steps[0].name)
        case None => map[]
        case Some(m) => RecipeWrites(store, RecipeOf(m, ctx), ctx, render);
      w + StepsWrites(store, table, render, ctx, steps[1..])
  }

  /** The two steps before any template: the optional wipe and the creation of the project
      directory. */
  function Prepare(t: FileTree.Tree, path: Path, opts: InitOptions): (r: FileTree.Run)
    ensures r.out.Pass? ==> path in r.tree.dirs || path == []
    ensures r.out.Pass? && !opts.force ==> r.tree.files == t.files
    ensures r.out.Pass? && opts.force ==>
      forall q :: q in r.tree.files <==> q in t.files && !FileTree.Within(path, q)
    ensures r.out.Pass? ==> forall q :: q in r.tree.files ==> q in t.files && r.tree.files[q] == t.files[q]
    ensures opts.force && path == [] ==> r.out.Fail?
    ensures FileTree.Valid(t) ==> FileTree.Valid(r.tree)
  {
    var w := if opts.force then FileTree.RemoveAll(t, path) else FileTree.Run(t, Pass);
    if w.out.Fail? then FileTree.Run(w.tree, Fail(Wrapped("failed to remove existing directory", w.out.error)))
    else
      var d := FileTree.MkdirAll(w.tree, path);
      if d.out.Fail? then FileTree.Run(d.tree, Fail(Wrapped("failed to create project directory", d.out.error)))
      else d
  }

  /** go mod init and go mod tidy must succeed; the result of go fmt is ignored. */
  function PostSteps(tools: ToolResults): (r: Outcome)
    ensures r.Pass? <==> tools.modInit && tools.tidy
    ensures !tools.modInit ==> r == Fail(ToolFailed("go mod init"))
    ensures tools.modInit && !tools.tidy ==> r == Fail(ToolFailed("go mod tidy"))
  {
    if !tools.modInit then Fail(ToolFailed("go mod init"))
    else if !tools.tidy then Fail(ToolFailed("go mod tidy"))
    else Pass
  }

  /** The last step: the go tools run only after every template has been applied. */
  function Finish(m: FileTree.Run, tools: ToolResults): (r: FileTree.Run)
    ensures r.tree == m.tree
    ensures r.out.Pass? <==> m.out.Pass? && PostSteps(tools).Pass?
  {
    if m.out.Fail? then m
    else
      var post := PostSteps(tools);
      if post.Fail? then FileTree.Run(m.tree, Fail(Wrapped("post-generation steps failed", post.error))) else m
  }

  /** Generation inside the prepared project directory: the base bundle, the selected modules
      with one shared context, then the go tools. */
  function GenerateSpec(p: FileTree.Tree, store: Store, table: Table, render: Renderer, path: Path, opts: InitOptions, tools: ToolResults): (r: FileTree.Run)
    ensures FileTree.Valid(p) ==> FileTree.Valid(r.tree)
  {
    var ctx := Context(path, opts, InitData(opts));
    var b := BundleRun(p, store, BaseBundle, path, ctx.templateData, render);
    if b.out.Fail? then FileTree.Run(b.tree, Fail(Wrapped("failed to apply base template", b.out.error)))
    else Finish(ApplySelected(b.tree, store, table, render, ctx, Selected(opts)), tools)
  }

  /** InitProject(path, opts) over a tree. Invalid options change nothing, even with Force. */
  function InitSpec(t: FileTree.Tree, store: Store, table: Table, render: Renderer, path: Path, opts: InitOptions, tools: ToolResults): (r: FileTree.Run)
    ensures Validate(opts).Fail? ==> r == FileTree.Run(t, Validate(opts))
    ensures FileTree.Valid(t) ==> FileTree.Valid(r.tree)
  {
    var v := Validate(opts);
    if v.Fail? then FileTree.Run(t, v)
    else
      var p := Prepare(t, path, opts);
      if p.out.Fail? then p else GenerateSpec(p.tree, store, table, render, path, opts, tools)
  }

  // ---------------------------------------------------------------------------------------
  // Properties of InitProject

  /** With the built-in registry, every module a valid selection asks for is registered. */
  lemma ValidSelectionIsRegistered(table: Table, opts: InitOptions)
    requires HoldsBuiltins(table)
    requires Validate(opts).Pass?
    ensures forall s :: s in Selected(opts) ==> Lookup(table, s.category, s.name).Some?
  {
    forall s | s in Selected(opts) ensures Lookup(table, s.category, s.name).Some? {
      assert Lookup(table, s.category, s.name) == BuiltinEntry(s.category, s.name);
    }
  }

  /** When every selected module is registered, the module steps can only fail inside an
      Apply, with the error wrapped by that step's message. */
  lemma {:induction false} RegisteredModulesFailOnlyInApply(t: FileTree.Tree, store: Store, table: Table, render: Renderer, ctx: Context, steps: seq<Step>)
    requires forall s :: s in steps ==> Lookup(table, s.category, s.name).Some?
    ensures var r := ApplySelected(t, store, table, render, ctx, steps);
      r.out.Fail? ==> r.out.error.Wrapped?
    decreases |steps|
  {
    if steps != [] {
      var u := UseModuleSpec(t, store, table, render, ctx, steps[0]);
      if u.out.Pass? {
        RegisteredModulesFailOnlyInApply(u.tree, store, table, render, ctx, steps[1..]);
      }
    }
  }

  /** On the built-in registry InitProject never reports a missing module: every failure is
      an invalid option or an error wrapped by the step that met it. */
  lemma BuiltinInitNeverMissesModule(t: FileTree.Tree, store: Store, table: Table, render: Renderer, path: Path, opts: InitOptions, tools: ToolResults)
    requires HoldsBuiltins(table)
    ensures var r := InitSpec(t, store, table, render, path, opts, tools);
      r.out.Fail? ==> r.out.error.InvalidOption? || r.out.error.Wrapped?
  {
    if Validate(opts).Pass? {
      var p := Prepare(t, path, opts);
      if p.out.Pass? {
        ValidSelectionIsRegistered(table, opts);
        var ctx := Context(path, opts, InitData(opts));
        var b := BundleRun(p.tree, store, BaseBundle, path, ctx.templateData, render);
        if b.out.Pass? {
          RegisteredModulesFailOnlyInApply(b.tree, store, table, render, ctx, Selected(opts));
        }
      }
    }
  }

  /** Successful module steps overlay each module's writes in order. */
  lemma {:induction false} SelectedSuccessIsOverlay(t: FileTree.Tree, store: Store, table: Table, render: Renderer, ctx: Context, steps: seq<Step>)
    requires ApplySelected(t, store, table, render, ctx, steps).out.Pass?
    ensures ApplySelected(t, store, table, render, ctx, steps).tree.files == t.files + StepsWrites(store, table, render, ctx, steps)
    decreases |steps|
  {
    if steps != [] {
      var u := UseModuleSpec(t, store, table, render, ctx, steps[0]);
      var m := Lookup(table, steps[0].category, steps[0].name).value;
      SelectedSuccessIsOverlay(u.tree, store, table, render, ctx, steps[1..]);
      MapOverrideAssoc(t.files, RecipeWrites(store, RecipeOf(m, ctx), ctx, render), StepsWrites(store, table, render, ctx, steps[1..]));
    }
  }

  /** A successful InitProject leaves the prepared directory overlaid with the base bundle and
      then with every selected module's files, a later write winning. */
  lemma InitSuccessIsOverlay(t: FileTree.Tree, store: Store, table: Table, render: Renderer, path: Path, opts: InitOptions, tools: ToolResults)
    requires InitSpec(t, store, table, render, path, opts, tools).out.Pass?
    ensures InitSpec(t, store, table, render, path, opts, tools).tree.files ==
      Prepare(t, path, opts).tree.files
      + BundleWrites(store, BaseBundle, path, InitData(opts), render)
      + StepsWrites(store, table, render, Context(path, opts, InitData(opts)), Selected(opts))
  {
    var p := Prepare(t, path, opts);
    var ctx := Context(path, opts, InitData(opts));
    var b := BundleRun(p.tree, store, BaseBundle, path, ctx.templateData, render);
    BundleSuccessIsOverlay(p.tree, store, BaseBundle, path, ctx.templateData, render);
    SelectedSuccessIsOverlay(b.tree, store, table, render, ctx, Selected(opts));
  }

  /** With no database, no OpenAPI and no Docker, a successful InitProject writes the base
      bundle only. */
  lemma DefaultInitWritesOnlyBase(t: FileTree.Tree, store: Store, table: Table, render: Renderer, path: Path, opts: InitOptions, tools: ToolResults)
    requires opts.database == "none" && opts.openAPI == "none" && !opts.docker
    requires InitSpec(t, store, table, render, path, opts, tools).out.Pass?
    ensures InitSpec(t, store, table, render, path, opts, tools).tree.files ==
      Prepare(t, path, opts).tree.files + BundleWrites(store, BaseBundle, path, InitData(opts), render)
  {
    InitSuccessIsOverlay(t, store, table, render, path, opts, tools);
    assert Selected(opts) == [];
    OverrideEmpty(Prepare(t, path, opts).tree.files + BundleWrites(store, BaseBundle, path, InitData(opts), render));
  }

  /** When the base bundle fails no module runs: the error is wrapped as a base template
      failure and every file the base bundle does not write is as it was after preparation. */
  lemma BaseFailureAppliesNoModule(t: FileTree.Tree, store: Store, table: Table, render: Renderer, path: Path, opts: InitOptions, tools: ToolResults, q: Path)
    requires Validate(opts).Pass? && Prepare(t, path, opts).out.Pass?
    requires BundleRun(Prepare(t, path, opts).tree, store, BaseBundle, path, InitData(opts), render).out.Fail?
    requires q !in BundleWrites(store, BaseBundle, path, InitData(opts), render)
    ensures var r := InitSpec(t, store, table, render, path, opts, tools);
      var p := Prepare(t, path, opts).tree;
      && r.out == Fail(Wrapped("failed to apply base template", BundleRun(p, store, BaseBundle, path, InitData(opts), render).out.error))
      && (q in r.tree.files <==> q in p.files)
      && (q in p.files ==> r.tree.files[q] == p.files[q])
  {
    BundleTouchesOnlyItsWrites(Prepare(t, path, opts).tree, store, BaseBundle, path, InitData(opts), render, q);
  }

  /** Every failed module sequence failed at one step k, after steps 0..k-1 all succeeded;
      no later module ran. */
  lemma {:induction false} FailedModuleEndsRun(t: FileTree.Tree, store: Store, table: Table, render: Renderer, ctx: Context, steps: seq<Step>)
    requires ApplySelected(t, store, table, render, ctx, steps).out.Fail?
    ensures exists k :: (0 <= k < |steps| && ApplySelected(t, store, table, render, ctx, steps[..k]).out.Pass? &&
      ApplySelected(t, store, table, render, ctx, steps) ==
        UseModuleSpec(ApplySelected(t, store, table, render, ctx, steps[..k]).tree, store, table, render, ctx, steps[k]))
    decreases |steps|
  {
    var u := UseModuleSpec(t, store, table, render, ctx, steps[0]);
    assert steps[..0] == [];
    if u.out.Pass? {
      var rest := steps[1..];
      FailedModuleEndsRun(u.tree, store, table, render, ctx, rest);
      var k :| 0 <= k < |rest| && ApplySelected(u.tree, store, table, render, ctx, rest[..k]).out.Pass? &&
        ApplySelected(u.tree, store, table, render, ctx, rest) ==
          UseModuleSpec(ApplySelected(u.tree, store, table, render, ctx, rest[..k]).tree, store, table, render, ctx, rest[k]);
      PrefixAfterHead(steps, k);
      assert ApplySelected(t, store, table, render, ctx, steps[..k + 1]) == ApplySelected(u.tree, store, table, render, ctx, rest[..k]);
    }
  }

  lemma PrefixAfterHead<T>(s: seq<T>, k: nat)
    requires k + 1 < |s|
    ensures s[..k + 1] != [] && s[..k + 1][0] == s[0] && s[..k + 1][1..] == s[1..][..k]
    ensures s[1..][k] == s[k + 1]
  {
  }

  // ---------------------------------------------------------------------------------------
  // AddModule and getModulePath as functions of the tree

  /** getModulePath: read <path>/go.mod and find its module line. */
  function ModulePathOf(t: FileTree.Tree, path: Path): (r: Result<string>)
    ensures path + ["go.mod"] !in t.files ==> r == Err(Wrapped("failed to read go.mod", NoSuchFile(path + ["go.mod"])))
    ensures path + ["go.mod"] in t.files ==> r == ModulePath(t.files[path + ["go.mod"]])
  {
    match FileTree.ReadFile(t, path + ["go.mod"])
    case Err(e) => Err(Wrapped("failed to read go.mod", e))
    case Ok(content) => ModulePath(content)
  }

  /** The context AddModule starts from: only the module path is known. */
  function AddContext(path: Path, modulePath: string): Context
  {
    Context(path, InitOptions("", modulePath, "", "", "", "", false, "", false), map["ModulePath" := Str(modulePath)])
  }

  /** The module the add command picked and the context it will see. */
  datatype Selection = Selection(found: Option<Module>, ctx: Context)

  /** The name AddModule looks up within the category: the db type, the OpenAPI mode, or ""
      for docker. */
  function Selector(opts: AddOptions): string
  {
    if opts.category == "db" then opts.dbType else if opts.category == "openapi" then opts.mode else ""
  }

  /** The dispatch on the category: "db" needs a type, "openapi" needs a mode, "docker"
      needs nothing, anything else is an unknown module. */
  function Choose(table: Table, opts: AddOptions, ctx: Context): (r: Result<Selection>)
    ensures r.Err? <==>
      || (opts.category == "db" && opts.dbType == "")
      || (opts.category == "openapi" && opts.mode == "")
      || opts.category !in {"db", "openapi", "docker"}
    ensures opts.category == "db" && opts.dbType == "" ==> r == Err(MissingFlag("--type flag is required for db module"))
    ensures opts.category == "openapi" && opts.mode == "" ==> r == Err(MissingFlag("--mode flag is required for openapi module"))
    ensures opts.category !in {"db", "openapi", "docker"} ==> r == Err(UnknownModule(opts.category))
    ensures r.Ok? ==> r.value.found == Lookup(table, opts.category, Selector(opts))
    ensures r.Ok? ==> r.value.ctx.projectPath == ctx.projectPath
  {
    if opts.category == "db" then
      if opts.dbType == "" then Err(MissingFlag("--type flag is required for db module"))
      else
        Ok(Selection(Lookup(table, "db", opts.dbType),
          ctx.(options := ctx.options.(database := opts.dbType), templateData := ctx.templateData["Database" := Str(opts.dbType)])))
    else if opts.category == "openapi" then
      if opts.mode == "" then Err(MissingFlag("--mode flag is required for openapi module"))
      else
        Ok(Selection(Lookup(table, "openapi", opts.mode),
          ctx.(options := ctx.options.(openAPI := opts.mode, specPath := opts.spec), templateData := ctx.templateData["OpenAPI" := Str(opts.mode)])))
    else if opts.category == "docker" then
      Ok(Selection(Lookup(table, "docker", ""),
        ctx.(options := ctx.options.(docker := true), templateData := ctx.templateData["HasDocker" := Flag(true)])))
    else
      Err(UnknownModule(opts.category))
  }

  /** AddModule(path, opts) over a tree. Every check runs before any file is written: only
      the module's own Apply can change the tree. */
  function AddSpec(t: FileTree.Tree, store: Store, table: Table, render: Renderer, path: Path, opts: AddOptions): (r: FileTree.Run)
    ensures ModulePathOf(t, path).Err? ==> r == FileTree.Run(t, Fail(ModulePathOf(t, path).error))
    ensures ModulePathOf(t, path).Ok? ==>
      var sel := Choose(table, opts, AddContext(path, ModulePathOf(t, path).value));
      && (sel.Err? ==> r == FileTree.Run(t, Fail(sel.error)))
      && (sel.Ok? && sel.value.found.None? ==> r == FileTree.Run(t, Fail(ModuleNotFound("module not found: " + opts.category))))
    ensures r.out.Fail? && !(r.out.error.Wrapped? && r.out.error.context == "failed to apply module") ==> r.tree == t
    ensures FileTree.Valid(t) ==> FileTree.Valid(r.tree)
  {
    match ModulePathOf(t, path)
    case Err(e) => FileTree.Run(t, Fail(e))
    case Ok(modulePath) =>
      match Choose(table, opts, AddContext(path, modulePath))
      case Err(e) => FileTree.Run(t, Fail(e))
      case Ok(sel) =>
        match sel.found
        case None => FileTree.Run(t, Fail(ModuleNotFound("module not found: " + opts.category)))
        case Some(m) =>
          var a := RecipeRun(t, store, RecipeOf(m, sel.ctx), sel.ctx, render);
          if a.out.Fail? then FileTree.Run(a.tree, Fail(Wrapped("failed to apply module", a.out.error)))
          else FileTree.Run(a.tree, Pass)
  }

  // ---------------------------------------------------------------------------------------
  // Properties of AddModule

  /** On the built-in registry, a db type or an OpenAPI mode that names no registered module
      is reported as not found, and nothing is written. */
  lemma AddUnknownSelectorIsNotFound(t: FileTree.Tree, store: Store, table: Table, render: Renderer, path: Path, opts: AddOptions)
    requires HoldsBuiltins(table)
    requires ModulePathOf(t, path).Ok?
    requires
      || (opts.category == "db" && opts.dbType !in {"", "postgres", "mongo"})
      || (opts.category == "openapi" && opts.mode !in {"", "gen", "manual"})
    ensures AddSpec(t, store, table, render, path, opts) ==
      FileTree.Run(t, Fail(ModuleNotFound("module not found: " + opts.category)))
  {
    var sel := Choose(table, opts, AddContext(path, ModulePathOf(t, path).value));
    assert sel.Ok? && sel.value.found == None by {
      assert Lookup(table, opts.category, Selector(opts)) == BuiltinEntry(opts.category, Selector(opts));
    }
  }

  /** On the built-in registry, every known selector finds its module: once go.mod declares a
      module path, the only failure left is the module's own Apply. */
  lemma AddKnownSelectorFailsOnlyInApply(t: FileTree.Tree, store: Store, table: Table, render: Renderer, path: Path, opts: AddOptions)
    requires HoldsBuiltins(table)
    requires ModulePathOf(t, path).Ok?
    requires
      || (opts.category == "db" && opts.dbType in {"postgres", "mongo"})
      || (opts.category == "openapi" && opts.mode in {"gen", "manual"})
      || opts.category == "docker"
    ensures var r := AddSpec(t, store, table, render, path, opts);
      r.out.Fail? ==> r.out.error.Wrapped? && r.out.error.context == "failed to apply module"
  {
    var sel := Choose(table, opts, AddContext(path, ModulePathOf(t, path).value));
    assert sel.Ok? && sel.value.found.Some? by {
      assert Lookup(table, opts.category, Selector(opts)) == BuiltinEntry(opts.category, Selector(opts));
    }
  }

  /** A successful add found its module, and overlays exactly what that module's Apply
      writes, in the context the category switch built, on the project's files. */
  lemma AddSuccessIsOverlay(t: FileTree.Tree, store: Store, table: Table, render: Renderer, path: Path, opts: AddOptions)
    requires AddSpec(t, store, table, render, path, opts).out.Pass?
    ensures ModulePathOf(t, path).Ok?
    ensures var sel := Choose(table, opts, AddContext(path, ModulePathOf(t, path).value));
      && sel.Ok? && sel.value.found.Some?
      && AddSpec(t, store, table, render, path, opts).tree.files ==
           t.files + RecipeWrites(store, RecipeOf(sel.value.found.value, sel.value.ctx), sel.value.ctx, render)
  {
  }

  /** Through AddModule postgres never writes migrations: the add command sets no migration
      tool, so a successful add writes the postgres bundle and nothing else. */
  lemma AddedPostgresWritesOnlyItsBundle(t: FileTree.Tree, store: Store, table: Table, render: Renderer, path: Path, opts: AddOptions)
    requires HoldsBuiltins(table)
    requires opts.category == "db" && opts.dbType == "postgres"
    requires AddSpec(t, store, table, render, path, opts).out.Pass?
    ensures ModulePathOf(t, path).Ok?
    ensures var data := map["ModulePath" := Str(ModulePathOf(t, path).value), "Database" := Str("postgres")];
      AddSpec(t, store, table, render, path, opts).tree.files ==
        t.files + BundleWrites(store, PostgresModule.Bundle, path, data, render)
  {
    var ctx := Choose(table, opts, AddContext(path, ModulePathOf(t, path).value)).value.ctx;
    assert Lookup(table, "db", "postgres") == BuiltinEntry("db", "postgres");
    PostgresModule.MigrationsIffGoose(t, store, ctx, render);
  }

  lemma GenSpecWithoutName(t: FileTree.Tree, store: Store, ctx: Context, render: Renderer)
    requires ctx.options.projectName == "" && ctx.options.specPath != ""
    requires RecipeRun(t, store, OpenAPIGenModule.Recipe(ctx), ctx, render).out.Pass?
    ensures var r := RecipeRun(t, store, OpenAPIGenModule.Recipe(ctx), ctx, render);
      ctx.projectPath + ["api", "openapi.yaml"] in r.tree.files &&
      r.tree.files[ctx.projectPath + ["api", "openapi.yaml"]] == OpenAPIGenModule.SpecContent("")
  {
    OpenAPIGenModule.GenWrites(t, store, ctx, render);
  }

  /** Through AddModule the generated OpenAPI spec has an empty project name in its title:
      the add command has no project name to give it. */
  lemma AddedGenSpecHasNoProjectName(t: FileTree.Tree, store: Store, table: Table, render: Renderer, path: Path, opts: AddOptions)
    requires HoldsBuiltins(table)
    requires opts.category == "openapi" && opts.mode == "gen" && opts.spec != ""
    requires AddSpec(t, store, table, render, path, opts).out.Pass?
    ensures var r := AddSpec(t, store, table, render, path, opts);
      path + ["api", "openapi.yaml"] in r.tree.files && r.tree.files[path + ["api", "openapi.yaml"]] == OpenAPIGenModule.SpecContent("")
  {
    var sel := Choose(table, opts, AddContext(path, ModulePathOf(t, path).value));
    assert sel.Ok? && sel.value.found == Some(OpenAPIGen) by {
      assert Lookup(table, "openapi", "gen") == BuiltinEntry("openapi", "gen");
    }
    var ctx := sel.value.ctx;
    var a := RecipeRun(t, store, OpenAPIGenModule.Recipe(ctx), ctx, render);
    assert ctx.projectPath == path && ctx.options.projectName == "" && ctx.options.specPath != "";
    assert AddSpec(t, store, table, render, path, opts) == FileTree.Run(a.tree, Pass) && a.out.Pass?;
    GenSpecWithoutName(t, store, ctx, render);
  }

  // ---------------------------------------------------------------------------------------
  // The engine object

  class Engine {
    const registry: Registry

    /** NewEngine: an engine over a fresh built-in registry. */
    constructor ()
      ensures fresh(registry) && registry.modules == Builtin()
    {
      registry := new Registry();
    }

    /** InitProject. */
    method InitProject(fs: OS.FileSystem, store: Store, render: Renderer, projectPath: Path, opts: InitOptions, tools: ToolResults)
      returns (out: Outcome)
      modifies fs
      ensures FileTree.Run(fs.View(), out) == InitSpec(old(fs.View()), store, registry.modules, render, projectPath, opts, tools)
    {
      out := Validate(opts);
      if out.Fail? {
        return;
      }
      if opts.force {
        out := fs.RemoveAll(projectPath);
        if out.Fail? {
          return Fail(Wrapped("failed to remove existing directory", out.error));
        }
      }
      out := fs.MkdirAll(projectPath);
      if out.Fail? {
        return Fail(Wrapped("failed to create project directory", out.error));
      }
      out := Generate(fs, store, render, projectPath, opts, tools);
    }

    /** InitProject from the base template on, in the prepared directory. */
    method Generate(fs: OS.FileSystem, store: Store, render: Renderer, projectPath: Path, opts: InitOptions, tools: ToolResults)
      returns (out: Outcome)
      modifies fs
      ensures FileTree.Run(fs.View(), out) == GenerateSpec(old(fs.View()), store, registry.modules, render, projectPath, opts, tools)
    {
      var ctx := Context(projectPath, opts, InitData(opts));
      out := ApplyTemplate(fs, store, BaseBundle, projectPath, ctx.templateData, render);
      if out.Fail? {
        return Fail(Wrapped("failed to apply base template", out.error));
      }
      ghost var b := fs.View();
      assert GenerateSpec(old(fs.View()), store, registry.modules, render, projectPath, opts, tools)
        == Finish(ApplySelected(b, store, registry.modules, render, ctx, Selected(opts)), tools);
      out := UseSelected(fs, store, render, ctx, opts);
      if out.Fail? {
        return;
      }
      out := PostSteps(tools);
      if out.Fail? {
        return Fail(Wrapped("post-generation steps failed", out.error));
      }
    }

    /** One of InitProject's three module blocks: look the module up, fail when it is nil,
        apply it and wrap its error. */
    /** The module steps of InitProject: the database, OpenAPI and Docker modules, each only
        when selected, all with the same context. */
    method UseSelected(fs: OS.FileSystem, store: Store, render: Renderer, ctx: Context, opts: InitOptions) returns (out: Outcome)
      modifies fs
      ensures FileTree.Run(fs.View(), out) == ApplySelected(old(fs.View()), store, registry.modules, render, ctx, Selected(opts))
    {
      ghost var b := fs.View();
      ghost var table := registry.modules;
      SelectedShape(opts);
      if opts.database != "none" {
        out := UseFirst(fs, store, render, ctx, DbStep(opts), AfterDb(opts));
        if out.Fail? {
          return;
        }
      }
      assert ApplySelected(b, store, table, render, ctx, Selected(opts))
        == ApplySelected(fs.View(), store, table, render, ctx, AfterDb(opts));
      ghost var b2 := fs.View();
      if opts.openAPI != "none" {
        out := UseFirst(fs, store, render, ctx, OpenAPIStep(opts), AfterOpenAPI(opts));
        if out.Fail? {
          return;
        }
      }
      assert ApplySelected(b2, store, table, render, ctx, AfterDb(opts))
        == ApplySelected(fs.View(), store, table, render, ctx, AfterOpenAPI(opts));
      ghost var b3 := fs.View();
      if opts.docker {
        out := UseFirst(fs, store, render, ctx, DockerStep, []);
        if out.Fail? {
          return;
        }
      }
      assert ApplySelected(b3, store, table, render, ctx, AfterOpenAPI(opts)) == FileTree.Run(fs.View(), Pass);
      out := Pass;
    }

    /** UseModule on the first of the remaining steps, followed through ApplySelected. */
    method UseFirst(fs: OS.FileSystem, store: Store, render: Renderer, ctx: Context, s: Step, ghost rest: seq<Step>) returns (out: Outcome)
      modifies fs
      ensures out.Fail? ==>
        ApplySelected(old(fs.View()), store, registry.modules, render, ctx, [s] + rest) == FileTree.Run(fs.View(), out)
      ensures out.Pass? ==>
        ApplySelected(old(fs.View()), store, registry.modules, render, ctx, [s] + rest)
          == ApplySelected(fs.View(), store, registry.modules, render, ctx, rest)
    {
      out := UseModule(fs, store, render, ctx, s);
      assert ([s] + rest)[0] == s && ([s] + rest)[1..] == rest;
    }

    method UseModule(fs: OS.FileSystem, store: Store, render: Renderer, ctx: Context, s: Step) returns (out: Outcome)
      modifies fs
      ensures FileTree.Run(fs.View(), out) == UseModuleSpec(old(fs.View()), store, registry.modules, render, ctx, s)
    {
      var mod := registry.GetModule(s.category, s.name);
      if mod.None? {
        return Fail(ModuleNotFound(s.missing));
      }
      out := Modules.Apply(mod.value, fs, store, ctx, render);
      if out.Fail? {
        return Fail(Wrapped(s.message, out.error));
      }
    }

    /** The switch on the category in AddModule: the module it looks up and the context it
        fills in, or the error for a missing flag or an unknown category. */
    method Select(opts: AddOptions, ctx0: Context) returns (r: Result<Selection>)
      ensures r == Choose(registry.modules, opts, ctx0)
    {
      var ctx := ctx0;
      var mod: Option<Module>;
      if opts.category == "db" {
        if opts.dbType == "" {
          return Err(MissingFlag("--type flag is required for db module"));
        }
        mod := registry.GetModule("db", opts.dbType);
        ctx := ctx.(options := ctx.options.(database := opts.dbType));
        ctx := ctx.(templateData := ctx.templateData["Database" := Str(opts.dbType)]);
      } else if opts.category == "openapi" {
        if opts.mode == "" {
          return Err(MissingFlag("--mode flag is required for openapi module"));
        }
        mod := registry.GetModule("openapi", opts.mode);
        ctx := ctx.(options := ctx.options.(openAPI := opts.mode));
        ctx := ctx.(options := ctx.options.(specPath := opts.spec));
        ctx := ctx.(templateData := ctx.templateData["OpenAPI" := Str(opts.mode)]);
      } else if opts.category == "docker" {
        mod := registry.GetModule("docker", "");
        ctx := ctx.(options := ctx.options.(docker := true));
        ctx := ctx.(templateData := ctx.templateData["HasDocker" := Flag(true)]);
      } else {
        return Err(UnknownModule(opts.category));
      }
      return Ok(Selection(mod, ctx));
    }

    /** AddModule. A failing go mod tidy only prints a warning, so it does not appear. */
    method AddModule(fs: OS.FileSystem, store: Store, render: Renderer, projectPath: Path, opts: AddOptions)
      returns (out: Outcome)
      modifies fs
      ensures FileTree.Run(fs.View(), out) == AddSpec(old(fs.View()), store, registry.modules, render, projectPath, opts)
    {
      var modPath := GetModulePath(fs, projectPath);
      if modPath.Err? {
        return Fail(modPath.error);
      }
      var sel := Select(opts, AddContext(projectPath, modPath.value));
      if sel.Err? {
        return Fail(sel.error);
      }
      var mod := sel.value.found;
      var ctx := sel.value.ctx;
      if mod.None? {
        return Fail(ModuleNotFound("module not found: " + opts.category));
      }
      out := Modules.Apply(mod.value, fs, store, ctx, render);
      if out.Fail? {
        return Fail(Wrapped("failed to apply module", out.error));
      }
      return Pass;
    }

    /** applyTemplate: the same walk as modules.ApplyModuleTemplate. */
    method ApplyTemplate(fs: OS.FileSystem, store: Store, templatePath: Path, destPath: Path, data: Data, render: Renderer)
      returns (out: Outcome)
      modifies fs
      ensures FileTree.Run(fs.View(), out) == BundleRun(old(fs.View()), store, templatePath, destPath, data, render)
    {
      out := ApplyModuleTemplate(fs, store, templatePath, destPath, data, render);
    }

    /** getModulePath: scan the lines of go.mod for the first module line. */
    method GetModulePath(fs: OS.FileSystem, projectPath: Path) returns (r: Result<string>)
      ensures r == ModulePathOf(fs.View(), projectPath)
    {
      var content := fs.ReadFile(projectPath + ["go.mod"]);
      if content.Err? {
        return Err(Wrapped("failed to read go.mod", content.error));
      }
      assert ModulePathOf(fs.View(), projectPath) == ModulePath(content.value);
      var lines := Split(content.value, '\n');
      ModulePrefixIsKeyword();
      for i := 0 to |lines|
        invariant i <= FirstDeclaring(lines, ModulePrefix)
      {
        var line := TrimSpace(lines[i]);
        if HasPrefix(line, ModulePrefix) {
          ScanStopsAtLine(lines, ModulePrefix, i);
          return Ok(TrimSpace(TrimPrefix(line, ModulePrefix)));
        }
        ScanPassesLine(lines, ModulePrefix, i);
      }
      return Err(ModulePathNotFound);
    }
  }
}
