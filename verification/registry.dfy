/** The modules package: the closed set of modules, dispatch of Name and Apply over them, and
    the registry, a two-level table category -> name -> module. */
module Modules {
  import opened Common
  import FileTree
  import opened TemplateStore
  import opened Recipes
  import OS
  import PostgresModule
  import MongoModule
  import OpenAPIGenModule
  import OpenAPIManualModule
  import DockerModule

  datatype Module = Postgres | Mongo | OpenAPIGen | OpenAPIManual | Docker

  function Name(m: Module): string
  {
    match m
    case Postgres => PostgresModule.Name
    case Mongo => MongoModule.Name
    case OpenAPIGen => OpenAPIGenModule.Name
    case OpenAPIManual => OpenAPIManualModule.Name
    case Docker => DockerModule.Name
  }

  /** Every module reports a different name. */
  lemma NamesAreDistinct(a: Module, b: Module)
    ensures Name(a) == Name(b) <==> a == b
  {
  }

  /** What m.Apply(ctx) does, as a bundle and extra files. */
  function RecipeOf(m: Module, ctx: Context): Recipe
  {
    match m
    case Postgres => PostgresModule.Recipe(ctx)
    case Mongo => MongoModule.Recipe(ctx)
    case OpenAPIGen => OpenAPIGenModule.Recipe(ctx)
    case OpenAPIManual => OpenAPIManualModule.Recipe(ctx)
    case Docker => DockerModule.Recipe(ctx)
  }

  /** The interface call m.Apply(ctx). */
  method Apply(m: Module, fs: OS.FileSystem, store: Store, ctx: Context, render: Renderer) returns (out: Outcome)
    modifies fs
    ensures FileTree.Run(fs.View(), out) == RecipeRun(old(fs.View()), store, RecipeOf(m, ctx), ctx, render)
  {
    match m {
      case Postgres => out := PostgresModule.Apply(fs, store, ctx, render);
      case Mongo => out := MongoModule.Apply(fs, store, ctx, render);
      case OpenAPIGen => out := OpenAPIGenModule.Apply(fs, store, ctx, render);
      case OpenAPIManual => out := OpenAPIManualModule.Apply(fs, store, ctx, render);
      case Docker => out := DockerModule.Apply(fs, store, ctx, render);
    }
  }

  // ---------------------------------------------------------------------------------------
  // The registry table

  type Table = map<string, map<string, Module>>

  /** The module at (category, name), or None (Go's nil). */
  function Lookup(table: Table, category: string, name: string): Option<Module>
  {
    if category in table && name in table[category] then Some(table[category][name]) else None
  }

  /** Register on a table value: create the category's inner map when missing, then insert or
      overwrite the entry. */
  function Insert(table: Table, category: string, name: string, m: Module): (r: Table)
    ensures Lookup(r, category, name) == Some(m)
    ensures forall c, n :: (c, n) != (category, name) ==> Lookup(r, c, n) == Lookup(table, c, n)
  {
    var inner := if category in table then table[category] else map[];
    table[category := inner[name := m]]
  }

  /** The table NewRegistry builds, by its five Register calls in order. */
  function Builtin(): Table
  {
    var t := Insert(map[], "db", "postgres", Postgres);
    var t := Insert(t, "db", "mongo", Mongo);
    var t := Insert(t, "openapi", "gen", OpenAPIGen);
    var t := Insert(t, "openapi", "manual", OpenAPIManual);
    Insert(t, "docker", "", Docker)
  }

  /** The five built-in registrations, listed. */
  function BuiltinEntry(category: string, name: string): Option<Module>
  {
    if category == "db" && name == "postgres" then Some(Postgres)
    else if category == "db" && name == "mongo" then Some(Mongo)
    else if category == "openapi" && name == "gen" then Some(OpenAPIGen)
    else if category == "openapi" && name == "manual" then Some(OpenAPIManual)
    else if category == "docker" && name == "" then Some(Docker)
    else None
  }

  /** NewRegistry holds exactly the five built-in modules: every other lookup, for an unknown
      category or an unknown name in a known one, is nil. */
  lemma BuiltinHoldsExactlyFive(category: string, name: string)
    ensures Lookup(Builtin(), category, name) == BuiltinEntry(category, name)
  {
    var t1 := Insert(map[], "db", "postgres", Postgres);
    var t2 := Insert(t1, "db", "mongo", Mongo);
    var t3 := Insert(t2, "openapi", "gen", OpenAPIGen);
    var t4 := Insert(t3, "openapi", "manual", OpenAPIManual);
    var t5 := Insert(t4, "docker", "", Docker);
    assert Lookup(map[], category, name) == None;
  }

  /** A table that answers every lookup as NewRegistry's table does. */
  ghost predicate HoldsBuiltins(table: Table)
  {
    forall c, n :: Lookup(table, c, n) == BuiltinEntry(c, n)
  }

  lemma BuiltinHoldsBuiltins()
    ensures HoldsBuiltins(Builtin())
  {
    forall c, n ensures Lookup(Builtin(), c, n) == BuiltinEntry(c, n) {
      BuiltinHoldsExactlyFive(c, n);
    }
  }

  class Registry {
    var modules: Table

    /** NewRegistry. */
    constructor ()
      ensures modules == Builtin()
      ensures forall c, n :: GetModule(c, n) == BuiltinEntry(c, n)
    {
      modules := map[];
      new;
      Register("db", "postgres", Postgres);
      Register("db", "mongo", Mongo);
      Register("openapi", "gen", OpenAPIGen);
      Register("openapi", "manual", OpenAPIManual);
      Register("docker", "", Docker);
      forall c, n ensures GetModule(c, n) == BuiltinEntry(c, n) {
        BuiltinHoldsExactlyFive(c, n);
      }
    }

    /** Register inserts or overwrites (category, name) and leaves every other entry alone. */
    method Register(category: string, name: string, m: Module)
      modifies this
      ensures modules == Insert(old(modules), category, name, m)
      ensures GetModule(category, name) == Some(m)
      ensures forall c, n :: (c, n) != (category, name) ==> GetModule(c, n) == old(GetModule(c, n))
    {
      if category !in modules {
        modules := modules[category := map[]];
      }
      modules := modules[category := modules[category][name := m]];
    }

    /** GetModule: the registered module, or nil when the category or the name is unknown. */
    function GetModule(category: string, name: string): (r: Option<Module>)
      reads this
      ensures r.None? <==> category !in modules || name !in modules[category]
      ensures r.Some? ==> r.value == modules[category][name]
    {
      Lookup(modules, category, name)
    }
  }
}
