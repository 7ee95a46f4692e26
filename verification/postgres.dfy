/** PostgresModule: the postgres bundle, then, when goose migrations are selected, an empty
    migrations/.gitkeep and the initial goose migration, in that order. */
module PostgresModule {
  import opened Paths
  import opened Common
  import FileTree
  import opened TemplateStore
  import opened Overlay
  import opened Recipes
  import OS

  const Name := "postgres"
  const Bundle: Path := ["files", "db", "postgres"]
  const Message := "failed to apply postgres template"

  /** The goose Up/Down migration creating and dropping the users table. */
  const InitialMigration: string :=
    "-- +goose Up\n" +
    "-- +goose StatementBegin\n" +
    "CREATE TABLE IF NOT EXISTS users (\n" +
    "    id SERIAL PRIMARY KEY,\n" +
    "    email VARCHAR(255) UNIQUE NOT NULL,\n" +
    "    created_at TIMESTAMP DEFAULT CURRENT_TIMESTAMP,\n" +
    "    updated_at TIMESTAMP DEFAULT CURRENT_TIMESTAMP\n" +
    ");\n" +
    "-- +goose StatementEnd\n" +
    "\n" +
    "-- +goose Down\n" +
    "-- +goose StatementBegin\n" +
    "DROP TABLE IF EXISTS users;\n" +
    "-- +goose StatementEnd\n"

  function GitKeep(ctx: Context): Path
  {
    ctx.projectPath + ["migrations", ".gitkeep"]
  }

  function InitialSql(ctx: Context): Path
  {
    ctx.projectPath + ["migrations", "00001_initial.sql"]
  }

  function Recipe(ctx: Context): Recipes.Recipe
  {
    var extras := if ctx.options.migrations == "goose" then
      [Extra(GitKeep(ctx), ""), Extra(InitialSql(ctx), InitialMigration)]
    else
      [];
    Recipes.Recipe(Bundle, Message, extras)
  }

  method Apply(fs: OS.FileSystem, store: Store, ctx: Context, render: Renderer) returns (out: Outcome)
    modifies fs
    ensures FileTree.Run(fs.View(), out) == RecipeRun(old(fs.View()), store, Recipe(ctx), ctx, render)
  {
    ghost var t0 := fs.View();
    out := ApplyModuleTemplate(fs, store, Bundle, ctx.projectPath, ctx.templateData, render);
    if out.Fail? {
      return Fail(Wrapped(Message, out.error));
    }
    ghost var rest := Recipe(ctx).extras;
    assert RecipeRun(t0, store, Recipe(ctx), ctx, render) == ExtrasRun(fs.View(), rest);
    if ctx.options.migrations == "goose" {
      ghost var b := fs.View();
      out := WriteFile(fs, GitKeep(ctx), "");
      ExtrasStep(b, rest);
      if out.Fail? {
        return;
      }
      rest := rest[1..];
      assert |rest| == 1 && rest[0] == Extra(InitialSql(ctx), InitialMigration);
      ghost var w := fs.View();
      out := WriteFile(fs, InitialSql(ctx), InitialMigration);
      ExtrasStep(w, rest);
      if out.Fail? {
        return;
      }
      assert |rest[1..]| == 0;
    }
    return Pass;
  }

  /** After a successful Apply with goose, .gitkeep is empty and the initial migration holds
      the goose text. */
  lemma GooseWritesMigrations(t: FileTree.Tree, store: Store, ctx: Context, render: Renderer)
    requires ctx.options.migrations == "goose"
    requires RecipeRun(t, store, Recipe(ctx), ctx, render).out.Pass?
    ensures var r := RecipeRun(t, store, Recipe(ctx), ctx, render);
      && GitKeep(ctx) in r.tree.files && r.tree.files[GitKeep(ctx)] == ""
      && InitialSql(ctx) in r.tree.files && r.tree.files[InitialSql(ctx)] == InitialMigration
  {
    var rc := Recipe(ctx);
    assert |rc.extras| == 2 && rc.extras[0] == Extra(GitKeep(ctx), "") && rc.extras[1] == Extra(InitialSql(ctx), InitialMigration);
    assert GitKeep(ctx) != InitialSql(ctx) by {
      assert GitKeep(ctx)[|ctx.projectPath| + 1] != InitialSql(ctx)[|ctx.projectPath| + 1];
    }
    ExtraLands(t, store, rc, ctx, render, 0);
    ExtraLands(t, store, rc, ctx, render, 1);
  }

  /** After a successful Apply without goose, exactly the bundle's files are written. */
  lemma NoGooseWritesOnlyBundle(t: FileTree.Tree, store: Store, ctx: Context, render: Renderer)
    requires ctx.options.migrations != "goose"
    requires RecipeRun(t, store, Recipe(ctx), ctx, render).out.Pass?
    ensures RecipeRun(t, store, Recipe(ctx), ctx, render).tree.files ==
      t.files + BundleWrites(store, Bundle, ctx.projectPath, ctx.templateData, render)
  {
    BundleOnlyRecipe(t, store, Recipe(ctx), ctx, render, []);
  }

  /** After a successful Apply: with goose, .gitkeep is empty and the initial migration holds
      the goose text; without goose, exactly the bundle's files are written. */
  lemma MigrationsIffGoose(t: FileTree.Tree, store: Store, ctx: Context, render: Renderer)
    requires RecipeRun(t, store, Recipe(ctx), ctx, render).out.Pass?
    ensures var r := RecipeRun(t, store, Recipe(ctx), ctx, render);
      ctx.options.migrations == "goose" ==>
        && GitKeep(ctx) in r.tree.files && r.tree.files[GitKeep(ctx)] == ""
        && InitialSql(ctx) in r.tree.files && r.tree.files[InitialSql(ctx)] == InitialMigration
    ensures var r := RecipeRun(t, store, Recipe(ctx), ctx, render);
      ctx.options.migrations != "goose" ==>
        r.tree.files == t.files + BundleWrites(store, Bundle, ctx.projectPath, ctx.templateData, render)
  {
    if ctx.options.migrations == "goose" {
      GooseWritesMigrations(t, store, ctx, render);
    } else {
      NoGooseWritesOnlyBundle(t, store, ctx, render);
    }
  }

  /** When writing .gitkeep fails, Apply returns that error as it is and the migration file
      is not written: the tree is what the bundle left. */
  lemma GitKeepFailureSkipsMigration(t: FileTree.Tree, store: Store, ctx: Context, render: Renderer)
    requires ctx.options.migrations == "goose"
    requires BundleRun(t, store, Bundle, ctx.projectPath, ctx.templateData, render).out.Pass?
    requires WriteFileRun(BundleRun(t, store, Bundle, ctx.projectPath, ctx.templateData, render).tree, GitKeep(ctx), "").out.Fail?
    ensures var b := BundleRun(t, store, Bundle, ctx.projectPath, ctx.templateData, render);
      var r := RecipeRun(t, store, Recipe(ctx), ctx, render);
      r.out == WriteFileRun(b.tree, GitKeep(ctx), "").out && r.tree.files == b.tree.files
  {
  }

  /** A bundle failure is wrapped with the postgres message and writes no migration file. */
  lemma BundleFailureWritesNoMigrations(t: FileTree.Tree, store: Store, ctx: Context, render: Renderer)
    requires BundleRun(t, store, Bundle, ctx.projectPath, ctx.templateData, render).out.Fail?
    requires GitKeep(ctx) !in BundleWrites(store, Bundle, ctx.projectPath, ctx.templateData, render)
    requires InitialSql(ctx) !in BundleWrites(store, Bundle, ctx.projectPath, ctx.templateData, render)
    ensures var r := RecipeRun(t, store, Recipe(ctx), ctx, render);
      && r.out.Fail? && r.out.error.Wrapped? && r.out.error.context == Message
      && (GitKeep(ctx) in r.tree.files <==> GitKeep(ctx) in t.files)
      && (InitialSql(ctx) in r.tree.files <==> InitialSql(ctx) in t.files)
  {
    RecipeTouchesOnlyItsWrites(t, store, Recipe(ctx), ctx, render, GitKeep(ctx));
    RecipeTouchesOnlyItsWrites(t, store, Recipe(ctx), ctx, render, InitialSql(ctx));
  }
}
