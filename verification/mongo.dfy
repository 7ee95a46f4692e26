/** MongoModule: overlays the mongo bundle and nothing else. */
module MongoModule {
  import opened Paths
  import opened Common
  import FileTree
  import opened TemplateStore
  import opened Overlay
  import opened Recipes
  import OS

  const Name := "mongo"
  const Bundle: Path := ["files", "db", "mongo"]
  const Message := "failed to apply mongo template"

  function Recipe(ctx: Context): Recipes.Recipe
  {
    Recipes.Recipe(Bundle, Message, [])
  }

  method Apply(fs: OS.FileSystem, store: Store, ctx: Context, render: Renderer) returns (out: Outcome)
    modifies fs
    ensures FileTree.Run(fs.View(), out) == RecipeRun(old(fs.View()), store, Recipe(ctx), ctx, render)
  {
    out := ApplyModuleTemplate(fs, store, Bundle, ctx.projectPath, ctx.templateData, render);
    if out.Fail? {
      return Fail(Wrapped(Message, out.error));
    }
    return Pass;
  }

  /** A successful Apply writes exactly what the bundle produces, and no migration
      file even when goose migrations are selected; a failing one returns
      the bundle error wrapped with this module's message and leaves every other file as it was. */
  lemma WritesOnlyItsBundle(t: FileTree.Tree, store: Store, ctx: Context, render: Renderer, p: Path)
    ensures var r := RecipeRun(t, store, Recipe(ctx), ctx, render);
      r.out.Pass? ==> r.tree.files == t.files + BundleWrites(store, Bundle, ctx.projectPath, ctx.templateData, render)
    ensures var r := RecipeRun(t, store, Recipe(ctx), ctx, render);
      r.out.Fail? ==> (
        && r.out.error == Wrapped(Message, BundleRun(t, store, Bundle, ctx.projectPath, ctx.templateData, render).out.error)
        && (p !in BundleWrites(store, Bundle, ctx.projectPath, ctx.templateData, render) ==>
          (p in r.tree.files <==> p in t.files) && (p in t.files ==> r.tree.files[p] == t.files[p])))
  {
    BundleOnlyRecipe(t, store, Recipe(ctx), ctx, render, p);
  }

  /** The outcome does not depend on the options in the context. */
  lemma IgnoresOptions(t: FileTree.Tree, store: Store, ctx: Context, options: InitOptions, render: Renderer)
    ensures RecipeRun(t, store, Recipe(ctx), ctx, render) ==
      RecipeRun(t, store, Recipe(ctx.(options := options)), ctx.(options := options), render)
  {
  }
}
