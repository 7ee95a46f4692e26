/** OpenAPIGenModule: the gen bundle; then, when a spec path is given, an example
    api/openapi.yaml titled after the project; then, always, a Makefile with the code
    generation targets. */
module OpenAPIGenModule {
  import opened Paths
  import opened Common
  import FileTree
  import opened TemplateStore
  import opened Overlay
  import opened Recipes
  import OS

  const Name := "openapi-gen"
  const Bundle: Path := ["files", "openapi", "gen"]
  const Message := "failed to apply openapi gen template"

  /** The example spec up to the project name in its title line. */
  const SpecHead: string := "openapi: 3.0.0\n" + "info:\n" + "  title: "

  /** The example spec from the end of the title line on. */
  const SpecTail: string :=
    " API\n" +
    "  version: 1.0.0\n" +
    "paths:\n" +
    "  /health:\n" +
    "    get:\n" +
    "      summary: Health check\n" +
    "      responses:\n" +
    "        '200':\n" +
    "          description: Service is healthy\n" +
    "          content:\n" +
    "            application/json:\n" +
    "              schema:\n" +
    "                type: object\n" +
    "                properties:\n" +
    "                  status:\n" +
    "                    type: string\n" +
    "  /api/v1/users:\n" +
    "    get:\n" +
    "      summary: List users\n" +
    "      responses:\n" +
    "        '200':\n" +
    "          description: List of users\n" +
    "          content:\n" +
    "            application/json:\n" +
    "              schema:\n" +
    "                type: array\n" +
    "                items:\n" +
    "                  type: object\n" +
    "                  properties:\n" +
    "                    id:\n" +
    "                      type: integer\n" +
    "                    email:\n" +
    "                      type: string\n"

  /** The example spec for a project: the title line is the project name followed by " API". */
  function SpecContent(projectName: string): string
  {
    SpecHead + projectName + SpecTail
  }

  /** The example spec is the fixed head, the project name, and the fixed tail, in that order. */
  lemma SpecLayout(projectName: string)
    ensures var r := SpecContent(projectName);
      && r[..|SpecHead|] == SpecHead
      && r[|SpecHead|..|SpecHead| + |projectName|] == projectName
      && r[|SpecHead| + |projectName|..] == SpecTail
  {
  }

  /** The Makefile with the generate and api-gen targets. */
  const MakefileText: string :=
    ".PHONY: generate\n" +
    "generate:\n" +
    "\tgo generate ./...\n" +
    "\n" +
    ".PHONY: api-gen\n" +
    "api-gen:\n" +
    "\toapi-codegen -package generated -generate types,chi-server,spec api/openapi.yaml > internal/api/generated/api.gen.go\n"

  function SpecFile(ctx: Context): Path
  {
    ctx.projectPath + ["api", "openapi.yaml"]
  }

  function MakefilePath(ctx: Context): Path
  {
    ctx.projectPath + ["Makefile"]
  }

  function Recipe(ctx: Context): Recipes.Recipe
  {
    var makefile := Extra(MakefilePath(ctx), MakefileText);
    var extras := if ctx.options.specPath != "" then
      [Extra(SpecFile(ctx), SpecContent(ctx.options.projectName)), makefile]
    else
      [makefile];
    Recipes.Recipe(Bundle, Message, extras)
  }

  method Apply(fs: OS.FileSystem, store: Store, ctx: Context, render: Renderer) returns (out: Outcome)
    modifies fs
    ensures FileTree.Run(fs.View(), out) == RecipeRun(old(fs.View()), store, Recipe(ctx), ctx, render)
  {
    ghost var t0 := fs.View();
    out := ApplyModuleTemplate(fs, store, Bundle, ctx.projectPath, ctx.templateData, render);
    if out.Fail? {
      return Fail(Wrapped(Message, out.error));
    }
    ghost var rest := Recipe(ctx).extras;
    assert RecipeRun(t0, store, Recipe(ctx), ctx, render) == ExtrasRun(fs.View(), rest);
    if ctx.options.specPath != "" {
      ghost var b := fs.View();
      out := WriteFile(fs, SpecFile(ctx), SpecContent(ctx.options.projectName));
      ExtrasStep(b, rest);
      if out.Fail? {
        return;
      }
      rest := rest[1..];
    }
    assert |rest| == 1 && rest[0] == Extra(MakefilePath(ctx), MakefileText);
    ghost var m := fs.View();
    out := WriteFile(fs, MakefilePath(ctx), MakefileText);
    ExtrasStep(m, rest);
    if out.Fail? {
      return;
    }
    assert |rest[1..]| == 0;
    return Pass;
  }

  /** Two projects get the same example spec only when they have the same name. */
  lemma SpecTitleIdentifiesProject(a: string, b: string)
    requires SpecContent(a) == SpecContent(b)
    ensures a == b
  {
    SpecLayout(a);
    SpecLayout(b);
  }

  /** After a successful Apply the Makefile holds the fixed text, whatever the bundle wrote
      there, and api/openapi.yaml holds the example spec when a spec path is given. */
  lemma GenWrites(t: FileTree.Tree, store: Store, ctx: Context, render: Renderer)
    requires RecipeRun(t, store, Recipe(ctx), ctx, render).out.Pass?
    ensures var r := RecipeRun(t, store, Recipe(ctx), ctx, render);
      MakefilePath(ctx) in r.tree.files && r.tree.files[MakefilePath(ctx)] == MakefileText
    ensures var r := RecipeRun(t, store, Recipe(ctx), ctx, render);
      ctx.options.specPath != "" ==>
        SpecFile(ctx) in r.tree.files && r.tree.files[SpecFile(ctx)] == SpecContent(ctx.options.projectName)
  {
    var xs := Recipe(ctx).extras;
    if ctx.options.specPath != "" {
      assert |xs| == 2 && xs[1].path == MakefilePath(ctx) && xs[0].path == SpecFile(ctx);
      assert |SpecFile(ctx)| != |MakefilePath(ctx)|;
      ExtraLands(t, store, Recipe(ctx), ctx, render, 0);
      ExtraLands(t, store, Recipe(ctx), ctx, render, 1);
    } else {
      assert |xs| == 1;
      ExtraLands(t, store, Recipe(ctx), ctx, render, 0);
    }
  }

  /** Without a spec path, a successful Apply leaves at api/openapi.yaml only what the bundle
      or the tree already had there. */
  lemma NoSpecPathNoSpecFile(t: FileTree.Tree, store: Store, ctx: Context, render: Renderer)
    requires ctx.options.specPath == ""
    requires RecipeRun(t, store, Recipe(ctx), ctx, render).out.Pass?
    ensures var r := RecipeRun(t, store, Recipe(ctx), ctx, render);
      var before := t.files + BundleWrites(store, Bundle, ctx.projectPath, ctx.templateData, render);
      (SpecFile(ctx) in r.tree.files <==> SpecFile(ctx) in before) &&
      (SpecFile(ctx) in before ==> r.tree.files[SpecFile(ctx)] == before[SpecFile(ctx)])
  {
    var xs := Recipe(ctx).extras;
    assert |xs| == 1 && xs[0].path == MakefilePath(ctx);
    assert |SpecFile(ctx)| != |MakefilePath(ctx)|;
    ExtraWritesKeys(xs, SpecFile(ctx));
  }

  /** When writing the spec fails, Apply returns that error as it is and the Makefile is not
      written: the tree is what the bundle left. */
  lemma SpecFailureSkipsMakefile(t: FileTree.Tree, store: Store, ctx: Context, render: Renderer)
    requires ctx.options.specPath != ""
    requires BundleRun(t, store, Bundle, ctx.projectPath, ctx.templateData, render).out.Pass?
    requires WriteFileRun(BundleRun(t, store, Bundle, ctx.projectPath, ctx.templateData, render).tree, SpecFile(ctx),
      SpecContent(ctx.options.projectName)).out.Fail?
    ensures var b := BundleRun(t, store, Bundle, ctx.projectPath, ctx.templateData, render);
      var r := RecipeRun(t, store, Recipe(ctx), ctx, render);
      r.out == WriteFileRun(b.tree, SpecFile(ctx), SpecContent(ctx.options.projectName)).out && r.tree.files == b.tree.files
  {
  }

  /** The spec path only switches the example spec on: its value is never read. */
  lemma SpecPathValueIgnored(t: FileTree.Tree, store: Store, ctx: Context, specPath: string, render: Renderer)
    requires ctx.options.specPath != "" && specPath != ""
    ensures var ctx' := ctx.(options := ctx.options.(specPath := specPath));
      RecipeRun(t, store, Recipe(ctx), ctx, render) == RecipeRun(t, store, Recipe(ctx'), ctx', render)
  {
  }
}

/** OpenAPIManualModule: overlays the manual bundle and nothing else. */
module OpenAPIManualModule {
  import opened Paths
  import opened Common
  import FileTree
  import opened TemplateStore
  import opened Overlay
  import opened Recipes
  import OS

  const Name := "openapi-manual"
  const Bundle: Path := ["files", "openapi", "manual"]
  const Message := "failed to apply openapi manual template"

  function Recipe(ctx: Context): Recipes.Recipe
  {
    Recipes.Recipe(Bundle, Message, [])
  }

  method Apply(fs: OS.FileSystem, store: Store, ctx: Context, render: Renderer) returns (out: Outcome)
    modifies fs
    ensures FileTree.Run(fs.View(), out) == RecipeRun(old(fs.View()), store, Recipe(ctx), ctx, render)
  {
    out := ApplyModuleTemplate(fs, store, Bundle, ctx.projectPath, ctx.templateData, render);
    if out.Fail? {
      return Fail(Wrapped(Message, out.error));
    }
    return Pass;
  }

  /** A successful Apply writes exactly what the bundle produces; a failing one returns the
      bundle error wrapped with this module's message and leaves every other file as it was. */
  lemma WritesOnlyItsBundle(t: FileTree.Tree, store: Store, ctx: Context, render: Renderer, p: Path)
    ensures var r := RecipeRun(t, store, Recipe(ctx), ctx, render);
      r.out.Pass? ==> r.tree.files == t.files + BundleWrites(store, Bundle, ctx.projectPath, ctx.templateData, render)
    ensures var r := RecipeRun(t, store, Recipe(ctx), ctx, render);
      r.out.Fail? ==> (
        && r.out.error == Wrapped(Message, BundleRun(t, store, Bundle, ctx.projectPath, ctx.templateData, render).out.error)
        && (p !in BundleWrites(store, Bundle, ctx.projectPath, ctx.templateData, render) ==>
          (p in r.tree.files <==> p in t.files) && (p in t.files ==> r.tree.files[p] == t.files[p])))
  {
    BundleOnlyRecipe(t, store, Recipe(ctx), ctx, render, p);
  }
}
