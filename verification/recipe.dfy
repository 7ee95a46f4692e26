/** What every module's Apply does: overlay its own bundle onto the project directory, wrap a
    bundle error with the module's message, and then write a fixed list of extra files in
    order through modules.WriteFile, returning the first write error as it is. */
module Recipes {
  import opened Paths
  import opened Common
  import opened FileTree
  import opened TemplateStore
  import opened Overlay

  /** One file a module writes after its bundle: where, and what. */
  datatype Extra = Extra(path: Path, content: string)

  /** A module's Apply for one context: its bundle, the message a bundle error is wrapped
      with, and the extra files in the order they are written. */
  datatype Recipe = Recipe(bundle: Path, message: string, extras: seq<Extra>)

  /** The files a list of extras writes, a later write to the same path winning. */
  function ExtraWrites(xs: seq<Extra>): map<Path, string>
    decreases |xs|
  {
    if xs == [] then map[] else map[xs[0].path := xs[0].content] + ExtraWrites(xs[1..])
  }

  /** The extra writes in order; the first failing write ends the sequence. */
  function ExtrasRun(t: Tree, xs: seq<Extra>): (r: Run)
    ensures r.out.Pass? ==> r.tree.files == t.files + ExtraWrites(xs)
    ensures t.dirs <= r.tree.dirs && t.files.Keys <= r.tree.files.Keys
    ensures Valid(t) ==> Valid(r.tree)
    decreases |xs|
  {
    if xs == [] then Run(t, Pass)
    else
      var w := WriteFileRun(t, xs[0].path, xs[0].content);
      if w.out.Fail? then w
      else
        var one := map[xs[0].path := xs[0].content];
        assert t.files[xs[0].path := xs[0].content] == t.files + one;
        MapOverrideAssoc(t.files, one, ExtraWrites(xs[1..]));
        ExtrasRun(w.tree, xs[1..])
  }

  /** One step of the extras: the first write, then the rest on what it left. */
  lemma ExtrasStep(t: Tree, xs: seq<Extra>)
    requires xs != []
    ensures var w := WriteFileRun(t, xs[0].path, xs[0].content);
      ExtrasRun(t, xs) == if w.out.Fail? then w else ExtrasRun(w.tree, xs[1..])
  {
  }

  /** Everything a successful Apply writes: the bundle's files, then the extras over them. */
  function RecipeWrites(store: Store, rc: Recipe, ctx: Context, render: Renderer): map<Path, string>
  {
    BundleWrites(store, rc.bundle, ctx.projectPath, ctx.templateData, render) + ExtraWrites(rc.extras)
  }

  /** Apply(ctx) over a tree. */
  function RecipeRun(t: Tree, store: Store, rc: Recipe, ctx: Context, render: Renderer): (r: Run)
    ensures r.out.Pass? ==> r.tree.files == t.files + RecipeWrites(store, rc, ctx, render)
    ensures Valid(t) ==> Valid(r.tree)
  {
    var b := BundleRun(t, store, rc.bundle, ctx.projectPath, ctx.templateData, render);
    if b.out.Fail? then
      Run(b.tree, Fail(Wrapped(rc.message, b.out.error)))
    else
      BundleSuccessIsOverlay(t, store, rc.bundle, ctx.projectPath, ctx.templateData, render);
      MapOverrideAssoc(t.files, BundleWrites(store, rc.bundle, ctx.projectPath, ctx.templateData, render), ExtraWrites(rc.extras));
      ExtrasRun(b.tree, rc.extras)
  }

  /** An extra that no later extra overwrites is what the extras leave at its path. */
  lemma {:induction false} ExtraWritesLookup(xs: seq<Extra>, k: nat)
    requires k < |xs|
    requires forall j :: k < j < |xs| ==> xs[j].path != xs[k].path
    ensures xs[k].path in ExtraWrites(xs) && ExtraWrites(xs)[xs[k].path] == xs[k].content
    decreases |xs|
  {
    if k > 0 {
      forall j | k - 1 < j < |xs[1..]| ensures xs[1..][j].path != xs[1..][k - 1].path {
        assert xs[1..][j] == xs[j + 1];
      }
      ExtraWritesLookup(xs[1..], k - 1);
      assert xs[1..][k - 1] == xs[k];
    } else {
      assert xs[0].path !in ExtraWrites(xs[1..]) by {
        ExtraWritesKeys(xs[1..], xs[0].path);
      }
    }
  }

  /** The paths the extras write are exactly the extras' own paths. */
  lemma {:induction false} ExtraWritesKeys(xs: seq<Extra>, p: Path)
    ensures p in ExtraWrites(xs) <==> exists j :: 0 <= j < |xs| && xs[j].path == p
    decreases |xs|
  {
    if xs != [] {
      ExtraWritesKeys(xs[1..], p);
      if p in ExtraWrites(xs[1..]) {
        var j :| 0 <= j < |xs[1..]| && xs[1..][j].path == p;
        assert xs[j + 1].path == p;
      }
      if exists j :: 0 <= j < |xs| && xs[j].path == p {
        var j :| 0 <= j < |xs| && xs[j].path == p;
        if j > 0 {
          assert xs[1..][j - 1].path == p;
        }
      }
    }
  }

  /** After a successful Apply, an extra no later extra overwrites holds its content, whatever
      the bundle wrote there. */
  lemma ExtraLands(t: Tree, store: Store, rc: Recipe, ctx: Context, render: Renderer, k: nat)
    requires RecipeRun(t, store, rc, ctx, render).out.Pass?
    requires k < |rc.extras|
    requires forall j :: k < j < |rc.extras| ==> rc.extras[j].path != rc.extras[k].path
    ensures var r := RecipeRun(t, store, rc, ctx, render);
      rc.extras[k].path in r.tree.files && r.tree.files[rc.extras[k].path] == rc.extras[k].content
  {
    ExtraWritesLookup(rc.extras, k);
  }

  // ---------------------------------------------------------------------------------------
  // Nothing else changes

  /** The extra writes change no file outside their own paths, whether they pass or fail. */
  lemma {:induction false} ExtrasTouchOnlyTheirPaths(t: Tree, xs: seq<Extra>, p: Path)
    requires p !in ExtraWrites(xs)
    ensures var r := ExtrasRun(t, xs);
      (p in r.tree.files <==> p in t.files) && (p in t.files ==> r.tree.files[p] == t.files[p])
    decreases |xs|
  {
    if xs != [] {
      var w := WriteFileRun(t, xs[0].path, xs[0].content);
      if w.out.Pass? {
        ExtrasTouchOnlyTheirPaths(w.tree, xs[1..], p);
      }
    }
  }

  /** Apply, whether it passes or fails, changes no file outside what its bundle and its extras
      write; and when the bundle fails the error is wrapped with the module's message and no
      extra file is written at all. */
  lemma RecipeTouchesOnlyItsWrites(t: Tree, store: Store, rc: Recipe, ctx: Context, render: Renderer, p: Path)
    ensures var r := RecipeRun(t, store, rc, ctx, render);
      p !in RecipeWrites(store, rc, ctx, render) ==>
        (p in r.tree.files <==> p in t.files) && (p in t.files ==> r.tree.files[p] == t.files[p])
    ensures var r := RecipeRun(t, store, rc, ctx, render);
      var b := BundleRun(t, store, rc.bundle, ctx.projectPath, ctx.templateData, render);
      b.out.Fail? ==> (
        && r.out == Fail(Wrapped(rc.message, b.out.error))
        && (p !in BundleWrites(store, rc.bundle, ctx.projectPath, ctx.templateData, render) ==>
          (p in r.tree.files <==> p in t.files) && (p in t.files ==> r.tree.files[p] == t.files[p])))
  {
    var bw := BundleWrites(store, rc.bundle, ctx.projectPath, ctx.templateData, render);
    var b := BundleRun(t, store, rc.bundle, ctx.projectPath, ctx.templateData, render);
    if p !in bw {
      BundleTouchesOnlyItsWrites(t, store, rc.bundle, ctx.projectPath, ctx.templateData, render, p);
      if b.out.Pass? && p !in ExtraWrites(rc.extras) {
        ExtrasTouchOnlyTheirPaths(b.tree, rc.extras, p);
      }
    }
  }

  /** A recipe with no extra files writes exactly what its bundle produces; when the bundle
      fails, the error is wrapped with the recipe's message and every other file is kept. */
  lemma BundleOnlyRecipe(t: Tree, store: Store, rc: Recipe, ctx: Context, render: Renderer, p: Path)
    requires rc.extras == []
    ensures var r := RecipeRun(t, store, rc, ctx, render);
      r.out.Pass? ==> r.tree.files == t.files + BundleWrites(store, rc.bundle, ctx.projectPath, ctx.templateData, render)
    ensures var r := RecipeRun(t, store, rc, ctx, render);
      r.out.Fail? ==> (
        && r.out.error == Wrapped(rc.message, BundleRun(t, store, rc.bundle, ctx.projectPath, ctx.templateData, render).out.error)
        && (p !in BundleWrites(store, rc.bundle, ctx.projectPath, ctx.templateData, render) ==>
          (p in r.tree.files <==> p in t.files) && (p in t.files ==> r.tree.files[p] == t.files[p])))
  {
    var bw := BundleWrites(store, rc.bundle, ctx.projectPath, ctx.templateData, render);
    assert RecipeWrites(store, rc, ctx, render) == bw + map[];
    assert bw + map[] == bw;
    var b := BundleRun(t, store, rc.bundle, ctx.projectPath, ctx.templateData, render);
    if b.out.Pass? {
      assert RecipeRun(t, store, rc, ctx, render) == ExtrasRun(b.tree, []);
    }
    RecipeTouchesOnlyItsWrites(t, store, rc, ctx, render, p);
  }

  // ---------------------------------------------------------------------------------------
  // Applying a module twice

  /** Every extra's file exists and its parent directories too. */
  predicate ExtrasReady(s: Tree, xs: seq<Extra>)
  {
    forall k :: 0 <= k < |xs| ==> xs[k].path in s.files && Prefixes(Dir(xs[k].path)) <= s.dirs
  }

  lemma {:induction false} ExtrasPassLeavesReady(t: Tree, xs: seq<Extra>)
    requires ExtrasRun(t, xs).out.Pass?
    ensures ExtrasReady(ExtrasRun(t, xs).tree, xs)
    decreases |xs|
  {
    if xs != [] {
      var w := WriteFileRun(t, xs[0].path, xs[0].content);
      ExtrasPassLeavesReady(w.tree, xs[1..]);
      forall k | 0 <= k < |xs| ensures xs[k].path in ExtrasRun(t, xs).tree.files && Prefixes(Dir(xs[k].path)) <= ExtrasRun(t, xs).tree.dirs {
        if k > 0 {
          assert xs[k] == xs[1..][k - 1];
        }
      }
    }
  }

  /** On a valid tree that already holds every extra's file and directories, the extras
      succeed, create nothing and only overwrite contents. */
  lemma {:induction false} ExtrasReplay(s: Tree, xs: seq<Extra>)
    requires Valid(s)
    requires ExtrasReady(s, xs)
    ensures ExtrasRun(s, xs) == Run(Tree(s.files + ExtraWrites(xs), s.dirs), Pass)
    decreases |xs|
  {
    if xs != [] {
      var p := xs[0].path;
      RewriteExistingFile(s, p, xs[0].content);
      var w := WriteFileRun(s, p, xs[0].content);
      ReadyAfterGrowth(s, w.tree, xs);
      assert Valid(w.tree);
      ExtrasReplay(w.tree, xs[1..]);
      assert ExtrasRun(s, xs) == ExtrasRun(w.tree, xs[1..]);
    }
  }

  lemma ReadyAfterGrowth(s: Tree, s': Tree, xs: seq<Extra>)
    requires xs != [] && ExtrasReady(s, xs)
    requires s.files.Keys <= s'.files.Keys && s.dirs <= s'.dirs
    ensures ExtrasReady(s', xs[1..])
  {
    forall k | 0 <= k < |xs[1..]| ensures xs[1..][k].path in s'.files && Prefixes(Dir(xs[1..][k].path)) <= s'.dirs {
      assert xs[1..][k] == xs[k + 1];
    }
  }

  /** Overwriting an existing file whose directories exist succeeds and creates nothing. */
  lemma RewriteExistingFile(s: Tree, p: Path, c: string)
    requires Valid(s)
    requires p in s.files && Prefixes(Dir(p)) <= s.dirs
    ensures WriteFileRun(s, p, c) == Run(Tree(s.files[p := c], s.dirs), Pass)
  {
    assert p != [] && p !in s.dirs;
    assert forall q :: q in Prefixes(Dir(p)) ==> q !in s.files;
    assert s.dirs + Prefixes(Dir(p)) == s.dirs;
  }

  lemma OverrideTwice<K, V>(m: map<K, V>, a: map<K, V>, b: map<K, V>)
    ensures ((m + a) + b) + a + b == (m + a) + b
  {
  }

  /** Applying a module a second time with the same context succeeds and leaves the same
      tree: its bundle and its extra files only overwrite what the first run wrote. */
  lemma RecipeReapplyIsNoOp(t: Tree, store: Store, rc: Recipe, ctx: Context, render: Renderer)
    requires Valid(t)
    requires RecipeRun(t, store, rc, ctx, render).out.Pass?
    ensures var t1 := RecipeRun(t, store, rc, ctx, render).tree;
      RecipeRun(t1, store, rc, ctx, render) == Run(t1, Pass)
  {
    var dest, data := ctx.projectPath, ctx.templateData;
    var b := BundleRun(t, store, rc.bundle, dest, data, render);
    var t1 := ExtrasRun(b.tree, rc.extras).tree;
    var bw := BundleWrites(store, rc.bundle, dest, data, render);
    var ew := ExtraWrites(rc.extras);
    BundleReplay(t, t1, store, rc.bundle, dest, data, render);
    var b2 := BundleRun(t1, store, rc.bundle, dest, data, render);
    assert b2 == Run(Tree(t1.files + bw, t1.dirs), Pass);
    ExtrasPassLeavesReady(b.tree, rc.extras);
    ExtrasReplay(b2.tree, rc.extras);
    BundleSuccessIsOverlay(t, store, rc.bundle, dest, data, render);
    OverrideTwice(t.files, bw, ew);
    assert t1.files == (t.files + bw) + ew;
  }
}
