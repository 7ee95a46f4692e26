/** The overlay applier: walk one bundle of the template store in order, create each
    directory, copy each static file and render each template file into the destination.
    The same code appears twice in the source (the engine's applyTemplate and the modules'
    ApplyModuleTemplate); it is modelled once here. */
module Overlay {
  import opened Paths
  import opened Common
  import opened FileTree
  import opened TemplateStore
  import OS

  /** True for a file entry whose name carries the template marker. */
  predicate IsRendered(e: Entry)
  {
    e.node.FileNode? && IsTemplate(e.rel)
  }

  /** Where an entry lands: dest/rel, minus one trailing ".tmpl" for a template file. */
  function Destination(dest: Path, e: Entry): (r: Path)
    ensures |r| == |dest| + |e.rel|
    ensures |e.rel| > 0 ==> Dir(r) == dest + Dir(e.rel)
    ensures IsRendered(e) ==> r[|r| - 1] + TemplateSuffix == e.rel[|e.rel| - 1]
    ensures !IsRendered(e) ==> r == dest + e.rel
  {
    var full := dest + e.rel;
    if IsRendered(e) then Dir(full) + [TrimSuffix(full[|full| - 1], TemplateSuffix)] else full
  }

  /** The bytes a file entry writes: rendered for a template, unchanged otherwise. */
  function Output(e: Entry, data: Data, render: Renderer): (r: Rendered)
    requires e.node.FileNode?
    ensures !IsRendered(e) ==> r == Rendered(e.node.content)
    ensures IsRendered(e) ==> r == render(e.node.content, data)
  {
    if IsTemplate(e.rel) then render(e.node.content, data) else Rendered(e.node.content)
  }

  /** modules.WriteFile, and the last two steps of the walk callback: MkdirAll of the
      parent, then os.WriteFile. */
  function WriteFileRun(t: Tree, p: Path, c: string): (r: Run)
    ensures r.out.Pass? <==> p != [] && p !in t.dirs && forall q :: q in Prefixes(Dir(p)) ==> q !in t.files
    ensures r.out.Pass? ==> r.tree == Tree(t.files[p := c], t.dirs + Prefixes(Dir(p)))
    ensures r.out.Fail? ==> r.tree.files == t.files && t.dirs <= r.tree.dirs
    ensures Valid(t) ==> Valid(r.tree)
  {
    var made := MkdirAll(t, Dir(p));
    if made.out.Fail? then made else
    assert |p| > 1 ==> Dir(p) in Prefixes(Dir(p));
    assert p !in Prefixes(Dir(p));
    FileTree.WriteFile(made.tree, p, c)
  }

  /** The files one entry writes when its step succeeds. */
  function EntryWrites(dest: Path, e: Entry, data: Data, render: Renderer): map<Path, string>
  {
    if e.node.FileNode? && Output(e, data, render).Rendered? then
      map[Destination(dest, e) := Output(e, data, render).text]
    else
      map[]
  }

  /** The directories one entry's step creates (or finds already there). */
  function EntryDirs(dest: Path, e: Entry): set<Path>
  {
    if e.node.DirNode? then Prefixes(Destination(dest, e)) else Prefixes(Dir(Destination(dest, e)))
  }

  lemma UpdateIsOverride<K, V>(m: map<K, V>, k: K, v: V)
    ensures m[k := v] == m + map[k := v]
  {
  }

  lemma OverrideEmpty<K, V>(m: map<K, V>)
    ensures m + map[] == m
  {
  }

  /** One call of the walk callback. */
  function StepRun(t: Tree, dest: Path, e: Entry, data: Data, render: Renderer): (r: Run)
    ensures r.out.Pass? ==> r.tree == Tree(t.files + EntryWrites(dest, e, data, render), t.dirs + EntryDirs(dest, e))
    ensures r.out.Fail? && r.out.error.RenderFailed? ==> r.tree == t && r.out.error.source == e.source
    ensures r.out.Fail? ==> r.tree.files == t.files
    ensures t.dirs <= r.tree.dirs && t.files.Keys <= r.tree.files.Keys
    ensures Valid(t) ==> Valid(r.tree)
  {
    var target := Destination(dest, e);
    match e.node
    case DirNode => MkdirAll(t, target)
    case FileNode(_) =>
      var o := Output(e, data, render);
      if o.TemplateError? then
        Run(t, Fail(RenderFailed(e.source, o.cause)))
      else
        UpdateIsOverride(t.files, target, o.text);
        WriteFileRun(t, target, o.text)
  }

  /** The whole walk over a listing: the first failing step ends it, and nothing is undone. */
  function WalkRun(t: Tree, dest: Path, es: seq<Entry>, data: Data, render: Renderer): (r: Run)
    ensures t.dirs <= r.tree.dirs && t.files.Keys <= r.tree.files.Keys
    ensures Valid(t) ==> Valid(r.tree)
    decreases |es|
  {
    if es == [] then Run(t, Pass)
    else
      var r := StepRun(t, dest, es[0], data, render);
      if r.out.Fail? then r else WalkRun(r.tree, dest, es[1..], data, render)
  }

  /** ApplyModuleTemplate(bundle, dest, data) over a tree. */
  function BundleRun(t: Tree, store: Store, bundle: Path, dest: Path, data: Data, render: Renderer): (r: Run)
    ensures Walk(store, bundle).Err? ==> r == Run(t, Fail(BundleNotFound(bundle)))
    ensures Valid(t) ==> Valid(r.tree)
  {
    match Walk(store, bundle)
    case Err(e) => Run(t, Fail(e))
    case Ok(es) => WalkRun(t, dest, es, data, render)
  }

  /** Every file a walk over es writes, the later write winning. */
  function Writes(dest: Path, es: seq<Entry>, data: Data, render: Renderer): map<Path, string>
    decreases |es|
  {
    if es == [] then map[] else EntryWrites(dest, es[0], data, render) + Writes(dest, es[1..], data, render)
  }

  /** Every directory a walk over es creates. */
  function Made(dest: Path, es: seq<Entry>): set<Path>
    decreases |es|
  {
    if es == [] then {} else EntryDirs(dest, es[0]) + Made(dest, es[1..])
  }

  /** The files a successful application of a bundle writes. */
  function BundleWrites(store: Store, bundle: Path, dest: Path, data: Data, render: Renderer): map<Path, string>
  {
    match Walk(store, bundle)
    case Err(_) => map[]
    case Ok(es) => Writes(dest, es, data, render)
  }

  // ---------------------------------------------------------------------------------------
  // Properties of the walk

  lemma MapOverrideAssoc<K, V>(a: map<K, V>, b: map<K, V>, c: map<K, V>)
    ensures (a + b) + c == a + (b + c)
  {
  }

  /** A successful walk overlays its writes on the tree: a path the bundle writes holds the
      bundle's output, every other file is untouched, and the directories it needs exist. */
  lemma {:induction false} WalkSuccessIsOverlay(t: Tree, dest: Path, es: seq<Entry>, data: Data, render: Renderer)
    ensures var r := WalkRun(t, dest, es, data, render);
      r.out.Pass? ==> r.tree == Tree(t.files + Writes(dest, es, data, render), t.dirs + Made(dest, es))
    decreases |es|
  {
    if es != [] {
      var s := StepRun(t, dest, es[0], data, render);
      if s.out.Pass? {
        WalkSuccessIsOverlay(s.tree, dest, es[1..], data, render);
        var w0 := EntryWrites(dest, es[0], data, render);
        var w1 := Writes(dest, es[1..], data, render);
        MapOverrideAssoc(t.files, w0, w1);
      }
    }
  }

  lemma BundleSuccessIsOverlay(t: Tree, store: Store, bundle: Path, dest: Path, data: Data, render: Renderer)
    ensures var r := BundleRun(t, store, bundle, dest, data, render);
      r.out.Pass? ==> r.tree.files == t.files + BundleWrites(store, bundle, dest, data, render)
  {
    if Walk(store, bundle).Ok? {
      WalkSuccessIsOverlay(t, dest, Walk(store, bundle).value, data, render);
    }
  }

  /** Whether it passes or fails, a walk changes no file outside the paths it would write. */
  lemma {:induction false} WalkTouchesOnlyItsWrites(t: Tree, dest: Path, es: seq<Entry>, data: Data, render: Renderer, p: Path)
    requires p !in Writes(dest, es, data, render)
    ensures var r := WalkRun(t, dest, es, data, render);
      (p in r.tree.files <==> p in t.files) && (p in t.files ==> r.tree.files[p] == t.files[p])
    decreases |es|
  {
    if es != [] {
      var s := StepRun(t, dest, es[0], data, render);
      if s.out.Pass? {
        WalkTouchesOnlyItsWrites(s.tree, dest, es[1..], data, render, p);
      }
    }
  }

  lemma BundleTouchesOnlyItsWrites(t: Tree, store: Store, bundle: Path, dest: Path, data: Data, render: Renderer, p: Path)
    requires p !in BundleWrites(store, bundle, dest, data, render)
    ensures var r := BundleRun(t, store, bundle, dest, data, render);
      (p in r.tree.files <==> p in t.files) && (p in t.files ==> r.tree.files[p] == t.files[p])
  {
    if Walk(store, bundle).Ok? {
      WalkTouchesOnlyItsWrites(t, dest, Walk(store, bundle).value, data, render, p);
    }
  }

  /** The paths a walk writes are exactly the destinations of the files it renders or copies. */
  lemma {:induction false} WritesKeys(dest: Path, es: seq<Entry>, data: Data, render: Renderer, p: Path)
    ensures p in Writes(dest, es, data, render) <==> exists k :: 0 <= k < |es| && p in EntryWrites(dest, es[k], data, render)
    decreases |es|
  {
    if es != [] {
      WritesKeys(dest, es[1..], data, render, p);
      if p in EntryWrites(dest, es[0], data, render) {
      } else if exists k :: 0 <= k < |es| && p in EntryWrites(dest, es[k], data, render) {
        var k :| 0 <= k < |es| && p in EntryWrites(dest, es[k], data, render);
        assert k > 0 && es[1..][k - 1] == es[k];
      }
    }
  }

  /** Last write wins: a file entry's output is what ends up at its destination, unless a
      later entry of the same walk writes there too. */
  lemma {:induction false} LastWriteWins(dest: Path, es: seq<Entry>, data: Data, render: Renderer, k: nat)
    requires k < |es|
    requires es[k].node.FileNode? && Output(es[k], data, render).Rendered?
    requires forall j :: k < j < |es| ==> Destination(dest, es[k]) !in EntryWrites(dest, es[j], data, render)
    ensures var p := Destination(dest, es[k]);
      p in Writes(dest, es, data, render) && Writes(dest, es, data, render)[p] == Output(es[k], data, render).text
    decreases |es|
  {
    var p := Destination(dest, es[k]);
    if k == 0 {
      forall j | 0 <= j < |es[1..]| ensures p !in EntryWrites(dest, es[1..][j], data, render) {
        assert es[1..][j] == es[j + 1];
      }
      WritesKeys(dest, es[1..], data, render, p);
    } else {
      forall j | k - 1 < j < |es[1..]|
        ensures Destination(dest, es[1..][k - 1]) !in EntryWrites(dest, es[1..][j], data, render)
      {
        assert es[1..][j] == es[j + 1];
      }
      LastWriteWins(dest, es[1..], data, render, k - 1);
    }
  }

  /** Running a + b is running a, then, if it passed, b on what a left. */
  lemma {:induction false} WalkRunAppend(t: Tree, dest: Path, a: seq<Entry>, b: seq<Entry>, data: Data, render: Renderer)
    ensures WalkRun(t, dest, a + b, data, render) ==
      var r := WalkRun(t, dest, a, data, render);
      if r.out.Fail? then r else WalkRun(r.tree, dest, b, data, render)
    decreases |a|
  {
    if a != [] {
      assert (a + b)[0] == a[0];
      assert (a + b)[1..] == a[1..] + b;
      var s := StepRun(t, dest, a[0], data, render);
      if s.out.Pass? {
        WalkRunAppend(s.tree, dest, a[1..], b, data, render);
      }
    } else {
      assert a + b == b;
    }
  }

  /** A failing step k ends the walk: entries before k stay written, later ones never run. */
  lemma FailureStopsWalk(t: Tree, dest: Path, es: seq<Entry>, k: nat, data: Data, render: Renderer)
    requires k < |es|
    requires WalkRun(t, dest, es[..k], data, render).out.Pass?
    requires StepRun(WalkRun(t, dest, es[..k], data, render).tree, dest, es[k], data, render).out.Fail?
    ensures WalkRun(t, dest, es, data, render) == StepRun(WalkRun(t, dest, es[..k], data, render).tree, dest, es[k], data, render)
  {
    assert es == es[..k] + es[k..];
    WalkRunAppend(t, dest, es[..k], es[k..], data, render);
    assert es[k..][0] == es[k];
  }

  // ---------------------------------------------------------------------------------------
  // Applying the same walk twice

  /** The tree already holds what the step for e needs: its directories exist and, for a
      file, its destination is a file and its template renders. */
  predicate Ready(s: Tree, dest: Path, e: Entry, data: Data, render: Renderer)
  {
    match e.node
    case DirNode => Prefixes(Destination(dest, e)) <= s.dirs
    case FileNode(_) =>
      Output(e, data, render).Rendered? && Destination(dest, e) in s.files && Prefixes(Dir(Destination(dest, e))) <= s.dirs
  }

  predicate AllReady(s: Tree, dest: Path, es: seq<Entry>, data: Data, render: Renderer)
  {
    forall k :: 0 <= k < |es| ==> Ready(s, dest, es[k], data, render)
  }

  /** A walk that succeeded leaves the tree ready for every one of its entries. */
  lemma {:induction false} PassLeavesReady(t: Tree, dest: Path, es: seq<Entry>, data: Data, render: Renderer)
    requires WalkRun(t, dest, es, data, render).out.Pass?
    ensures AllReady(WalkRun(t, dest, es, data, render).tree, dest, es, data, render)
    decreases |es|
  {
    if es != [] {
      var s := StepRun(t, dest, es[0], data, render);
      var t1 := WalkRun(t, dest, es, data, render).tree;
      PassLeavesReady(s.tree, dest, es[1..], data, render);
      forall k | 0 <= k < |es| ensures Ready(t1, dest, es[k], data, render) {
        if k > 0 {
          assert es[k] == es[1..][k - 1];
        }
      }
    }
  }

  /** One step on a valid tree that is ready for its entry succeeds, creates nothing new and
      only overwrites the entry's file. */
  lemma StepReplay(s: Tree, dest: Path, e: Entry, data: Data, render: Renderer)
    requires Valid(s)
    requires Ready(s, dest, e, data, render)
    ensures StepRun(s, dest, e, data, render) == Run(Tree(s.files + EntryWrites(dest, e, data, render), s.dirs), Pass)
  {
    var target := Destination(dest, e);
    if e.node.FileNode? {
      assert target != [] && target !in s.dirs;
      assert forall q :: q in Prefixes(Dir(target)) ==> q !in s.files;
    } else {
      assert forall q :: q in Prefixes(target) ==> q !in s.files;
    }
  }

  /** Rewriting file contents, without new paths, keeps the tree ready for the rest. */
  lemma ReadyAfterRewrite(s: Tree, u: Tree, dest: Path, es: seq<Entry>, data: Data, render: Renderer)
    requires es != []
    requires AllReady(s, dest, es, data, render)
    requires u.dirs == s.dirs && u.files.Keys == s.files.Keys
    ensures AllReady(u, dest, es[1..], data, render)
  {
    forall k | 0 <= k < |es[1..]| ensures Ready(u, dest, es[1..][k], data, render) {
      assert es[1..][k] == es[k + 1];
      assert Ready(s, dest, es[k + 1], data, render);
    }
  }

  /** On a valid tree that is ready for every entry, the walk succeeds, creates nothing new
      and only overwrites file contents. */
  lemma {:induction false} ReplayWhenReady(s: Tree, dest: Path, es: seq<Entry>, data: Data, render: Renderer)
    requires Valid(s)
    requires AllReady(s, dest, es, data, render)
    ensures WalkRun(s, dest, es, data, render) == Run(Tree(s.files + Writes(dest, es, data, render), s.dirs), Pass)
    decreases |es|
  {
    if es != [] {
      var e := es[0];
      assert Ready(s, dest, e, data, render);
      StepReplay(s, dest, e, data, render);
      var st := StepRun(s, dest, e, data, render);
      ReadyAfterRewrite(s, st.tree, dest, es, data, render);
      ReplayWhenReady(st.tree, dest, es[1..], data, render);
      MapOverrideAssoc(s.files, EntryWrites(dest, e, data, render), Writes(dest, es[1..], data, render));
    }
  }

  /** Applying the same listing again with the same data is a no-op that succeeds: no
      directory-exists error, the same tree. */
  lemma WalkReapplyIsNoOp(t: Tree, dest: Path, es: seq<Entry>, data: Data, render: Renderer)
    requires Valid(t)
    requires WalkRun(t, dest, es, data, render).out.Pass?
    ensures var t1 := WalkRun(t, dest, es, data, render).tree;
      WalkRun(t1, dest, es, data, render) == Run(t1, Pass)
  {
    var t1 := WalkRun(t, dest, es, data, render).tree;
    var w := Writes(dest, es, data, render);
    PassLeavesReady(t, dest, es, data, render);
    ReplayWhenReady(t1, dest, es, data, render);
    WalkSuccessIsOverlay(t, dest, es, data, render);
    assert (t.files + w) + w == t.files + w;
  }

  /** ApplyModuleTemplate twice with the same bundle and data yields the same tree. */
  lemma BundleReapplyIsNoOp(t: Tree, store: Store, bundle: Path, dest: Path, data: Data, render: Renderer)
    requires Valid(t)
    requires BundleRun(t, store, bundle, dest, data, render).out.Pass?
    ensures var t1 := BundleRun(t, store, bundle, dest, data, render).tree;
      BundleRun(t1, store, bundle, dest, data, render) == Run(t1, Pass)
  {
    WalkReapplyIsNoOp(t, dest, Walk(store, bundle).value, data, render);
  }

  /** A successful bundle can be replayed on any valid tree that already holds everything it
      needs: the replay succeeds and overlays the same writes. */
  lemma BundleReplay(t: Tree, s: Tree, store: Store, bundle: Path, dest: Path, data: Data, render: Renderer)
    requires Valid(s)
    requires BundleRun(t, store, bundle, dest, data, render).out.Pass?
    requires BundleRun(t, store, bundle, dest, data, render).tree.dirs <= s.dirs
    requires BundleRun(t, store, bundle, dest, data, render).tree.files.Keys <= s.files.Keys
    ensures BundleRun(s, store, bundle, dest, data, render) ==
      Run(Tree(s.files + BundleWrites(store, bundle, dest, data, render), s.dirs), Pass)
  {
    var es := Walk(store, bundle).value;
    var t1 := WalkRun(t, dest, es, data, render).tree;
    PassLeavesReady(t, dest, es, data, render);
    forall k | 0 <= k < |es| ensures Ready(s, dest, es[k], data, render) {
      assert Ready(t1, dest, es[k], data, render);
    }
    ReplayWhenReady(s, dest, es, data, render);
  }

  /** Overlap policy: after bundle A and then bundle B, a path B writes holds B's output
      whatever A wrote there, and a path only A writes holds A's output. */
  lemma LaterBundleWins(t: Tree, store: Store, a: Path, b: Path, dest: Path, data: Data, render: Renderer, p: Path)
    requires BundleRun(t, store, a, dest, data, render).out.Pass?
    requires BundleRun(BundleRun(t, store, a, dest, data, render).tree, store, b, dest, data, render).out.Pass?
    ensures var t2 := BundleRun(BundleRun(t, store, a, dest, data, render).tree, store, b, dest, data, render).tree;
      var wa := BundleWrites(store, a, dest, data, render);
      var wb := BundleWrites(store, b, dest, data, render);
      && (p in wb ==> p in t2.files && t2.files[p] == wb[p])
      && (p !in wb && p in wa ==> p in t2.files && t2.files[p] == wa[p])
      && (p !in wb && p !in wa ==> (p in t2.files <==> p in t.files) && (p in t.files ==> t2.files[p] == t.files[p]))
  {
    var t1 := BundleRun(t, store, a, dest, data, render).tree;
    var t2 := BundleRun(t1, store, b, dest, data, render).tree;
    BundleSuccessIsOverlay(t, store, a, dest, data, render);
    BundleSuccessIsOverlay(t1, store, b, dest, data, render);
    OverrideLookup(t.files, BundleWrites(store, a, dest, data, render), BundleWrites(store, b, dest, data, render), p);
  }

  /** Where a path lands after two overrides. */
  lemma OverrideLookup<K, V>(m: map<K, V>, a: map<K, V>, b: map<K, V>, p: K)
    ensures var r := (m + a) + b;
      && (p in b ==> p in r && r[p] == b[p])
      && (p !in b && p in a ==> p in r && r[p] == a[p])
      && (p !in b && p !in a ==> (p in r <==> p in m) && (p in m ==> r[p] == m[p]))
  {
  }

  // ---------------------------------------------------------------------------------------
  // The imperative applier

  /** The walk callback for one entry below the root. */
  method Visit(fs: OS.FileSystem, destPath: Path, e: Entry, data: Data, render: Renderer) returns (out: Outcome)
    modifies fs
    ensures Run(fs.View(), out) == StepRun(old(fs.View()), destPath, e, data, render)
  {
    var target := destPath + e.rel;
    match e.node {
      case DirNode =>
        out := fs.MkdirAll(target);
      case FileNode(content) =>
        var text := content;
        if IsTemplate(e.rel) {
          target := Dir(target) + [TrimSuffix(target[|target| - 1], TemplateSuffix)];
          var rendered := render(content, data);
          if rendered.TemplateError? {
            return Fail(RenderFailed(e.source, rendered.cause));
          }
          text := rendered.text;
        }
        assert target == Destination(destPath, e);
        out := fs.MkdirAll(Dir(target));
        if out.Fail? {
          return;
        }
        out := fs.WriteFile(target, text);
    }
  }

  /** ApplyModuleTemplate (and the engine's identical applyTemplate): walk the bundle in
      order and apply each entry to the filesystem, stopping at the first error. */
  method ApplyModuleTemplate(fs: OS.FileSystem, store: Store, templatePath: Path, destPath: Path, data: Data, render: Renderer)
    returns (out: Outcome)
    modifies fs
    ensures Run(fs.View(), out) == BundleRun(old(fs.View()), store, templatePath, destPath, data, render)
  {
    var walk := Walk(store, templatePath);
    if walk.Err? {
      return Fail(walk.error);
    }
    var es := walk.value;
    assert BundleRun(fs.View(), store, templatePath, destPath, data, render) == WalkRun(fs.View(), destPath, es, data, render);
    var i := 0;
    while i < |es|
      invariant 0 <= i <= |es|
      invariant WalkRun(old(fs.View()), destPath, es, data, render) == WalkRun(fs.View(), destPath, es[i..], data, render)
    {
      ghost var before := fs.View();
      assert es[i..][0] == es[i] && es[i..][1..] == es[i + 1..];
      out := Visit(fs, destPath, es[i], data, render);
      if out.Fail? {
        assert WalkRun(before, destPath, es[i..], data, render) == Run(fs.View(), out);
        return;
      }
      assert WalkRun(before, destPath, es[i..], data, render) == WalkRun(fs.View(), destPath, es[i + 1..], data, render);
      i := i + 1;
    }
    assert es[i..] == [];
    return Pass;
  }

  /** modules.WriteFile: create the parent directories, then write the file. */
  method WriteFile(fs: OS.FileSystem, path: Path, content: string) returns (out: Outcome)
    modifies fs
    ensures Run(fs.View(), out) == WriteFileRun(old(fs.View()), path, content)
  {
    out := fs.MkdirAll(Dir(path));
    if out.Fail? {
      return;
    }
    out := fs.WriteFile(path, content);
  }
}
