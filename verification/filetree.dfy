/** The destination filesystem as a value: regular files with their contents and the set of
    directories, and the effect of the os calls the engine makes (os.MkdirAll,
    os.WriteFile, os.RemoveAll, os.ReadFile) as functions from a tree to a run. */
module FileTree {
  import opened Paths
  import opened Common

  datatype Tree = Tree(files: map<Path, string>, dirs: set<Path>)

  /** What an operation leaves behind: the new tree (partial on failure) and its outcome. */
  datatype Run = Run(tree: Tree, out: Outcome)

  /** A well-formed tree: no path is both a file and a directory, and everything above a
      file or a directory is a directory. The working directory [] is implicit. */
  predicate Valid(t: Tree)
  {
    && [] !in t.files
    && [] !in t.dirs
    && (forall p :: p in t.files ==> p !in t.dirs)
    && (forall p, q :: p in t.files && q in Prefixes(Dir(p)) ==> q in t.dirs)
    && (forall d, q :: d in t.dirs && q in Prefixes(d) ==> q in t.dirs)
  }

  /** os.MkdirAll(p): creates p and its missing parents; an existing directory is fine, a
      regular file anywhere on the way is an error and nothing is created. */
  function MkdirAll(t: Tree, p: Path): (r: Run)
    ensures r.out.Pass? <==> forall q :: q in Prefixes(p) ==> q !in t.files
    ensures r.out.Pass? ==> r.tree.files == t.files && r.tree.dirs == t.dirs + Prefixes(p)
    ensures r.out.Fail? ==> r == Run(t, Fail(NotADirectory(p)))
    ensures Valid(t) ==> Valid(r.tree)
  {
    if exists i | 1 <= i <= |p| :: p[..i] in t.files then
      Run(t, Fail(NotADirectory(p)))
    else
      Run(Tree(t.files, t.dirs + Prefixes(p)), Pass)
  }

  /** os.WriteFile(p, c): creates or truncates the regular file p; its parent must be a
      directory, and p must not be one. */
  function WriteFile(t: Tree, p: Path, c: string): (r: Run)
    ensures r.out.Pass? <==> p != [] && p !in t.dirs && (|p| > 1 ==> Dir(p) in t.dirs)
    ensures r.out.Pass? ==> r.tree == Tree(t.files[p := c], t.dirs)
    ensures r.out.Fail? ==> r.tree == t
    ensures Valid(t) ==> Valid(r.tree)
  {
    if p == [] || p in t.dirs then
      Run(t, Fail(IsADirectory(p)))
    else if |p| > 1 && Dir(p) !in t.dirs then
      Run(t, Fail(NoSuchFile(p)))
    else
      Run(Tree(t.files[p := c], t.dirs), Pass)
  }

  /** True when p lies at or below root. */
  predicate Within(root: Path, p: Path)
  {
    root <= p
  }

  /** os.RemoveAll(p): deletes p and everything below it; a missing p is not an error. Go
      refuses to remove the working directory ("."), and a regular file above p makes the
      removal fail with ENOTDIR. */
  function RemoveAll(t: Tree, p: Path): (r: Run)
    ensures r.out.Pass? <==> p != [] && forall q :: q in Prefixes(Dir(p)) ==> q !in t.files
    ensures p != [] && r.out.Fail? ==> r.out == Fail(NotADirectory(p))
    ensures r.out.Pass? ==> forall q :: q in r.tree.files <==> q in t.files && !Within(p, q)
    ensures r.out.Pass? ==> forall q :: q in r.tree.files ==> r.tree.files[q] == t.files[q]
    ensures r.out.Pass? ==> forall q :: q in r.tree.dirs <==> q in t.dirs && !Within(p, q)
    ensures r.out.Fail? ==> r.tree == t
    ensures Valid(t) ==> Valid(r.tree)
  {
    if p == [] then
      Run(t, Fail(RemoveRefused(p)))
    else if exists q | q in Prefixes(Dir(p)) :: q in t.files then
      Run(t, Fail(NotADirectory(p)))
    else
      PrunedKeepsValid(t, p);
      Run(Pruned(t, p), Pass)
  }

  /** The tree without p and everything below it. */
  function Pruned(t: Tree, p: Path): Tree
  {
    Tree(map q | q in t.files && !Within(p, q) :: t.files[q], set q | q in t.dirs && !Within(p, q))
  }

  /** Removing a whole subtree keeps a tree well formed: whatever lies above a kept file or
      directory is not below p either. */
  lemma PrunedKeepsValid(t: Tree, p: Path)
    ensures Valid(t) ==> Valid(Pruned(t, p))
  {
  }

  /** os.ReadFile(p): the contents of a regular file, or an error. */
  function ReadFile(t: Tree, p: Path): (r: Result<string>)
    ensures r.Ok? <==> p in t.files
    ensures r.Ok? ==> r.value == t.files[p]
  {
    if p in t.files then Ok(t.files[p]) else Err(NoSuchFile(p))
  }
}
