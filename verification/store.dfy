/** The embedded template store (embed.FS): a read-only list of entries kept in lexical path
    order, and fs.WalkDir over one bundle of it. */
module TemplateStore {
  import opened Paths
  import opened Common

  datatype Node = DirNode | FileNode(content: string)

  datatype StoreEntry = StoreEntry(path: Path, node: Node)

  /** The whole store; embed.FS keeps its entries sorted, see Sorted. */
  type Store = seq<StoreEntry>

  /** What the walk callback receives: the full source path, the path relative to the
      bundle root, and whether it is a directory or a file (with its bytes). */
  datatype Entry = Entry(source: Path, rel: Path, node: Node)

  /** Go's string order: byte-wise (here code-point-wise) lexical order. */
  predicate SegmentLess(a: string, b: string)
  {
    if |a| == 0 then |b| > 0
    else if |b| == 0 then false
    else if a[0] == b[0] then SegmentLess(a[1..], b[1..])
    else a[0] < b[0]
  }

  /** The order fs.WalkDir visits paths in: a directory before everything below it, and the
      entries of one directory sorted by name. */
  predicate PathLess(a: Path, b: Path)
  {
    if |a| == 0 then |b| > 0
    else if |b| == 0 then false
    else if a[0] == b[0] then PathLess(a[1..], b[1..])
    else SegmentLess(a[0], b[0])
  }

  lemma {:induction false} SegmentLessIrreflexive(a: string)
    ensures !SegmentLess(a, a)
  {
    if |a| > 0 {
      SegmentLessIrreflexive(a[1..]);
    }
  }

  lemma {:induction false} PathLessIrreflexive(a: Path)
    ensures !PathLess(a, a)
  {
    if |a| > 0 {
      PathLessIrreflexive(a[1..]);
    }
  }

  /** A shared leading part does not change the order. */
  lemma {:induction false} PathLessCommonPrefix(root: Path, a: Path, b: Path)
    ensures PathLess(root + a, root + b) <==> PathLess(a, b)
  {
    if |root| > 0 {
      assert (root + a)[1..] == root[1..] + a;
      assert (root + b)[1..] == root[1..] + b;
      PathLessCommonPrefix(root[1..], a, b);
    } else {
      assert root + a == a && root + b == b;
    }
  }

  predicate Sorted(store: Store)
  {
    forall i, j :: 0 <= i < j < |store| ==> PathLess(store[i].path, store[j].path)
  }

  predicate SourcesSorted(es: seq<Entry>)
  {
    forall i, j :: 0 <= i < j < |es| ==> PathLess(es[i].source, es[j].source)
  }

  predicate RelsSorted(es: seq<Entry>)
  {
    forall i, j :: 0 <= i < j < |es| ==> PathLess(es[i].rel, es[j].rel)
  }

  lemma ConsSourcesSorted(e: Entry, rest: seq<Entry>)
    requires SourcesSorted(rest)
    requires forall k :: 0 <= k < |rest| ==> PathLess(e.source, rest[k].source)
    ensures SourcesSorted([e] + rest)
  {
    var es := [e] + rest;
    forall i, j | 0 <= i < j < |es| ensures PathLess(es[i].source, es[j].source) {
      assert es[j] == rest[j - 1];
      if i > 0 {
        assert es[i] == rest[i - 1];
      }
    }
  }

  /** The entries strictly below root, in store order, as the walk callback sees them. */
  function Below(store: Store, root: Path): (r: seq<Entry>)
    ensures forall e :: e in r ==> |e.rel| > 0 && e.source == root + e.rel && StoreEntry(e.source, e.node) in store
    ensures forall x :: x in store && root < x.path ==> Entry(x.path, x.path[|root|..], x.node) in r
    ensures Sorted(store) ==> SourcesSorted(r)
  {
    if store == [] then []
    else
      var x := store[0];
      var rest := Below(store[1..], root);
      assert forall y :: y in store ==> y == x || y in store[1..];
      if root < x.path then
        var e := Entry(x.path, x.path[|root|..], x.node);
        assert e.source == root + e.rel;
        assert Sorted(store) ==> SourcesSorted([e] + rest) by {
          if Sorted(store) {
            forall k | 0 <= k < |rest| ensures PathLess(e.source, rest[k].source) {
              var y := StoreEntry(rest[k].source, rest[k].node);
              assert y in store[1..];
              var j :| 0 <= j < |store[1..]| && store[1..][j] == y;
              assert store[j + 1] == y;
            }
            assert Sorted(store[1..]);
            ConsSourcesSorted(e, rest);
          }
        }
        [e] + rest
      else
        rest
  }

  /** fs.WalkDir(store, root) with the root itself skipped: the listing in walk order, or
      the error the walk reports when root is not in the store. */
  function Walk(store: Store, root: Path): (r: Result<seq<Entry>>)
    ensures r.Err? <==> forall i :: 0 <= i < |store| ==> store[i].path != root
    ensures r.Err? ==> r.error == BundleNotFound(root)
    ensures r.Ok? ==> forall e :: e in r.value ==> |e.rel| > 0 && e.source == root + e.rel && StoreEntry(e.source, e.node) in store
    ensures r.Ok? ==> forall x :: x in store && root < x.path ==> Entry(x.path, x.path[|root|..], x.node) in r.value
  {
    if exists i | 0 <= i < |store| :: store[i].path == root then Ok(Below(store, root)) else Err(BundleNotFound(root))
  }

  /** A sorted store is walked in lexical order of relative paths, and so no relative path is
      visited twice. */
  lemma WalkInLexicalOrder(store: Store, root: Path)
    requires Sorted(store)
    ensures Walk(store, root).Ok? ==> RelsSorted(Walk(store, root).value)
    ensures Walk(store, root).Ok? ==> var es := Walk(store, root).value;
      forall i, j :: 0 <= i < j < |es| ==> es[i].rel != es[j].rel
  {
    if Walk(store, root).Ok? {
      var es := Walk(store, root).value;
      assert es == Below(store, root);
      forall i, j | 0 <= i < j < |es| ensures PathLess(es[i].rel, es[j].rel) && es[i].rel != es[j].rel {
        assert es[i] in es && es[j] in es;
        PathLessCommonPrefix(root, es[i].rel, es[j].rel);
        if es[i].rel == es[j].rel {
          PathLessIrreflexive(es[i].rel);
        }
      }
    }
  }
}
