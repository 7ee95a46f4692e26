/** The destination filesystem as the one mutable object the engine writes through. Each
    method changes the two fields exactly as the corresponding FileTree function says. */
module OS {
  import opened Paths
  import opened Common
  import FileTree

  class FileSystem {
    var files: map<Path, string>
    var dirs: set<Path>

    /** The current contents as a value. */
    function View(): FileTree.Tree
      reads this
    {
      FileTree.Tree(files, dirs)
    }

    predicate Valid()
      reads this
    {
      FileTree.Valid(View())
    }

    constructor (t: FileTree.Tree)
      ensures View() == t
    {
      files := t.files;
      dirs := t.dirs;
    }

    method MkdirAll(p: Path) returns (out: Outcome)
      modifies this
      ensures FileTree.Run(View(), out) == FileTree.MkdirAll(old(View()), p)
    {
      if exists i | 1 <= i <= |p| :: p[..i] in files {
        out := Fail(NotADirectory(p));
      } else {
        dirs := dirs + Prefixes(p);
        out := Pass;
      }
    }

    method WriteFile(p: Path, content: string) returns (out: Outcome)
      modifies this
      ensures FileTree.Run(View(), out) == FileTree.WriteFile(old(View()), p, content)
    {
      if p == [] || p in dirs {
        out := Fail(IsADirectory(p));
      } else if |p| > 1 && Dir(p) !in dirs {
        out := Fail(NoSuchFile(p));
      } else {
        files := files[p := content];
        out := Pass;
      }
    }

    method RemoveAll(p: Path) returns (out: Outcome)
      modifies this
      ensures FileTree.Run(View(), out) == FileTree.RemoveAll(old(View()), p)
    {
      if p == [] {
        out := Fail(RemoveRefused(p));
      } else if exists q | q in Prefixes(Dir(p)) :: q in files {
        out := Fail(NotADirectory(p));
      } else {
        files := map q | q in files && !FileTree.Within(p, q) :: files[q];
        dirs := set q | q in dirs && !FileTree.Within(p, q);
        out := Pass;
      }
    }

    method ReadFile(p: Path) returns (r: Result<string>)
      ensures r == FileTree.ReadFile(View(), p)
    {
      if p in files {
        r := Ok(files[p]);
      } else {
        r := Err(NoSuchFile(p));
      }
    }
  }
}
