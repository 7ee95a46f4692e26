/** Reading the module path back from a go.mod file: the pieces of Go's strings package the
    engine uses (TrimSpace, Split, HasPrefix, TrimPrefix) and the search for the first
    `module ` line. */
module GoMod {
  import opened Common

  /** unicode.IsSpace: the ASCII spaces \t \n \v \f \r and ' ', U+0085, U+00A0, and the
      other characters with the Unicode White_Space property (U+1680, U+2000..U+200A,
      U+2028, U+2029, U+202F, U+205F, U+3000). */
  predicate IsSpace(c: char)
  {
    || c == ' '
    || '\t' <= c <= '\r'
    || c == '\U{85}' || c == '\U{A0}' || c == '\U{1680}'
    || '\U{2000}' <= c <= '\U{200A}'
    || c == '\U{2028}' || c == '\U{2029}' || c == '\U{202F}' || c == '\U{205F}' || c == '\U{3000}'
  }

  /** strings.TrimLeftFunc(s, unicode.IsSpace): a suffix of s that does not start with white
      space. */
  function TrimLeft(s: string): (r: string)
    ensures |r| <= |s|
    ensures r == [] || !IsSpace(r[0])
    decreases |s|
  {
    if |s| > 0 && IsSpace(s[0]) then TrimLeft(s[1..]) else s
  }

  /** TrimLeft keeps a suffix of s. */
  lemma {:induction false} TrimLeftIsSuffix(s: string)
    ensures TrimLeft(s) == s[|s| - |TrimLeft(s)|..]
    decreases |s|
  {
    if |s| > 0 && IsSpace(s[0]) {
      TrimLeftIsSuffix(s[1..]);
    }
  }

  /** Everything TrimLeft drops is white space. */
  lemma {:induction false} TrimLeftCutsSpace(s: string)
    ensures forall k :: 0 <= k < |s| - |TrimLeft(s)| ==> IsSpace(s[k])
    decreases |s|
  {
    if |s| > 0 && IsSpace(s[0]) {
      TrimLeftCutsSpace(s[1..]);
      forall k | 1 <= k < |s| - |TrimLeft(s)| ensures IsSpace(s[k]) {
        assert s[k] == s[1..][k - 1];
      }
    }
  }

  /** strings.TrimRightFunc(s, unicode.IsSpace): a prefix of s that does not end in white
      space. */
  function TrimRight(s: string): (r: string)
    ensures |r| <= |s|
    ensures r == [] || !IsSpace(r[|r| - 1])
    decreases |s|
  {
    if |s| > 0 && IsSpace(s[|s| - 1]) then TrimRight(s[..|s| - 1]) else s
  }

  /** TrimRight keeps a prefix of s. */
  lemma {:induction false} TrimRightIsPrefix(s: string)
    ensures TrimRight(s) == s[..|TrimRight(s)|]
    decreases |s|
  {
    if |s| > 0 && IsSpace(s[|s| - 1]) {
      TrimRightIsPrefix(s[..|s| - 1]);
    }
  }

  /** Everything TrimRight drops is white space. */
  lemma {:induction false} TrimRightCutsSpace(s: string)
    ensures forall k :: |TrimRight(s)| <= k < |s| ==> IsSpace(s[k])
    decreases |s|
  {
    if |s| > 0 && IsSpace(s[|s| - 1]) {
      TrimRightCutsSpace(s[..|s| - 1]);
    }
  }

  /** strings.TrimSpace: s without its leading and trailing white space. */
  function TrimSpace(s: string): (r: string)
    ensures r == [] || (!IsSpace(r[0]) && !IsSpace(r[|r| - 1]))
  {
    TrimRightIsPrefix(TrimLeft(s));
    TrimRight(TrimLeft(s))
  }

  /** TrimSpace cuts white space only: what it returns is a slice of s, and everything cut on
      either side is white space. */
  lemma TrimSpaceCutsOnlySpace(s: string)
    ensures var r, i := TrimSpace(s), |s| - |TrimLeft(s)|;
      && i + |r| <= |s|
      && r == s[i..i + |r|]
      && (forall k :: 0 <= k < i ==> IsSpace(s[k]))
      && (forall k :: i + |r| <= k < |s| ==> IsSpace(s[k]))
  {
    TrimLeftCutsSpace(s);
    TrimSpaceIsSlice(s);
    TrimSpaceCutsRight(s);
  }

  lemma TrimSpaceIsSlice(s: string)
    ensures var r, i := TrimSpace(s), |s| - |TrimLeft(s)|;
      i + |r| <= |s| && r == s[i..i + |r|]
  {
    var left := TrimLeft(s);
    var r := TrimRight(left);
    var i := |s| - |left|;
    TrimLeftIsSuffix(s);
    TrimRightIsPrefix(left);
    assert r == left[..|r|] && left == s[i..];
  }

  lemma TrimSpaceCutsRight(s: string)
    ensures var r, i := TrimSpace(s), |s| - |TrimLeft(s)|;
      forall k :: i + |r| <= k < |s| ==> IsSpace(s[k])
  {
    var left := TrimLeft(s);
    var r := TrimRight(left);
    var i := |s| - |left|;
    TrimRightCutsSpace(left);
    TrimLeftIsSuffix(s);
    forall k | i + |r| <= k < |s| ensures IsSpace(s[k]) {
      assert s[k] == left[k - i];
    }
  }

  /** Trimming twice is trimming once. */
  lemma TrimSpaceIdempotent(s: string)
    ensures TrimSpace(TrimSpace(s)) == TrimSpace(s)
  {
    var r := TrimSpace(s);
    if r != [] {
      assert TrimLeft(r) == r;
      assert TrimRight(r) == r;
    }
  }

  /** strings.HasPrefix. */
  predicate HasPrefix(s: string, prefix: string)
  {
    |prefix| <= |s| && s[..|prefix|] == prefix
  }

  /** strings.TrimPrefix: drops prefix once when s starts with it. */
  function TrimPrefix(s: string, prefix: string): (r: string)
    ensures HasPrefix(s, prefix) ==> prefix + r == s
    ensures !HasPrefix(s, prefix) ==> r == s
  {
    if HasPrefix(s, prefix) then s[|prefix|..] else s
  }

  // ---------------------------------------------------------------------------------------
  // strings.Split with a one-character separator

  /** The inverse of Split: the parts with the separator between each two. */
  function Join(parts: seq<string>, sep: char): string
    requires |parts| >= 1
    decreases |parts|
  {
    if |parts| == 1 then parts[0] else parts[0] + [sep] + Join(parts[1..], sep)
  }

  /** strings.Split(s, sep): the pieces between separators, at least one, "" for s == "". */
  function Split(s: string, sep: char): (r: seq<string>)
    ensures |r| >= 1
    ensures forall i :: 0 <= i < |r| ==> sep !in r[i]
    ensures Join(r, sep) == s
    decreases |s|
  {
    if |s| == 0 then [""]
    else
      var rest := Split(s[1..], sep);
      if s[0] == sep then
        assert [""] + rest == [""] + rest && ([""] + rest)[1..] == rest;
        [""] + rest
      else
        var r := [[s[0]] + rest[0]] + rest[1..];
        assert r[1..] == rest[1..];
        assert s == [s[0]] + s[1..];
        r
  }

  /** Split with no separator in s yields s itself. */
  lemma {:induction false} SplitNoSeparator(s: string, sep: char)
    requires sep !in s
    ensures Split(s, sep) == [s]
    decreases |s|
  {
    if |s| > 0 {
      assert sep !in s[1..] by {
        forall c | c in s[1..] ensures c != sep {
          var k :| 0 <= k < |s[1..]| && s[1..][k] == c;
          assert s[k + 1] == c;
        }
      }
      SplitNoSeparator(s[1..], sep);
      assert s == [s[0]] + s[1..];
    }
  }

  /** A separator-free head before the first separator becomes the first piece. */
  lemma {:induction false} SplitAtFirst(head: string, tail: string, sep: char)
    requires sep !in head
    ensures Split(head + [sep] + tail, sep) == [head] + Split(tail, sep)
    decreases |head|
  {
    var s := head + [sep] + tail;
    if |head| == 0 {
      assert s == [sep] + tail && s[1..] == tail;
    } else {
      assert s[1..] == head[1..] + [sep] + tail;
      assert sep !in head[1..] by {
        forall c | c in head[1..] ensures c != sep {
          var k :| 0 <= k < |head[1..]| && head[1..][k] == c;
          assert head[k + 1] == c;
        }
      }
      SplitAtFirst(head[1..], tail, sep);
      assert [head[0]] + head[1..] == head;
    }
  }

  /** Split is the only way to cut s into separator-free pieces that Join back to s. */
  lemma {:induction false} SplitIsUnique(parts: seq<string>, sep: char)
    requires |parts| >= 1
    requires forall i :: 0 <= i < |parts| ==> sep !in parts[i]
    ensures Split(Join(parts, sep), sep) == parts
    decreases |parts|
  {
    if |parts| == 1 {
      SplitNoSeparator(parts[0], sep);
    } else {
      var tail := parts[1..];
      assert forall i :: 0 <= i < |tail| ==> sep !in tail[i] by {
        forall i | 0 <= i < |tail| ensures sep !in tail[i] {
          assert tail[i] == parts[i + 1];
        }
      }
      SplitIsUnique(tail, sep);
      SplitAtFirst(parts[0], Join(tail, sep), sep);
      assert [parts[0]] + tail == parts;
    }
  }

  // ---------------------------------------------------------------------------------------
  // The module directive

  /** The directive go.mod declares its module path with. */
  const ModulePrefix := "module "

  /** A directive prefix: a keyword that starts with no white space and ends in one space,
      with no newline in it. The line scan below is stated for any such prefix. */
  predicate Keyword(key: string)
  {
    |key| >= 2 && !IsSpace(key[0]) && key[|key| - 1] == ' ' && '\n' !in key
  }

  lemma ModulePrefixIsKeyword()
    ensures Keyword(ModulePrefix)
  {
  }

  /** A line whose trimmed form starts with the directive. */
  predicate Declares(line: string, key: string)
  {
    HasPrefix(TrimSpace(line), key)
  }

  /** What a directive line declares: the trimmed rest after the directive. */
  function Declared(line: string, key: string): (r: string)
    requires Keyword(key) && Declares(line, key)
    ensures r != []
    ensures !IsSpace(r[0]) && !IsSpace(r[|r| - 1])
  {
    LineNamesPath(line, key);
    TrimSpace(TrimPrefix(TrimSpace(line), key))
  }

  /** A trimmed line ends in a non-space character, so after a prefix ending in a space
      something is left once the prefix is cut. */
  lemma LineNamesPath(line: string, prefix: string)
    requires HasPrefix(TrimSpace(line), prefix) && prefix != [] && prefix[|prefix| - 1] == ' '
    ensures TrimSpace(TrimPrefix(TrimSpace(line), prefix)) != []
  {
    var t := TrimSpace(line);
    assert t != [] && !IsSpace(t[|t| - 1]);
    TrimPrefixKeepsLast(t, prefix);
    var rest := TrimPrefix(t, prefix);
    assert rest != [] && !IsSpace(rest[|rest| - 1]);
    TrimSpaceKeepsLast(rest);
  }

  /** A prefix ending in white space, cut from text ending in something else, leaves that
      last character behind. */
  lemma TrimPrefixKeepsLast(t: string, prefix: string)
    requires HasPrefix(t, prefix) && prefix != [] && prefix[|prefix| - 1] == ' '
    requires t != [] && !IsSpace(t[|t| - 1])
    ensures var rest := TrimPrefix(t, prefix);
      rest != [] && rest[|rest| - 1] == t[|t| - 1]
  {
    assert t[|prefix| - 1] == prefix[|prefix| - 1];
  }

  /** Text that ends in a non-space character does not trim to nothing. */
  lemma TrimSpaceKeepsLast(s: string)
    requires s != [] && !IsSpace(s[|s| - 1])
    ensures TrimSpace(s) != []
  {
    TrimSpaceCutsOnlySpace(s);
  }

  /** The index of the first directive line, or |lines| when there is none. */
  function FirstDeclaring(lines: seq<string>, key: string): (k: nat)
    ensures k <= |lines|
    ensures forall j :: 0 <= j < k ==> !Declares(lines[j], key)
    ensures k < |lines| ==> Declares(lines[k], key)
    decreases |lines|
  {
    if lines == [] || Declares(lines[0], key) then 0
    else
      var k := FirstDeclaring(lines[1..], key);
      assert forall j :: 1 <= j < |lines| ==> lines[j] == lines[1..][j - 1];
      k + 1
  }

  /** The search over the lines: what the first directive line declares, or an error when
      there is none. */
  function DeclaredIn(lines: seq<string>, key: string): (r: Result<string>)
    requires Keyword(key)
    ensures r.Err? <==> forall i :: 0 <= i < |lines| ==> !Declares(lines[i], key)
    ensures r.Err? ==> r.error == ModulePathNotFound
    ensures r.Ok? ==> r.value != [] && !IsSpace(r.value[0]) && !IsSpace(r.value[|r.value| - 1])
  {
    var k := FirstDeclaring(lines, key);
    if k < |lines| then Ok(Declared(lines[k], key)) else Err(ModulePathNotFound)
  }

  /** A scan that has passed every line before i and finds no directive at i may go on. */
  lemma ScanPassesLine(lines: seq<string>, key: string, i: nat)
    requires i <= FirstDeclaring(lines, key) && i < |lines| && !Declares(lines[i], key)
    ensures i + 1 <= FirstDeclaring(lines, key)
  {
  }

  /** A scan that has passed every line before i and finds a directive at i has found what
      the search returns. */
  lemma ScanStopsAtLine(lines: seq<string>, key: string, i: nat)
    requires Keyword(key)
    requires i <= FirstDeclaring(lines, key) && i < |lines| && Declares(lines[i], key)
    ensures DeclaredIn(lines, key) == Ok(Declared(lines[i], key))
  {
  }

  /** The module path declared in a go.mod text: its first module line, split on "\n". */
  function ModulePath(content: string): (r: Result<string>)
    ensures r.Err? ==> r.error == ModulePathNotFound
    ensures r.Ok? ==> r.value != [] && !IsSpace(r.value[0]) && !IsSpace(r.value[|r.value| - 1])
  {
    ModulePrefixIsKeyword();
    DeclaredIn(Split(content, '\n'), ModulePrefix)
  }

  /** Text without white space at either end is left alone by TrimSpace. */
  lemma TrimSpaceKeepsTrimmed(s: string)
    requires s != [] && !IsSpace(s[0]) && !IsSpace(s[|s| - 1])
    ensures TrimSpace(s) == s
  {
    assert TrimLeft(s) == s;
    assert TrimRight(s) == s;
  }

  /** The directive followed by a path without surrounding white space is a directive line
      that declares that path. */
  lemma DirectiveDeclares(key: string, path: string)
    requires Keyword(key)
    requires path != [] && !IsSpace(path[0]) && !IsSpace(path[|path| - 1])
    ensures Declares(key + path, key) && Declared(key + path, key) == path
  {
    var first := key + path;
    TrimSpaceKeepsTrimmed(first);
    assert first[..|key|] == key;
    assert first[|key|..] == path;
    TrimSpaceKeepsTrimmed(path);
  }

  /** A text whose first line is the directive followed by a path without surrounding white
      space declares exactly that path, whatever follows. */
  lemma FirstLineDeclares(key: string, path: string, rest: string)
    requires Keyword(key)
    requires path != [] && !IsSpace(path[0]) && !IsSpace(path[|path| - 1])
    requires '\n' !in path
    ensures DeclaredIn(Split(key + path + "\n" + rest, '\n'), key) == Ok(path)
  {
    var first := key + path;
    assert '\n' !in first by {
      forall k | 0 <= k < |first| ensures first[k] != '\n' {
        if k >= |key| {
          assert first[k] == path[k - |key|];
        } else {
          assert first[k] == key[k];
        }
      }
    }
    SplitAtFirst(first, rest, '\n');
    assert first + ['\n'] + rest == key + path + "\n" + rest;
    DirectiveDeclares(key, path);
  }

  /** A go.mod whose first line is "module " followed by a path without surrounding white
      space declares exactly that path, whatever follows. */
  lemma FirstLineDeclaresPath(path: string, rest: string)
    requires path != [] && !IsSpace(path[0]) && !IsSpace(path[|path| - 1])
    requires '\n' !in path
    ensures ModulePath(ModulePrefix + path + "\n" + rest) == Ok(path)
  {
    ModulePrefixIsKeyword();
    FirstLineDeclares(ModulePrefix, path, rest);
  }
}
