/** `load_build_fs_cache` (api/core.py, api/sys_utils.py): reads the
    build's indented tree index into `BUILD_FS_CACHE`, a map from each
    directory path to the entries listed under it, using a stack of the
    directories enclosing the current line. The two copies behave the
    same. The file is given as its lines, each with its newline. */
module BuildIndex {
  import opened Text

  /** One listed entry: `{"name", "path", "is_dir", "size": "-", "ext"}`. */
  datatype Entry = Entry(name: string, path: string, isDir: bool, size: string, ext: string)

  // ---------------------------------------------------------------------
  // os.path.splitext
  // ---------------------------------------------------------------------

  /** The index of the last `c` in `s`, or -1. */
  function LastIndex(s: string, c: char): (i: int)
    ensures -1 <= i < |s|
    ensures i >= 0 ==> s[i] == c
    ensures forall k :: i < k < |s| ==> s[k] != c
  {
    if s == [] then -1
    else if s[|s| - 1] == c then |s| - 1
    else LastIndex(s[..|s| - 1], c)
  }

  /** All of `s[from..to]` is dots. */
  predicate AllDots(s: string, from: int, to: int)
    requires 0 <= from <= to <= |s|
  {
    forall k :: from <= k < to ==> s[k] == '.'
  }

  /** `os.path.splitext(p)[1]`: from the last dot of the last component,
      unless that component is only leading dots up to it. */
  function Extension(p: string): (ext: string)
    ensures ext == [] || (ext[0] == '.' && EndsWith(p, ext))
    ensures forall k :: 0 <= k < |ext| ==> ext[k] != '/'
    ensures forall k :: 0 < k < |ext| ==> ext[k] != '.'
  {
    var sepIndex := LastIndex(p, '/');
    var dotIndex := LastIndex(p, '.');
    if dotIndex > sepIndex && !AllDots(p, sepIndex + 1, dotIndex) then
      var ext := p[dotIndex..];
      assert forall k :: 0 < k < |ext| ==> ext[k] == p[dotIndex + k];
      ext
    else []
  }

  /** A name with a stem that does not start with a dot gets the text
      after its last dot as its extension. */
  lemma ExtensionOfSuffix(stem: string, suffix: string)
    requires stem != [] && stem[0] != '.' && '/' !in stem && '/' !in suffix && '.' !in suffix
    ensures Extension(stem + "." + suffix) == "." + suffix
  {
    var p := stem + "." + suffix;
    assert p[|stem|] == '.';
    assert forall k :: |stem| < k < |p| ==> p[k] == suffix[k - |stem| - 1];
    assert LastIndex(p, '.') == |stem|;
    assert LastIndex(p, '/') == -1;
    assert !AllDots(p, 0, |stem|) by { assert p[0] == stem[0]; }
    assert p[|stem|..] == "." + suffix;
  }

  /** A dot-file such as `.bashrc` has no extension. */
  lemma ExtensionOfDotfile(name: string)
    requires |name| >= 1 && name[0] == '.' && '/' !in name && '.' !in name[1..]
    ensures Extension(name) == ""
  {
    assert forall k :: 0 < k < |name| ==> name[k] == name[1..][k - 1];
    assert LastIndex(name, '.') == 0;
  }

  // ---------------------------------------------------------------------
  // One line of the index
  // ---------------------------------------------------------------------

  /** The parser's state: the cache, the directory stack, and whether an
      exception has ended the parse. */
  datatype Scan = Scan(cache: map<string, seq<Entry>>, stack: seq<string>, failed: bool)

  /** One line read: nothing but spaces (`if not stripped: continue`), or
      its indent, whether it names a directory, and the name. */
  datatype Row = Blank | Row(depth: nat, isDir: bool, name: string)

  /** `stripped = line.lstrip(' ')`; `content` drops the newline, `name`
      the trailing slashes, and `depth` counts the spaces removed. */
  function Parse(line: string): Row {
    var stripped := TrimStart(line, {' '});
    if stripped == "" then Blank
    else
      var content := TrimEnd(stripped, {'\n'});
      Row(|line| - |stripped|, EndsWith(content, "/"), TrimEnd(content, {'/'}))
  }

  /** `abs_path`: directly under the root, or under the parent. */
  function ChildPath(parent: string, name: string): string {
    if parent == "/" then "/" + name else parent + "/" + name
  }

  /** The entry listed for a name under `parent`. */
  function MakeEntry(parent: string, name: string, isDir: bool): (e: Entry)
    ensures e.name == name && e.isDir == isDir && e.path == ChildPath(parent, name) && e.size == "-"
    ensures e.ext == (if isDir then "" else Lower(Extension(name)))
  {
    Entry(name, ChildPath(parent, name), isDir, "-", if isDir then "" else Lower(Extension(name)))
  }

  /** `if key not in cache: cache[key] = []`. */
  function Touch(cache: map<string, seq<Entry>>, key: string): (c: map<string, seq<Entry>>)
    ensures c.Keys == cache.Keys + {key}
    ensures forall k :: k in cache ==> c[k] == cache[k]
    ensures key !in cache ==> c[key] == []
  {
    if key in cache then cache else cache[key := []]
  }

  /** `cache[parent].append(e)`, after touching the parent. */
  function Append(cache: map<string, seq<Entry>>, parent: string, e: Entry): (c: map<string, seq<Entry>>)
    ensures c.Keys == cache.Keys + {parent}
    ensures forall k :: k in cache && k != parent ==> c[k] == cache[k]
    ensures c[parent] == (if parent in cache then cache[parent] else []) + [e]
  {
    var t := Touch(cache, parent);
    t[parent := t[parent] + [e]]
  }

  /** `while len(dir_stack) > depth: dir_stack.pop()`. */
  function Popped(stack: seq<string>, depth: nat): (s: seq<string>)
    ensures |s| <= depth && (forall x :: x in s ==> x in stack)
    ensures |stack| >= depth ==> |s| == depth
  {
    if |stack| > depth then stack[..depth] else stack
  }

  /** One iteration of the loop. */
  function Step(sc: Scan, row: Row): Scan {
    if sc.failed || row.Blank? then sc
    else if row.depth == 0 then
      var current := if row.name == "" then "/" else row.name;
      Scan(Touch(sc.cache, current), [current], false)
    else
      var stack := Popped(sc.stack, row.depth);
      if stack == [] then Scan(sc.cache, stack, true)
      else
        var parent := stack[|stack| - 1];
        var e := MakeEntry(parent, row.name, row.isDir);
        var cache := Append(sc.cache, parent, e);
        if row.isDir then Scan(Touch(cache, e.path), stack + [e.path], false)
        else Scan(cache, stack, false)
  }

  function Absorb(sc: Scan, line: string): Scan {
    Step(sc, Parse(line))
  }

  function Scanned(cache: map<string, seq<Entry>>, lines: seq<string>): Scan {
    if lines == [] then Scan(cache, [], false)
    else Absorb(Scanned(cache, lines[..|lines| - 1]), lines[|lines| - 1])
  }

  // ---------------------------------------------------------------------
  // Properties
  // ---------------------------------------------------------------------

  /** The cache only grows: no key disappears and every list only gets
      entries appended. */
  predicate Grows(before: map<string, seq<Entry>>, after: map<string, seq<Entry>>) {
    forall key :: key in before ==> key in after && |before[key]| <= |after[key]| && after[key][..|before[key]|] == before[key]
  }

  lemma GrowsTrans(a: map<string, seq<Entry>>, b: map<string, seq<Entry>>, c: map<string, seq<Entry>>)
    requires Grows(a, b) && Grows(b, c)
    ensures Grows(a, c)
  {
    forall key | key in a
      ensures key in c && |a[key]| <= |c[key]| && c[key][..|a[key]|] == a[key]
    {
      assert c[key][..|b[key]|][..|a[key]|] == c[key][..|a[key]|];
    }
  }

  /** Every entry is well formed: a directory has no extension, a file the
      lower-cased extension of its name, the size is `-`; and every
      directory entry and every stacked directory has its own key. */
  predicate Sound(sc: Scan) {
    && (forall s :: s in sc.stack ==> s in sc.cache)
    && (forall key, k :: key in sc.cache && 0 <= k < |sc.cache[key]| ==> EntryOk(sc.cache, sc.cache[key][k]))
  }

  predicate EntryOk(cache: map<string, seq<Entry>>, e: Entry) {
    && e.size == "-"
    && e.ext == (if e.isDir then "" else Lower(Extension(e.name)))
    && (e.isDir ==> e.path in cache)
  }

  lemma EntryOkGrows(cache: map<string, seq<Entry>>, cache2: map<string, seq<Entry>>, e: Entry)
    requires EntryOk(cache, e) && cache.Keys <= cache2.Keys
    ensures EntryOk(cache2, e)
  {
  }

  lemma StepGrows(sc: Scan, row: Row)
    ensures Grows(sc.cache, Step(sc, row).cache)
  {
    if sc.failed || row.Blank? {
      GrowsRefl(sc.cache);
    } else if row.depth == 0 {
      TouchGrows(sc.cache, if row.name == "" then "/" else row.name);
    } else if Popped(sc.stack, row.depth) == [] {
      GrowsRefl(sc.cache);
    } else {
      var stack := Popped(sc.stack, row.depth);
      var e := MakeEntry(stack[|stack| - 1], row.name, row.isDir);
      var cache := Append(sc.cache, stack[|stack| - 1], e);
      StepAppends(sc, row);
      AppendGrows(sc.cache, stack[|stack| - 1], e);
      if row.isDir {
        TouchGrows(cache, e.path);
        GrowsTrans(sc.cache, cache, Touch(cache, e.path));
      }
    }
  }

  lemma GrowsRefl(cache: map<string, seq<Entry>>)
    ensures Grows(cache, cache)
  {
    forall key | key in cache ensures cache[key][..|cache[key]|] == cache[key] { }
  }

  lemma TouchGrows(cache: map<string, seq<Entry>>, key: string)
    ensures Grows(cache, Touch(cache, key))
  {
    GrowsRefl(cache);
  }

  lemma AppendGrows(cache: map<string, seq<Entry>>, parent: string, e: Entry)
    ensures Grows(cache, Append(cache, parent, e))
  {
    var c := Append(cache, parent, e);
    forall key | key in cache ensures key in c && |cache[key]| <= |c[key]| && c[key][..|cache[key]|] == cache[key] {
      if key == parent {
        assert c[key] == cache[key] + [e];
      }
    }
  }

  lemma StepSound(sc: Scan, row: Row)
    requires Sound(sc)
    ensures Sound(Step(sc, row))
  {
    if sc.failed || row.Blank? {
    } else if row.depth == 0 {
      var current := if row.name == "" then "/" else row.name;
      var c2 := Touch(sc.cache, current);
      forall key, k | key in c2 && 0 <= k < |c2[key]| ensures EntryOk(c2, c2[key][k]) {
        EntryOkGrows(sc.cache, c2, c2[key][k]);
      }
    } else {
      var stack := Popped(sc.stack, row.depth);
      if stack != [] {
        var parent := stack[|stack| - 1];
        var e := MakeEntry(parent, row.name, row.isDir);
        var c2 := Append(sc.cache, parent, e);
        var c3 := if row.isDir then Touch(c2, e.path) else c2;
        assert c3.Keys >= c2.Keys >= sc.cache.Keys;
        assert forall k :: k in c2 ==> c3[k] == c2[k];
        assert EntryOk(c3, e);
        forall key, k | key in c3 && 0 <= k < |c3[key]| ensures EntryOk(c3, c3[key][k]) {
          if key == parent && k == |c2[parent]| - 1 {
            assert c3[key][k] == e;
          } else if key in sc.cache {
            assert c3[key][k] == sc.cache[key][k];
            EntryOkGrows(sc.cache, c3, c3[key][k]);
          }
        }
      }
    }
  }

  lemma {:induction false} ScannedGrowsSound(cache: map<string, seq<Entry>>, lines: seq<string>)
    requires Sound(Scan(cache, [], false))
    ensures Grows(cache, Scanned(cache, lines).cache)
    ensures Sound(Scanned(cache, lines))
  {
    if lines == [] {
      assert Grows(cache, cache) by {
        forall key | key in cache ensures cache[key][..|cache[key]|] == cache[key] { }
      }
    } else {
      var prev := Scanned(cache, lines[..|lines| - 1]);
      ScannedGrowsSound(cache, lines[..|lines| - 1]);
      StepGrows(prev, Parse(lines[|lines| - 1]));
      StepSound(prev, Parse(lines[|lines| - 1]));
      GrowsTrans(cache, prev.cache, Absorb(prev, lines[|lines| - 1]).cache);
    }
  }

  /** A root line resets the stack to itself; an indented line before any
      root line ends the parse and changes nothing; an indented line under
      a root is appended to the directory at its depth, with that
      directory's path plus its name, and a directory is then stacked. */
  lemma StepRow(sc: Scan, row: Row)
    requires !sc.failed && row.Row?
    ensures row.depth == 0 ==>
      Step(sc, row).stack == [if row.name == "" then "/" else row.name] && Step(sc, row).stack[0] in Step(sc, row).cache
    ensures row.depth > 0 && sc.stack == [] ==> Step(sc, row) == Scan(sc.cache, [], true)
    ensures row.depth > 0 && sc.stack != [] ==>
      var stack := Popped(sc.stack, row.depth);
      && stack != []
      && var parent := stack[|stack| - 1];
      var after := Step(sc, row);
      && parent in after.cache
      && |after.cache[parent]| >= 1
      && after.cache[parent][|after.cache[parent]| - 1] == MakeEntry(parent, row.name, row.isDir)
      && after.stack == stack + (if row.isDir then [ChildPath(parent, row.name)] else [])
  {
    if row.depth > 0 && sc.stack != [] {
      PoppedTop(sc.stack, row.depth);
      StepChild(sc, row);
    }
  }

  lemma StepChild(sc: Scan, row: Row)
    requires !sc.failed && row.Row? && row.depth > 0 && Popped(sc.stack, row.depth) != []
    ensures var stack := Popped(sc.stack, row.depth);
      var parent := stack[|stack| - 1];
      var after := Step(sc, row);
      && parent in after.cache
      && |after.cache[parent]| >= 1
      && after.cache[parent][|after.cache[parent]| - 1] == MakeEntry(parent, row.name, row.isDir)
      && after.stack == stack + (if row.isDir then [ChildPath(parent, row.name)] else [])
  {
    var stack := Popped(sc.stack, row.depth);
    var parent := stack[|stack| - 1];
    var e := MakeEntry(parent, row.name, row.isDir);
    var cache := Append(sc.cache, parent, e);
    StepAppends(sc, row);
    AppendTop(sc.cache, parent, e);
    if row.isDir {
      TouchKeeps(cache, e.path, parent);
    }
  }

  /** The directory an indented line lands in: the one at its depth, or
      the innermost when the stack is shallower. */
  lemma PoppedTop(stack: seq<string>, depth: nat)
    requires stack != [] && depth > 0
    ensures var s := Popped(stack, depth);
      s != [] && s[|s| - 1] == stack[if |stack| > depth then depth - 1 else |stack| - 1]
  {
  }

  lemma AppendTop(cache: map<string, seq<Entry>>, parent: string, e: Entry)
    ensures var c := Append(cache, parent, e);
      parent in c && |c[parent]| >= 1 && c[parent][|c[parent]| - 1] == e
  {
  }

  lemma TouchKeeps(cache: map<string, seq<Entry>>, key: string, other: string)
    requires other in cache
    ensures other in Touch(cache, key) && Touch(cache, key)[other] == cache[other]
  {
  }

  /** A bare newline is a root line, so it resets the stack to `/`. */
  lemma ParseNewline()
    ensures Parse("\n") == Row(0, false, "")
  {
    var nl := "\n";
    assert TrimStart(nl, {' '}) == nl;
    assert TrimEnd(nl, {'\n'}) == "";
  }

  /** A line of spaces alone (the file's last line, without a newline) is
      skipped. */
  lemma ParseSpaces(s: string)
    requires forall k :: 0 <= k < |s| ==> s[k] == ' '
    ensures Parse(s) == Blank
  {
    BlankTrims(s);
  }

  lemma {:induction false} BlankTrims(s: string)
    requires forall k :: 0 <= k < |s| ==> s[k] == ' '
    ensures TrimStart(s, {' '}) == ""
  {
    if s != [] {
      BlankTrims(s[1..]);
    }
  }

  /** The `BUILD_FS_CACHE` global and its loader. */
  class BuildFsCache {
    var cache: map<string, seq<Entry>>

    constructor ()
      ensures cache == map[]
    {
      cache := map[];
    }

    /** `load_build_fs_cache`: nothing when the index file is missing;
        otherwise the lines are parsed until the end or until an indented
        line finds no enclosing directory, which ends the parse (`failed`)
        and keeps what was added before it. */
    method Load(indexExists: bool, lines: seq<string>) returns (failed: bool)
      modifies this
      ensures !indexExists ==> cache == old(cache) && !failed
      ensures indexExists ==> cache == Scanned(old(cache), lines).cache && failed == Scanned(old(cache), lines).failed
    {
      failed := false;
      if !indexExists {
        return;
      }
      ghost var c0 := cache;
      var stack: seq<string> := [];
      var i := 0;
      while i < |lines|
        invariant 0 <= i <= |lines|
        invariant Scanned(c0, lines[..i]) == Scan(cache, stack, false)
      {
        ScannedPrefix(c0, lines, i);
        stack, failed := Ingest(stack, lines[i]);
        if failed {
          ScannedFailed(c0, lines, i + 1);
          return;
        }
        i := i + 1;
      }
      assert lines[..i] == lines;
    }

    /** One iteration of the loop: the line's row is read, the stack popped
        to its depth and its entry appended; `failed` when no directory
        encloses it. */
    method Ingest(stack0: seq<string>, line: string) returns (stack: seq<string>, failed: bool)
      modifies this
      ensures Scan(cache, stack, failed) == Absorb(Scan(old(cache), stack0, false), line)
    {
      stack, failed := stack0, false;
      var stripped := TrimStart(line, {' '});
      if stripped == "" {
        return;
      }
      var content := TrimEnd(stripped, {'\n'});
      var depth := |line| - |stripped|;
      var isDir := EndsWith(content, "/");
      var name := TrimEnd(content, {'/'});
      var row := Row(depth, isDir, name);
      assert Parse(line) == row;
      ghost var sc := Scan(old(cache), stack0, false);
      if depth == 0 {
        var current := if name == "" then "/" else name;
        stack := [current];
        if current !in cache {
          cache := cache[current := []];
        }
        assert cache == Touch(old(cache), current);
        assert Step(sc, row) == Scan(cache, stack, false);
        return;
      }
      stack, failed := Attach(stack0, row);
    }

    /** An indented line: the stack is popped to its depth and its entry
        appended under the directory on top, or the parse fails when no
        directory is left. */
    method Attach(stack0: seq<string>, row: Row) returns (stack: seq<string>, failed: bool)
      requires row.Row? && row.depth > 0
      modifies this
      ensures Scan(cache, stack, failed) == Step(Scan(old(cache), stack0, false), row)
    {
      var depth, isDir, name := row.depth, row.isDir, row.name;
      ghost var sc := Scan(old(cache), stack0, false);
      stack := Pop(stack0, depth);
      failed := false;
      if stack == [] {
        failed := true;
        return;
      }
      var parentPath := stack[|stack| - 1];
      var absPath := if parentPath == "/" then "/" + name else parentPath + "/" + name;
      AppendEntry(parentPath, Entry(name, absPath, isDir, "-", if isDir then "" else Lower(Extension(name))));
      if isDir {
        stack := stack + [absPath];
        TouchKey(absPath);
      }
      StepAppends(sc, row);
    }

    /** A directory gets an empty list the first time it is seen. */
    method TouchKey(key: string)
      modifies this
      ensures cache == Touch(old(cache), key)
    {
      if key !in cache {
        cache := cache[key := []];
      }
    }

    /** The entry appended to its parent's list, which is created empty
        first when missing. */
    method AppendEntry(parent: string, entry: Entry)
      modifies this
      ensures cache == Append(old(cache), parent, entry)
    {
      TouchKey(parent);
      cache := cache[parent := cache[parent] + [entry]];
    }
  }

  /** The pop loop: directories deeper than the line are dropped one by
      one from the top of the stack. */
  method Pop(stack0: seq<string>, depth: nat) returns (stack: seq<string>)
    ensures stack == Popped(stack0, depth)
  {
    stack := stack0;
    while |stack| > depth
      invariant stack == (if |stack0| > depth then stack0[..|stack|] else stack0)
      invariant |stack0| > depth ==> |stack| >= depth
      decreases |stack|
    {
      stack := stack[..|stack| - 1];
    }
  }

  /** An indented line under a directory: what `Step` does with it. */
  lemma StepAppends(sc: Scan, row: Row)
    requires !sc.failed && row.Row? && row.depth > 0 && Popped(sc.stack, row.depth) != []
    ensures var stack := Popped(sc.stack, row.depth);
      var e := MakeEntry(stack[|stack| - 1], row.name, row.isDir);
      var cache := Append(sc.cache, stack[|stack| - 1], e);
      Step(sc, row) == (if row.isDir then Scan(Touch(cache, e.path), stack + [e.path], false) else Scan(cache, stack, false))
  {
  }

  lemma ScannedPrefix(cache: map<string, seq<Entry>>, lines: seq<string>, i: nat)
    requires i < |lines|
    ensures Scanned(cache, lines[..i + 1]) == Absorb(Scanned(cache, lines[..i]), lines[i])
  {
    assert lines[..i + 1][..i] == lines[..i];
  }

  /** Once the parse has failed the remaining lines change nothing. */
  lemma {:induction false} ScannedFailed(cache: map<string, seq<Entry>>, lines: seq<string>, n: nat)
    requires n <= |lines| && Scanned(cache, lines[..n]).failed
    ensures Scanned(cache, lines) == Scanned(cache, lines[..n])
    decreases |lines| - n
  {
    if n < |lines| {
      assert lines[..n + 1][..n] == lines[..n];
      ScannedFailed(cache, lines, n + 1);
    } else {
      assert lines[..n] == lines;
    }
  }
}
