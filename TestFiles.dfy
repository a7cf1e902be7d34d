/**
 * Test-file discovery: which files given on the command line, or found below
 * a directory given there, are suite files (`.test`) and which are script
 * tests (`.test.js`).
 */
module TestFiles {
  import opened Wrappers
  import opened Suites

  /** A file-system entry: a file, or a directory and the entries it lists. */
  datatype FileNode = File(name: string) | Dir(name: string, children: seq<FileNode>)

  /** The two lists the walk fills: suite files and script-test files. */
  datatype Buckets = Buckets(basic: seq<FileNode>, js: seq<FileNode>)

  function Join(a: Buckets, b: Buckets): Buckets {
    Buckets(a.basic + b.basic, a.js + b.js)
  }

  const BasicSuffix: string := ".test"
  const JsSuffix: string := ".test.js"
  const NoTestFiles: string := "Couldn't find any test files"

  /** Lower-casing of the ASCII letters. */
  function LowerChar(c: char): char {
    if 'A' <= c <= 'Z' then (c as int + 32) as char else c
  }

  function ToLower(s: string): (r: string)
    ensures |r| == |s|
  {
    seq(|s|, k requires 0 <= k < |s| => LowerChar(s[k]))
  }

  predicate EndsWith(s: string, suffix: string) {
    |suffix| <= |s| && s[|s| - |suffix|..] == suffix
  }

  /** No name ends in both suffixes: one ends in `t`, the other in `s`. */
  lemma SuffixesExclusive(s: string)
    ensures !(EndsWith(s, BasicSuffix) && EndsWith(s, JsSuffix))
  {
    if EndsWith(s, BasicSuffix) {
      assert s[|s| - 1] == BasicSuffix[4];
    }
    if EndsWith(s, JsSuffix) {
      assert s[|s| - 1] == JsSuffix[7];
    }
  }

  /** The bucket of a file: a suite file, a script test, or neither. */
  datatype Kind = Basic | Js | Ignored

  function Classify(name: string): (k: Kind)
    ensures k == Basic <==> EndsWith(ToLower(name), BasicSuffix)
    ensures k == Js <==> EndsWith(ToLower(name), JsSuffix)
  {
    SuffixesExclusive(ToLower(name));
    var lower := ToLower(name);
    if EndsWith(lower, BasicSuffix) then Basic
    else if EndsWith(lower, JsSuffix) then Js
    else Ignored
  }

  /** The buckets the walk from `node` fills, in walk order. */
  function Found(node: FileNode): Buckets
    decreases node, 1
  {
    match node
    case File(name) =>
      (match Classify(name)
       case Basic => Buckets([node], [])
       case Js => Buckets([], [node])
       case Ignored => Buckets([], []))
    case Dir(_, children) => FoundInChildren(node, |children|)
  }

  /** The buckets the walk fills from the first k children of a directory. */
  function FoundInChildren(dir: FileNode, k: nat): Buckets
    requires dir.Dir? && k <= |dir.children|
    decreases dir, 0, k
  {
    if k == 0 then Buckets([], [])
    else Join(FoundInChildren(dir, k - 1), Found(dir.children[k - 1]))
  }

  /** Every file below `node`, in the order the walk visits them. */
  function AllFiles(node: FileNode): (r: seq<FileNode>)
    ensures forall f :: f in r ==> f.File?
    decreases node, 1
  {
    match node
    case File(_) => [node]
    case Dir(_, children) => AllFilesInChildren(node, |children|)
  }

  function AllFilesInChildren(dir: FileNode, k: nat): (r: seq<FileNode>)
    requires dir.Dir? && k <= |dir.children|
    ensures forall f :: f in r ==> f.File?
    decreases dir, 0, k
  {
    if k == 0 then [] else AllFilesInChildren(dir, k - 1) + AllFiles(dir.children[k - 1])
  }

  /** The files of a list whose names fall in bucket `kind`, in list order. */
  function OfKind(files: seq<FileNode>, kind: Kind): seq<FileNode>
    requires forall f :: f in files ==> f.File?
  {
    if files == [] then []
    else OfKind(files[..|files| - 1], kind)
         + (if Classify(files[|files| - 1].name) == kind then [files[|files| - 1]] else [])
  }

  lemma {:induction false} OfKindAppend(a: seq<FileNode>, b: seq<FileNode>, kind: Kind)
    requires forall f :: f in a ==> f.File?
    requires forall f :: f in b ==> f.File?
    ensures OfKind(a + b, kind) == OfKind(a, kind) + OfKind(b, kind)
    decreases |b|
  {
    if b == [] {
      assert a + b == a;
    } else {
      var b' := b[..|b| - 1];
      assert (a + b)[..|a + b| - 1] == a + b';
      OfKindAppend(a, b', kind);
    }
  }

  /**
   * The walk always descends into every directory and puts every file it
   * meets into the bucket its name selects: the buckets are exactly the
   * suite files and the script-test files among all files below `node`, in
   * walk order.
   */
  lemma {:induction false} FoundIsFilesOfKind(node: FileNode)
    ensures Found(node) == Buckets(OfKind(AllFiles(node), Basic), OfKind(AllFiles(node), Js))
    decreases node, 1
  {
    match node
    case File(name) =>
      assert [node][..0] == [];
    case Dir(_, children) =>
      FoundInChildrenIsFilesOfKind(node, |children|);
  }

  lemma {:induction false} FoundInChildrenIsFilesOfKind(dir: FileNode, k: nat)
    requires dir.Dir? && k <= |dir.children|
    ensures FoundInChildren(dir, k) == Buckets(OfKind(AllFilesInChildren(dir, k), Basic), OfKind(AllFilesInChildren(dir, k), Js))
    decreases dir, 0, k
  {
    if k > 0 {
      FoundInChildrenIsFilesOfKind(dir, k - 1);
      FoundIsFilesOfKind(dir.children[k - 1]);
      OfKindAppend(AllFilesInChildren(dir, k - 1), AllFiles(dir.children[k - 1]), Basic);
      OfKindAppend(AllFilesInChildren(dir, k - 1), AllFiles(dir.children[k - 1]), Js);
    }
  }

  /** No file lands in both buckets. */
  lemma {:induction false} BucketsDisjoint(node: FileNode)
    ensures forall f :: f in Found(node).basic ==> f !in Found(node).js
  {
    FoundIsFilesOfKind(node);
    forall f | f in Found(node).basic ensures f !in Found(node).js {
      OfKindSelects(AllFiles(node), Basic, f);
      if f in Found(node).js {
        OfKindSelects(AllFiles(node), Js, f);
      }
    }
  }

  /** A file is among those of a kind exactly when it is in the list and its name selects that kind. */
  lemma {:induction false} OfKindSelects(files: seq<FileNode>, kind: Kind, f: FileNode)
    requires forall g :: g in files ==> g.File?
    ensures f in OfKind(files, kind) <==> f in files && Classify(f.name) == kind
  {
    if files != [] {
      var init := files[..|files| - 1];
      OfKindSelects(init, kind, f);
      assert files == init + [files[|files| - 1]];
    }
  }

  /**
   * The source's walk from one entry: a file goes into the bucket its
   * lower-cased name selects, a directory is walked child by child. The two
   * lists are the caller's, extended in place; the recursion flag is passed
   * down and never consulted.
   */
  method SearchForTests(file: FileNode, recursive: bool, files: seq<FileNode>, jsFiles: seq<FileNode>)
      returns (files': seq<FileNode>, jsFiles': seq<FileNode>)
    ensures files' == files + Found(file).basic
    ensures jsFiles' == jsFiles + Found(file).js
    decreases file
  {
    match file
    case File(name) =>
      var fileName := ToLower(name);
      if EndsWith(fileName, BasicSuffix) {
        files', jsFiles' := files + [file], jsFiles;
      } else if EndsWith(fileName, JsSuffix) {
        files', jsFiles' := files, jsFiles + [file];
      } else {
        files', jsFiles' := files, jsFiles;
      }
    case Dir(_, children) =>
      files', jsFiles' := files, jsFiles;
      for k := 0 to |children|
        invariant files' == files + FoundInChildren(file, k).basic
        invariant jsFiles' == jsFiles + FoundInChildren(file, k).js
      {
        files', jsFiles' := SearchForTests(children[k], recursive, files', jsFiles');
      }
  }

  /**
   * The buckets for the paths given on the command line, or the error for
   * the first path that does not exist.
   */
  function FilesFor(fs: map<string, FileNode>, paths: seq<string>): Result<Buckets, MainError>
  {
    if paths == [] then Ok(Buckets([], []))
    else
      match FilesFor(fs, paths[..|paths| - 1])
      case Err(e) => Err(e)
      case Ok(b) =>
        var path := paths[|paths| - 1];
        if path in fs then Ok(Join(b, Found(fs[path]))) else Err(FileNotFound(path))
  }

  /** Every path exists exactly when the paths are accepted; then the buckets are those of each path in turn. */
  lemma {:induction false} PathsAllExist(fs: map<string, FileNode>, paths: seq<string>)
    ensures FilesFor(fs, paths).Ok? <==> forall k :: 0 <= k < |paths| ==> paths[k] in fs
    ensures FilesFor(fs, paths).Ok? ==> FilesFor(fs, paths).value == FoundAll(fs, paths)
  {
    if paths != [] {
      var init := paths[..|paths| - 1];
      PathsAllExist(fs, init);
      assert forall k :: 0 <= k < |init| ==> init[k] == paths[k];
    }
  }

  /** The buckets of the existing paths among `paths`, in path order. */
  function FoundAll(fs: map<string, FileNode>, paths: seq<string>): Buckets
  {
    if paths == [] then Buckets([], [])
    else
      var path := paths[|paths| - 1];
      Join(FoundAll(fs, paths[..|paths| - 1]), if path in fs then Found(fs[path]) else Buckets([], []))
  }

  /** The first path that does not exist is the one reported, whatever follows it. */
  lemma {:induction false} FirstMissingPath(fs: map<string, FileNode>, paths: seq<string>, k: nat)
    requires k < |paths| && paths[k] !in fs
    requires forall j :: 0 <= j < k ==> paths[j] in fs
    ensures FilesFor(fs, paths) == Err(FileNotFound(paths[k]))
  {
    var init := paths[..|paths| - 1];
    if k < |paths| - 1 {
      FirstMissingPath(fs, init, k);
    } else {
      PathsAllExist(fs, init);
      assert forall j :: 0 <= j < |init| ==> init[j] == paths[j];
    }
  }

  /**
   * The loop over the command-line paths: a missing path throws at once, an
   * existing one has its buckets appended.
   */
  method CollectTestFiles(fs: map<string, FileNode>, paths: seq<string>, recursive: bool)
      returns (r: Result<Buckets, MainError>)
    ensures r == FilesFor(fs, paths)
  {
    var basicTestFiles: seq<FileNode> := [];
    var jsTestFiles: seq<FileNode> := [];
    for k := 0 to |paths|
      invariant FilesFor(fs, paths[..k]) == Ok(Buckets(basicTestFiles, jsTestFiles))
    {
      var path := paths[k];
      assert paths[..k + 1][..k] == paths[..k] && paths[..k + 1][k] == path;
      if path in fs {
        assert FilesFor(fs, paths[..k + 1]) == Ok(Join(Buckets(basicTestFiles, jsTestFiles), Found(fs[path])));
        assert basicTestFiles + [] == basicTestFiles && jsTestFiles + [] == jsTestFiles;
        var file := fs[path];
        if file.Dir? {
          basicTestFiles, jsTestFiles := SearchForTests(file, recursive, basicTestFiles, jsTestFiles);
        } else {
          var name := ToLower(file.name);
          if EndsWith(name, BasicSuffix) {
            assert Found(file) == Buckets([file], []);
            basicTestFiles := basicTestFiles + [file];
          } else if EndsWith(name, JsSuffix) {
            assert Found(file) == Buckets([], [file]);
            jsTestFiles := jsTestFiles + [file];
          } else {
            assert Found(file) == Buckets([], []);
          }
        }
      } else {
        PathsAllExist(fs, paths[..k]);
        FirstMissingPath(fs, paths, k);
        return Err(FileNotFound(path));
      }
    }
    assert paths[..|paths|] == paths;
    r := Ok(Buckets(basicTestFiles, jsTestFiles));
  }
}
