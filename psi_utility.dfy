/** `PsiUtility`: locating the single class of a file, locating (and creating when
    missing) the test directory and test class that belong to a source class laid
    out as `src/main/java/<package>`, and adding elements to a tree node. */
module PsiUtilities {
  import opened Wrappers
  import opened JavaLang
  import opened Psi

  // ---------------------------------------------------------------------------
  // Files

  /** A Java file: the directory holding it (the host may report none), its
      package name ("" for the default package) and the classes it declares. */
  datatype PsiJavaFile = PsiJavaFile(directory: Option<Path>, packageName: string, classes: seq<PsiClass>)

  /** The file a class is declared in, as the host reports it. */
  datatype PsiFile = JavaFile(javaFile: PsiJavaFile) | OtherFile

  /** `getSingleClass(file)`: the class of a file declaring exactly one class. */
  function GetSingleClass(file: PsiJavaFile): (r: Option<PsiClass>)
    ensures r.Some? <==> |file.classes| == 1
    ensures r.Some? ==> r.value in file.classes
  {
    if |file.classes| == 1 then Some(file.classes[0]) else None
  }

  // ---------------------------------------------------------------------------
  // Directories

  /** A directory, named by the directory names from the top of the file system
      down to it. */
  type Path = p: seq<string> | |p| >= 1 witness ["src"]

  /** `PsiDirectory.getName()` */
  function DirName(p: Path): string {
    p[|p| - 1]
  }

  /** `PsiDirectory.getParentDirectory()`: none above a top-level directory. */
  function Parent(p: Path): (r: Option<Path>)
    ensures r.Some? ==> r.value == p[..|p| - 1]
    ensures r.None? <==> |p| == 1
  {
    if |p| == 1 then None else Some(p[..|p| - 1])
  }

  const SOURCE_LAYOUT: seq<string> := ["src", "main", "java"]
  const TEST_LAYOUT: seq<string> := ["test", "java"]

  /** The directory names a source file must sit under, from the top down:
      `src`, `main`, `java`, then the package's segments. */
  function ExpectedDirectories(segments: seq<string>): (r: seq<string>)
    ensures |r| == |segments| + 3 && r[0] == "src" && r[1..] == ["main", "java"] + segments
  {
    SOURCE_LAYOUT + segments
  }

  /** The source root of a file in `dir`: when `dir` ends with the expected
      directories, the one of them named `src`; otherwise none. */
  function SourceRootOf(dir: Path, segments: seq<string>): (r: Option<Path>)
  {
    var expected := ExpectedDirectories(segments);
    if |expected| <= |dir| && dir[|dir| - |expected|..] == expected then Some(dir[..|dir| - |expected| + 1])
    else None
  }

  /** A source root is a directory named `src` above `dir`, and the path from it
      down to `dir` is `main/java` followed by the package's segments. */
  lemma SourceRootShape(dir: Path, segments: seq<string>)
    requires SourceRootOf(dir, segments).Some?
    ensures var root := SourceRootOf(dir, segments).value;
            DirName(root) == "src" && dir == root + ["main", "java"] + segments
  {
    var expected := ExpectedDirectories(segments);
    var n := |dir| - |expected|;
    var root := dir[..n + 1];
    assert dir[n..] == expected;
    assert DirName(root) == dir[n] == expected[0];
    assert dir[n + 1..] == expected[1..];
    assert dir == root + dir[n + 1..];
  }

  /** A file of the default package never has a source root: `"".split("\\.")`
      is one empty segment, and no directory is named "". */
  lemma DefaultPackageHasNoSourceRoot(dir: Path)
    requires DirName(dir) != ""
    ensures SourceRootOf(dir, Split("")) == None
  {
    assert Split("") == [""];
    var expected := ExpectedDirectories([""]);
    if |expected| <= |dir| {
      assert dir[|dir| - |expected|..][|expected| - 1] == DirName(dir);
    }
  }

  /** The state of the walk after `popped` directories matched: `remaining` is
      what is left on the stack, `dir` the next directory to compare, and the
      matched directories are the last `popped` expected names. */
  ghost predicate Walking(start: Path, expected: seq<string>, popped: nat, remaining: seq<string>, dir: Option<Path>) {
    popped < |expected| && popped <= |start|
    && remaining == expected[..|expected| - popped]
    && (dir.Some? ==> popped < |start| && dir.value == start[..|start| - popped])
    && (dir.None? ==> popped == |start|)
    && start[|start| - popped..] == expected[|expected| - popped..]
  }

  /** A directory that matches the name on top of a stack with more below it
      moves the walk to its parent. */
  lemma WalkStep(start: Path, expected: seq<string>, popped: nat, remaining: seq<string>, dir: Option<Path>)
    requires Walking(start, expected, popped, remaining, dir) && dir.Some? && |remaining| > 1
    requires DirName(dir.value) == remaining[|remaining| - 1]
    ensures popped + 1 <= |start|
    ensures Walking(start, expected, popped + 1, remaining[..|remaining| - 1], Parent(dir.value))
  {
    SuffixGrows(start, expected, popped);
    assert start[..|start| - popped][..|start| - popped - 1] == start[..|start| - (popped + 1)];
  }

  /** The directory that matches the last name on the stack is the source root. */
  lemma WalkFound(start: Path, segments: seq<string>, popped: nat, remaining: seq<string>, dir: Option<Path>)
    requires Walking(start, ExpectedDirectories(segments), popped, remaining, dir) && dir.Some? && |remaining| == 1
    requires DirName(dir.value) == remaining[0]
    ensures SourceRootOf(start, segments) == dir
  {
    SuffixGrows(start, ExpectedDirectories(segments), popped);
  }

  /** A directory that does not match the name on top of the stack rules out a
      source root. */
  lemma WalkMismatch(start: Path, segments: seq<string>, popped: nat, remaining: seq<string>, dir: Option<Path>)
    requires Walking(start, ExpectedDirectories(segments), popped, remaining, dir) && dir.Some?
    requires DirName(dir.value) != remaining[|remaining| - 1]
    ensures SourceRootOf(start, segments) == None
  {
    var expected := ExpectedDirectories(segments);
    assert start[|start| - popped - 1] != expected[|expected| - popped - 1];
    NoSuffixMismatch(start, expected, popped + 1);
  }

  /** Running out of parent directories with names left on the stack rules out
      a source root. */
  lemma WalkExhausted(start: Path, segments: seq<string>, popped: nat, remaining: seq<string>)
    requires Walking(start, ExpectedDirectories(segments), popped, remaining, None)
    ensures SourceRootOf(start, segments) == None
  {
  }

  /** The walk of `findOrCreateTestDirectory` up from the file's directory: a
      stack holds the expected names with the innermost package segment on top;
      each directory must match the name popped for it, and the directory that
      empties the stack is the source root. A mismatch, or running out of parent
      directories, finds none. */
  method FindSourceRoot(directory: Option<Path>, packageName: string) returns (sourceRoot: Option<Path>)
    ensures sourceRoot == (if directory.None? then None else SourceRootOf(directory.value, Split(packageName)))
  {
    var segments := Split(packageName);
    var directoriesInOrder := SOURCE_LAYOUT + segments;
    ghost var expected := ExpectedDirectories(segments);
    sourceRoot := None;
    if directory.None? {
      return;
    }
    ghost var start := directory.value;
    ghost var popped := 0;
    var dir := directory;
    while dir.Some?
      invariant Walking(start, expected, popped, directoriesInOrder, dir)
      invariant sourceRoot.None?
      decreases |start| - popped
    {
      ghost var stack := directoriesInOrder;
      var expectedName := directoriesInOrder[|directoriesInOrder| - 1];
      directoriesInOrder := directoriesInOrder[..|directoriesInOrder| - 1];
      if DirName(dir.value) != expectedName {
        WalkMismatch(start, segments, popped, stack, dir);
        return;
      } else if directoriesInOrder == [] {
        WalkFound(start, segments, popped, stack, dir);
        sourceRoot := dir;
        return;
      }
      WalkStep(start, expected, popped, stack, dir);
      dir := Parent(dir.value);
      popped := popped + 1;
    }
    WalkExhausted(start, segments, popped, directoriesInOrder);
  }

  /** One more matching name extends the matched suffix. */
  lemma SuffixGrows(start: seq<string>, expected: seq<string>, k: nat)
    requires k < |start| && k < |expected|
    requires start[|start| - k..] == expected[|expected| - k..]
    requires start[|start| - k - 1] == expected[|expected| - k - 1]
    ensures start[|start| - (k + 1)..] == expected[|expected| - (k + 1)..]
  {
    assert start[|start| - (k + 1)..] == [start[|start| - k - 1]] + start[|start| - k..];
    assert expected[|expected| - (k + 1)..] == [expected[|expected| - k - 1]] + expected[|expected| - k..];
  }

  /** A mismatch `k` names from the end rules out every longer matching suffix. */
  lemma NoSuffixMismatch(start: seq<string>, expected: seq<string>, k: nat)
    requires 1 <= k <= |start| && k <= |expected|
    requires start[|start| - k] != expected[|expected| - k]
    ensures !(|expected| <= |start| && start[|start| - |expected|..] == expected)
  {
    if |expected| <= |start| {
      assert start[|start| - |expected|..][|expected| - k] == start[|start| - k];
    }
  }

  /** The directories on the way down from `root` through `names`, nearest
      first. */
  function PathsDown(root: Path, names: seq<string>): (r: seq<Path>)
    ensures |r| == |names| && forall i :: 0 <= i < |names| ==> r[i] == root + names[..i + 1]
  {
    seq(|names|, i requires 0 <= i < |names| => root + names[..i + 1])
  }

  /** The paths of `paths` not in `dirs`, in order. */
  function Missing(dirs: set<Path>, paths: seq<Path>): seq<Path>
  {
    if paths == [] then []
    else Missing(dirs, paths[..|paths| - 1]) + (if paths[|paths| - 1] in dirs then [] else [paths[|paths| - 1]])
  }

  /** The missing paths are exactly those of `paths` not in `dirs`. */
  lemma {:induction false} MissingMembers(dirs: set<Path>, paths: seq<Path>)
    ensures forall p :: p in Missing(dirs, paths) <==> p in paths && p !in dirs
  {
    if paths != [] {
      var last := paths[|paths| - 1];
      MissingMembers(dirs, paths[..|paths| - 1]);
      assert paths == paths[..|paths| - 1] + [last];
    }
  }

  /** Nothing is missing once every path exists. */
  lemma {:induction false} MissingNone(dirs: set<Path>, paths: seq<Path>)
    requires forall i :: 0 <= i < |paths| ==> paths[i] in dirs
    ensures Missing(dirs, paths) == []
  {
    if paths != [] {
      MissingNone(dirs, paths[..|paths| - 1]);
    }
  }

  /** Where the test directory of a source file is: `test/java/<package>` under the
      source root. */
  function TestDirectoryOf(directory: Option<Path>, packageName: string): (r: Option<Path>)
  {
    if directory.None? then None
    else
      var root := SourceRootOf(directory.value, Split(packageName));
      if root.None? then None else Some(root.value + TEST_LAYOUT + Split(packageName))
  }

  /** The test directory mirrors the source directory: `src/main/java/<package>`
      becomes `src/test/java/<package>` under the same `src`. */
  lemma TestDirectoryMirrorsSource(directory: Path, packageName: string)
    requires TestDirectoryOf(Some(directory), packageName).Some?
    ensures var root := SourceRootOf(directory, Split(packageName)).value;
            directory == root + ["main", "java"] + Split(packageName)
            && TestDirectoryOf(Some(directory), packageName) == Some(root + ["test", "java"] + Split(packageName))
  {
    SourceRootShape(directory, Split(packageName));
  }

  // ---------------------------------------------------------------------------
  // The project's directories and Java files

  /** The project's directories and its Java files, keyed by their directory and
      file name, each with the classes it declares. */
  class ProjectFiles {
    var directories: set<Path>
    var javaFiles: map<(Path, string), seq<PsiClass>>

    constructor(directories: set<Path>, javaFiles: map<(Path, string), seq<PsiClass>>)
      ensures this.directories == directories && this.javaFiles == javaFiles
    {
      this.directories := directories;
      this.javaFiles := javaFiles;
    }

    /** `findSubdirectory(name)` of `parent`, or `createSubdirectory(name)` when
        there is none. */
    method FindOrCreateSubdirectory(parent: Path, name: string) returns (sub: Path, ghost wasCreated: bool)
      modifies this
      ensures sub == parent + [name]
      ensures wasCreated <==> sub !in old(directories)
      ensures directories == old(directories) + {sub} && javaFiles == old(javaFiles)
    {
      sub := parent + [name];
      wasCreated := sub !in directories;
      if sub !in directories {
        directories := directories + {sub};
      }
    }

    /** The find-or-create loop of `findOrCreateTestDirectory`: down from `root`
        through `names`, reusing each subdirectory that exists and creating each
        one that does not. `created` lists the created directories in order. */
    method FindOrCreatePath(root: Path, names: seq<string>) returns (r: Path, ghost created: seq<Path>)
      modifies this
      ensures r == root + names
      ensures created == Missing(old(directories), PathsDown(root, names))
      ensures directories == old(directories) + Elements(PathsDown(root, names))
      ensures javaFiles == old(javaFiles)
    {
      created := [];
      r := root;
      ghost var down := PathsDown(root, names);
      for i := 0 to |names|
        invariant r == root + names[..i]
        invariant created == Missing(old(directories), down[..i])
        invariant directories == old(directories) + Elements(down[..i])
        invariant javaFiles == old(javaFiles)
      {
        var subDirectory, wasCreated := FindOrCreateSubdirectory(r, names[i]);
        assert names[..i + 1] == names[..i] + [names[i]];
        DownDistinct(root, names, i);
        MissingStep(old(directories), down, i);
        ElementsStep(down, i);
        if wasCreated {
          created := created + [subDirectory];
        }
        r := subDirectory;
      }
      assert down[..|names|] == down;
      assert names[..|names|] == names;
    }

    /** `findOrCreateTestDirectory(sourceFile)`: walk up to the source root, then
        find or create `test/java/<package>` below it. `created` lists the created
        directories in order: exactly the missing ones. */
    method FindOrCreateTestDirectory(directory: Option<Path>, packageName: string)
      returns (r: Option<Path>, ghost created: seq<Path>)
      modifies this
      ensures r == TestDirectoryOf(directory, packageName)
      ensures r.None? ==> directories == old(directories) && created == []
      ensures r.Some? ==>
                var root := SourceRootOf(directory.value, Split(packageName)).value;
                var down := PathsDown(root, TEST_LAYOUT + Split(packageName));
                created == Missing(old(directories), down)
                && directories == old(directories) + Elements(down)
      ensures r.Some? ==> r.value in directories
      ensures javaFiles == old(javaFiles)
    {
      var sourceRoot := FindSourceRoot(directory, packageName);
      if sourceRoot.None? {
        return None, [];
      }
      var testDirectoryTree := TEST_LAYOUT + Split(packageName);
      var testDirectory;
      testDirectory, created := FindOrCreatePath(sourceRoot.value, testDirectoryTree);
      assert testDirectory == sourceRoot.value + TEST_LAYOUT + Split(packageName);
      assert testDirectory in directories by {
        var down := PathsDown(sourceRoot.value, testDirectoryTree);
        assert testDirectoryTree[..|testDirectoryTree|] == testDirectoryTree;
        assert down[|down| - 1] == testDirectory;
      }
      return Some(testDirectory), created;
    }

    /** `findOrCreateTestClass(sourceClass)`: a class outside a Java file is
        rejected; otherwise, when the test directory can be found or created, the
        file named after the class plus "Test" yields its single class, a file
        declaring some other number of classes yields none, and a missing file is
        created with a new empty class. */
    method FindOrCreateTestClass(sourceClass: PsiClass, containingFile: Option<PsiFile>)
      returns (r: Throws<Option<PsiClass>>)
      modifies this
      ensures (containingFile.None? || containingFile.value.OtherFile?) <==> r.Failure?
      ensures r.Failure? ==>
                r.error == Thrown(IllegalArgumentException, NOT_IN_JAVA_FILE)
                && directories == old(directories) && javaFiles == old(javaFiles)
      ensures r.Success? && TestDirectoryOf(containingFile.value.javaFile.directory,
                                            containingFile.value.javaFile.packageName).None? ==>
                r.value.None? && directories == old(directories) && javaFiles == old(javaFiles)
      ensures r.Success? ==>
                var file := containingFile.value.javaFile;
                var testDir := TestDirectoryOf(file.directory, file.packageName);
                testDir.Some? ==>
                  var key := (testDir.value, TestFileName(sourceClass));
                  var root := SourceRootOf(file.directory.value, Split(file.packageName)).value;
                  testDir.value in directories
                  && directories == old(directories) + Elements(PathsDown(root, TEST_LAYOUT + Split(file.packageName)))
                  && (key in old(javaFiles) ==>
                        r.value == GetSingleClass(PsiJavaFile(testDir, file.packageName, old(javaFiles)[key]))
                        && javaFiles == old(javaFiles))
                  && (key !in old(javaFiles) ==>
                        r.value == Some(PsiClass(TestClassName(sourceClass), []))
                        && javaFiles == old(javaFiles)[key := [r.value.value]])
    {
      if containingFile.None? || containingFile.value.OtherFile? {
        return Failure(Thrown(IllegalArgumentException, NOT_IN_JAVA_FILE));
      }
      var file := containingFile.value.javaFile;
      var testDirectory, created := FindOrCreateTestDirectory(file.directory, file.packageName);
      if testDirectory.None? {
        return Success(None);
      }
      var testClassName := TestClassName(sourceClass);
      var key := (testDirectory.value, testClassName + JAVA_SUFFIX);
      if key in javaFiles {
        var classes := javaFiles[key];
        if |classes| == 1 {
          return Success(Some(classes[0]));
        }
        return Success(None);
      }
      var newClass := PsiClass(testClassName, []);
      javaFiles := javaFiles[key := [newClass]];
      return Success(Some(newClass));
    }
  }

  const NOT_IN_JAVA_FILE := "sourceClass must be defined in a valid java file."
  const TEST_SUFFIX := "Test"
  const JAVA_SUFFIX := ".java"

  /** The test class is named after the source class, followed by "Test". */
  function TestClassName(sourceClass: PsiClass): string {
    sourceClass.name + TEST_SUFFIX
  }

  /** The file the test class lives in. */
  function TestFileName(sourceClass: PsiClass): string {
    TestClassName(sourceClass) + JAVA_SUFFIX
  }

  /** The paths down from a root are pairwise distinct: each is one name longer
      than the one before. */
  lemma DownDistinct(root: Path, names: seq<string>, i: nat)
    requires i < |names|
    ensures PathsDown(root, names)[i] !in Elements(PathsDown(root, names)[..i])
  {
    var down := PathsDown(root, names);
    forall j | 0 <= j < i
      ensures down[..i][j] != down[i]
    {
      assert |down[j]| == |root| + j + 1;
    }
  }

  /** The elements of a sequence, as a set. */
  function Elements(s: seq<Path>): set<Path>
  {
    set x | x in s
  }

  lemma ElementsStep(s: seq<Path>, i: nat)
    requires i < |s|
    ensures Elements(s[..i + 1]) == Elements(s[..i]) + {s[i]}
  {
    assert s[..i + 1] == s[..i] + [s[i]];
  }

  /** Checking the next path against the directories seen so far is checking it
      against the original directories: the paths created before it differ from
      it. */
  lemma MissingStep(dirs: set<Path>, down: seq<Path>, i: nat)
    requires i < |down|
    ensures Missing(dirs, down[..i + 1]) == Missing(dirs, down[..i]) + (if down[i] in dirs then [] else [down[i]])
  {
    assert down[..i + 1][..i] == down[..i];
  }

  /** Finding or creating the test directory a second time creates nothing and
      leaves the directories as they are. */
  lemma FindOrCreateIdempotent(dirs: set<Path>, root: Path, names: seq<string>)
    ensures var down := PathsDown(root, names);
            var after := dirs + Elements(down);
            Missing(after, down) == [] && after + Elements(down) == after
  {
    var down := PathsDown(root, names);
    MissingNone(dirs + Elements(down), down);
  }

  // ---------------------------------------------------------------------------
  // Adding elements

  /** A node of the host's syntax tree and its children, in order. */
  class PsiElementList<T(==)> {
    var children: seq<T>

    constructor(children: seq<T>)
      ensures this.children == children
    {
      this.children := children;
    }
  }

  const AFTER_NOT_CHILD := "after must be a child of root."

  /** The first position of `x` in `s`. */
  function IndexOf<T(==)>(s: seq<T>, x: T): (r: nat)
    requires x in s
    ensures r < |s| && s[r] == x && forall j :: 0 <= j < r ==> s[j] != x
  {
    if s[0] == x then 0 else 1 + IndexOf(s[1..], x)
  }

  /** `s` back to front. */
  function Reversed<T>(s: seq<T>): (r: seq<T>)
    ensures |r| == |s|
  {
    if s == [] then [] else [s[|s| - 1]] + Reversed(s[..|s| - 1])
  }

  /** The i-th element of the reversal is the i-th from the end. */
  lemma {:induction false} ReversedIndex<T>(s: seq<T>, i: nat)
    requires i < |s|
    ensures Reversed(s)[i] == s[|s| - 1 - i]
    decreases |s|
  {
    if i > 0 {
      ReversedIndex(s[..|s| - 1], i - 1);
    }
  }

  /** `addElements(root, toAdd, after)`: an anchor that is not a child of `root`
      is rejected and nothing is added. Without an anchor, the elements are
      appended in order. With one, each is added right after the anchor, so
      they end up after it in reverse order. */
  method AddElements<T(==)>(root: PsiElementList<T>, toAdd: seq<T>, after: Option<T>) returns (r: Result<(), Thrown>)
    modifies root
    ensures after.Some? && after.value !in old(root.children) ==>
              r == Failure(Thrown(IllegalArgumentException, AFTER_NOT_CHILD)) && root.children == old(root.children)
    ensures after.None? ==> r.Success? && root.children == old(root.children) + toAdd
    ensures after.Some? && after.value in old(root.children) ==>
              var at := IndexOf(old(root.children), after.value) + 1;
              r.Success? && root.children == old(root.children)[..at] + Reversed(toAdd) + old(root.children)[at..]
  {
    if after.Some? && after.value !in root.children {
      return Failure(Thrown(IllegalArgumentException, AFTER_NOT_CHILD));
    }
    ghost var before := root.children;
    ghost var at := if after.Some? then IndexOf(before, after.value) + 1 else 0;
    for i := 0 to |toAdd|
      invariant after.None? ==> root.children == before + toAdd[..i]
      invariant after.Some? ==> root.children == before[..at] + Reversed(toAdd[..i]) + before[at..]
    {
      var element := toAdd[i];
      if after.Some? {
        var anchor := IndexOf(root.children, after.value);
        assert root.children[..at] == before[..at];
        assert anchor == at - 1;
        InsertAfterStep(before, at, toAdd, i);
        root.children := root.children[..anchor + 1] + [element] + root.children[anchor + 1..];
      } else {
        root.children := root.children + [element];
        assert toAdd[..i + 1] == toAdd[..i] + [element];
      }
    }
    assert toAdd[..|toAdd|] == toAdd;
    return Success(());
  }

  /** Adding one more element right after the anchor puts it in front of those
      added before it. */
  lemma InsertAfterStep<T>(before: seq<T>, at: nat, toAdd: seq<T>, i: nat)
    requires at <= |before| && i < |toAdd|
    ensures var children := before[..at] + Reversed(toAdd[..i]) + before[at..];
            children[..at] + [toAdd[i]] + children[at..] == before[..at] + Reversed(toAdd[..i + 1]) + before[at..]
  {
    var children := before[..at] + Reversed(toAdd[..i]) + before[at..];
    assert toAdd[..i + 1][..i] == toAdd[..i];
    assert Reversed(toAdd[..i + 1]) == [toAdd[i]] + Reversed(toAdd[..i]);
    assert children[..at] == before[..at];
    assert children[at..] == Reversed(toAdd[..i]) + before[at..];
  }

  /** Elements added after an anchor sit right after it, the last added first. */
  lemma AddedAfterAnchor<T>(before: seq<T>, at: nat, toAdd: seq<T>, k: nat)
    requires at <= |before| && k < |toAdd|
    ensures (before[..at] + Reversed(toAdd) + before[at..])[at + k] == toAdd[|toAdd| - 1 - k]
  {
    ReversedIndex(toAdd, k);
  }
}
