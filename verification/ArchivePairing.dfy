/** `create_problem`: which files of the uploaded archive become testcases, and how they are paired. */
module ArchivePairing {
  import opened JudgeTypes
  import opened Strings

  // ----- the order `sorted` uses on strings -----

  predicate LexLe(a: string, b: string) {
    a == [] || (b != [] && (a[0] < b[0] || (a[0] == b[0] && LexLe(a[1..], b[1..]))))
  }

  lemma {:induction false} LexTotal(a: string, b: string)
    ensures LexLe(a, b) || LexLe(b, a)
    ensures LexLe(a, b) && LexLe(b, a) ==> a == b
  {
    if a != [] && b != [] && a[0] == b[0] {
      LexTotal(a[1..], b[1..]);
      assert a == [a[0]] + a[1..] && b == [b[0]] + b[1..];
    }
  }

  lemma {:induction false} LexTransitive(a: string, b: string, c: string)
    requires LexLe(a, b) && LexLe(b, c)
    ensures LexLe(a, c)
  {
    if a != [] && a[0] == b[0] == c[0] {
      LexTransitive(a[1..], b[1..], c[1..]);
    }
  }

  /** A common prefix does not matter. */
  lemma {:induction false} LexPrefix(p: string, a: string, b: string)
    ensures LexLe(p + a, p + b) <==> LexLe(a, b)
  {
    if p == [] {
      assert p + a == a && p + b == b;
    } else {
      assert (p + a)[1..] == p[1..] + a && (p + b)[1..] == p[1..] + b;
      LexPrefix(p[1..], a, b);
    }
  }

  predicate Sorted(s: seq<string>) { forall i, j | 0 <= i < j < |s| :: LexLe(s[i], s[j]) }

  function Insert(x: string, s: seq<string>): seq<string> {
    if s == [] || LexLe(x, s[0]) then [x] + s else [s[0]] + Insert(x, s[1..])
  }

  function Sort(s: seq<string>): seq<string> { if s == [] then [] else Insert(s[0], Sort(s[1..])) }

  lemma {:induction false} InsertKeeps(x: string, s: seq<string>)
    requires Sorted(s)
    ensures Sorted(Insert(x, s)) && multiset(Insert(x, s)) == multiset(s) + multiset{x}
  {
    if s == [] {
    } else if LexLe(x, s[0]) {
      forall j | 0 <= j < |s|
        ensures LexLe(x, s[j])
      {
        if j > 0 {
          LexTransitive(x, s[0], s[j]);
        }
      }
    } else {
      LexTotal(x, s[0]);
      InsertKeeps(x, s[1..]);
      var r := Insert(x, s[1..]);
      assert s == [s[0]] + s[1..];
      forall j | 0 <= j < |r|
        ensures LexLe(s[0], r[j])
      {
        assert r[j] in multiset(r);
        assert r[j] == x || r[j] in s[1..];
      }
    }
  }

  lemma {:induction false} SortSorts(s: seq<string>)
    ensures Sorted(Sort(s)) && multiset(Sort(s)) == multiset(s) && |Sort(s)| == |s|
  {
    if s != [] {
      SortSorts(s[1..]);
      InsertKeeps(s[0], Sort(s[1..]));
      assert s == [s[0]] + s[1..];
      assert |multiset(Sort(s))| == |multiset(s)|;
    }
  }

  /** Sorting is determined by the multiset of elements. */
  lemma {:induction false} SortedIsUnique(a: seq<string>, b: seq<string>)
    requires Sorted(a) && Sorted(b) && multiset(a) == multiset(b)
    ensures a == b
  {
    if a == [] {
      assert |multiset(b)| == 0;
    } else {
      assert a[0] in multiset(b) && |multiset(a)| == |multiset(b)|;
      assert b[0] in multiset(a);
      assert LexLe(a[0], b[0]) by { LeastIsFirst(a, b[0]); }
      assert LexLe(b[0], a[0]) by { LeastIsFirst(b, a[0]); }
      LexTotal(a[0], b[0]);
      assert a == [a[0]] + a[1..] && b == [b[0]] + b[1..];
      assert multiset(a[1..]) == multiset(a) - multiset{a[0]} && multiset(b[1..]) == multiset(b) - multiset{b[0]};
      SortedIsUnique(a[1..], b[1..]);
    }
  }

  lemma LeastIsFirst(s: seq<string>, x: string)
    requires Sorted(s) && x in s
    ensures LexLe(s[0], x)
  {
    LexTotal(x, x);
  }

  // ----- file selection -----

  predicate StartsWith(f: string, dir: string) { dir <= f }

  predicate IsFileIn(f: string, dir: string) { StartsWith(f, dir) && (f == [] || f[|f| - 1] != '/') }

  /** The comprehension over namelist(), before `sorted`. */
  function Select(files: seq<string>, dir: string): seq<string> {
    if files == [] then []
    else (if IsFileIn(files[0], dir) then [files[0]] else []) + Select(files[1..], dir)
  }

  /** Exactly the files below the directory, each as often as in the archive; entries for directories end in a
      slash and are left out. */
  lemma {:induction false} SelectIsExact(files: seq<string>, dir: string, f: string)
    ensures f in Select(files, dir) <==> f in files && dir <= f && (f == [] || f[|f| - 1] != '/')
    ensures multiset(Select(files, dir))[f] == (if f in Select(files, dir) then multiset(files)[f] else 0)
  {
    if files != [] {
      SelectIsExact(files[1..], dir, f);
      assert files == [files[0]] + files[1..];
    }
  }

  /** path.split("/")[-1] */
  function BaseName(path: string): string {
    var parts := SplitOn('/', path);
    parts[|parts| - 1]
  }

  function Each(f: string -> string, s: seq<string>): seq<string> {
    seq(|s|, i requires 0 <= i < |s| => f(s[i]))
  }

  function BaseNames(paths: seq<string>): seq<string> { Each(BaseName, paths) }

  function Prefix(archive: string): string { SplitOn('.', archive)[0] }

  /** The prefix of an archive ends at its first dot. */
  lemma PrefixEndsAtFirstDot(name: string, rest: string)
    requires '.' !in name
    ensures Prefix(name + "." + rest) == name
  {
    SplitAt('.', name, rest);
    SplitWithout('.', name);
    assert name + "." + rest == name + ['.'] + rest;
  }

  function InputFiles(archive: string, files: seq<string>): seq<string> {
    Sort(Select(files, Prefix(archive) + "/inputs/"))
  }

  function OutputFiles(archive: string, files: seq<string>): seq<string> {
    Sort(Select(files, Prefix(archive) + "/outputs/"))
  }

  datatype Rejection = MissingFolder | CountMismatch | NameMismatch

  datatype Check = Accepted(inputs: seq<string>, outputs: seq<string>) | Rejected(why: Rejection)

  /** The validation of create_problem, with the early exits of its loop. */
  method CheckArchive(archive: string, files: seq<string>) returns (r: Check)
    ensures r.Accepted? ==> r.inputs == InputFiles(archive, files) && r.outputs == OutputFiles(archive, files)
    ensures r.Accepted? <==> InputFiles(archive, files) != []
                             && BaseNames(InputFiles(archive, files)) == BaseNames(OutputFiles(archive, files))
    ensures r == Rejected(MissingFolder) <==> InputFiles(archive, files) == [] || OutputFiles(archive, files) == []
    ensures r == Rejected(CountMismatch) <==>
              && InputFiles(archive, files) != [] && OutputFiles(archive, files) != []
              && |InputFiles(archive, files)| != |OutputFiles(archive, files)|
    ensures r == Rejected(NameMismatch) <==>
              && InputFiles(archive, files) != [] && |InputFiles(archive, files)| == |OutputFiles(archive, files)|
              && BaseNames(InputFiles(archive, files)) != BaseNames(OutputFiles(archive, files))
  {
    var inputs, outputs := InputFiles(archive, files), OutputFiles(archive, files);
    hide InputFiles, OutputFiles, BaseName;
    if inputs == [] || outputs == [] {
      return Rejected(MissingFolder);
    }
    if |inputs| != |outputs| {
      assert |BaseNames(inputs)| != |BaseNames(outputs)|;
      return Rejected(CountMismatch);
    }
    for i := 0 to |inputs|
      invariant forall j | 0 <= j < i :: BaseName(inputs[j]) == BaseName(outputs[j])
    {
      if BaseName(inputs[i]) != BaseName(outputs[i]) {
        assert BaseNames(inputs)[i] != BaseNames(outputs)[i];
        return Rejected(NameMismatch);
      }
    }
    assert BaseNames(inputs) == BaseNames(outputs);
    r := Accepted(inputs, outputs);
  }

  /** No file of the directory lies deeper than directly in it. */
  predicate Flat(files: seq<string>, dir: string) {
    forall i | 0 <= i < |files| && IsFileIn(files[i], dir) :: '/' !in files[i][|dir|..]
  }

  lemma FlatBaseName(d: string, f: string)
    requires StartsWith(f, d + "/") && '/' !in f[|d| + 1..]
    ensures BaseName(f) == f[|d| + 1..] && f == d + "/" + BaseName(f)
  {
    var name := f[|d| + 1..];
    assert f == d + "/" + name;
    SplitAt('/', d, name);
    SplitWithout('/', name);
  }

  lemma {:induction false} Selected(files: seq<string>, dir: string)
    ensures forall i | 0 <= i < |Select(files, dir)| :: Select(files, dir)[i] in files && IsFileIn(Select(files, dir)[i], dir)
  {
    if files != [] {
      Selected(files[1..], dir);
    }
  }

  lemma EachWithout(f: string -> string, b: seq<string>, j: nat)
    requires j < |b|
    ensures multiset(b[..j] + b[j + 1..]) == multiset(b) - multiset{b[j]}
    ensures multiset(Each(f, b)) == multiset(Each(f, b[..j] + b[j + 1..])) + multiset{f(b[j])}
  {
    assert b == b[..j] + [b[j]] + b[j + 1..];
    assert Each(f, b[..j] + b[j + 1..]) == Each(f, b[..j]) + Each(f, b[j + 1..]);
    assert Each(f, b) == Each(f, b[..j]) + [f(b[j])] + Each(f, b[j + 1..]);
  }

  lemma {:induction false} EachOfMultiset(f: string -> string, a: seq<string>, b: seq<string>)
    requires multiset(a) == multiset(b)
    ensures multiset(Each(f, a)) == multiset(Each(f, b))
  {
    hide Each;
    if a == [] {
      assert |multiset(b)| == 0;
    } else {
      assert a[0] in multiset(b);
      var j :| 0 <= j < |b| && b[j] == a[0];
      EachWithout(f, a, 0);
      EachWithout(f, b, j);
      assert a[..0] + a[1..] == a[1..];
      EachOfMultiset(f, a[1..], b[..j] + b[j + 1..]);
    }
  }

  /** Directly in one directory, files sorted by path are sorted by name. */
  lemma FlatSorts(files: seq<string>, d: string)
    requires Flat(files, d + "/")
    ensures BaseNames(Sort(Select(files, d + "/"))) == Sort(BaseNames(Select(files, d + "/")))
  {
    var chosen := Select(files, d + "/");
    var paths := Sort(chosen);
    var names := BaseNames(paths);
    SortSorts(chosen);
    Selected(files, d + "/");
    forall i | 0 <= i < |paths|
      ensures paths[i] == d + "/" + names[i]
    {
      assert paths[i] in multiset(chosen);
      var j :| 0 <= j < |chosen| && chosen[j] == paths[i];
      var k :| 0 <= k < |files| && files[k] == paths[i];
      FlatBaseName(d, paths[i]);
    }
    forall i, j | 0 <= i < j < |names|
      ensures LexLe(names[i], names[j])
    {
      assert LexLe(paths[i], paths[j]);
      LexPrefix(d + "/", names[i], names[j]);
    }
    EachOfMultiset(BaseName, paths, chosen);
    SortSorts(BaseNames(chosen));
    SortedIsUnique(names, Sort(BaseNames(chosen)));
  }

  /** What CheckArchive accepts, as its contract states it. */
  predicate Accepts(archive: string, files: seq<string>) {
    InputFiles(archive, files) != [] && BaseNames(InputFiles(archive, files)) == BaseNames(OutputFiles(archive, files))
  }

  /** Accepted archives have, on both sides, the same names the same number of times. */
  lemma AcceptedMeansSameNames(archive: string, files: seq<string>)
    requires Accepts(archive, files)
    ensures multiset(BaseNames(Select(files, Prefix(archive) + "/inputs/")))
         == multiset(BaseNames(Select(files, Prefix(archive) + "/outputs/")))
  {
    var ins, outs := Select(files, Prefix(archive) + "/inputs/"), Select(files, Prefix(archive) + "/outputs/");
    SortSorts(ins);
    SortSorts(outs);
    EachOfMultiset(BaseName, Sort(ins), ins);
    EachOfMultiset(BaseName, Sort(outs), outs);
  }

  /** What the check is meant to find out: there are tests, and both sides have the same names the same
      number of times. */
  predicate NamesMatch(archive: string, files: seq<string>) {
    && Select(files, Prefix(archive) + "/inputs/") != []
    && multiset(BaseNames(Select(files, Prefix(archive) + "/inputs/")))
    == multiset(BaseNames(Select(files, Prefix(archive) + "/outputs/")))
  }

  /** The order of the paths is the order of the names. */
  predicate InNameOrder(paths: seq<string>) { Sorted(BaseNames(paths)) }

  lemma FlatIsInOrder(files: seq<string>, d: string)
    requires Flat(files, d + "/")
    ensures InNameOrder(Sort(Select(files, d + "/")))
  {
    FlatSorts(files, d);
    SortSorts(BaseNames(Select(files, d + "/")));
  }

  /** When the paths of one side are in name order, the check accepts exactly the archives whose names match
      and whose other side is in name order too; so it is right about an archive unless its names match
      and that order is broken. */
  lemma CheckIsExactWhen(archive: string, files: seq<string>)
    requires InNameOrder(OutputFiles(archive, files)) || InNameOrder(InputFiles(archive, files))
    ensures Accepts(archive, files) <==>
              && NamesMatch(archive, files)
              && InNameOrder(InputFiles(archive, files)) && InNameOrder(OutputFiles(archive, files))
    ensures (Accepts(archive, files) <==> NamesMatch(archive, files)) <==>
              (NamesMatch(archive, files) ==> InNameOrder(InputFiles(archive, files)) && InNameOrder(OutputFiles(archive, files)))
  {
    var ins, outs := Select(files, Prefix(archive) + "/inputs/"), Select(files, Prefix(archive) + "/outputs/");
    SortSorts(ins);
    SortSorts(outs);
    EachOfMultiset(BaseName, Sort(ins), ins);
    EachOfMultiset(BaseName, Sort(outs), outs);
    hide BaseNames, Select, Prefix, Sort;
    if NamesMatch(archive, files) && InNameOrder(Sort(ins)) && InNameOrder(Sort(outs)) {
      SortedIsUnique(BaseNames(Sort(ins)), BaseNames(Sort(outs)));
    }
  }

  /** For every archive: the check is right about it exactly when, if its names match, they come in the same
      order on both sides. */
  lemma CheckIsRightExactlyWhen(archive: string, files: seq<string>)
    ensures (Accepts(archive, files) <==> NamesMatch(archive, files)) <==>
              (NamesMatch(archive, files) ==> BaseNames(InputFiles(archive, files)) == BaseNames(OutputFiles(archive, files)))
  {
    SortSorts(Select(files, Prefix(archive) + "/inputs/"));
    if Accepts(archive, files) {
      AcceptedMeansSameNames(archive, files);
    }
    hide BaseNames, Prefix, Select, Sort;
  }

  /** With the output files directly in outputs/, whatever the folders of the inputs: accepted if and only if
      the names match and the input paths are in name order. */
  lemma FlatOutputsCheck(archive: string, files: seq<string>)
    requires Flat(files, Prefix(archive) + "/outputs/")
    ensures Accepts(archive, files) <==> NamesMatch(archive, files) && InNameOrder(InputFiles(archive, files))
  {
    assert (Prefix(archive) + "/outputs") + "/" == Prefix(archive) + "/outputs/";
    FlatIsInOrder(files, Prefix(archive) + "/outputs");
    CheckIsExactWhen(archive, files);
    hide Accepts, NamesMatch, InNameOrder;
  }

  /** For files directly in the two folders the check is exact. */
  lemma FlatCheckIsExact(archive: string, files: seq<string>)
    requires Flat(files, Prefix(archive) + "/inputs/") && Flat(files, Prefix(archive) + "/outputs/")
    ensures Accepts(archive, files) <==> NamesMatch(archive, files)
  {
    assert (Prefix(archive) + "/inputs") + "/" == Prefix(archive) + "/inputs/";
    FlatIsInOrder(files, Prefix(archive) + "/inputs");
    FlatOutputsCheck(archive, files);
    hide Accepts, NamesMatch, InNameOrder;
  }

  // ----- archives nested on both sides -----

  /** The path below a directory. */
  function Below(dir: string): string -> string {
    (path: string) => if StartsWith(path, dir) then path[|dir|..] else path
  }

  lemma BelowKeepsBaseName(d: string, f: string)
    requires StartsWith(f, d + "/")
    ensures BaseName(f) == BaseName(Below(d + "/")(f))
  {
    var rest := f[|d| + 1..];
    assert f == d + ['/'] + rest && Below(d + "/")(f) == rest;
    SplitAt('/', d, rest);
  }

  /** Sorted by path is sorted by the path below the directory. */
  lemma SortedBelow(files: seq<string>, dir: string)
    ensures Sorted(Each(Below(dir), Sort(Select(files, dir))))
    ensures multiset(Each(Below(dir), Sort(Select(files, dir)))) == multiset(Each(Below(dir), Select(files, dir)))
    ensures forall i | 0 <= i < |Sort(Select(files, dir))| :: StartsWith(Sort(Select(files, dir))[i], dir)
  {
    var chosen := Select(files, dir);
    var paths := Sort(chosen);
    SortSorts(chosen);
    Selected(files, dir);
    EachOfMultiset(Below(dir), paths, chosen);
    forall i | 0 <= i < |paths|
      ensures StartsWith(paths[i], dir) && paths[i] == dir + Below(dir)(paths[i])
    {
      assert paths[i] in multiset(chosen);
    }
    forall i, j | 0 <= i < j < |paths|
      ensures LexLe(Below(dir)(paths[i]), Below(dir)(paths[j]))
    {
      assert LexLe(paths[i], paths[j]);
      LexPrefix(dir, Below(dir)(paths[i]), Below(dir)(paths[j]));
    }
  }

  /** Both sides have the same tree of files. */
  predicate Mirrored(archive: string, files: seq<string>) {
    var i, o := Prefix(archive) + "/inputs/", Prefix(archive) + "/outputs/";
    multiset(Each(Below(i), Select(files, i))) == multiset(Each(Below(o), Select(files, o)))
  }

  /** However deeply nested: if the outputs mirror the inputs, the archive is accepted, and every input is
      paired with the output at its own place in the tree. */
  lemma MirroredIsAccepted(archive: string, files: seq<string>)
    requires Mirrored(archive, files) && Select(files, Prefix(archive) + "/inputs/") != []
    ensures Accepts(archive, files)
    ensures Each(Below(Prefix(archive) + "/inputs/"), InputFiles(archive, files))
         == Each(Below(Prefix(archive) + "/outputs/"), OutputFiles(archive, files))
  {
    var i, o := Prefix(archive) + "/inputs", Prefix(archive) + "/outputs";
    assert i + "/" == Prefix(archive) + "/inputs/" && o + "/" == Prefix(archive) + "/outputs/";
    var ins, outs := InputFiles(archive, files), OutputFiles(archive, files);
    SortSorts(Select(files, i + "/"));
    SortedBelow(files, i + "/");
    SortedBelow(files, o + "/");
    hide Select, Sort, Prefix, BaseName, Sorted, Below;
    SortedIsUnique(Each(Below(i + "/"), ins), Each(Below(o + "/"), outs));
    assert |ins| == |Each(Below(i + "/"), ins)| == |outs|;
    forall k | 0 <= k < |ins|
      ensures BaseName(ins[k]) == BaseName(outs[k])
    {
      BelowKeepsBaseName(i, ins[k]);
      BelowKeepsBaseName(o, outs[k]);
      assert Each(Below(i + "/"), ins)[k] == Each(Below(o + "/"), outs)[k];
    }
    assert BaseNames(ins) == BaseNames(outs);
  }

  const CROSSED: seq<string> := ["p/inputs/a/1", "p/inputs/b/1", "p/outputs/b/1", "p/outputs/c/1"]

  /** Without that, accepted pairs may cross folders, even where an input has an output at its own place: here
      the input a/1 is paired with the output b/1, and the input b/1 with c/1. */
  lemma CrossedFoldersAccepted()
    ensures Accepts("p.zip", CROSSED)
    ensures InputFiles("p.zip", CROSSED) == ["p/inputs/a/1", "p/inputs/b/1"]
    ensures OutputFiles("p.zip", CROSSED) == ["p/outputs/b/1", "p/outputs/c/1"]
  {
    CrossedSides();
    NestedDirectories();
    hide *;
    AcceptedWhen("p.zip", CROSSED, "p/inputs/", "p/outputs/", ["p/inputs/a/1", "p/inputs/b/1"], ["p/outputs/b/1", "p/outputs/c/1"]);
  }

  lemma NestedDirectories()
    ensures Prefix("p.zip") + "/inputs/" == "p/inputs/" && Prefix("p.zip") + "/outputs/" == "p/outputs/"
  {
    NestedPrefix();
  }

  lemma AcceptedWhen(archive: string, files: seq<string>, i: string, o: string, ins: seq<string>, outs: seq<string>)
    requires Prefix(archive) + "/inputs/" == i && Prefix(archive) + "/outputs/" == o
    requires Sort(Select(files, i)) == ins && Sort(Select(files, o)) == outs && ins != [] && BaseNames(ins) == BaseNames(outs)
    ensures Accepts(archive, files) && InputFiles(archive, files) == ins && OutputFiles(archive, files) == outs
  {
  }

  lemma CrossedSides()
    ensures Sort(Select(CROSSED, "p/inputs/")) == ["p/inputs/a/1", "p/inputs/b/1"]
    ensures Sort(Select(CROSSED, "p/outputs/")) == ["p/outputs/b/1", "p/outputs/c/1"]
    ensures BaseNames(["p/inputs/a/1", "p/inputs/b/1"]) == BaseNames(["p/outputs/b/1", "p/outputs/c/1"])
  {
    CrossedSelection();
    CrossedOrder();
    CrossedNames();
    hide Select, BaseName, BaseNames, LexLe, Sort, Sorted;
    AlreadySorted(["p/inputs/a/1", "p/inputs/b/1"]);
    AlreadySorted(["p/outputs/b/1", "p/outputs/c/1"]);
    SameBaseNames("p/inputs/a/1", "p/inputs/b/1", "p/outputs/b/1", "p/outputs/c/1");
  }

  lemma SameBaseNames(a: string, b: string, c: string, d: string)
    requires BaseName(a) == BaseName(c) && BaseName(b) == BaseName(d)
    ensures BaseNames([a, b]) == BaseNames([c, d])
  {
    hide BaseName;
  }

  lemma CrossedSelection()
    ensures Select(CROSSED, "p/inputs/") == ["p/inputs/a/1", "p/inputs/b/1"]
    ensures Select(CROSSED, "p/outputs/") == ["p/outputs/b/1", "p/outputs/c/1"]
  {
    var a: string, b: string, c: string, d: string := "p/inputs/a/1", "p/inputs/b/1", "p/outputs/b/1", "p/outputs/c/1";
    var none: seq<string> := [];
    assert c[2] != "p/inputs/"[2] && d[2] != "p/inputs/"[2] && a[2] != "p/outputs/"[2] && b[2] != "p/outputs/"[2];
    assert [a, b, c, d][1..] == [b, c, d] && [b, c, d][1..] == [c, d] && [c, d][1..] == [d] && [d][1..] == none;
    assert "p/inputs/" <= a && "p/inputs/" <= b && "p/outputs/" <= c && "p/outputs/" <= d;
  }

  lemma CrossedOrder()
    ensures Sorted(["p/inputs/a/1", "p/inputs/b/1"]) && Sorted(["p/outputs/b/1", "p/outputs/c/1"])
  {
    PairSorted("p/inputs/", "a/1", "b/1");
    PairSorted("p/outputs/", "b/1", "c/1");
    hide Sorted;
    assert "p/inputs/" + "a/1" == "p/inputs/a/1" && "p/inputs/" + "b/1" == "p/inputs/b/1";
    assert "p/outputs/" + "b/1" == "p/outputs/b/1" && "p/outputs/" + "c/1" == "p/outputs/c/1";
  }

  lemma CrossedNames()
    ensures BaseName("p/inputs/a/1") == BaseName("p/inputs/b/1") == BaseName("p/outputs/b/1") == BaseName("p/outputs/c/1") == "1"
  {
    LastPart("p/inputs/a", "1");
    LastPart("p/inputs/b", "1");
    LastPart("p/outputs/b", "1");
    LastPart("p/outputs/c", "1");
    assert "p/inputs/a" + ['/'] + "1" == "p/inputs/a/1" && "p/inputs/b" + ['/'] + "1" == "p/inputs/b/1";
    assert "p/outputs/b" + ['/'] + "1" == "p/outputs/b/1" && "p/outputs/c" + ['/'] + "1" == "p/outputs/c/1";
  }

  const NESTED: seq<string> := ["p/inputs/a/2", "p/inputs/b/1", "p/outputs/1", "p/outputs/2"]

  /** For nested folders the check can refuse an archive whose names do match: sorting by path need not
      sort by name. */
  lemma NestedCheckIsNotExact()
    ensures NamesMatch("p.zip", NESTED) && !Accepts("p.zip", NESTED)
  {
    NestedDirectories();
    NestedSides();
    NamesSwapped("2", "1");
    hide *;
    RefusedWhen("p.zip", NESTED, "p/inputs/", "p/outputs/");
  }

  lemma RefusedWhen(archive: string, files: seq<string>, i: string, o: string)
    requires Prefix(archive) + "/inputs/" == i && Prefix(archive) + "/outputs/" == o
    requires Sort(Select(files, i)) == Select(files, i) && Sort(Select(files, o)) == Select(files, o)
    requires multiset(BaseNames(Select(files, i))) == multiset(BaseNames(Select(files, o)))
    requires BaseNames(Select(files, i)) != BaseNames(Select(files, o))
    ensures NamesMatch(archive, files) && !Accepts(archive, files)
  {
    assert |multiset(BaseNames(Select(files, i)))| == |multiset(BaseNames(Select(files, o)))|;
    assert |Select(files, i)| == |Select(files, o)|;
  }

  lemma NamesSwapped(a: string, b: string)
    requires a != b
    ensures multiset([a, b]) == multiset([b, a]) && [a, b] != [b, a]
  {
    assert [a, b][0] != [b, a][0];
  }

  lemma NestedSides()
    ensures Sort(Select(NESTED, "p/inputs/")) == Select(NESTED, "p/inputs/")
    ensures Sort(Select(NESTED, "p/outputs/")) == Select(NESTED, "p/outputs/")
    ensures BaseNames(Select(NESTED, "p/inputs/")) == ["2", "1"]
    ensures BaseNames(Select(NESTED, "p/outputs/")) == ["1", "2"]
  {
    NestedSelection();
    NestedNames();
    NestedOrder();
    hide Select, BaseName, LexLe, Sort;
    AlreadySorted(["p/inputs/a/2", "p/inputs/b/1"]);
    AlreadySorted(["p/outputs/1", "p/outputs/2"]);
  }

  lemma PairSorted(p: string, a: string, b: string)
    requires a != [] && b != [] && a[0] < b[0]
    ensures Sorted([p + a, p + b])
  {
    LexPrefix(p, a, b);
  }

  lemma NestedOrder()
    ensures Sorted(["p/inputs/a/2", "p/inputs/b/1"]) && Sorted(["p/outputs/1", "p/outputs/2"])
  {
    PairSorted("p/inputs/", "a/2", "b/1");
    PairSorted("p/outputs/", "1", "2");
    hide Sorted;
    assert "p/inputs/" + "a/2" == "p/inputs/a/2" && "p/inputs/" + "b/1" == "p/inputs/b/1";
    assert "p/outputs/" + "1" == "p/outputs/1" && "p/outputs/" + "2" == "p/outputs/2";
  }

  lemma NestedPrefix()
    ensures Prefix("p.zip") == "p"
  {
    assert "p.zip" == "p" + ['.'] + "zip";
    SplitAt('.', "p", "zip");
    SplitWithout('.', "p");
  }

  lemma NestedSelection()
    ensures Select(NESTED, "p/inputs/") == ["p/inputs/a/2", "p/inputs/b/1"]
    ensures Select(NESTED, "p/outputs/") == ["p/outputs/1", "p/outputs/2"]
  {
    var a: string, b: string, c: string, d: string := "p/inputs/a/2", "p/inputs/b/1", "p/outputs/1", "p/outputs/2";
    var none: seq<string> := [];
    assert c[2] != "p/inputs/"[2] && d[2] != "p/inputs/"[2] && a[2] != "p/outputs/"[2] && b[2] != "p/outputs/"[2];
    assert [a, b, c, d][1..] == [b, c, d] && [b, c, d][1..] == [c, d] && [c, d][1..] == [d] && [d][1..] == none;
    assert "p/inputs/" <= a && "p/inputs/" <= b && "p/outputs/" <= c && "p/outputs/" <= d;
  }

  lemma NestedNames()
    ensures BaseName("p/inputs/a/2") == "2" && BaseName("p/inputs/b/1") == "1"
    ensures BaseName("p/outputs/1") == "1" && BaseName("p/outputs/2") == "2"
  {
    LastPart("p/inputs/a", "2");
    LastPart("p/inputs/b", "1");
    LastPart("p/outputs", "1");
    LastPart("p/outputs", "2");
    assert "p/inputs/a" + ['/'] + "2" == "p/inputs/a/2" && "p/inputs/b" + ['/'] + "1" == "p/inputs/b/1";
    assert "p/outputs" + ['/'] + "1" == "p/outputs/1" && "p/outputs" + ['/'] + "2" == "p/outputs/2";
  }

  lemma LastPart(d: string, name: string)
    requires '/' !in name
    ensures BaseName(d + ['/'] + name) == name
  {
    SplitAt('/', d, name);
    SplitWithout('/', name);
  }

  lemma AlreadySorted(s: seq<string>)
    requires Sorted(s)
    ensures Sort(s) == s
  {
    SortSorts(s);
    SortedIsUnique(Sort(s), s);
  }
}
