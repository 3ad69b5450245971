/** Output file names of `export_voc_detection_dataset`: each image keeps its
    stem (its base name without the extension) unless an earlier image had
    the same stem, in which case a per-stem counter tells them apart. */
module VocNames {
  import opened Wrappers
  import opened Errors
  import opened Decimal

  /** `os.path.basename(p)`: the part after the last `/`. */
  function Basename(p: string): (b: string)
    ensures |b| <= |p| && p[|p| - |b|..] == b
    ensures forall i :: 0 <= i < |b| ==> b[i] != '/'
    ensures |b| < |p| ==> p[|p| - |b| - 1] == '/'
  {
    if p == [] then []
    else if p[|p| - 1] == '/' then []
    else Basename(p[..|p| - 1]) + [p[|p| - 1]]
  }

  /** The index of the last `.` of `s`, or -1 when there is none. */
  function LastDot(s: string): (i: int)
    ensures -1 <= i < |s|
    ensures i >= 0 ==> s[i] == '.'
    ensures forall j :: i < j < |s| ==> s[j] != '.'
  {
    if s == [] then -1
    else if s[|s| - 1] == '.' then |s| - 1
    else LastDot(s[..|s| - 1])
  }

  /** How many dots `s` starts with. */
  function LeadingDots(s: string): (n: nat)
    ensures n <= |s|
    ensures forall j :: 0 <= j < n ==> s[j] == '.'
    ensures n < |s| ==> s[n] != '.'
  {
    if s == [] || s[0] != '.' then 0 else 1 + LeadingDots(s[1..])
  }

  /** `os.path.splitext(b)` for a base name: the extension starts at the last
      dot, provided something other than a dot comes before it (so `.bashrc`
      and `..` have no extension, while `.tar.gz` has `.gz`). */
  function SplitExt(b: string): (r: (string, string))
    ensures r.0 + r.1 == b
    ensures r.1 != [] ==> r.1[0] == '.' && (forall j :: 0 < j < |r.1| ==> r.1[j] != '.')
    ensures r.1 != [] ==> exists j :: 0 <= j < |r.0| && r.0[j] != '.'
  {
    var i := LastDot(b);
    if LeadingDots(b) < i then (b[..i], b[i..]) else (b, [])
  }

  /** `SplitExt` finds an extension exactly when the last dot of the name
      comes after its leading dots, and then cuts the name at that dot. */
  lemma SplitExtAtLastDot(b: string)
    ensures SplitExt(b).1 != [] <==> LeadingDots(b) < LastDot(b)
    ensures SplitExt(b).1 != [] ==> |SplitExt(b).0| == LastDot(b)
  {
  }

  /** The stem an image is counted under, and its extension:
      `os.path.splitext(os.path.basename(p))`. */
  function SplitPath(p: string): (string, string)
  {
    SplitExt(Basename(p))
  }

  /** The `(stem, ext)` pairs of the image paths, in order. */
  function Files(paths: seq<string>): (files: seq<(string, string)>)
    ensures |files| == |paths|
    ensures forall i :: 0 <= i < |paths| ==> files[i] == SplitPath(paths[i])
  {
    seq(|paths|, i requires 0 <= i < |paths| => SplitPath(paths[i]))
  }

  /** Where one image goes: the `count`-th image whose stem is `name` is
      copied to `data/<stem><ext>` and its annotation written to
      `labels/<stem>.xml`. */
  datatype ExportName = ExportName(name: string, count: nat, ext: string)
  {
    /** The stem itself for the first image of a stem, `<name>-<count>` for
        the later ones. */
    function Stem(): string
    {
      if count > 1 then name + "-" + DecimalString(count) else name
    }

    function Image(): string
    {
      Stem() + ext
    }

    function Annotation(): string
    {
      Stem() + ".xml"
    }
  }

  /** `data_filename_counts[name]` of a `defaultdict(int)`. */
  function Counted(counts: map<string, nat>, name: string): nat
  {
    if name in counts then counts[name] else 0
  }

  /** How many of `files` are counted under `name`. */
  function Occurrences(files: seq<(string, string)>, name: string): nat
  {
    if files == [] then 0
    else Occurrences(files[..|files| - 1], name) + (if files[|files| - 1].0 == name then 1 else 0)
  }

  const ConcatError: Error := TypeError("can only concatenate str (not \"int\") to str")

  /** The loop as written: the first repeat of a name reaches
      `name += "-%d" + count`, which adds an int to a str. */
  function NamesAsWrittenFrom(files: seq<(string, string)>, counts: map<string, nat>): Result<seq<ExportName>, Error>
  {
    if files == [] then Success([])
    else
      var (name, ext) := files[0];
      var count := Counted(counts, name) + 1;
      if count > 1 then Failure(ConcatError)
      else
        var rest :- NamesAsWrittenFrom(files[1..], counts[name := count]);
        Success([ExportName(name, count, ext)] + rest)
  }

  /** The images the export loop visits: `zip(image_paths, labels)` stops
      at the shorter of the two, and only the number of labels matters for
      the names. */
  function Exported(paths: seq<string>, labelCount: nat): (r: seq<string>)
    ensures |r| <= |paths| && |r| <= labelCount
    ensures |r| == |paths| || |r| == labelCount
    ensures r == paths[..|r|]
  {
    if |paths| <= labelCount then paths else paths[..labelCount]
  }

  function ExportNamesAsWritten(paths: seq<string>, labelCount: nat): Result<seq<ExportName>, Error>
  {
    NamesAsWrittenFrom(Files(Exported(paths, labelCount)), map[])
  }

  /** The loop as its documentation describes it: a repeat gets `-<count>`
      appended to its stem. */
  function NamesFrom(files: seq<(string, string)>, counts: map<string, nat>): (r: seq<ExportName>)
    ensures |r| == |files|
  {
    if files == [] then []
    else
      var (name, ext) := files[0];
      var count := Counted(counts, name) + 1;
      [ExportName(name, count, ext)] + NamesFrom(files[1..], counts[name := count])
  }

  function ExportNames(paths: seq<string>, labelCount: nat): (r: seq<ExportName>)
    ensures |r| == |Exported(paths, labelCount)|
  {
    NamesFrom(Files(Exported(paths, labelCount)), map[])
  }

  /** The count file `i` is meant to get: how many of the files up to and
      including itself share its stem. */
  function IntendedCount(files: seq<(string, string)>, i: nat): nat
    requires i < |files|
  {
    Occurrences(files[..i + 1], files[i].0)
  }

  /** The names of all files differ. */
  predicate DistinctNames(files: seq<(string, string)>)
  {
    forall i, j :: 0 <= i < j < |files| ==> files[i].0 != files[j].0
  }

  /** The counter holds how often each stem has been seen. */
  ghost predicate CountsOf(counts: map<string, nat>, done: seq<(string, string)>)
  {
    forall k :: Counted(counts, k) == Occurrences(done, k)
  }

  lemma OccurrencesAppend(done: seq<(string, string)>, f: (string, string), k: string)
    ensures Occurrences(done + [f], k) == Occurrences(done, k) + (if f.0 == k then 1 else 0)
  {
    assert (done + [f])[..|done|] == done;
  }

  /** Seeing one more file bumps its stem's counter. */
  lemma CountsStep(counts: map<string, nat>, done: seq<(string, string)>, f: (string, string))
    requires CountsOf(counts, done)
    ensures CountsOf(counts[f.0 := Counted(counts, f.0) + 1], done + [f])
  {
    forall k
      ensures Counted(counts[f.0 := Counted(counts, f.0) + 1], k) == Occurrences(done + [f], k)
    {
      OccurrencesAppend(done, f, k);
    }
  }

  lemma {:induction false} OccurrencesCons(f: (string, string), xs: seq<(string, string)>, k: string)
    ensures Occurrences([f] + xs, k) == (if f.0 == k then 1 else 0) + Occurrences(xs, k)
    decreases |xs|
  {
    var ys := [f] + xs;
    if xs == [] {
      assert ys[..0] == [];
    } else {
      assert ys[..|ys| - 1] == [f] + xs[..|xs| - 1];
      OccurrencesCons(f, xs[..|xs| - 1], k);
    }
  }

  /** The counter-based loop, started from `counts`, gives file `i` its
      name's starting count plus its occurrences up to and including file
      `i`. */
  lemma {:induction false} NamesFromCounts(files: seq<(string, string)>, counts: map<string, nat>, i: nat)
    requires i < |files|
    ensures var name := files[i].0;
      NamesFrom(files, counts)[i] == ExportName(name, Counted(counts, name) + Occurrences(files[..i + 1], name), files[i].1)
    decreases i
  {
    var f := files[0];
    var name := files[i].0;
    if i == 0 {
      assert files[..1] == [f] && [f][..0] == [];
    } else {
      var counts' := counts[f.0 := Counted(counts, f.0) + 1];
      assert NamesFrom(files, counts)[i] == NamesFrom(files[1..], counts')[i - 1];
      NamesFromCounts(files[1..], counts', i - 1);
      assert files[1..][i - 1] == files[i];
      assert files[..i + 1] == [f] + files[1..][..i];
      OccurrencesCons(f, files[1..][..i], name);
    }
  }

  /** The pairs of a prefix of the paths are the prefix of their pairs. */
  lemma FilesPrefix(paths: seq<string>, k: nat)
    requires k <= |paths|
    ensures Files(paths[..k]) == Files(paths)[..k]
  {
  }

  /** Naming the visited images is naming a prefix of the pairs of all. */
  lemma ExportNamesPrefix(paths: seq<string>, labelCount: nat)
    ensures ExportNames(paths, labelCount) == NamesFrom(Files(paths)[..|Exported(paths, labelCount)|], map[])
  {
    FilesPrefix(paths, |Exported(paths, labelCount)|);
  }

  /** Naming only a prefix of the files leaves the names inside it as they
      are. */
  lemma NamesOfPrefix(files: seq<(string, string)>, k: nat, i: nat)
    requires i < k <= |files|
    ensures NamesFrom(files[..k], map[])[i] == ExportName(files[i].0, IntendedCount(files, i), files[i].1)
  {
    var visited := files[..k];
    assert visited[..i + 1] == files[..i + 1];
    NamesFromCounts(visited, map[], i);
  }

  /** `ExportNames` gives every image that has a label its stem, its
      intended count and its extension. */
  lemma {:induction false} ExportNamesIntended(paths: seq<string>, labelCount: nat, i: nat)
    requires i < |paths| && i < labelCount
    ensures var files := Files(paths);
      ExportNames(paths, labelCount)[i] == ExportName(files[i].0, IntendedCount(files, i), files[i].1)
  {
    ExportNamesPrefix(paths, labelCount);
    NamesOfPrefix(Files(paths), |Exported(paths, labelCount)|, i);
  }

  lemma {:induction false} OccurrencesMonotone(files: seq<(string, string)>, m: nat, n: nat, k: string)
    requires m <= n <= |files|
    ensures Occurrences(files[..m], k) <= Occurrences(files[..n], k)
    decreases n - m
  {
    if m < n {
      OccurrencesMonotone(files, m, n - 1, k);
      assert files[..n][..n - 1] == files[..n - 1];
    }
  }

  lemma {:induction false} OccurrencesNone(files: seq<(string, string)>, k: string)
    ensures Occurrences(files, k) == 0 <==> forall j :: 0 <= j < |files| ==> files[j].0 != k
    decreases |files|
  {
    if files != [] {
      OccurrencesNone(files[..|files| - 1], k);
      assert forall j :: 0 <= j < |files| - 1 ==> files[..|files| - 1][j] == files[j];
    }
  }

  /** A file is the first of its stem (and keeps it unchanged) exactly when
      no earlier file had that stem. */
  lemma FirstKeepsName(files: seq<(string, string)>, i: nat)
    requires i < |files|
    ensures IntendedCount(files, i) >= 1
    ensures IntendedCount(files, i) == 1 <==> forall j :: 0 <= j < i ==> files[j].0 != files[i].0
    ensures ExportName(files[i].0, IntendedCount(files, i), files[i].1).Stem() == files[i].0 <==> IntendedCount(files, i) == 1
  {
    var name := files[i].0;
    OccurrencesAppend(files[..i], files[i], name);
    assert files[..i + 1] == files[..i] + [files[i]];
    OccurrencesNone(files[..i], name);
    assert forall j :: 0 <= j < i ==> files[..i][j] == files[j];
  }

  /** Later files of a stem get strictly larger counts. */
  lemma CountsIncrease(files: seq<(string, string)>, i: nat, j: nat)
    requires i < j < |files| && files[i].0 == files[j].0
    ensures 1 <= IntendedCount(files, i) < IntendedCount(files, j)
  {
    var name := files[i].0;
    OccurrencesMonotone(files, i + 1, j, name);
    OccurrencesAppend(files[..j], files[j], name);
    assert files[..j + 1] == files[..j] + [files[j]];
    OccurrencesAppend(files[..i], files[i], name);
    assert files[..i + 1] == files[..i] + [files[i]];
  }

  /** Different counts of one stem give different output stems. */
  lemma StemsDistinct(a: ExportName, b: ExportName)
    requires a.name == b.name && 1 <= a.count < b.count
    ensures a.Stem() != b.Stem()
  {
    var sa, sb := a.Stem(), b.Stem();
    if a.count > 1 && sa == sb {
      assert sa[|a.name| + 1..] == DecimalString(a.count);
      assert sb[|b.name| + 1..] == DecimalString(b.count);
      DecimalInjective(a.count, b.count);
    }
  }

  /** Appending the same suffix keeps different stems different. */
  lemma StemsDiffer(a: string, b: string, suffix: string)
    requires a != b
    ensures a + suffix != b + suffix
  {
    assert |a| != |b| || exists k :: 0 <= k < |a| && a[k] != b[k];
    if |a| == |b| {
      var k :| 0 <= k < |a| && a[k] != b[k];
      assert (a + suffix)[k] != (b + suffix)[k];
    }
  }

  /** Two exported images counted under the same stem never get the same
      annotation file, nor the same image file when their extensions agree. */
  lemma SameNameDistinctFiles(paths: seq<string>, labelCount: nat, i: nat, j: nat)
    requires i < j < |paths| && j < labelCount && SplitPath(paths[i]).0 == SplitPath(paths[j]).0
    ensures ExportNames(paths, labelCount)[i].Annotation() != ExportNames(paths, labelCount)[j].Annotation()
    ensures SplitPath(paths[i]).1 == SplitPath(paths[j]).1 ==>
      ExportNames(paths, labelCount)[i].Image() != ExportNames(paths, labelCount)[j].Image()
  {
    var a, b := ExportNames(paths, labelCount)[i], ExportNames(paths, labelCount)[j];
    ExportNamesIntended(paths, labelCount, i);
    ExportNamesIntended(paths, labelCount, j);
    CountsIncrease(Files(paths), i, j);
    StemsDistinct(a, b);
    StemsDiffer(a.Stem(), b.Stem(), ".xml");
    StemsDiffer(a.Stem(), b.Stem(), a.ext);
  }

  /** As written, the loop succeeds exactly when all stems differ, and then
      it names everything as intended; otherwise it raises the `TypeError`. */
  lemma {:induction false} NamesAsWrittenFromAgrees(done: seq<(string, string)>, rest: seq<(string, string)>, counts: map<string, nat>)
    requires CountsOf(counts, done) && DistinctNames(done)
    ensures NamesAsWrittenFrom(rest, counts).Success? <==> DistinctNames(done + rest)
    ensures NamesAsWrittenFrom(rest, counts).Success? ==> NamesAsWrittenFrom(rest, counts).value == NamesFrom(rest, counts)
    ensures NamesAsWrittenFrom(rest, counts).Failure? ==> NamesAsWrittenFrom(rest, counts).error == ConcatError
    decreases |rest|
  {
    if rest == [] {
      assert done + rest == done;
    } else {
      var f := rest[0];
      OccurrencesNone(done, f.0);
      if Counted(counts, f.0) > 0 {
        RepeatNotDistinct(done, rest);
      } else {
        CountsStep(counts, done, f);
        FreshDistinct(done, f);
        NamesAsWrittenFromAgrees(done + [f], rest[1..], counts[f.0 := 1]);
        assert (done + [f]) + rest[1..] == done + rest;
      }
    }
  }

  /** A stem of `rest[0]` already seen in `done` is a repeat. */
  lemma RepeatNotDistinct(done: seq<(string, string)>, rest: seq<(string, string)>)
    requires rest != [] && exists j :: 0 <= j < |done| && done[j].0 == rest[0].0
    ensures !DistinctNames(done + rest)
  {
    var j :| 0 <= j < |done| && done[j].0 == rest[0].0;
    assert (done + rest)[j] == done[j] && (done + rest)[|done|] == rest[0];
  }

  /** A stem not seen in `done` keeps the stems distinct. */
  lemma FreshDistinct(done: seq<(string, string)>, f: (string, string))
    requires DistinctNames(done) && forall j :: 0 <= j < |done| ==> done[j].0 != f.0
    ensures DistinctNames(done + [f])
  {
    assert forall j :: 0 <= j < |done| ==> (done + [f])[j] == done[j];
  }

  /** The loop as written, started with an empty counter. */
  lemma NamesAsWrittenAgrees(files: seq<(string, string)>)
    ensures NamesAsWrittenFrom(files, map[]).Success? <==> DistinctNames(files)
    ensures NamesAsWrittenFrom(files, map[]).Success? ==> NamesAsWrittenFrom(files, map[]).value == NamesFrom(files, map[])
    ensures NamesAsWrittenFrom(files, map[]).Failure? ==> NamesAsWrittenFrom(files, map[]).error == ConcatError
  {
    NamesAsWrittenFromAgrees([], files, map[]);
    assert [] + files == files;
  }

  /** `export_voc_detection_dataset` as written succeeds exactly when no two
      images it visits share a stem, names them as intended when it does,
      and raises `TypeError` otherwise. */
  lemma ExportNamesAsWrittenAgrees(paths: seq<string>, labelCount: nat)
    ensures var files := Files(Exported(paths, labelCount));
      ExportNamesAsWritten(paths, labelCount).Success? <==> DistinctNames(files)
    ensures ExportNamesAsWritten(paths, labelCount).Success? ==>
      ExportNamesAsWritten(paths, labelCount).value == ExportNames(paths, labelCount)
    ensures ExportNamesAsWritten(paths, labelCount).Failure? ==>
      ExportNamesAsWritten(paths, labelCount).error == ConcatError
  {
    NamesAsWrittenAgrees(Files(Exported(paths, labelCount)));
  }

  /** With at most one label the loop visits at most one image, so the
      repeated stems of later paths never reach the faulty line. */
  lemma OneLabelNeverRaises(paths: seq<string>, labelCount: nat)
    requires labelCount <= 1
    ensures ExportNamesAsWritten(paths, labelCount).Success?
  {
    ExportNamesAsWrittenAgrees(paths, labelCount);
  }

  /** Two images both named `a.jpg` (say `x/a.jpg` and `y/a.jpg`): as
      written the export raises `TypeError` at the second one, where
      `a-2.jpg` was meant. The stem alone decides: `a.jpg` followed by
      `a.png` raises as well. */
  lemma RepeatedNameRaises()
    ensures NamesAsWrittenFrom([("a", ".jpg"), ("a", ".jpg")], map[]) == Failure(ConcatError)
    ensures var names := NamesFrom([("a", ".jpg"), ("a", ".jpg")], map[]);
      names[0].Image() == "a.jpg" && names[1].Image() == "a-2.jpg"
    ensures NamesAsWrittenFrom([("a", ".jpg"), ("a", ".png")], map[]) == Failure(ConcatError)
  {
    var files := [("a", ".jpg"), ("a", ".jpg")];
    assert files[1..][1..] == [];
    assert NamesFrom(files, map[]) == [ExportName("a", 1, ".jpg"), ExportName("a", 2, ".jpg")];
    assert DecimalString(2) == "2";
    assert "a" + "-" + "2" + ".jpg" == "a-2.jpg";
  }

  /** The `-<count>` suffix avoids clashes only among images of the same
      stem: an image already called `a-2.jpg` lands on the file the second
      `a.jpg` is given. */
  lemma SuffixCanCollide()
    ensures var names := NamesFrom([("a", ".jpg"), ("a", ".jpg"), ("a-2", ".jpg")], map[]);
      names[1].Image() == names[2].Image() == "a-2.jpg"
  {
    var files := [("a", ".jpg"), ("a", ".jpg"), ("a-2", ".jpg")];
    assert files[1..][1..][1..] == [];
    assert NamesFrom(files, map[]) == [ExportName("a", 1, ".jpg"), ExportName("a", 2, ".jpg"), ExportName("a-2", 1, ".jpg")];
    assert DecimalString(2) == "2";
    assert "a" + "-" + "2" + ".jpg" == "a-2.jpg";
  }
}
