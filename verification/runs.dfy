/**
  What a whole generateDTOs run does to the writer cache: entries are never
  removed, a closed writer is never touched again, a successful run leaves one
  closed writer per class holding exactly that class's text, and the run
  succeeds exactly when no two classes share a writer and every directory and
  file can be created.
 */
module Runs {
  import opened JavaTypes
  import opened Naming
  import opened DTOText
  import opened Emitter

  /** No class is handed in twice. */
  predicate Distinct(cs: seq<JClass>) {
    forall i, j :: 0 <= i < j < |cs| ==> cs[i] != cs[j]
  }

  /** Every class's DTO package directory and DTO file can be created. */
  predicate Writable(root: string, sep: char, fs: FileSystem, ds: seq<ClassDecl>) {
    forall i :: 0 <= i < |ds| ==>
      PackageDirectory(root, sep, ds[i].pkg) !in fs.failingDirectories && DTOFilePath(root, sep, ds[i]) !in fs.failingFiles
  }

  /** A writer is created once: opening the same class again returns the cached writer and changes nothing. */
  lemma OpenReusesWriter(m: Writers, c: JClass, file: string, fs: FileSystem, file2: string, fs2: FileSystem)
    requires Open(m, c, file, fs).0 == Done
    ensures Open(Open(m, c, file, fs).1, c, file2, fs2) == (Done, Open(m, c, file, fs).1)
    ensures |Open(m, c, file, fs).1.Keys| <= |m.Keys| + 1
  {
    var m1 := Open(m, c, file, fs).1;
    if c !in m {
      assert m1.Keys == m.Keys + {c};
    } else {
      assert m1 == m;
    }
  }

  /** The texts after the first still fit the classes after the first. */
  lemma TextsTail(ds: seq<ClassDecl>, texts: seq<seq<string>>)
    requires |texts| == |ds| && NonEmptyTexts(texts) && ds != []
    ensures |texts[1..]| == |ds[1..]| && NonEmptyTexts(texts[1..])
  {
    assert forall i :: 0 <= i < |texts[1..]| ==> texts[1..][i] == texts[i + 1];
  }

  /** One step of the run: the first class is generated, and the rest follows only when that succeeded. */
  lemma RunCons(m: Writers, root: string, sep: char, fs: FileSystem, ds: seq<ClassDecl>, texts: seq<seq<string>>)
    requires |texts| == |ds| && NonEmptyTexts(texts) && ds != []
    ensures |texts[1..]| == |ds[1..]| && NonEmptyTexts(texts[1..])
    ensures var step := Generate(m, root, sep, fs, ds[0], texts[0]);
      RunAll(m, root, sep, fs, ds, texts) ==
        if step.0 == Done then RunAll(step.1, root, sep, fs, ds[1..], texts[1..]) else step
  {
    TextsTail(ds, texts);
  }

  /** A class is handed in exactly when it is the first class or handed in after it. */
  lemma ClassesTail(ds: seq<ClassDecl>)
    requires ds != []
    ensures forall k :: k in Classes(ds) <==> k == ds[0].AsClass() || k in Classes(ds[1..])
  {
    forall k ensures k in Classes(ds) <==> k == ds[0].AsClass() || k in Classes(ds[1..]) {
      if k in Classes(ds) {
        var i :| 0 <= i < |ds| && Classes(ds)[i] == k;
        if i > 0 {
          assert Classes(ds[1..])[i - 1] == k;
        }
      }
      if k in Classes(ds[1..]) {
        var i :| 0 <= i < |ds| - 1 && Classes(ds[1..])[i] == k;
        assert Classes(ds)[i + 1] == k;
      }
      if k == ds[0].AsClass() {
        assert Classes(ds)[0] == k;
      }
    }
  }

  /** Entries are never removed, and new entries belong to classes of the run. */
  lemma {:induction false} RunKeepsKeys(m: Writers, root: string, sep: char, fs: FileSystem, ds: seq<ClassDecl>, texts: seq<seq<string>>)
    requires |texts| == |ds| && NonEmptyTexts(texts)
    ensures var r := RunAll(m, root, sep, fs, ds, texts);
      (forall k :: k in m ==> k in r.1) && (forall k :: k in r.1 ==> k in m || k in Classes(ds))
    decreases |ds|
  {
    if ds != [] {
      ClassesTail(ds);
      RunCons(m, root, sep, fs, ds, texts);
      var step := Generate(m, root, sep, fs, ds[0], texts[0]);
      if step.0 == Done {
        RunKeepsKeys(step.1, root, sep, fs, ds[1..], texts[1..]);
      }
    }
  }

  /** The entry of a class outside the run, or a writer already closed, is left as it was. */
  lemma {:induction false} RunKeepsEntries(m: Writers, root: string, sep: char, fs: FileSystem, ds: seq<ClassDecl>,
                                           texts: seq<seq<string>>, k: JClass)
    requires |texts| == |ds| && NonEmptyTexts(texts)
    requires k in m && (k !in Classes(ds) || m[k].closed)
    ensures var r := RunAll(m, root, sep, fs, ds, texts);
      k in r.1 && r.1[k] == m[k]
    decreases |ds|
  {
    if ds != [] {
      ClassesTail(ds);
      RunCons(m, root, sep, fs, ds, texts);
      var step := Generate(m, root, sep, fs, ds[0], texts[0]);
      if step.0 == Done {
        assert k != ds[0].AsClass();
        RunKeepsEntries(step.1, root, sep, fs, ds[1..], texts[1..], k);
      }
    }
  }

  /** A run that meets a class whose writer is already closed fails. */
  lemma {:induction false} ClosedWriterFails(m: Writers, root: string, sep: char, fs: FileSystem, ds: seq<ClassDecl>,
                                             texts: seq<seq<string>>, k: JClass)
    requires |texts| == |ds| && NonEmptyTexts(texts)
    requires k in m && m[k].closed && k in Classes(ds)
    ensures RunAll(m, root, sep, fs, ds, texts).0 != Done
    decreases |ds|
  {
    ClassesTail(ds);
    RunCons(m, root, sep, fs, ds, texts);
    var step := Generate(m, root, sep, fs, ds[0], texts[0]);
    if step.0 == Done {
      assert k != ds[0].AsClass();
      ClosedWriterFails(step.1, root, sep, fs, ds[1..], texts[1..], k);
    }
  }

  /** The classes of a run are distinct exactly when the first differs from the others and the others are distinct. */
  lemma DistinctCons(ds: seq<ClassDecl>)
    requires ds != []
    ensures Distinct(Classes(ds)) <==> ds[0].AsClass() !in Classes(ds[1..]) && Distinct(Classes(ds[1..]))
  {
    var cs := Classes(ds);
    var tl := Classes(ds[1..]);
    assert forall i :: 0 <= i < |tl| ==> tl[i] == cs[i + 1];
    if ds[0].AsClass() in tl {
      var j :| 0 <= j < |tl| && tl[j] == ds[0].AsClass();
      assert cs[0] == cs[j + 1];
    }
    if ds[0].AsClass() !in tl && Distinct(tl) {
      forall i, j | 0 <= i < j < |cs| ensures cs[i] != cs[j] {
        assert cs[j] == tl[j - 1];
        if i > 0 {
          assert cs[i] == tl[i - 1];
        }
      }
    }
  }

  /** After a successful run every class's writer is closed, and no class was handed in twice. */
  lemma {:induction false} SuccessfulRunClosesAll(m: Writers, root: string, sep: char, fs: FileSystem, ds: seq<ClassDecl>,
                                                  texts: seq<seq<string>>)
    requires |texts| == |ds| && NonEmptyTexts(texts)
    requires RunAll(m, root, sep, fs, ds, texts).0 == Done
    ensures var r := RunAll(m, root, sep, fs, ds, texts);
      forall i :: 0 <= i < |ds| ==> ds[i].AsClass() in r.1 && r.1[ds[i].AsClass()].closed
    ensures Distinct(Classes(ds))
    decreases |ds|
  {
    if ds != [] {
      ClassesTail(ds);
      DistinctCons(ds);
      RunCons(m, root, sep, fs, ds, texts);
      var c := ds[0].AsClass();
      var step := Generate(m, root, sep, fs, ds[0], texts[0]);
      SuccessfulRunClosesAll(step.1, root, sep, fs, ds[1..], texts[1..]);
      RunKeepsEntries(step.1, root, sep, fs, ds[1..], texts[1..], c);
      if c in Classes(ds[1..]) {
        ClosedWriterFails(step.1, root, sep, fs, ds[1..], texts[1..], c);
      }
      var r := RunAll(m, root, sep, fs, ds, texts);
      forall i | 1 <= i < |ds| ensures ds[i].AsClass() in r.1 && r.1[ds[i].AsClass()].closed {
        assert ds[1..][i - 1] == ds[i];
      }
    }
  }

  /** All of a run's classes can be written exactly when the first can and the others can. */
  lemma WritableCons(root: string, sep: char, fs: FileSystem, ds: seq<ClassDecl>)
    requires ds != []
    ensures Writable(root, sep, fs, ds) <==>
      PackageDirectory(root, sep, ds[0].pkg) !in fs.failingDirectories && DTOFilePath(root, sep, ds[0]) !in fs.failingFiles &&
      Writable(root, sep, fs, ds[1..])
  {
    assert forall i :: 1 <= i < |ds| ==> ds[1..][i - 1] == ds[i];
  }

  /** After the first class, the others still have no writer, unless one of them is the first class again. */
  lemma FreshTail(m: Writers, m1: Writers, ds: seq<ClassDecl>)
    requires ds != [] && ds[0].AsClass() !in Classes(ds[1..])
    requires forall i :: 0 <= i < |ds| ==> ds[i].AsClass() !in m
    requires forall k :: k in m1 ==> k in m || k == ds[0].AsClass()
    ensures forall i :: 0 <= i < |ds[1..]| ==> ds[1..][i].AsClass() !in m1
  {
    forall i | 0 <= i < |ds[1..]| ensures ds[1..][i].AsClass() !in m1 {
      assert ds[1..][i] == ds[i + 1];
      assert Classes(ds[1..])[i] == ds[i + 1].AsClass();
    }
  }

  /**
    A run over classes that have no writer yet succeeds exactly when no class
    is handed in twice and every directory and file can be created.
   */
  lemma {:induction false} FreshRunSucceeds(m: Writers, root: string, sep: char, fs: FileSystem, ds: seq<ClassDecl>,
                                            texts: seq<seq<string>>)
    requires |texts| == |ds| && NonEmptyTexts(texts)
    requires forall i :: 0 <= i < |ds| ==> ds[i].AsClass() !in m
    ensures RunAll(m, root, sep, fs, ds, texts).0 == Done <==> Distinct(Classes(ds)) && Writable(root, sep, fs, ds)
    decreases |ds|
  {
    if ds != [] {
      ClassesTail(ds);
      DistinctCons(ds);
      WritableCons(root, sep, fs, ds);
      RunCons(m, root, sep, fs, ds, texts);
      var c := ds[0].AsClass();
      var step := Generate(m, root, sep, fs, ds[0], texts[0]);
      if step.0 == Done {
        if c in Classes(ds[1..]) {
          ClosedWriterFails(step.1, root, sep, fs, ds[1..], texts[1..], c);
        } else {
          FreshTail(m, step.1, ds);
          FreshRunSucceeds(step.1, root, sep, fs, ds[1..], texts[1..]);
        }
      }
    }
  }

  /**
    After a successful run over classes that had no writer, the writer of the
    i-th class holds exactly the i-th text and is closed.
   */
  lemma {:induction false} FreshRunContents(m: Writers, root: string, sep: char, fs: FileSystem, ds: seq<ClassDecl>,
                                            texts: seq<seq<string>>, i: nat)
    requires |texts| == |ds| && NonEmptyTexts(texts)
    requires forall j :: 0 <= j < |ds| ==> ds[j].AsClass() !in m
    requires RunAll(m, root, sep, fs, ds, texts).0 == Done
    requires i < |ds|
    ensures var r := RunAll(m, root, sep, fs, ds, texts);
      ds[i].AsClass() in r.1 && r.1[ds[i].AsClass()] == Buffer(texts[i], true)
    decreases |ds|
  {
    RunCons(m, root, sep, fs, ds, texts);
    var c := ds[0].AsClass();
    var step := Generate(m, root, sep, fs, ds[0], texts[0]);
    if i == 0 {
      assert [] + texts[0] == texts[0];
      RunKeepsEntries(step.1, root, sep, fs, ds[1..], texts[1..], c);
    } else {
      assert c !in Classes(ds[1..]) by {
        SuccessfulRunClosesAll(m, root, sep, fs, ds, texts);
        DistinctCons(ds);
      }
      FreshTail(m, step.1, ds);
      FreshRunContents(step.1, root, sep, fs, ds[1..], texts[1..], i - 1);
      assert ds[1..][i - 1] == ds[i] && texts[1..][i - 1] == texts[i];
    }
  }

  /**
    generateDTOs on classes that have no writer yet: it succeeds exactly when
    no class is handed in twice and every directory and file can be created,
    and then the writer of the i-th class holds that class's text, rendered
    against the classes handed in and stamped with the i-th clock reading, and
    is closed.
   */
  lemma FreshGeneration(v: Version, m: Writers, root: string, sep: char, fs: FileSystem, ds: seq<ClassDecl>,
                        clock: nat -> string, i: nat)
    requires AllNamed(ds) && i < |ds|
    requires forall j :: 0 <= j < |ds| ==> ds[j].AsClass() !in m
    ensures var r := RunAll(m, root, sep, fs, ds, Texts(v, Classes(ds), ds, clock));
      (r.0 == Done <==> Distinct(Classes(ds)) && Writable(root, sep, fs, ds)) &&
      (r.0 == Done ==> ds[i].AsClass() in r.1 && r.1[ds[i].AsClass()] == Buffer(ClassText(v, Classes(ds), ds[i], clock(i)), true))
  {
    var texts := Texts(v, Classes(ds), ds, clock);
    FreshRunSucceeds(m, root, sep, fs, ds, texts);
    if RunAll(m, root, sep, fs, ds, texts).0 == Done {
      FreshRunContents(m, root, sep, fs, ds, texts, i);
    }
  }
}
