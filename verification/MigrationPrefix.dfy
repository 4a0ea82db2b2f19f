/**
 When the recorded names are a prefix of the release: validation accepts histories with gaps, and a
 run closes them one by one.
 */
module MigrationPrefix {
  import opened Wrappers
  import opened Migration

  /** The recorded names are the first names of the release. */
  ghost predicate IsPrefix(history: seq<Record>, files: seq<File>) {
    |history| <= |files| && forall i :: 0 <= i < |history| ==> history[i].name == files[i].name
  }

  lemma {:induction false} SomethingMissing(h: seq<Record>, files: seq<File>, f: File)
    requires f in files && !HasRecord(h, f.name)
    ensures ApplyOps(h, files) != []
  {
    hide HasRecord;
    var n := |files| - 1;
    if files[n] != f {
      assert f in files[..n];
      SomethingMissing(h, files[..n], f);
    }
  }

  // ---------------------------------------------------------------- gaps

  /** The leading files, up to the last one that comes before a name. */
  function Before(files: seq<File>, name: Name): seq<File> {
    if files == [] || files[|files| - 1].name < name then files else Before(files[..|files| - 1], name)
  }

  lemma {:induction false} BeforeFiles(files: seq<File>, name: Name)
    requires SortedFiles(files)
    ensures Before(files, name) <= files
    ensures forall f :: f in Before(files, name) <==> f in files && f.name < name
  {
    if files == [] {
    } else if files[|files| - 1].name < name {
      forall f | f in files ensures f.name < name { var i :| 0 <= i < |files| && files[i] == f; }
    } else {
      var n := |files| - 1;
      PrefixSorted(files, n);
      BeforeFiles(files[..n], name);
      assert forall f :: f in files ==> f in files[..n] || f == files[n];
    }
  }

  /** The files that come before the newest recorded name. */
  function Older(history: seq<Record>, files: seq<File>): seq<File> {
    if history == [] then [] else Before(files, history[|history| - 1].name)
  }

  /** How many of them are not recorded. */
  function Gaps(history: seq<Record>, files: seq<File>): nat {
    |ApplyOps(history, Older(history, files))|
  }

  lemma OlderFiles(history: seq<Record>, files: seq<File>)
    requires SortedFiles(files)
    ensures Older(history, files) <= files && SortedFiles(Older(history, files))
    ensures history != [] ==>
      forall f :: f in Older(history, files) <==> f in files && f.name < history[|history| - 1].name
  {
    if history != [] { BeforeFiles(files, history[|history| - 1].name); }
    PrefixSorted(files, |Older(history, files)|);
    assert Older(history, files) == files[..|Older(history, files)|];
  }

  /** No gaps: whatever the release has before a recorded name is recorded. */
  ghost predicate NoneSkipped(history: seq<Record>, files: seq<File>) {
    forall f, r :: f in files && !HasRecord(history, f.name) && r in history ==> r.name < f.name
  }

  lemma GapsMeaning(history: seq<Record>, files: seq<File>)
    requires SortedFiles(files) && SortedHistory(history)
    ensures Gaps(history, files) == 0 <==> NoneSkipped(history, files)
  {
    var older := Older(history, files);
    OlderFiles(history, files);
    if Gaps(history, files) == 0 {
      NothingMissing(history, older);
      forall f, r | f in files && !HasRecord(history, f.name) && r in history ensures r.name < f.name {
        hide HasRecord;
        var i :| 0 <= i < |history| && history[i] == r;
        SomeRecord(history, i);
        assert f !in older;
      }
    } else {
      OpsFiles(history, older);
      var f := ApplyOps(history, older)[0].file;
      assert ApplyOps(history, older)[0] in ApplyOps(history, older);
      assert history[|history| - 1] in history && f in files;
    }
  }

  lemma SomeRecord(history: seq<Record>, i: nat)
    requires i < |history|
    ensures HasRecord(history, history[i].name)
  {
  }

  lemma {:induction false} PrefixUpTo(history: seq<Record>, files: seq<File>, n: nat)
    requires SortedFiles(files) && SortedHistory(history) && NoneSkipped(history, files) && n <= |history|
    requires forall i :: 0 <= i < |history| ==> HasFile(files, history[i].name)
    ensures n <= |files| && forall i :: 0 <= i < n ==> history[i].name == files[i].name
  {
    if n > 0 {
      PrefixUpTo(history, files, n - 1);
      NextOfPrefix(history, files, n - 1);
    }
  }

  lemma NextOfPrefix(history: seq<Record>, files: seq<File>, n: nat)
    requires SortedFiles(files) && SortedHistory(history) && NoneSkipped(history, files) && n < |history|
    requires HasFile(files, history[n].name)
    requires n <= |files| && forall i :: 0 <= i < n ==> history[i].name == files[i].name
    ensures n < |files| && history[n].name == files[n].name
  {
    var m :| 0 <= m < |files| && files[m].name == history[n].name;
    assert m >= n;
    var f := files[n];
    assert f in files && history[n] in history;
    assert HasRecord(history, f.name);
    var t :| 0 <= t < |history| && history[t].name == f.name;
    hide NoneSkipped, HasRecord, HasFile;
    assert t >= n;
  }

  lemma PrefixSkipsNone(history: seq<Record>, files: seq<File>)
    requires SortedFiles(files) && SortedHistory(history) && IsPrefix(history, files)
    ensures NoneSkipped(history, files)
  {
    forall f, r | f in files && !HasRecord(history, f.name) && r in history ensures r.name < f.name {
      var j :| 0 <= j < |files| && files[j] == f;
      var i :| 0 <= i < |history| && history[i] == r;
      if j < |history| { assert history[j].name == f.name; }
    }
  }

  /** The recorded names are a prefix of the release exactly when there is no gap. */
  lemma PrefixIffNoGaps(files: seq<File>, history: seq<Record>, allowSuffix: bool)
    requires SortedFiles(files) && SortedHistory(history) && Acceptable(files, history, allowSuffix)
    ensures IsPrefix(history, files) <==> |history| <= |files| && Gaps(history, files) == 0
  {
    GapsMeaning(history, files);
    hide Gaps;
    if IsPrefix(history, files) {
      PrefixSkipsNone(history, files);
    } else if |history| <= |files| && NoneSkipped(history, files) {
      forall i | 0 <= i < |history| ensures HasFile(files, history[i].name) {
        hide HasFile;
        assert RecordOk(files, history, i, allowSuffix);
      }
      PrefixUpTo(history, files, |history|);
    }
  }

  // ---------------------------------------------------------------- closing gaps

  lemma NewestOf(history: seq<Record>, h: seq<Record>, r: Record)
    requires SortedHistory(history) && SortedHistory(h) && (forall x :: x in h <==> x in history || x == r)
    requires history != [] ==> history[|history| - 1].name != r.name
    ensures h != []
    ensures h[|h| - 1] == if history != [] && r.name < history[|history| - 1].name then history[|history| - 1] else r
  {
    assert r in h;
    var newest := if history != [] && r.name < history[|history| - 1].name then history[|history| - 1] else r;
    assert newest in h;
    var i :| 0 <= i < |h| && h[i] == newest;
    var last := h[|h| - 1];
    assert last in h;
    if last in history { var j :| 0 <= j < |history| && history[j] == last; }
  }

  /** The history with one more file recorded. */
  function Recorded(history: seq<Record>, f: File): seq<Record> { Insert(history, Record(f.name, Some(f.checksum))) }

  lemma FirstIsRecorded(history: seq<Record>, files: seq<File>)
    requires SortedHistory(history) && ApplyOps(history, files) != []
    ensures
      var f := ApplyOps(history, files)[0].file;
      var h := Recorded(history, f);
      && f in files && !HasRecord(history, f.name) && SortedHistory(h)
      && (forall x :: x in h <==> x in history || x == Record(f.name, Some(f.checksum)))
  {
    OpsFiles(history, files);
    var op := ApplyOps(history, files)[0];
    assert op in ApplyOps(history, files);
    InsertShape(history, Record(op.file.name, Some(op.file.checksum)));
  }

  /** Without gaps the next file to apply comes after every record; then there is still no gap. */
  lemma NextBeyond(history: seq<Record>, files: seq<File>, h: seq<Record>)
    requires SortedFiles(files) && SortedHistory(history) && Gaps(history, files) == 0
    requires ApplyOps(history, files) != []
    requires h == Recorded(history, ApplyOps(history, files)[0].file)
    ensures Gaps(h, files) == 0
  {
    var f := ApplyOps(history, files)[0].file;
    var r := Record(f.name, Some(f.checksum));
    GapsMeaning(history, files);
    FirstIsRecorded(history, files);
    hide Recorded;
    forall g, x | g in files && !HasRecord(h, g.name) && x in h ensures x.name < g.name {
      HasRecordMembers(h, g.name);
      HasRecordMembers(history, g.name);
      hide HasRecord;
      if x == r {
        FirstMissing(history, files, g);
      }
    }
    GapsMeaning(h, files);
  }

  /** Files are applied in order: the first one missing comes before every other. */
  lemma {:induction false} FirstMissing(history: seq<Record>, files: seq<File>, g: File)
    requires SortedFiles(files) && ApplyOps(history, files) != [] && g in files && !HasRecord(history, g.name)
    ensures g == ApplyOps(history, files)[0].file || ApplyOps(history, files)[0].file.name < g.name
  {
    hide HasRecord;
    var n := |files| - 1;
    PrefixSorted(files, n);
    OpsFiles(history, files[..n]);
    if g == files[n] {
      if ApplyOps(history, files[..n]) != [] {
        var first := ApplyOps(history, files[..n])[0];
        assert first in ApplyOps(history, files[..n]);
        var i :| 0 <= i < n && files[i] == first.file;
      }
    } else {
      assert g in files[..n];
      SomethingMissing(history, files[..n], g);
      FirstMissing(history, files[..n], g);
    }
  }

  lemma AddedNames(history: seq<Record>, h: seq<Record>, r: Record)
    requires forall x :: x in h <==> x in history || x == r
    ensures forall name :: HasRecord(h, name) <==> HasRecord(history, name) || name == r.name
  {
    forall name ensures HasRecord(h, name) <==> HasRecord(history, name) || name == r.name {
      HasRecordMembers(h, name);
      HasRecordMembers(history, name);
      hide HasRecord;
      assert r in h;
    }
  }

  /** The first missing file closes a gap while there is one. */
  lemma FirstClosesGap(history: seq<Record>, files: seq<File>)
    requires SortedFiles(files) && Gaps(history, files) > 0
    ensures ApplyOps(history, files) != [] && ApplyOps(history, Older(history, files)) != []
    ensures ApplyOps(history, files)[0] == ApplyOps(history, Older(history, files))[0]
    ensures history != [] && ApplyOps(history, files)[0].file.name < history[|history| - 1].name
  {
    var older := Older(history, files);
    OlderFiles(history, files);
    assert older == files[..|older|];
    ApplyPrefix(history, files, |older|);
    OpsFiles(history, older);
    assert ApplyOps(history, older)[0] in ApplyOps(history, older);
  }

  /** Applying a file that closes a gap leaves one gap fewer. */
  lemma NextCloses(history: seq<Record>, files: seq<File>, h: seq<Record>)
    requires SortedFiles(files) && SortedHistory(history) && Gaps(history, files) > 0
    requires ApplyOps(history, files) != []
    requires h == Recorded(history, ApplyOps(history, files)[0].file)
    ensures Gaps(h, files) == Gaps(history, files) - 1
  {
    var older := Older(history, files);
    var f := ApplyOps(history, files)[0].file;
    FirstClosesGap(history, files);
    FirstIsRecorded(history, files);
    OlderFiles(history, files);
    hide ApplyOps, HasRecord, Recorded;
    NewestOf(history, h, Record(f.name, Some(f.checksum)));
    assert Older(h, files) == older;
    AddedNames(history, h, Record(f.name, Some(f.checksum)));
    ApplyRest(history, h, older);
  }

  function Less(a: nat, b: nat): nat { if a <= b then 0 else a - b }

  /** Applying a missing file keeps the history within the release. */
  lemma StaysWithin(files: seq<File>, history: seq<Record>, allowSuffix: bool, f: File)
    requires Acceptable(files, history, allowSuffix) && f in files && !HasRecord(history, f.name)
    requires SortedFiles(files) && SortedHistory(history)
    ensures |history| <= |files| && |Recorded(history, f)| <= |files|
  {
    NoSuffixWhileMissing(files, history, allowSuffix, f);
    FitsIn(files, history);
    var r := Record(f.name, Some(f.checksum));
    var h := Insert(history, r);
    InsertShape(history, r);
    assert HasFile(files, f.name);
    forall i | 0 <= i < |h| ensures HasFile(files, h[i].name) {
      hide HasFile, Insert;
      assert h[i] in h;
      if h[i] != r { var k :| 0 <= k < |history| && history[k] == h[i]; }
    }
    FitsIn(files, h);
  }

  lemma ExecCloses(db: Db, files: seq<File>, allowSuffix: bool)
    requires SortedFiles(files) && Healthy(db, files, allowSuffix) && Ops(db.history, files) != []
    ensures
      var op := Ops(db.history, files)[0];
      var after := Exec(db, op).history;
      && Gaps(after, files) == (if op.Apply? then Less(Gaps(db.history, files), 1) else Gaps(db.history, files))
      && (|after| <= |files| <==> |db.history| <= |files|)
  {
    var h := db.history;
    var op := Ops(h, files)[0];
    var after := Exec(db, op).history;
    OpsFiles(h, files);
    ExecRest(db, files);
    if op.Backfill? {
      FillKeepsGaps(h, files, op.file);
    } else {
      assert BackfillOps(h, files) != [] ==> op in BackfillOps(h, files);
      assert op in ApplyOps(h, files) && op == ApplyOps(h, files)[0];
      InsertShape(h, Record(op.file.name, Some(op.file.checksum)));
      StaysWithin(files, h, allowSuffix, op.file);
      hide Gaps, HasRecord, Insert, Acceptable, Ops, ApplyOps, BackfillOps;
      if Gaps(h, files) > 0 { NextCloses(h, files, after); } else { NextBeyond(h, files, after); }
    }
  }

  lemma FillKeepsGaps(history: seq<Record>, files: seq<File>, f: File)
    ensures Gaps(Fill(history, f), files) == Gaps(history, files)
  {
    var filled := Fill(history, f);
    if history != [] { assert filled[|filled| - 1].name == history[|history| - 1].name; }
    assert Older(filled, files) == Older(history, files);
    forall name { FillNames(history, f, name); }
    hide HasRecord, Fill;
    SameStatus(history, filled, Older(history, files));
  }

  /** After k transactions: the fills come first, then each one closes a gap until there is none. */
  lemma {:induction false} StoppedCloses(db: Db, files: seq<File>, allowSuffix: bool, k: nat)
    requires SortedFiles(files) && Healthy(db, files, allowSuffix) && k <= |Ops(db.history, files)|
    ensures
      var after := ExecAll(db, Ops(db.history, files)[..k]).history;
      && Gaps(after, files) == Less(Gaps(db.history, files), Less(k, |BackfillOps(db.history, files)|))
      && (|after| <= |files| <==> |db.history| <= |files|)
  {
    var ops := Ops(db.history, files);
    var fills := |BackfillOps(db.history, files)|;
    OpsFiles(db.history, files);
    assert k > 0 ==> (ops[k - 1].Backfill? <==> k - 1 < fills) by {
      if k > 0 {
        if k - 1 < fills { assert ops[k - 1] in BackfillOps(db.history, files); }
        else {
          assert ops[k - 1] == ApplyOps(db.history, files)[k - 1 - fills];
          assert ops[k - 1] in ApplyOps(db.history, files);
        }
      }
    }
    assert SortedHistory(db.history);
    hide Ops, Exec, Healthy, Gaps, BackfillOps, ApplyOps, HasRecord, LacksChecksum;
    if k > 0 {
      StoppedCloses(db, files, allowSuffix, k - 1);
      StoppedStaysHealthy(db, files, allowSuffix, k - 1);
      StoppedRest(db, files, k - 1);
      assert ops[..k][..k - 1] == ops[..k - 1] && ops[k - 1..][0] == ops[k - 1];
      ExecCloses(ExecAll(db, ops[..k - 1]), files, allowSuffix);
    } else {
      assert ops[..0] == [];
    }
  }

  /** The applied names are a prefix of the release after these runs. */
  ghost predicate PrefixAfter(db: Db, files: seq<File>, allowSuffix: bool, budgets: seq<nat>) {
    IsPrefix(RunAll(db, files, allowSuffix, budgets).history, files)
  }

  /**
   Validation accepts histories with gaps. After any crashes and reruns the applied names are a
   prefix of the release exactly when the database is not newer than the release and the
   transactions so far have filled every missing checksum and then closed every gap, unless there
   was no gap.
   */
  lemma PrefixOnceClosed(db: Db, files: seq<File>, allowSuffix: bool, budgets: seq<nat>)
    requires SortedFiles(files) && Healthy(db, files, allowSuffix)
    ensures
      var gaps := Gaps(db.history, files);
      PrefixAfter(db, files, allowSuffix, budgets) <==>
        |db.history| <= |files| && (gaps == 0 || Sum(budgets) >= |BackfillOps(db.history, files)| + gaps)
  {
    var ops := Ops(db.history, files);
    var k := Min(Sum(budgets), |ops|);
    CrashesDoNotMatter(db, files, allowSuffix, budgets);
    StoppedStaysHealthy(db, files, allowSuffix, k);
    StoppedCloses(db, files, allowSuffix, k);
    GapsAreMissing(db.history, files);
    assert |ops| == |BackfillOps(db.history, files)| + |ApplyOps(db.history, files)|;
    hide RunAll, Ops, IsPrefix, Acceptable, Gaps, EffectsOnce, BackfillOps, ApplyOps;
    PrefixIffNoGaps(files, ExecAll(db, ops[..k]).history, allowSuffix);
  }

  lemma GapsAreMissing(history: seq<Record>, files: seq<File>)
    requires SortedFiles(files)
    ensures Gaps(history, files) <= |ApplyOps(history, files)|
  {
    OlderFiles(history, files);
    assert Older(history, files) == files[..|Older(history, files)|];
    ApplyPrefix(history, files, |Older(history, files)|);
  }

  /** So the applied names are always a prefix exactly when they were one to begin with. */
  lemma AlwaysAPrefix(db: Db, files: seq<File>, allowSuffix: bool)
    requires SortedFiles(files) && Healthy(db, files, allowSuffix)
    ensures (forall budgets :: PrefixAfter(db, files, allowSuffix, budgets)) <==> IsPrefix(db.history, files)
  {
    PrefixIffNoGaps(files, db.history, allowSuffix);
    hide Gaps, IsPrefix, BackfillOps, Acceptable, EffectsOnce;
    if IsPrefix(db.history, files) {
      forall budgets ensures PrefixAfter(db, files, allowSuffix, budgets) {
        hide RunAll, PrefixAfter;
        PrefixOnceClosed(db, files, allowSuffix, budgets);
      }
    } else {
      assert !PrefixAfter(db, files, allowSuffix, []);
    }
  }

  /** A release of two files of which only the second is recorded, and has run. */
  function SecondOnly(a: File, b: File): Db {
    Db([Record(b.name, Some(b.checksum))], [b.name])
  }

  lemma SecondOnlyIsHealthy(a: File, b: File)
    requires a.name < b.name
    ensures SortedFiles([a, b]) && Healthy(SecondOnly(a, b), [a, b], false)
    ensures !IsPrefix(SecondOnly(a, b).history, [a, b])
  {
    var files, history := [a, b], SecondOnly(a, b).history;
    assert files[1] == b && b in files && history[0].name == b.name;
    assert HasFile(files, b.name) && HasRecord(history, b.name);
  }

  lemma SecondOnlyWork(a: File, b: File)
    requires a.name < b.name
    ensures Ops(SecondOnly(a, b).history, [a, b]) == [Apply(a)]
  {
    var files, history := [a, b], SecondOnly(a, b).history;
    assert history[0].name == b.name;
    assert HasRecord(history, b.name) && !HasRecord(history, a.name);
    assert !LacksChecksum(history, a.name) && !LacksChecksum(history, b.name);
    hide HasRecord, LacksChecksum;
    assert files[..1] == [a] && [a][..0] == [];
    assert ApplyOps(history, [a]) == [Apply(a)] && BackfillOps(history, [a]) == [];
  }

  /**
   A history with a gap that validation accepts: the second of two files is recorded. The run then
   executes the first script after the second.
   */
  lemma GapIsAccepted(a: File, b: File)
    requires a.name < b.name
    ensures Healthy(SecondOnly(a, b), [a, b], false) && !IsPrefix(SecondOnly(a, b).history, [a, b])
    ensures
      Run(SecondOnly(a, b), [a, b], false, 1) ==
        (Db([Record(a.name, Some(a.checksum)), Record(b.name, Some(b.checksum))], [b.name, a.name]), Completed)
  {
    SecondOnlyIsHealthy(a, b);
    SecondOnlyWork(a, b);
    var db := SecondOnly(a, b);
    hide Ops, IsPrefix, EffectsOnce, RecordOk;
    assert [Apply(a)][..0] == [] && db.history[..0] == [];
    assert ExecAll(db, [Apply(a)]) == Exec(db, Apply(a));
    var r := Record(a.name, Some(a.checksum));
    assert Insert([], r) == [r];
    assert Insert(db.history, r) == [r] + [db.history[0]];
    assert Run(db, [a, b], false, 1) == (ExecAll(db, Ops(db.history, [a, b])), Completed);
    assert [r] + [db.history[0]] == [r, Record(b.name, Some(b.checksum))] && [b.name] + [a.name] == [b.name, a.name];
  }
}
