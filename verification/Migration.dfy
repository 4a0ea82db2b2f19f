/**
 Database migration: validate the recorded history against the release, fill in missing checksums,
 and apply what is missing, one transaction per file. A run may stop after any transaction, by a
 crash or a failing script, and be started again.

 File names are natural numbers that stand for their sort order; the history is kept in that order,
 as the query returns it.
 */
module Migration {
  import opened Wrappers

  type Name = nat
  type Checksum(==, !new)

  datatype File = File(name: Name, checksum: Checksum)

  datatype Record = Record(name: Name, checksum: Option<Checksum>)

  /** The history table, and the scripts whose effects the schema holds, in order of execution. */
  datatype Db = Db(history: seq<Record>, effects: seq<Name>)

  // ---------------------------------------------------------------- validation

  ghost predicate SortedFiles(files: seq<File>) {
    forall i, j :: 0 <= i < j < |files| ==> files[i].name < files[j].name
  }

  ghost predicate SortedHistory(history: seq<Record>) {
    forall i, j :: 0 <= i < j < |history| ==> history[i].name < history[j].name
  }

  predicate HasFile(files: seq<File>, name: Name) {
    exists i :: 0 <= i < |files| && files[i].name == name
  }

  predicate HasRecord(history: seq<Record>, name: Name) {
    exists i :: 0 <= i < |history| && history[i].name == name
  }

  /** A record fits the release: its file agrees, or it lies beyond an older release that may be followed. */
  ghost predicate RecordOk(files: seq<File>, history: seq<Record>, i: nat, allowSuffix: bool)
    requires i < |history|
  {
    var r := history[i];
    if HasFile(files, r.name)
    then r.checksum.Some? ==> File(r.name, r.checksum.value) in files
    else allowSuffix && i >= |files| && r.checksum.Some?
  }

  ghost predicate StartsWith(history: seq<Record>, files: seq<File>) {
    |files| <= |history| && forall i :: 0 <= i < |files| ==> history[i].name == files[i].name
  }

  /** The histories that validation accepts. */
  ghost predicate Acceptable(files: seq<File>, history: seq<Record>, allowSuffix: bool) {
    && (allowSuffix && |history| > |files| ==> StartsWith(history, files))
    && (forall i :: 0 <= i < |history| ==> RecordOk(files, history, i, allowSuffix))
  }

  /** The loop over the recorded history; `None` when a record does not fit. */
  method Validate(files: seq<File>, history: seq<Record>, allowSuffix: bool) returns (backfill: Option<seq<File>>)
    requires SortedFiles(files) && SortedHistory(history)
    ensures backfill.Some? <==> Acceptable(files, history, allowSuffix)
    ensures backfill.Some? ==>
      forall f :: f in backfill.value <==> f in files && Record(f.name, None) in history
  {
    if allowSuffix && |history| > |files| {
      var k := 0;
      while k < |files|
        invariant 0 <= k <= |files|
        invariant forall i :: 0 <= i < k ==> history[i].name == files[i].name
      {
        if history[k].name != files[k].name {
          assert !StartsWith(history, files);
          return None;
        }
        k := k + 1;
      }
    }
    var todo: seq<File> := [];
    var i := 0;
    while i < |history|
      invariant 0 <= i <= |history|
      invariant forall j :: 0 <= j < i ==> RecordOk(files, history, j, allowSuffix)
      invariant forall f :: f in todo <==> f in files && Record(f.name, None) in history[..i]
    {
      var r := history[i];
      var file := FindFile(files, r.name);
      if file.None? {
        if !(allowSuffix && i >= |files| && r.checksum.Some?) {
          assert !RecordOk(files, history, i, allowSuffix);
          return None;
        }
      } else if r.checksum.None? {
        todo := todo + [file.value];
      } else if r.checksum.value != file.value.checksum {
        assert !RecordOk(files, history, i, allowSuffix);
        return None;
      }
      i := i + 1;
    }
    assert history[..|history|] == history;
    backfill := Some(todo);
  }

  function FindFile(files: seq<File>, name: Name): (file: Option<File>)
    ensures file.Some? <==> HasFile(files, name)
    ensures file.Some? ==> file.value in files && file.value.name == name
    ensures SortedFiles(files) ==> forall f :: f in files && f.name == name ==> file == Some(f)
  {
    if files == [] then None
    else if files[0].name == name then Some(files[0])
    else FindFile(files[1..], name)
  }

  // ---------------------------------------------------------------- the work of one run

  datatype Op = Backfill(file: File) | Apply(file: File)

  predicate LacksChecksum(history: seq<Record>, name: Name) { Record(name, None) in history }

  function BackfillOps(history: seq<Record>, files: seq<File>): seq<Op> {
    if files == [] then []
    else
      var last := files[|files| - 1];
      BackfillOps(history, files[..|files| - 1]) + if LacksChecksum(history, last.name) then [Backfill(last)] else []
  }

  function ApplyOps(history: seq<Record>, files: seq<File>): seq<Op> {
    if files == [] then []
    else
      var last := files[|files| - 1];
      ApplyOps(history, files[..|files| - 1]) + if HasRecord(history, last.name) then [] else [Apply(last)]
  }

  /** First the missing checksums, then the missing files, each in order. */
  function Ops(history: seq<Record>, files: seq<File>): seq<Op> {
    BackfillOps(history, files) + ApplyOps(history, files)
  }

  function Insert(history: seq<Record>, r: Record): seq<Record> {
    if history == [] then [r]
    else
      var n := |history| - 1;
      if history[n].name < r.name then history + [r] else Insert(history[..n], r) + [history[n]]
  }

  function Fill(history: seq<Record>, f: File): (filled: seq<Record>)
    ensures |filled| == |history|
  {
    seq(|history|, i requires 0 <= i < |history| =>
      if history[i] == Record(f.name, None) then Record(f.name, Some(f.checksum)) else history[i])
  }

  function Exec(db: Db, op: Op): Db {
    match op
    case Backfill(f) => db.(history := Fill(db.history, f))
    case Apply(f) => Db(Insert(db.history, Record(f.name, Some(f.checksum))), db.effects + [f.name])
  }

  function ExecAll(db: Db, ops: seq<Op>): Db {
    if ops == [] then db else Exec(ExecAll(db, ops[..|ops| - 1]), ops[|ops| - 1])
  }

  datatype Ending = Completed | Stopped | Rejected

  /** A run that may perform at most `budget` transactions before it stops. */
  ghost function Run(db: Db, files: seq<File>, allowSuffix: bool, budget: nat): (Db, Ending) {
    var ops := Ops(db.history, files);
    if !Acceptable(files, db.history, allowSuffix) then (db, Rejected)
    else if budget < |ops| then (ExecAll(db, ops[..budget]), Stopped)
    else (ExecAll(db, ops), Completed)
  }

  // ---------------------------------------------------------------- what is refused

  /** The release has the script as recorded, or as far as it is recorded. */
  ghost predicate Known(files: seq<File>, r: Record) {
    exists f :: f in files && f.name == r.name && (r.checksum.Some? ==> r.checksum.value == f.checksum)
  }

  /** A newer script than any of an older release's, with a checksum. */
  ghost predicate Newer(files: seq<File>, history: seq<Record>, i: nat)
    requires i < |history|
  {
    i >= |files| && history[i].checksum.Some? && forall f :: f in files ==> f.name != history[i].name
  }

  /**
   A run is refused, and then changes nothing, exactly when a recorded script is neither the release's
   own with the same checksum nor, under the flag for older releases, a newer one; or when under that
   flag a longer history does not begin with the release's scripts.
   */
  lemma RefusedExactly(db: Db, files: seq<File>, allowSuffix: bool, budget: nat)
    requires SortedFiles(files)
    ensures
      var (after, ending) := Run(db, files, allowSuffix, budget);
      && (ending.Rejected? ==> after == db)
      && (ending.Rejected? <==>
            || (exists i :: 0 <= i < |db.history| && !Known(files, db.history[i])
                  && !(allowSuffix && Newer(files, db.history, i)))
            || (allowSuffix && |db.history| > |files|
                  && exists i :: 0 <= i < |files| && db.history[i].name != files[i].name))
  {
    hide Ops, ExecAll;
    forall i | 0 <= i < |db.history|
      ensures
        RecordOk(files, db.history, i, allowSuffix) <==>
          Known(files, db.history[i]) || (allowSuffix && Newer(files, db.history, i))
    {
      KnownMeans(files, db.history[i]);
    }
    hide Known, Newer, RecordOk;
  }

  lemma KnownMeans(files: seq<File>, r: Record)
    requires SortedFiles(files)
    ensures HasFile(files, r.name) <==> exists f :: f in files && f.name == r.name
    ensures
      HasFile(files, r.name) ==>
        (Known(files, r) <==> (r.checksum.Some? ==> File(r.name, r.checksum.value) in files))
  {
    if HasFile(files, r.name) {
      var i :| 0 <= i < |files| && files[i].name == r.name;
      assert files[i] in files;
      if r.checksum.Some? && File(r.name, r.checksum.value) in files {
        assert Known(files, r);
      }
    }
  }

  // ---------------------------------------------------------------- the history stays in order

  lemma {:induction false} InsertShape(history: seq<Record>, r: Record)
    requires SortedHistory(history) && !HasRecord(history, r.name)
    ensures
      var h := Insert(history, r);
      SortedHistory(h) && |h| == |history| + 1 && forall x :: x in h <==> x in history || x == r
  {
    if history != [] {
      var n := |history| - 1;
      assert history[..n] + [history[n]] == history;
      if history[n].name > r.name {
        assert !HasRecord(history[..n], r.name) by {
          assert forall i :: 0 <= i < n ==> history[..n][i] == history[i];
        }
        InsertShape(history[..n], r);
        var h := Insert(history[..n], r);
        assert forall x :: x in h ==> x.name < history[n].name;
        assert forall i :: 0 <= i < |h| ==> h[i] in h;
      } else {
        assert history[n].name != r.name;
      }
    }
  }

  lemma HasRecordMembers(history: seq<Record>, name: Name)
    ensures HasRecord(history, name) <==> exists r :: r in history && r.name == name
  {
    if r :| r in history && r.name == name {
      var i :| 0 <= i < |history| && history[i] == r;
    }
    if HasRecord(history, name) {
      var i :| 0 <= i < |history| && history[i].name == name;
      assert history[i] in history;
    }
  }

  lemma InsertNames(history: seq<Record>, r: Record, name: Name)
    requires SortedHistory(history) && !HasRecord(history, r.name)
    ensures HasRecord(Insert(history, r), name) <==> HasRecord(history, name) || name == r.name
    ensures LacksChecksum(Insert(history, r), name) <==> LacksChecksum(history, name) || r == Record(name, None)
  {
    InsertShape(history, r);
    HasRecordMembers(history, name);
    HasRecordMembers(Insert(history, r), name);
    hide HasRecord, Insert;
    assert r in Insert(history, r);
  }

  lemma FillNames(history: seq<Record>, f: File, name: Name)
    ensures HasRecord(Fill(history, f), name) <==> HasRecord(history, name)
    ensures LacksChecksum(Fill(history, f), name) <==> LacksChecksum(history, name) && name != f.name
    ensures SortedHistory(history) ==> SortedHistory(Fill(history, f))
  {
    var filled := Fill(history, f);
    if LacksChecksum(history, name) && name != f.name {
      var i :| 0 <= i < |history| && history[i] == Record(name, None);
      assert filled[i] == Record(name, None);
    }
    if HasRecord(history, name) {
      var i :| 0 <= i < |history| && history[i].name == name;
      assert filled[i].name == name;
    }
    if HasRecord(filled, name) {
      var i :| 0 <= i < |filled| && filled[i].name == name;
      assert history[i].name == name;
    }
  }

  // ---------------------------------------------------------------- what remains after one transaction

  lemma {:induction false} SameStatus(h: seq<Record>, h': seq<Record>, files: seq<File>)
    requires forall f :: f in files ==> (HasRecord(h, f.name) <==> HasRecord(h', f.name))
    ensures ApplyOps(h, files) == ApplyOps(h', files)
  {
    if files != [] {
      hide HasRecord;
      assert files[|files| - 1] in files;
      SameStatus(h, h', files[..|files| - 1]);
    }
  }

  lemma {:induction false} SameGaps(h: seq<Record>, h': seq<Record>, files: seq<File>)
    requires forall f :: f in files ==> (LacksChecksum(h, f.name) <==> LacksChecksum(h', f.name))
    ensures BackfillOps(h, files) == BackfillOps(h', files)
  {
    if files != [] {
      hide LacksChecksum;
      assert files[|files| - 1] in files;
      SameGaps(h, h', files[..|files| - 1]);
    }
  }

  lemma PrefixSorted(files: seq<File>, n: nat)
    requires SortedFiles(files) && n <= |files|
    ensures SortedFiles(files[..n])
    ensures n < |files| ==> forall f :: f in files[..n] ==> f.name != files[n].name
  {
  }

  /** The files of the work are files of the release that lack what the work gives them. */
  lemma {:induction false} OpsFiles(h: seq<Record>, files: seq<File>)
    ensures forall op :: op in ApplyOps(h, files) ==> op.Apply? && op.file in files && !HasRecord(h, op.file.name)
    ensures forall op :: op in BackfillOps(h, files) ==>
      op.Backfill? && op.file in files && LacksChecksum(h, op.file.name)
  {
    if files != [] {
      hide HasRecord, LacksChecksum;
      var n := |files| - 1;
      OpsFiles(h, files[..n]);
      assert forall f :: f in files[..n] ==> f in files;
    }
  }

  /** Applying the first missing file leaves exactly the rest to apply. */
  lemma {:induction false} ApplyRest(h: seq<Record>, h': seq<Record>, files: seq<File>)
    requires SortedFiles(files) && ApplyOps(h, files) != []
    requires forall name :: HasRecord(h', name) <==> HasRecord(h, name) || name == ApplyOps(h, files)[0].file.name
    ensures ApplyOps(h', files) == ApplyOps(h, files)[1..]
  {
    var n := |files| - 1;
    var last := files[n];
    PrefixSorted(files, n);
    OpsFiles(h, files[..n]);
    hide HasRecord;
    if ApplyOps(h, files[..n]) != [] {
      assert ApplyOps(h, files[..n])[0] in ApplyOps(h, files[..n]);
      ApplyRest(h, h', files[..n]);
    } else {
      NothingMissing(h, files[..n]);
      SameStatus(h, h', files[..n]);
    }
  }

  lemma {:induction false} NothingMissing(h: seq<Record>, files: seq<File>)
    requires ApplyOps(h, files) == []
    ensures forall f :: f in files ==> HasRecord(h, f.name)
  {
    if files != [] {
      hide HasRecord;
      var n := |files| - 1;
      NothingMissing(h, files[..n]);
      assert forall f :: f in files ==> f in files[..n] || f == files[n];
    }
  }

  /** Filling the first missing checksum leaves exactly the rest to fill. */
  lemma {:induction false} BackfillRest(h: seq<Record>, h': seq<Record>, files: seq<File>)
    requires SortedFiles(files) && BackfillOps(h, files) != []
    requires forall name ::
      LacksChecksum(h', name) <==> LacksChecksum(h, name) && name != BackfillOps(h, files)[0].file.name
    ensures BackfillOps(h', files) == BackfillOps(h, files)[1..]
  {
    var n := |files| - 1;
    PrefixSorted(files, n);
    OpsFiles(h, files[..n]);
    hide LacksChecksum;
    if BackfillOps(h, files[..n]) != [] {
      assert BackfillOps(h, files[..n])[0] in BackfillOps(h, files[..n]);
      BackfillRest(h, h', files[..n]);
    } else {
      NoGaps(h, files[..n]);
      SameGaps(h, h', files[..n]);
    }
  }

  lemma {:induction false} NoGaps(h: seq<Record>, files: seq<File>)
    requires BackfillOps(h, files) == []
    ensures forall f :: f in files ==> !LacksChecksum(h, f.name)
  {
    if files != [] {
      hide LacksChecksum;
      var n := |files| - 1;
      NoGaps(h, files[..n]);
      assert forall f :: f in files ==> f in files[..n] || f == files[n];
    }
  }

  /** Performing the first transaction of a run leaves exactly the others. */
  lemma ExecRest(db: Db, files: seq<File>)
    requires SortedFiles(files) && SortedHistory(db.history) && Ops(db.history, files) != []
    ensures
      var ops := Ops(db.history, files);
      var after := Exec(db, ops[0]);
      SortedHistory(after.history) && Ops(after.history, files) == ops[1..]
  {
    var h := db.history;
    var op := Ops(h, files)[0];
    OpsFiles(h, files);
    var h' := Exec(db, op).history;
    if BackfillOps(h, files) != [] {
      assert op in BackfillOps(h, files);
      forall name { FillNames(h, op.file, name); }
      hide HasRecord, LacksChecksum, Fill;
      BackfillRest(h, h', files);
      SameStatus(h, h', files);
    } else {
      assert op in ApplyOps(h, files);
      InsertShape(h, Record(op.file.name, Some(op.file.checksum)));
      forall name { InsertNames(h, Record(op.file.name, Some(op.file.checksum)), name); }
      hide HasRecord, LacksChecksum, Insert;
      ApplyRest(h, h', files);
      SameGaps(h, h', files);
    }
  }

  lemma ExecAllAppend(db: Db, ops: seq<Op>, op: Op)
    ensures ExecAll(db, ops + [op]) == Exec(ExecAll(db, ops), op)
  {
    assert (ops + [op])[..|ops|] == ops;
  }

  /** After any number of transactions the rest of the work is the rest of the list. */
  lemma {:induction false} StoppedRest(db: Db, files: seq<File>, k: nat)
    requires SortedFiles(files) && SortedHistory(db.history) && k <= |Ops(db.history, files)|
    ensures
      var ops := Ops(db.history, files);
      var after := ExecAll(db, ops[..k]);
      SortedHistory(after.history) && Ops(after.history, files) == ops[k..]
  {
    hide Ops, Exec;
    var ops := Ops(db.history, files);
    if k > 0 {
      StoppedRest(db, files, k - 1);
      var before := ExecAll(db, ops[..k - 1]);
      assert ops[..k][..k - 1] == ops[..k - 1] && ops[k - 1..][0] == ops[k - 1];
      ExecRest(before, files);
    } else {
      assert ops[..0] == [];
    }
  }

  lemma {:induction false} ExecAllJoin(db: Db, a: seq<Op>, b: seq<Op>)
    ensures ExecAll(ExecAll(db, a), b) == ExecAll(db, a + b)
  {
    if b == [] {
      assert a + b == a;
    } else {
      var n := |b| - 1;
      ExecAllJoin(db, a, b[..n]);
      assert (a + b)[..|a + b| - 1] == a + b[..n];
    }
  }

  // ---------------------------------------------------------------- validation keeps accepting

  lemma NotStarting(files: seq<File>, history: seq<Record>, f: File)
    requires f in files && !HasRecord(history, f.name)
    ensures !StartsWith(history, files)
  {
    var j :| 0 <= j < |files| && files[j] == f;
    if j < |history| { assert history[j].name != f.name; }
  }

  /** When a file is missing, the history holds nothing but files of this release. */
  lemma NoSuffixWhileMissing(files: seq<File>, history: seq<Record>, allowSuffix: bool, f: File)
    requires Acceptable(files, history, allowSuffix) && f in files && !HasRecord(history, f.name)
    ensures forall i :: 0 <= i < |history| ==> HasFile(files, history[i].name)
  {
    NotStarting(files, history, f);
    forall i | 0 <= i < |history| ensures HasFile(files, history[i].name) {
      hide HasFile;
      assert RecordOk(files, history, i, allowSuffix);
    }
  }

  /** A sorted history of release files is no longer than the release. */
  lemma {:induction false} FitsIn(files: seq<File>, history: seq<Record>)
    requires SortedFiles(files) && SortedHistory(history)
    requires forall i :: 0 <= i < |history| ==> HasFile(files, history[i].name)
    ensures |history| <= |files|
  {
    if history != [] {
      var n := |history| - 1;
      var j :| 0 <= j < |files| && files[j].name == history[n].name;
      forall i | 0 <= i < n ensures HasFile(files[..j], history[..n][i].name) {
        assert HasFile(files, history[i].name);
        var m :| 0 <= m < |files| && files[m].name == history[i].name;
        assert m < j && files[..j][m].name == history[i].name;
      }
      FitsIn(files[..j], history[..n]);
    }
  }

  lemma BackfillStaysAcceptable(files: seq<File>, history: seq<Record>, allowSuffix: bool, f: File)
    requires Acceptable(files, history, allowSuffix) && f in files
    ensures Acceptable(files, Fill(history, f), allowSuffix)
  {
    var filled := Fill(history, f);
    forall i | 0 <= i < |filled| ensures RecordOk(files, filled, i, allowSuffix) {
      assert RecordOk(files, history, i, allowSuffix);
    }
  }

  lemma ApplyStaysAcceptable(files: seq<File>, history: seq<Record>, allowSuffix: bool, f: File)
    requires Acceptable(files, history, allowSuffix) && f in files && !HasRecord(history, f.name)
    requires SortedFiles(files) && SortedHistory(history)
    ensures Acceptable(files, Insert(history, Record(f.name, Some(f.checksum))), allowSuffix)
  {
    var r := Record(f.name, Some(f.checksum));
    var h := Insert(history, r);
    NoSuffixWhileMissing(files, history, allowSuffix, f);
    InsertShape(history, r);
    assert HasFile(files, f.name);
    forall i | 0 <= i < |h| ensures HasFile(files, h[i].name) && RecordOk(files, h, i, allowSuffix) {
      hide HasFile, Insert;
      assert h[i] in h;
      if h[i] != r {
        var k :| 0 <= k < |history| && history[k] == h[i];
        assert RecordOk(files, history, k, allowSuffix);
      }
    }
    FitsIn(files, h);
  }

  /** Each script has taken effect exactly as often as its record stands in the history: once or never. */
  ghost predicate EffectsOnce(db: Db) {
    && (forall i, j :: 0 <= i < j < |db.effects| ==> db.effects[i] != db.effects[j])
    && (forall name :: name in db.effects <==> HasRecord(db.history, name))
  }

  ghost predicate Healthy(db: Db, files: seq<File>, allowSuffix: bool) {
    SortedHistory(db.history) && Acceptable(files, db.history, allowSuffix) && EffectsOnce(db)
  }

  lemma ExecStaysHealthy(db: Db, files: seq<File>, allowSuffix: bool)
    requires SortedFiles(files) && Healthy(db, files, allowSuffix) && Ops(db.history, files) != []
    ensures Healthy(Exec(db, Ops(db.history, files)[0]), files, allowSuffix)
  {
    var h := db.history;
    var op := Ops(h, files)[0];
    OpsFiles(h, files);
    ExecRest(db, files);
    if op.Backfill? {
      BackfillStaysAcceptable(files, h, allowSuffix, op.file);
      forall name { FillNames(h, op.file, name); }
    } else {
      assert op in ApplyOps(h, files);
      ApplyStaysAcceptable(files, h, allowSuffix, op.file);
      forall name { InsertNames(h, Record(op.file.name, Some(op.file.checksum)), name); }
    }
    hide Acceptable, HasRecord, Insert, Fill, Ops, LacksChecksum;
  }

  lemma {:induction false} StoppedStaysHealthy(db: Db, files: seq<File>, allowSuffix: bool, k: nat)
    requires SortedFiles(files) && Healthy(db, files, allowSuffix) && k <= |Ops(db.history, files)|
    ensures Healthy(ExecAll(db, Ops(db.history, files)[..k]), files, allowSuffix)
  {
    var ops := Ops(db.history, files);
    assert SortedHistory(db.history);
    hide Ops, Exec, Healthy;
    if k > 0 {
      StoppedStaysHealthy(db, files, allowSuffix, k - 1);
      StoppedRest(db, files, k - 1);
      assert ops[..k][..k - 1] == ops[..k - 1] && ops[k - 1..][0] == ops[k - 1];
      ExecStaysHealthy(ExecAll(db, ops[..k - 1]), files, allowSuffix);
    } else {
      assert ops[..0] == [];
    }
  }

  // ---------------------------------------------------------------- runs and reruns

  /** Any number of runs, each stopping after its budget of transactions. */
  ghost function RunAll(db: Db, files: seq<File>, allowSuffix: bool, budgets: seq<nat>): Db {
    if budgets == [] then db
    else Run(RunAll(db, files, allowSuffix, budgets[..|budgets| - 1]), files, allowSuffix, budgets[|budgets| - 1]).0
  }

  function Sum(budgets: seq<nat>): nat {
    if budgets == [] then 0 else Sum(budgets[..|budgets| - 1]) + budgets[|budgets| - 1]
  }

  lemma HealthyParts(db: Db, files: seq<File>, allowSuffix: bool, k: nat)
    requires SortedFiles(files) && Healthy(db, files, allowSuffix) && k <= |Ops(db.history, files)|
    ensures
      var ops := Ops(db.history, files);
      var after := ExecAll(db, ops[..k]);
      Acceptable(files, after.history, allowSuffix) && Ops(after.history, files) == ops[k..]
  {
    hide Ops, ExecAll, Acceptable, EffectsOnce;
    StoppedStaysHealthy(db, files, allowSuffix, k);
    StoppedRest(db, files, k);
  }

  /** One run after k transactions continues with the next ones. */
  lemma RunContinues(db: Db, files: seq<File>, allowSuffix: bool, k: nat, budget: nat)
    requires SortedFiles(files) && Healthy(db, files, allowSuffix) && k <= |Ops(db.history, files)|
    ensures
      var ops := Ops(db.history, files);
      var after := Run(ExecAll(db, ops[..k]), files, allowSuffix, budget);
      after == (ExecAll(db, ops[..Min(k + budget, |ops|)]), if k + budget < |ops| then Stopped else Completed)
  {
    var ops := Ops(db.history, files);
    var before := ExecAll(db, ops[..k]);
    hide Ops, Healthy, Acceptable, Exec, ExecAll;
    HealthyParts(db, files, allowSuffix, k);
    if budget < |ops| - k {
      ExecAllSlice(db, ops, k, budget);
    } else {
      ExecAllRest(db, ops, k);
    }
  }

  lemma ExecAllSlice(db: Db, ops: seq<Op>, k: nat, m: nat)
    requires k + m <= |ops|
    ensures ExecAll(ExecAll(db, ops[..k]), ops[k..][..m]) == ExecAll(db, ops[..k + m])
  {
    ExecAllJoin(db, ops[..k], ops[k..][..m]);
    SliceJoin(ops, k, m);
  }

  lemma SliceJoin<T>(s: seq<T>, k: nat, m: nat)
    requires k + m <= |s|
    ensures s[..k] + s[k..][..m] == s[..k + m]
  {
    var whole, parts := s[..k + m], s[..k] + s[k..][..m];
    assert |whole| == |parts|;
    assert forall i :: 0 <= i < |whole| ==> whole[i] == parts[i];
  }

  lemma ExecAllRest(db: Db, ops: seq<Op>, k: nat)
    requires k <= |ops|
    ensures ExecAll(ExecAll(db, ops[..k]), ops[k..]) == ExecAll(db, ops[..|ops|])
  {
    var rest := ops[k..];
    assert |rest| == |ops| - k && rest[..|rest|] == rest;
    ExecAllSlice(db, ops, k, |ops| - k);
  }

  /**
   Crash safety: wherever runs stop and however often they are repeated, the database is where one
   uninterrupted run stands after as many transactions.
   */
  lemma {:induction false} CrashesDoNotMatter(db: Db, files: seq<File>, allowSuffix: bool, budgets: seq<nat>)
    requires SortedFiles(files) && Healthy(db, files, allowSuffix)
    ensures
      var ops := Ops(db.history, files);
      RunAll(db, files, allowSuffix, budgets) == ExecAll(db, ops[..Min(Sum(budgets), |ops|)])
  {
    hide Ops, Healthy, Run;
    var ops := Ops(db.history, files);
    if budgets == [] {
      assert ops[..0] == [];
    } else {
      var n := |budgets| - 1;
      CrashesDoNotMatter(db, files, allowSuffix, budgets[..n]);
      RunContinues(db, files, allowSuffix, Min(Sum(budgets[..n]), |ops|), budgets[n]);
    }
  }

  /** Exactly once: after any crashes and reruns, the effects are those of the recorded scripts, each once. */
  lemma EffectsHappenOnce(db: Db, files: seq<File>, allowSuffix: bool, budgets: seq<nat>)
    requires SortedFiles(files) && Healthy(db, files, allowSuffix)
    ensures EffectsOnce(RunAll(db, files, allowSuffix, budgets))
  {
    CrashesDoNotMatter(db, files, allowSuffix, budgets);
    StoppedStaysHealthy(db, files, allowSuffix, Min(Sum(budgets), |Ops(db.history, files)|));
    hide RunAll, Ops, Acceptable;
  }

  /** A completed run leaves every file recorded with its checksum, and running again changes nothing. */
  lemma CompletedIsFinal(db: Db, files: seq<File>, allowSuffix: bool, budget: nat, again: nat)
    requires SortedFiles(files) && Healthy(db, files, allowSuffix) && Run(db, files, allowSuffix, budget).1.Completed?
    ensures
      var after := Run(db, files, allowSuffix, budget).0;
      && (forall f :: f in files ==> Record(f.name, Some(f.checksum)) in after.history)
      && Run(after, files, allowSuffix, again) == (after, Completed)
  {
    var ops := Ops(db.history, files);
    assert ops[..|ops|] == ops && ops[..0] == [];
    assert SortedHistory(db.history);
    RunContinues(db, files, allowSuffix, 0, budget);
    RunContinues(db, files, allowSuffix, |ops|, again);
    StoppedRest(db, files, |ops|);
    var after := ExecAll(db, ops);
    assert Ops(after.history, files) == [];
    NothingMissing(after.history, files);
    NoGaps(after.history, files);
    HealthyParts(db, files, allowSuffix, |ops|);
    hide Healthy, Run, HasRecord, LacksChecksum, Exec, Acceptable, Ops;
    forall f | f in files ensures Record(f.name, Some(f.checksum)) in after.history {
      RecordedExactly(files, after.history, allowSuffix, f);
    }
  }

  /** A file that is recorded with some checksum is recorded with its own. */
  lemma RecordedExactly(files: seq<File>, history: seq<Record>, allowSuffix: bool, f: File)
    requires SortedFiles(files) && Acceptable(files, history, allowSuffix) && f in files
    requires HasRecord(history, f.name) && !LacksChecksum(history, f.name)
    ensures Record(f.name, Some(f.checksum)) in history
  {
    var i :| 0 <= i < |history| && history[i].name == f.name;
    assert RecordOk(files, history, i, allowSuffix) && history[i] in history;
    var j :| 0 <= j < |files| && files[j] == f;
    assert HasFile(files, f.name);
    assert history[i].checksum.Some?;
    assert FindFile(files, f.name) == Some(f);
  }

  // ---------------------------------------------------------------- an older release on a newer database

  /** With a permitted suffix nothing is missing. */
  lemma {:induction false} SuffixAppliesNothing(history: seq<Record>, files: seq<File>)
    requires StartsWith(history, files)
    ensures ApplyOps(history, files) == []
  {
    if files != [] {
      var n := |files| - 1;
      assert history[n].name == files[n].name;
      SuffixAppliesNothing(history, files[..n]);
    }
  }

  lemma {:induction false} BackfillKeepsNames(db: Db, ops: seq<Op>)
    requires forall op :: op in ops ==> op.Backfill?
    ensures
      var after := ExecAll(db, ops);
      && after.effects == db.effects && |after.history| == |db.history|
      && (forall i :: 0 <= i < |db.history| ==> after.history[i].name == db.history[i].name)
      && (forall i :: 0 <= i < |db.history| && db.history[i].checksum.Some? ==> after.history[i] == db.history[i])
  {
    if ops != [] {
      var n := |ops| - 1;
      BackfillKeepsNames(db, ops[..n]);
      assert ops[n] in ops && forall op :: op in ops[..n] ==> op in ops;
    }
  }

  /**
   An older release on a newer database runs no script and keeps every recorded name and checksum;
   it leaves the history untouched exactly when no file it knows lacks its recorded checksum.
   */
  lemma OlderReleaseChangesNothing(db: Db, files: seq<File>, budget: nat)
    requires SortedFiles(files) && Healthy(db, files, true) && |db.history| > |files|
    requires budget >= |Ops(db.history, files)|
    ensures
      var after := Run(db, files, true, budget).0;
      && after.effects == db.effects && |after.history| == |db.history|
      && (forall i :: 0 <= i < |db.history| ==> after.history[i].name == db.history[i].name)
      && (after == db <==> forall f :: f in files ==> !LacksChecksum(db.history, f.name))
  {
    SuffixAppliesNothing(db.history, files);
    OpsFiles(db.history, files);
    var ops := Ops(db.history, files);
    assert ops == BackfillOps(db.history, files);
    BackfillKeepsNames(db, ops);
    assert SortedHistory(db.history);
    StoppedRest(db, files, |ops|);
    assert ops[..|ops|] == ops;
    if ops == [] { NoGaps(db.history, files); }
    hide LacksChecksum, HasRecord, Exec;
    if ops != [] {
      assert ops[0] in ops && LacksChecksum(db.history, ops[0].file.name);
    }
  }

  // ---------------------------------------------------------------- the script

  class Database {
    var history: seq<Record>
    var effects: seq<Name>

    constructor ()
      ensures View() == Db([], [])
    {
      history, effects := [], [];
    }

    function View(): Db
      reads this
    {
      Db(history, effects)
    }

    /** The statement that fills one missing checksum. */
    method FillChecksum(f: File)
      modifies this`history
      ensures View() == Exec(old(View()), Backfill(f))
    {
      history := Fill(history, f);
    }

    /** One transaction: the script and its record, or neither. */
    method ApplyFile(f: File)
      modifies this
      ensures View() == Exec(old(View()), Apply(f))
    {
      effects := effects + [f.name];
      history := Insert(history, Record(f.name, Some(f.checksum)));
    }

    /** Fill what is missing for the first n files, as far as the budget goes. */
    method FillMissing(files: seq<File>, applied: seq<Record>, budget: nat) returns (left: nat, stopped: bool)
      requires applied == history
      modifies this`history
      ensures
        var ops := BackfillOps(applied, files);
        && View() == ExecAll(old(View()), ops[..Min(budget, |ops|)])
        && stopped == (budget < |ops|) && (!stopped ==> left == budget - |ops|)
    {
      left := budget;
      ghost var k := 0;
      assert BackfillOps(applied, [])[..0] == [];
      for i := 0 to |files|
        invariant k == |BackfillOps(applied, files[..i])| && left == budget - k
        invariant View() == ExecAll(old(View()), BackfillOps(applied, files[..i]))
      {
        assert files[..i + 1][..i] == files[..i];
        if LacksChecksum(applied, files[i].name) {
          if left == 0 {
            BackfillPrefix(applied, files, i + 1);
            assert BackfillOps(applied, files)[..k] == BackfillOps(applied, files[..i]);
            return left, true;
          }
          ghost var before := BackfillOps(applied, files[..i]);
          assert BackfillOps(applied, files[..i + 1]) == before + [Backfill(files[i])];
          ExecAllAppend(old(View()), before, Backfill(files[i]));
          FillChecksum(files[i]);
          left := left - 1;
          k := k + 1;
        } else {
          assert BackfillOps(applied, files[..i + 1]) == BackfillOps(applied, files[..i]);
        }
      }
      assert files[..|files|] == files;
      assert BackfillOps(applied, files)[..k] == BackfillOps(applied, files);
      stopped := false;
    }

    /** Apply the files that were not recorded at the start, as far as the budget goes. */
    method ApplyMissing(files: seq<File>, applied: seq<Record>, budget: nat) returns (stopped: bool)
      modifies this
      ensures
        var ops := ApplyOps(applied, files);
        && View() == ExecAll(old(View()), ops[..Min(budget, |ops|)]) && stopped == (budget < |ops|)
    {
      var left := budget;
      ghost var k := 0;
      for i := 0 to |files|
        invariant k == |ApplyOps(applied, files[..i])| && left == budget - k
        invariant View() == ExecAll(old(View()), ApplyOps(applied, files[..i]))
      {
        assert files[..i + 1][..i] == files[..i];
        if !HasRecord(applied, files[i].name) {
          if left == 0 {
            ApplyPrefix(applied, files, i + 1);
            assert ApplyOps(applied, files)[..k] == ApplyOps(applied, files[..i]);
            return true;
          }
          ghost var before := ApplyOps(applied, files[..i]);
          assert ApplyOps(applied, files[..i + 1]) == before + [Apply(files[i])];
          ExecAllAppend(old(View()), before, Apply(files[i]));
          ApplyFile(files[i]);
          left := left - 1;
          k := k + 1;
        } else {
          assert ApplyOps(applied, files[..i + 1]) == ApplyOps(applied, files[..i]);
        }
      }
      assert files[..|files|] == files;
      assert ApplyOps(applied, files)[..k] == ApplyOps(applied, files);
      stopped := false;
    }

    /** The whole script; `budget` says after how many transactions it is cut off. */
    method Migrate(files: seq<File>, allowSuffix: bool, budget: nat) returns (ending: Ending)
      requires SortedFiles(files) && SortedHistory(history)
      modifies this
      ensures (View(), ending) == Run(old(View()), files, allowSuffix, budget)
    {
      hide Acceptable, BackfillOps, ApplyOps;
      var applied := history;
      var backfill := Validate(files, applied, allowSuffix);
      if backfill.None? {
        return Rejected;
      }
      ghost var fills, applies := BackfillOps(applied, files), ApplyOps(applied, files);
      ghost var ops := fills + applies;
      var left, stopped := FillMissing(files, applied, budget);
      if stopped {
        assert ops[..budget] == fills[..budget];
        return Stopped;
      }
      assert fills[..|fills|] == fills;
      stopped := ApplyMissing(files, applied, left);
      ghost var m := Min(left, |applies|);
      ExecAllJoin(old(View()), fills, applies[..m]);
      assert fills + applies[..m] == ops[..|fills| + m] && ops[..|ops|] == ops;
      return if stopped then Stopped else Completed;
    }
  }

  lemma {:induction false} BackfillPrefix(history: seq<Record>, files: seq<File>, n: nat)
    requires n <= |files|
    ensures BackfillOps(history, files[..n]) <= BackfillOps(history, files)
  {
    if n < |files| {
      hide LacksChecksum;
      assert files[..|files| - 1][..n] == files[..n];
      BackfillPrefix(history, files[..|files| - 1], n);
    } else {
      assert files[..n] == files;
    }
  }

  lemma {:induction false} ApplyPrefix(history: seq<Record>, files: seq<File>, n: nat)
    requires n <= |files|
    ensures ApplyOps(history, files[..n]) <= ApplyOps(history, files)
  {
    if n < |files| {
      hide HasRecord;
      assert files[..|files| - 1][..n] == files[..n];
      ApplyPrefix(history, files[..|files| - 1], n);
    } else {
      assert files[..n] == files;
    }
  }
}
