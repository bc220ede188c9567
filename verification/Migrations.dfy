/** The migration runner. Runs are serialised by the advisory lock; a run may fail before any commit.
    The digest is a parameter: some function from file contents to non-empty texts. */
module Migrations {

  type Digest = string -> string

  datatype File = File(name: string, sql: string)

  ghost predicate Usable(digest: Digest) {
    forall sql :: digest(sql) != ""
  }

  /** The recorded migrations, and the SQL that has been committed, in commit order. */
  datatype Database = Database(records: map<string, string>, committed: seq<File>)

  /** An empty checksum would read as "not applied"; none is ever recorded. */
  predicate ChecksumsPresent(d: Database) {
    forall n :: n in d.records ==> d.records[n] != ""
  }

  const EMPTY_DATABASE := Database(map[], [])

  datatype End = Current | Drifted(name: string) | Crashed

  predicate Drifts(digest: Digest, records: map<string, string>, f: File) {
    f.name in records && records[f.name] != digest(f.sql)
  }

  /** None of the first n files drifted. */
  ghost predicate Clean(digest: Digest, records: map<string, string>, files: seq<File>, n: nat)
    requires n <= |files|
  {
    forall k :: 0 <= k < n ==> !Drifts(digest, records, files[k])
  }

  /** The order of `sort` on names. */
  predicate NameBefore(a: string, b: string) {
    b != "" && (a == "" || a[0] < b[0] || (a[0] == b[0] && NameBefore(a[1..], b[1..])))
  }

  /** A sorted directory listing, so no name occurs twice. */
  ghost predicate Listing(files: seq<File>) {
    forall i, j :: 0 <= i < j < |files| ==> NameBefore(files[i].name, files[j].name)
  }

  lemma {:induction false} NotBeforeItself(a: string)
    ensures !NameBefore(a, a)
  {
    if a != "" {
      NotBeforeItself(a[1..]);
    }
  }

  lemma DifferFurther(a: string, b: string, k: nat)
    requires a != "" && b != "" && a[0] == b[0]
    ensures DifferAt(a[1..], b[1..], k) <==> DifferAt(a, b, k + 1)
  {
    if k + 1 < |a| && k + 1 < |b| {
      assert a[..k + 1] == [a[0]] + a[1..][..k] && b[..k + 1] == [b[0]] + b[1..][..k];
      assert a[..k + 1] == b[..k + 1] ==> a[1..][..k] == a[..k + 1][1..] == b[..k + 1][1..] == b[1..][..k];
    }
  }

  lemma PrefixFurther(a: string, b: string)
    requires a != "" && b != "" && a[0] == b[0]
    ensures a < b <==> a[1..] < b[1..]
  {
    assert a == [a[0]] + a[1..] && b == [b[0]] + b[1..];
  }

  /** The order is by the first character in which two names differ, a shorter name coming first. */
  lemma {:induction false} NameBeforeIff(a: string, b: string)
    ensures NameBefore(a, b) <==> a < b || exists k :: DifferAt(a, b, k) && a[k] < b[k]
  {
    if a != "" && b != "" {
      assert a[..0] == b[..0];
      if a[0] != b[0] {
        assert DifferAt(a, b, 0);
      } else {
        NameBeforeIff(a[1..], b[1..]);
        PrefixFurther(a, b);
        if k :| DifferAt(a[1..], b[1..], k) && a[1..][k] < b[1..][k] {
          DifferFurther(a, b, k);
          assert DifferAt(a, b, k + 1) && a[k + 1] < b[k + 1];
        }
        if k :| DifferAt(a, b, k) && a[k] < b[k] {
          DifferFurther(a, b, k - 1);
          assert DifferAt(a[1..], b[1..], k - 1) && a[1..][k - 1] < b[1..][k - 1];
        }
      }
    }
  }

  predicate DifferAt(a: string, b: string, k: int) {
    0 <= k < |a| && k < |b| && a[..k] == b[..k] && a[k] != b[k]
  }

  lemma NamesDiffer(files: seq<File>, i: nat, j: nat)
    requires Listing(files) && i < j < |files|
    ensures files[i].name != files[j].name
  {
    assert NameBefore(files[i].name, files[j].name);
    NotBeforeItself(files[i].name);
  }

  /** The files of a listing that are not recorded yet, in its order. */
  function Pending(records: map<string, string>, files: seq<File>): seq<File> {
    if files == [] then []
    else if files[|files| - 1].name in records then Pending(records, files[..|files| - 1])
    else Pending(records, files[..|files| - 1]) + [files[|files| - 1]]
  }

  function Commit(digest: Digest, d: Database, f: File): Database {
    Database(d.records[f.name := digest(f.sql)], d.committed + [f])
  }

  /** The database after the first n files, with the records read once at the start. */
  function Progress(digest: Digest, d: Database, files: seq<File>, n: nat): Database
    requires n <= |files|
  {
    if n == 0 then d
    else if files[n - 1].name in d.records then Progress(digest, d, files, n - 1)
    else Commit(digest, Progress(digest, d, files, n - 1), files[n - 1])
  }

  class MigrationRunner {
    var database: Database

    constructor ()
      ensures database == EMPTY_DATABASE && ChecksumsPresent(database)
    {
      database := EMPTY_DATABASE;
    }

    /** One file: nothing if it is applied, and otherwise one transaction with the SQL and its record. */
    method MigrateFile(digest: Digest, f: File, applied: map<string, string>) returns (drifted: bool)
      requires forall n :: n in applied ==> applied[n] != ""
      modifies this
      ensures drifted <==> f.name in applied && applied[f.name] != digest(f.sql)
      ensures database == if f.name in applied then old(database)
                          else Database(old(database).records[f.name := digest(f.sql)], old(database).committed + [f])
    {
      var checksum := digest(f.sql);
      var existing := if f.name in applied then applied[f.name] else "";
      if existing != "" && existing != checksum {
        return true;
      }
      if existing == "" {
        database := Database(database.records[f.name := checksum], database.committed + [f]);
      }
      return false;
    }

    /** One run. `lives` is how many files the process handles before it dies; a migration whose SQL
        fails is a death at that file.

        The run ends at the first file that drifted, at its death, or after the last file, and exactly
        the pending files before that point are committed. */
    method Migrate(digest: Digest, files: seq<File>, lives: nat) returns (end: End, reached: nat)
      requires Usable(digest) && Listing(files) && ChecksumsPresent(database)
      modifies this
      ensures ChecksumsPresent(database)
      ensures RunTo(digest, old(database), files, reached, database)
      ensures end == Current <==> reached == |files|
      ensures end.Drifted? ==>
        && reached < |files| && end.name == files[reached].name && end.name in old(database).records
        && old(database).records[end.name] != digest(files[reached].sql)
      ensures end.Crashed? ==> reached == lives
    {
      ghost var d0 := database;
      var applied := database.records;
      end, reached := Current, 0;
      while reached < |files|
        invariant reached <= |files| && applied == d0.records
        invariant database == Progress(digest, d0, files, reached)
        invariant Clean(digest, d0.records, files, reached)
        invariant end == Current
      {
        if reached == lives {
          end := Crashed;
          break;
        }
        var drifted := MigrateFile(digest, files[reached], applied);
        if drifted {
          end := Drifted(files[reached].name);
          break;
        }
        reached := reached + 1;
      }
      ProgressChecksums(digest, d0, files, reached);
    }
  }

  /** What one run may leave behind, as `Migrate` promises it: the progress up to a point before which
      no file drifted. */
  ghost predicate RunTo(digest: Digest, d: Database, files: seq<File>, reached: nat, d': Database) {
    && Listing(files) && reached <= |files|
    && d' == Progress(digest, d, files, reached) && Clean(digest, d.records, files, reached)
  }

  lemma {:induction false} ProgressChecksums(digest: Digest, d: Database, files: seq<File>, n: nat)
    requires Usable(digest) && ChecksumsPresent(d) && n <= |files|
    ensures ChecksumsPresent(Progress(digest, d, files, n))
  {
    if n > 0 {
      ProgressChecksums(digest, d, files, n - 1);
    }
  }

  /** The progress is the pending files before that point, in listing order, and nothing else. */
  lemma {:induction false} ProgressCommitsPending(digest: Digest, d: Database, files: seq<File>, n: nat)
    requires n <= |files|
    ensures Progress(digest, d, files, n).committed == d.committed + Pending(d.records, files[..n])
  {
    if n == 0 {
      assert Pending(d.records, files[..0]) == [];
    } else {
      ProgressCommitsPending(digest, d, files, n - 1);
      assert files[..n][..n - 1] == files[..n - 1];
    }
  }

  lemma {:induction false} PendingFrom(records: map<string, string>, files: seq<File>, f: File)
    requires f in Pending(records, files)
    ensures f in files && f.name !in records
  {
    if f in Pending(records, files[..|files| - 1]) {
      PendingFrom(records, files[..|files| - 1], f);
    }
  }

  /** A run commits in name order. */
  lemma {:induction false} PendingInNameOrder(records: map<string, string>, files: seq<File>)
    requires Listing(files)
    ensures Listing(Pending(records, files))
  {
    if files != [] {
      var front, pending := files[..|files| - 1], Pending(records, files[..|files| - 1]);
      PendingInNameOrder(records, front);
      forall i | 0 <= i < |pending|
        ensures NameBefore(pending[i].name, files[|files| - 1].name)
      {
        PendingFrom(records, front, pending[i]);
      }
    }
  }

  lemma {:induction false} ProgressRecords(digest: Digest, d: Database, files: seq<File>, n: nat, name: string)
    requires n <= |files|
    ensures name in d.records ==>
      name in Progress(digest, d, files, n).records && Progress(digest, d, files, n).records[name] == d.records[name]
    ensures name in Progress(digest, d, files, n).records <==>
      name in d.records || exists k :: 0 <= k < n && files[k].name == name
  {
    if n > 0 {
      ProgressRecords(digest, d, files, n - 1, name);
      if files[n - 1].name == name {
        assert exists k :: 0 <= k < n && files[k].name == name;
      }
    }
  }

  lemma {:induction false} ProgressDigest(digest: Digest, d: Database, files: seq<File>, n: nat, k: nat)
    requires Listing(files) && k < n <= |files| && !Drifts(digest, d.records, files[k])
    ensures files[k].name in Progress(digest, d, files, n).records
    ensures Progress(digest, d, files, n).records[files[k].name] == digest(files[k].sql)
  {
    if k == n - 1 {
      ProgressRecords(digest, d, files, n, files[k].name);
    } else {
      ProgressDigest(digest, d, files, n - 1, k);
      NamesDiffer(files, k, n - 1);
    }
  }

  // ---------------------------------------------------------------- many runs

  datatype History = History(states: seq<Database>, listings: seq<seq<File>>, reached: seq<nat>)

  ghost predicate RunAt(digest: Digest, h: History, i: nat)
    requires |h.states| == |h.listings| + 1 && |h.reached| == |h.listings| && i < |h.listings|
  {
    RunTo(digest, h.states[i], h.listings[i], h.reached[i], h.states[i + 1])
  }

  ghost predicate ValidHistory(digest: Digest, h: History) {
    && |h.states| == |h.listings| + 1 && |h.reached| == |h.listings|
    && h.states[0] == EMPTY_DATABASE
    && forall i :: 0 <= i < |h.listings| ==> RunAt(digest, h, i)
  }

  predicate WithRecord(digest: Digest, d: Database, f: File) {
    f.name in d.records && d.records[f.name] == digest(f.sql)
  }

  ghost predicate Committed(d: Database, name: string) {
    exists k :: 0 <= k < |d.committed| && d.committed[k].name == name
  }

  /** Committed SQL and records agree, and no file was committed twice. */
  ghost predicate ExactlyOnce(digest: Digest, d: Database) {
    && (forall n :: n in d.records ==> Committed(d, n))
    && (forall k :: 0 <= k < |d.committed| ==> WithRecord(digest, d, d.committed[k]))
    && (forall j, k :: 0 <= j < k < |d.committed| ==> d.committed[j].name != d.committed[k].name)
  }

  lemma CommitKeepsOnce(digest: Digest, d: Database, f: File)
    requires ExactlyOnce(digest, d) && f.name !in d.records
    ensures ExactlyOnce(digest, Commit(digest, d, f))
  {
    var d' := Commit(digest, d, f);
    forall k | 0 <= k < |d'.committed|
      ensures WithRecord(digest, d', d'.committed[k])
      ensures k < |d.committed| ==> d'.committed[k].name != f.name
    {
      assert k < |d.committed| ==> WithRecord(digest, d, d.committed[k]);
    }
    forall n | n in d'.records
      ensures Committed(d', n)
    {
      if n == f.name {
        assert d'.committed[|d.committed|].name == n;
      } else {
        var k :| 0 <= k < |d.committed| && d.committed[k].name == n;
        assert d'.committed[k].name == n;
      }
    }
  }

  lemma NotRecordedYet(digest: Digest, d: Database, files: seq<File>, n: nat)
    requires Listing(files) && n < |files| && files[n].name !in d.records
    ensures files[n].name !in Progress(digest, d, files, n).records
  {
    ProgressRecords(digest, d, files, n, files[n].name);
    forall k: nat | k < n
      ensures files[k].name != files[n].name
    {
      NamesDiffer(files, k, n);
    }
  }

  lemma {:induction false} RunKeepsOnce(digest: Digest, d: Database, files: seq<File>, n: nat)
    requires ExactlyOnce(digest, d) && Listing(files) && n <= |files|
    ensures ExactlyOnce(digest, Progress(digest, d, files, n))
  {
    if n > 0 {
      RunKeepsOnce(digest, d, files, n - 1);
      if files[n - 1].name !in d.records {
        NotRecordedYet(digest, d, files, n - 1);
        CommitKeepsOnce(digest, Progress(digest, d, files, n - 1), files[n - 1]);
      }
    }
  }

  /** Over any number of runs, with any listings and any failures, each file's SQL is committed at most
      once, together with its record and never without it, and nothing committed is undone. */
  lemma {:induction false} MigrationsRunOnce(digest: Digest, h: History, i: nat)
    requires ValidHistory(digest, h) && i < |h.states|
    ensures ExactlyOnce(digest, h.states[i])
    ensures i > 0 ==> h.states[i - 1].committed <= h.states[i].committed
  {
    if i > 0 {
      MigrationsRunOnce(digest, h, i - 1);
      assert RunAt(digest, h, i - 1);
      RunKeepsOnce(digest, h.states[i - 1], h.listings[i - 1], h.reached[i - 1]);
      ProgressCommitsPending(digest, h.states[i - 1], h.listings[i - 1], h.reached[i - 1]);
    }
  }

  lemma {:induction false} NothingPending(digest: Digest, d: Database, files: seq<File>, n: nat)
    requires n <= |files| && forall k :: 0 <= k < |files| ==> files[k].name in d.records
    ensures Progress(digest, d, files, n) == d
  {
    if n > 0 {
      NothingPending(digest, d, files, n - 1);
    }
  }

  /** After a run that reached the end of its listing, another run of the same listing, however far it
      gets, meets no drift and commits nothing. */
  lemma SecondRunIsIdle(digest: Digest, d: Database, files: seq<File>, d': Database, n: nat, d'': Database)
    requires RunTo(digest, d, files, |files|, d') && RunTo(digest, d', files, n, d'')
    ensures d'' == d'
    ensures forall k :: 0 <= k < |files| ==> !Drifts(digest, d'.records, files[k])
  {
    forall k | 0 <= k < |files|
      ensures files[k].name in d'.records && !Drifts(digest, d'.records, files[k])
    {
      ProgressDigest(digest, d, files, |files|, k);
    }
    NothingPending(digest, d', files, n);
  }
}
