/** FileContentStore: the JSONL logs and object files that database rows point into.  They are written
    before the transaction that references them commits, so files may hold what no row ever mentions:
    records of transactions that rolled back, and the torn tail of a write that crashed. */
module ContentLog {
  import opened Outcomes
  import opened FileNames
  import opened Utf8
  import opened RunTables

  const NEWLINE: Byte := 10

  /** Log files of one directory, and object files; their names never clash. */
  datatype Path = LogFile(dir: string, name: string) | ObjectFile(path: string)

  type Disk = map<Path, Bytes>

  /** Location of one record: what a run_events row stores. */
  datatype Ref = Ref(path: Path, offset: nat, bytes: nat)

  // ----- append_record -----

  /** glob("content-*.jsonl") */
  function Names(disk: Disk, dir: string): set<string> {
    set p | p in disk && p.LogFile? && p.dir == dir :: p.name
  }

  predicate IsLast(names: set<string>, name: string) {
    name in names && forall o :: o in names ==> o == name || Before(o, name)
  }

  lemma {:induction false} LastExists(names: set<string>)
    requires names != {}
    ensures exists name :: IsLast(names, name)
    decreases names
  {
    var x :| x in names;
    var rest := names - {x};
    if rest == {} {
      forall o | o in names ensures o == x { assert o !in rest; }
      assert IsLast(names, x);
    } else {
      LastExists(rest);
      var y :| IsLast(rest, y);
      OrderIsTotal(x, y);
      var last := if Before(x, y) then y else x;
      forall o | o in names ensures o == last || Before(o, last) {
        assert o == x || o in rest;
        if o != last && last == x && o != y { OrderIsTransitive(o, y, x); }
      }
      assert IsLast(names, last);
    }
  }

  lemma LastIsUnique(names: set<string>, a: string, b: string)
    requires IsLast(names, a) && IsLast(names, b)
    ensures a == b
  {
    OrderIsTotal(a, b);
  }

  /** sorted(...)[-1] */
  ghost function Last(names: set<string>): (name: string)
    requires names != {}
    ensures IsLast(names, name)
  {
    LastExists(names);
    var name :| IsLast(names, name);
    name
  }

  /** _next_file: the last file, or a new one when the record does not fit into it any more. */
  ghost function NextFile(disk: Disk, limit: nat, dir: string, incoming: nat): (path: Path)
    ensures path.LogFile? && path.dir == dir
  {
    var names := Names(disk, dir);
    if names == {} then LogFile(dir, FileName(1))
    else
      var candidate := LogFile(dir, Last(names));
      if |disk[candidate]| > 0 && |disk[candidate]| + incoming > limit then LogFile(dir, FileName(|names| + 1))
      else candidate
  }

  function Content(disk: Disk, path: Path): Bytes {
    if path in disk then disk[path] else []
  }

  function Line(text: Bytes): Bytes { text + [NEWLINE] }

  /** Where a record goes, and the disk once `written` of its bytes are there. */
  ghost function Place(disk: Disk, limit: nat, dir: string, text: Bytes): Ref {
    var path := NextFile(disk, limit, dir, |Line(text)|);
    Ref(path, |Content(disk, path)|, |Line(text)|)
  }

  function Extend(disk: Disk, path: Path, bytes: Bytes): Disk {
    disk[path := Content(disk, path) + bytes]
  }

  // ----- read_record, read_verified -----

  /** The record at a location, or None where there is none. */
  function ReadRecord(disk: Disk, ref: Ref): Option<Bytes> {
    if ref.path !in disk || |disk[ref.path]| < ref.offset + ref.bytes || ref.bytes == 0 then None
    else
      var raw := disk[ref.path][ref.offset..ref.offset + ref.bytes];
      if raw[|raw| - 1] == NEWLINE then Some(raw[..|raw| - 1]) else None
  }

  function ReadVerified(digest: Bytes -> Id, disk: Disk, ref: Ref, expected: Option<Id>): Option<Bytes> {
    var text := ReadRecord(disk, ref);
    if text.Some? && (expected.None? || digest(text.value) == expected.value) then text else None
  }

  // ----- write_object -----

  /** An object file that exists is kept. */
  function WriteObject(disk: Disk, path: string, payload: Bytes): Disk {
    if ObjectFile(path) in disk then disk else disk[ObjectFile(path) := payload]
  }

  class FileContentStore {
    const maxFileBytes: nat
    var files: Disk

    constructor (limit: nat)
      ensures maxFileBytes == limit && files == map[]
    {
      maxFileBytes := limit;
      files := map[];
    }

    method NextPath(dir: string, incoming: nat) returns (path: Path)
      ensures path == NextFile(files, maxFileBytes, dir, incoming)
    {
      var names := Names(files, dir);
      if names == {} { return LogFile(dir, FileName(1)); }
      LastExists(names);
      var name :| name in names && forall o :: o in names ==> o == name || Before(o, name);
      LastIsUnique(names, name, Last(names));
      var candidate := LogFile(dir, name);
      if |files[candidate]| > 0 && |files[candidate]| + incoming > maxFileBytes {
        return LogFile(dir, FileName(|names| + 1));
      }
      return candidate;
    }

    method AppendRecord(dir: string, text: Bytes) returns (ref: Ref)
      modifies this
      ensures ref == Place(old(files), maxFileBytes, dir, text)
      ensures files == Extend(old(files), ref.path, Line(text))
      ensures ReadRecord(files, ref) == Some(text)
      ensures Grown(old(files), files)
    {
      hide NextFile;
      var encoded := Line(text);
      var target := NextPath(dir, |encoded|);
      var offset := if target in files then |files[target]| else 0;
      files := files[target := (if target in files then files[target] else []) + encoded];
      ref := Ref(target, offset, |encoded|);
      JustWritten(old(files), target, text);
    }

    method PutObject(path: string, payload: Bytes)
      modifies this
      ensures files == WriteObject(old(files), path, payload)
      ensures Grown(old(files), files)
    {
      if ObjectFile(path) !in files {
        files := files[ObjectFile(path) := payload];
      }
    }
  }

  // ----- Histories -----

  /** One write of some transaction, whether it commits later or not; a torn line is what a crash in
      the middle of an append leaves. */
  datatype Write =
    | Append(dir: string, text: Bytes)
    | Torn(dir: string, text: Bytes, cut: nat)
    | Put(path: string, payload: Bytes)

  /** The bytes that an append leaves. */
  function Left(w: Write): Bytes
    requires !w.Put?
  {
    if w.Torn? && w.cut < |Line(w.text)| then Line(w.text)[..w.cut] else Line(w.text)
  }

  ghost function Apply(disk: Disk, limit: nat, w: Write): Disk {
    match w
    case Put(path, payload) => WriteObject(disk, path, payload)
    case _ => Extend(disk, Place(disk, limit, w.dir, w.text).path, Left(w))
  }

  ghost function Written(writes: seq<Write>, limit: nat): Disk {
    if writes == [] then map[]
    else Apply(Written(writes[..|writes| - 1], limit), limit, writes[|writes| - 1])
  }

  /** Log files only grow at the end; objects never change. */
  predicate Grown(before: Disk, disk: Disk) {
    forall p :: p in before ==> p in disk && before[p] <= disk[p] && (p.ObjectFile? ==> disk[p] == before[p])
  }

  lemma ApplyGrows(disk: Disk, limit: nat, w: Write)
    ensures Grown(disk, Apply(disk, limit, w))
  {
  }

  lemma {:induction false} HistoryGrows(writes: seq<Write>, limit: nat, n: nat)
    requires n <= |writes|
    ensures Grown(Written(writes[..n], limit), Written(writes, limit))
  {
    if n == |writes| {
      assert writes[..n] == writes;
    } else {
      var init := writes[..|writes| - 1];
      assert init[..n] == writes[..n];
      HistoryGrows(init, limit, n);
      ApplyGrows(Written(init, limit), limit, writes[|writes| - 1]);
    }
  }

  lemma JustWritten(disk: Disk, path: Path, text: Bytes)
    ensures ReadRecord(Extend(disk, path, Line(text)), Ref(path, |Content(disk, path)|, |Line(text)|)) == Some(text)
  {
    var before, d := Content(disk, path), Extend(disk, path, Line(text));
    assert d[path][|before|..|before| + |Line(text)|] == Line(text);
    assert Line(text)[..|text|] == text;
  }

  lemma ReadsOn(before: Disk, disk: Disk, ref: Ref)
    requires Grown(before, disk) && ReadRecord(before, ref).Some?
    ensures ReadRecord(disk, ref) == ReadRecord(before, ref)
  {
    assert before[ref.path][ref.offset..ref.offset + ref.bytes] == disk[ref.path][ref.offset..ref.offset + ref.bytes];
  }

  /** Whatever was written before and after it, by transactions that committed, rolled back or crashed,
      a record that was appended whole reads back from the location it was given, and its digest is
      the one that was stored with it. */
  lemma RecordsReadBack(digest: Bytes -> Id, writes: seq<Write>, limit: nat, i: nat)
    requires i < |writes| && writes[i].Append?
    ensures var ref, text := Place(Written(writes[..i], limit), limit, writes[i].dir, writes[i].text), writes[i].text;
      ReadVerified(digest, Written(writes, limit), ref, Some(digest(text))) == Some(text)
  {
    hide NextFile;
    var disk := Written(writes[..i], limit);
    var ref := Place(disk, limit, writes[i].dir, writes[i].text);
    assert writes[..i + 1][..i] == writes[..i];
    assert Written(writes[..i + 1], limit) == Extend(disk, ref.path, Line(writes[i].text));
    JustWritten(disk, ref.path, writes[i].text);
    HistoryGrows(writes, limit, i + 1);
    hide Written, Grown, ReadRecord, Extend;
    ReadsOn(Written(writes[..i + 1], limit), Written(writes, limit), ref);
  }

  /** Whatever has become of the files: what reads back verified has the digest of the row, so it is what was
      written, if no other text has that digest. */
  lemma VerifiedIsWritten(digest: Bytes -> Id, disk: Disk, ref: Ref, text: Bytes)
    requires forall other :: digest(other) == digest(text) ==> other == text
    ensures var read := ReadVerified(digest, disk, ref, Some(digest(text)));
      read == None || read == Some(text)
    ensures ReadVerified(digest, disk, ref, Some(digest(text))).Some? <==> ReadRecord(disk, ref) == Some(text)
  {
    hide ReadRecord;
  }

  // ----- Rotation -----

  /** The files of every directory are named exactly 1, 2, ..., n. */
  ghost predicate NamedInOrder(disk: Disk, dir: string, n: nat) {
    forall name :: name in Names(disk, dir) <==> exists k :: 1 <= k <= n && name == FileName(k)
  }

  lemma {:induction false} NumberOfNames(names: set<string>, n: nat)
    requires forall name :: name in names <==> exists k :: 1 <= k <= n && name == FileName(k)
    ensures |names| == n
  {
    if n == 0 {
      assert names == {};
    } else {
      var rest := names - {FileName(n)};
      assert FileName(n) in names;
      forall name ensures name in rest <==> exists k :: 1 <= k <= n - 1 && name == FileName(k) {
        if k :| 1 <= k <= n && name == FileName(k) {
          if k == n { assert name !in rest; }
        }
        if k :| 1 <= k <= n - 1 && name == FileName(k) {
          if FileName(k) == FileName(n) { FileNameInjective(k, n); }
        }
      }
      NumberOfNames(rest, n - 1);
    }
  }

  lemma CountNames(disk: Disk, dir: string, n: nat)
    requires NamedInOrder(disk, dir, n)
    ensures |Names(disk, dir)| == n
  {
    NumberOfNames(Names(disk, dir), n);
  }

  /** An append either goes to a file that exists or starts the next one. */
  lemma NextFileIsNextInOrder(disk: Disk, limit: nat, dir: string, incoming: nat, n: nat)
    requires NamedInOrder(disk, dir, n)
    ensures var path := NextFile(disk, limit, dir, incoming);
      path.LogFile? && path.dir == dir && (path in disk || path.name == FileName(n + 1))
    ensures var path := NextFile(disk, limit, dir, incoming);
      path in disk && path.name != FileName(n + 1) ==> disk[path] == [] || |disk[path]| + incoming <= limit
  {
    hide NamedInOrder, FileName;
    CountNames(disk, dir, n);
    if Names(disk, dir) != {} { assert LogFile(dir, Last(Names(disk, dir))) in disk; }
  }

  lemma NextNameIsFree(disk: Disk, dir: string, n: nat)
    requires NamedInOrder(disk, dir, n)
    ensures LogFile(dir, FileName(n + 1)) !in disk
  {
    if LogFile(dir, FileName(n + 1)) in disk {
      assert FileName(n + 1) in Names(disk, dir);
      var k :| 1 <= k <= n && FileName(n + 1) == FileName(k);
      FileNameInjective(n + 1, k);
    }
  }

  /** An append fills a file within the limit, or is alone in its file. */
  lemma AppendWithinLimit(disk: Disk, limit: nat, dir: string, incoming: nat, n: nat)
    requires NamedInOrder(disk, dir, n)
    ensures var before := Content(disk, NextFile(disk, limit, dir, incoming));
      before == [] || |before| + incoming <= limit
  {
    hide NamedInOrder, FileName;
    NextFileIsNextInOrder(disk, limit, dir, incoming, n);
    NextNameIsFree(disk, dir, n);
  }

  lemma ExtendKeepsOrder(disk: Disk, path: Path, bytes: Bytes, dir: string, n: nat)
    requires NamedInOrder(disk, dir, n)
    requires path.LogFile? && (path.dir == dir ==> path in disk || path.name == FileName(n + 1))
    ensures NamedInOrder(Extend(disk, path, bytes), dir, n) || NamedInOrder(Extend(disk, path, bytes), dir, n + 1)
  {
    var d := Extend(disk, path, bytes);
    forall name ensures name in Names(d, dir) <==> name in Names(disk, dir) || (path.dir == dir && name == path.name) {
      assert name in Names(d, dir) <==> LogFile(dir, name) in d;
      assert name in Names(disk, dir) <==> LogFile(dir, name) in disk;
    }
    if path in disk || path.dir != dir {
      assert path.dir == dir ==> path.name in Names(disk, dir);
      assert NamedInOrder(d, dir, n);
    } else {
      assert NamedInOrder(d, dir, n + 1);
    }
  }

  lemma PutKeepsOrder(disk: Disk, path: string, payload: Bytes, dir: string, n: nat)
    requires NamedInOrder(disk, dir, n)
    ensures NamedInOrder(WriteObject(disk, path, payload), dir, n)
  {
    var d := WriteObject(disk, path, payload);
    assert Names(d, dir) == Names(disk, dir) by {
      forall name ensures name in Names(d, dir) <==> name in Names(disk, dir) {
        assert name in Names(d, dir) <==> LogFile(dir, name) in d;
        assert name in Names(disk, dir) <==> LogFile(dir, name) in disk;
      }
    }
  }

  /** After any history, the log files of a directory are named exactly 1, 2, ..., n. */
  lemma {:induction false} LogFilesInOrder(writes: seq<Write>, limit: nat, dir: string) returns (n: nat)
    ensures NamedInOrder(Written(writes, limit), dir, n)
    ensures n == |Names(Written(writes, limit), dir)|
  {
    if writes == [] {
      n := 0;
      assert Names(map[], dir) == {};
    } else {
      var init, w := writes[..|writes| - 1], writes[|writes| - 1];
      var disk := Written(init, limit);
      n := LogFilesInOrder(init, limit, dir);
      if w.Put? {
        PutKeepsOrder(disk, w.path, w.payload, dir, n);
      } else {
        var path := NextFile(disk, limit, w.dir, |Line(w.text)|);
        if w.dir == dir {
          NextFileIsNextInOrder(disk, limit, dir, |Line(w.text)|, n);
        } else {
          var m := LogFilesInOrder(init, limit, w.dir);
          NextFileIsNextInOrder(disk, limit, w.dir, |Line(w.text)|, m);
        }
        ExtendKeepsOrder(disk, path, Left(w), dir, n);
        if !NamedInOrder(Written(writes, limit), dir, n) { n := n + 1; }
      }
      NumberOfNames(Names(Written(writes, limit), dir), n);
    }
  }

  /** A file that holds nothing but one write. */
  ghost predicate OneWrite(writes: seq<Write>, dir: string, bytes: Bytes) {
    exists i :: 0 <= i < |writes| && !writes[i].Put? && writes[i].dir == dir && bytes == Left(writes[i])
  }

  /** After any history, every log file is within max_file_bytes, or holds a single record. */
  lemma {:induction false} FilesWithinLimit(writes: seq<Write>, limit: nat, p: Path)
    requires p in Written(writes, limit) && p.LogFile?
    ensures |Written(writes, limit)[p]| <= limit || OneWrite(writes, p.dir, Written(writes, limit)[p])
  {
    if writes != [] {
      var init, w := writes[..|writes| - 1], writes[|writes| - 1];
      var before := Written(init, limit);
      assert Written(writes, limit) == Apply(before, limit, w);
      hide NextFile, OneWrite, Left, Written, Apply, Content, Line;
      ApplyAt(before, limit, w, p);
      if !w.Put? && p == NextFile(before, limit, w.dir, |Line(w.text)|) {
        AppendedWithinLimit(writes, limit, p);
      } else {
        FilesWithinLimit(init, limit, p);
        if OneWrite(init, p.dir, before[p]) { OneWriteKept(writes, p.dir, before[p]); }
      }
    }
  }

  lemma AppendedWithinLimit(writes: seq<Write>, limit: nat, p: Path)
    requires writes != [] && !writes[|writes| - 1].Put?
    requires var init, w := writes[..|writes| - 1], writes[|writes| - 1];
      p == NextFile(Written(init, limit), limit, w.dir, |Line(w.text)|)
    ensures p.LogFile?
    ensures var bytes := Content(Written(writes[..|writes| - 1], limit), p) + Left(writes[|writes| - 1]);
      |bytes| <= limit || OneWrite(writes, p.dir, bytes)
  {
    hide NextFile, Names, NamedInOrder, OneWrite, Left, Written, Content, Line;
    var init, w := writes[..|writes| - 1], writes[|writes| - 1];
    var before := Written(init, limit);
    var n := LogFilesInOrder(init, limit, w.dir);
    AppendWithinLimit(before, limit, w.dir, |Line(w.text)|, n);
    NextFileIsNextInOrder(before, limit, w.dir, |Line(w.text)|, n);
    LastWrite(writes, limit, p, before);
  }

  /** What one write does to one log file. */
  lemma ApplyAt(disk: Disk, limit: nat, w: Write, p: Path)
    requires p.LogFile? && p in Apply(disk, limit, w)
    ensures if !w.Put? && p == NextFile(disk, limit, w.dir, |Line(w.text)|) then
              Apply(disk, limit, w)[p] == Content(disk, p) + Left(w)
            else p in disk && Apply(disk, limit, w)[p] == disk[p]
  {
  }

  lemma OneWriteKept(writes: seq<Write>, dir: string, bytes: Bytes)
    requires writes != [] && OneWrite(writes[..|writes| - 1], dir, bytes)
    ensures OneWrite(writes, dir, bytes)
  {
    hide Left;
    var init := writes[..|writes| - 1];
    var i :| 0 <= i < |init| && !init[i].Put? && init[i].dir == dir && bytes == Left(init[i]);
    assert writes[i] == init[i];
  }

  lemma LastWrite(writes: seq<Write>, limit: nat, p: Path, before: Disk)
    requires writes != [] && p.LogFile?
    requires var w := writes[|writes| - 1];
      && !w.Put? && p.dir == w.dir
      && (Content(before, p) == [] || |Content(before, p)| + |Line(w.text)| <= limit)
    ensures var bytes := Content(before, p) + Left(writes[|writes| - 1]);
      |bytes| <= limit || OneWrite(writes, p.dir, bytes)
  {
    hide Content;
    var left := Left(writes[|writes| - 1]);
    if Content(before, p) == [] { assert Content(before, p) + left == left; }
  }

  /** The candidate is the file started last exactly while there are at most 999999 files, or the number
      of files has only nines before its last digit; otherwise an older file stays the candidate. */
  lemma CandidateIsNewest(disk: Disk, dir: string, n: nat)
    requires NamedInOrder(disk, dir, n) && n >= 1
    ensures Names(disk, dir) != {}
    ensures Last(Names(disk, dir)) == FileName(n) <==> n <= 999_999 || NinesButLast(Padded(n, 6))
  {
    var names := Names(disk, dir);
    assert FileName(n) in names;
    hide FileName, Before, NinesButLast;
    if n <= 999_999 || NinesButLast(Padded(n, 6)) {
      forall o | o in names ensures o == FileName(n) || Before(o, FileName(n)) {
        var k :| 1 <= k <= n && o == FileName(k);
        if k < n { NinesSortAfterAll(k, n); }
      }
      LastIsUnique(names, Last(names), FileName(n));
    } else {
      OthersSortBeforeRival(n);
      assert FileName(Rival(n)) in names;
      OrderIsTotal(FileName(n), FileName(Rival(n)));
    }
  }

  /** Where a record goes, with at most 999999 files: into the newest, unless that is not empty and the record
      would exceed the limit; then, or when there is none, a new file is started. */
  lemma RecordGoesTo(disk: Disk, limit: nat, dir: string, incoming: nat, n: nat)
    requires NamedInOrder(disk, dir, n) && n <= 999_999
    ensures var path, newest := NextFile(disk, limit, dir, incoming), LogFile(dir, FileName(n));
      if n == 0 then path == LogFile(dir, FileName(1))
      else
        && newest in disk
        && path == if disk[newest] != [] && |disk[newest]| + incoming > limit then LogFile(dir, FileName(n + 1)) else newest
  {
    hide FileName, Before;
    CountNames(disk, dir, n);
    if n > 0 {
      CandidateIsNewest(disk, dir, n);
      assert FileName(n) in Names(disk, dir);
    }
  }

  // ----- Objects -----

  /** An object written in the course of a history reads back as what this write was given if and only
      if, when it was written, the path was free or already held the same payload.  What wrote the
      path before need not have committed. */
  lemma ObjectReadsBack(writes: seq<Write>, limit: nat, i: nat)
    requires i < |writes| && writes[i].Put?
    ensures var p, before := ObjectFile(writes[i].path), Written(writes[..i], limit);
      && p in Written(writes, limit)
      && (Written(writes, limit)[p] == writes[i].payload <==> p !in before || before[p] == writes[i].payload)
  {
    assert writes[..i + 1][..i] == writes[..i];
    HistoryGrows(writes, limit, i + 1);
  }

  /** The file that respond_to_run writes, before it looks at the state version. */
  function AnswerWrites(disk: Disk, db: Db, y: Reply, path: string, payload: Bytes): Disk {
    if HasPending(db, y.scope, y.run, y.pending) && !db.pendings[y.pending].resolved then
      WriteObject(disk, path, payload)
    else disk
  }

  /** A refused answer decides what is read: when a first answer fails the version check and a second
      one is accepted, the row carries the second digest and the file the first text. */
  lemma RefusedAnswerIsRead(db: Db, disk: Disk, first: Reply, second: Reply, path: string, a: Bytes, b: Bytes, id: Id)
    requires HasPending(db, first.scope, first.run, first.pending) && Rooted(db, first.run)
    requires !db.pendings[first.pending].resolved && ObjectFile(path) !in disk
    requires first.expected != db.runs[first.run].version
    requires second == first.(key := second.key, digest := second.digest, expected := second.expected)
    requires Respond(db, second, id).Ok?
    ensures Respond(db, first, id).Err?
    ensures Respond(db, second, id).value.pendings[first.pending].digest == Some(second.digest)
    ensures AnswerWrites(AnswerWrites(disk, db, first, path, a), db, second, path, b)[ObjectFile(path)] == a
  {
  }
}
