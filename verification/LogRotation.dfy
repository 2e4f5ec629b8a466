/** Opening the log file with size-based rotation: path.2 becomes path.3, path.1 becomes path.2, path becomes path.1. */
module LogRotation {
  import opened Common

  const MAX_LOG_FILE_BYTES: nat := 50 * 1024 * 1024
  const MAX_LOG_BACKUPS: nat := 3

  /** Log(0) is the active log, Log(n) its backup path.n. */
  datatype Path = Log(n: nat) | Other(name: string)

  type Files = map<Path, seq<bv8>>

  /** A file operation that fails for another reason than a missing file. */
  datatype Fault = StatFails | RemoveFails | RenameFails(src: nat) | OpenFails

  function Lookup(files: Files, p: Path): Option<seq<bv8>> {
    if p in files then Some(files[p]) else None
  }

  /** What path p holds once the oldest backup is gone and the logs from number cut on have moved up by one. */
  function Shifted(files: Files, cut: nat, p: Path): Option<seq<bv8>> {
    match p
    case Other(_) => Lookup(files, p)
    case Log(n) =>
      if n < cut || n > MAX_LOG_BACKUPS then Lookup(files, p)
      else if n == cut then None
      else Lookup(files, Log(n - 1))
  }

  ghost predicate IsShift(before: Files, after: Files, cut: nat) {
    forall p :: Lookup(after, p) == Shifted(before, cut, p)
  }

  predicate NeedsRotation(files: Files) {
    Log(0) in files && |files[Log(0)]| >= MAX_LOG_FILE_BYTES
  }

  /** A fault cuts the rotation short; nothing but the oldest backup is lost, and nothing else moves or changes. */
  lemma OnlyTheOldestIsLost(before: Files, after: Files, cut: nat, p: Path)
    requires IsShift(before, after, cut) && cut <= MAX_LOG_BACKUPS && p in before && p != Log(MAX_LOG_BACKUPS)
    ensures exists q :: q in after && after[q] == before[p] && (q == p || (p.Log? && q == Log(p.n + 1)))
  {
    var q := if p.Log? && cut <= p.n < MAX_LOG_BACKUPS then Log(p.n + 1) else p;
    assert Lookup(after, q) == Shifted(before, cut, q) == Some(before[p]);
  }

  /** A complete rotation, file by file: each backup holds what the one before it held, and everything else stays. */
  lemma EachMovesUpByOne(before: Files, after: Files)
    requires IsShift(before, after, 0)
    ensures Log(0) !in after
    ensures forall i | 1 <= i <= 3 ::
              if Log(i - 1) in before then Log(i) in after && after[Log(i)] == before[Log(i - 1)] else Log(i) !in after
    ensures forall p: Path | !(p.Log? && p.n <= 3) :: if p in before then p in after && after[p] == before[p] else p !in after
  {
    assert Lookup(after, Log(0)) == Shifted(before, 0, Log(0));
    forall i | 1 <= i <= 3
      ensures if Log(i - 1) in before then Log(i) in after && after[Log(i)] == before[Log(i - 1)] else Log(i) !in after
    {
      assert Lookup(after, Log(i)) == Shifted(before, 0, Log(i));
    }
    forall p: Path | !(p.Log? && p.n <= 3) ensures if p in before then p in after && after[p] == before[p] else p !in after {
      assert Lookup(after, p) == Shifted(before, 0, p);
    }
  }

  /** A log file is rotated from 50 MiB on. */
  lemma RotatesWhenFull(files: Files)
    ensures NeedsRotation(files) <==> Log(0) in files && |files[Log(0)]| >= 52_428_800
  {
  }

  class FileSystem {
    var files: Files

    method Rename(src: nat, dst: nat, faults: set<Fault>) returns (ok: bool)
      requires src != dst
      modifies this
      ensures ok <==> Log(src) !in old(files) || RenameFails(src) !in faults
      ensures !ok ==> files == old(files)
      ensures ok && Log(src) !in old(files) ==> files == old(files)
      ensures ok && Log(src) in old(files) ==> files == (old(files) - {Log(src)})[Log(dst) := old(files)[Log(src)]]
    {
      // A missing source is not an error for the caller.
      if Log(src) !in files {
        return true;
      }
      if RenameFails(src) in faults {
        return false;
      }
      files := (files - {Log(src)})[Log(dst) := files[Log(src)]];
      return true;
    }

    method OpenRotatingLogFile(faults: set<Fault>) returns (ok: bool)
      modifies this
      ensures ok && !NeedsRotation(old(files)) ==>
                files == if Log(0) in old(files) then old(files) else old(files)[Log(0) := []]
      ensures ok && NeedsRotation(old(files)) ==>
                Lookup(files, Log(0)) == Some([]) && IsShift(old(files), files - {Log(0)}, 0)
      ensures !ok ==> files == old(files)
                      || (NeedsRotation(old(files)) && exists cut :: 0 <= cut <= MAX_LOG_BACKUPS && IsShift(old(files), files, cut))
      ensures faults == {} ==> ok
    {
      if StatFails in faults {
        return false;
      }
      if Log(0) in files && |files[Log(0)]| >= MAX_LOG_FILE_BYTES {
        if Log(MAX_LOG_BACKUPS) in files {
          if RemoveFails in faults {
            return false;
          }
          files := files - {Log(MAX_LOG_BACKUPS)};
        }
        assert IsShift(old(files), files, MAX_LOG_BACKUPS);
        var i := MAX_LOG_BACKUPS - 1;
        while i >= 1
          invariant 0 <= i < MAX_LOG_BACKUPS && IsShift(old(files), files, i + 1)
        {
          var renamed := RenameUp(i, old(files), faults);
          if !renamed {
            return false;
          }
          i := i - 1;
        }
        var renamed := RenameUp(0, old(files), faults);
        if !renamed {
          return false;
        }
      }
      if OpenFails in faults {
        return false;
      }
      ghost var before := files;
      if Log(0) !in files {
        files := files[Log(0) := []];
      }
      if NeedsRotation(old(files)) {
        assert Lookup(before, Log(0)) == Shifted(old(files), 0, Log(0)) == None;
        assert files - {Log(0)} == before;
      }
      return true;
    }

    /** Moves log number i up, given that the ones above have moved. */
    method RenameUp(i: nat, ghost before: Files, faults: set<Fault>) returns (ok: bool)
      requires i < MAX_LOG_BACKUPS && IsShift(before, files, i + 1)
      modifies this
      ensures IsShift(before, files, if ok then i else i + 1)
      ensures faults == {} ==> ok
    {
      ghost var f := files;
      assert Lookup(f, Log(i)) == Shifted(before, i + 1, Log(i)) == Lookup(before, Log(i));
      assert Lookup(f, Log(i + 1)) == Shifted(before, i + 1, Log(i + 1)) == None;
      ok := Rename(i, i + 1, faults);
      if ok {
        forall p ensures Lookup(files, p) == Shifted(before, i, p) {
          assert Lookup(f, p) == Shifted(before, i + 1, p);
        }
      }
    }
  }
}
