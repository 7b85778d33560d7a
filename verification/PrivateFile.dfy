/**
 Replacing a managed file: create a private temporary file, write it, sync it, rename it over the
 target, sync the directory. The process may stop between any two of these changes.
 */
module PrivateFiles {
  type Path = string
  type Bytes = seq<bv8>
  type Files = map<Path, Bytes>

  /** How a replacement ended, as its caller can tell it apart by looking at the target. */
  datatype CommitResult =
    | Committed
    | FailedBeforeReplace
    | FailedAfterReplace

  /** Which of the system calls report an error. */
  datatype WriteFaults = WriteFaults(
    directory: bool,  // the parent directory cannot be made private
    open: bool,       // the temporary file cannot be created
    write: bool,      // the payload is only partly written
    sync: bool,       // the file cannot be synced
    rename: bool,     // the rename is refused
    cleanup: bool,    // after an error the temporary file cannot be removed
    directorySync: bool)  // the rename happened but the directory cannot be synced

  /** In `after`, the target holds either its old content or the whole payload; nothing else moved. */
  ghost predicate OldOrNew(before: Files, after: Files, path: Path, temp: Path, payload: Bytes) {
    after - {temp} == before - {temp} || after - {temp} == before[path := payload] - {temp}
  }

  class FileSystem {
    var files: Files
    /** Every state the disk went through, oldest first; a crash leaves one of them behind. */
    ghost var history: seq<Files>

    constructor (files: Files)
      ensures this.files == files && history == []
    {
      this.files, history := files, [];
    }

    method Store(path: Path, content: Bytes)
      modifies this
      ensures files == old(files)[path := content]
      ensures history == old(history) + [files]
    {
      files := files[path := content];
      history := history + [files];
    }

    method Unlink(path: Path)
      modifies this
      ensures files == old(files) - {path}
      ensures history == old(history) + [files]
    {
      files := files - {path};
      history := history + [files];
    }

    method Rename(source: Path, target: Path)
      requires source in files && source != target
      modifies this
      ensures files == old(files)[target := old(files)[source]] - {source}
      ensures history == old(history) + [files]
    {
      files := files[target := files[source]] - {source};
      history := history + [files];
    }

    /** Makes the temporary file and writes the payload, or the part of it that gets written. */
    method FillTemp(temp: Path, content: Bytes)
      modifies this
      ensures files == old(files)[temp := content]
      ensures history == old(history) + [old(files)[temp := []], files]
    {
      Store(temp, []);
      Store(temp, content);
      assert old(files)[temp := []][temp := content] == old(files)[temp := content];
    }

    /** After an error: the temporary file goes, unless that fails too. */
    method Discard(temp: Path, fails: bool)
      modifies this
      ensures files == if fails then old(files) else old(files) - {temp}
      ensures history == old(history) + if fails then [] else [files]
    {
      if !fails {
        Unlink(temp);
      }
    }

    /**
     Whatever fails and wherever the process stops, the target is readable as its old content or as
     the new one, and no other file changes. Before the replacement an error leaves every file as it
     was, or the temporary one behind when it cannot be removed either. The temporary name is
     exclusive: one left behind makes the next attempt under the same name fail with nothing changed.
     */
    method WritePrivateFile(path: Path, temp: Path, payload: Bytes, faults: WriteFaults, written: nat)
      returns (outcome: CommitResult)
      requires path != temp && written <= |payload|
      modifies this
      ensures old(history) <= history
      ensures forall i :: |old(history)| <= i < |history| ==> OldOrNew(old(files), history[i], path, temp, payload)
      ensures outcome.FailedBeforeReplace? ==>
                files == old(files) || (faults.cleanup && temp in files && files - {temp} == old(files))
      ensures !outcome.FailedBeforeReplace? ==> files == old(files)[path := payload]
      ensures outcome.FailedBeforeReplace? <==>
              faults.directory || faults.open || temp in old(files) || faults.write || faults.sync || faults.rename
      ensures outcome.Committed? ==> !faults.directorySync
    {
      outcome := FailedBeforeReplace;
      if faults.directory || faults.open || temp in files {
        return;
      }
      var content := if faults.write then payload[..written] else payload;
      FillTemp(temp, content);
      TempOnly(old(files), [], path, temp, payload);
      TempOnly(old(files), content, path, temp, payload);
      if faults.write || faults.sync || faults.rename {
        Discard(temp, faults.cleanup);
        TempGone(old(files), content, path, temp, payload);
      } else {
        Rename(temp, path);
        Renamed(old(files), path, temp, payload);
        outcome := if faults.directorySync then FailedAfterReplace else Committed;
      }
    }
  }

  lemma TempOnly(before: Files, content: Bytes, path: Path, temp: Path, payload: Bytes)
    ensures OldOrNew(before, before[temp := content], path, temp, payload)
  {
    assert before[temp := content] - {temp} == before - {temp};
  }

  lemma TempGone(before: Files, content: Bytes, path: Path, temp: Path, payload: Bytes)
    requires temp !in before
    ensures before[temp := content] - {temp} == before
    ensures OldOrNew(before, before, path, temp, payload)
  {
  }

  lemma Renamed(before: Files, path: Path, temp: Path, payload: Bytes)
    requires temp !in before && temp != path
    ensures before[temp := payload][path := payload] - {temp} == before[path := payload]
    ensures OldOrNew(before, before[path := payload], path, temp, payload)
  {
  }
}
