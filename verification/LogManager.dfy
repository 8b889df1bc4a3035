/** The log manager as the source runs it: file offsets, loops and updates in place, against the scans of LogSpec. */
module UndoLog {
  import opened Basics
  import opened Disk
  import opened LogSpec
  import opened Recovery
  import C = CommitCrash

  /** The three files every process has open. */
  class Storage {
    var index: map<int, char>
    var store: map<int, Contents>
    var log: seq<Record>

    constructor ()
      ensures Now() == Files(InitialDisk(), [])
    {
      index := InitialDisk().index;
      store := InitialDisk().store;
      log := [];
    }

    ghost function OnDisk(): Disk
      reads this
    {
      Disk(index, store)
    }

    ghost function Now(): Files
      reads this
    {
      Files(OnDisk(), log)
    }
  }

  /** How a call of rollback ends; Spins: it does not. */
  datatype Ending = Undone | NothingToDo | Spinning

  class LogManager {
    const files: Storage
    /** The offset of the binary log's descriptor, in records: 0 when opened. */
    var pos: nat

    constructor (files: Storage)
      ensures this.files == files && pos == 0
    {
      this.files := files;
      pos := 0;
    }

    /** The file never shrinks, so the descriptor stays inside it. */
    ghost predicate Valid()
      reads this, files
    {
      pos <= |files.log|
    }

    method WriteAtOffset(r: Record)
      requires Valid()
      modifies this`pos, files`log
      ensures Valid() && pos == old(pos) + 1
      ensures files.log == C.Put(old(files.log), old(pos), r)
    {
      if pos < |files.log| {
        files.log := files.log[pos := r];
      } else {
        files.log := files.log + [r];
      }
      pos := pos + 1;
    }

    /** The record is written at the descriptor's own offset, not at the end of the file. */
    method Log(tid: Tid, action: Action, block: int, oldindex: char, oldval: Option<Contents>)
      requires Valid()
      modifies this`pos, files`log
      ensures Valid() && pos == old(pos) + 1
      ensures files.log == C.Put(old(files.log), old(pos), Record(tid, action, block, oldindex,
                                 if oldval.Some? then oldval.value else NoValue()))
    {
      var lgr := Record(0, LREAD, 0, '\0', NoValue());
      lgr := lgr.(tid := tid, action := action);
      if block != 0 {
        lgr := lgr.(block := block);
      }
      lgr := lgr.(oindex := oldindex);
      if oldval.Some? {
        lgr := lgr.(oldval := oldval.value);
      }
      WriteAtOffset(lgr);
    }

    method SeekEnd()
      modifies this`pos
      ensures Valid() && pos == |files.log|
    {
      pos := |files.log|;
    }

    /** Undoes the records of a list, front to back. */
    method UndoRec(recs: seq<Record>)
      modifies files`index, files`store
      ensures files.OnDisk() == UndoAll(old(files.OnDisk()), recs)
    {
      var i := 0;
      assert recs[0..] == recs;
      while i < |recs|
        invariant 0 <= i <= |recs|
        invariant UndoAll(files.OnDisk(), recs[i..]) == UndoAll(old(files.OnDisk()), recs)
      {
        var p := recs[i];
        assert recs[i..][0] == p && recs[i..][1..] == recs[i + 1..];
        ghost var before := files.OnDisk();
        match p.action {
          case LWRITE =>
            files.store := files.store[p.block := p.oldval];
          case LALLOCATE =>
            files.index := files.index[p.block := 'U'];
          case LRELEASE =>
            files.index := files.index[p.block := p.oindex];
            if p.oindex == 'A' {
              files.store := files.store[p.block := p.oldval];
            }
          case _ =>
        }
        assert files.OnDisk() == UndoRecord(before, p);
        i := i + 1;
      }
    }

    method WriteAbortRec(tid: Tid)
      requires Valid()
      modifies this`pos, files`log
      ensures Valid() && files.log == C.Put(old(files.log), old(pos), AbortRecord(tid))
    {
      WriteAtOffset(AbortRecord(tid));
    }

    /** Scans the log backwards from its end.  Once the beginning is reached the source re-reads the first record for
        ever; here the scan stops and says so. */
    method Collect(tid: Tid) returns (ending: Ending, recs: seq<Record>)
      ensures match BackScan(files.log, tid, [])
              case Found(rs) => ending == Undone && recs == rs && recs != [] && recs[0].tid == tid
              case Ended => ending == NothingToDo
              case Spins => ending == Spinning
    {
      var lpos := |files.log|;
      var done := false;
      ending, recs := Undone, [];
      assert files.log[..lpos] == files.log;
      while !done
        invariant 0 <= lpos <= |files.log| && ending == Undone
        invariant recs != [] ==> recs[0].tid == tid
        invariant done ==> recs != [] && BackScan(files.log, tid, []) == Found(recs)
        invariant !done ==> BackScan(files.log, tid, []) == BackScan(files.log[..lpos], tid, recs)
        decreases !done, lpos
      {
        if lpos == 0 {
          return Spinning, recs;
        }
        var lgr := files.log[lpos - 1];
        assert files.log[..lpos][..lpos - 1] == files.log[..lpos - 1];
        if lgr.tid == tid {
          if lgr.action == LEND {
            return NothingToDo, recs;
          }
          if lgr.action == LBEGIN {
            done := true;
          }
          recs := recs + [lgr];
        }
        lpos := lpos - 1;
      }
    }

    /** Online rollback of one transaction. */
    method RollbackTransaction(tid: Tid) returns (ending: Ending)
      modifies this`pos, files
      ensures match Rollback(old(files.Now()), tid)
              case RolledBack(f) => ending == Undone && files.Now() == f && Valid()
              case AlreadyEnded => ending == NothingToDo && files.Now() == old(files.Now()) && pos == old(pos)
              case NeverReturns => ending == Spinning && files.Now() == old(files.Now()) && pos == old(pos)
    {
      var recs;
      ending, recs := Collect(tid);
      if ending == Undone {
        UndoRec(recs);
        SeekEnd();
        WriteAbortRec(recs[0].tid);
      }
    }

    /** The read loop of recovery: the broken transactions and their records. */
    method FindBroken() returns (bts: Broken)
      ensures bts == Scan(files.log)
    {
      bts := map[];
      var i := 0;
      while i < |files.log|
        invariant 0 <= i <= |files.log|
        invariant bts == Scan(files.log[..i])
      {
        var lgr := files.log[i];
        assert files.log[..i + 1] == files.log[..i] + [lgr];
        ScanSnoc(files.log[..i], lgr);
        if lgr.tid !in bts {
          bts := bts[lgr.tid := []];
        }
        if lgr.action == LEND || lgr.action == LABORT {
          bts := bts - {lgr.tid};
        } else {
          bts := bts[lgr.tid := bts[lgr.tid] + [lgr]];
        }
        i := i + 1;
      }
      assert files.log[..i] == files.log;
    }

    /** Offline recovery: every broken transaction is undone, least tid first, and closed at the end of the log. */
    method DoRecovery()
      modifies this`pos, files
      ensures files.Now() == Recover(old(files.Now())) && (old(Valid()) ==> Valid())
    {
      var bts := FindBroken();
      ScanLists(files.log);
      var rest := bts.Keys;
      while rest != {}
        invariant rest <= bts.Keys
        invariant forall t :: t in bts ==> bts[t] != []
        invariant RecoverTids(files.Now(), bts, rest) == Recover(old(files.Now()))
        invariant old(Valid()) ==> Valid()
        decreases rest
      {
        var t := Least(rest);
        UndoRec(bts[t]);
        SeekEnd();
        WriteAbortRec(bts[t][0].tid);
        rest := rest - {t};
      }
    }
  }
}
