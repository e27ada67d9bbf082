/** The atomic file replacement every persisted setting goes through
    (opcd/store.c): temporary file, sync, rename, directory sync. */
module Store {
  import opened Common

  /** What a write did to its target, reported even when the call failed. */
  datatype Outcome = Unchanged | ReplacedUnsynced | Durable

  predicate Visible(o: Outcome) {
    o != Unchanged
  }

  /** A file as readers see it now, and every state a power loss may leave it in. */
  datatype File<T(==)> = File(view: Option<T>, crash: set<Option<T>>)

  /** The file after a write of `v` that reported `o`. */
  function Written<T(==)>(f: File<T>, v: T, o: Outcome): File<T> {
    match o
    case Unchanged => f
    case ReplacedUnsynced => File(Some(v), f.crash + {Some(v)})
    case Durable => File(Some(v), {Some(v)})
  }

  /** The file after an unlink; nothing syncs the directory afterwards. */
  function Unlinked<T(==)>(f: File<T>): File<T> {
    File(None, f.crash + {None})
  }

  /** File contents after a power loss: complete, or cut short because the
      bytes had not been synced before the rename. */
  datatype Content = Whole(bytes: string) | Torn

  /** One write(2) call: interrupted, failed, or a number of bytes accepted. */
  datatype WriteCall = Interrupted | Failed | Accepted(n: nat)

  /** The result of every system call one replacement makes. A write(2) beyond
      the end of `writes` takes all that is left. */
  datatype Faults = Faults(openDir: bool, openTmp: bool, chown: bool, writes: seq<WriteCall>,
                           sync: bool, close: bool, rename: bool, syncDir: bool, closeDir: bool)

  /** Bytes the calls take together. */
  function BytesTaken(calls: seq<WriteCall>): nat {
    if calls == [] then 0
    else BytesTaken(calls[..|calls| - 1]) + (match calls[|calls| - 1] case Accepted(n) => n case _ => 0)
  }

  /** A write(2) fails while some of the `n` bytes are still to be written. */
  ghost predicate Breaks(calls: seq<WriteCall>, n: nat) {
    exists i :: 0 <= i < |calls| && calls[i] == Failed && BytesTaken(calls[..i]) < n
  }

  /** Something before or at the rename fails. */
  ghost predicate Prevented(io: Faults, n: nat) {
    !io.openDir || !io.openTmp || !io.chown || Breaks(io.writes, n) || !io.sync || !io.close || !io.rename
  }

  lemma BytesNext(calls: seq<WriteCall>, i: nat)
    requires i < |calls|
    ensures BytesTaken(calls[..i + 1]) == BytesTaken(calls[..i]) + (match calls[i] case Accepted(n) => n case _ => 0)
  {
    assert calls[..i + 1][..i] == calls[..i];
  }

  lemma {:induction false} BytesGrow(calls: seq<WriteCall>, i: nat, j: nat)
    requires i <= j <= |calls|
    ensures BytesTaken(calls[..i]) <= BytesTaken(calls[..j])
  {
    if i < j {
      BytesGrow(calls, i, j - 1);
      BytesNext(calls, j - 1);
    }
  }

  /** All bytes are in before `call`, and nothing failed until then. */
  lemma NoneBreaks(calls: seq<WriteCall>, n: nat, call: nat)
    requires call <= |calls| && (call == |calls| || BytesTaken(calls[..call]) >= n)
    requires forall i :: 0 <= i < call ==> !(calls[i] == Failed && BytesTaken(calls[..i]) < n)
    ensures !Breaks(calls, n)
  {
    forall i | call <= i < |calls| ensures BytesTaken(calls[..i]) >= n {
      BytesGrow(calls, call, i);
    }
  }

  /** The write loop: how many of the `n` bytes are in the temporary file when it
      ends. Interrupted and short calls are continued, a failed one ends it. */
  method WriteAll(n: nat, calls: seq<WriteCall>) returns (tmp: nat)
    ensures tmp <= n && (tmp < n <==> Breaks(calls, n))
  {
    tmp := 0;
    var call := 0;
    while tmp < n && call < |calls|
      invariant call <= |calls| && tmp == (if BytesTaken(calls[..call]) < n then BytesTaken(calls[..call]) else n)
      invariant forall i :: 0 <= i < call ==> !(calls[i] == Failed && BytesTaken(calls[..i]) < n)
      decreases |calls| - call
    {
      BytesNext(calls, call);
      match calls[call] {
        case Interrupted =>
        case Failed => return;
        case Accepted(k) => tmp := if k <= n - tmp then tmp + k else n;
      }
      call := call + 1;
    }
    NoneBreaks(calls, n, call);
    tmp := n;   // calls beyond the given ones take all that is left
  }

  class Target {
    var file: File<Content>
    /** Every state the target went through, for the crash-point claim. */
    ghost var history: seq<File<Content>>

    constructor (f: File<Content>)
      ensures file == f && history == [f]
    {
      file := f;
      history := [f];
    }

    /** opc_store_write_atomic_ex. The file is left alone exactly if something up
        to the rename fails, and the write is confirmed exactly if nothing fails at
        all. Whatever fails, readers see the old or the complete new bytes, the
        outcome says which, success means durable, and no crash point leaves
        anything but an earlier state or the new bytes. */
    method WriteAtomicEx(data: string, io: Faults) returns (rc: int, outcome: Outcome)
      modifies this
      ensures rc == 0 || rc == -1
      ensures rc == 0 <==> outcome == Durable
      ensures outcome == Unchanged <==> Prevented(io, |data|)
      ensures outcome == Durable <==> !Prevented(io, |data|) && io.syncDir && io.closeDir
      ensures file.view == Written(old(file), Whole(data), outcome).view
      ensures file.crash <= Written(old(file), Whole(data), outcome).crash
      ensures |old(history)| <= |history| && history[..|old(history)|] == old(history)
      ensures forall i :: |old(history)| <= i < |history| ==>
                history[i].crash <= old(file).crash + {Some(Whole(data))}
    {
      outcome := Unchanged;
      if !io.openDir || !io.openTmp || !io.chown {
        return -1, outcome;
      }
      var tmp := WriteAll(|data|, io.writes);
      if tmp < |data| {
        return -1, outcome;
      }
      if !io.sync || !io.close || !io.rename {
        return -1, outcome;
      }
      // Torn cannot happen: all bytes were written and synced above. Without those
      // checks a surviving rename could show part of them.
      var installed := if io.sync && tmp == |data| then Whole(data[..tmp]) else Torn;
      assert data[..tmp] == data;
      file := File(Some(installed), file.crash + {Some(installed)});
      history := history + [file];
      outcome := ReplacedUnsynced;
      if !io.syncDir {
        return -1, outcome;
      }
      file := File(file.view, {file.view});
      history := history + [file];
      if !io.closeDir {
        return -1, outcome;   // in fact durable, still reported as unconfirmed
      }
      outcome := Durable;
      return 0, outcome;
    }
  }
}
