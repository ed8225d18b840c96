/**
 A directory of files as the vector store uses it (internal/vector/bruteforce/store.go, SaveToDisk): a
 temporary file that fills up in the portions a buffered writer passes on, and a rename.
 */
module Disks {
  import opened Bytes

  type Directory = map<string, seq<Byte>>

  /** One step of file I/O: whether it succeeds, and how many buffered bytes get through to the file anyway. */
  datatype IoStep = IoStep(ok: bool, through: nat)

  /** Apart from its file `tmp`, which `before` does not have, `now` is `before`. */
  predicate SameBut(before: Directory, now: Directory, tmp: string) {
    now - {tmp} == before
  }

  class Disk {
    var files: Directory
    /** Every directory there ever was: what a reader can find. */
    ghost var seen: seq<Directory>

    constructor ()
      ensures files == map[] && seen == [map[]]
    {
      files := map[];
      seen := [map[]];
    }

    /** Since moment `from` nothing but `tmp` has been seen to differ from `before`. */
    ghost predicate OnlySeen(from: nat, before: Directory, tmp: string)
      reads this
    {
      from <= |seen| && forall i :: from <= i < |seen| ==> SameBut(before, seen[i], tmp)
    }

    method Change(now: Directory)
      modifies this
      ensures files == now && seen == old(seen) + [now]
    {
      files := now;
      seen := seen + [now];
    }

    method Create(name: string)
      modifies this
      ensures files == old(files)[name := []] && seen == old(seen) + [files]
    {
      Change(files[name := []]);
    }

    method Append(name: string, bs: seq<Byte>)
      requires name in files
      modifies this
      ensures files == old(files)[name := old(files)[name] + bs] && seen == old(seen) + [files]
    {
      Change(files[name := files[name] + bs]);
    }

    method Rename(name: string, to: string)
      requires name in files && name != to
      modifies this
      ensures files == (old(files) - {name})[to := old(files)[name]] && seen == old(seen) + [files]
    {
      Change((files - {name})[to := files[name]]);
    }

    /** A file that is not there is no matter. */
    method Remove(name: string)
      modifies this
      ensures files == old(files) - {name} && seen == old(seen) + [files]
    {
      Change(files - {name});
    }

    /**
     A write through the buffer: some of what is held and given gets through to the file, the rest is held.
     */
    method Write(name: string, held: seq<Byte>, bs: seq<Byte>, through: nat, ghost from: nat,
                 ghost before: Directory)
      returns (left: seq<Byte>)
      requires name in files && SameBut(before, files, name) && OnlySeen(from, before, name)
      modifies this
      ensures name in files && SameBut(before, files, name) && OnlySeen(from, before, name)
      ensures files[name] + left == old(files)[name] + held + bs
      ensures through >= |held + bs| ==> left == []
    {
      var all := held + bs;
      var n := if through < |all| then through else |all|;
      Append(name, all[..n]);
      left := all[n..];
      assert all[..n] + all[n..] == all;
      assert files[name] == old(files)[name] + all[..n];
      assert files - {name} == old(files) - {name};
    }
  }
}
