/** Writing a file by way of a temporary one: at every moment a crash may strike, the file is wholly
    old or wholly new. */
module AtomicWrite {
  import opened Options

  type Data = seq<bv8>

  datatype File = File(content: Data, mode: nat)

  const PRIVATE: nat := 384   // 0600
  const PUBLIC: nat := 420    // 0644

  type Files = map<string, File>

  /** What a reader of `path` finds. */
  function Entry(files: Files, path: string): Option<File> {
    if path in files then Some(files[path]) else None
  }

  /** Since the first `start` states, and now, all files but the temporary one are as they were. */
  ghost predicate OnlyTemporary(trace: seq<Files>, files: Files, start: nat, base: Files, tmp: string) {
    && start <= |trace|
    && (forall k, p :: start <= k < |trace| && p != tmp ==> Entry(trace[k], p) == Entry(base, p))
    && (forall p :: p != tmp ==> Entry(files, p) == Entry(base, p))
  }

  /** In every state since the first `start` ones, the file is one of the two. */
  ghost predicate OldOrNewSince(trace: seq<Files>, start: nat, path: string, before: Option<File>, after: Option<File>) {
    start <= |trace| && forall k :: start <= k < |trace| ==> Entry(trace[k], path) == before || Entry(trace[k], path) == after
  }

  lemma Begins(trace: seq<Files>, files: Files, tmp: string)
    ensures OnlyTemporary(trace, files, |trace|, files, tmp)
  {
  }

  lemma OneMore(trace: seq<Files>, files: Files, next: Files, start: nat, base: Files, tmp: string)
    requires OnlyTemporary(trace, files, start, base, tmp)
    requires forall p :: p != tmp ==> Entry(next, p) == Entry(files, p)
    ensures OnlyTemporary(trace + [next], next, start, base, tmp)
  {
  }

  /** Up to the rename the target is as it was. */
  lemma NotYet(trace: seq<Files>, files: Files, start: nat, base: Files, tmp: string, path: string, after: Option<File>)
    requires OnlyTemporary(trace, files, start, base, tmp) && path != tmp
    ensures OldOrNewSince(trace, start, path, Entry(base, path), after)
    ensures forall p :: p != tmp ==> Entry(files, p) == Entry(base, p)
  {
  }

  /** The rename is the one step in which it changes. */
  lemma AndThen(trace: seq<Files>, start: nat, path: string, before: Option<File>, after: Option<File>, next: Files)
    requires OldOrNewSince(trace, start, path, before, after) && (Entry(next, path) == after || Entry(next, path) == before)
    ensures OldOrNewSince(trace + [next], start, path, before, after)
  {
  }

  lemma Renamed(filled: Files, base: Files, tmp: string, path: string)
    requires forall p :: p != tmp ==> Entry(filled, p) == Entry(base, p)
    requires tmp in filled && tmp !in base && tmp != path
    ensures (filled - {tmp})[path := filled[tmp]] == base[path := filled[tmp]]
  {
    assert forall p :: p in base <==> Entry(base, p).Some?;
    assert forall p :: p in filled <==> Entry(filled, p).Some?;
    var a, b := (filled - {tmp})[path := filled[tmp]], base[path := filled[tmp]];
    forall p
      ensures p in a <==> p in b
      ensures p in a ==> a[p] == b[p]
    {
      assert Entry(filled, p) == Entry(base, p) || p == tmp;
    }
  }

  /** A file system whose every operation may fail; the trace holds each state it has been in, that is,
      each state in which a crash may leave it. */
  class FileSystem {
    var files: Files
    ghost var trace: seq<Files>

    constructor (files: Files)
      ensures this.files == files && trace == [files]
    {
      this.files := files;
      trace := [files];
    }

    /** Moves on to a new state. */
    method Become(next: Files)
      modifies this
      ensures files == next && trace == old(trace) + [next]
    {
      files := next;
      trace := trace + [next];
    }

    /** Moves on to a state that differs in one file. */
    method Change(next: Files, name: string)
      requires forall p :: p != name ==> Entry(next, p) == Entry(files, p)
      modifies this
      ensures files == next && trace == old(trace) + [next]
      ensures forall start, base :: OnlyTemporary(old(trace), old(files), start, base, name) ==>
                OnlyTemporary(trace, files, start, base, name)
    {
      forall start, base | OnlyTemporary(trace, files, start, base, name)
        ensures OnlyTemporary(trace + [next], next, start, base, name)
      {
        OneMore(trace, files, next, start, base, name);
      }
      hide OnlyTemporary;
      Become(next);
    }

    method MkdirAll() returns (ok: bool) {
      ok := *;
    }

    /** os.CreateTemp under the name the system picks: a new file, if the name is free. */
    method CreateTemp(path: string, name: string) returns (ok: bool)
      modifies this
      ensures !ok ==> files == old(files) && trace == old(trace)
      ensures ok ==> name !in old(files) && name != path && files == old(files)[name := File([], PRIVATE)]
      ensures forall start, base :: OnlyTemporary(old(trace), old(files), start, base, name) ==>
                OnlyTemporary(trace, files, start, base, name)
    {
      var works: bool := *;
      ok := works && name !in files && name != path;
      if ok {
        hide OnlyTemporary;
        Change(files[name := File([], PRIVATE)], name);
      }
    }

    /** Write: all of the data, or some first part of it and an error. */
    method Write(name: string, data: Data) returns (ok: bool)
      requires name in files
      modifies this
      ensures name in files
      ensures files == old(files)[name := File(files[name].content, old(files)[name].mode)]
      ensures ok ==> files[name].content == data
      ensures forall start, base :: OnlyTemporary(old(trace), old(files), start, base, name) ==>
                OnlyTemporary(trace, files, start, base, name)
    {
      ok := *;
      var written: int := *;
      var content := if !ok && 0 <= written <= |data| then data[..written] else data;
      hide OnlyTemporary;
      Change(files[name := File(content, files[name].mode)], name);
    }

    method Close() returns (ok: bool) {
      ok := *;
    }

    method Chmod(name: string, mode: nat) returns (ok: bool)
      requires name in files
      modifies this
      ensures files == old(files)[name := old(files)[name].(mode := if ok then mode else old(files)[name].mode)]
      ensures forall start, base :: OnlyTemporary(old(trace), old(files), start, base, name) ==>
                OnlyTemporary(trace, files, start, base, name)
    {
      ok := *;
      hide OnlyTemporary;
      Change(files[name := files[name].(mode := if ok then mode else files[name].mode)], name);
    }

    /** os.Rename: one indivisible step. */
    method Rename(from: string, to: string) returns (ok: bool)
      requires from in files && from != to
      modifies this
      ensures files == if ok then (old(files) - {from})[to := old(files)[from]] else old(files)
      ensures trace == old(trace) + [files]
      ensures !ok ==> forall start, base :: OnlyTemporary(old(trace), old(files), start, base, from) ==>
                OnlyTemporary(trace, files, start, base, from)
    {
      ok := *;
      hide OnlyTemporary;
      if ok {
        Become((files - {from})[to := files[from]]);
      } else {
        Change(files, from);
      }
    }

    method Remove(name: string)
      modifies this
      ensures files == old(files) || files == old(files) - {name}
      ensures forall start, base :: OnlyTemporary(old(trace), old(files), start, base, name) ==>
                OnlyTemporary(trace, files, start, base, name)
    {
      var works: bool := *;
      hide OnlyTemporary;
      Change(if works then files - {name} else files, name);
    }

    /** WriteAtomically. On success the file holds the data; on failure it is what it was; and in every
        state in between, a crash would find the one or the other, never a part. No other file changes,
        except that a failed attempt may leave its temporary file behind. */
    method WriteAtomically(path: string, data: Data, tmp: string) returns (ok: bool)
      requires tmp != path
      modifies this
      ensures OldOrNewSince(trace, |old(trace)|, path, Entry(old(files), path), Some(File(data, PUBLIC)))
      ensures ok ==> files == old(files)[path := File(data, PUBLIC)]
      ensures !ok ==> forall p :: p != tmp ==> Entry(files, p) == Entry(old(files), p)
      ensures !ok && tmp in old(files) ==> files == old(files)
    {
      hide OnlyTemporary, OldOrNewSince, Entry;
      ghost var start, base, wanted := |trace|, files, Some(File(data, PUBLIC));
      Begins(trace, files, tmp);
      NotYet(trace, files, start, base, tmp, path, wanted);
      ok := MkdirAll();
      if !ok {
        return;
      }
      ok := CreateTemp(path, tmp);
      NotYet(trace, files, start, base, tmp, path, wanted);
      if !ok {
        return;
      }
      ok := Write(tmp, data);
      if !ok {
        var closed := Close();
        Remove(tmp);
        NotYet(trace, files, start, base, tmp, path, wanted);
        return;
      }
      ok := Close();
      if !ok {
        Remove(tmp);
        NotYet(trace, files, start, base, tmp, path, wanted);
        return;
      }
      ok := Chmod(tmp, PUBLIC);
      if !ok {
        Remove(tmp);
        NotYet(trace, files, start, base, tmp, path, wanted);
        return;
      }
      NotYet(trace, files, start, base, tmp, path, wanted);
      Renamed(files, base, tmp, path);
      ghost var before := trace;
      ok := Rename(tmp, path);
      if !ok {
        Remove(tmp);
        NotYet(trace, files, start, base, tmp, path, wanted);
        return;
      }
      HasEntry(files, path);
      AndThen(before, start, path, Entry(base, path), wanted, files);
    }
  }

  lemma HasEntry(files: Files, path: string)
    ensures path in files ==> Entry(files, path) == Some(files[path])
  {
  }
}
