// The mkdir commands of copy_local_dir_remote (porting/adb/client/file_sync_client.cpp).  escape_arg is
// not among the repository's files: any function of strings stands for it.
module MkdirBatches {
  import opened Base

  const MKDIR := "mkdir"
  const MAX_ESCAPED := 16384
  const MAX_COMMAND := 32768

  // The arguments that a batch adds to a command.
  function Words(batch: seq<string>, escape: string -> string): string {
    if batch == [] then "" else " " + escape(batch[0]) + Words(batch[1..], escape)
  }

  function Command(batch: seq<string>, escape: string -> string): string {
    MKDIR + Words(batch, escape)
  }

  predicate FitTo(dirs: seq<string>, n: nat, escape: string -> string)
    requires n <= |dirs|
  {
    forall j :: 0 <= j < n ==> |escape(dirs[j])| <= MAX_ESCAPED
  }

  // The first directory of batch i did not fit into the command before it.
  ghost predicate NoRoom(cmds: seq<string>, batches: seq<seq<string>>, i: nat, escape: string -> string)
    requires 1 <= i < |cmds| == |batches| && batches[i] != []
  {
    |cmds[i - 1]| + |escape(batches[i][0])| > 32768
  }

  // The commands make the batches, in order; no command is bare or too long, and none could have taken the
  // first directory of the next batch.
  ghost predicate Dispatched(cmds: seq<string>, batches: seq<seq<string>>, escape: string -> string) {
    && |cmds| == |batches|
    && (forall i :: 0 <= i < |cmds| ==> batches[i] != [] && cmds[i] == Command(batches[i], escape))
    && (forall i :: 0 <= i < |cmds| ==> MKDIR < cmds[i] && |cmds[i]| <= 32769)
    && (forall i :: 1 <= i < |batches| ==> NoRoom(cmds, batches, i, escape))
  }

  // All batches, the last one still open, hold the directories in order.
  ghost predicate Open(cmds: seq<string>, batches: seq<seq<string>>, cmd: string, batch: seq<string>,
                       done: seq<string>, escape: string -> string) {
    && Dispatched(cmds, batches, escape)
    && Flatten(batches) + batch == done
    && cmd == Command(batch, escape) && |cmd| <= MAX_COMMAND + 1
    && (batch == [] ==> batches == [])
    && (batch != [] ==> MKDIR < cmd)
    && (batch != [] && batches != [] ==> |cmds[|cmds| - 1]| + |escape(batch[0])| > MAX_COMMAND)
  }

  lemma Close(cmds: seq<string>, batches: seq<seq<string>>, cmd: string, batch: seq<string>,
              done: seq<string>, escape: string -> string)
    requires Open(cmds, batches, cmd, batch, done, escape) && batch != []
    ensures Dispatched(cmds + [cmd], batches + [batch], escape) && Flatten(batches + [batch]) == done
  {
    FlattenAppend(batches, [batch]);
    assert Flatten([batch]) == batch + Flatten([]);
    forall i | 1 <= i < |batches| + 1 ensures NoRoom(cmds + [cmd], batches + [batch], i, escape) {
      if i < |batches| { assert NoRoom(cmds, batches, i, escape); }
    }
  }

  lemma {:induction false} WordsAppend(batch: seq<string>, dir: string, escape: string -> string)
    ensures Words(batch + [dir], escape) == Words(batch, escape) + (" " + escape(dir))
  {
    if batch == [] {
      assert batch + [dir] == [dir];
    } else {
      assert (batch + [dir])[1..] == batch[1..] + [dir];
      WordsAppend(batch[1..], dir, escape);
    }
  }

  // The command names the directories of its batch, escaped, in order.
  lemma {:induction false} CommandNames(batch: seq<string>, escape: string -> string)
    ensures Command(batch, escape) == "mkdir" + Flatten(seq(|batch|, i requires 0 <= i < |batch| => " " + escape(batch[i])))
  {
    WordsAreFlat(batch, escape, seq(|batch|, i requires 0 <= i < |batch| => " " + escape(batch[i])));
  }

  lemma {:induction false} WordsAreFlat(batch: seq<string>, escape: string -> string, words: seq<string>)
    requires |words| == |batch| && forall i :: 0 <= i < |batch| ==> words[i] == " " + escape(batch[i])
    ensures Words(batch, escape) == Flatten(words)
  {
    if batch != [] {
      WordsAreFlat(batch[1..], escape, words[1..]);
    }
  }

  lemma Extend(batch: seq<string>, dir: string, escape: string -> string)
    ensures Command(batch + [dir], escape) == Command(batch, escape) + (" " + escape(dir))
  {
    WordsAppend(batch, dir, escape);
  }

  // The directory joins the open batch.
  lemma Join(cmds: seq<string>, batches: seq<seq<string>>, cmd: string, batch: seq<string>, dirs: seq<string>,
             i: nat, escape: string -> string)
    requires i < |dirs| && Open(cmds, batches, cmd, batch, dirs[..i], escape)
    requires |cmd| + |escape(dirs[i])| <= MAX_COMMAND
    ensures Open(cmds, batches, cmd + (" " + escape(dirs[i])), batch + [dirs[i]], dirs[..i + 1], escape)
  {
    TakeNext(dirs, i);
    Extend(batch, dirs[i], escape);
    assert Flatten(batches) + (batch + [dirs[i]]) == Flatten(batches) + batch + [dirs[i]];
    if batch == [] {
      assert cmd == MKDIR;
    } else {
      assert (batch + [dirs[i]])[0] == batch[0];
    }
  }

  // The directory begins a new batch.
  lemma Begin(cmds: seq<string>, batches: seq<seq<string>>, cmd: string, batch: seq<string>, dirs: seq<string>,
              i: nat, escape: string -> string)
    requires i < |dirs| && Open(cmds, batches, cmd, batch, dirs[..i], escape)
    requires |escape(dirs[i])| <= MAX_ESCAPED && |cmd| + |escape(dirs[i])| > MAX_COMMAND
    ensures Open(cmds + [cmd], batches + [batch], MKDIR + (" " + escape(dirs[i])), [dirs[i]], dirs[..i + 1], escape)
  {
    TakeNext(dirs, i);
    Close(cmds, batches, cmd, batch, dirs[..i], escape);
    Extend([], dirs[i], escape);
    assert [] + [dirs[i]] == [dirs[i]];
  }

  lemma NothingOpen(escape: string -> string)
    ensures Open([], [], MKDIR, [], [], escape)
  {
  }

  // Returns whether every path is short enough; send_shell_command's own failures are ignored by the code.
  method MakeDirectories(dirs: seq<string>, escape: string -> string)
    returns (ok: bool, cmds: seq<string>, ghost batches: seq<seq<string>>)
    ensures ok <==> forall dir :: dir in dirs ==> |escape(dir)| <= 16384
    ensures Dispatched(cmds, batches, escape)
    ensures ok ==> Flatten(batches) == dirs
    ensures !ok ==> Flatten(batches) <= dirs
  {
    var cmd := MKDIR;
    ghost var batch;
    batch, cmds, batches := [], [], [];
    NothingOpen(escape);
    assert dirs[..0] == [];
    for i := 0 to |dirs|
      invariant FitTo(dirs, i, escape)
      invariant Open(cmds, batches, cmd, batch, dirs[..i], escape)
    {
      var escaped := escape(dirs[i]);
      if |escaped| > MAX_ESCAPED {
        assert Flatten(batches) <= dirs[..i] <= dirs;
        return false, cmds, batches;
      }
      if |cmd| + |escaped| > MAX_COMMAND {
        Begin(cmds, batches, cmd, batch, dirs, i, escape);
        cmds, batches := cmds + [cmd], batches + [batch];
        cmd, batch := MKDIR, [dirs[i]];
      } else {
        Join(cmds, batches, cmd, batch, dirs, i, escape);
        batch := batch + [dirs[i]];
      }
      cmd := cmd + (" " + escaped);
    }
    assert dirs[..|dirs|] == dirs;
    assert forall dir :: dir in dirs ==> |escape(dir)| <= 16384;
    if cmd != MKDIR {
      Close(cmds, batches, cmd, batch, dirs, escape);
      cmds, batches := cmds + [cmd], batches + [batch];
    }
    return true, cmds, batches;
  }
}
