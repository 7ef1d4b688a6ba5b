/** Properties of RemoveDirRecur: the order of its commands, and that the
    first step that fails ends it. */
module RemovalLemmas {
  import opened FtpTypes
  import opened Replies
  import opened Protocol
  import Status
  import ProtocolLemmas

  /** With a control connection that cannot be written, nothing is sent and
      the write error is returned. */
  lemma RemoveDirRecurUnwritable(e: Env, s: Session, path: string)
    requires e.writeError.Some?
    ensures RemoveDirRecur(e, s, path) == (s, Some(Transport(e.writeError.value)))
  {
  }

  /** CWD into the directory is the first command. */
  lemma RemoveDirRecurStartsWithCwd(e: Env, s: Session, path: string)
    requires e.writeError.None?
    ensures var t := RemoveDirRecur(e, s, path).0;
            |t.log| > |s.log| && t.log[..|s.log| + 1] == s.log + [Sent("CWD " + path)]
  {
    PrefixOfExtension(s.log + [Sent("CWD " + path)], RemoveDirRecur(e, s, path).0.log);
  }

  /** A refused CWD ends it: the CWD line is the only one sent. */
  lemma RemoveDirRecurCwdRefused(e: Env, s: Session, path: string)
    requires e.writeError.None? && ChangeDir(e, s, path).1.Some?
    ensures RemoveDirRecur(e, s, path).1 == ChangeDir(e, s, path).1
    ensures RemoveDirRecur(e, s, path).0.log == s.log + [Sent("CWD " + path)]
  {
  }

  /** Inside the directory, PWD is the next command. */
  lemma RemoveCurrentDirStartsWithPwd(e: Env, s: Session)
    requires e.writeError.None?
    ensures var t := RemoveCurrentDir(e, s).0;
            |t.log| > |s.log| && t.log[..|s.log| + 1] == s.log + [Sent("PWD")]
  {
    PrefixOfExtension(s.log + [Sent("PWD")], RemoveCurrentDir(e, s).0.log);
  }

  /** A PWD that fails ends it, with that error and nothing more sent. */
  lemma RemoveCurrentDirPwdFails(e: Env, s: Session)
    requires CurrentDir(e, s).1.Err?
    ensures RemoveCurrentDir(e, s) == (CurrentDir(e, s).0, Some(CurrentDir(e, s).1.error))
  {
  }

  /** A LIST that fails ends it: nothing is sent after the listing. */
  lemma RemoveCurrentDirListFails(e: Env, s: Session)
    requires CurrentDir(e, s).1.Ok?
    requires List(e, CurrentDir(e, s).0, CurrentDir(e, s).1.value).2.Some?
    ensures var l := List(e, CurrentDir(e, s).0, CurrentDir(e, s).1.value);
            RemoveCurrentDir(e, s) == (l.0, l.2)
  {
  }

  /** The last two commands of a successful removal: CDUP, then RMD of the
      directory. */
  lemma LeaveAndRemoveLog(e: Env, s: Session, dir: string)
    requires LeaveAndRemove(e, s, dir).1.None?
    ensures LeaveAndRemove(e, s, dir).0.log == s.log + [Sent("CDUP"), Sent("RMD " + dir)]
  {
  }

  /** A successful removal of the current directory ends with CDUP and the
      RMD of the path PWD gave. */
  lemma RemoveCurrentDirEndsWithRmd(e: Env, s: Session)
    requires RemoveCurrentDir(e, s).1.None?
    ensures CurrentDir(e, s).1.Ok?
    ensures var t := RemoveCurrentDir(e, s).0.log;
            |t| >= 2 && t[|t| - 2..] == [Sent("CDUP"), Sent("RMD " + CurrentDir(e, s).1.value)]
  {
    var (s1, pwd) := CurrentDir(e, s);
    var (s2, entries, listErr) := List(e, s1, pwd.value);
    var s3 := RemoveEntries(e, s2, pwd.value, entries).0;
    LeaveAndRemoveLog(e, s3, pwd.value);
  }

  /** A successful RemoveDirRecur went through CWD and then removed the
      current directory. */
  lemma RemoveDirRecurEntered(e: Env, s: Session, path: string)
    requires RemoveDirRecur(e, s, path).1.None?
    ensures e.writeError.None? && ChangeDir(e, s, path).1.None?
    ensures ChangeDir(e, s, path).0.log == s.log + [Sent("CWD " + path)]
    ensures RemoveDirRecur(e, s, path) == RemoveCurrentDir(e, ChangeDir(e, s, path).0)
  {
  }

  /** A successful RemoveDirRecur: CWD, then PWD first, and CDUP then RMD of
      the PWD path last. */
  lemma RemoveDirRecurSucceeded(e: Env, s: Session, path: string)
    requires RemoveDirRecur(e, s, path).1.None?
    ensures var s1 := ChangeDir(e, s, path).0;
            var t := RemoveDirRecur(e, s, path).0.log;
            && CurrentDir(e, s1).1.Ok?
            && |t| >= |s.log| + 2
            && t[..|s.log| + 2] == s.log + [Sent("CWD " + path), Sent("PWD")]
            && t[|t| - 2..] == [Sent("CDUP"), Sent("RMD " + CurrentDir(e, s1).1.value)]
  {
    RemoveDirRecurEntered(e, s, path);
    var s1 := ChangeDir(e, s, path).0;
    RemoveCurrentDirStartsWithPwd(e, s1);
    RemoveCurrentDirEndsWithRmd(e, s1);
    TwoLinesFirst(s.log, s1.log, RemoveCurrentDir(e, s1).0.log, Sent("CWD " + path), Sent("PWD"));
  }

  /** Two lines sent one after the other lead the log. */
  lemma TwoLinesFirst(l0: seq<Event>, l1: seq<Event>, t: seq<Event>, a: Event, b: Event)
    requires l1 == l0 + [a] && |t| > |l1| && t[..|l1| + 1] == l1 + [b]
    ensures |t| >= |l0| + 2 && t[..|l0| + 2] == l0 + [a, b]
  {
  }

  /** A sequence that starts with `p` has `p` as its prefix of that length. */
  lemma PrefixOfExtension(p: seq<Event>, t: seq<Event>)
    requires p <= t
    ensures |t| >= |p| && t[..|p|] == p
  {
  }

  // ---------------------------------------------------------------------
  // The entry loop

  /** "." and ".." are skipped: the loop behaves as if they were not
      listed. */
  lemma {:induction false} RemoveEntriesSkipsDots(e: Env, s: Session, dir: string, entries: seq<Entry>)
    ensures RemoveEntries(e, s, dir, entries) == RemoveEntries(e, s, dir, Removable(entries))
    decreases |entries|
  {
    if |entries| > 0 {
      var x, rest := entries[0], entries[1..];
      var (s1, r) := RemoveEntry(e, s, dir, x);
      if !IsRemovable(x) {
        RemoveEntriesSkipsDots(e, s, dir, rest);
      } else {
        assert Removable(entries) == [x] + Removable(rest);
        assert ([x] + Removable(rest))[1..] == Removable(rest);
        if r.None? {
          RemoveEntriesSkipsDots(e, s1, dir, rest);
        }
      }
    }
  }

  /** One iteration of the loop on a folder: RemoveDirRecur of the folder's
      path below `dir`, and the rest of the entries only if that removal
      succeeded; a failure inside the folder ends the loop with that
      failure. */
  lemma FolderStep(e: Env, s: Session, dir: string, entries: seq<Entry>)
    requires |entries| > 0 && IsRemovable(entries[0]) && entries[0].kind == Folder
    ensures var (s1, r1) := RemoveDirRecur(e, s, dir + "/" + entries[0].name);
            RemoveEntries(e, s, dir, entries) ==
              if r1.Some? then (s1, r1) else RemoveEntries(e, s1, dir, entries[1..])
  {
  }

  /** The loop enters a folder with CWD to its path below `dir`. */
  lemma FolderEntered(e: Env, s: Session, dir: string, entries: seq<Entry>)
    requires e.writeError.None?
    requires |entries| > 0 && IsRemovable(entries[0]) && entries[0].kind == Folder
    ensures var t := RemoveEntries(e, s, dir, entries).0;
            |t.log| > |s.log| && t.log[..|s.log| + 1] == s.log + [Sent("CWD " + dir + "/" + entries[0].name)]
  {
    var path := dir + "/" + entries[0].name;
    FolderStep(e, s, dir, entries);
    RemoveDirRecurStartsWithCwd(e, s, path);
    var s1 := RemoveDirRecur(e, s, path).0;
    var t := RemoveEntries(e, s, dir, entries).0;
    var p := s.log + [Sent("CWD " + path)];
    assert "CWD " + path == "CWD " + dir + "/" + entries[0].name;
    assert p <= s1.log by {
      assert s1.log[..|p|] == p;
    }
    assert s1.log <= t.log;
    PrefixOfExtension(p, t.log);
  }

  /** A failure while removing the entries ends the removal of the current
      directory with that failure: neither CDUP nor RMD is sent. */
  lemma RemoveCurrentDirLoopFails(e: Env, s: Session)
    requires CurrentDir(e, s).1.Ok?
    requires List(e, CurrentDir(e, s).0, CurrentDir(e, s).1.value).2.None?
    requires var l := List(e, CurrentDir(e, s).0, CurrentDir(e, s).1.value);
             RemoveEntries(e, l.0, CurrentDir(e, s).1.value, l.1).1.Some?
    ensures var l := List(e, CurrentDir(e, s).0, CurrentDir(e, s).1.value);
            RemoveCurrentDir(e, s) == RemoveEntries(e, l.0, CurrentDir(e, s).1.value, l.1)
  {
  }

  /** Once the entries are gone, a refused CDUP ends it: RMD is not sent. */
  lemma LeaveAndRemoveCdupRefused(e: Env, s: Session, dir: string)
    requires ChangeDirToParent(e, s).1.Some?
    ensures LeaveAndRemove(e, s, dir) == ChangeDirToParent(e, s)
    ensures e.writeError.None? ==> LeaveAndRemove(e, s, dir).0.log == s.log + [Sent("CDUP")]
  {
  }

  /** Removable entries none of which is a folder. */
  predicate FilesOnly(entries: seq<Entry>) {
    forall i :: 0 <= i < |entries| ==> IsRemovable(entries[i]) && entries[i].kind != Folder
  }

  /** The DELE lines for some entries, in order. */
  function DeleLines(entries: seq<Entry>): (r: seq<Event>)
    ensures |r| == |entries|
  {
    if |entries| == 0 then [] else [Sent("DELE " + entries[0].name)] + DeleLines(entries[1..])
  }

  /** What the loop over plain files did, given the log before (`log0`) and
      after (`log1`) and whether it succeeded: it sent DELE for the first
      `n` entries in listing order, each after the previous one was answered
      250, and stopped after the first DELE that was not; it succeeded iff
      every DELE got 250. */
  predicate DeleteOutcome(log0: seq<Event>, replies: seq<Reply>, entries: seq<Entry>, log1: seq<Event>, ok: bool) {
    var n := |log1| - |log0|;
    && 0 <= n <= |entries|
    && log1 == log0 + DeleLines(entries[..n])
    && (forall i :: 0 <= i < n - 1 ==> ProtocolLemmas.HasCode(replies, i, Status.RequestedFileActionOK))
    && (ok <==> n == |entries| && (n == 0 || ProtocolLemmas.HasCode(replies, n - 1, Status.RequestedFileActionOK)))
  }

  /** Over plain files the loop's outcome is DeleteOutcome. */
  lemma {:induction false} DeletesStopAtFirstFailure(e: Env, s: Session, dir: string, entries: seq<Entry>)
    requires e.writeError.None? && FilesOnly(entries)
    ensures DeleteOutcome(s.log, s.replies, entries, RemoveEntries(e, s, dir, entries).0.log,
                          RemoveEntries(e, s, dir, entries).1.None?)
    decreases |entries|
  {
    if |entries| == 0 {
      assert entries[..0] == [];
    } else {
      var x, rest := entries[0], entries[1..];
      DeleteStep(e, s, dir, entries);
      var (s1, r1) := Delete(e, s, x.name);
      if r1.Some? {
        DeleteOutcomeFirstFails(s.log, s.replies, entries);
      } else {
        assert FilesOnly(rest) by {
          forall i | 0 <= i < |rest| ensures IsRemovable(rest[i]) && rest[i].kind != Folder {
            assert rest[i] == entries[i + 1];
          }
        }
        DeletesStopAtFirstFailure(e, s1, dir, rest);
        var t := RemoveEntries(e, s1, dir, rest);
        DeleteOutcomeShift(s.log, s.replies, entries, t.0.log, t.1.None?);
      }
    }
  }

  /** One iteration of the loop on a plain file: DELE, and the rest only if
      it got 250. */
  lemma DeleteStep(e: Env, s: Session, dir: string, entries: seq<Entry>)
    requires e.writeError.None?
    requires |entries| > 0 && IsRemovable(entries[0]) && entries[0].kind != Folder
    ensures var (s1, r1) := Delete(e, s, entries[0].name);
            && s1.log == s.log + [Sent("DELE " + entries[0].name)]
            && s1.replies == Drop(s.replies)
            && (r1.None? <==> ProtocolLemmas.HasCode(s.replies, 0, Status.RequestedFileActionOK))
            && RemoveEntries(e, s, dir, entries) ==
               if r1.Some? then (s1, r1) else RemoveEntries(e, s1, dir, entries[1..])
  {
  }

  lemma DeleteOutcomeFirstFails(log0: seq<Event>, replies: seq<Reply>, entries: seq<Entry>)
    requires |entries| > 0 && !ProtocolLemmas.HasCode(replies, 0, Status.RequestedFileActionOK)
    ensures DeleteOutcome(log0, replies, entries, log0 + [Sent("DELE " + entries[0].name)], false)
  {
    assert DeleLines(entries[..1]) == [Sent("DELE " + entries[0].name)];
  }

  lemma DeleteOutcomeShift(log0: seq<Event>, replies: seq<Reply>, entries: seq<Entry>, log1: seq<Event>, ok: bool)
    requires |entries| > 0 && ProtocolLemmas.HasCode(replies, 0, Status.RequestedFileActionOK)
    requires DeleteOutcome(log0 + [Sent("DELE " + entries[0].name)], Drop(replies), entries[1..], log1, ok)
    ensures DeleteOutcome(log0, replies, entries, log1, ok)
  {
    var m := |log1| - |log0| - 1;
    DeleLinesCons(entries, m + 1);
    forall i | 0 <= i < m ensures ProtocolLemmas.HasCode(replies, i, Status.RequestedFileActionOK) {
      if i > 0 {
        HasCodeDrop(replies, i, Status.RequestedFileActionOK);
      }
    }
    if m > 0 {
      HasCodeDrop(replies, m, Status.RequestedFileActionOK);
    }
  }

  lemma DeleLinesCons(entries: seq<Entry>, k: int)
    requires 0 < k <= |entries|
    ensures DeleLines(entries[..k]) == [Sent("DELE " + entries[0].name)] + DeleLines(entries[1..][..k - 1])
  {
    assert entries[..k][1..] == entries[1..][..k - 1];
  }

  lemma HasCodeDrop(replies: seq<Reply>, i: nat, code: int)
    requires i >= 1
    ensures ProtocolLemmas.HasCode(replies, i, code) == ProtocolLemmas.HasCode(Drop(replies), i - 1, code)
  {
    if i < |replies| {
      assert Drop(replies)[i - 1] == replies[i];
    }
  }
}
