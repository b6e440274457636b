/** Credential staging: the two password files the dump and the imports read
    through `--password-file`, and what they hold once both are written. */
module Staging {
  import Paths

  datatype PasswordFiles = Pair(remote: string, local: string)

  /** The workspace's files, by path, as far as the pipeline writes them. */
  type Files = map<string, string>

  /** `<tempDir>/<remoteDb>.txt` and `<tempDir>/<localDb>.txt`, as the script names them. */
  function PasswordFilesAsWritten(tempDir: string, remoteDb: string, localDb: string): (f: PasswordFiles)
    ensures f.remote == f.local <==> remoteDb == localDb
  {
    var f := Pair(Paths.Join(tempDir, remoteDb + ".txt"), Paths.Join(tempDir, localDb + ".txt"));
    if f.remote == f.local then
      Paths.JoinInjective(tempDir, remoteDb + ".txt", localDb + ".txt");
      assert remoteDb == (remoteDb + ".txt")[..|remoteDb|];
      assert localDb == (localDb + ".txt")[..|localDb|];
      f
    else f
  }

  /** `<tempDir>/<remoteDb>-remote.txt` and `<tempDir>/<localDb>-local.txt`: one file
      per credential whatever the database names are. */
  function StagedPasswordFiles(tempDir: string, remoteDb: string, localDb: string): (f: PasswordFiles)
    ensures f.remote != f.local
    ensures Paths.EndsWith(f.remote, "-remote.txt") && Paths.EndsWith(f.local, "-local.txt")
  {
    var a, b := remoteDb + "-remote.txt", localDb + "-local.txt";
    assert a[|a| - 5] != b[|b| - 5];
    Paths.JoinDistinct(tempDir, a, b);
    Paths.JoinEndsWith(tempDir, remoteDb, "-remote.txt");
    Paths.JoinEndsWith(tempDir, localDb, "-local.txt");
    Pair(Paths.Join(tempDir, a), Paths.Join(tempDir, b))
  }

  /** The remote password is written first, then the local one. */
  function WritePasswords(fs: Files, f: PasswordFiles, remotePwd: string, localPwd: string): (fs': Files)
    ensures fs'.Keys == fs.Keys + {f.remote, f.local}
    ensures fs'[f.local] == localPwd
    ensures fs'[f.remote] == if f.remote == f.local then localPwd else remotePwd
    ensures forall p :: p in fs && p != f.remote && p != f.local ==> fs'[p] == fs[p]
  {
    fs[f.remote := remotePwd][f.local := localPwd]
  }

  /** With the script's naming, a remote and a local database of the same name share
      one file, and the dump reads the local password from it. */
  lemma AsWrittenDumpReadsLocalPassword(tempDir: string, db: string, remotePwd: string, localPwd: string)
    ensures var f := PasswordFilesAsWritten(tempDir, db, db);
            WritePasswords(map[], f, remotePwd, localPwd)[f.remote] == localPwd
  {
  }

  /** A concrete instance: database "app" on both sides, different passwords. */
  lemma AsWrittenCounterexample()
    ensures var f := PasswordFilesAsWritten("/tmp/1700000000000", "app", "app");
            WritePasswords(map[], f, "remote-secret", "local-secret")[f.remote] != "remote-secret"
  {
    AsWrittenDumpReadsLocalPassword("/tmp/1700000000000", "app", "remote-secret", "local-secret");
  }

  /** With one file per credential, each subprocess reads the password meant for it. */
  lemma StagedPasswordsReadBack(fs: Files, tempDir: string, remoteDb: string, localDb: string,
                                remotePwd: string, localPwd: string)
    ensures var f := StagedPasswordFiles(tempDir, remoteDb, localDb);
            var fs' := WritePasswords(fs, f, remotePwd, localPwd);
            fs'[f.remote] == remotePwd && fs'[f.local] == localPwd
  {
  }
}
