/** `dump`: the `rethinkdb dump` argument vector, which reaches the remote
    database through the tunnel's local port, and its close handler, which
    closes the tunnel and settles the dump's promise. The exit status is a
    parameter. */
module Dump {
  import opened JsValues
  import Seqs
  import Processes
  import Config
  import Staging

  const LocalHostPrefix := "localhost:"

  /** What `rethinkdb dump` reads from its command line. */
  datatype DumpCall = DumpCall(host: string, port: nat, database: string, archive: string, passwordFile: string)

  /** Reads `-c <host>:<port>` (host `localhost`) and the other options of a dump
      command line laid out as the script lays it out. */
  function ParseDump(args: seq<string>): Option<DumpCall> {
    if |args| != 9 || args[0] != "dump" || args[1] != "-c" || args[3] != "-e" || args[5] != "-f"
       || args[7] != "--password-file"
       || !Seqs.IsPrefix(LocalHostPrefix, args[2])
    then None
    else match ParseDecimal(args[2][|LocalHostPrefix|..])
      case None => None
      case Some(port) => Some(DumpCall("localhost", port, args[4], args[6], args[8]))
  }

  /** The dump's argument vector: it connects to `localhost:<localPort>`, dumps
      `remoteDb` into the archive, and authenticates with the remote password file. */
  function DumpArgs(localPort: nat, remoteDb: string, archive: string, passwordFile: string): (args: seq<string>)
    ensures |args| == 9 && args[0] == "dump"
    ensures args[2] == LocalHostPrefix + Decimal(localPort)
    ensures ParseDump(args) == Some(DumpCall("localhost", localPort, remoteDb, archive, passwordFile))
  {
    var args := ["dump", "-c", LocalHostPrefix + Decimal(localPort), "-e", remoteDb, "-f", archive,
                 "--password-file", passwordFile];
    ConnectRoundTrip(localPort, args[2]);
    args
  }

  /** The `-c` value `localhost:<port>` reads back as that port. */
  lemma ConnectRoundTrip(port: nat, connect: string)
    requires connect == LocalHostPrefix + Decimal(port)
    ensures Seqs.IsPrefix(LocalHostPrefix, connect)
    ensures ParseDecimal(connect[|LocalHostPrefix|..]) == Some(port)
  {
    Seqs.PrefixOfConcat(LocalHostPrefix, Decimal(port));
    DecimalRoundTrip(port);
  }

  /** The dump command of a launched run. */
  function DumpArgsFor(s: Config.Settings, files: Staging.PasswordFiles): (args: seq<string>)
    ensures ParseDump(args) == Some(DumpCall("localhost", s.tunnel.localPort, Text(s.remoteDb), s.archive, files.remote))
  {
    DumpArgs(s.tunnel.localPort, Text(s.remoteDb), s.archive, files.remote)
  }

  /** What the close handler does: whether it closes the tunnel, and how it
      settles the dump's promise. */
  datatype DumpClosed = DumpClosed(closesTunnel: bool, settled: Processes.Settled)

  /** The `close` handler: a defined tunnel is closed whatever the exit status;
      then a truthy exit code rejects with that code and anything else resolves. */
  function OnDumpClose(exit: Processes.ExitStatus, tunnelDefined: bool): (r: DumpClosed)
    ensures r.closesTunnel <==> tunnelDefined
    ensures r.settled.Resolved? <==> !Processes.Failed(exit)
    ensures r.settled.Rejected? ==> exit == Processes.Exited(r.settled.code)
  {
    DumpClosed(tunnelDefined, Processes.Settle(exit))
  }
}
