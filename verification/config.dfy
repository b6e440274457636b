/** Option resolution for one run: the defaults `runTask` fills in, the
    normalisation of a `remoteDb` array, which questions the prompt asks,
    `mergeOptions`' precedence (explicit option, then prompt answer, then
    environment variable), the derived workspace paths, the required-setting
    check and the task dispatch. The prompt's answers, the environment and the
    clock reading are parameters. */
module Config {
  import opened JsValues
  import Seqs
  import Paths
  import Staging

  const TempRootDefault := "/tmp"
  const ArchiveName := "rethink_dump.tar.gz"
  /** The only entry of the script's task table. */
  const PullTask := "pull"

  /** The ssh tunnel's settings after defaults and the caller's keys are combined. */
  datatype Tunnel = Tunnel(port: nat, dstHost: string, dstPort: nat, localHost: string,
                           localPort: nat, keepAlive: bool, username: Val, host: Val)

  /** The `tunnel` object a caller passes: each key present (Some) or absent (None). */
  datatype TunnelKeys = TunnelKeys(port: Option<nat>, dstHost: Option<string>, dstPort: Option<nat>,
                                   localHost: Option<string>, localPort: Option<nat>,
                                   keepAlive: Option<bool>, username: Option<string>, host: Option<string>)

  const DefaultTunnel := Tunnel(22, "127.0.0.1", 28015, "127.0.0.1", 9999, true, Undefined, Undefined)

  /** One key of `Object.assign(defaults, keys)`. */
  function Assigned<T>(key: Option<T>, default: T): T {
    match key
    case Some(v) => v
    case None => default
  }

  /** `Object.assign(tunnelConfig, opts.tunnel)`: every key the caller gives
      replaces the default, every other key keeps it. */
  function TunnelConfig(k: TunnelKeys): (t: Tunnel)
    ensures k.port.Some? ==> t.port == k.port.value
    ensures k.port.None? ==> t.port == 22
    ensures k.dstHost.Some? ==> t.dstHost == k.dstHost.value
    ensures k.dstHost.None? ==> t.dstHost == "127.0.0.1"
    ensures k.dstPort.Some? ==> t.dstPort == k.dstPort.value
    ensures k.dstPort.None? ==> t.dstPort == 28015
    ensures k.localHost.Some? ==> t.localHost == k.localHost.value
    ensures k.localHost.None? ==> t.localHost == "127.0.0.1"
    ensures k.localPort.Some? ==> t.localPort == k.localPort.value
    ensures k.localPort.None? ==> t.localPort == 9999
    ensures k.keepAlive.Some? ==> t.keepAlive == k.keepAlive.value
    ensures k.keepAlive.None? ==> t.keepAlive
    ensures t.username == FromOption(k.username) && t.host == FromOption(k.host)
  {
    Tunnel(Assigned(k.port, DefaultTunnel.port), Assigned(k.dstHost, DefaultTunnel.dstHost),
           Assigned(k.dstPort, DefaultTunnel.dstPort), Assigned(k.localHost, DefaultTunnel.localHost),
           Assigned(k.localPort, DefaultTunnel.localPort), Assigned(k.keepAlive, DefaultTunnel.keepAlive),
           FromOption(k.username), FromOption(k.host))
  }

  /** The `options` object passed to `runTask`; absent settings are `Undefined` or None. */
  datatype UserOptions = UserOptions(tempDir: Option<string>, includeTables: Option<seq<string>>,
                                     excludeTables: Option<seq<string>>, tunnel: TunnelKeys,
                                     remoteDb: Val, localDb: Val, remotePwd: Val, localPwd: Val)

  /** `opts` once `runTask` has filled in its defaults, before any prompting. */
  datatype Opts = Opts(tempDir: string, includeTables: seq<string>, excludeTables: seq<string>,
                       tunnel: Tunnel, remoteDb: Val, localDb: Val, remotePwd: Val, localPwd: Val)

  /** `remoteDbList` says the prompt must offer `remoteDb` as a list of choices. */
  datatype Prepared = Prepared(opts: Opts, remoteDbList: bool)

  /** The variables read from the environment (after `.env` loading). */
  datatype Env = Env(remoteDbName: Option<string>, dbName: Option<string>,
                     remoteAdminPassword: Option<string>, localAdminPassword: Option<string>)

  /** A `remoteDb` array of two or more names stays a list to choose from; a
      one-element array becomes its element; an empty one becomes `undefined`. */
  function NormaliseRemoteDb(v: Val): (r: Val)
    ensures r.Strs? ==> r == v && |r.items| > 1
    ensures v.Strs? && |v.items| > 1 ==> r == v
    ensures v.Strs? && |v.items| == 1 ==> r == Str(v.items[0])
    ensures v.Strs? && |v.items| == 0 ==> r == Undefined
    ensures !v.Strs? ==> r == v
  {
    match v
    case Strs(xs) => if |xs| > 1 then v else if |xs| == 1 then Str(xs[0]) else Undefined
    case _ => v
  }

  /** The defaults of `runTask` under the caller's options. */
  function Prepare(u: UserOptions): (p: Prepared)
    ensures p.opts.tempDir == Assigned(u.tempDir, TempRootDefault)
    ensures p.opts.includeTables == Assigned(u.includeTables, [])
    ensures p.opts.excludeTables == Assigned(u.excludeTables, [])
    ensures p.opts.tunnel == TunnelConfig(u.tunnel)
    ensures p.opts.remoteDb == NormaliseRemoteDb(u.remoteDb)
    ensures p.remoteDbList <==> p.opts.remoteDb.Strs?
    ensures p.opts.localDb == u.localDb && p.opts.remotePwd == u.remotePwd && p.opts.localPwd == u.localPwd
  {
    var remoteDb := NormaliseRemoteDb(u.remoteDb);
    Prepared(Opts(Assigned(u.tempDir, TempRootDefault), Assigned(u.includeTables, []),
                  Assigned(u.excludeTables, []), TunnelConfig(u.tunnel), remoteDb,
                  u.localDb, u.remotePwd, u.localPwd),
             u.remoteDb.Strs? && |u.remoteDb.items| > 1)
  }

  /** The prompt's questions, in the order they are asked and checked. */
  datatype Question = TunnelUsername | TunnelHost | RemoteDb | RemotePwd | LocalDb | LocalPwd

  const Questions: seq<Question> := [TunnelUsername, TunnelHost, RemoteDb, RemotePwd, LocalDb, LocalPwd]

  lemma AllQuestionsListed()
    ensures forall q: Question :: q in Questions
  {
    forall q: Question ensures q in Questions {
      match q
      case TunnelUsername => assert Questions[0] == q;
      case TunnelHost => assert Questions[1] == q;
      case RemoteDb => assert Questions[2] == q;
      case RemotePwd => assert Questions[3] == q;
      case LocalDb => assert Questions[4] == q;
      case LocalPwd => assert Questions[5] == q;
    }
  }

  /** `argv.task || 'pull'`. */
  function TaskName(taskArg: string): string {
    if taskArg == "" then PullTask else taskArg
  }

  /** Each question's `when`: whether the prompt asks it. */
  predicate Asked(q: Question, p: Prepared, env: Env, task: string) {
    match q
    case TunnelUsername => !Truthy(p.opts.tunnel.username)
    case TunnelHost => !Truthy(p.opts.tunnel.host)
    case RemoteDb =>
      p.remoteDbList
      || (task == PullTask && !Truthy(FromOption(env.remoteDbName)) && !Truthy(p.opts.remoteDb))
    case RemotePwd => !Truthy(FromOption(env.remoteAdminPassword)) && !Truthy(p.opts.remotePwd)
    case LocalDb => !Truthy(p.opts.localDb)
    case LocalPwd => !Truthy(FromOption(env.localAdminPassword)) && !Truthy(p.opts.localPwd)
  }

  /** The prompt's answers object: a reply for each question it asked. */
  datatype Answers = Answers(tunnelUsername: Option<string>, tunnelHost: Option<string>,
                             remoteDb: Option<string>, remotePwd: Option<string>,
                             localDb: Option<string>, localPwd: Option<string>)

  function Reply(a: Answers, q: Question): Option<string> {
    match q
    case TunnelUsername => a.tunnelUsername
    case TunnelHost => a.tunnelHost
    case RemoteDb => a.remoteDb
    case RemotePwd => a.remotePwd
    case LocalDb => a.localDb
    case LocalPwd => a.localPwd
  }

  function AskOne(q: Question, p: Prepared, env: Env, task: string, respond: Question -> string): Option<string> {
    if Asked(q, p, env, task) then Some(respond(q)) else None
  }

  /** The prompt's answers: a reply to exactly the questions it asks, holding
      what the user would type (`respond`). */
  function Ask(p: Prepared, env: Env, task: string, respond: Question -> string): (a: Answers)
    ensures forall q :: Reply(a, q).Some? <==> Asked(q, p, env, task)
    ensures forall q :: Reply(a, q).Some? ==> Reply(a, q).value == respond(q)
  {
    Answers(AskOne(TunnelUsername, p, env, task, respond), AskOne(TunnelHost, p, env, task, respond),
            AskOne(RemoteDb, p, env, task, respond), AskOne(RemotePwd, p, env, task, respond),
            AskOne(LocalDb, p, env, task, respond), AskOne(LocalPwd, p, env, task, respond))
  }

  /** `answers[name]`: the reply, or `undefined` for a question not asked. */
  function Answer(a: Answers, q: Question): (v: Val)
    ensures !v.Strs?
    ensures Reply(a, q).None? ==> v == Undefined
  {
    FromOption(Reply(a, q))
  }

  /** `opts` after `mergeOptions`. */
  datatype Settings = Settings(tempDir: string, archive: string, includeTables: seq<string>,
                               excludeTables: seq<string>, tunnel: Tunnel,
                               remoteDb: Val, localDb: Val, remotePwd: Val, localPwd: Val)

  /** r is the first truthy of the explicit option, the answer and the
      environment value, or the environment value when none is truthy. */
  predicate FirstTruthy(r: Val, explicit: Val, answer: Val, env: Val) {
    && (Truthy(explicit) ==> r == explicit)
    && (!Truthy(explicit) && Truthy(answer) ==> r == answer)
    && (!Truthy(explicit) && !Truthy(answer) ==> r == env)
  }

  /** `explicit || answer || env`. */
  function FirstOf(explicit: Val, answer: Val, env: Val): (r: Val)
    ensures FirstTruthy(r, explicit, answer, env)
    ensures r == explicit || r == answer || r == env
  {
    OrChain3(explicit, answer, env);
    OrChain([explicit, answer, env])
  }

  /** Lines 20 and 25-27: a `remoteDb` still holding a list after the chain is
      replaced by the answer the user chose from it. */
  function MergedRemoteDb(explicit: Val, answer: Val, env: Val): (r: Val)
    requires !answer.Strs? && !env.Strs?
    ensures !explicit.Strs? ==> FirstTruthy(r, explicit, answer, env)
    ensures explicit.Strs? ==> r == answer
    ensures !r.Strs?
  {
    var r := FirstOf(explicit, answer, env);
    if r.Strs? then answer else r
  }

  /** `mergeOptions(opts, answers)` at clock reading `ts`. */
  function MergeOptions(o: Opts, a: Answers, env: Env, ts: nat): (s: Settings)
    ensures !o.remoteDb.Strs? ==> FirstTruthy(s.remoteDb, o.remoteDb, Answer(a, RemoteDb), FromOption(env.remoteDbName))
    ensures o.remoteDb.Strs? ==> s.remoteDb == Answer(a, RemoteDb)
    ensures !s.remoteDb.Strs?
    ensures FirstTruthy(s.localDb, o.localDb, Answer(a, LocalDb), FromOption(env.dbName))
    ensures FirstTruthy(s.remotePwd, o.remotePwd, Answer(a, RemotePwd), FromOption(env.remoteAdminPassword))
    ensures FirstTruthy(s.localPwd, o.localPwd, Answer(a, LocalPwd), FromOption(env.localAdminPassword))
    ensures Truthy(o.tunnel.username) ==> s.tunnel.username == o.tunnel.username
    ensures !Truthy(o.tunnel.username) ==> s.tunnel.username == Answer(a, TunnelUsername)
    ensures Truthy(o.tunnel.host) ==> s.tunnel.host == o.tunnel.host
    ensures !Truthy(o.tunnel.host) ==> s.tunnel.host == Answer(a, TunnelHost)
    ensures s.tunnel.(username := o.tunnel.username, host := o.tunnel.host) == o.tunnel
    ensures s.tempDir == Paths.Join(o.tempDir, Decimal(ts))
    ensures s.archive == Paths.Join(s.tempDir, ArchiveName)
    ensures s.includeTables == o.includeTables && s.excludeTables == o.excludeTables
  {
    var username := if Truthy(o.tunnel.username) then o.tunnel.username else Answer(a, TunnelUsername);
    var host := if Truthy(o.tunnel.host) then o.tunnel.host else Answer(a, TunnelHost);
    var tempDir := Paths.Join(o.tempDir, Decimal(ts));
    Settings(tempDir, Paths.Join(tempDir, ArchiveName), o.includeTables, o.excludeTables,
             o.tunnel.(username := username, host := host),
             MergedRemoteDb(o.remoteDb, Answer(a, RemoteDb), FromOption(env.remoteDbName)),
             FirstOf(o.localDb, Answer(a, LocalDb), FromOption(env.dbName)),
             FirstOf(o.remotePwd, Answer(a, RemotePwd), FromOption(env.remoteAdminPassword)),
             FirstOf(o.localPwd, Answer(a, LocalPwd), FromOption(env.localAdminPassword)))
  }

  /** `opts[item.name]` for each question's name. */
  function Setting(s: Settings, q: Question): Val {
    match q
    case TunnelUsername => s.tunnel.username
    case TunnelHost => s.tunnel.host
    case RemoteDb => s.remoteDb
    case RemotePwd => s.remotePwd
    case LocalDb => s.localDb
    case LocalPwd => s.localPwd
  }

  /** Every required setting that is falsy, in question order; none is skipped
      because an earlier one was already missing. */
  function MissingSettings(s: Settings): (missing: seq<Question>)
    ensures forall q :: q in missing <==> !Truthy(Setting(s, q))
    ensures Seqs.IsSubsequence(missing, Questions)
    ensures |missing| <= |Questions|
  {
    AllQuestionsListed();
    Seqs.FilterIsSubsequence(Questions, q => !Truthy(Setting(s, q)));
    Seqs.Filter(Questions, q => !Truthy(Setting(s, q)))
  }

  /** How `runTask` ends: an unknown task, a stop for missing settings, or a
      launch with the password files the pull writes and reads. */
  datatype Decision =
    | UnknownTask(settings: Settings, task: string)
    | Stop(settings: Settings, missing: seq<Question>)
    | Launch(settings: Settings, passwordFiles: Staging.PasswordFiles)

  /** The checks `runTask` makes on the merged settings: the task must be in
      the task table, then every required setting must be truthy; a run that
      passes gets its password files, named `<tempDir>/<db>.txt` after each
      database. */
  function Dispatch(taskArg: string, s: Settings): (d: Decision)
    ensures d.settings == s
    ensures d.UnknownTask? <==> taskArg != PullTask
    ensures d.Stop? ==> |d.missing| > 0 && forall q :: q in d.missing <==> !Truthy(Setting(s, q))
    ensures taskArg == PullTask ==> (d.Launch? <==> forall q :: Truthy(Setting(s, q)))
    ensures d.Launch? ==> Truthy(s.remoteDb) && Truthy(s.localDb) && Truthy(s.remotePwd) && Truthy(s.localPwd)
    ensures d.Launch? ==> d.passwordFiles == Staging.PasswordFilesAsWritten(s.tempDir, Text(s.remoteDb), Text(s.localDb))
    ensures d.Launch? ==> (d.passwordFiles.remote == d.passwordFiles.local <==> Text(s.remoteDb) == Text(s.localDb))
  {
    if taskArg != PullTask then UnknownTask(s, taskArg)
    else
      var missing := MissingSettings(s);
      if |missing| > 0 then Stop(s, missing)
      else
        NothingMissing(s);
        Launch(s, Staging.PasswordFilesAsWritten(s.tempDir, Text(s.remoteDb), Text(s.localDb)))
  }

  lemma NothingMissing(s: Settings)
    requires |MissingSettings(s)| == 0
    ensures forall q :: Truthy(Setting(s, q))
    ensures Truthy(s.remoteDb) && Truthy(s.localDb) && Truthy(s.remotePwd) && Truthy(s.localPwd)
  {
    assert Truthy(Setting(s, RemoteDb)) && Truthy(Setting(s, LocalDb));
    assert Truthy(Setting(s, RemotePwd)) && Truthy(Setting(s, LocalPwd));
  }

  /** The whole of `runTask` once the prompt has answered. */
  function Resolve(taskArg: string, u: UserOptions, env: Env, respond: Question -> string, ts: nat): Decision {
    var p := Prepare(u);
    Dispatch(taskArg, MergeOptions(p.opts, Ask(p, env, TaskName(taskArg), respond), env, ts))
  }

  /** Runs started at different clock readings get different workspaces. */
  lemma WorkspacePerTimestamp(root: string, t1: nat, t2: nat)
    requires t1 != t2
    ensures Paths.Join(root, Decimal(t1)) != Paths.Join(root, Decimal(t2))
  {
    if Paths.Join(root, Decimal(t1)) == Paths.Join(root, Decimal(t2)) {
      Paths.JoinInjective(root, Decimal(t1), Decimal(t2));
      DecimalInjective(t1, t2);
    }
  }

  /** Options with every required setting in place: nothing is asked. */
  lemma NothingAsked(p: Prepared, env: Env, task: string, respond: Question -> string)
    requires !p.remoteDbList && !p.opts.remoteDb.Strs? && Truthy(p.opts.remoteDb)
    requires Truthy(p.opts.localDb) && Truthy(p.opts.remotePwd) && Truthy(p.opts.localPwd)
    requires Truthy(p.opts.tunnel.username) && Truthy(p.opts.tunnel.host)
    ensures Ask(p, env, task, respond) == Answers(None, None, None, None, None, None)
  {
  }

  /** Merging no answers into options that hold every required setting keeps
      those settings and the tunnel as they are. */
  lemma MergeKeepsExplicit(o: Opts, env: Env, ts: nat)
    requires !o.remoteDb.Strs? && Truthy(o.remoteDb)
    requires Truthy(o.localDb) && Truthy(o.remotePwd) && Truthy(o.localPwd)
    requires Truthy(o.tunnel.username) && Truthy(o.tunnel.host)
    ensures var s := MergeOptions(o, Answers(None, None, None, None, None, None), env, ts);
            && s.remoteDb == o.remoteDb && s.localDb == o.localDb
            && s.remotePwd == o.remotePwd && s.localPwd == o.localPwd
            && s.tunnel == o.tunnel
  {
  }

  /** Settings whose six required values are truthy pass the required-setting check. */
  lemma SettingsPresent(s: Settings)
    requires Truthy(s.tunnel.username) && Truthy(s.tunnel.host)
    requires Truthy(s.remoteDb) && Truthy(s.localDb) && Truthy(s.remotePwd) && Truthy(s.localPwd)
    ensures forall q :: Truthy(Setting(s, q))
  {
    forall q ensures Truthy(Setting(s, q)) {
      match q
      case _ =>
    }
  }

  /** A caller who passes every setting, tunnel username and host included, is
      asked nothing and gets a run with exactly those settings and the tunnel
      the defaults and the caller's keys make. */
  lemma ExplicitOptionsLaunch(u: UserOptions, env: Env, respond: Question -> string, ts: nat)
    requires u.remoteDb.Str? && u.remoteDb.s != ""
    requires Truthy(u.localDb) && Truthy(u.remotePwd) && Truthy(u.localPwd)
    requires u.tunnel.username.Some? && u.tunnel.username.value != ""
    requires u.tunnel.host.Some? && u.tunnel.host.value != ""
    ensures var d := Resolve(PullTask, u, env, respond, ts);
            && d.Launch?
            && d.settings.remoteDb == u.remoteDb && d.settings.localDb == u.localDb
            && d.settings.remotePwd == u.remotePwd && d.settings.localPwd == u.localPwd
            && d.settings.tunnel == TunnelConfig(u.tunnel)
            && Ask(Prepare(u), env, PullTask, respond) == Answers(None, None, None, None, None, None)
  {
    var p := Prepare(u);
    var task := TaskName(PullTask);
    assert task == PullTask;
    NothingAsked(p, env, task, respond);
    var none := Answers(None, None, None, None, None, None);
    MergeKeepsExplicit(p.opts, env, ts);
    var s := MergeOptions(p.opts, none, env, ts);
    SettingsPresent(s);
    assert Ask(p, env, task, respond) == none;
    assert Resolve(PullTask, u, env, respond, ts) == Dispatch(PullTask, s);
  }

  /** A list of candidate remote databases is always put to the user, and the
      chosen name replaces the list, whatever the environment says. */
  lemma RemoteDbListUsesChoice(u: UserOptions, env: Env, taskArg: string, respond: Question -> string, ts: nat)
    requires u.remoteDb.Strs? && |u.remoteDb.items| > 1
    ensures var p := Prepare(u);
            Reply(Ask(p, env, TaskName(taskArg), respond), RemoteDb).Some?
            && Resolve(taskArg, u, env, respond, ts).settings.remoteDb == Str(respond(RemoteDb))
  {
  }

  /** A one-element `remoteDb` array behaves as its element. */
  lemma SingletonRemoteDb(u: UserOptions, env: Env, taskArg: string, respond: Question -> string, ts: nat)
    requires u.remoteDb.Strs? && |u.remoteDb.items| == 1 && u.remoteDb.items[0] != ""
    ensures Resolve(taskArg, u, env, respond, ts).settings.remoteDb == Str(u.remoteDb.items[0])
  {
  }
}
