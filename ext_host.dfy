/**
 * The extension-host supervisor: builds the options a worker process is
 * forked with, classifies the messages the worker sends, and keeps the
 * small lifecycle around the child handle (send, dispose, the host's
 * process-exit hook, the child's exit).
 *
 * `fork`, the child process and Node's process events are outside the
 * model: the forked child is a handle passed to the constructor, and each
 * event the environment delivers (a message, the child's exit, the IPC
 * channel closing, the host process exiting) is a method call.
 */
module ExtHost {
  import opened Wrappers
  import opened Strings

  /** The variable that tells the worker who its parent is. */
  const ParentPidVariable := "VSCODE_PARENT_PID"

  /** Removed from the worker's environment on macOS, where it makes forked processes crash. */
  const DyldLibraryPath := "DYLD_LIBRARY_PATH"

  /** The `type` of the handshake message the worker sends when it is ready. */
  const ReadyMessageType := "VSCODE_EXTHOST_IPC_READY"

  /** The `type` of the exit signal that does not count as a crash. */
  const GracefulSignal := "SIGTERM"

  type Environment = map<string, string>

  /** The members of `IIPCOptions` the supervisor reads. */
  datatype IpcOptions = IpcOptions(
    serverName: string,
    args: Option<seq<string>>,
    env: Option<Environment>,
    freshExecArgv: bool,
    debug: Option<int>,
    debugBrk: Option<int>)

  /** What the supervisor reads of its own process: `process.env`, `process.pid`, `process.execArgv`, and whether it runs on macOS. */
  datatype HostProcess = HostProcess(env: Environment, pid: nat, execArgv: seq<string>, isMacintosh: bool)

  /** The options handed to `fork`. */
  datatype ForkOptions = ForkOptions(silent: bool, env: Environment, execArgv: seq<string>)

  // ---------------------------------------------------------------------
  // Fork options

  /** An argument `^--inspect(-brk)?=` matches: a debugger bound to a port. */
  predicate IsInspectFlag(a: string) {
    HasPrefix(a, "--inspect=") || HasPrefix(a, "--inspect-brk=")
  }

  /** `execArgv.filter(a => !/^--inspect(-brk)?=/.test(a))`. */
  function StripInspectFlags(argv: seq<string>): (r: seq<string>)
    ensures forall a :: a in r <==> a in argv && !IsInspectFlag(a)
    ensures |r| <= |argv|
  {
    if argv == [] then []
    else (if IsInspectFlag(argv[0]) then [] else [argv[0]]) + StripInspectFlags(argv[1..])
  }

  /** Filtering a concatenation filters each part in place: the kept entries stay in their order. */
  lemma {:induction false} StripInspectFlagsAppend(a: seq<string>, b: seq<string>)
    ensures StripInspectFlags(a + b) == StripInspectFlags(a) + StripInspectFlags(b)
    decreases |a|
  {
    if a != [] {
      assert (a + b)[1..] == a[1..] + b;
      StripInspectFlagsAppend(a[1..], b);
    } else {
      assert a + b == b;
    }
  }

  /** Arguments with no debugger flag are inherited unchanged. */
  lemma {:induction false} StripInspectFlagsKeepsOthers(argv: seq<string>)
    requires forall i :: 0 <= i < |argv| ==> !IsInspectFlag(argv[i])
    ensures StripInspectFlags(argv) == argv
    decreases |argv|
  {
    if argv != [] {
      StripInspectFlagsKeepsOthers(argv[1..]);
      assert [argv[0]] + argv[1..] == argv;
    }
  }

  /**
   * The worker's runtime arguments, by precedence: a break-on-start
   * debugger wins over a plain one, either wins over `freshExecArgv`, and
   * with none of them the host's own arguments are inherited without their
   * debugger flags (the port would clash).
   */
  function ExpectedExecArgv(host: HostProcess, options: IpcOptions): seq<string> {
    if options.debugBrk.Some? then ["--nolazy", "--inspect-brk=" + IntToString(options.debugBrk.value)]
    else if options.debug.Some? then ["--nolazy", "--inspect=" + IntToString(options.debug.value)]
    else if options.freshExecArgv then []
    else StripInspectFlags(host.execArgv)
  }

  /**
   * `opts` are the fork options for `options` on `host`: silent; the
   * environment is the host's, plus the parent pid, with the caller's
   * overrides on top, and without `DYLD_LIBRARY_PATH` on macOS; the
   * runtime arguments are `ExpectedExecArgv`.
   */
  ghost predicate IsForkOptionsFor(host: HostProcess, options: IpcOptions, opts: ForkOptions) {
    var overrides := options.env.GetOr(map[]);
    && opts.silent
    && opts.env.Keys == (host.env.Keys + {ParentPidVariable} + overrides.Keys) - (if host.isMacintosh then {DyldLibraryPath} else {})
    && (forall k :: k in opts.env ==>
          opts.env[k] == (if k in overrides then overrides[k]
                          else if k == ParentPidVariable then NatToString(host.pid)
                          else host.env[k]))
    && opts.execArgv == ExpectedExecArgv(host, options)
  }

  /**
   * The constructor's assembly of the fork options, step by step as the
   * constructor does it: each later `execArgv` assignment overwrites an
   * earlier one, and the macOS deletion comes after the overrides.
   */
  method BuildForkOptions(host: HostProcess, options: IpcOptions) returns (opts: ForkOptions)
    ensures IsForkOptionsFor(host, options, opts)
  {
    var env := host.env + map[ParentPidVariable := NatToString(host.pid)];
    if options.env.Some? {
      env := env + options.env.value;
    }
    var execArgv: Option<seq<string>> := None;
    if options.freshExecArgv {
      execArgv := Some([]);
    }
    if options.debug.Some? {
      execArgv := Some(["--nolazy", "--inspect=" + IntToString(options.debug.value)]);
    }
    if options.debugBrk.Some? {
      execArgv := Some(["--nolazy", "--inspect-brk=" + IntToString(options.debugBrk.value)]);
    }
    if execArgv.None? {
      execArgv := Some(StripInspectFlags(host.execArgv));
    }
    if host.isMacintosh {
      env := env - {DyldLibraryPath};
    }
    opts := ForkOptions(true, env, execArgv.value);
  }

  /** The description fixes the fork options completely. */
  lemma ForkOptionsUnique(host: HostProcess, options: IpcOptions, a: ForkOptions, b: ForkOptions)
    requires IsForkOptionsFor(host, options, a) && IsForkOptionsFor(host, options, b)
    ensures a == b
  {
    assert a.env.Keys == b.env.Keys;
    forall k | k in a.env ensures a.env[k] == b.env[k] { }
    assert a.env == b.env;
  }

  /** An override wins over the inherited and injected entries, except the variable macOS removes. */
  lemma OverrideWins(host: HostProcess, options: IpcOptions, opts: ForkOptions, k: string)
    requires IsForkOptionsFor(host, options, opts)
    requires options.env.Some? && k in options.env.value
    requires !(host.isMacintosh && k == DyldLibraryPath)
    ensures k in opts.env && opts.env[k] == options.env.value[k]
  {
  }

  /** Without an override of it, the parent pid is the host's pid in decimal. */
  lemma ParentPidInjected(host: HostProcess, options: IpcOptions, opts: ForkOptions)
    requires IsForkOptionsFor(host, options, opts)
    requires options.env.None? || ParentPidVariable !in options.env.value
    ensures ParentPidVariable in opts.env && opts.env[ParentPidVariable] == NatToString(host.pid)
    ensures ParseDecimal(opts.env[ParentPidVariable]) == host.pid
  {
    ParseNatToString(host.pid);
  }

  /** Inherited variables keep their value unless overridden. */
  lemma HostVariableInherited(host: HostProcess, options: IpcOptions, opts: ForkOptions, k: string)
    requires IsForkOptionsFor(host, options, opts)
    requires k in host.env && k != ParentPidVariable && (options.env.None? || k !in options.env.value)
    requires !(host.isMacintosh && k == DyldLibraryPath)
    ensures k in opts.env && opts.env[k] == host.env[k]
  {
  }

  /** On macOS the worker never sees `DYLD_LIBRARY_PATH`, even when an override sets it. */
  lemma DyldRemovedOnMac(host: HostProcess, options: IpcOptions, opts: ForkOptions)
    requires IsForkOptionsFor(host, options, opts) && host.isMacintosh
    ensures DyldLibraryPath !in opts.env
  {
  }

  /** A break-on-start debugger gives exactly `--nolazy --inspect-brk=B`, whatever else is set. */
  lemma DebugBrkWins(host: HostProcess, options: IpcOptions, opts: ForkOptions)
    requires IsForkOptionsFor(host, options, opts) && options.debugBrk.Some?
    ensures opts.execArgv == ["--nolazy", "--inspect-brk=" + IntToString(options.debugBrk.value)]
    ensures forall i :: 0 <= i < |opts.execArgv| && IsInspectFlag(opts.execArgv[i]) ==> i == 1
  {
  }

  /**
   * With no debugger and no `freshExecArgv` the worker inherits the host's
   * arguments minus the debugger flags, the others in their order.
   */
  lemma InheritedExecArgv(host: HostProcess, options: IpcOptions, opts: ForkOptions)
    requires IsForkOptionsFor(host, options, opts)
    requires options.debug.None? && options.debugBrk.None? && !options.freshExecArgv
    ensures forall i :: 0 <= i < |opts.execArgv| ==> !IsInspectFlag(opts.execArgv[i])
    ensures forall a :: a in opts.execArgv <==> a in host.execArgv && !IsInspectFlag(a)
  {
    assert opts.execArgv == StripInspectFlags(host.execArgv);
    forall i | 0 <= i < |opts.execArgv| ensures !IsInspectFlag(opts.execArgv[i]) {
      assert opts.execArgv[i] in opts.execArgv;
    }
  }

  // ---------------------------------------------------------------------
  // Inbound messages

  /**
   * A message the worker sends. `isRemoteConsoleLog` is what the shared
   * remote-console-log test reports of it (that test's body is not part
   * of this model); `msgType` is its `type` member, if it has one.
   */
  datatype InboundMessage = InboundMessage(isRemoteConsoleLog: bool, msgType: Option<string>, payload: string)

  /** How the message handler treats a message. */
  datatype Envelope = ConsoleLog | Ready | Ignored

  /** Console logs are recognised first; then the ready handshake; everything else is ignored. */
  function Classify(msg: InboundMessage): (e: Envelope)
    ensures e == ConsoleLog <==> msg.isRemoteConsoleLog
    ensures e == Ready <==> !msg.isRemoteConsoleLog && msg.msgType == Some(ReadyMessageType)
  {
    if msg.isRemoteConsoleLog then ConsoleLog
    else if msg.msgType == Some(ReadyMessageType) then Ready
    else Ignored
  }

  // ---------------------------------------------------------------------
  // Exit

  /** How the child ended: `code` is null when a signal ended it, `signal` null when it exited on its own. */
  datatype ExitRecord = ExitRecord(code: Option<int>, signal: Option<string>)

  /** `code !== 0 && signal !== 'SIGTERM'`. */
  predicate IsCrash(exit: ExitRecord) {
    exit.code != Some(0) && exit.signal != Some(GracefulSignal)
  }

  /** The classification table: clean exits, a terminate request, and two crashes. */
  lemma CrashTable()
    ensures !IsCrash(ExitRecord(Some(0), None))
    ensures IsCrash(ExitRecord(Some(1), None))
    ensures !IsCrash(ExitRecord(Some(0), Some("SIGTERM")))
    ensures !IsCrash(ExitRecord(None, Some("SIGTERM")))
    ensures IsCrash(ExitRecord(Some(137), Some("SIGKILL")))
    ensures IsCrash(ExitRecord(None, Some("SIGKILL")))
  {
  }

  /** A warning the supervisor writes to the console. */
  datatype Warning = Crashed(exit: ExitRecord) | Errored(error: string)

  /** An outbound message and the optional handle sent with it; neither is interpreted. */
  datatype Outbound = Outbound(message: string, sendHandle: Option<nat>)

  /** The forked child as the supervisor sees it: its pid and whether its IPC channel is open. */
  datatype ChildProcess = ChildProcess(pid: nat, connected: bool)

  // ---------------------------------------------------------------------
  // The supervisor

  class ExtensionHost {
    const modulePath: string
    const options: IpcOptions
    /** The arguments and options the child was forked with. */
    const forkArgs: seq<string>
    const forkOptions: ForkOptions

    /** The child; null once `disposeClient` has killed it. */
    var child: Option<ChildProcess>
    /** The host's `process.once('exit', ...)` listener is still registered. */
    var exitHookRegistered: bool
    /** `_onDidProcessExit` has been disposed: it delivers nothing any more. */
    var exitEmitterDisposed: bool
    /** The events `onReady` delivered, in order. */
    var readyEvents: seq<InboundMessage>
    /** The events `onDidProcessExit` delivered, in order. */
    var exitEvents: seq<ExitRecord>

    /** How often `child.kill()` was called. */
    ghost var kills: nat
    /** How often the exit hook was registered. */
    ghost var hookRegistrations: nat
    /** The child process has exited (Node reports that once). */
    ghost var childExited: bool
    /** Console logs forwarded to the host's log, with the label they were tagged with. */
    ghost var consoleLogs: seq<(InboundMessage, string)>
    ghost var warnings: seq<Warning>
    /** What `child.send` was called with. */
    ghost var sent: seq<Outbound>

    ghost predicate Valid()
      reads this
    {
      && kills <= 1
      && (child.None? <==> kills == 1)
      && hookRegistrations == 1
      && |exitEvents| <= 1
      && (exitEvents != [] ==> childExited)
      && (childExited ==> !exitHookRegistered)
    }

    /**
     * Builds the fork options, forks (the child is `forked`), subscribes to
     * the child's messages, exit and errors, and registers the host's exit
     * hook once.
     */
    constructor(modulePath: string, options: IpcOptions, host: HostProcess, forked: nat)
      ensures Valid()
      ensures this.modulePath == modulePath && this.options == options
      ensures forkArgs == options.args.GetOr([])
      ensures IsForkOptionsFor(host, options, forkOptions)
      ensures child == Some(ChildProcess(forked, true))
      ensures exitHookRegistered && !exitEmitterDisposed && !childExited
      ensures readyEvents == [] && exitEvents == [] && kills == 0
      ensures consoleLogs == [] && warnings == [] && sent == []
    {
      var opts := BuildForkOptions(host, options);
      this.modulePath := modulePath;
      this.options := options;
      forkArgs := options.args.GetOr([]);
      forkOptions := opts;
      child := Some(ChildProcess(forked, true));
      exitHookRegistered := true;
      hookRegistrations := 1;
      exitEmitterDisposed := false;
      childExited := false;
      readyEvents, exitEvents := [], [];
      kills := 0;
      consoleLogs, warnings, sent := [], [], [];
    }

    /** `disposeClient`: kill the child and forget it; a second call finds nothing to kill. */
    method DisposeClient()
      requires Valid()
      modifies this`child, this`kills
      ensures Valid()
      ensures child == None
      ensures kills == if old(child).Some? then old(kills) + 1 else old(kills)
    {
      if child.Some? {
        kills := kills + 1;
        child := None;
      }
    }

    /** `dispose`: no exit event is delivered any more, and the child is killed if it still is known. */
    method Dispose()
      requires Valid()
      modifies this`exitEmitterDisposed, this`child, this`kills
      ensures Valid()
      ensures exitEmitterDisposed && child == None
      ensures kills == if old(child).Some? then old(kills) + 1 else old(kills)
    {
      exitEmitterDisposed := true;
      DisposeClient();
    }

    /**
     * `sendIPCMessage`: hand the message to the child when there is one and
     * its channel is connected, and return what `child.send` returned
     * (`accepted`); otherwise return false.
     */
    method SendIpcMessage(message: string, sendHandle: Option<nat>, accepted: bool) returns (ok: bool)
      requires Valid()
      modifies this`sent
      ensures Valid()
      ensures ok <==> child.Some? && child.value.connected && accepted
      ensures sent == if child.Some? && child.value.connected then old(sent) + [Outbound(message, sendHandle)] else old(sent)
    {
      if child.Some? && child.value.connected {
        sent := sent + [Outbound(message, sendHandle)];
        ok := accepted;
      } else {
        ok := false;
      }
    }

    /** The message handler: forward console logs, fire `onReady` on every handshake, ignore the rest. */
    method OnMessage(msg: InboundMessage)
      requires Valid()
      modifies this`consoleLogs, this`readyEvents
      ensures Valid()
      ensures consoleLogs == if Classify(msg) == ConsoleLog then old(consoleLogs) + [(msg, "IPC Library: " + options.serverName)] else old(consoleLogs)
      ensures readyEvents == if Classify(msg) == Ready then old(readyEvents) + [msg] else old(readyEvents)
    {
      match Classify(msg)
      case ConsoleLog =>
        consoleLogs := consoleLogs + [(msg, "IPC Library: " + options.serverName)];
      case Ready =>
        readyEvents := readyEvents + [msg];
      case Ignored =>
    }

    /** The host process exits: the once-listener, if still registered, is consumed and disposes the client. */
    method OnHostExit()
      requires Valid()
      modifies this`exitHookRegistered, this`child, this`kills
      ensures Valid()
      ensures !exitHookRegistered
      ensures child == if old(exitHookRegistered) then None else old(child)
      ensures kills == if old(exitHookRegistered) && old(child).Some? then old(kills) + 1 else old(kills)
    {
      if exitHookRegistered {
        exitHookRegistered := false;
        DisposeClient();
      }
    }

    /**
     * The child exits: the host's exit hook is removed, a crash is warned
     * about, and `onDidProcessExit` delivers the exit unless disposed.
     */
    method OnChildExit(exit: ExitRecord)
      requires Valid() && !childExited
      modifies this`childExited, this`exitHookRegistered, this`warnings, this`exitEvents
      ensures Valid()
      ensures childExited && !exitHookRegistered
      ensures warnings == if IsCrash(exit) then old(warnings) + [Crashed(exit)] else old(warnings)
      ensures exitEvents == if old(exitEmitterDisposed) then old(exitEvents) else old(exitEvents) + [exit]
    {
      childExited := true;
      exitHookRegistered := false;
      if IsCrash(exit) {
        warnings := warnings + [Crashed(exit)];
      }
      if !exitEmitterDisposed {
        exitEvents := exitEvents + [exit];
      }
    }

    /** The child reports an error: it is only warned about. */
    method OnChildError(error: string)
      requires Valid()
      modifies this`warnings
      ensures Valid()
      ensures warnings == old(warnings) + [Errored(error)]
    {
      warnings := warnings + [Errored(error)];
    }

    /** The child's IPC channel closes: `child.connected` turns false. */
    method OnChannelClosed()
      requires Valid()
      modifies this`child
      ensures Valid()
      ensures child == if old(child).Some? then Some(old(child).value.(connected := false)) else None
    {
      if child.Some? {
        child := Some(child.value.(connected := false));
      }
    }
  }

  // ---------------------------------------------------------------------
  // Scenarios

  /** A worker that sends the handshake and exits with code 0: one ready event, one clean exit. */
  method ReadyThenCleanExit(options: IpcOptions, host: HostProcess, ready: InboundMessage)
    requires Classify(ready) == Ready
  {
    var h := new ExtensionHost("bootstrap-fork", options, host, 7);
    h.OnMessage(ready);
    h.OnChildExit(ExitRecord(Some(0), None));
    assert h.readyEvents == [ready];
    assert h.exitEvents == [ExitRecord(Some(0), None)];
    assert h.warnings == [];
    assert !h.exitHookRegistered;
  }

  /** A worker that exits with code 1 before any message: no ready event, one exit, one crash warning. */
  method CrashBeforeAnyMessage(options: IpcOptions, host: HostProcess)
  {
    var h := new ExtensionHost("bootstrap-fork", options, host, 7);
    h.OnChildExit(ExitRecord(Some(1), None));
    assert h.readyEvents == [];
    assert h.exitEvents == [ExitRecord(Some(1), None)];
    assert h.warnings == [Crashed(ExitRecord(Some(1), None))];
  }

  /** Disposing twice kills once; afterwards nothing can be sent and a later exit is not delivered. */
  method DisposeTwice(options: IpcOptions, host: HostProcess)
  {
    var h := new ExtensionHost("bootstrap-fork", options, host, 7);
    h.Dispose();
    h.Dispose();
    assert h.kills == 1;
    var ok := h.SendIpcMessage("m", None, true);
    assert !ok;
    h.OnChildExit(ExitRecord(None, Some("SIGTERM")));
    assert h.exitEvents == [] && h.warnings == [];
  }

  /** The handshake is not deduplicated: two ready messages fire `onReady` twice. */
  method ReadyTwice(options: IpcOptions, host: HostProcess, ready: InboundMessage)
    requires Classify(ready) == Ready
  {
    var h := new ExtensionHost("bootstrap-fork", options, host, 7);
    h.OnMessage(ready);
    h.OnMessage(ready);
    assert h.readyEvents == [ready, ready];
  }
}
