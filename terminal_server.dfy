/**
 * The server's session bookkeeping (server.py): a `Terminal` per Socket.IO
 * connection, started by forking a shell on a pseudo-terminal, and the
 * module-level `terminals` dictionary that maps connection ids to them.
 *
 * `pty.fork` is not modelled; its result is the `ForkOutcome` argument of
 * `Terminal.Start`, chosen by the caller, and so is the daemon flag of the
 * thread that calls it.  The reader thread is an opaque object that only
 * records its owner, its daemon flag and whether it was started.
 */
module TerminalServer {
  import opened Wrappers

  /** The environment variable the child's environment overrides, and its value. */
  const TermKey: string := "TERM"
  const TermValue: string := "xterm-256color"
  /** The program the child executes, which is also its only argument. */
  const Shell: string := "/bin/bash"

  /** What `pty.fork` gives: an error, or a process id (0 in the child) and
      the master side's file descriptor. */
  datatype ForkOutcome = ForkFailed | Forked(pid: nat, fd: int)

  /** How `start` ended. */
  datatype StartResult =
    | AlreadyRunning                 // the guard returned at once
    | SpawnFailed                    // `pty.fork` raised
    | ExecShell(path: string, argv: seq<string>, env: map<string, string>)
                                     // the child asks to replace itself by the shell
    | Spawned                        // the parent started the reader thread

  /** `env` is `parent` with only `TERM` set to the colour-capable value. */
  predicate IsShellEnvironment(parent: map<string, string>, env: map<string, string>)
  {
    && env.Keys == parent.Keys + {TermKey}
    && env[TermKey] == TermValue
    && forall k :: k in parent && k != TermKey ==> env[k] == parent[k]
  }

  /** The child's environment: a copy of the parent's, then `TERM` overridden. */
  method ShellEnvironment(parent: map<string, string>) returns (env: map<string, string>)
    ensures IsShellEnvironment(parent, env)
  {
    env := parent;
    env := env[TermKey := TermValue];
  }

  /** The override pins the child's environment down completely, and a parent
      that already has the override passes its environment on unchanged. */
  lemma ShellEnvironmentDetermined(parent: map<string, string>, env: map<string, string>)
    requires IsShellEnvironment(parent, env)
    ensures env == parent[TermKey := TermValue]
    ensures TermKey in parent && parent[TermKey] == TermValue ==> env == parent
  {
  }

  /** The background thread that pumps the pseudo-terminal's output. */
  class ReaderThread {
    const owner: Terminal
    var daemon: bool
    var started: bool

    /** A new thread takes its daemon flag from the thread that creates it. */
    constructor (owner: Terminal, inheritedDaemon: bool)
      ensures this.owner == owner && daemon == inheritedDaemon && !started
    {
      this.owner := owner;
      daemon, started := inheritedDaemon, false;
    }

    /** A thread can be started only once. */
    method Start()
      requires !started
      modifies this
      ensures started && daemon == old(daemon)
    {
      started := true;
    }
  }

  class Terminal {
    const socketId: string
    var fd: Option<int>
    var pid: Option<nat>
    var running: bool
    var thread: ReaderThread?

    /** A running terminal has a (parent-side) pid, a descriptor and its
        started reader thread. */
    ghost predicate Valid()
      reads this, thread
    {
      running ==>
        && pid.Some? && pid.value != 0 && fd.Some?
        && thread != null && thread.owner == this && thread.daemon && thread.started
    }

    constructor (socketId: string)
      ensures this.socketId == socketId
      ensures fd == None && pid == None && !running && thread == null
      ensures Valid()
    {
      this.socketId := socketId;
      fd, pid := None, None;
      running := false;
      thread := null;
    }

    /** Forks the shell, unless the terminal is already running. */
    method Start(fork: ForkOutcome, parentEnv: map<string, string>, callerDaemon: bool) returns (r: StartResult)
      requires Valid()
      modifies this
      ensures Valid()
      // the guard: starting a running terminal changes nothing and forks nothing
      ensures old(running) ==> r == AlreadyRunning && unchanged(this)
      // a failed fork leaves every field as it was
      ensures !old(running) && fork == ForkFailed ==> r == SpawnFailed && unchanged(this)
      // in the child: pid 0 and the descriptor are recorded, then the shell is
      // executed with the overridden environment
      ensures !old(running) && fork.Forked? && fork.pid == 0 ==>
        && r.ExecShell? && r.path == Shell && r.argv == [Shell]
        && IsShellEnvironment(parentEnv, r.env)
        && pid == Some(0) && fd == Some(fork.fd) && !running && thread == old(thread)
      // in the parent: pid and descriptor recorded, running, and exactly one new
      // reader thread created, made a daemon and started
      ensures !old(running) && fork.Forked? && fork.pid != 0 ==>
        && r == Spawned && pid == Some(fork.pid) && fd == Some(fork.fd) && running
        && thread != null && fresh(thread) && thread.owner == this
        && thread.daemon && thread.started
    {
      if running {
        return AlreadyRunning;
      }
      if fork.ForkFailed? {
        return SpawnFailed;
      }
      pid, fd := Some(fork.pid), Some(fork.fd);
      if fork.pid == 0 {
        var env := ShellEnvironment(parentEnv);
        r := ExecShell(Shell, [Shell], env);
      } else {
        running := true;
        thread := new ReaderThread(this, callerDaemon);
        thread.daemon := true;
        thread.Start();
        r := Spawned;
      }
    }
  }

  /** The module-level `terminals` dictionary and the `connect` handler. */
  class Registry {
    var terminals: map<string, Terminal>

    /** Every terminal is filed under its own connection id. */
    ghost predicate Valid()
      reads this
    {
      forall id :: id in terminals ==> terminals[id].socketId == id
    }

    constructor ()
      ensures terminals == map[] && Valid()
    {
      terminals := map[];
    }

    /** Builds a terminal for the connection, files it under the connection
        id, and only then starts it. */
    method HandleConnect(socketId: string, fork: ForkOutcome, parentEnv: map<string, string>,
                         handlerDaemon: bool)
      returns (terminal: Terminal, r: StartResult)
      requires Valid()
      modifies this
      ensures Valid()
      ensures fresh(terminal) && terminal.socketId == socketId && terminal.Valid()
      // the id now maps to the new terminal, whatever start did, and every
      // other id keeps its entry
      ensures terminals == old(terminals)[socketId := terminal]
      // a previous terminal under the same id is dropped without being touched
      ensures socketId in old(terminals) ==> unchanged(old(terminals)[socketId])
      // the fresh terminal is never already running, so start always forks
      ensures r != AlreadyRunning
      ensures fork == ForkFailed ==>
        r == SpawnFailed && !terminal.running && terminal.pid == None && terminal.fd == None
      // a successful fork records its pid and descriptor in the new terminal
      ensures fork.Forked? ==> terminal.pid == Some(fork.pid) && terminal.fd == Some(fork.fd)
      ensures fork.Forked? && fork.pid == 0 ==>
        && r.ExecShell? && r.path == Shell && r.argv == [Shell]
        && IsShellEnvironment(parentEnv, r.env) && !terminal.running
      ensures fork.Forked? && fork.pid != 0 ==>
        && r == Spawned && terminal.running && terminal.thread != null
        && terminal.thread.daemon && terminal.thread.started
    {
      terminal := new Terminal(socketId);
      terminals := terminals[socketId := terminal];
      r := terminal.Start(fork, parentEnv, handlerDaemon);
    }
  }
}
