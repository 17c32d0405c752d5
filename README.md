# Web terminal: client line editor, connection flags and server session bookkeeping

This project models the stateful core of a browser-based terminal. The
browser runs an xterm widget. A Python Flask/Socket.IO server runs one shell
on a pseudo-terminal for each connection. The model proves properties of
three pieces:

- **Client line editor** (`LineEditor`, from `src/pages/Index.tsx`). The
  `onData` handler keeps the line being typed in `commandBuffer`.
  - An Enter chunk (`"\r"`) sends the buffer as `terminal-input` and clears it.
  - A Backspace chunk (DEL, `0x7F`) erases the last character and echoes
    back-blank-back. On an empty buffer it does nothing.
  - Any other chunk is appended and echoed.

  `Step` is the handler as a function. `CommandLine.OnData` is the handler as
  a method on the mutable buffer. `Feed` runs the handler over a sequence of
  chunks, and the lemmas about `Feed` state what a session of typing does.
- **Connection flags and view** (`ConnectionStatus`, from
  `src/pages/Index.tsx`).
  - `isConnected` and `isLoading` are changed by the socket's `connect` and
    `disconnect` events and by a 3-second timer.
  - The timer is re-armed whenever `isConnected` changes.
  - The page body shows a spinner, a "server not running" panel or the
    terminal, chosen from the two flags.
- **Server sessions** (`TerminalServer`, from `server.py`).
  - `Terminal` holds `fd`, `pid`, `running` and `thread`.
  - Its `start` is guarded against running twice. In the child it executes
    the shell with `TERM=xterm-256color` added to the inherited environment.
    In the parent it marks itself running and starts one daemon reader thread.
  - The `connect` handler files a new `Terminal` under the connection id in
    the `terminals` dictionary, then starts it.

`pty.fork` is an argument of `Terminal.Start` (`ForkOutcome`: failed, or a
pid and a descriptor). The reader thread is an opaque object that records
only its owner, its daemon flag and whether it was started. A new thread
inherits the daemon flag of the thread that creates it. That flag, and the
parent process's environment, are arguments too.

## Model

| member | source | states |
|---|---|---|
| LineEditor.Step | src/pages/Index.tsx:78-92 | a line is sent iff the chunk is exactly Enter, and it is the whole buffer, which is then empty; Backspace on a non-empty buffer drops exactly the last character (the rest is a prefix) and echoes the rub-out; Backspace on an empty buffer changes, sends and echoes nothing; any other chunk is appended verbatim and echoed; the buffer changes in exactly one of three ways |
| LineEditor.FeedAppend | src/pages/Index.tsx:77-92 | handling two runs of chunks in turn equals handling their concatenation: the buffer carries over and the sent lines are concatenated in order |
| LineEditor.SentOncePerEnter | src/pages/Index.tsx:79-82 | over any run of chunks, the number of lines sent equals the number of chunks that are exactly Enter |
| LineEditor.PlainChunksAccumulate | src/pages/Index.tsx:88-90 | chunks that are neither Enter nor Backspace (pastes holding `\r` included) accumulate verbatim at the end of the buffer and nothing is sent |
| LineEditor.BackspacesErase | src/pages/Index.tsx:83-87 | n Backspaces remove the last n characters, or empty the buffer if it is shorter, and send nothing |
| LineEditor.TypedLineIsSent | src/pages/Index.tsx:77-92 | typing a line key by key and pressing Enter sends the previous buffer followed by that line and leaves the buffer empty |
| LineEditor.TypedLineIsErased | src/pages/Index.tsx:77-92 | typing a line key by key and then one Backspace per character restores the buffer and sends nothing |
| LineEditor.CommandLine.constructor | src/pages/Index.tsx:77 | the buffer starts empty |
| LineEditor.CommandLine.OnData | src/pages/Index.tsx:78-92 | the new buffer, the emitted line and the echo are those of `Step` on the old buffer |
| ConnectionStatus.Next | src/pages/Index.tsx:136-162 | `connect` sets connected and clears loading; `disconnect` clears only connected; the timer leaves connected alone and can only lower loading, only when pending and not connected; a timer is pending iff connected changed or one was pending and did not fire; a pending timer does lower loading when not connected; no event raises loading; connected implies not loading is preserved |
| ConnectionStatus.SelectView | src/pages/Index.tsx:181-202 | spinner iff loading; "not running" panel iff not loading and not connected; terminal iff not loading and connected |
| ConnectionStatus.RunConsistent | src/pages/Index.tsx:136-162 | after any run of events from a consistent state, connected still implies not loading |
| ConnectionStatus.LoadingNeverRises | src/pages/Index.tsx:141-160 | once loading is false it stays false over any run of events |
| ConnectionStatus.SpinnerUntilConnectOrTimeout | src/pages/Index.tsx:136-160 | from disconnected, loading and timer pending, loading stays true iff neither `connect` nor the timer has occurred |
| ConnectionStatus.ViewFromMount | src/pages/Index.tsx:136-202 | from mount, the spinner shows iff no `connect` and no timer expiry has occurred, and the terminal shows iff connected |
| ConnectionStatus.NeverConnectedWithoutConnect | src/pages/Index.tsx:151-160 | without a `connect` event a disconnected client stays disconnected over any run of events |
| ConnectionStatus.OnlyTimeoutsFromMount | src/pages/Index.tsx:136-148 | from mount, when only the timer fires, the client is never connected and the page shows the spinner before the first expiry and the "not running" panel after it |
| ConnectionStatus.ConnectionFlags.constructor | src/pages/Index.tsx:136-137 | starts not connected, loading, with the timer pending |
| ConnectionStatus.ConnectionFlags.OnConnect | src/pages/Index.tsx:153-156 | the flags become `Next(old, Connected)` |
| ConnectionStatus.ConnectionFlags.OnDisconnect | src/pages/Index.tsx:158-160 | the flags become `Next(old, Disconnected)` |
| ConnectionStatus.ConnectionFlags.OnTimeout | src/pages/Index.tsx:139-148 | the flags become `Next(old, TimedOut)` |
| TerminalServer.ShellEnvironment | server.py:47-48 | the child environment has the parent's keys plus `TERM`, maps `TERM` to `xterm-256color`, and keeps every other key's value |
| TerminalServer.ShellEnvironmentDetermined | server.py:47-48 | that description fixes the environment uniquely, and a parent that already has the override passes its environment on unchanged |
| TerminalServer.ReaderThread.constructor | server.py:52 | a new thread belongs to its terminal, takes its daemon flag from the creating thread, and is not started |
| TerminalServer.ReaderThread.Start | server.py:54 | a thread not yet started becomes started and keeps its daemon flag |
| TerminalServer.Terminal.constructor | server.py:31-36 | a new terminal has its connection id, no fd, no pid, no thread, and is not running |
| TerminalServer.Terminal.Start | server.py:38-54 | on a running terminal nothing changes and nothing is forked; a failed fork changes nothing; in the child pid 0 and the fd are recorded and the shell is executed as `/bin/bash` with the overridden environment; in the parent pid and fd are recorded before running becomes true and exactly one fresh daemon thread is started; a running terminal always has pid, fd and a started thread |
| TerminalServer.Registry.constructor | server.py:28 | the dictionary starts empty |
| TerminalServer.Registry.HandleConnect | server.py:81-86 | the id maps to a fresh terminal for that id, even when starting it fails; any previous terminal under that id is replaced without being touched; other ids keep their entries; the new terminal is started and never reports already running; a successful fork's pid and fd are recorded, the child asks to exec the shell with the overridden environment, and the parent is running with a started daemon thread |

## Left out

- `pty.fork`, `os.execvpe` and `threading.Thread` are operating-system primitives. The fork result is an argument. The exec is the `ExecShell` request that `start` returns in the child. The thread is an opaque object.
- `read_output`, `write_input`, `resize`, `stop`, and the `disconnect`, `terminal-input`, `resize` and `ping` handlers are not modelled. `server.py` has only placeholder comments where they would be (server.py:56 and server.py:89), so any teardown or read-loop behaviour would be invented. Hence no entry is ever removed from `terminals` in this model.
- Starting the reader thread is taken to succeed. In Python, `Thread.start()` raises `RuntimeError` when no thread can be created. That would leave `running` true (server.py:51) with a thread that never started (server.py:54), which `Terminal.Valid()` rules out.
- The Flask routes, static files, `/health`, the 404 handler and the `__main__` build checks are HTTP and process plumbing.
- The Python exception that a failed `pty.fork` raises is the `SpawnFailed` result. Its propagation out of the `connect` handler, which skips the log line, is not modelled.
- xterm construction, theme, font, FitAddon, Socket.IO client setup and reconnection, the resize emit, the ping interval and the health probe are UI, network and timers.
- `term.write` echoes are modelled as the text written ("echoed or not, and what"), not as what the terminal displays.
- Strings are sequences of characters. JavaScript's `length` and `slice(0, -1)` work on UTF-16 code units, so Backspace after a character outside the Basic Multilingual Plane removes half of a surrogate pair in the source, and a whole character in the model.
- Time is not modelled. The timer is a pending flag, and its expiry is an event that may come at any point.
- React effect scheduling and mount order are not modelled, and under React's rules they decide the page's fate:
  - The mount effect has empty dependencies, so it runs once, after the first render. At that point `isLoading` is still true (src/pages/Index.tsx:137), so the element that sets `terminalRef` (src/pages/Index.tsx:198-201) is not rendered.
  - The effect therefore returns at src/pages/Index.tsx:15 and never runs again. The socket is never created and the `onData` handler (src/pages/Index.tsx:78) is never installed.
  - `socketRef.current` stays null, so the `connect` and `disconnect` handlers (src/pages/Index.tsx:151-162) are never registered.
  - After the 3-second timer (src/pages/Index.tsx:141-145) the page shows the "not running" panel for good.

  `LineEditor`, and the `Connected` and `Disconnected` events of `ConnectionStatus`, model those handlers as if the socket existed. As the source is written, the only event that ever happens is `TimedOut`.
- The stale-closure window is not modelled: a timer that fires after `setIsConnected` but before React re-runs the effect.
- JSX markup, Tailwind styling and the header's status dot are presentation only.
