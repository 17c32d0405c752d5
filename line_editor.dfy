/**
 * The browser client's line editor (src/pages/Index.tsx, the `term.onData`
 * handler).  The handler keeps the line being typed in a closure variable
 * `commandBuffer`; each chunk of input reported by the terminal widget either
 * sends the line to the server (Enter), erases its last character
 * (Backspace), or is appended to it and echoed.
 */
module LineEditor {
  import opened Wrappers

  /** The chunk the widget reports for the Enter key. */
  const Enter: string := "\r"
  /** The chunk the widget reports for the Backspace key (DEL, code 0x7F). */
  const Backspace: string := "\U{7F}"
  /** What `term.writeln('')` writes: an empty line. */
  const NewLine: string := "\r\n"
  /** What the handler writes to rub out one character: back, blank, back. */
  const RubOut: string := "\U{8} \U{8}"

  /** What one input chunk does: the new buffer, the line sent to the
      server (if any) and the text echoed to the terminal (if any). */
  datatype Reaction = Reaction(buffer: string, sent: Option<string>, echo: Option<string>)

  /** The handler's reaction to the chunk `data` when the buffer holds `buffer`. */
  function Step(buffer: string, data: string): (r: Reaction)
    // a line is sent exactly when the chunk is Enter, and it is the whole buffer
    ensures r.sent.Some? <==> data == Enter
    ensures data == Enter ==> r.sent == Some(buffer) && r.buffer == [] && r.echo == Some(NewLine)
    // Backspace drops exactly the last character and keeps the rest as a prefix
    ensures data == Backspace && buffer != [] ==>
      |r.buffer| == |buffer| - 1 && r.buffer + [buffer[|buffer| - 1]] == buffer && r.echo == Some(RubOut)
    // Backspace on an empty buffer does nothing at all
    ensures data == Backspace && buffer == [] ==> r.buffer == [] && r.echo == None
    // any other chunk, a multi-character paste included, is appended verbatim and echoed
    ensures data != Enter && data != Backspace ==>
      |r.buffer| == |buffer| + |data| && r.buffer[..|buffer|] == buffer && r.buffer[|buffer|..] == data
      && r.echo == Some(data)
    // the buffer changes in exactly one of three ways
    ensures r.buffer == [] || (buffer != [] && r.buffer == buffer[..|buffer| - 1]) || r.buffer == buffer + data
    // nothing is echoed only for a Backspace on an empty buffer
    ensures r.echo == None <==> data == Backspace && buffer == []
  {
    if data == Enter then
      Reaction([], Some(buffer), Some(NewLine))
    else if data == Backspace then
      if |buffer| > 0 then Reaction(buffer[..|buffer| - 1], None, Some(RubOut))
      else Reaction(buffer, None, None)
    else
      Reaction(buffer + data, None, Some(data))
  }

  /** The buffer left and the lines sent after a run of chunks. */
  datatype Transcript = Transcript(buffer: string, sent: seq<string>)

  /** The handler applied to each chunk in turn, starting from `buffer`. */
  function Feed(buffer: string, chunks: seq<string>): (r: Transcript)
    decreases |chunks|
  {
    if chunks == [] then Transcript(buffer, [])
    else
      var first := Step(buffer, chunks[0]);
      var rest := Feed(first.buffer, chunks[1..]);
      Transcript(rest.buffer, (if first.sent.Some? then [first.sent.value] else []) + rest.sent)
  }

  /** All chunks glued together. */
  function Concat(chunks: seq<string>): string
    decreases |chunks|
  {
    if chunks == [] then [] else chunks[0] + Concat(chunks[1..])
  }

  /** Typing `s` one key at a time: one single-character chunk per character. */
  function Keystrokes(s: string): seq<string>
  {
    seq(|s|, i requires 0 <= i < |s| => [s[i]])
  }

  /** `n` presses of Backspace. */
  function Backspaces(n: nat): seq<string>
  {
    seq(n, _ => Backspace)
  }

  /** Neither Enter nor Backspace occurs among the chunks. */
  predicate Plain(chunks: seq<string>)
  {
    forall i :: 0 <= i < |chunks| ==> chunks[i] != Enter && chunks[i] != Backspace
  }

  /** Feeding two runs one after the other is feeding their concatenation. */
  lemma {:induction false} FeedAppend(buffer: string, xs: seq<string>, ys: seq<string>)
    ensures Feed(buffer, xs + ys) ==
      Transcript(Feed(Feed(buffer, xs).buffer, ys).buffer,
                 Feed(buffer, xs).sent + Feed(Feed(buffer, xs).buffer, ys).sent)
    decreases |xs|
  {
    if xs == [] {
      assert xs + ys == ys;
    } else {
      assert (xs + ys)[1..] == xs[1..] + ys;
      FeedAppend(Step(buffer, xs[0]).buffer, xs[1..], ys);
    }
  }

  /** Exactly one line is sent per Enter chunk, whatever else is typed. */
  lemma {:induction false} SentOncePerEnter(buffer: string, chunks: seq<string>)
    ensures |Feed(buffer, chunks).sent| == multiset(chunks)[Enter]
    decreases |chunks|
  {
    if chunks != [] {
      assert chunks == [chunks[0]] + chunks[1..];
      SentOncePerEnter(Step(buffer, chunks[0]).buffer, chunks[1..]);
    }
  }

  /** Chunks that are neither Enter nor Backspace accumulate verbatim and send nothing. */
  lemma {:induction false} PlainChunksAccumulate(buffer: string, chunks: seq<string>)
    requires Plain(chunks)
    ensures Feed(buffer, chunks) == Transcript(buffer + Concat(chunks), [])
    decreases |chunks|
  {
    if chunks != [] {
      assert Plain(chunks[1..]) by {
        forall i | 0 <= i < |chunks[1..]| ensures chunks[1..][i] != Enter && chunks[1..][i] != Backspace {
          assert chunks[1..][i] == chunks[i + 1];
        }
      }
      assert chunks[0] != Enter && chunks[0] != Backspace;
      assert Step(buffer, chunks[0]) == Reaction(buffer + chunks[0], None, Some(chunks[0]));
      PlainChunksAccumulate(buffer + chunks[0], chunks[1..]);
      assert Concat(chunks) == chunks[0] + Concat(chunks[1..]);
      assert buffer + chunks[0] + Concat(chunks[1..]) == buffer + Concat(chunks);
    }
  }

  /** Typing a string key by key reproduces it in the buffer. */
  lemma {:induction false} ConcatKeystrokes(s: string)
    ensures Concat(Keystrokes(s)) == s
    decreases |s|
  {
    if s != [] {
      assert Keystrokes(s)[1..] == Keystrokes(s[1..]);
      ConcatKeystrokes(s[1..]);
      assert [s[0]] + s[1..] == s;
    }
  }

  /** Each Backspace removes one trailing character until the buffer is empty;
      further ones change nothing. */
  lemma {:induction false} BackspacesErase(buffer: string, n: nat)
    ensures Feed(buffer, Backspaces(n)) ==
      Transcript(if n <= |buffer| then buffer[..|buffer| - n] else [], [])
    decreases n
  {
    if n > 0 {
      var keys := Backspaces(n);
      assert keys[0] == Backspace && keys[1..] == Backspaces(n - 1);
      var b := if buffer == [] then [] else buffer[..|buffer| - 1];
      assert Step(buffer, Backspace) == Reaction(b, None, if buffer == [] then None else Some(RubOut));
      BackspacesErase(b, n - 1);
      assert Feed(buffer, keys) == Feed(b, keys[1..]);
      if n <= |buffer| {
        assert b[..|b| - (n - 1)] == buffer[..|buffer| - n];
      }
    }
  }

  /** Typing a line without Enter or Backspace characters, key by key, and then
      pressing Enter sends exactly what was in the buffer followed by that line,
      and leaves the buffer empty. */
  lemma TypedLineIsSent(buffer: string, s: string)
    requires forall i :: 0 <= i < |s| ==> s[i] != '\r' && s[i] != '\U{7F}'
    ensures Feed(buffer, Keystrokes(s) + [Enter]) == Transcript([], [buffer + s])
  {
    var keys := Keystrokes(s);
    assert Plain(keys) by {
      forall i | 0 <= i < |keys| ensures keys[i] != Enter && keys[i] != Backspace {
        assert keys[i] == [s[i]];
        assert keys[i][0] == s[i];
      }
    }
    PlainChunksAccumulate(buffer, keys);
    ConcatKeystrokes(s);
    FeedAppend(buffer, keys, [Enter]);
  }

  /** Typing a line key by key and then pressing Backspace once per character
      restores the buffer and sends nothing. */
  lemma TypedLineIsErased(buffer: string, s: string)
    requires forall i :: 0 <= i < |s| ==> s[i] != '\r' && s[i] != '\U{7F}'
    ensures Feed(buffer, Keystrokes(s) + Backspaces(|s|)) == Transcript(buffer, [])
  {
    var keys := Keystrokes(s);
    assert Plain(keys) by {
      forall i | 0 <= i < |keys| ensures keys[i] != Enter && keys[i] != Backspace {
        assert keys[i] == [s[i]];
        assert keys[i][0] == s[i];
      }
    }
    PlainChunksAccumulate(buffer, keys);
    ConcatKeystrokes(s);
    FeedAppend(buffer, keys, Backspaces(|s|));
    BackspacesErase(buffer + s, |s|);
    assert (buffer + s)[..|buffer + s| - |s|] == buffer;
  }

  /** The `onData` handler together with the `commandBuffer` it updates. */
  class CommandLine {
    var buffer: string

    /** The buffer starts empty when the handler is installed. */
    constructor ()
      ensures buffer == []
    {
      buffer := [];
    }

    /** Handles one chunk: returns the line emitted as `terminal-input`, if
        any, and the text written back to the terminal, if any. */
    method OnData(data: string) returns (sent: Option<string>, echo: Option<string>)
      modifies this
      ensures Reaction(buffer, sent, echo) == Step(old(buffer), data)
    {
      sent, echo := None, None;
      if data == Enter {
        echo := Some(NewLine);
        sent := Some(buffer);
        buffer := [];
      } else if data == Backspace {
        if |buffer| > 0 {
          buffer := buffer[..|buffer| - 1];
          echo := Some(RubOut);
        }
      } else {
        buffer := buffer + data;
        echo := Some(data);
      }
    }
  }
}
