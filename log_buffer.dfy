/** The admin dashboard's in-memory log buffer of admin/server/log_buffer.py: a bounded
    deque of formatted log lines and the handler that feeds it. The lock only serialises
    the operations below, each of which is modelled as one atomic step. */
module LogBuffer {
  import opened Wrappers
  import opened Seqs
  import opened LoggingUtils

  /** `LOG_BUFFER_MAX_LINES`. */
  const MaxLines := 5000

  /** The last `n` items of `s`, or all of them when there are fewer. */
  function Last<T>(s: seq<T>, n: nat): (r: seq<T>)
    ensures |r| == (if n < |s| then n else |s|)
    ensures r == s[|s| - |r|..]
  {
    if n < |s| then s[|s| - n..] else s
  }

  /** The shared deque `_lines` with `maxlen=LOG_BUFFER_MAX_LINES`. */
  class LineBuffer {
    var lines: seq<string>

    ghost predicate Valid()
      reads this
    {
      |lines| <= MaxLines
    }

    constructor ()
      ensures lines == [] && Valid()
    {
      lines := [];
    }

    /** `_lines.append(msg)`: a full deque drops its oldest line. */
    method Append(msg: string)
      requires Valid()
      modifies this
      ensures Valid()
      ensures lines == Last(old(lines) + [msg], MaxLines)
      ensures |old(lines)| < MaxLines ==> lines == old(lines) + [msg]
      ensures |old(lines)| == MaxLines ==> lines == old(lines)[1..] + [msg]
    {
      if |lines| == MaxLines {
        lines := lines[1..] + [msg];
      } else {
        lines := lines + [msg];
      }
    }

    /** `BufferHandler.emit` given the outcome of formatting the record: a record whose
        formatting raises is reported through `handleError` and adds no line. */
    method Emit(formatted: Option<string>)
      requires Valid()
      modifies this
      ensures Valid()
      ensures formatted.None? ==> lines == old(lines)
      ensures formatted.Some? ==> lines == Last(old(lines) + [formatted.value], MaxLines)
    {
      if formatted.Some? {
        Append(formatted.value);
      }
    }

    /** `get_logs(tail)`: the whole buffer when `tail` covers it, otherwise the slice
        `[-tail:]`, which for a positive `tail` is the newest `tail` lines, for 0 is the
        whole buffer and for a negative `tail` drops the oldest `-tail` lines. */
    method GetLogs(tail: int) returns (r: seq<string>)
      ensures tail >= 1 ==> r == Last(lines, tail)
      ensures tail == 0 ==> r == lines
      ensures tail < 0 ==> r == (if -tail < |lines| then lines[-tail..] else [])
    {
      if tail >= |lines| {
        r := lines;
      } else {
        r := PyFrom(lines, -tail);
      }
    }

    /** `clear_logs()`. */
    method ClearLogs()
      modifies this
      ensures lines == [] && Valid()
    {
      lines := [];
    }
  }

  /** Lines are kept in arrival order: appending then reading the newest line gives it back. */
  lemma AppendThenNewest(lines: seq<string>, msg: string)
    requires |lines| <= MaxLines
    ensures var s := Last(lines + [msg], MaxLines);
            |s| >= 1 && s[|s| - 1] == msg && |s| <= MaxLines
  {
  }

  /** Once the buffer is full, every further line evicts exactly the oldest one. */
  lemma {:induction false} FullBufferKeepsNewest(lines: seq<string>, msgs: seq<string>)
    requires |lines| == MaxLines
    ensures AppendAll(lines, msgs) == (lines + msgs)[|msgs|..]
    decreases |msgs|
  {
    if msgs != [] {
      var init := msgs[..|msgs| - 1];
      var m := msgs[|msgs| - 1];
      FullBufferKeepsNewest(lines, init);
      assert msgs == init + [m];
      assert lines + msgs == (lines + init) + [m];
    }
  }

  /** The buffer after the lines `msgs` were appended one by one. */
  function AppendAll(lines: seq<string>, msgs: seq<string>): (r: seq<string>)
    decreases |msgs|
  {
    if msgs == [] then lines
    else Last(AppendAll(lines, msgs[..|msgs| - 1]) + [msgs[|msgs| - 1]], MaxLines)
  }

  predicate HasBufferHandler(hs: seq<Handler>) {
    exists i :: 0 <= i < |hs| && hs[i].BufferHandler?
  }

  /** The number of buffer handlers on the root logger. */
  function BufferHandlers(hs: seq<Handler>): (n: nat)
    ensures n == 0 <==> !HasBufferHandler(hs)
    decreases |hs|
  {
    if hs == [] then 0
    else BufferHandlers(hs[..|hs| - 1]) + (if hs[|hs| - 1].BufferHandler? then 1 else 0)
  }

  /** `install_buffer_handler()`: adds one buffer handler unless the root logger has one. */
  method InstallBufferHandler(root: RootLogger)
    modifies root
    ensures HasBufferHandler(root.handlers)
    ensures HasBufferHandler(old(root.handlers)) ==> root.handlers == old(root.handlers)
    ensures !HasBufferHandler(old(root.handlers)) ==>
              root.handlers == old(root.handlers) + [BufferHandler]
    ensures BufferHandlers(root.handlers) ==
              if BufferHandlers(old(root.handlers)) == 0 then 1 else BufferHandlers(old(root.handlers))
    ensures root.level == old(root.level)
  {
    var i := 0;
    while i < |root.handlers|
      invariant 0 <= i <= |root.handlers|
      invariant forall j :: 0 <= j < i ==> !root.handlers[j].BufferHandler?
    {
      if root.handlers[i].BufferHandler? {
        assert HasBufferHandler(root.handlers) by { assert root.handlers[i].BufferHandler?; }
        return;
      }
      i := i + 1;
    }
    assert (root.handlers + [BufferHandler])[..|root.handlers|] == root.handlers;
    root.handlers := root.handlers + [BufferHandler];
    assert root.handlers[|root.handlers| - 1].BufferHandler?;
  }

  /** The application's startup hook: `configure_logging()` and then
      `install_buffer_handler()`. A bad `VERIBOND_LOG_LEVEL` raises from the first call,
      so the buffer handler is then not installed. */
  method Startup(root: RootLogger, envLevel: Option<string>, envJson: Option<string>)
    returns (r: Result<()>)
    modifies root
    ensures old(root.handlers) == [] && r.Ok? ==>
              root.handlers == [StreamHandler(EnvBool(envJson, false)), BufferHandler]
    ensures old(root.handlers) == [] ==>
              (r.Ok? <==> RequestedLevel(None, envLevel) in KnownLevels)
    ensures r.Ok? ==> BufferHandlers(root.handlers) >= 1
  {
    r := ConfigureLogging(root, None, None, envLevel, envJson);
    if r.Err? {
      return;
    }
    InstallBufferHandler(root);
  }
}
