/** The `read_digits` dialplan application: `<num_digits> [<var_name>
    [<timeout>]]` collects `num_digits` decimal digits from the caller's
    DTMF tones into a 128-byte buffer, ignoring `*` and `#`, stores them in
    the channel variable `var_name` and reports `success`, `timeout` or
    `failure` in the channel's read-result variable.

    The channel is a collaborator: the status of pre-answering is an input,
    each `switch_ivr_collect_digits_count` call is answered from a script of
    replies, and the channel variables are a map that is passed in and
    returned with the application's writes applied. */
module ReadDigits {
  import opened CString
  import opened DigitFilter

  datatype Option<T> = None | Some(value: T)

  /** The `switch_status_t` values the application tells apart; `Other`
      stands for every other value the channel may return. */
  datatype Status = Success | False | Timeout | TooSmall | Other(code: int)

  /** `sizeof(digit_buffer)`. */
  const BufferSize: nat := 128
  /** The inter-digit timeout, in milliseconds, when none is given. */
  const DefaultTimeout: nat := 10000
  /** The shortest inter-digit timeout, in milliseconds, the application uses. */
  const MinTimeout: nat := 1000
  /** `SWITCH_READ_RESULT_VARIABLE`. */
  const ReadResultVariable: string := "read_result"

  /** One space-separated argument: its text, and the value `atoi` gives it
      (the application assumes it is not negative). */
  datatype Token = Token(text: string, number: nat)

  /** The normalised parameters of one invocation. */
  datatype Request = Request(numDigits: nat, varName: Option<string>, timeout: nat)

  /** The channel's answer to one `switch_ivr_collect_digits_count` call: the
      DTMF symbols it appended to the buffer and the status it returned. */
  datatype Reply = Reply(symbols: seq<char>, status: Status)

  /** The arguments of one `switch_ivr_collect_digits_count` call: the buffer
      length, the largest number of symbols to collect, and the inter-digit
      timeout. */
  datatype Call = Call(bufLen: int, maxDigits: int, timeout: nat)

  /** The answer to every read after the scripted ones: the call has ended,
      no symbol arrives and the channel reports `SWITCH_STATUS_FALSE`. */
  const Hangup: Reply := Reply([], False)

  /** `x`, raised to `lo` when it is at most `lo`. */
  function AtLeast(x: nat, lo: nat): nat {
    if x <= lo then lo else x
  }

  /** Reading and normalising the arguments: the digit count is at least 1,
      the variable name is the second argument when there is one, and the
      timeout is the third argument (10000 ms when absent), at least 1000 ms. */
  function Normalise(argv: seq<Token>): (r: Request)
    requires 1 <= |argv| <= 3
    ensures r.numDigits >= 1 && r.numDigits >= argv[0].number
    ensures r.numDigits == 1 || r.numDigits == argv[0].number
    ensures r.varName.Some? <==> |argv| >= 2
    ensures r.varName.Some? ==> r.varName.value == argv[1].text
    ensures r.timeout >= MinTimeout
    ensures |argv| < 3 ==> r.timeout == DefaultTimeout
    ensures |argv| == 3 ==> r.timeout >= argv[2].number
    ensures |argv| == 3 ==> r.timeout == MinTimeout || r.timeout == argv[2].number
  {
    Request(AtLeast(argv[0].number, 1),
            if |argv| > 1 then Some(argv[1].text) else None,
            AtLeast(if |argv| > 2 then argv[2].number else DefaultTimeout, MinTimeout))
  }

  /** The buffer check as the source writes it: a digit count is refused
      only when it exceeds the buffer's size. */
  predicate AcceptsAsWritten(numDigits: nat) {
    !(BufferSize < numDigits)
  }

  /** The buffer check this model uses: the digits and their terminator must
      fit, so a digit count is refused when it is at least the buffer's size. */
  predicate Accepts(numDigits: nat) {
    numDigits < BufferSize
  }

  /** The reply to the next read. */
  function Next(script: seq<Reply>): Reply {
    if script == [] then Hangup else script[0]
  }

  /** The replies left after the next read. */
  function Rest(script: seq<Reply>): seq<Reply> {
    if script == [] then [] else script[1..]
  }

  /** The channel collects no more than the `maxdigits` it is asked for. */
  function Clip(symbols: seq<char>, max: nat): seq<char> {
    if |symbols| <= max then symbols else symbols[..max]
  }

  /** What the collection loop produces: the digits gathered, the status of
      the last read, the calls made to the channel, and all the symbols the
      channel delivered, in order. */
  datatype Collection = Collection(digits: seq<char>, status: Status, calls: seq<Call>, delivered: seq<char>)

  /** The collection loop, from a loop head where `digits` have been gathered
      and the last read returned `status`: while fewer than `n` digits are
      there and the status is success, one more read asks for the digits
      still missing, and the digits of what it delivers are appended. */
  function Collect(n: nat, timeout: nat, digits: seq<char>, status: Status, script: seq<Reply>): Collection
    decreases |script|, if status == Success then 1 else 0
  {
    if |digits| >= n || status != Success then Collection(digits, status, [], [])
    else
      var reply := Next(script);
      var got := Clip(reply.symbols, n - |digits|);
      var rest := Collect(n, timeout, digits + Digits(got), reply.status, Rest(script));
      Collection(rest.digits, rest.status,
                 [Call(BufferSize - |digits|, n - |digits|, timeout)] + rest.calls,
                 got + rest.delivered)
  }

  /** What one invocation leaves behind: the final status, the string in
      `digit_buffer` (which the application logs), the channel variables, and
      the calls made to the channel. */
  datatype Report = Report(status: Status, digits: string, vars: map<string, string>, calls: seq<Call>)

  /** The read-result value for a final status. */
  function ResultText(status: Status): string {
    match status
    case Success => "success"
    case Timeout => "timeout"
    case _ => "failure"
  }

  function Finish(status: Status, digits: string, vars: map<string, string>, calls: seq<Call>): Report {
    Report(status, digits, vars[ReadResultVariable := ResultText(status)], calls)
  }

  /** The whole application as a function of the pre-answer status, the
      arguments, the channel's replies and the channel variables before. */
  function Outcome(answer: Status, argv: seq<Token>, script: seq<Reply>, vars: map<string, string>): Report
    requires |argv| <= 3
  {
    if answer != Success || argv == [] then Finish(False, [], vars, [])
    else
      var req := Normalise(argv);
      if !Accepts(req.numDigits) then Finish(False, [], vars, [])
      else
        var c := Collect(req.numDigits, req.timeout, [], Success, script);
        var vars' := if req.varName.Some? then vars[req.varName.value := c.digits] else vars;
        Finish(if |c.digits| < req.numDigits then TooSmall else c.status, c.digits, vars', c.calls)
  }

  /** The channel's side of one read: it appends the symbols it collected at
      offset `at` of the buffer and terminates them. */
  method Deliver(buf: array<char>, at: nat, symbols: seq<char>)
    requires at + |symbols| < buf.Length
    modifies buf
    ensures buf[at..at + |symbols|] == symbols
    ensures buf[at + |symbols|] == NUL
    ensures forall k :: 0 <= k < at || at + |symbols| < k < buf.Length ==> buf[k] == old(buf[k])
  {
    for i := 0 to |symbols|
      invariant forall j :: 0 <= j < i ==> buf[at + j] == symbols[j]
      invariant forall k :: 0 <= k < at || at + i <= k < buf.Length ==> buf[k] == old(buf[k])
    {
      buf[at + i] := symbols[i];
    }
    buf[at + |symbols|] := NUL;
  }

  /** `read_digits_function`.  `answer` is what `switch_channel_pre_answer`
      returned, `argv` the split argument string (empty when there is none),
      `script` the channel's replies to successive reads, and `vars0` the
      channel variables before; the method returns the final status, the
      string left in `digit_buffer`, the channel variables after, and the
      calls it made to the channel. */
  method ReadDigitsFunction(answer: Status, argv: seq<Token>, script: seq<Reply>, vars0: map<string, string>)
    returns (status: Status, digits: string, vars: map<string, string>, calls: seq<Call>)
    requires |argv| <= 3
    requires NulFree(script)
    ensures Report(status, digits, vars, calls) == Outcome(answer, argv, script, vars0)
  {
    status := Success;
    vars := vars0;
    calls := [];
    var numDigits: nat := 0;
    var timeout: nat := DefaultTimeout;
    var varName: Option<string> := None;
    var buf := new char[BufferSize](_ => NUL);

    if answer != Success {
      status := False;
    }
    if status == Success && argv == [] {
      status := False;
    }
    if status == Success {
      numDigits := argv[0].number;
      if |argv| > 1 {
        varName := Some(argv[1].text);
      }
      if |argv| > 2 {
        timeout := argv[2].number;
      }
      if numDigits <= 1 {
        numDigits := 1;
      }
      if timeout <= MinTimeout {
        timeout := MinTimeout;
      }
      if !Accepts(numDigits) {
        status := False;
      }
    }

    if status == Success {
      assert Request(numDigits, varName, timeout) == Normalise(argv);
      var len;
      len, status, calls := CollectDigits(buf, numDigits, timeout, script);
      CStrAt(buf[..], len);
      if varName.Some? {
        var value := CopyCString(buf);
        vars := vars[varName.value := value];
      }
      if len < numDigits {
        status := TooSmall;
      }
    } else {
      assert buf[0] == NUL;
      CStrAt(buf[..], 0);
    }
    vars := vars[ReadResultVariable := ResultText(status)];
    digits := CopyCString(buf);
  }

  /** The collection loop of `read_digits_function`: while fewer than
      `numDigits` digits are in the buffer and the last read succeeded, ask
      the channel for the digits still missing, filter only what it appended
      after the digits already there, and advance `len` and `prevLen`.  The
      buffer then holds the collected digits, terminated, and the status and
      calls are those of the collection loop. */
  method CollectDigits(buf: array<char>, numDigits: nat, timeout: nat, script: seq<Reply>)
    returns (len: nat, status: Status, calls: seq<Call>)
    requires buf.Length == BufferSize && TerminatedAt(buf, 0, 0)
    requires 1 <= numDigits && Accepts(numDigits)
    requires NulFree(script)
    modifies buf
    ensures len <= numDigits && TerminatedAt(buf, 0, len)
    ensures var c := Collect(numDigits, timeout, [], Success, script);
            buf[..len] == c.digits && status == c.status && calls == c.calls
  {
    ghost var total := Collect(numDigits, timeout, [], Success, script);
    len, status, calls := 0, Success, [];
    var prevLen: nat := 0;
    var left := script;
    assert buf[..len] == [];
    while len < numDigits && status == Success
      invariant prevLen == len <= numDigits < BufferSize
      invariant NulFree(left)
      invariant TerminatedAt(buf, 0, len) && AllDigits(buf[..len])
      invariant Step(numDigits, timeout, total, buf[..len], status, calls, left)
      decreases |left|, if status == Success then 1 else 0
    {
      len, status, calls, left := ReadOnce(buf, numDigits, timeout, total, len, calls, left);
      prevLen := len;
    }
  }

  /** No reply of the channel carries a NUL: it delivers C strings. */
  predicate NulFree(script: seq<Reply>) {
    forall i :: 0 <= i < |script| ==> NUL !in script[i].symbols
  }

  /** One pass of the collection loop: the read asks the channel for the
      `numDigits - len` digits still missing, passing the room left after the
      digits already there; the symbols it appends are filtered from
      `prev_len` on.  The loop invariant carries over to the new length,
      status, calls and replies left. */
  method ReadOnce(buf: array<char>, numDigits: nat, timeout: nat, ghost total: Collection,
                  len: nat, calls: seq<Call>, left: seq<Reply>)
    returns (len': nat, status: Status, calls': seq<Call>, left': seq<Reply>)
    requires buf.Length == BufferSize && len < numDigits < BufferSize
    requires TerminatedAt(buf, 0, len) && AllDigits(buf[..len])
    requires NulFree(left)
    requires Step(numDigits, timeout, total, buf[..len], Success, calls, left)
    modifies buf
    ensures len <= len' <= numDigits
    ensures TerminatedAt(buf, 0, len') && AllDigits(buf[..len'])
    ensures buf[..len'] == old(buf[..len]) + Digits(Clip(Next(left).symbols, numDigits - len))
    ensures calls' == calls + [Call(BufferSize - len, numDigits - len, timeout)]
    ensures status == Next(left).status && left' == Rest(left) && NulFree(left')
    ensures Step(numDigits, timeout, total, buf[..len'], status, calls', left')
  {
    ghost var head := buf[..len];
    var reply := Next(left);
    left' := Rest(left);
    var got := Clip(reply.symbols, numDigits - len);
    var call := Call(BufferSize - len, numDigits - len, timeout);
    StepForward(numDigits, timeout, total, head, calls, left);
    calls' := calls + [call];
    status := reply.status;
    forall k | 0 <= k < |got| ensures got[k] != NUL {
      assert got[k] in reply.symbols;
    }
    var count := ReadAndFilter(buf, len, got);
    len' := len + count;
    assert buf[..len'] == head + Digits(got);
  }

  /** One pass of the loop body on the buffer: the channel appends `got` at
      `len`, and `filter_non_digits(&digit_buffer[prev_len])` keeps only its
      digits, so the buffer's digits grow by the digits of `got`. */
  method ReadAndFilter(buf: array<char>, len: nat, got: seq<char>) returns (count: nat)
    requires TerminatedAt(buf, 0, len) && AllDigits(buf[..len])
    requires len + |got| < buf.Length
    requires forall k :: 0 <= k < |got| ==> got[k] != NUL
    modifies buf
    ensures count <= |got|
    ensures buf[..len + count] == old(buf[..len]) + Digits(got)
    ensures TerminatedAt(buf, 0, len + count) && AllDigits(buf[..len + count])
  {
    ghost var head := buf[..len];
    Deliver(buf, len, got);
    assert buf[..len] == head;
    forall k | len <= k < len + |got| ensures buf[k] != NUL {
      assert buf[k] == buf[len..len + |got|][k - len];
    }
    count := FilterNonDigits(buf, len, len + |got|);
    assert buf[..len] == head;
    Appended(buf[..], len, count, head, Digits(got));
    DigitsAreDigits(got);
  }

  /** The loop invariant of `read_digits_function` relating its state to the
      collection from the start: what is left to collect from here, with the
      replies still to come, finishes the whole collection. */
  ghost predicate Step(n: nat, timeout: nat, total: Collection,
                       digits: seq<char>, status: Status, calls: seq<Call>, left: seq<Reply>)
  {
    var rest := Collect(n, timeout, digits, status, left);
    total.digits == rest.digits && total.status == rest.status && total.calls == calls + rest.calls
  }

  /** One more read keeps the loop invariant. */
  lemma StepForward(n: nat, timeout: nat, total: Collection, digits: seq<char>, calls: seq<Call>, left: seq<Reply>)
    requires |digits| < n
    requires Step(n, timeout, total, digits, Success, calls, left)
    ensures var got := Clip(Next(left).symbols, n - |digits|);
            Step(n, timeout, total, digits + Digits(got), Next(left).status,
                 calls + [Call(BufferSize - |digits|, n - |digits|, timeout)], Rest(left))
  {
    var got := Clip(Next(left).symbols, n - |digits|);
    var rest := Collect(n, timeout, digits + Digits(got), Next(left).status, Rest(left));
    var call := Call(BufferSize - |digits|, n - |digits|, timeout);
    assert Collect(n, timeout, digits, Success, left).calls == [call] + rest.calls;
    assert calls + ([call] + rest.calls) == (calls + [call]) + rest.calls;
  }

  /** Digits filtered in place just after `head` extend it. */
  lemma Appended(b: seq<char>, len: nat, count: nat, head: seq<char>, tail: seq<char>)
    requires len + count <= |b| && b[..len] == head && b[len..len + count] == tail
    ensures b[..len + count] == head + tail
  {
    assert b[..len + count] == b[..len] + b[len..len + count];
  }
}
