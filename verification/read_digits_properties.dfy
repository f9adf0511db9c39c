/** What the `read_digits` application promises, proved of its model: the
    collection loop, the outcome classification, and the buffer bound. */
module ReadDigitsProperties {
  import opened CString
  import opened DigitFilter
  import opened ReadDigits

  /** The digits gathered are the digits already there followed by the
      digits of every symbol the channel delivered, in order: filtering only
      each newly arrived tail neither loses a digit nor counts one twice.  No
      more than `n` digits are ever gathered. */
  lemma {:induction false} CollectAccumulates(n: nat, timeout: nat, digits: seq<char>, status: Status, script: seq<Reply>)
    requires |digits| <= n
    ensures var r := Collect(n, timeout, digits, status, script);
            r.digits == digits + Digits(r.delivered) && |r.digits| <= n
    decreases |script|, if status == Success then 1 else 0
  {
    if |digits| < n && status == Success {
      var reply := Next(script);
      var got := Clip(reply.symbols, n - |digits|);
      DigitsLength(got);
      CollectAccumulates(n, timeout, digits + Digits(got), reply.status, Rest(script));
      var rest := Collect(n, timeout, digits + Digits(got), reply.status, Rest(script));
      DigitsAppend(got, rest.delivered);
    } else {
      assert Digits([]) == [];
    }
  }

  /** The loop stops only when enough digits are there or a read did not
      succeed, and it reads at all exactly when it starts short of digits
      after a successful status. */
  lemma {:induction false} CollectStops(n: nat, timeout: nat, digits: seq<char>, status: Status, script: seq<Reply>)
    ensures var r := Collect(n, timeout, digits, status, script);
            |r.digits| >= n || r.status != Success
    ensures var r := Collect(n, timeout, digits, status, script);
            r.calls == [] <==> |digits| >= n || status != Success
    ensures var r := Collect(n, timeout, digits, status, script);
            r.calls == [] ==> r.digits == digits && r.status == status
    decreases |script|, if status == Success then 1 else 0
  {
    if |digits| < n && status == Success {
      var reply := Next(script);
      var got := Clip(reply.symbols, n - |digits|);
      CollectStops(n, timeout, digits + Digits(got), reply.status, Rest(script));
    }
  }

  /** Every read in `calls` passes `timeout` and asks for at least one and
      at most `missing` symbols, with a buffer length that exceeds that count
      by `BufferSize - n`. */
  predicate AskForMissing(calls: seq<Call>, n: nat, timeout: nat, missing: int) {
    forall i :: 0 <= i < |calls| ==>
      calls[i].timeout == timeout &&
      1 <= calls[i].maxDigits <= missing &&
      calls[i].bufLen - calls[i].maxDigits == BufferSize - n
  }

  /** No read asks for more symbols than an earlier one. */
  predicate NonIncreasing(calls: seq<Call>) {
    forall i, j :: 0 <= i < j < |calls| ==> calls[j].maxDigits <= calls[i].maxDigits
  }

  /** Every read passes the configured timeout and asks for the digits still
      missing: at least one, never more than were missing at the start, and
      never more than an earlier read asked for. */
  lemma {:induction false} CollectCalls(n: nat, timeout: nat, digits: seq<char>, status: Status, script: seq<Reply>)
    requires |digits| <= n
    ensures AskForMissing(Collect(n, timeout, digits, status, script).calls, n, timeout, n - |digits|)
    ensures NonIncreasing(Collect(n, timeout, digits, status, script).calls)
    decreases |script|, if status == Success then 1 else 0
  {
    if |digits| < n && status == Success {
      var reply := Next(script);
      var got := Clip(reply.symbols, n - |digits|);
      DigitsLength(got);
      var digits' := digits + Digits(got);
      CollectCalls(n, timeout, digits', reply.status, Rest(script));
      var rest := Collect(n, timeout, digits', reply.status, Rest(script)).calls;
      var calls := Collect(n, timeout, digits, status, script).calls;
      assert calls == [Call(BufferSize - |digits|, n - |digits|, timeout)] + rest;
      forall i, j | 0 <= i < j < |calls| ensures calls[j].maxDigits <= calls[i].maxDigits {
        assert calls[j] == rest[j - 1];
        if i > 0 {
          assert calls[i] == rest[i - 1];
        }
      }
    }
  }

  /** The early failures (pre-answer failed, no arguments, a digit count the
      buffer cannot hold) make no read, leave `var_name` unset, leave the
      buffer empty and report `failure`. */
  lemma EarlyFailure(answer: Status, argv: seq<Token>, script: seq<Reply>, vars: map<string, string>)
    requires |argv| <= 3
    requires answer != Success || argv == [] || !Accepts(Normalise(argv).numDigits)
    ensures var r := Outcome(answer, argv, script, vars);
            r.status == False && r.calls == [] && r.digits == [] &&
            r.vars == vars[ReadResultVariable := "failure"]
  {
  }

  /** The corrected check accepts a digit count exactly when the first
      argument leaves room in the buffer for the terminator; the check as
      written also accepts a first argument equal to the buffer size. */
  lemma AcceptedCount(argv: seq<Token>)
    requires 1 <= |argv| <= 3
    ensures Accepts(Normalise(argv).numDigits) <==> argv[0].number < BufferSize
    ensures AcceptsAsWritten(Normalise(argv).numDigits) <==> argv[0].number <= BufferSize
  {
  }

  /** After a collection: the digits stored and logged are the digits of
      everything the channel delivered, at most `num_digits` of them, and at
      least one read was made. */
  lemma CollectedDigits(answer: Status, argv: seq<Token>, script: seq<Reply>, vars: map<string, string>)
    requires answer == Success && 1 <= |argv| <= 3 && Accepts(Normalise(argv).numDigits)
    ensures var req := Normalise(argv);
            var c := Collect(req.numDigits, req.timeout, [], Success, script);
            var r := Outcome(answer, argv, script, vars);
            r.digits == c.digits == Digits(c.delivered) && AllDigits(r.digits) &&
            |r.digits| <= req.numDigits && |r.calls| >= 1
  {
    var req := Normalise(argv);
    var c := Collect(req.numDigits, req.timeout, [], Success, script);
    CollectAccumulates(req.numDigits, req.timeout, [], Success, script);
    CollectStops(req.numDigits, req.timeout, [], Success, script);
    DigitsAreDigits(c.delivered);
    assert [] + Digits(c.delivered) == Digits(c.delivered);
  }

  /** The read result after a collection: `success` exactly when the last
      read succeeded with all digits in; `timeout` exactly when the last read
      timed out with all digits in; and `failure` whenever digits are
      missing, even when the channel reported a timeout. */
  lemma ResultClassification(answer: Status, argv: seq<Token>, script: seq<Reply>, vars: map<string, string>)
    requires answer == Success && 1 <= |argv| <= 3 && Accepts(Normalise(argv).numDigits)
    ensures var req := Normalise(argv);
            var c := Collect(req.numDigits, req.timeout, [], Success, script);
            var result := Outcome(answer, argv, script, vars).vars[ReadResultVariable];
            (result == "success" <==> c.status == Success && |c.digits| == req.numDigits) &&
            (result == "timeout" <==> c.status == Timeout && |c.digits| == req.numDigits) &&
            (|c.digits| < req.numDigits ==> result == "failure")
  {
    var req := Normalise(argv);
    CollectAccumulates(req.numDigits, req.timeout, [], Success, script);
    CollectStops(req.numDigits, req.timeout, [], Success, script);
  }

  /** After a collection `var_name`, when given, holds the digits whatever
      the status, the read-result variable is set, and no other variable
      changes. */
  lemma StoredVariables(answer: Status, argv: seq<Token>, script: seq<Reply>, vars: map<string, string>)
    requires answer == Success && 1 <= |argv| <= 3 && Accepts(Normalise(argv).numDigits)
    ensures var req := Normalise(argv);
            var r := Outcome(answer, argv, script, vars);
            (req.varName.Some? && req.varName.value != ReadResultVariable ==> r.vars[req.varName.value] == r.digits) &&
            r.vars.Keys == vars.Keys + {ReadResultVariable} + (if req.varName.Some? then {req.varName.value} else {}) &&
            forall k :: k in vars && k != ReadResultVariable && (req.varName.None? || k != req.varName.value) ==>
              r.vars[k] == vars[k]
  {
  }

  /** The read result is one of the three words, and `success` or `timeout`
      is reported only after the requested number of digits came in. */
  lemma ReportedResult(answer: Status, argv: seq<Token>, script: seq<Reply>, vars: map<string, string>)
    requires |argv| <= 3
    ensures var r := Outcome(answer, argv, script, vars);
            r.vars[ReadResultVariable] in {"success", "timeout", "failure"}
    ensures var r := Outcome(answer, argv, script, vars);
            r.vars[ReadResultVariable] != "failure" ==>
              answer == Success && 1 <= |argv| && |r.digits| == Normalise(argv).numDigits &&
              AllDigits(r.digits) && |r.calls| >= 1
  {
    var r := Outcome(answer, argv, script, vars);
    if answer == Success && argv != [] && Accepts(Normalise(argv).numDigits) {
      CollectedDigits(answer, argv, script, vars);
      ResultClassification(answer, argv, script, vars);
    }
  }

  /** With the buffer check this model uses, every read leaves room in the
      128-byte buffer for the terminator after the symbols it may append. */
  lemma CallsLeaveRoomForTerminator(answer: Status, argv: seq<Token>, script: seq<Reply>, vars: map<string, string>)
    requires |argv| <= 3
    ensures var r := Outcome(answer, argv, script, vars);
            forall i :: 0 <= i < |r.calls| ==> 1 <= r.calls[i].maxDigits < r.calls[i].bufLen <= BufferSize
  {
    if answer == Success && argv != [] && Accepts(Normalise(argv).numDigits) {
      var req := Normalise(argv);
      CollectCalls(req.numDigits, req.timeout, [], Success, script);
      assert AskForMissing(Outcome(answer, argv, script, vars).calls, req.numDigits, req.timeout, req.numDigits);
    }
  }

  /** The buffer check as written accepts `num_digits` 128.  The first read
      then asks for 128 symbols with a buffer length of 128, and a caller who
      enters 128 digits fills every byte of `digit_buffer`, leaving none for
      the terminator that `filter_non_digits` and the variable store read up
      to. */
  lemma AsWrittenFullBuffer(timeout: nat)
    ensures AcceptsAsWritten(BufferSize) && !Accepts(BufferSize)
    ensures var script := [Reply(seq(BufferSize, _ => '1'), Success)];
            var c := Collect(BufferSize, timeout, [], Success, script);
            c.calls[0] == Call(BufferSize, BufferSize, timeout) && |c.delivered| == BufferSize
  {
    var symbols := seq(BufferSize, _ => '1');
    var script := [Reply(symbols, Success)];
    assert AllDigits(symbols);
    DigitsFixedPoint(symbols);
    assert Clip(symbols, BufferSize) == symbols;
    var rest := Collect(BufferSize, timeout, [] + symbols, Success, []);
    assert rest.delivered == [];
  }

  /** A read asked for `k` symbols takes at most `k` DTMF symbols, `*` and
      `#` included: asked for 4 digits, a caller keying `1*2#3` and then
      pausing gives the first read `1*2#`, which yields the digits `12`.  The
      second read asks for the 2 still missing with 126 bytes of room, takes
      `3` and times out. */
  lemma NonDigitsCountTowardsARead()
    ensures var c := Collect(4, DefaultTimeout, [], Success, [Reply("1*2#", Success), Reply("3", Timeout)]);
            c.digits == "123" && c.status == Timeout && c.delivered == "1*2#3" &&
            c.calls == [Call(128, 4, DefaultTimeout), Call(126, 2, DefaultTimeout)]
  {
    var script := [Reply("1*2#", Success), Reply("3", Timeout)];
    assert Next(script) == Reply("1*2#", Success) && Rest(script) == [Reply("3", Timeout)];
    assert Clip("1*2#", 4) == "1*2#";
    FilterSample();
    SecondRead();
    assert "1*2#" + "3" == "1*2#3";
  }

  /** The second read of that scenario: with `12` in, it asks for 2, takes
      `3` and times out. */
  lemma SecondRead()
    ensures var c := Collect(4, DefaultTimeout, "12", Success, [Reply("3", Timeout)]);
            c.digits == "123" && c.status == Timeout && c.calls == [Call(126, 2, DefaultTimeout)] &&
            c.delivered == "3"
  {
    var d := [Reply("3", Timeout)];
    assert Next(d) == Reply("3", Timeout) && Rest(d) == [];
    assert Clip("3", 2) == "3";
    DigitsOfOne('3');
    var digits' := "12" + "3";
    assert digits' == "123";
    var rest := Collect(4, DefaultTimeout, digits', Timeout, []);
    assert rest == Collection(digits', Timeout, [], []);
  }

  /** The digits of `1*2#` are `12`. */
  lemma FilterSample()
    ensures Digits("1*2#") == "12"
  {
    assert "1*2#" == "1*" + "2#";
    assert "1*" == "1" + "*" && "2#" == "2" + "#";
    DigitsOfOne('1');
    DigitsOfOne('*');
    DigitsOfOne('2');
    DigitsOfOne('#');
    DigitsAppend("1", "*");
    DigitsAppend("2", "#");
    DigitsAppend("1*", "2#");
  }

  /** A timeout before all digits are in is reported as `failure`, not
      `timeout`: asked for 2 digits into `pin`, a caller who keys `1` and then
      lets the inter-digit timeout expire leaves `pin` holding `1`, the status
      `SWITCH_STATUS_TOO_SMALL` and the read result `failure`. */
  lemma PartialTimeoutReportsFailure()
    ensures var r := Outcome(Success, [Token("2", 2), Token("pin", 0)], [Reply("1", Timeout)], map[]);
            r.status == TooSmall && r.digits == "1" &&
            r.vars == map["pin" := "1", ReadResultVariable := "failure"]
  {
    var argv := [Token("2", 2), Token("pin", 0)];
    assert Normalise(argv) == Request(2, Some("pin"), DefaultTimeout);
    DigitsOfOne('1');
    assert Clip("1", 2) == "1";
    var c := Collect(2, DefaultTimeout, [], Success, [Reply("1", Timeout)]);
    assert c.digits == "1";
  }
}
