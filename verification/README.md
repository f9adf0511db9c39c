# read_digits: a verified model of the DTMF digit collector

The `read_digits` dialplan application (`mod_read_digits.c`) takes the argument
string `<num_digits> [<var_name> [<timeout>]]`. It collects `num_digits` decimal
digits from the caller's DTMF tones into a 128-byte buffer, ignores `*` and `#`,
stores the digits in the channel variable `var_name`, and reports `success`,
`timeout` or `failure` in the channel's read-result variable.

The model has four modules:

- `CString` (`c_string.dfy`): NUL-terminated buffers, as C keeps strings.
  - `StrLen` and `CStr` give the string at the start of a buffer.
  - `CopyCString` is what a `char *` consumer such as `switch_channel_set_variable` reads.
- `DigitFilter` (`digit_filter.dfy`): `filter_non_digits`.
  - It runs in place on an `array<char>`. An offset `from` stands for the pointer `&digit_buffer[prev_len]`.
  - It is proved against the pure function `Digits`, which keeps the digits of a string in order.
  - The lemmas about `Digits` cover the module's built-in test (`#ifdef TEST`).
- `ReadDigits` (`read_digits.dfy`): `read_digits_function`.
  - It is an imperative method over a local `new char[128]` buffer.
  - It follows the source's status threading: pre-answer, argument check, normalisation, buffer check, collection loop, `TooSmall` and the read-result switch.
  - It is proved equal to the pure specification `Outcome`. `Outcome` is built on `Collect`, the collection loop as a recursive function.
- `ReadDigitsProperties` (`read_digits_properties.dfy`): what the application promises, proved about `Collect` and `Outcome`.
  - Digits accumulate without loss and without being counted twice.
  - The loop stops exactly when it should.
  - Every read asks for exactly the missing digits.
  - The result is classified, and the variables written, as the source does.
  - The digit count is bounded by the buffer.

The channel is a collaborator, modelled as follows:

- What `switch_channel_pre_answer` returned is an input (`answer`).
- The tokens of the argument string, with the values `atoi` gives them, are an input (`argv`).
- Each `switch_ivr_collect_digits_count` call is answered from a script of replies. A reply holds the DTMF symbols that one read takes and appends, and the status that read returns. The method consumes the script as the channel's remaining input (`left`).
- The channel variables are a `map<string, string>` that is passed in and returned with the application's writes applied.
- The method also returns the calls it made to the channel, with buffer length, `maxdigits` and timeout, so that contracts can speak about them.

The collector's side of a read is assumed to behave like this:

- It delivers at most the `maxdigits` it is asked for (`Clip`).
- It appends those symbols after the string already in the buffer and terminates them (`Deliver`).
- Once the scripted replies are used up, every read returns no symbol and `SWITCH_STATUS_FALSE`, as on a call that has ended (`Hangup`).

## Model

| member | source | states |
|---|---|---|
| CString.StrLen | src/mod/applications/mod_read_digits/mod_read_digits.c:48 | the length of a C string is the index of its first NUL: every character before it is not NUL |
| CString.CopyCString | src/mod/applications/mod_read_digits/mod_read_digits.c:158-160 | the value stored from `digit_buffer` is the C string at its start, up to the first NUL |
| DigitFilter.FilterNonDigits | src/mod/applications/mod_read_digits/mod_read_digits.c:43-58 | the string at `from` is replaced in place by its digits in their original order, followed by a new terminator. The count returned is their number, at most the old length. No byte before `from` or after the new terminator changes |
| DigitFilter.CompactDigits | src/mod/applications/mod_read_digits/mod_read_digits.c:48-53 | the scan loop: the write pointer never overtakes the read pointer, and it leaves exactly the digits of the scanned string in front. Bytes outside the written prefix are untouched |
| DigitFilter.DigitsAreDigits | src/mod/applications/mod_read_digits/mod_read_digits.c:49-50 | every character the filter keeps satisfies `isdigit` |
| DigitFilter.DigitsLength | src/mod/applications/mod_read_digits/mod_read_digits.c:57 | the filtered string is never longer than its input |
| DigitFilter.DigitsAppend | src/mod/applications/mod_read_digits/mod_read_digits.c:153-154 | filtering a concatenation is the concatenation of the filtered parts, so filtering only the newly arrived tail gives the same digits as filtering everything |
| DigitFilter.DigitsMultiset | src/mod/applications/mod_read_digits/mod_read_digits.c:48-53 | each digit is kept exactly as often as it occurs, and every other character is dropped |
| DigitFilter.DigitsFixedPoint | src/mod/applications/mod_read_digits/mod_read_digits.c:211-213 | a string is left unchanged if and only if it consists of digits only |
| DigitFilter.DigitsIdempotent | src/mod/applications/mod_read_digits/mod_read_digits.c:43-58 | filtering the filter's output changes nothing |
| DigitFilter.DigitsEmpty | src/mod/applications/mod_read_digits/mod_read_digits.c:231-241 | the result is empty if and only if the input holds no digit |
| DigitFilter.DigitsOfOne | src/mod/applications/mod_read_digits/mod_read_digits.c:235-237 | a single character is kept if and only if it is a digit |
| DigitFilter.DigitsIgnoresNonDigits | src/mod/applications/mod_read_digits/mod_read_digits.c:215-229 | non-digits inserted anywhere (`*1234`, `12*34`, `1234*`, `*1*2*3*4*`) do not change what is kept |
| DigitFilter.FilterTestCasesEmpty | src/mod/applications/mod_read_digits/mod_read_digits.c:231-241 | `"*****"`, `"*"` and `""` filter to the empty string |
| DigitFilter.FilterTestCaseDigits | src/mod/applications/mod_read_digits/mod_read_digits.c:211-213 | `"1234"` filters to `"1234"` |
| DigitFilter.FilterTestCaseLeadingStar | src/mod/applications/mod_read_digits/mod_read_digits.c:215-217 | `"*1234"` filters to `"1234"` |
| DigitFilter.FilterTestCaseInnerStar | src/mod/applications/mod_read_digits/mod_read_digits.c:219-221 | `"12*34"` filters to `"1234"` |
| DigitFilter.FilterTestCaseTrailingStar | src/mod/applications/mod_read_digits/mod_read_digits.c:223-225 | `"1234*"` filters to `"1234"` |
| DigitFilter.FilterTestCaseStars | src/mod/applications/mod_read_digits/mod_read_digits.c:227-229 | `"*1*2*3*4*"` filters to `"1234"` |
| ReadDigits.Normalise | src/mod/applications/mod_read_digits/mod_read_digits.c:117-136 | the digit count is the first argument, raised to 1. The variable name is present if and only if there is a second argument, and then equals it. The timeout is the third argument (10000 when absent), raised to 1000 |
| ReadDigits.ReadDigitsFunction | src/mod/applications/mod_read_digits/mod_read_digits.c:83-180 | the final status, the digits left in the buffer (logged at line 178), the channel variables after the run and the calls made are exactly those of the specification `Outcome` |
| ReadDigits.CollectDigits | src/mod/applications/mod_read_digits/mod_read_digits.c:144-156 | the collection loop leaves the buffer holding, terminated, exactly the digits `Collect` gathers, at most `num_digits` of them. It returns `Collect`'s final status and calls |
| ReadDigits.ReadOnce | src/mod/applications/mod_read_digits/mod_read_digits.c:148-155 | one pass asks for `num_digits - len` symbols with buffer length `128 - len` and consumes one reply. The buffer then holds the old digits followed by the digits of the (at most `num_digits - len`) symbols delivered, terminated. It keeps the loop's relation to `Collect` |
| ReadDigits.ReadAndFilter | src/mod/applications/mod_read_digits/mod_read_digits.c:151-155 | after the channel appends its symbols and `filter_non_digits(&digit_buffer[prev_len])` runs, the buffer holds the old digits followed by the digits of the new symbols, still terminated |
| ReadDigits.Deliver | src/mod/applications/mod_read_digits/mod_read_digits.c:151 | the channel writes its symbols at the end of the string and terminates them, touching nothing else |
| ReadDigitsProperties.CollectAccumulates | src/mod/applications/mod_read_digits/mod_read_digits.c:147-156 | the digits gathered are the earlier digits followed by the digits of everything delivered, in order, and never more than `num_digits` |
| ReadDigitsProperties.CollectStops | src/mod/applications/mod_read_digits/mod_read_digits.c:147 | the loop ends only with enough digits or after a read that did not succeed. It reads at all if and only if digits are missing after a successful status |
| ReadDigitsProperties.CollectCalls | src/mod/applications/mod_read_digits/mod_read_digits.c:149-151 | each read passes the configured timeout and asks for between 1 and the missing number of digits, never more than an earlier read asked for. Its buffer length exceeds that by `128 - num_digits` |
| ReadDigitsProperties.EarlyFailure | src/mod/applications/mod_read_digits/mod_read_digits.c:102-176 | a failed pre-answer, a missing argument string or a digit count the buffer cannot hold means no read and an empty buffer. The status is `SWITCH_STATUS_FALSE`, only the read-result variable changes, and it becomes `failure` |
| ReadDigitsProperties.AcceptedCount | src/mod/applications/mod_read_digits/mod_read_digits.c:130-141 | the corrected check accepts the digit count if and only if the first argument is below 128. The check as written at line 138 accepts it if and only if the first argument is at most 128 |
| ReadDigitsProperties.CollectedDigits | src/mod/applications/mod_read_digits/mod_read_digits.c:144-160 | after a collection the digits reported are the digits of everything delivered, all of them digits and at most `num_digits`, and at least one read was made |
| ReadDigitsProperties.ResultClassification | src/mod/applications/mod_read_digits/mod_read_digits.c:162-176 | `success` exactly when the last read succeeded with all digits in. `timeout` exactly when it timed out with all digits in. `failure` whenever digits are missing, even after a timeout |
| ReadDigitsProperties.StoredVariables | src/mod/applications/mod_read_digits/mod_read_digits.c:158-160 | `var_name`, when given, holds the digits whatever the outcome, the read-result variable is set, and no other variable changes |
| ReadDigitsProperties.ReportedResult | src/mod/applications/mod_read_digits/mod_read_digits.c:167-176 | the read result is one of `success`, `timeout` or `failure`. Any result other than `failure` implies a successful pre-answer, an argument string and exactly `num_digits` digits |
| ReadDigitsProperties.CallsLeaveRoomForTerminator | src/mod/applications/mod_read_digits/mod_read_digits.c:138-151 | with the corrected buffer check, every read asks for fewer symbols than the buffer length it passes. So, with both counted from the end of the string already in the buffer (see Left out), the terminator always fits |
| ReadDigitsProperties.NonDigitsCountTowardsARead | src/mod/applications/mod_read_digits/mod_read_digits.c:147-155 | asked for 4 digits, a caller keying `1*2#3` and then pausing gives the first read `1*2#` (its 4 symbols, `*` and `#` included), which yields the digits `12`. The second read asks for the 2 still missing with buffer length 126, takes `3` and times out. The collection ends with `123` and the timeout status |
| ReadDigitsProperties.PartialTimeoutReportsFailure | src/mod/applications/mod_read_digits/mod_read_digits.c:158-176 | asked for 2 digits into `pin`, a caller keying `1` before the timeout leaves `pin` holding `1`. The status is `SWITCH_STATUS_TOO_SMALL` and the read result is `failure`, not `timeout` |
| ReadDigitsProperties.AsWrittenFullBuffer | src/mod/applications/mod_read_digits/mod_read_digits.c:138-154 | the check as written accepts 128 digits. The first read is then asked for 128 symbols with buffer length 128, and a caller entering 128 digits fills every byte |

## Left out

- Argument splitting (`switch_core_session_strdup`, `switch_separate_string`) and `atoi` are not modelled. The arguments arrive as tokens with the value `atoi` gives them. An empty argument string is the empty token list.
- Negative arguments are not modelled. The source assumes they do not occur (lines 118 and 126), so token values are `nat`. The wrap-around of a negative `atoi` result cast to `uint32_t` is not modelled either.
- 32-bit widths are not modelled because no value overflows: the digit counts and lengths stay at or below 128, and the timeout is only passed on.
- Real time is not modelled. The inter-digit timeout is passed to each read but never measured; a timeout appears only as a reply status.
- `switch_ivr_collect_digits_count` is not part of this model. Its behaviour is assumed as follows:
  - It returns at most `maxdigits` symbols.
  - It appends them after the C string already in `digit_buffer`, then a terminator.
  - Its symbols contain no NUL.
  - Once the scripted replies are used up, it returns `SWITCH_STATUS_FALSE` with no symbols.
- Line 151 passes `digit_buffer` itself, not the `args.buf` set at line 148. The model appends at index `len`. `CollectDigits` proves that index is where the buffer's C string ends, so "after the string already there" and "at `digit_buffer + len`" are the same place. That settles only where the symbols are written, not how the two lengths are counted.
- The model assumes that the read counts `buflen` (`sizeof(digit_buffer) - len`) and `maxdigits` (`num_digits - len`) from the end of the string already in `digit_buffer`, that is, only over the symbols this read appends. `Deliver` writes at `len` and is bounded by the 128-byte array alone. Line 151 can also be read literally: the read is given `digit_buffer` itself, which already holds `len` characters, with length `128 - len`. A read that counts both limits from the start of that buffer has room for only `128 - 2·len` bytes and `num_digits - 2·len` symbols. It would refuse or shorten every read once `2·len` reaches 128 or `num_digits`. For example, with `num_digits` 100 and a first read that yields 64 digits, the second read would have no room. The model does not capture that reading. `switch_ivr_collect_digits_count` is not part of this model, so neither reading can be confirmed from its code, and no finding is claimed.
- The `switch_input_args_t args` fields (lines 87, 148-149) are set but never passed, so they are not modelled.
- Logging (lines 111, 139, 178-179) is not modelled. The logged status and digits are the method's outputs.
- `switch_assert` on NULL pointers (lines 46, 97, 100) is not modelled: Dafny arrays and the modelled channel cannot be null.
- `SWITCH_READ_RESULT_VARIABLE` comes from the host's headers, which are not part of this model. It is taken to be `"read_result"`.
- Module load and shutdown (lines 183-204) are host registration and are out of scope. So are `scripts/NetDevPlay.js` and `mod_net_dev_record.c`, which play prompts and record audio.
- Partial timeouts follow the code, not the function's doc comment. The comment says that when the inter-digit timeout expires early, the digits received so far are returned and the timeout status is set (lines 67-69 and 79-80). The code replaces the status with `SWITCH_STATUS_TOO_SMALL` whenever digits are missing (lines 162-164), so a partial timeout reports `failure`. The digits are still stored in `var_name`. `ResultClassification` and `PartialTimeoutReportsFailure` state the code's behaviour. This is not listed as a finding, because the `SWITCH_STATUS_TOO_SMALL` branch is explicit code and it is not evident which of the two was intended.
- The model assumes that a read asked for `k` symbols delivers at most `k` DTMF symbols, `*` and `#` included, because `maxdigits` at line 151 counts symbols, not digits. A non-digit therefore uses up a place in that read, and the missing digit is asked for again by the next read (`NonDigitsCountTowardsARead`).
- The channel's queue of keyed tones is not modelled. A reply stands for what one read takes. Tones keyed beyond a read's `maxdigits` stay in the channel for the next read, so a script must split them across replies, one per read. If a reply is longer than the read's `maxdigits`, `Clip` drops the excess instead of keeping it for the next read.
- ReadDigits.ReadDigitsFunction: uses the corrected buffer check, as does `Outcome`, so `num_digits` 128 fails early, before any read. At that one input the model differs from the source, which goes on to read with no byte left for the terminator (see Findings).

## Findings

| source | as written | input that shows it | evidently intended | confidence | as-written member | corrected member |
|---|---|---|---|---|---|---|
| src/mod/applications/mod_read_digits/mod_read_digits.c:138 | `if (sizeof(digit_buffer) < num_digits)` refuses only counts above 128 | `num_digits` 128, with the caller entering 128 digits in the first read: `switch_ivr_collect_digits_count` is asked for 128 symbols with buffer length 128 and fills every byte of `digit_buffer`. No terminator is left for `filter_non_digits` (line 48) and `switch_channel_set_variable` (line 159) to stop at | refuse a count unless the digits and their terminator fit: `num_digits < sizeof(digit_buffer)` | not executed | ReadDigitsProperties.AsWrittenFullBuffer | ReadDigitsProperties.CallsLeaveRoomForTerminator |
