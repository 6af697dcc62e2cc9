# motp — a verified model of the Mobile-OTP generator

This project models package `motp`, a Go implementation of the Mobile-OTP
(mOTP) one-time-password scheme, and proves properties of the model in Dafny.

An instance of the generator holds four fields: `secret`, `pin`, `period`
and `digits`. `New` fills in the defaults (period 10, digits 6) and then
runs the functional options in order. The model covers the two options the package
defines, `WithPeriod` and `WithDigits`. Each
option checks its argument and writes one field. The first option that
fails ends construction with its error and no instance.

`Generate(unixSeconds)` works as follows:
- it rejects a negative timestamp;
- it computes the time step `unixSeconds / period`;
- it hashes the decimal text of the step, then the secret, then the PIN, with no separators;
- it renders the 16-byte MD5 digest as lowercase hex;
- it returns the first `digits` characters.

Files:

- `go_types.dfy` (module `GoTypes`): Go's `byte`, a 64-bit `uint`, `int64`, the 16-byte MD5
  digest, and the type of the hash function.
- `decimal.dfy` (module `Decimal`): the decimal text `%d` writes for an integer, with its
  inverse.
- `hex.dfy` (module `Hex`): `hex.EncodeToString`, the lowercase base16 alphabet of section 8
  of RFC 4648, with its inverse.
- `motp.dfy` (module `Motp`): the configuration values and options, `New`, the `MOTP`
  class whose option closures update its fields in place, and `Generate`.

Go strings are byte strings, so secrets, PINs, hash inputs and codes are `seq<byte>`.
MD5 (RFC 1321) is not modelled. Every operation that hashes takes the hash function as a
parameter `md5` whose results are 16 bytes long. The code and digest lemmas hold for any
such function.

`Generate` is modelled on any instance, including a zero-valued `MOTP{}` that did not come
from `New`:
- a period of 0 ends in Go's integer-divide-by-zero panic;
- more than 32 digits ends in a slice-bounds panic.

`Motp.NewNeverPanics` shows that no instance `New` builds from `WithPeriod` and `WithDigits`
options reaches either panic.

Where the design description and the code differ, the model follows the code:
- Validation is not independent of option order. Options run in sequence, and the error
  reported is the error of the first failing option (`Motp.ConfigureOutcome`).
- The secret is not required to be non-empty. `New` accepts an empty secret and an empty PIN.

## Model

| member | source | states |
|---|---|---|
| `Decimal.Format` | motp.go:99 | the `%d` text of a natural number is non-empty, all ASCII digits, and has no leading zero unless it is "0" |
| `Decimal.ParseFormat` | motp.go:99 | reading back the decimal text of `n` gives `n` |
| `Decimal.FormatParse` | motp.go:99 | every canonical digit string is the decimal text of the number it denotes |
| `Decimal.FormatInjective` | motp.go:99 | two naturals have the same decimal text exactly when they are equal |
| `Decimal.FormatInt` | motp.go:96-99 | the `%d` text of a signed integer starts with '-' exactly when it is negative; the rest is canonical digits that denote its absolute value |
| `Hex.Digit` | motp.go:110 | each nibble is rendered as a lowercase hex character that decodes back to the nibble |
| `Hex.DigitIsHexTable` | motp.go:110 | the character for nibble `v` is entry `v` of the alphabet "0123456789abcdef" |
| `Hex.Encode` | motp.go:110 | hex text has twice as many characters as the input has bytes, and every character is in `[0-9a-f]` |
| `Hex.EncodeAt` | motp.go:110 | character `i` of the hex text is the lowercase digit of nibble `i` of the input, high nibble first |
| `Hex.DecodeEncode` | motp.go:110 | decoding the hex text of a byte string gives the byte string back |
| `Hex.EncodeDecode` | motp.go:110 | every even-length lowercase hex string is the hex text of its decoding |
| `Motp.Defaults` | motp.go:69-74 | the starting instance (period 10, digits 6) satisfies the invariant `period >= 1 && 1 <= digits <= 32` |
| `Motp.ApplyOption` | motp.go:42-61 | an option succeeds exactly when its argument passes its check (`period >= 1`; `1 <= digits <= 32`); otherwise it returns its error; on success it writes only its own field and keeps the invariant |
| `Motp.ApplyAll` | motp.go:77-81 | running options never changes secret or PIN and preserves the invariant |
| `Motp.Configure` | motp.go:67-84 | every instance `New` returns from `WithPeriod`/`WithDigits` options satisfies the invariant and keeps `secret` and `pin` unchanged; with no options it is (secret, pin, 10, 6) |
| `Motp.ApplyAllAppend` | motp.go:77-81 | options run in sequence: running `a + b` is running `a`, then stopping on its error or continuing with `b` |
| `Motp.ApplyAllRejects` | motp.go:77-81 | the first option that fails its check decides the outcome: its error and no instance |
| `Motp.ApplyAllAccepts` | motp.go:42-83 | when every option passes, each field holds the argument of the last option writing it, so a later option overrides an earlier one |
| `Motp.ConfigureOutcome` | motp.go:67-84 | `New` fails exactly when some option fails its check, with the first failing option's error; otherwise the result is the defaults overwritten by the last option for each field |
| `Motp.ConfigurationExamples` | motp_test.go:33-73 | custom values 30 and 8 are stored; period 0, digits 0 and digits 33 are rejected with the matching error |
| `Motp.TimeStep` | motp.go:96 | the time step `k` is the number of whole periods elapsed: `k * period <= unixSeconds < (k + 1) * period` |
| `Motp.HashInput` | motp.go:99 | the hash input is the decimal text of the time step, which reads back as the step, then the secret, then the PIN, with nothing between them |
| `Motp.DigestAt` | motp.go:102-107 | the digest is the MD5 of the hash input of every timestamp in the same time step, and its hex text has 32 characters, so the largest allowed `digits` takes all of it |
| `Motp.RegressionVectorInput` | motp_test.go:75-87 | secret "testsecret", PIN "1234", period 10 and timestamp 1625097600 give time step 162509760 and the 23-byte hash input "162509760testsecret1234" |
| `Motp.Otp` | motp.go:90-112 | a negative timestamp, and nothing else, gives the timestamp error; a panic happens exactly when the period is 0 or digits exceeds 32; a code has exactly `digits` lowercase hex characters |
| `Motp.OtpOfValid` | motp.go:107-111 | on a valid instance and a non-negative timestamp the code exists, has length `digits`, is a prefix of the hex digest of decimal(step) ++ secret ++ pin, and its character `i` renders nibble `i` of that digest |
| `Motp.NewNeverPanics` | motp.go:96-111 | on instances `New` returns from `WithPeriod`/`WithDigits` options, the division never has a zero divisor and the slice never goes past the 32 hex characters |
| `Motp.SameTimeStepSameOtp` | motp.go:96-99 | two non-negative timestamps with the same time step give the same outcome |
| `Motp.TimeStepWindow` | motp.go:96 | every timestamp from `k * period` to `k * period + period - 1` has time step `k` |
| `Motp.OtpConstantWithinPeriod` | motp.go:96-111 | the code stays the same for each second of one period |
| `Motp.HashInputInjective` | motp.go:99 | for a fixed secret and PIN, two time steps give the same hash input exactly when they are equal |
| `Motp.NextPeriodNewHashInput` | motp.go:96-99 | moving the timestamp forward by one period adds one to the time step, and the hash input changes |
| `Motp.Int64OfUint` | motp.go:96 | Go's `int64(u)` for a 64-bit `uint` is congruent to `u` modulo 2^64 |
| `Motp.TruncDiv` | motp.go:96 | Go's `/` truncates toward zero: the remainder `a - q * b` is smaller than `b` in absolute value and is zero or has the sign of `a` |
| `Motp.GoEpochPeriod` | motp.go:96 | as written, the time step equals `unixSeconds / period` below 2^63; from 2^63 on it is minus `unixSeconds / (2^64 - period)` |
| `Motp.WrappedPeriodCounterexample` | motp.go:96 | with period 2^64 - 1, as written, the time step is the negated timestamp, changes every second and prints with '-'; the natural time step is 0 |
| `Motp.HugePeriodSingleStep` | motp.go:96 | with the time step on naturals, a period of at least 2^63 gives step 0 for every `int64` timestamp |
| `Motp.MOTP.constructor` | motp.go:69-74 | a new instance holds the given secret and PIN, period 10 and digits 6 |
| `Motp.MOTP.Apply` | motp.go:43-60 | running one option on the instance updates its fields as `ApplyOption` says, and leaves them unchanged when the option fails |
| `Motp.MOTP.Generate` | motp.go:90-112 | the straight-line computation returns `Otp` of the instance's fields and modifies nothing |
| `Motp.MOTP.GenerateCurrent` | motp.go:115-121 | delegates to Generate at the supplied clock reading |
| `Motp.New` | motp.go:67-84 | the option loop returns a fresh instance whose fields are `Configure`'s result, or no instance and `Configure`'s error |

## Left out

- MD5 (RFC 1321, `crypto/md5`) is a parameter, not a definition. For the regression vector
  (secret "testsecret", PIN "1234", timestamp 1625097600) the model states the time step and the hash
  input (`Motp.RegressionVectorInput`). It cannot state the digest or the six-character code.
- Motp.MOTPOption, Motp.Configure, Motp.NewNeverPanics: `MOTPOption` is an exported function type
  (motp.go:39), and `New` calls whatever options it is given (motp.go:78). The model closes it to the
  two options the package defines, `WithPeriod` and `WithDigits`. It does not model nil options, which
  panic at motp.go:78. It does not model caller-written options, which may return any error or
  overwrite the instance, for example with a zero period that `Generate` then divides by.
- The `hasher.Write` error branch (motp.go:103-106) is left out. Writing to an in-memory MD5 hasher never fails, so the model
  treats the write as infallible.
- Motp.MOTP.GenerateCurrent: the clock read `time.Now().Unix()` is I/O. The caller supplies the reading as the
  parameter `now`.
- Motp.MOTP.Generate: computes the time step on natural numbers. This matches motp.go:96 for every period below 2^63.
  For larger periods the Go code differs; see Findings.
- The `uint` type is the 64-bit one. On a 32-bit platform `uint` has 32 bits and the conversion at motp.go:96 cannot
  wrap.
- `fmt.Sprintf` and `hex.EncodeToString` are specified as functions (`Decimal.Format`, `Hex.Encode`). The Go library
  code behind them is not part of this model.
- Go panics are a result value (`Panicked`), not stack unwinding.
- Error values are constructors. Their message texts appear only as comments.
- cmd/motp/main.go is not part of this model. It is the command-line wrapper: flag parsing, printing and the exit status.
- Concurrent use of one instance is not modelled. `Generate` reads the fields and writes nothing. `MOTP.Generate` has no
  `modifies` clause.

## Findings

| source | as written | input that shows it | evidently intended | confidence | as-written member | corrected member |
|---|---|---|---|---|---|---|
| motp.go:96 | `unixSeconds / int64(m.period)` converts the unsigned period to `int64` before dividing; a period of at least 2^63 wraps to a negative divisor | `WithPeriod(18446744073709551615)`, `Generate(1625097600)`: the divisor is -1, the time step is -1625097600, the hash input starts with "-1625097600", and the code changes every second | the number of whole periods elapsed, `unixSeconds / period` on naturals: 0 for every timestamp with this period | medium (assumes 64-bit `uint`), not executed | `Motp.GoEpochPeriod`, `Motp.WrappedPeriodCounterexample` | `Motp.TimeStep`, `Motp.HugePeriodSingleStep` |
