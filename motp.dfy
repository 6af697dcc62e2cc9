/**
 * The Mobile-OTP generator of package motp: an instance built from a secret,
 * a PIN and functional options, and the code it derives from a timestamp.
 *
 * Go strings are byte strings, so `secret`, `pin` and the codes are
 * sequences of bytes. MD5 is the parameter `md5` (see GoTypes.Md5).
 */
module Motp {
  import opened GoTypes
  import Decimal
  import Hex

  datatype Option<T> = None | Some(value: T)

  /** The error values the package returns. */
  datatype Error =
    | PeriodNotPositive    // "period must be positive"
    | DigitsOutOfRange     // "digits must be in the range 1-32"
    | NegativeTimestamp    // "unixSeconds must be non-negative"

  datatype Result<T> = Ok(value: T) | Err(error: Error)

  /** The Go run-time panics that Generate can raise on an instance not built by New. */
  datatype RuntimePanic = IntegerDivideByZero | SliceBoundsOutOfRange

  /**
   * How a call of Generate ends: a code and a nil error, the empty string
   * and an error, or a run-time panic.
   */
  datatype Generation =
    | Code(otp: seq<byte>)
    | Failed(error: Error)
    | Panicked(reason: RuntimePanic)

  /** The four fields of an MOTP instance, as a value. */
  datatype Config = Config(secret: seq<byte>, pin: seq<byte>, period: uint, digits: uint)

  const DefaultPeriod: uint := 10
  const DefaultDigits: uint := 6
  /** The length of the hex text of an MD5 digest. */
  const MaxDigits: uint := 2 * DigestLength

  /** The invariant every instance returned by New keeps. */
  predicate Valid(c: Config) {
    c.period >= 1 && 1 <= c.digits <= MaxDigits
  }

  // ---------------------------------------------------------------------
  // Construction
  // ---------------------------------------------------------------------

  /** The two functional options of the package, with the argument each captures. */
  datatype MOTPOption = WithPeriod(period: uint) | WithDigits(digits: uint)

  /** Whether an option's own check lets its argument through. */
  predicate Accepts(option: MOTPOption) {
    match option
    case WithPeriod(p) => p >= 1
    case WithDigits(d) => 1 <= d <= MaxDigits
  }

  /** The error an option returns when its check fails. */
  function Rejection(option: MOTPOption): Error {
    match option
    case WithPeriod(_) => PeriodNotPositive
    case WithDigits(_) => DigitsOutOfRange
  }

  /** The instance New starts from. */
  function Defaults(secret: seq<byte>, pin: seq<byte>): (c: Config)
    ensures Valid(c)
  {
    Config(secret, pin, DefaultPeriod, DefaultDigits)
  }

  /** The effect of one option on an instance: validate the argument, then write one field. */
  function ApplyOption(option: MOTPOption, c: Config): (r: Result<Config>)
    ensures r.Ok? <==> Accepts(option)
    ensures r.Err? ==> r.error == Rejection(option)
    ensures r.Ok? ==> r.value.secret == c.secret && r.value.pin == c.pin
    ensures r.Ok? && option.WithPeriod? ==> r.value.period == option.period && r.value.digits == c.digits
    ensures r.Ok? && option.WithDigits? ==> r.value.digits == option.digits && r.value.period == c.period
    ensures r.Ok? && Valid(c) ==> Valid(r.value)
  {
    match option
    case WithPeriod(p) =>
      if p < 1 then Err(PeriodNotPositive) else Ok(c.(period := p))
    case WithDigits(d) =>
      if d < 1 || d > MaxDigits then Err(DigitsOutOfRange) else Ok(c.(digits := d))
  }

  /** Options applied in order; the first that fails ends the run with its error. */
  function ApplyAll(c: Config, options: seq<MOTPOption>): (r: Result<Config>)
    ensures r.Ok? ==> r.value.secret == c.secret && r.value.pin == c.pin
    ensures r.Ok? && Valid(c) ==> Valid(r.value)
    decreases |options|
  {
    if options == [] then Ok(c)
    else match ApplyOption(options[0], c)
      case Err(e) => Err(e)
      case Ok(next) => ApplyAll(next, options[1..])
  }

  /** Continue a run of options from an outcome. */
  function Then(r: Result<Config>, options: seq<MOTPOption>): Result<Config> {
    match r
    case Err(e) => Err(e)
    case Ok(c) => ApplyAll(c, options)
  }

  /** What New returns, as a value. */
  function Configure(secret: seq<byte>, pin: seq<byte>, options: seq<MOTPOption>): (r: Result<Config>)
    ensures r.Ok? ==> Valid(r.value) && r.value.secret == secret && r.value.pin == pin
    ensures options == [] ==> r == Ok(Config(secret, pin, 10, 6))
  {
    ApplyAll(Defaults(secret, pin), options)
  }

  /** The argument of the last WithPeriod among the options, or `default` when there is none. */
  function LastPeriod(options: seq<MOTPOption>, default: uint): uint {
    if options == [] then default
    else match options[|options| - 1]
      case WithPeriod(p) => p
      case WithDigits(_) => LastPeriod(options[..|options| - 1], default)
  }

  /** The argument of the last WithDigits among the options, or `default` when there is none. */
  function LastDigits(options: seq<MOTPOption>, default: uint): uint {
    if options == [] then default
    else match options[|options| - 1]
      case WithDigits(d) => d
      case WithPeriod(_) => LastDigits(options[..|options| - 1], default)
  }

  /** Option `i` is the first one whose check fails. */
  predicate FirstRejected(options: seq<MOTPOption>, i: int) {
    0 <= i < |options| && !Accepts(options[i]) &&
    forall j :: 0 <= j < i ==> Accepts(options[j])
  }

  /** Running options is sequential: a run over `a + b` is a run over `a` continued with `b`. */
  lemma {:induction false} ApplyAllAppend(c: Config, a: seq<MOTPOption>, b: seq<MOTPOption>)
    ensures ApplyAll(c, a + b) == Then(ApplyAll(c, a), b)
    decreases |a|
  {
    if a != [] {
      assert (a + b)[0] == a[0];
      assert (a + b)[1..] == a[1..] + b;
      match ApplyOption(a[0], c)
      case Err(e) =>
        assert ApplyAll(c, a) == Err(e);
        assert ApplyAll(c, a + b) == Err(e);
      case Ok(next) =>
        assert ApplyAll(c, a) == ApplyAll(next, a[1..]);
        assert ApplyAll(c, a + b) == ApplyAll(next, a[1..] + b);
        ApplyAllAppend(next, a[1..], b);
    } else {
      assert a + b == b;
    }
  }

  /** The first failing option decides the outcome: its error, and no instance. */
  lemma {:induction false} ApplyAllRejects(c: Config, options: seq<MOTPOption>, i: int)
    requires FirstRejected(options, i)
    ensures ApplyAll(c, options) == Err(Rejection(options[i]))
    decreases i
  {
    if i > 0 {
      assert Accepts(options[0]);
      var next := ApplyOption(options[0], c).value;
      assert FirstRejected(options[1..], i - 1) by {
        forall j | 0 <= j < i - 1 ensures Accepts(options[1..][j]) {
          assert options[1..][j] == options[j + 1];
        }
      }
      ApplyAllRejects(next, options[1..], i - 1);
    }
  }

  /**
   * When every option passes its check, the run succeeds and each field
   * holds the argument of the last option that writes it, the later
   * overriding the earlier.
   */
  lemma {:induction false} ApplyAllAccepts(c: Config, options: seq<MOTPOption>)
    requires forall i :: 0 <= i < |options| ==> Accepts(options[i])
    ensures ApplyAll(c, options)
            == Ok(c.(period := LastPeriod(options, c.period), digits := LastDigits(options, c.digits)))
    decreases |options|
  {
    if options != [] {
      var n := |options|;
      var init, last := options[..n - 1], options[n - 1];
      assert options == init + [last];
      ApplyAllAppend(c, init, [last]);
      ApplyAllAccepts(c, init);
      var mid := c.(period := LastPeriod(init, c.period), digits := LastDigits(init, c.digits));
      assert Accepts(last);
      var next := ApplyOption(last, mid).value;
      assert ApplyAll(mid, [last]) == ApplyAll(next, []);
    }
  }

  /**
   * What New returns: the error of the first option that fails its check,
   * or, when every option passes, the defaults with each field overwritten
   * by the last option that writes it.
   */
  lemma ConfigureOutcome(secret: seq<byte>, pin: seq<byte>, options: seq<MOTPOption>)
    ensures Configure(secret, pin, options).Err?
            <==> exists i :: 0 <= i < |options| && !Accepts(options[i])
    ensures forall i :: FirstRejected(options, i) ==>
              Configure(secret, pin, options) == Err(Rejection(options[i]))
    ensures (forall i :: 0 <= i < |options| ==> Accepts(options[i])) ==>
              Configure(secret, pin, options)
              == Ok(Config(secret, pin, LastPeriod(options, DefaultPeriod), LastDigits(options, DefaultDigits)))
  {
    var c := Defaults(secret, pin);
    forall i | FirstRejected(options, i)
      ensures Configure(secret, pin, options) == Err(Rejection(options[i]))
    {
      ApplyAllRejects(c, options, i);
    }
    if exists i :: 0 <= i < |options| && !Accepts(options[i]) {
      var k :| 0 <= k < |options| && !Accepts(options[k]);
      var i := FirstIndexRejected(options, k);
      ApplyAllRejects(c, options, i);
    } else {
      ApplyAllAccepts(c, options);
    }
  }

  /** The configurations the package's tests construct. */
  lemma ConfigurationExamples(secret: seq<byte>, pin: seq<byte>)
    ensures Configure(secret, pin, [WithPeriod(30), WithDigits(8)]) == Ok(Config(secret, pin, 30, 8))
    ensures Configure(secret, pin, [WithPeriod(0)]) == Err(PeriodNotPositive)
    ensures Configure(secret, pin, [WithDigits(0)]) == Err(DigitsOutOfRange)
    ensures Configure(secret, pin, [WithDigits(33)]) == Err(DigitsOutOfRange)
    ensures Configure(secret, pin, [WithDigits(32), WithPeriod(1)]) == Ok(Config(secret, pin, 1, 32))
  {
  }

  /** The least index at or below `k` whose option fails its check. */
  function FirstIndexRejected(options: seq<MOTPOption>, k: int): (i: int)
    requires 0 <= k < |options| && !Accepts(options[k])
    ensures FirstRejected(options, i) && i <= k
    decreases k
  {
    if exists j :: 0 <= j < k && !Accepts(options[j]) then
      var j :| 0 <= j < k && !Accepts(options[j]);
      FirstIndexRejected(options, j)
    else k
  }

  // ---------------------------------------------------------------------
  // Generation
  // ---------------------------------------------------------------------

  /** The mOTP time step: whole periods elapsed since the epoch. */
  function TimeStep(unixSeconds: nat, period: uint): (k: nat)
    requires period >= 1
    ensures k * period <= unixSeconds < (k + 1) * period
  {
    unixSeconds / period
  }

  /** The text that is hashed: decimal time step, secret, PIN, with no separators. */
  function HashInput(step: nat, secret: seq<byte>, pin: seq<byte>): (r: seq<byte>)
    ensures var n := |Decimal.Format(step)|;
      && |r| == n + |secret| + |pin|
      && Decimal.Canonical(r[..n]) && Decimal.Parse(r[..n]) == step
      && r[n..n + |secret|] == secret
      && r[n + |secret|..] == pin
  {
    var d := Decimal.Format(step);
    Decimal.ParseFormat(step);
    assert (d + secret + pin)[..|d|] == d;
    assert (d + secret + pin)[|d|..|d| + |secret|] == secret;
    assert (d + secret + pin)[|d| + |secret|..] == pin;
    d + secret + pin
  }

  /** The MD5 digest the code is cut from. */
  function DigestAt(c: Config, unixSeconds: nat, md5: Md5): (d: Digest)
    requires c.period >= 1
    ensures |Hex.Encode(d)| == MaxDigits
    ensures forall t: nat :: t / c.period == unixSeconds / c.period ==>
              d == md5(HashInput(TimeStep(t, c.period), c.secret, c.pin))
  {
    md5(HashInput(TimeStep(unixSeconds, c.period), c.secret, c.pin))
  }

  /** What Generate does on any instance, including ones New cannot return. */
  function Otp(c: Config, unixSeconds: int64, md5: Md5): (r: Generation)
    ensures r.Failed? <==> unixSeconds < 0
    ensures r.Failed? ==> r.error == NegativeTimestamp
    ensures r.Panicked? <==> unixSeconds >= 0 && (c.period == 0 || c.digits > MaxDigits)
    ensures r.Panicked? ==> (r.reason == IntegerDivideByZero <==> c.period == 0)
    ensures r.Code? ==> |r.otp| == c.digits && Hex.AllLowerHex(r.otp)
  {
    if unixSeconds < 0 then Failed(NegativeTimestamp)
    else if c.period == 0 then Panicked(IntegerDivideByZero)
    else
      var hashStr := Hex.Encode(DigestAt(c, unixSeconds, md5));
      if c.digits > |hashStr| then Panicked(SliceBoundsOutOfRange)
      else Code(hashStr[..c.digits])
  }

  /**
   * On an instance New returned and a non-negative timestamp, Generate
   * succeeds with exactly `digits` characters: the leading nibbles of the
   * digest of the hash input, in lowercase hex.
   */
  lemma OtpOfValid(c: Config, unixSeconds: int64, md5: Md5)
    requires Valid(c) && unixSeconds >= 0
    ensures Otp(c, unixSeconds, md5).Code?
    ensures |Otp(c, unixSeconds, md5).otp| == c.digits
    ensures Otp(c, unixSeconds, md5).otp <= Hex.Encode(DigestAt(c, unixSeconds, md5))
    ensures forall i :: 0 <= i < c.digits ==>
              Otp(c, unixSeconds, md5).otp[i] == Hex.Digit(Hex.Nibble(DigestAt(c, unixSeconds, md5), i))
  {
    var d := DigestAt(c, unixSeconds, md5);
    forall i | 0 <= i < c.digits
      ensures Otp(c, unixSeconds, md5).otp[i] == Hex.Digit(Hex.Nibble(d, i))
    {
      Hex.EncodeAt(d, i);
    }
  }

  /** Every instance New returns passes both run-time checks of Generate. */
  lemma NewNeverPanics(secret: seq<byte>, pin: seq<byte>, options: seq<MOTPOption>, unixSeconds: int64, md5: Md5)
    requires Configure(secret, pin, options).Ok?
    ensures !Otp(Configure(secret, pin, options).value, unixSeconds, md5).Panicked?
  {
  }

  /** The code depends on the time only through the time step. */
  lemma SameTimeStepSameOtp(c: Config, t1: int64, t2: int64, md5: Md5)
    requires c.period >= 1 && t1 >= 0 && t2 >= 0
    requires TimeStep(t1, c.period) == TimeStep(t2, c.period)
    ensures Otp(c, t1, md5) == Otp(c, t2, md5)
  {
  }

  /** Every second of one period, k * period up to k * period + period - 1, falls in time step k. */
  lemma {:induction false} TimeStepWindow(k: nat, j: nat, period: uint)
    requires period >= 1 && j < period
    ensures TimeStep(k * period + j, period) == k
  {
    var t := k * period + j;
    var q, r := t / period, t % period;
    assert t == q * period + r;
    if q < k {
      MultipleAtLeast(k - q, period);
      assert false;
    } else if q > k {
      MultipleAtLeast(q - k, period);
      assert false;
    }
  }

  lemma {:induction false} MultipleAtLeast(x: nat, p: nat)
    requires x >= 1
    ensures x * p >= p
    decreases x
  {
    if x > 1 {
      MultipleAtLeast(x - 1, p);
      assert x * p == (x - 1) * p + p;
    }
  }

  /**
   * The regression vector of the design: secret "testsecret", PIN "1234",
   * period 10 and timestamp 1625097600 give time step 162509760 and the
   * hash input "162509760testsecret1234".
   */
  lemma RegressionVectorInput()
    ensures TimeStep(1625097600, DefaultPeriod) == 162509760
    ensures Decimal.Format(162509760) == [49, 54, 50, 53, 48, 57, 55, 54, 48]  // "162509760"
    ensures HashInput(TimeStep(1625097600, DefaultPeriod), TestSecret, TestPin)
            == [49, 54, 50, 53, 48, 57, 55, 54, 48,                 // "162509760"
                116, 101, 115, 116, 115, 101, 99, 114, 101, 116,        // "testsecret"
                49, 50, 51, 52]                                         // "1234"
  {
  }

  /** The ASCII bytes of "testsecret". */
  const TestSecret: seq<byte> := [116, 101, 115, 116, 115, 101, 99, 114, 101, 116]
  /** The ASCII bytes of "1234". */
  const TestPin: seq<byte> := [49, 50, 51, 52]

  /** The code stays the same for a whole period. */
  lemma OtpConstantWithinPeriod(c: Config, k: nat, j: nat, md5: Md5)
    requires c.period >= 1 && j < c.period
    requires k * c.period + j < 0x8000_0000_0000_0000
    ensures Otp(c, k * c.period, md5) == Otp(c, k * c.period + j, md5)
  {
    TimeStepWindow(k, 0, c.period);
    TimeStepWindow(k, j, c.period);
  }

  /** For a fixed secret and PIN, distinct time steps give distinct hash inputs. */
  lemma HashInputInjective(a: nat, b: nat, secret: seq<byte>, pin: seq<byte>)
    ensures HashInput(a, secret, pin) == HashInput(b, secret, pin) <==> a == b
  {
    if HashInput(a, secret, pin) == HashInput(b, secret, pin) {
      var fa, fb := Decimal.Format(a), Decimal.Format(b);
      assert |fa| == |fb|;
      assert fa == HashInput(a, secret, pin)[..|fa|];
      assert fb == HashInput(b, secret, pin)[..|fb|];
      Decimal.FormatInjective(a, b);
    }
  }

  /** The next period hashes a different input. */
  lemma NextPeriodNewHashInput(c: Config, t: nat)
    requires c.period >= 1
    ensures TimeStep(t + c.period, c.period) == TimeStep(t, c.period) + 1
    ensures HashInput(TimeStep(t + c.period, c.period), c.secret, c.pin)
            != HashInput(TimeStep(t, c.period), c.secret, c.pin)
  {
    var k, j := t / c.period, t % c.period;
    assert t == k * c.period + j;
    assert t + c.period == (k + 1) * c.period + j;
    TimeStepWindow(k + 1, j, c.period);
    HashInputInjective(k + 1, k, c.secret, c.pin);
  }

  // ---------------------------------------------------------------------
  // The time step as Go computes it: `unixSeconds / int64(m.period)`
  // ---------------------------------------------------------------------

  /** Go's conversion of a 64-bit `uint` to `int64`: two's-complement wrap-around. */
  function Int64OfUint(u: uint): (i: int64)
    ensures i % 0x1_0000_0000_0000_0000 == u
  {
    if u < 0x8000_0000_0000_0000 then u else u - 0x1_0000_0000_0000_0000
  }

  /** Go's integer division, which truncates toward zero. */
  function TruncDiv(a: int, b: int): (q: int)
    requires b != 0
    ensures var m := a - q * b;
      && Abs(m) < Abs(b)
      && (m == 0 || (m < 0) == (a < 0))
  {
    var q0 := Abs(a) / Abs(b);
    if (a < 0) == (b < 0) then q0 else -q0
  }

  function Abs(x: int): nat {
    if x < 0 then -x else x
  }

  /** The time step as motp.go writes it, with the divisor converted to `int64` first. */
  function GoEpochPeriod(unixSeconds: int64, period: uint): (r: int)
    requires unixSeconds >= 0 && period >= 1
    ensures period < 0x8000_0000_0000_0000 ==> r == TimeStep(unixSeconds, period)
    ensures period >= 0x8000_0000_0000_0000 ==> r == -(unixSeconds / (0x1_0000_0000_0000_0000 - period))
  {
    TruncDiv(unixSeconds, Int64OfUint(period))
  }

  /**
   * With period 2^64 - 1 the Go time step is the negated timestamp: it
   * changes every second and its decimal text starts with '-', while the
   * intended time step is 0 for every timestamp.
   */
  lemma WrappedPeriodCounterexample()
    ensures GoEpochPeriod(1625097600, 0xFFFF_FFFF_FFFF_FFFF) == -1625097600
    ensures GoEpochPeriod(1625097601, 0xFFFF_FFFF_FFFF_FFFF) == -1625097601
    ensures Decimal.FormatInt(GoEpochPeriod(1625097600, 0xFFFF_FFFF_FFFF_FFFF))[0] == Decimal.Minus
    ensures TimeStep(1625097600, 0xFFFF_FFFF_FFFF_FFFF) == TimeStep(1625097601, 0xFFFF_FFFF_FFFF_FFFF) == 0
  {
  }

  /** With the time step computed on naturals, a period beyond every `int64` timestamp has a single step. */
  lemma HugePeriodSingleStep(unixSeconds: int64, period: uint)
    requires unixSeconds >= 0 && period >= 0x8000_0000_0000_0000
    ensures TimeStep(unixSeconds, period) == 0
  {
  }

  // ---------------------------------------------------------------------
  // The mutable instance
  // ---------------------------------------------------------------------

  /** An mOTP generator, `*MOTP`, whose options write its fields in place. */
  class MOTP {
    var secret: seq<byte>
    var pin: seq<byte>
    var period: uint
    var digits: uint

    function State(): Config
      reads this
    {
      Config(secret, pin, period, digits)
    }

    /** The composite literal New starts from. */
    constructor (secret: seq<byte>, pin: seq<byte>)
      ensures State() == Defaults(secret, pin)
    {
      this.secret := secret;
      this.pin := pin;
      this.period := DefaultPeriod;
      this.digits := DefaultDigits;
    }

    /** Run one option closure on this instance. */
    method Apply(option: MOTPOption) returns (err: Option<Error>)
      modifies this
      ensures ApplyOption(option, old(State())) == if err.None? then Ok(State()) else Err(err.value)
      ensures err.Some? ==> State() == old(State())
    {
      err := None;
      match option {
        case WithPeriod(p) =>
          if p < 1 {
            return Some(PeriodNotPositive);
          }
          period := p;
        case WithDigits(d) =>
          if d < 1 || d > MaxDigits {
            return Some(DigitsOutOfRange);
          }
          digits := d;
      }
    }

    /**
     * The code for a timestamp; the instance is left as it is. The body
     * follows the statements of the Go method one by one, and its ensures
     * ties it to the specification function Otp.
     */
    method Generate(unixSeconds: int64, md5: Md5) returns (r: Generation)
      ensures r == Otp(State(), unixSeconds, md5)
    {
      if unixSeconds < 0 {
        return Failed(NegativeTimestamp);
      }
      if period == 0 {
        return Panicked(IntegerDivideByZero);
      }
      var epochPeriod := unixSeconds / period;
      var hashInput := Decimal.Format(epochPeriod) + secret + pin;
      var hashBytes := md5(hashInput);
      var hashStr := Hex.Encode(hashBytes);
      if digits > |hashStr| {
        return Panicked(SliceBoundsOutOfRange);
      }
      r := Code(hashStr[..digits]);
    }

    /** Generate at the clock reading `now`, which the caller supplies. */
    method GenerateCurrent(now: int64, md5: Md5) returns (r: Generation)
      ensures r == Otp(State(), now, md5)
    {
      r := Generate(now, md5);
    }
  }

  /** New: start from the defaults, run the options in order, stop at the first error. */
  method New(secret: seq<byte>, pin: seq<byte>, options: seq<MOTPOption>) returns (m: MOTP?, err: Option<Error>)
    ensures (m == null) <==> err.Some?
    ensures m != null ==> fresh(m) && Configure(secret, pin, options) == Ok(m.State())
    ensures err.Some? ==> Configure(secret, pin, options) == Err(err.value)
  {
    var obj := new MOTP(secret, pin);
    for i := 0 to |options|
      invariant ApplyAll(obj.State(), options[i..]) == Configure(secret, pin, options)
    {
      assert options[i..][0] == options[i] && options[i..][1..] == options[i + 1..];
      var e := obj.Apply(options[i]);
      if e.Some? {
        return null, e;
      }
    }
    return obj, None;
  }
}
