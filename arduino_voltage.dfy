/**
 * `ArduinoVoltage`: an observable analog input. It owns a smoothing reader,
 * keeps the analog resolution as a number of bits together with the value
 * range `maxValue = 2^bits` that goes with it, and on each `update()` polls
 * the reader and sends one `"value"` notification when the reader reports a
 * change.
 *
 * The C++ class inherits `Observable<ArduinoVoltage>`; here it holds one,
 * `subject`, whose subscriber list its clients use directly.
 */
module Voltage {
  import opened Observers
  import opened Reader

  /** C++ `int` on the 32-bit boards the library targets. */
  type Int32 = x: int | -0x8000_0000 <= x < 0x8000_0000

  /** The resolution the pin-only constructor uses (`constexpr auto bits = 10`). */
  const DefaultBits: Int32 := 10

  /** The largest exponent whose power of two still fits in an `Int32`. */
  const MaxBits: Int32 := 30

  /** Two to the power `n`, computed exactly. */
  function Pow2(n: nat): (r: nat)
    ensures r >= 1
  {
    if n == 0 then 1 else 2 * Pow2(n - 1)
  }

  /** Raising the exponent never lowers the power. */
  lemma {:induction false} Pow2Monotone(a: nat, b: nat)
    requires a <= b
    ensures Pow2(a) <= Pow2(b)
    decreases b - a
  {
    if a < b {
      Pow2Monotone(a + 1, b);
    }
  }

  /** Exponents add: a range of a + b bits is a range of a bits times one of b bits. */
  lemma {:induction false} Pow2Add(a: nat, b: nat)
    ensures Pow2(a + b) == Pow2(a) * Pow2(b)
    decreases a
  {
    if a > 0 {
      Pow2Add(a - 1, b);
      assert Pow2(a + b) == 2 * Pow2(a - 1 + b);
    }
  }

  /** Up to `MaxBits` bits, `pow(2, bits)` fits in an `Int32`. */
  lemma Pow2Fits(n: nat)
    requires n <= MaxBits as nat
    ensures Pow2(n) <= 0x4000_0000 < 0x8000_0000
  {
    Pow2Monotone(n, 30);
    assert Pow2(10) == 1024;
    Pow2Add(10, 10);
    Pow2Add(20, 10);
  }

  /**
   * The `int` that `pow(2, bits)` is converted to: 2^bits for a non-negative
   * exponent, and 0 for a negative one, since a power in [0, 1) truncates
   * to zero.
   */
  function MaxValueFor(bits: Int32): (m: Int32)
    requires bits <= MaxBits
    ensures 0 <= m <= 0x4000_0000
    ensures bits >= 0 ==> m == Pow2(bits as nat) && m >= 1
    ensures bits < 0 ==> m == 0
  {
    if bits < 0 then 0
    else
      Pow2Fits(bits as nat);
      Pow2(bits as nat)
  }

  class ArduinoVoltage {
    /** `mVoltage`, the vendor smoothing reader. */
    const reader: ResponsiveAnalogRead
    /** The subscriber list inherited from `Observable<ArduinoVoltage>`. */
    const subject: Observable<ArduinoVoltage>
    var resolutionBits: Int32
    var maxValue: Int32

    /**
     * The value range belongs to the resolution. Every method of the class
     * keeps this, whatever a client does to the reader.
     */
    ghost predicate RangeFollowsBits()
      reads this
    {
      && resolutionBits <= MaxBits
      && maxValue == MaxValueFor(resolutionBits)
    }

    /**
     * In addition, the reader was given that same range. This holds as long
     * as no client reconfigures the reader it can reach through
     * `getResponsiveReader()` (here the public field `reader`).
     */
    ghost predicate Valid()
      reads this, reader
    {
      && RangeFollowsBits()
      && reader.analogResolution == maxValue
    }

    /**
     * The pin-only constructor: the member initialisers (10 bits, a range of
     * 1023) are overwritten at once by `setAnalogResolution(10)`.
     */
    constructor OnPin(pin: int, sleepEnable: bool := true)
      ensures Valid() && fresh(reader) && fresh(subject)
      ensures resolutionBits == DefaultBits && maxValue == 1024
      ensures reader.pin == pin && reader.sleepEnable == sleepEnable
      ensures reader.analogResolution == 1024 && reader.polls == 0 && !reader.changed
      ensures subject.observers == []
    {
      reader := new ResponsiveAnalogRead(pin, sleepEnable);
      subject := new Observable<ArduinoVoltage>();
      resolutionBits := 10;
      maxValue := 1023;
      new;
      SetAnalogResolution(DefaultBits);
      assert Pow2(10) == 1024;
    }

    /** The `(pin, bits)` constructor: the resolution is `bits` from the start. */
    constructor WithResolution(pin: int, bits: Int32, sleepEnable: bool := true)
      requires bits <= MaxBits
      ensures Valid() && fresh(reader) && fresh(subject)
      ensures resolutionBits == bits && maxValue == MaxValueFor(bits)
      ensures reader.pin == pin && reader.sleepEnable == sleepEnable
      ensures reader.analogResolution == MaxValueFor(bits) && reader.polls == 0 && !reader.changed
      ensures subject.observers == []
    {
      reader := new ResponsiveAnalogRead(pin, sleepEnable);
      subject := new Observable<ArduinoVoltage>();
      resolutionBits := 10;
      maxValue := 1023;
      new;
      SetAnalogResolution(bits);
    }

    /**
     * Stores the bit count, derives the value range from it and hands that
     * range to the reader. Nothing is checked: any exponent up to `MaxBits`
     * is taken, a negative one giving a range of 0.
     */
    method SetAnalogResolution(bits: Int32)
      requires bits <= MaxBits
      modifies this, reader
      ensures Valid()
      ensures resolutionBits == bits
      ensures bits >= 0 ==> maxValue == Pow2(bits as nat)
      ensures bits < 0 ==> maxValue == 0
      ensures reader.analogResolution == maxValue
      ensures reader.changed == old(reader.changed) && reader.polls == old(reader.polls)
      ensures unchanged(subject)
    {
      resolutionBits := bits;
      maxValue := MaxValueFor(bits);
      reader.SetAnalogResolution(maxValue);
    }

    /**
     * `getAnalogResolution()`: the stored bit count, whose power of two is the
     * value range and, unless a client reconfigured the reader, the range the
     * reader works with.
     */
    function GetAnalogResolution(): (bits: Int32)
      reads this, reader
      requires RangeFollowsBits()
      ensures bits == resolutionBits && bits <= MaxBits
      ensures maxValue == MaxValueFor(bits)
      ensures Valid() ==> reader.analogResolution == MaxValueFor(bits)
    {
      resolutionBits
    }

    /**
     * Polls the reader once; when it reports a change, notifies every
     * subscriber, in order, with this object as source and field `"value"`,
     * and otherwise calls nobody. The resolution is left alone, and so is
     * whatever range the reader was last given.
     */
    method Update(valueMoved: bool) returns (calls: seq<Call<ArduinoVoltage>>)
      requires RangeFollowsBits()
      modifies reader
      ensures RangeFollowsBits()
      ensures old(Valid()) ==> Valid()
      ensures reader.changed == valueMoved
      ensures resolutionBits == old(resolutionBits) && maxValue == old(maxValue)
      ensures reader.analogResolution == old(reader.analogResolution)
      ensures reader.polls == old(reader.polls) + 1
      ensures unchanged(subject)
      ensures valueMoved ==> calls == Fanout(subject.observers, this, "value")
      ensures !valueMoved ==> calls == []
    {
      reader.Update(valueMoved);
      calls := [];
      if reader.HasChanged() {
        calls := subject.Notify(this, "value");
      }
    }
  }

  /**
   * A client: a default-resolution input with one subscriber. A poll without
   * a change calls nobody; a poll with a change calls the subscriber once
   * with field `"value"`; raising the resolution to 12 bits gives the reader
   * a range of 4096 and does not notify.
   */
  method VoltageClient(pin: int)
    returns (v: ArduinoVoltage, o: Observer<ArduinoVoltage>,
             quiet: seq<Call<ArduinoVoltage>>, moved: seq<Call<ArduinoVoltage>>,
             bits: Int32, range: int)
    ensures quiet == []
    ensures moved == [Call(o, v, "value")]
    ensures bits == 12 && range == 4096
  {
    v := new ArduinoVoltage.OnPin(pin);
    assert v.GetAnalogResolution() == 10;
    o := new Observer<ArduinoVoltage>();
    v.subject.Subscribe(o);
    quiet := v.Update(false);
    moved := v.Update(true);
    assert v.subject.observers == [o];
    v.SetAnalogResolution(12);
    bits := v.GetAnalogResolution();
    assert Pow2(12) == 4096;
    range := v.reader.analogResolution;
  }

  /**
   * A client that reconfigures the reader directly, as `getResponsiveReader()`
   * allows: the adapter still reports its own 10 bits, and a poll with a
   * change still notifies the subscriber once.
   */
  method ReaderReconfiguredClient(pin: int)
    returns (v: ArduinoVoltage, o: Observer<ArduinoVoltage>,
             moved: seq<Call<ArduinoVoltage>>, bits: Int32, range: int)
    ensures moved == [Call(o, v, "value")]
    ensures bits == 10 && range == 5
  {
    v := new ArduinoVoltage.OnPin(pin);
    o := new Observer<ArduinoVoltage>();
    v.subject.Subscribe(o);
    v.reader.SetAnalogResolution(5);
    moved := v.Update(true);
    bits := v.GetAnalogResolution();
    range := v.reader.analogResolution;
  }
}
