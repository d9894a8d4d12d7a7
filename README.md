# Observable subscriber list and analog voltage adapter

A Dafny model of the core of a small Arduino observer-pattern library.

The library has two parts. `Observable<T>` is a subject: it keeps a vector of non-owning observer pointers. `subscribe` appends a pointer. `unsubscribe` erases every entry equal to a pointer, using erase–remove. `notify` calls `field_changed(source, field)` on each entry, in order.

`ArduinoVoltage` is an observable analog input. It holds a `ResponsiveAnalogRead` smoothing reader and a resolution in bits, `resolutionBits`. It also holds the value range that goes with that resolution, `maxValue = 2^bits`, which it forwards to the reader. Its `update()` polls the reader and sends one `"value"` notification when the reader reports a change.

Files:

- `observable.dfy` (module `Observers`) holds the subject (class `Observable`), observer handles (class `Observer`) and the recorded calls (datatype `Call`). It also has the reference definitions of a notification (`Fanout`) and of erase–remove (`Without`), and the lemmas about them.
- `analog_reader.dfy` (module `Reader`) holds a stand-in for the vendor reader. It records its pin, its sleep flag, the resolution it was last given and how many times it was polled. At each poll it takes the answer of its change detector from the caller.
- `arduino_voltage.dfy` (module `Voltage`) holds class `ArduinoVoltage`, 32-bit `int` as `Int32`, and the exact power of two that stands for `pow(2, bits)`.

Modelling decisions:

- Observers are objects of an empty class. Dafny compares object references by identity, which is the pointer comparison that `unsubscribe` does.
- The body of a `field_changed` callback is not modelled. `Notify` returns the calls it makes, as a sequence of `Call(observer, source, field)` values, in order. The callbacks are therefore inert: they cannot subscribe or unsubscribe during a notification. In the original that would be undefined behaviour, because the vector is iterated directly.
- `Notify` has no `modifies` clause, so the verifier guarantees that notifying leaves the subscriber list unchanged.
- C++ inheritance of `Observable<ArduinoVoltage>` becomes composition. `ArduinoVoltage` holds the subject as the field `subject`, and clients subscribe through it.
- `ArduinoVoltage.RangeFollowsBits()` is the invariant that every method of the class keeps: `maxValue` is the converted `pow(2, resolutionBits)`. `ArduinoVoltage.Valid()` adds that the reader was given that same value. The constructors and `SetAnalogResolution` establish `Valid()`, and `Update` preserves it. It can still be broken from outside, because `getResponsiveReader()` hands out a mutable pointer to the reader, which a client can reconfigure directly. The model's `reader` field is public for the same reason, so `Update` and `GetAnalogResolution` require only `RangeFollowsBits()`.
- Both constructors set the member initialisers (10 bits, `maxValue = 1023`). They then call `SetAnalogResolution`, so the value 1023 is always overwritten and never observed.
- `int` is taken as 32 bits. The library uses `std::vector` and `std::function`, so it targets the 32-bit boards whose toolchains provide them.
- `pow(2, bits)` is modelled as exact integer arithmetic. For `bits` up to 30 the double result is exact and fits an `int`. For `bits` of 31 or more, converting the double to `int` overflows, which is undefined behaviour in C++. That is why `SetAnalogResolution` and the `(pin, bits)` constructor require `bits <= 30`. The source itself checks nothing.
- A negative exponent gives a power in [0, 1) (below about -1074 `pow` underflows to exactly 0.0), and converting that to `int` truncates it to 0. The model keeps this case: `MaxValueFor` returns 0 for any negative exponent.
- Whether the reader's smoothed value changed is a boolean oracle, `valueMoved`. `ArduinoVoltage.Update` passes it to the stand-in reader's `Update`, then asks the reader `HasChanged()`, as the source does.

## Model

| member | source | states |
|---|---|---|
| Observers.Observable.constructor | include/Observable.hpp:28 | a new subject has an empty subscriber list |
| Observers.Observable.Subscribe | include/Observable.hpp:18 | the handle is appended at the end; the length grows by one and every earlier entry keeps its position and value |
| Observers.Observable.Unsubscribe | include/Observable.hpp:20-24 | std::remove's in-place compaction followed by erase leaves exactly `Without(old list, o)`: no entry equal to `o` remains, every other handle occurs as often as before, the result is a subsequence of the old list, and an absent handle leaves the list unchanged |
| Observers.Observable.Notify | include/Observable.hpp:12-16 | the loop makes one call per entry, in list order, all with the same source and field name (the calls equal `Fanout` of the list), and the list is not modified |
| Observers.FanoutAt | include/Observable.hpp:12-16 | the i-th call of a notification goes to the i-th list entry, with the given source and field name |
| Observers.FanoutLength | include/Observable.hpp:12-16 | a notification makes exactly as many calls as there are list entries |
| Observers.FanoutConcat | include/Observable.hpp:12-16 | notifying the list `a + b` makes the calls for `a` first, then those for `b` |
| Observers.CallsToFanout | include/Observable.hpp:12-18 | an observer is called exactly as many times as it occurs in the list, so duplicates are not merged |
| Observers.DoubleSubscribeCallsTwice | include/Observable.hpp:12-18 | after subscribing the same observer twice, a notification calls it two more times than before |
| Observers.WithoutMembers | include/Observable.hpp:20-24 | after removal, a handle is in the list exactly when it was there before and is not the removed one (so all occurrences go, not just the first) |
| Observers.WithoutCounts | include/Observable.hpp:20-24 | removal deletes every occurrence of the handle and no occurrence of any other handle |
| Observers.WithoutIsSubsequence | include/Observable.hpp:20-24 | removal is stable: the remaining entries keep their relative order |
| Observers.WithoutConcat | include/Observable.hpp:20-24 | removing from `a + b` is removing from `a`, then from `b`, which is another statement of stability |
| Observers.WithoutAbsent | include/Observable.hpp:20-24 | unsubscribing a handle that is not subscribed leaves the list unchanged |
| Observers.WithoutIdempotent | include/Observable.hpp:20-24 | a second unsubscribe of the same handle changes nothing |
| Observers.SubsequenceCounts | include/Observable.hpp:20-24 | a stable removal can only lower the number of times each handle occurs |
| Observers.WithoutUnique | include/Observable.hpp:20-24 | `Without` is the only stable removal that keeps every other handle as often as before, so the erase–remove result is fully determined |
| Observers.SubscribeThenUnsubscribe | include/Observable.hpp:18-24 | subscribing a handle and then unsubscribing it gives the same list as unsubscribing it without the subscribe |
| Observers.SubscribeNotifyUnsubscribe | include/Observable.hpp:12-24 | a client subscribes a, b, a: a notification calls a, b, a in that order; after unsubscribing a, a notification calls only b |
| Voltage.Pow2 | include/ArduinoVoltage.hpp:43 | the power of two used for the value range is at least 1 |
| Voltage.Pow2Monotone | include/ArduinoVoltage.hpp:43 | more bits of resolution never give a smaller value range |
| Voltage.Pow2Add | include/ArduinoVoltage.hpp:43 | powers of two multiply when their exponents add |
| Voltage.Pow2Fits | include/ArduinoVoltage.hpp:43 | for up to 30 bits, `pow(2, bits)` is at most 2^30 and so fits a 32-bit `int` |
| Voltage.MaxValueFor | include/ArduinoVoltage.hpp:43 | the integer that the converted `pow(2, bits)` gives: 2^bits (at least 1) for a non-negative exponent, 0 for a negative one, and never more than 2^30 |
| Voltage.ArduinoVoltage.OnPin | include/ArduinoVoltage.hpp:19-23 | the pin-only constructor leaves the resolution at 10 bits and `maxValue` at 1024 (the initialiser 1023 is overwritten), gives the reader 1024, keeps the pin and sleep flag, establishes `Valid()`, and leaves the subscriber list empty |
| Voltage.ArduinoVoltage.WithResolution | include/ArduinoVoltage.hpp:25-28 | the `(pin, bits)` constructor leaves the resolution at `bits`, `maxValue` and the reader's resolution at the converted 2^bits, establishes `Valid()`, and leaves the subscriber list empty |
| Voltage.ArduinoVoltage.SetAnalogResolution | include/ArduinoVoltage.hpp:41-45 | afterwards the resolution is `bits` and `maxValue` is 2^bits (0 for a negative exponent); the reader is given that same value; `Valid()` holds; the reader's poll state and the subscriber list are unchanged |
| Voltage.ArduinoVoltage.GetAnalogResolution | include/ArduinoVoltage.hpp:47 | returns the stored bit count, whose converted power of two is `maxValue`; when the reader has not been reconfigured from outside, it is also the range the reader works with |
| Voltage.ArduinoVoltage.Update | include/ArduinoVoltage.hpp:49-54 | polls the reader exactly once, after which the reader's `hasChanged()` reports `valueMoved`; when it reports a change, it makes exactly one notification with source `this` and field `"value"` to every subscriber in order, and otherwise calls nobody; `resolutionBits`, `maxValue`, the reader's resolution and the subscriber list are unchanged; `RangeFollowsBits()` is kept, and so is `Valid()` when it held before |
| Voltage.VoltageClient | include/ArduinoVoltage.hpp:19-54 | a client with one subscriber: a poll without a change calls nobody; a poll with a change calls the subscriber once with `"value"`; setting 12 bits reports 12 and gives the reader 4096 |
| Voltage.ReaderReconfiguredClient | include/ArduinoVoltage.hpp:34-54 | a client reconfigures the reader directly through the accessor: the adapter still reports its own 10 bits, the reader keeps the client's value, and a poll with a change still notifies the subscriber once |

## Left out

- `getNormalizedValue` is left out. It divides two floats, and floating point is not modelled.
- `getRawValue` and `getSmoothedValue` are left out. They forward to the vendor reader, whose smoothing is not modelled.
- `getResponsiveReader` has no method of its own. It returns a mutable pointer to the reader, and the public field `ArduinoVoltage.reader` plays that role.
- The internals of `ResponsiveAnalogRead` are not modelled. That covers smoothing, sleep, the read values and how `hasChanged` decides. The reader is a stand-in, and its change detector's answer is the `valueMoved` parameter.
- `ResponsiveAnalogRead` starts from a resolution of 1024 in the stand-in. This is a placeholder that both constructors overwrite.
- Voltage.ArduinoVoltage.SetAnalogResolution and Voltage.ArduinoVoltage.WithResolution require `bits <= 30`. The source checks nothing; for 31 bits or more the double-to-`int` conversion is undefined behaviour in C++ and has no defined result to model.
- Reading the analog pin, `pinMode` and other hardware I/O are left out. The adapter only touches hardware through the vendor reader.
- What an observer's `field_changed` callback does is not modelled. That includes the `std::function` forwarding in `VoltageObserver`. Calls are recorded instead.
- Changes to the subscriber list made from inside a callback during `notify` are not modelled. In the source they are undefined behaviour, and in the model callbacks cannot act.
- Observer lifetime and dangling pointers are not modelled. The list holds non-owning pointers, and whether an observer outlives its subscription is a memory-ownership concern.
- `ArduinoButton` and `ButtonObserver` are not part of this model. Their own logic only wires the vendor debouncer's edges to `"fall"`, `"rise"` and `"value"` notifications. When and in what order those fire is decided by the debouncer library.
- The `Observer` interface has no behaviour of its own. It is modelled as the handle class `Observers.Observer`.
