/**
 * A stand-in for the vendor smoothing reader `ResponsiveAnalogRead`, whose
 * code is not part of this model. It remembers how it was set up and the
 * resolution it was last given, counts how often it was polled, and takes
 * the answer of its change detector from the caller at each poll.
 */
module Reader {

  class ResponsiveAnalogRead {
    /** The analog pin and the sleep switch it was constructed with. */
    const pin: int
    const sleepEnable: bool
    /** The last value passed to its `setAnalogResolution`. */
    var analogResolution: int
    /** What `hasChanged()` reports after the last poll. */
    var changed: bool
    /** How many times `update()` has been called. */
    var polls: nat

    /**
     * The resolution a fresh reader starts from is a placeholder: the voltage
     * adapter overwrites it in both of its constructors.
     */
    constructor (pin: int, sleepEnable: bool)
      ensures this.pin == pin && this.sleepEnable == sleepEnable
      ensures analogResolution == 1024 && !changed && polls == 0
    {
      this.pin := pin;
      this.sleepEnable := sleepEnable;
      analogResolution := 1024;
      changed := false;
      polls := 0;
    }

    /** Records the resolution; nothing else about the reader changes. */
    method SetAnalogResolution(resolution: int)
      modifies this
      ensures analogResolution == resolution
      ensures changed == old(changed) && polls == old(polls)
    {
      analogResolution := resolution;
    }

    /**
     * One poll. Whether the smoothed value moved is decided by the vendor
     * code; here it is the oracle `valueMoved`.
     */
    method Update(valueMoved: bool)
      modifies this
      ensures changed == valueMoved && polls == old(polls) + 1
      ensures analogResolution == old(analogResolution)
    {
      changed := valueMoved;
      polls := polls + 1;
    }

    /** `hasChanged()`: the change detector's answer for the last poll. */
    function HasChanged(): bool
      reads this
    {
      changed
    }
  }
}
