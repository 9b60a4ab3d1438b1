/**
 * A MaxSonar MB1200 on an analog channel. The distance is the channel's
 * average voltage times a ratio that is kept equal to scaling factor / vcc.
 */
module Sonar {
  import opened Devices

  /** The constructor's channel argument: a channel number (the sonar allocates the input) or an existing input. */
  datatype ChannelArg = Number(channel: int) | Existing(input: AnalogInput)

  /** The conversion get_distance applies to a voltage. */
  function Distance(voltage: real, ratio: real): real {
    voltage * ratio
  }

  /** For a positive ratio, a higher voltage never gives a shorter distance. */
  lemma DistanceIsMonotone(v1: real, v2: real, ratio: real)
    requires ratio > 0.0 && v1 <= v2
    ensures Distance(v1, ratio) <= Distance(v2, ratio)
  {
    assert v2 * ratio - v1 * ratio == (v2 - v1) * ratio;
  }

  class MaxSonar {
    var analogChannel: AnalogInput?
    const allocatedChannel: bool
    var vcc: real
    var scalingFactor: int
    var scalingRatio: real

    /** The ratio is always scaling factor / vcc. */
    ghost predicate Valid()
      reads this
    {
      vcc != 0.0 && scalingRatio == scalingFactor as real / vcc
    }

    constructor (channel: ChannelArg, vcc: real := 5.0, scalingFactor: int := 1024)
      requires vcc != 0.0
      ensures Valid()
      ensures this.vcc == vcc && this.scalingFactor == scalingFactor
      ensures analogChannel != null
      ensures allocatedChannel == channel.Number?
      ensures channel.Existing? ==> analogChannel == channel.input
      ensures channel.Number? ==> fresh(analogChannel)
    {
      if channel.Number? {
        analogChannel := new AnalogInput(0.0);
        allocatedChannel := true;
      } else {
        allocatedChannel := false;
        analogChannel := channel.input;
      }
      this.vcc := vcc;
      this.scalingFactor := scalingFactor;
      new;
      CalculateScaling();
    }

    method CalculateScaling()
      requires vcc != 0.0
      modifies this`scalingRatio
      ensures Valid()
    {
      scalingRatio := 1.0 * scalingFactor as real / vcc;
    }

    /** Closes the input only if this sonar allocated it; always drops the channel. */
    method Close()
      modifies this`analogChannel, analogChannel
      ensures analogChannel == null
      ensures old(analogChannel) != null && allocatedChannel ==> !old(analogChannel).open
      ensures old(analogChannel) != null && !allocatedChannel ==> old(analogChannel).open == old(analogChannel.open)
      ensures old(analogChannel) != null ==> old(analogChannel).averageVoltage == old(analogChannel.averageVoltage)
      ensures GetDistance() == 0.0
    {
      if analogChannel != null && allocatedChannel {
        analogChannel.Close();
      }
      analogChannel := null;
    }

    method SetVcc(vcc: real)
      requires Valid() && vcc != 0.0
      modifies this`vcc, this`scalingRatio
      ensures Valid() && this.vcc == vcc
    {
      this.vcc := vcc;
      CalculateScaling();
    }

    method SetScalingFactor(factor: int)
      requires Valid()
      modifies this`scalingFactor, this`scalingRatio
      ensures Valid() && scalingFactor == factor
    {
      scalingFactor := factor;
      CalculateScaling();
    }

    /** get_distance: 0 without a channel, otherwise the voltage times the current ratio. */
    function GetDistance(): (d: real)
      reads this, analogChannel
      ensures analogChannel == null ==> d == 0.0
      ensures analogChannel != null ==> d == Distance(analogChannel.averageVoltage, scalingRatio)
    {
      if analogChannel == null then 0.0 else analogChannel.averageVoltage * scalingRatio
    }
  }

  /** With the default vcc 5.0 and factor 1024 the ratio is 204.8 per volt. */
  lemma DefaultRatio(s: MaxSonar)
    requires s.Valid() && s.vcc == 5.0 && s.scalingFactor == 1024
    ensures s.scalingRatio == 204.8
  {
  }
}
