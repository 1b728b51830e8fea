/** The RelayVolume object of relay_volume.py: the stored relay code, the mute
    flag and the writes it makes on the bus, and one iteration of its polling
    loop. Each operation is a function on the `Relay` value (what the object
    holds) and a method of the class that does the same thing in place. */
module RelayVolumeModel {
  import opened Options
  import opened RelayProtocol

  /** What a RelayVolume object holds: the stored code `vol` and the `mute`
      flag (both None until first set), and every write made on the bus. */
  datatype Relay = Relay(vol: Option<Code>, mute: Option<bool>, bus: seq<BusWrite>)

  /** A RelayVolume just constructed: nothing stored, nothing written. */
  const Fresh: Relay := Relay(None, None, [])

  /** The polling loop's locals `last_volume` and `last_mute`. */
  datatype Watch = Watch(lastVolume: Option<int>, lastMute: Option<bool>)

  /** The loop's locals before the first iteration. */
  const Unseen: Watch := Watch(None, None)

  /** The answer to the mixer's mute query: a flag, or the ALSA error of a
      control without a mute switch. */
  datatype MuteQuery = Reported(muted: bool) | Unsupported

  /** What one iteration reads from the mixer: the first channel's volume and
      the mute query, or a failure of the mixer calls themselves. */
  datatype Observation = Observed(volume: int, mute: MuteQuery) | MixerFailed

  /** The mute flag the loop acts on: an unsupported query counts as unmuted. */
  function CurrentMute(q: MuteQuery): (m: bool)
    ensures m <==> q == Reported(true)
  {
    match q
    case Reported(muted) => muted
    case Unsupported => false
  }

  /** `write_relay(value)`: one relay update appended to the bus. */
  function WriteRelayOn(r: Relay, value: Option<Code>): (r': Relay)
    ensures r'.vol == r.vol && r'.mute == r.mute
    ensures |r'.bus| == |r.bus| + |RelayFrame(value)|
    ensures r'.bus[..|r.bus|] == r.bus && r'.bus[|r.bus|..] == RelayFrame(value)
    ensures LatchedCode(r'.bus) == value
  {
    r.(bus := r.bus + RelayFrame(value))
  }

  /** `set_volume(percent)`: store the translated code, write it only if it
      differs from the stored one, and clear the mute flag. */
  function SetVolumeOn(r: Relay, percent: int): (r': Relay)
    ensures r'.vol == Some(Translate(percent)) && r'.mute == Some(false)
    ensures r'.bus == r.bus <==> r.vol == Some(Translate(percent))
    ensures r'.bus != r.bus ==> r'.bus == r.bus + RelayFrame(r'.vol)
    ensures LatchedCode(r.bus) == r.vol ==> LatchedCode(r'.bus) == r'.vol
  {
    var code := Translate(percent);
    var stored := r.(vol := Some(code));
    var written := if r.vol != Some(code) then WriteRelayOn(stored, Some(code)) else stored;
    written.(mute := Some(false))
  }

  /** `set_mute(m)`: record the flag and write MIN_VOL when muting, the stored
      code when unmuting (which, with nothing stored, writes the guard alone). */
  function SetMuteOn(r: Relay, m: bool): (r': Relay)
    ensures r'.vol == r.vol && r'.mute == Some(m)
    ensures r'.bus == r.bus + RelayFrame(if m then Some(MIN_VOL) else r.vol)
    ensures LatchedCode(r'.bus) == if m then Some(MIN_VOL) else r.vol
  {
    WriteRelayOn(r.(mute := Some(m)), if m then Some(MIN_VOL) else r.vol)
  }

  /** One iteration of the polling loop. Mute is looked at first; a volume
      change counts only while unmuted. A failing mixer call aborts the
      iteration before anything is compared. */
  function Poll(r: Relay, w: Watch, obs: Observation): (after: (Relay, Watch))
    ensures obs.MixerFailed? ==> after == (r, w)
    ensures obs.Observed? ==> after.1.lastMute == Some(CurrentMute(obs.mute))
    ensures after.1.lastVolume == if obs.Observed? && !CurrentMute(obs.mute) then Some(obs.volume) else w.lastVolume
    ensures after.0.vol ==
      if obs.Observed? && !CurrentMute(obs.mute) && w.lastVolume != Some(obs.volume) then Some(Translate(obs.volume)) else r.vol
    ensures |r.bus| <= |after.0.bus| && after.0.bus[..|r.bus|] == r.bus
  {
    match obs
    case MixerFailed => (r, w)
    case Observed(volume, query) =>
      var m := CurrentMute(query);
      var r1 := if w.lastMute != Some(m) then SetMuteOn(r, m) else r;
      var w1 := w.(lastMute := Some(m));
      if w1.lastVolume != Some(volume) && !m then
        (SetVolumeOn(r1, volume), w1.(lastVolume := Some(volume)))
      else
        (r1, w1)
  }

  /** The first `|obs|` iterations of the loop, from `r` and `w`. */
  function Run(r: Relay, w: Watch, obs: seq<Observation>): (after: (Relay, Watch))
    ensures |r.bus| <= |after.0.bus| && after.0.bus[..|r.bus|] == r.bus
    ensures (forall i :: 0 <= i < |obs| ==> obs[i] == MixerFailed) ==> after == (r, w)
    decreases |obs|
  {
    if obs == [] then (r, w)
    else
      var before := Run(r, w, obs[..|obs| - 1]);
      Poll(before.0, before.1, obs[|obs| - 1])
  }

  /** The object whose fields the driver updates in place. */
  class RelayVolume {
    var vol: Option<Code>
    var mute: Option<bool>
    /** Every byte written to the I2C bus, in order. */
    var bus: seq<BusWrite>

    function State(): (s: Relay)
      reads this
    {
      Relay(vol, mute, bus)
    }

    constructor ()
      ensures State() == Fresh
    {
      vol := None;
      mute := None;
      bus := [];
    }

    /** Writes the guard byte, then the encoded code. Encoding Python's None
        raises; the error is swallowed after the guard byte has gone out. */
    method WriteRelay(value: Option<Code>)
      modifies this`bus
      ensures State() == WriteRelayOn(old(State()), value)
    {
      bus := bus + [BusWrite(RELAY_ADDR, GUARD)];
      match value {
        case None =>
        case Some(code) =>
          var relayValue := EncodeRelay(code);
          bus := bus + [BusWrite(RELAY_ADDR, relayValue)];
      }
    }

    method SetVolume(volumePercent: int)
      modifies this
      ensures State() == SetVolumeOn(old(State()), volumePercent)
    {
      var oldVol := vol;
      vol := Some(Translate(volumePercent));
      if vol != oldVol {
        WriteRelay(vol);
      }
      mute := Some(false);
    }

    method SetMute(m: bool)
      modifies this
      ensures State() == SetMuteOn(old(State()), m)
    {
      mute := Some(m);
      WriteRelay(if m then Some(MIN_VOL) else vol);
    }

    /** One iteration of `run`: the loop's locals come in and go out. */
    method PollOnce(lastVolume: Option<int>, lastMute: Option<bool>, obs: Observation)
      returns (nextVolume: Option<int>, nextMute: Option<bool>)
      modifies this
      ensures (State(), Watch(nextVolume, nextMute)) == Poll(old(State()), Watch(lastVolume, lastMute), obs)
    {
      nextVolume, nextMute := lastVolume, lastMute;
      match obs {
        case MixerFailed =>
        case Observed(currentVolume, query) =>
          var currentMute := CurrentMute(query);
          ghost var r1 := if lastMute != Some(currentMute) then SetMuteOn(old(State()), currentMute) else old(State());
          if Some(currentMute) != nextMute {
            SetMute(currentMute);
            nextMute := Some(currentMute);
          }
          assert State() == r1;
          if Some(currentVolume) != nextVolume && !currentMute {
            SetVolume(currentVolume);
            nextVolume := Some(currentVolume);
          }
      }
    }

    /** The first `|observations|` iterations of `run`, from its start. */
    method RunIterations(observations: seq<Observation>)
      returns (lastVolume: Option<int>, lastMute: Option<bool>)
      modifies this
      ensures (State(), Watch(lastVolume, lastMute)) == Run(old(State()), Unseen, observations)
    {
      lastVolume, lastMute := None, None;
      for i := 0 to |observations|
        invariant (State(), Watch(lastVolume, lastMute)) == Run(old(State()), Unseen, observations[..i])
      {
        assert observations[..i + 1][..i] == observations[..i];
        lastVolume, lastMute := PollOnce(lastVolume, lastMute, observations[i]);
      }
      assert observations[..|observations|] == observations;
    }
  }
}
