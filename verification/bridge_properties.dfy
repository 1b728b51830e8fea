/** What the driver's operations and its polling loop guarantee: idempotent
    volume writes, mute before volume, the first iteration from the None
    baseline, and that after every successful iteration the relay bank holds
    the code of what the mixer showed. */
module BridgeProperties {
  import opened Options
  import opened RelayProtocol
  import opened RelayVolumeModel

  /** Setting the same volume twice leaves the object as setting it once:
      the second call writes nothing. The first call writes one relay update
      exactly when the stored code changes. */
  lemma SetVolumeIdempotent(r: Relay, percent: int)
    ensures SetVolumeOn(SetVolumeOn(r, percent), percent) == SetVolumeOn(r, percent)
    ensures |SetVolumeOn(r, percent).bus| == |r.bus| + (if r.vol == Some(Translate(percent)) then 0 else 2)
  {
  }

  /** `set_volume` compares with the stored code, not with what the relay
      holds: right after muting, setting the stored volume again clears the
      mute flag yet leaves the relay at MIN_VOL. */
  lemma SetVolumeAfterMuteWritesNothing(r: Relay, percent: int)
    requires r.vol == Some(Translate(percent))
    ensures var r' := SetVolumeOn(SetMuteOn(r, true), percent);
      r'.mute == Some(false) && r'.bus == SetMuteOn(r, true).bus && LatchedCode(r'.bus) == Some(MIN_VOL)
  {
  }

  /** Between iterations of the loop: the stored code is the translation of
      `last_volume`, the object's mute flag is `last_mute`, and the relay holds
      MIN_VOL when muted and the stored code when unmuted. */
  ghost predicate Synced(r: Relay, w: Watch)
  {
    r.vol == (match w.lastVolume case None => None case Some(v) => Some(Translate(v)))
    && r.mute == w.lastMute
    && (w.lastMute == Some(true) ==> LatchedCode(r.bus) == Some(MIN_VOL))
    && (w.lastMute == Some(false) ==> r.vol.Some? && LatchedCode(r.bus) == r.vol)
  }

  /** The code the relay should hold for what the mixer shows. */
  function Target(volume: int, query: MuteQuery): (c: Code)
  {
    if CurrentMute(query) then MIN_VOL else Translate(volume)
  }

  /** A new object and the loop's unset locals are in step. */
  lemma SyncedAtStart()
    ensures Synced(Fresh, Unseen)
  {
  }

  /** One iteration keeps the object in step with the loop's locals, and a
      successful one leaves the relay holding the code of what it read. */
  lemma PollKeepsSynced(r: Relay, w: Watch, obs: Observation)
    requires Synced(r, w)
    ensures Synced(Poll(r, w, obs).0, Poll(r, w, obs).1)
    ensures obs.Observed? ==> LatchedCode(Poll(r, w, obs).0.bus) == Some(Target(obs.volume, obs.mute))
  {
  }

  /** The most recent observation the mixer answered, if any. */
  function LastObserved(obs: seq<Observation>): (o: Option<Observation>)
    ensures o.Some? ==> o.value.Observed?
    ensures o.Some? ==>
      exists i :: 0 <= i < |obs| && obs[i] == o.value && (forall j :: i < j < |obs| ==> obs[j] == MixerFailed)
    ensures o.None? ==> forall i :: 0 <= i < |obs| ==> obs[i] == MixerFailed
  {
    if obs == [] then None
    else if obs[|obs| - 1].Observed? then Some(obs[|obs| - 1])
    else LastObserved(obs[..|obs| - 1])
  }

  /** From a new object and the loop's start, any number of iterations keeps
      object and locals in step; the relay holds the code of the most recent
      successful reading, and nothing is written before the first one. */
  lemma {:induction false} RunConverges(obs: seq<Observation>)
    ensures Synced(Run(Fresh, Unseen, obs).0, Run(Fresh, Unseen, obs).1)
    ensures match LastObserved(obs)
      case None => Run(Fresh, Unseen, obs) == (Fresh, Unseen)
      case Some(o) => LatchedCode(Run(Fresh, Unseen, obs).0.bus) == Some(Target(o.volume, o.mute))
  {
    if obs == [] {
      SyncedAtStart();
    } else {
      var prefix := obs[..|obs| - 1];
      RunConverges(prefix);
      var before := Run(Fresh, Unseen, prefix);
      PollKeepsSynced(before.0, before.1, obs[|obs| - 1]);
    }
  }

  /** The first iteration: `set_mute` always runs. Muted, it writes MIN_VOL
      and the volume waits. Unmuted, it writes the guard byte for the unset
      code and fails; `set_volume` then writes the translated volume. */
  lemma FirstPoll(volume: int, query: MuteQuery)
    ensures Poll(Fresh, Unseen, Observed(volume, query)) ==
      if CurrentMute(query) then
        (Relay(None, Some(true), [BusWrite(RELAY_ADDR, 0x3F), BusWrite(RELAY_ADDR, 0x7F)]),
         Watch(None, Some(true)))
      else
        (Relay(Some(Translate(volume)), Some(false),
               [BusWrite(RELAY_ADDR, 0x3F), BusWrite(RELAY_ADDR, 0x3F), BusWrite(RELAY_ADDR, EncodeRelay(Translate(volume)))]),
         Watch(Some(volume), Some(false)))
  {
    TranslateExamples();
    if !CurrentMute(query) {
      var r1 := SetMuteOn(Fresh, false);
      assert r1.bus == [BusWrite(RELAY_ADDR, GUARD)];
      var r2 := SetVolumeOn(r1, volume);
      assert r2.bus == r1.bus + RelayFrame(Some(Translate(volume)));
      assert r2.bus == [BusWrite(RELAY_ADDR, 0x3F), BusWrite(RELAY_ADDR, 0x3F), BusWrite(RELAY_ADDR, EncodeRelay(Translate(volume)))];
      assert Poll(Fresh, Unseen, Observed(volume, query)).0 == r2;
    }
  }

  /** Mute is handled before volume: in any iteration that reads the mixer
      muted, including the one where muting begins, the volume is neither
      applied nor recorded; the only write is MIN_VOL, and only when muting
      begins. */
  lemma MutedIgnoresVolume(r: Relay, w: Watch, volume: int, query: MuteQuery)
    requires CurrentMute(query)
    ensures Poll(r, w, Observed(volume, query)).1 == w.(lastMute := Some(true))
    ensures Poll(r, w, Observed(volume, query)).0.vol == r.vol
    ensures Poll(r, w, Observed(volume, query)).0.bus ==
      if w.lastMute == Some(true) then r.bus else r.bus + RelayFrame(Some(MIN_VOL))
  {
  }

  /** An iteration whose reading equals the recorded one writes nothing, and
      so does one whose mixer calls fail. */
  lemma UnchangedPollIsQuiet(r: Relay, w: Watch, obs: Observation)
    requires obs.Observed? ==> w.lastMute == Some(CurrentMute(obs.mute)) &&
                               (CurrentMute(obs.mute) || w.lastVolume == Some(obs.volume))
    ensures Poll(r, w, obs) == (r, w)
  {
  }

  /** On the first unmuted iteration after a mute, `set_mute(False)` writes
      the stored code back, then `set_volume` writes the volume that changed
      meanwhile, if its code differs. With no code stored yet (the loop began
      muted), `write_relay(None)` puts out the guard byte alone before
      `set_volume` writes the code. */
  lemma UnmuteRestoresThenApplies(r: Relay, w: Watch, volume: int, query: MuteQuery)
    requires Synced(r, w) && w.lastMute == Some(true)
    requires !CurrentMute(query)
    ensures Poll(r, w, Observed(volume, query)) ==
      (Relay(Some(Translate(volume)), Some(false),
             r.bus + RelayFrame(r.vol) + (if r.vol == Some(Translate(volume)) then [] else RelayFrame(Some(Translate(volume))))),
       Watch(Some(volume), Some(false)))
  {
    var r1 := SetMuteOn(r, false);
    assert r1.bus == r.bus + RelayFrame(r.vol);
    if r.vol != Some(Translate(volume)) {
      assert SetVolumeOn(r1, volume).bus == r1.bus + RelayFrame(Some(Translate(volume)));
    } else {
      assert r1.bus + [] == r1.bus;
    }
  }
}
