/**
 The audio clock across a save and a load: the clock of the core is a mode and a remainder,
 the container stores a number and 64 bits. `value` reads the bits as the real number they
 represent; nothing else about the representation is used.
 */
module SavedClock {
  import opened Bytes
  import Core = AudioClock
  import Stored = StateContainer
  import Laws = ContainerLaws
  import Binary64

  type Reading = Stored.Word64 -> real

  /** The bits of fractions are the ones the container accepts, and the bits of zero its zeros. */
  ghost predicate IsReading(value: Reading) {
    && (forall bits: Stored.Word64 {:trigger Stored.IsFraction(bits)} ::
          Stored.IsFraction(bits) <==> 0.0 <= value(bits) < 1.0)
    && (forall bits: Stored.Word64 {:trigger Stored.IsZero(bits)} :: Stored.IsZero(bits) <==> value(bits) == 0.0)
  }

  /** Binary64 numbers are read this way. */
  lemma BinaryIsReading()
    ensures IsReading(Binary64.Value)
  {
    forall bits: Stored.Word64
      ensures Stored.IsFraction(bits) <==> 0.0 <= Binary64.Value(bits) < 1.0
      ensures Stored.IsZero(bits) <==> Binary64.Value(bits) == 0.0
    {
      Binary64.FractionIff(bits);
    }
  }

  function ModeNumber(mode: Core.Mode): Stored.Word32 {
    match mode case Unset => 0 case Ntsc => 1 case Pal => 2
  }

  /** Bits that hold the core's remainder. */
  predicate Holds(value: Reading, bits: Stored.Word64, c: Core.Clock) {
    value(bits) == c.remainder
  }

  /** The clock a save writes. A canonical copy writes either zero as the plain one. */
  function Saved(bits: Stored.Word64, mode: Core.Mode, canonical: bool): Stored.Clock {
    Stored.Clock(if canonical && Stored.IsZero(bits) then 0 else bits, ModeNumber(mode))
  }

  /** The clock a load installs. */
  function Restored(value: Reading, c: Stored.Clock): Core.Clock {
    Core.Clock(if c.mode == 1 then Core.Ntsc else if c.mode == 2 then Core.Pal else Core.Unset, value(c.bits))
  }

  /** The container accepts a clock if and only if the core would call what it restores valid, and the mode is known. */
  lemma AcceptedIffValid(value: Reading, c: Stored.Clock)
    requires IsReading(value)
    ensures Stored.ValidClock(c) <==> c.mode <= 2 && Core.ValidClock(Restored(value, c))
  {
    assert Stored.IsFraction(c.bits) <==> 0.0 <= value(c.bits) < 1.0;
    assert Stored.IsZero(c.bits) <==> value(c.bits) == 0.0;
  }

  /** How a clock is stored: the mode as a number, the bits as they are, and one zero in a canonical copy. */
  lemma StoredAs(value: Reading, bits: Stored.Word64, c: Core.Clock, canonical: bool)
    requires IsReading(value) && Holds(value, bits, c)
    ensures var saved := Saved(bits, c.mode, canonical);
      && (c.mode == Core.Ntsc <==> saved.mode == 1) && (c.mode == Core.Pal <==> saved.mode == 2) && saved.mode <= 2
      && (!canonical || c.remainder != 0.0 ==> saved.bits == bits)
      && (canonical && c.remainder == 0.0 ==> saved.bits == 0)
  {
    assert Stored.IsZero(bits) <==> value(bits) == 0.0;
  }

  /** Saving and restoring gives back the same remainder and mode. */
  lemma RestoredIsSaved(value: Reading, bits: Stored.Word64, c: Core.Clock, canonical: bool)
    requires IsReading(value) && Holds(value, bits, c)
    ensures Restored(value, Saved(bits, c.mode, canonical)) == c
  {
    assert Stored.IsZero(bits) <==> value(bits) == 0.0;
    assert Stored.IsZero(0) <==> value(0) == 0.0;
  }

  /** At every moment of every history from a fresh core, a save is not refused for its clock. */
  lemma SaveIsNeverRefused(
      value: Reading, states: seq<Core.State>, events: seq<Core.Event>, bits: Stored.Word64, canonical: bool)
    requires IsReading(value) && Core.IsHistory(states, events) && states[0].clock == Core.NO_CLOCK
    requires Holds(value, bits, states[|events|].clock)
    ensures Stored.ValidClock(Saved(bits, states[|events|].clock.mode, canonical))
  {
    var c := states[|events|].clock;
    Core.ClockStaysValid(states, events);
    RestoredIsSaved(value, bits, c, canonical);
    AcceptedIffValid(value, Saved(bits, c.mode, canonical));
  }

  /** Save, wrap, unwrap and load bring back the raw state and exactly the clock that was saved. */
  lemma SaveLoadRoundTrip(
      value: Reading, crc: Stored.Checksum, raw: seq<Byte>, sha: seq<Byte>, current: seq<Byte>,
      bits: Stored.Word64, c: Core.Clock, canonical: bool)
    requires IsReading(value) && Core.ValidClock(c) && Holds(value, bits, c)
    requires raw != [] && |raw| <= Stored.SIZE_MAX - Stored.HEADER - Stored.CLOCK
    requires |sha| == 41 && |current| == 41 && Stored.ShaAccepted(sha, current)
    ensures var p := Stored.Parse(crc, Stored.Blob(crc, raw, sha, Saved(bits, c.mode, canonical)), current);
      p.Wrapped? && p.raw == raw && Restored(value, p.clock) == c
  {
    RestoredIsSaved(value, bits, c, canonical);
    AcceptedIffValid(value, Saved(bits, c.mode, canonical));
    Laws.RoundTrip(crc, raw, sha, Saved(bits, c.mode, canonical), current);
  }

  /** Whatever container a load accepts, the clock it installs is a valid one, so a later save is accepted too. */
  lemma LoadedClockIsValid(value: Reading, crc: Stored.Checksum, blob: seq<Byte>, current: seq<Byte>)
    requires IsReading(value) && |current| == 41
    ensures var p := Stored.Parse(crc, blob, current); p.Wrapped? ==> Core.ValidClock(Restored(value, p.clock))
  {
    var p := Stored.Parse(crc, blob, current);
    if p.Wrapped? {
      AcceptedIffValid(value, p.clock);
      assert Stored.IsZero(0) <==> value(0) == 0.0;
    }
  }

  /**
   The whole promise: wrap the state at moment i of a history, unwrap it and load it at
   moment j under the same sample rate, and the same requests get the same frames and
   samples as they got after the save.
   */
  lemma SaveLoadChangesNothing(
      value: Reading, crc: Stored.Checksum, raw: seq<Byte>, sha: seq<Byte>, current: seq<Byte>, bits: Stored.Word64,
      canonical: bool, states: seq<Core.State>, events: seq<Core.Event>, i: nat, j: nat, m: nat)
    requires IsReading(value) && raw != [] && |raw| <= Stored.SIZE_MAX - Stored.HEADER - Stored.CLOCK
    requires |sha| == 41 && |current| == 41 && Stored.ShaAccepted(sha, current)
    requires Core.IsHistory(states, events) && Core.ValidClock(states[0].clock)
    requires i <= j && j + 1 + m <= |events| && states[j].rate == states[i].rate
    requires Holds(value, bits, states[i].clock)
    requires
      var blob := Stored.Blob(crc, raw, sha, Saved(bits, states[i].clock.mode, canonical));
      var p := Stored.Parse(crc, blob, current);
      p.Wrapped? ==> events[j] == Core.Loaded(Restored(value, p.clock))
    requires Core.SameRequests(events[i..i + m], events[j + 1..j + 1 + m])
    ensures events[j + 1..j + 1 + m] == events[i..i + m]
  {
    Core.SliceIsHistory(states, events, 0, i);
    assert states[0..i + 1][0] == states[0] && states[0..i + 1][i] == states[i];
    Core.ClockStaysValid(states[0..i + 1], events[0..i]);
    SaveLoadRoundTrip(value, crc, raw, sha, current, bits, states[i].clock, canonical);
    Core.LoadReplaysTheFuture(states, events, i, j, m);
  }
}
