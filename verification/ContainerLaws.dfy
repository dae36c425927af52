/** What the state container promises: round trip, truncation, extension, corruption, and exactly what it accepts. */
module ContainerLaws {
  import opened Bytes
  import opened StateContainer

  // ----- Layout ------------------------------------------------------------------------

  lemma FrontLayout(
      magic: seq<Byte>, version: seq<Byte>, core: seq<Byte>, sha: seq<Byte>, len: seq<Byte>, rest: seq<Byte>)
    requires |magic| == 8 && |version| == 4 && |core| == 16 && |sha| == 41 && |len| == 8
    ensures var b := magic + version + core + sha + len + rest;
      && b[..8] == magic && b[8..12] == version && b[12..28] == core && b[28..69] == sha
      && b[69..77] == len && b[77..] == rest
  {
  }

  lemma BackLayout(b: seq<Byte>, check: seq<Byte>, payload: seq<Byte>)
    requires |b| >= 77 && |check| == 4 && b[77..] == check + payload
    ensures |b| == 81 + |payload| && b[77..81] == check && b[81..] == payload
  {
    assert b[77..81] == b[77..][..4];
    assert b[81..] == b[77..][4..];
  }

  lemma Layout(crc: Checksum, core: seq<Byte>, sha: seq<Byte>, payload: seq<Byte>)
    requires |core| == 16 && |sha| == 41
    ensures var b := Assemble(crc, core, sha, payload);
      && |b| == 81 + |payload|
      && b[..8] == MAGIC && b[8..12] == Little(VERSION, 4) && b[12..28] == core && b[28..69] == sha
      && b[69..77] == Little(|payload|, 8) && b[77..81] == Little(crc(payload), 4) && b[81..] == payload
  {
    var version, len, check := Little(VERSION, 4), Little(|payload|, 8), Little(crc(payload), 4);
    var b := Assemble(crc, core, sha, payload);
    assert b == MAGIC + version + core + sha + len + (check + payload);
    FrontLayout(MAGIC, version, core, sha, len, check + payload);
    BackLayout(b, check, payload);
  }

  lemma SlicesRebuild(b: seq<Byte>)
    requires |b| >= 81
    ensures b == b[..8] + b[8..12] + b[12..28] + b[28..69] + b[69..77] + b[77..81] + b[81..]
  {
  }

  // ----- Reading what was assembled ----------------------------------------------------

  /** What reading a well-formed container comes to, part by part. */
  function Reading(sha: seq<Byte>, payload: seq<Byte>, current: seq<Byte>): Parsed
    requires |sha| == 41 && |current| == 41
  {
    if |payload| <= 12 then Failed(CORRUPT_FILE)
    else if !ShaAccepted(sha, current) then Failed(STATE_ROM_MISMATCH)
    else if !ValidClock(ClockOf(payload)) then Failed(CORRUPT_FILE)
    else Wrapped(payload[12..], ClockOf(payload))
  }

  lemma HeaderReads(crc: Checksum, core: seq<Byte>, sha: seq<Byte>, payload: seq<Byte>)
    requires |core| == 16 && |sha| == 41 && |payload| < U64
    ensures var b := Assemble(crc, core, sha, payload);
      && |b| == 81 + |payload| && StartsWithMagic(b) && Number(b[8..12]) == 2 && Number(b[69..77]) == |payload|
      && Number(b[77..81]) == crc(payload) && b[81..] == payload && b[28..69] == sha
  {
    Layout(crc, core, sha, payload);
    Powers();
    NumberOfLittle(VERSION, 4);
    NumberOfLittle(|payload|, 8);
    NumberOfLittle(crc(payload), 4);
  }

  lemma AssembledReads(crc: Checksum, core: seq<Byte>, sha: seq<Byte>, payload: seq<Byte>, current: seq<Byte>)
    requires |core| == 16 && |sha| == 41 && |current| == 41 && |payload| < U64
    ensures Parse(crc, Assemble(crc, core, sha, payload), current) == Reading(sha, payload, current)
  {
    var b := Assemble(crc, core, sha, payload);
    HeaderReads(crc, core, sha, payload);
    assert b[28..68] == sha[..40];
    assert b[28..68][..40] == sha[..40];
    if |payload| > 12 {
      assert b[93..] == b[81..][12..];
    }
  }

  lemma PayloadReads(raw: seq<Byte>, clock: Clock)
    ensures var p := Payload(raw, clock); |p| == 12 + |raw| && p[12..] == raw && ClockOf(p) == clock
  {
    var p := Payload(raw, clock);
    assert p[..8] == Little(clock.bits, 8);
    assert p[8..12] == Little(clock.mode, 4);
    Powers();
    NumberOfLittle(clock.bits, 8);
    NumberOfLittle(clock.mode, 4);
  }

  /** What a writer accepts. */
  predicate Wrappable(raw: seq<Byte>, sha: seq<Byte>, clock: Clock) {
    raw != [] && |raw| <= SIZE_MAX - HEADER - CLOCK && |sha| == 41 && ValidClock(clock)
  }

  /**
   Round trip: unwrapping what was wrapped gives back the raw state and the same clock
   bits, unless it was saved under another ROM.
   */
  lemma RoundTrip(crc: Checksum, raw: seq<Byte>, sha: seq<Byte>, clock: Clock, current: seq<Byte>)
    requires Wrappable(raw, sha, clock) && |current| == 41
    ensures Parse(crc, Blob(crc, raw, sha, clock), current)
         == if ShaAccepted(sha, current) then Wrapped(raw, clock) else Failed(STATE_ROM_MISMATCH)
  {
    PayloadReads(raw, clock);
    AssembledReads(crc, CORE, sha, Payload(raw, clock), current);
  }

  // ----- Truncation, extension, corruption ---------------------------------------------

  lemma HeaderKept(b: seq<Byte>, b': seq<Byte>)
    requires |b| >= 81 && |b'| >= 81 && b'[..81] == b[..81]
    ensures b'[..8] == b[..8] && b'[8..12] == b[8..12] && b'[69..77] == b[69..77] && b'[77..81] == b[77..81]
  {
    assert b'[..8] == b'[..81][..8] && b[..8] == b[..81][..8];
    assert b'[8..12] == b'[..81][8..12] && b[8..12] == b[..81][8..12];
    assert b'[69..77] == b'[..81][69..77] && b[69..77] == b[..81][69..77];
    assert b'[77..81] == b'[..81][77..81] && b[77..81] == b[..81][77..81];
  }

  /** A container whose length is not the one its header states is corrupt. */
  lemma LengthGuards(crc: Checksum, b: seq<Byte>, b': seq<Byte>, current: seq<Byte>)
    requires |b| >= 81 && StartsWithMagic(b) && Number(b[8..12]) == 2 && Number(b[69..77]) == |b| - 81
    requires |b'| >= 81 && |b'| != |b| && b'[..81] == b[..81] && |current| == 41
    ensures Parse(crc, b', current) == Failed(CORRUPT_FILE)
  {
    HeaderKept(b, b');
  }

  /** Every proper prefix that still shows the magic is corrupt; a shorter one is taken for a legacy state. */
  lemma PrefixIsCorrupt(crc: Checksum, raw: seq<Byte>, sha: seq<Byte>, clock: Clock, current: seq<Byte>, k: nat)
    requires Wrappable(raw, sha, clock) && |current| == 41 && k < |Blob(crc, raw, sha, clock)|
    ensures Parse(crc, Blob(crc, raw, sha, clock)[..k], current)
         == if k == 0 then Failed(INVALID_PARAM) else if k < 8 then Legacy else Failed(CORRUPT_FILE)
  {
    var b := Blob(crc, raw, sha, clock);
    PayloadReads(raw, clock);
    HeaderReads(crc, CORE, sha, Payload(raw, clock));
    if k >= 81 {
      LengthGuards(crc, b, b[..k], current);
    } else if k >= 8 {
      assert b[..k][..8] == b[..8];
    }
  }

  /** Every extension is corrupt. */
  lemma ExtensionIsCorrupt(
      crc: Checksum, raw: seq<Byte>, sha: seq<Byte>, clock: Clock, current: seq<Byte>, more: seq<Byte>)
    requires Wrappable(raw, sha, clock) && |current| == 41 && more != []
    ensures Parse(crc, Blob(crc, raw, sha, clock) + more, current) == Failed(CORRUPT_FILE)
  {
    var b := Blob(crc, raw, sha, clock);
    PayloadReads(raw, clock);
    HeaderReads(crc, CORE, sha, Payload(raw, clock));
    assert (b + more)[..81] == b[..81];
    LengthGuards(crc, b, b + more, current);
  }

  /** Changing the payload is noticed exactly when the checksum changes. */
  lemma PayloadChangeIsNoticed(
      crc: Checksum, raw: seq<Byte>, sha: seq<Byte>, clock: Clock, current: seq<Byte>, payload: seq<Byte>)
    requires Wrappable(raw, sha, clock) && |current| == 41 && |payload| == CLOCK + |raw|
    ensures var b := Blob(crc, raw, sha, clock);
      && |b| == 81 + |payload|
      && (Parse(crc, b[..81] + payload, current) == Failed(INVALID_CRC) <==> crc(payload) != crc(Payload(raw, clock)))
  {
    var b := Blob(crc, raw, sha, clock);
    PayloadReads(raw, clock);
    HeaderReads(crc, CORE, sha, Payload(raw, clock));
    var b' := b[..81] + payload;
    assert b'[81..] == payload && b'[..81] == b[..81];
    HeaderKept(b, b');
  }

  // ----- Exactly what is accepted ------------------------------------------------------

  lemma NumberFixes(s: seq<Byte>, v: nat)
    ensures Number(s) == v ==> s == Little(v, |s|)
  {
    LittleOfNumber(s);
  }

  lemma PayloadRebuilds(p: seq<Byte>)
    requires |p| >= 12
    ensures p == Payload(p[12..], ClockOf(p))
  {
    NumberFixes(p[..8], ClockOf(p).bits);
    NumberFixes(p[8..12], ClockOf(p).mode);
    assert p == p[..8] + p[8..12] + p[12..];
  }

  lemma AcceptedRebuilds(crc: Checksum, b: seq<Byte>, current: seq<Byte>)
    requires |current| == 41 && |b| >= 81 && Number(b[8..12]) == 2 && Parse(crc, b, current).Wrapped?
    ensures b == Assemble(crc, b[12..28], b[28..69], b[81..])
  {
    NumberFixes(b[8..12], 2);
    NumberFixes(b[69..77], |b| - 81);
    NumberFixes(b[77..81], crc(b[81..]));
    SlicesRebuild(b);
  }

  /** A container is the assembly of a payload with its own core version and hash. */
  predicate IsAssembled(crc: Checksum, b: seq<Byte>, payload: seq<Byte>)
    requires |b| >= 81
  {
    b == Assemble(crc, b[12..28], b[28..69], payload)
  }

  /**
   A version 2 container is accepted, with this raw state and clock, if and only if it is
   the assembly of them: magic, version, length and checksum leave no freedom, and only
   the core version and the byte after the hash go unread.
   */
  lemma AcceptedIff(crc: Checksum, b: seq<Byte>, current: seq<Byte>, raw: seq<Byte>, clock: Clock)
    requires |current| == 41 && |b| >= 81 && Number(b[8..12]) == 2 && |b| < U64
    ensures Parse(crc, b, current) == Wrapped(raw, clock) <==>
      raw != [] && ValidClock(clock) && ShaAccepted(b[28..69], current) && IsAssembled(crc, b, Payload(raw, clock))
  {
    assert b[28..68][..40] == b[28..69][..40];
    PayloadReads(raw, clock);
    if Parse(crc, b, current) == Wrapped(raw, clock) {
      AcceptedRebuilds(crc, b, current);
      PayloadRebuilds(b[81..]);
      assert b[93..] == b[81..][12..];
    }
    if raw != [] && ValidClock(clock) && ShaAccepted(b[28..69], current) && IsAssembled(crc, b, Payload(raw, clock)) {
      Layout(crc, b[12..28], b[28..69], Payload(raw, clock));
      AssembledReads(crc, b[12..28], b[28..69], Payload(raw, clock), current);
    }
  }

  lemma AssembleDiffers(
      crc: Checksum, core: seq<Byte>, core': seq<Byte>, sha: seq<Byte>, sha': seq<Byte>, payload: seq<Byte>, k: nat)
    requires |core| == 16 && |core'| == 16 && |sha| == 41 && |sha'| == 41 && sha[..40] == sha'[..40]
    requires k < 81 + |payload|
    requires !(12 <= k < 28) && k != 68
    ensures |Assemble(crc, core, sha, payload)| == |Assemble(crc, core', sha', payload)| == 81 + |payload|
    ensures Assemble(crc, core, sha, payload)[k] == Assemble(crc, core', sha', payload)[k]
  {
    var b, b' := Assemble(crc, core, sha, payload), Assemble(crc, core', sha', payload);
    Layout(crc, core, sha, payload);
    Layout(crc, core', sha', payload);
    if k < 12 {
      assert b[..8] == b'[..8] && b[8..12] == b'[8..12];
      assert k < 8 ==> b[k] == b[..8][k] && b'[k] == b'[..8][k];
      assert 8 <= k ==> b[k] == b[8..12][k - 8] && b'[k] == b'[8..12][k - 8];
    } else if k < 68 {
      assert b[k] == b[28..69][k - 28] == sha[..40][k - 28];
      assert b'[k] == b'[28..69][k - 28] == sha'[..40][k - 28];
    } else if k < 81 {
      assert k < 77 ==> b[k] == b[69..77][k - 69] && b'[k] == b'[69..77][k - 69];
      assert k >= 77 ==> b[k] == b[77..81][k - 77] && b'[k] == b'[77..81][k - 77];
    } else {
      assert b[k] == b[81..][k - 81] && b'[k] == b'[81..][k - 81];
    }
  }

  /** Any accepted version 2 container is what the writer produces from its parts, except at offsets 12 to 27 and 68. */
  lemma AcceptedIsWrapped(crc: Checksum, b: seq<Byte>, current: seq<Byte>, k: nat)
    requires |current| == 41 && |b| >= 81 && |b| < U64 && Number(b[8..12]) == 2 && Parse(crc, b, current).Wrapped?
    requires k < |b| && !(12 <= k < 28) && k != 68
    ensures var p := Parse(crc, b, current); var made := Blob(crc, p.raw, b[28..68] + [0], p.clock);
      Wrappable(p.raw, b[28..68] + [0], p.clock) && |made| == |b| && made[k] == b[k]
  {
    var p := Parse(crc, b, current);
    AcceptedIff(crc, b, current, p.raw, p.clock);
    PayloadReads(p.raw, p.clock);
    var sha := b[28..69];
    assert sha[..40] == (b[28..68] + [0])[..40];
    Layout(crc, b[12..28], sha, Payload(p.raw, p.clock));
    AssembleDiffers(crc, b[12..28], CORE, sha, b[28..68] + [0], Payload(p.raw, p.clock), k);
  }
}
