/**
 The versioned container that protects a saved machine state: a fixed header with magic,
 version, ROM hash, length and checksum, then the audio clock and the raw state. The
 checksum is any function of the payload bytes.
 */
module StateContainer {
  import opened Bytes

  type Word32 = x: nat | x < 0x1_0000_0000
  type Word64 = x: nat | x < 0x1_0000_0000_0000_0000
  type Checksum = seq<Byte> -> Word32

  const HEADER: nat := 81
  const CLOCK: nat := 12
  const VERSION: Word32 := 2

  /** The largest size the platform can express. */
  const SIZE_MAX: nat := U64 - 1

  const MAGIC: seq<Byte> := [70, 76, 89, 78, 83, 84, 49, 0]
  const CORE_VERSION: seq<Byte> := [49, 46, 53, 51, 46, 50, 0]

  datatype Code = INVALID_PARAM | BUFFER_TOO_SMALL | CORRUPT_FILE | UNSUPPORTED_VER | INVALID_CRC | STATE_ROM_MISMATCH

  /** The clock's remainder is kept as the 64 bits of its representation. */
  datatype Clock = Clock(bits: Word64, mode: Word32)

  const INITIAL_CLOCK := Clock(0, 0)

  /** Zero, of either sign. */
  predicate IsZero(bits: Word64) {
    bits == 0 || bits == 0x8000_0000_0000_0000
  }

  /** Finite, at least zero and below one: the bits order like the values from zero up to one. */
  predicate IsFraction(bits: Word64) {
    bits < 0x3FF0_0000_0000_0000 || IsZero(bits)
  }

  predicate ValidClock(c: Clock) {
    IsFraction(c.bits) && (c.mode == 1 || c.mode == 2 || (c.mode == 0 && IsZero(c.bits)))
  }

  // ----- The format --------------------------------------------------------------------

  function Payload(raw: seq<Byte>, clock: Clock): seq<Byte> {
    Little(clock.bits, 8) + Little(clock.mode, 4) + raw
  }

  /** The header up to the checksum; `core` is 16 bytes and `sha` 41. */
  function Front(core: seq<Byte>, sha: seq<Byte>, len: nat): seq<Byte> {
    MAGIC + Little(VERSION, 4) + core + sha + Little(len, 8)
  }

  /** A container from its parts. */
  function Assemble(crc: Checksum, core: seq<Byte>, sha: seq<Byte>, payload: seq<Byte>): seq<Byte> {
    Front(core, sha, |payload|) + Little(crc(payload), 4) + payload
  }

  /** The writer's own core version. */
  const CORE: seq<Byte> := CORE_VERSION + Zeros(9)

  function Blob(crc: Checksum, raw: seq<Byte>, sha: seq<Byte>, clock: Clock): seq<Byte> {
    Assemble(crc, CORE, sha, Payload(raw, clock))
  }

  /** What a reader makes of some bytes. */
  datatype Parsed = Failed(code: Code) | Legacy | Wrapped(raw: seq<Byte>, clock: Clock)

  predicate StartsWithMagic(blob: seq<Byte>) {
    |blob| >= 8 && blob[..8] == MAGIC
  }

  predicate ShaAccepted(sha: seq<Byte>, current: seq<Byte>)
    requires |sha| >= 40 && |current| >= 40
  {
    sha[..40] == Zeros(40) || sha[..40] == current[..40]
  }

  function ClockOf(payload: seq<Byte>): Clock
    requires |payload| >= 12
  {
    LittleOfNumber(payload[..8]); LittleOfNumber(payload[8..12]); Powers();
    Clock(Number(payload[..8]), Number(payload[8..12]))
  }

  function Parse(crc: Checksum, blob: seq<Byte>, current: seq<Byte>): Parsed
    requires |current| == 41
  {
    if |blob| == 0 then Failed(INVALID_PARAM)
    else if |blob| < HEADER then if StartsWithMagic(blob) then Failed(CORRUPT_FILE) else Legacy
    else if !StartsWithMagic(blob) then Legacy
    else
      var version := Number(blob[8..12]);
      var metadata := if version == 2 then CLOCK else 0;
      var len := Number(blob[69..77]);
      if version != 1 && version != 2 then Failed(UNSUPPORTED_VER)
      else if len <= metadata || len != |blob| - HEADER then Failed(CORRUPT_FILE)
      else if Number(blob[77..81]) != crc(blob[81..]) then Failed(INVALID_CRC)
      else if !ShaAccepted(blob[28..68], current) then Failed(STATE_ROM_MISMATCH)
      else if version == 1 then Wrapped(blob[81..], INITIAL_CLOCK)
      else if !ValidClock(ClockOf(blob[81..])) then Failed(CORRUPT_FILE)
      else Wrapped(blob[93..], ClockOf(blob[81..]))
  }

  // ----- Writing and reading -----------------------------------------------------------

  datatype WrapResult = Refused(code: Code) | TooSmall(needed: nat) | Written(written: nat)

  /** `sha` is 40 hex digits and a NUL, or 41 zeros; a buffer of size zero may be null. */
  method Wrap(
      crc: Checksum, raw: seq<Byte>, sha: seq<Byte>, clock: Clock, out: array?<Byte>, cap: nat)
    returns (r: WrapResult)
    requires |sha| == 41 && (out != null ==> cap <= out.Length)
    modifies out
    ensures r.Refused? <==>
      (cap > 0 && out == null) || !ValidClock(clock) || raw == [] || |raw| > SIZE_MAX - HEADER - CLOCK
    ensures r.Refused? ==> r.code == INVALID_PARAM
    ensures r.TooSmall? ==> cap < r.needed && r.needed == |Blob(crc, raw, sha, clock)|
    ensures r.Written? ==> r.written <= cap && out != null && out[..r.written] == Blob(crc, raw, sha, clock)
    ensures r.Written? ==> out[r.written..] == old(out[r.written..])
    ensures !r.Written? && out != null ==> out[..] == old(out[..])
  {
    if cap > 0 && out == null {
      return Refused(INVALID_PARAM);
    }
    if !ValidClock(clock) || |raw| == 0 || |raw| > SIZE_MAX - HEADER - CLOCK {
      return Refused(INVALID_PARAM);
    }
    var total := HEADER + CLOCK + |raw|;
    if cap < total {
      return TooSmall(total);
    }
    ghost var before := out[..];
    ghost var payload := Payload(raw, clock);
    Copy(out, 0, Zeros(HEADER));
    WriteHeader(out, |raw|, sha);
    WritePayload(out, raw, clock);
    assert out[HEADER..total] == payload;
    PutLittle(out, 77, crc(out[HEADER..total]), 4);
    WritesAssemble(before, Front(CORE, sha, |payload|), Little(crc(payload), 4), payload);
    r := Written(total);
  }

  /** The writes in the order the writer makes them leave the assembled container. */
  lemma WritesAssemble(before: seq<Byte>, front: seq<Byte>, check: seq<Byte>, payload: seq<Byte>)
    requires |front| == 77 && |check| == 4 && 81 + |payload| <= |before|
    ensures var s := Splice(Filled(Splice(before, 0, Zeros(81)), front), 81, payload);
      Splice(s, 77, check) == Filled(before, front + check + payload)
  {
    var hole := Zeros(81)[77..];
    var s := Filled(Splice(before, 0, Zeros(81)), front);
    assert s == Filled(before, front + hole);
    FillMore(before, front + hole, payload);
    FillPatch(before, front, hole, payload, check);
  }

  /** MAGIC, version, core version, hash and length, over a zeroed header. */
  method WriteHeader(out: array<Byte>, rawLen: nat, sha: seq<Byte>)
    requires |sha| == 41 && HEADER <= out.Length && out[..HEADER] == Zeros(HEADER)
    modifies out
    ensures out[..] == Filled(old(out[..]), Front(CORE, sha, CLOCK + rawLen))
  {
    ghost var s := out[..];
    Copy(out, 0, MAGIC);
    PutLittle(out, 8, VERSION, 4);
    Copy(out, 12, CORE_VERSION);
    Copy(out, 28, sha);
    PutLittle(out, 69, CLOCK + rawLen, 8);
    HeaderAssembles(s, MAGIC, Little(VERSION, 4), CORE_VERSION, sha, Little(CLOCK + rawLen, 8));
  }

  lemma HeaderAssembles(
      s: seq<Byte>, magic: seq<Byte>, version: seq<Byte>, core: seq<Byte>, sha: seq<Byte>, len: seq<Byte>)
    requires |s| >= 81 && s[..81] == Zeros(81)
    requires |magic| == 8 && |version| == 4 && |core| == 7 && |sha| == 41 && |len| == 8
    ensures var s1 := Splice(Splice(Splice(s, 0, magic), 8, version), 12, core);
      Splice(Splice(s1, 28, sha), 69, len) == Filled(s, magic + version + (core + Zeros(9)) + sha + len)
  {
    assert s == Filled(s, []) && [] + magic == magic;
    FillMore(s, [], magic);
    FillMore(s, magic, version);
    FillMore(s, magic + version, core);
    FillSkip(s, magic + version + core, 28);
    assert s[19..28] == Zeros(9);
    var done := magic + version + (core + Zeros(9));
    assert magic + version + core + s[19..28] == done;
    FillMore(s, done, sha);
    FillMore(s, done + sha, len);
  }

  /** Clock and raw state, after the header. */
  method WritePayload(out: array<Byte>, raw: seq<Byte>, clock: Clock)
    requires HEADER + CLOCK + |raw| <= out.Length
    modifies out
    ensures out[..] == Splice(old(out[..]), HEADER, Payload(raw, clock))
  {
    ghost var s := out[..];
    PutLittle(out, 81, clock.bits, 8);
    PutLittle(out, 89, clock.mode, 4);
    Copy(out, HEADER + CLOCK, raw);
    PayloadAssembles(s, Little(clock.bits, 8), Little(clock.mode, 4), raw);
  }

  lemma PayloadAssembles(s: seq<Byte>, bits: seq<Byte>, mode: seq<Byte>, raw: seq<Byte>)
    requires |bits| == 8 && |mode| == 4 && 93 + |raw| <= |s|
    ensures Splice(Splice(Splice(s, 81, bits), 89, mode), 93, raw) == Splice(s, 81, bits + mode + raw)
  {
    var front := s[..81];
    assert Splice(s, 81, bits) == Filled(s, front + bits);
    FillMore(s, front + bits, mode);
    FillMore(s, front + bits + mode, raw);
    assert front + bits + mode + raw == front + (bits + mode + raw);
  }

  method Unwrap(crc: Checksum, blob: seq<Byte>, current: seq<Byte>) returns (r: Parsed)
    requires |current| == 41
    ensures r == Parse(crc, blob, current)
  {
    if |blob| == 0 {
      return Failed(INVALID_PARAM);
    }
    if |blob| < HEADER {
      if |blob| >= |MAGIC| && blob[..8] == MAGIC {
        return Failed(CORRUPT_FILE);
      }
      return Legacy;
    }
    if blob[..8] != MAGIC {
      return Legacy;
    }
    var version := GetLittle(blob, 8, 4);
    if version != 1 && version != VERSION {
      return Failed(UNSUPPORTED_VER);
    }
    var len := GetLittle(blob, 69, 8);
    var metadata := if version == 2 then CLOCK else 0;
    if len <= metadata || len != |blob| - HEADER {
      return Failed(CORRUPT_FILE);
    }
    var stored := GetLittle(blob, 77, 4);
    if stored != crc(blob[HEADER..]) {
      return Failed(INVALID_CRC);
    }
    var zero := AllZero(blob[28..68]);
    if !zero && blob[28..68] != current[..40] {
      return Failed(STATE_ROM_MISMATCH);
    }
    if version == 2 {
      var clock := ClockOf(blob[81..]);
      if !ValidClock(clock) {
        return Failed(CORRUPT_FILE);
      }
      return Wrapped(blob[93..], clock);
    }
    r := Wrapped(blob[81..], INITIAL_CLOCK);
  }
}
