/**
 The reader of state containers on every input: any bytes that show the magic are a header
 with some version, length and checksum, and the outcome is a function of these alone.
 */
module FormatLaws {
  import opened Bytes
  import opened StateContainer
  import opened ContainerLaws

  /** The bytes of a C string of ASCII characters, with its terminator. */
  function CString(text: seq<char>): seq<Byte> {
    seq(|text| + 1, k requires 0 <= k <= |text| =>
      if k < |text| && text[k] as int < 128 then text[k] as int else 0)
  }

  /** What a container that was written begins with: its magic, version 2 and the emulator's version, padded. */
  lemma WrittenHeader(crc: Checksum, raw: seq<Byte>, sha: seq<Byte>, clock: Clock)
    requires |sha| == 41
    ensures var b := Blob(crc, raw, sha, clock);
      && |b| == 93 + |raw|
      && b[..8] == CString("FLYNST1") && b[8..12] == [2, 0, 0, 0] && b[12..28] == CString("1.53.2") + Zeros(9)
  {
    Layout(crc, CORE, sha, Payload(raw, clock));
    VersionBytes();
    MagicIs();
    CoreIs();
  }

  lemma VersionBytes()
    ensures Little(VERSION, 4) == [2, 0, 0, 0]
  {
    assert Little(2, 4) == [2] + Little(0, 3) && Little(0, 3) == [0] + Little(0, 2);
    assert Little(0, 2) == [0] + Little(0, 1) && Little(0, 1) == [0] + Little(0, 0);
  }

  lemma MagicIs()
    ensures MAGIC == CString("FLYNST1")
  {
  }

  lemma CoreIs()
    ensures CORE == CString("1.53.2") + Zeros(9)
  {
    assert CORE_VERSION == CString("1.53.2");
  }

  /** A container with any version, stated length and stored checksum. */
  function Form(
      version: Word32, core: seq<Byte>, sha: seq<Byte>, len: Word64, check: Word32, payload: seq<Byte>): seq<Byte> {
    MAGIC + Little(version, 4) + core + sha + Little(len, 8) + (Little(check, 4) + payload)
  }

  /** What a reader must make of it. */
  function Verdict(
      crc: Checksum, version: Word32, sha: seq<Byte>, len: Word64, check: Word32, payload: seq<Byte>,
      current: seq<Byte>): Parsed
    requires |sha| == 41 && |current| == 41
  {
    if version != 1 && version != 2 then Failed(UNSUPPORTED_VER)
    else if len != |payload| || len == 0 || (version == 2 && len <= 12) then Failed(CORRUPT_FILE)
    else if check != crc(payload) then Failed(INVALID_CRC)
    else if !ShaAccepted(sha, current) then Failed(STATE_ROM_MISMATCH)
    else if version == 1 then Wrapped(payload, INITIAL_CLOCK)
    else if !ValidClock(ClockOf(payload)) then Failed(CORRUPT_FILE)
    else Wrapped(payload[12..], ClockOf(payload))
  }

  /** A stored hash is accepted if and only if it is blank or that of the current ROM, digit by digit. */
  lemma ShaAcceptedIff(sha: seq<Byte>, current: seq<Byte>)
    requires |sha| >= 40 && |current| >= 40
    ensures ShaAccepted(sha, current) <==>
      (forall k :: 0 <= k < 40 ==> sha[k] == 0) || (forall k :: 0 <= k < 40 ==> sha[k] == current[k])
  {
    var s, c := sha[..40], current[..40];
    assert forall k :: 0 <= k < 40 ==> s[k] == sha[k] && c[k] == current[k];
    assert (forall k :: 0 <= k < 40 ==> sha[k] == 0) <==> s == Zeros(40);
    assert (forall k :: 0 <= k < 40 ==> sha[k] == current[k]) <==> s == c;
  }

  lemma FormLayout(version: Word32, core: seq<Byte>, sha: seq<Byte>, len: Word64, check: Word32, payload: seq<Byte>)
    requires |core| == 16 && |sha| == 41
    ensures var b := Form(version, core, sha, len, check, payload);
      && |b| == 81 + |payload| && StartsWithMagic(b) && Number(b[8..12]) == version && b[28..69] == sha
      && Number(b[69..77]) == len && Number(b[77..81]) == check && b[81..] == payload
  {
    var b := Form(version, core, sha, len, check, payload);
    FrontLayout(MAGIC, Little(version, 4), core, sha, Little(len, 8), Little(check, 4) + payload);
    BackLayout(b, Little(check, 4), payload);
    Powers();
    NumberOfLittle(version, 4);
    NumberOfLittle(len, 8);
    NumberOfLittle(check, 4);
  }

  /** Reading a container of any version: the checks in their order, on the fields of the header. */
  lemma FormReads(
      crc: Checksum, version: Word32, core: seq<Byte>, sha: seq<Byte>, len: Word64, check: Word32, payload: seq<Byte>,
      current: seq<Byte>)
    requires |core| == 16 && |sha| == 41 && |current| == 41
    ensures Parse(crc, Form(version, core, sha, len, check, payload), current)
         == Verdict(crc, version, sha, len, check, payload, current)
  {
    var b := Form(version, core, sha, len, check, payload);
    FormLayout(version, core, sha, len, check, payload);
    assert b[28..68] == sha[..40];
    assert b[28..68][..40] == sha[..40];
    if |payload| > 12 {
      assert b[93..] == b[81..][12..];
    }
  }

  /** Every input of header size that shows the magic is such a container. */
  lemma EveryInputHasForm(b: seq<Byte>) returns (version: Word32, len: Word64, check: Word32)
    requires |b| >= 81 && StartsWithMagic(b)
    ensures b == Form(version, b[12..28], b[28..69], len, check, b[81..])
    ensures version == Number(b[8..12])
  {
    LittleOfNumber(b[8..12]);
    LittleOfNumber(b[69..77]);
    LittleOfNumber(b[77..81]);
    Powers();
    version, len, check := Number(b[8..12]), Number(b[69..77]), Number(b[77..81]);
    SlicesRebuild(b);
  }

  /** Bytes are taken for a legacy state if and only if there are some and they do not begin with the magic. */
  lemma LegacyIff(crc: Checksum, b: seq<Byte>, current: seq<Byte>)
    requires |current| == 41
    ensures Parse(crc, b, current) == Legacy <==> b != [] && !(|b| >= 8 && b[..8] == MAGIC)
    ensures Parse(crc, b, current) == Failed(INVALID_PARAM) <==> b == []
    ensures 8 <= |b| < 81 && b[..8] == MAGIC ==> Parse(crc, b, current) == Failed(CORRUPT_FILE)
  {
  }

  /** A version is refused as unsupported if and only if it is neither 1 nor 2. */
  lemma UnsupportedIff(crc: Checksum, b: seq<Byte>, current: seq<Byte>)
    requires |current| == 41 && |b| >= 81 && StartsWithMagic(b)
    ensures Parse(crc, b, current) == Failed(UNSUPPORTED_VER) <==> Number(b[8..12]) != 1 && Number(b[8..12]) != 2
  {
    var version, len, check := EveryInputHasForm(b);
    FormReads(crc, version, b[12..28], b[28..69], len, check, b[81..], current);
  }

  /** A version 1 container: no clock, the raw state follows the header. */
  function Old(crc: Checksum, core: seq<Byte>, sha: seq<Byte>, raw: seq<Byte>): seq<Byte>
    requires |raw| < U64
  {
    Form(1, core, sha, |raw|, crc(raw), raw)
  }

  /** Reading a version 1 container gives back its raw state and the initial clock, or the ROM mismatch. */
  lemma OldReads(crc: Checksum, core: seq<Byte>, sha: seq<Byte>, raw: seq<Byte>, current: seq<Byte>)
    requires |core| == 16 && |sha| == 41 && |current| == 41 && raw != [] && |raw| < U64
    ensures Parse(crc, Old(crc, core, sha, raw), current)
         == if ShaAccepted(sha, current) then Wrapped(raw, Clock(0, 0)) else Failed(STATE_ROM_MISMATCH)
  {
    FormReads(crc, 1, core, sha, |raw|, crc(raw), raw, current);
  }

  /** A version 1 container is accepted if and only if it is one that was written for its raw state. */
  lemma OldAcceptedIff(crc: Checksum, b: seq<Byte>, current: seq<Byte>, raw: seq<Byte>, clock: Clock)
    requires |current| == 41 && |b| >= 81 && |b| < U64 && |raw| < U64 && Number(b[8..12]) == 1
    ensures Parse(crc, b, current) == Wrapped(raw, clock) <==>
      && raw != [] && clock == Clock(0, 0) && ShaAccepted(b[28..69], current)
      && b == Old(crc, b[12..28], b[28..69], raw)
  {
    if Parse(crc, b, current) == Wrapped(raw, clock) {
      var version, len, check := EveryInputHasForm(b);
      FormReads(crc, version, b[12..28], b[28..69], len, check, b[81..], current);
    }
    if raw != [] && b == Old(crc, b[12..28], b[28..69], raw) {
      OldReads(crc, b[12..28], b[28..69], raw, current);
    }
  }
}
