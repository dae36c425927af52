/**
 The saved control layout: a live file replaced through a temporary file and a backup, in
 file-system steps each of which may fail, with a crash possible between any two of them.
 */
module Layout {
  import opened Bytes

  const MAX_BYTES: nat := 65536
  const CHUNK: nat := 8192

  datatype File = Absent | Present(bytes: seq<Byte>)

  datatype Disk = Disk(live: File, tmp: File, bak: File)

  /** Turns any text into its canonical encoding; what is not a layout becomes the recommended one. */
  datatype Codec = Codec(normalize: seq<Byte> -> seq<Byte>, recommended: seq<Byte>)

  /**
   How the primitives of one save turn out: true where one succeeds. An existence probe
   that fails answers "no". `partial` is what an unfinished write leaves behind.
   */
  datatype Faults = Faults(
    makeRoot: bool,
    partial: File,
    write: bool,
    probeLive: bool,
    removeBak: bool,
    setAside: bool,
    install: bool,
    probeBak: bool,
    restore: bool,
    removeTmp: bool)

  // ----- Loading -----------------------------------------------------------------------

  function Read(c: Codec, bytes: seq<Byte>): seq<Byte> {
    if |bytes| <= MAX_BYTES then c.normalize(bytes) else c.recommended
  }

  function Loaded(c: Codec, d: Disk): seq<Byte> {
    if d.live.Present? then Read(c, d.live.bytes)
    else if d.bak.Present? then Read(c, d.bak.bytes)
    else c.recommended
  }

  /**
   How the primitives of one load turn out: whether the probes of the two files answer
   truly, whether the chosen file opens, and how many of its bytes can be read.
   */
  datatype LoadFaults = LoadFaults(seesLive: bool, seesBak: bool, opens: bool, readable: nat)

  /** Where a load takes the layout from. */
  datatype Source = FromLive | FromBak | FromNowhere

  predicate CanRead(file: File, f: LoadFaults) {
    file.Present? && f.opens && |file.bytes| <= f.readable
  }

  function SourceOf(d: Disk, f: LoadFaults): Source {
    if d.live.Present? && f.seesLive then if CanRead(d.live, f) then FromLive else FromNowhere
    else if d.bak.Present? && f.seesBak && CanRead(d.bak, f) then FromBak
    else FromNowhere
  }

  function LoadedUnder(c: Codec, d: Disk, f: LoadFaults): seq<Byte> {
    match SourceOf(d, f)
    case FromLive => Read(c, d.live.bytes)
    case FromBak => Read(c, d.bak.bytes)
    case FromNowhere => c.recommended
  }

  /** What a load without faults would read. */
  function TrueSource(d: Disk): Source {
    if d.live.Present? then FromLive else if d.bak.Present? then FromBak else FromNowhere
  }

  /**
   Exactly when faults do not change where a load looks: the file that counts is seen and
   read, or there is none. Otherwise a load may show an older layout from the backup, or
   the recommended one, although nothing on the disk has changed.
   */
  lemma LoadLooksRightIff(c: Codec, d: Disk, f: LoadFaults)
    ensures SourceOf(d, f) == TrueSource(d) <==>
      if d.live.Present? then f.seesLive && CanRead(d.live, f)
      else d.bak.Present? ==> f.seesBak && CanRead(d.bak, f)
    ensures SourceOf(d, f) == TrueSource(d) ==> LoadedUnder(c, d, f) == Loaded(c, d)
    ensures SourceOf(d, f) == FromBak && d.live.Present? <==>
      d.live.Present? && !f.seesLive && d.bak.Present? && f.seesBak && CanRead(d.bak, f)
  {
  }

  method ReadBounded(file: seq<Byte>, opens: bool, readable: nat) returns (ok: bool, bytes: seq<Byte>)
    ensures ok <==> opens && |file| <= readable && |file| <= 65536
    ensures ok ==> bytes == file
  {
    bytes := [];
    if !opens {
      return false, bytes;
    }
    var size := if |file| < readable then |file| else readable;
    var total := 0;
    while true
      invariant total == |bytes| <= size <= |file| && total <= MAX_BYTES && bytes == file[..total]
      decreases |file| - total
    {
      var amount := if size - total < CHUNK then size - total else CHUNK;
      if amount == 0 {
        return |file| <= readable, bytes;
      }
      if total > MAX_BYTES || amount > MAX_BYTES - total {
        return false, [];
      }
      bytes := bytes + file[total..total + amount];
      total := total + amount;
    }
  }

  method Load(c: Codec, d: Disk, f: LoadFaults) returns (layout: seq<Byte>)
    ensures layout == LoadedUnder(c, d, f)
  {
    var chosen: seq<Byte>;
    if d.live.Present? && f.seesLive {
      chosen := d.live.bytes;
    } else if d.bak.Present? && f.seesBak {
      chosen := d.bak.bytes;
    } else {
      return c.recommended;
    }
    var ok, bytes := ReadBounded(chosen, f.opens, f.readable);
    return if ok then c.normalize(bytes) else c.recommended;
  }

  // ----- The disks a save passes through -----------------------------------------------

  predicate SeesLive(d: Disk, f: Faults) {
    d.live.Present? && f.probeLive
  }

  function CleanTmp(d: Disk, f: Faults): Disk {
    if f.removeTmp then d.(tmp := Absent) else d
  }

  /** After installing failed: put the backup back if the probe sees it. */
  function Restored(d: Disk, f: Faults): Disk {
    if d.bak.Present? && f.probeBak && f.restore then d.(live := d.bak, bak := Absent) else d
  }

  function InstallTrail(d: Disk, f: Faults): seq<Disk> {
    if f.install then [d.(live := d.tmp, tmp := Absent)]
    else [Restored(d, f), CleanTmp(Restored(d, f), f)]
  }

  function WithoutBak(d: Disk, f: Faults): Disk {
    if f.removeBak then d.(bak := Absent) else d
  }

  function ReplaceTrail(d: Disk, f: Faults): seq<Disk> {
    if !SeesLive(d, f) then InstallTrail(d, f)
    else
      var d1 := WithoutBak(d, f);
      if !f.setAside then [d1, CleanTmp(d1, f)]
      else [d1, d1.(bak := d1.live, live := Absent)] + InstallTrail(d1.(bak := d1.live, live := Absent), f)
  }

  function SaveTrail(d: Disk, bytes: seq<Byte>, f: Faults): seq<Disk> {
    if !f.makeRoot then []
    else
      var unfinished := d.(tmp := f.partial);
      if !f.write then [unfinished, CleanTmp(unfinished, f)]
      else [unfinished, d.(tmp := Present(bytes))] + ReplaceTrail(d.(tmp := Present(bytes)), f)
  }

  function LastOf(d: Disk, trail: seq<Disk>): Disk {
    if trail == [] then d else trail[|trail| - 1]
  }

  predicate Succeeds(d: Disk, f: Faults) {
    f.makeRoot && f.write && f.install && (SeesLive(d, f) ==> f.setAside)
  }

  // ----- The save itself ---------------------------------------------------------------

  class Files {
    var disk: Disk
    ghost var trail: seq<Disk>

    constructor (disk: Disk)
      ensures this.disk == disk && trail == []
    {
      this.disk := disk;
      trail := [];
    }

    /** One step that leaves the disk as `d`. */
    method Become(d: Disk)
      modifies this
      ensures disk == d && trail == old(trail) + [d]
    {
      disk := d;
      trail := trail + [d];
    }

    method InstallTmp(f: Faults) returns (ok: bool)
      requires disk.tmp.Present?
      modifies this
      ensures trail == old(trail) + InstallTrail(old(disk), f) && disk == LastOf(old(disk), InstallTrail(old(disk), f))
      ensures ok <==> f.install
    {
      if f.install {
        Become(disk.(live := disk.tmp, tmp := Absent));
        return true;
      }
      if disk.bak.Present? && f.probeBak && f.restore {
        Become(disk.(live := disk.bak, bak := Absent));
      } else {
        Become(disk);
      }
      Become(CleanTmp(disk, f));
      return false;
    }

    method ReplaceLive(f: Faults) returns (ok: bool)
      requires disk.tmp.Present?
      modifies this
      ensures trail == old(trail) + ReplaceTrail(old(disk), f) && disk == LastOf(old(disk), ReplaceTrail(old(disk), f))
      ensures ok <==> f.install && (SeesLive(old(disk), f) ==> f.setAside)
    {
      if disk.live.Present? && f.probeLive {
        Become(WithoutBak(disk, f));
        if !f.setAside {
          Become(CleanTmp(disk, f));
          return false;
        }
        Become(disk.(bak := disk.live, live := Absent));
      }
      ok := InstallTmp(f);
    }

    method Save(c: Codec, input: seq<Byte>, f: Faults) returns (ok: bool)
      modifies this
      ensures trail == old(trail) + SaveTrail(old(disk), c.normalize(input), f)
      ensures disk == LastOf(old(disk), SaveTrail(old(disk), c.normalize(input), f))
      ensures ok <==> Succeeds(old(disk), f)
    {
      var bytes := c.normalize(input);
      if !f.makeRoot {
        return false;
      }
      ghost var start := disk;
      Become(disk.(tmp := f.partial));
      if !f.write {
        Become(CleanTmp(disk, f));
        return false;
      }
      Become(disk.(tmp := Present(bytes)));
      assert disk == start.(tmp := Present(bytes));
      ok := ReplaceLive(f);
    }
  }

  // ----- Crash consistency -------------------------------------------------------------

  /**
   The one way a save loses the old layout: the probe of an existing live file fails,
   installing fails too, and a stale backup is then restored over the live file.
   */
  predicate RestoresStale(d: Disk, f: Faults) {
    && f.makeRoot && f.write && d.live.Present? && !f.probeLive
    && !f.install && d.bak.Present? && f.probeBak && f.restore
  }

  /** Normalising again changes nothing, and the result fits the reader's bound. */
  predicate Settled(c: Codec, input: seq<Byte>) {
    c.normalize(c.normalize(input)) == c.normalize(input) && |c.normalize(input)| <= MAX_BYTES
  }

  lemma InstallLoads(c: Codec, d: Disk, f: Faults, k: nat)
    requires d.live.Absent? && d.tmp.Present? && k < |InstallTrail(d, f)|
    ensures Loaded(c, InstallTrail(d, f)[k]) == if f.install then Read(c, d.tmp.bytes) else Loaded(c, d)
  {
  }

  lemma ReplaceLoads(c: Codec, d: Disk, f: Faults, k: nat)
    requires d.tmp.Present? && k < |ReplaceTrail(d, f)|
    requires !(d.live.Present? && !f.probeLive && !f.install && d.bak.Present? && f.probeBak && f.restore)
    ensures Loaded(c, ReplaceTrail(d, f)[k]) == Loaded(c, d) || Loaded(c, ReplaceTrail(d, f)[k]) == Read(c, d.tmp.bytes)
    ensures Loaded(c, LastOf(d, ReplaceTrail(d, f)))
         == if f.install && (SeesLive(d, f) ==> f.setAside) then Read(c, d.tmp.bytes) else Loaded(c, d)
  {
    if SeesLive(d, f) && f.setAside {
      var d1 := WithoutBak(d, f).(bak := d.live, live := Absent);
      InstallLoads(c, d1, f, |InstallTrail(d1, f)| - 1);
      if k >= 2 {
        InstallLoads(c, d1, f, k - 2);
      }
    } else if d.live.Absent? {
      InstallLoads(c, d, f, k);
      InstallLoads(c, d, f, |InstallTrail(d, f)| - 1);
    }
  }

  /**
   A crash after any step leaves the layout that was loadable before the save, or the new
   one; a save that returns true left the new one and a save that returns false the old.
   */
  lemma CrashConsistent(c: Codec, d: Disk, input: seq<Byte>, f: Faults, k: nat)
    requires Settled(c, input) && !RestoresStale(d, f)
    ensures var trail := SaveTrail(d, c.normalize(input), f);
      && (k < |trail| ==> Loaded(c, trail[k]) == Loaded(c, d) || Loaded(c, trail[k]) == c.normalize(input))
      && Loaded(c, LastOf(d, trail)) == if Succeeds(d, f) then c.normalize(input) else Loaded(c, d)
  {
    var bytes := c.normalize(input);
    if f.makeRoot && f.write {
      var d1 := d.(tmp := Present(bytes));
      var rest := ReplaceTrail(d1, f);
      var trail := SaveTrail(d, bytes, f);
      assert trail == [d.(tmp := f.partial), d1] + rest && |rest| > 0;
      ReplaceLoads(c, d1, f, |rest| - 1);
      if 2 <= k < |trail| {
        ReplaceLoads(c, d1, f, k - 2);
      }
    }
  }

  /**
   Exactly when a save breaks its promise: it ends with something other than the old layout
   (on false) or the new one (on true) if and only if it restored a stale backup that loads
   differently.
   */
  lemma PromiseBrokenIff(c: Codec, d: Disk, input: seq<Byte>, f: Faults)
    requires Settled(c, input)
    ensures var after := Loaded(c, LastOf(d, SaveTrail(d, c.normalize(input), f)));
      var promised := if Succeeds(d, f) then c.normalize(input) else Loaded(c, d);
      after != promised <==> RestoresStale(d, f) && Read(c, d.bak.bytes) != Loaded(c, d)
  {
    if !RestoresStale(d, f) {
      CrashConsistent(c, d, input, f, 0);
    }
  }

  /** Such a save exists: it returns false and the layout saved last is gone. */
  lemma StaleBackupOverwritesLive(c: Codec, stale: seq<Byte>, live: seq<Byte>, input: seq<Byte>)
    requires Read(c, stale) != Read(c, live)
    ensures var d := Disk(Present(live), Absent, Present(stale));
      exists f :: !Succeeds(d, f)
        && Loaded(c, LastOf(d, SaveTrail(d, c.normalize(input), f))) == Read(c, stale) != Loaded(c, d)
  {
    var d := Disk(Present(live), Absent, Present(stale));
    var f := Faults(true, Absent, true, false, true, true, false, true, true, true);
    var bytes := c.normalize(input);
    var d1 := d.(tmp := Present(bytes));
    assert InstallTrail(d1, f) == [Restored(d1, f), CleanTmp(Restored(d1, f), f)];
    assert SaveTrail(d, bytes, f) == [d.(tmp := Absent), d1] + InstallTrail(d1, f);
    assert !Succeeds(d, f) && Loaded(c, LastOf(d, SaveTrail(d, c.normalize(input), f))) == Read(c, stale);
  }

  // ----- What a save leaves behind -----------------------------------------------------

  /** The disk a save that ran to its end leaves. */
  function SavedDisk(d: Disk, bytes: seq<Byte>, f: Faults): Disk {
    LastOf(d, SaveTrail(d, bytes, f))
  }

  /** A successful save: the new layout is live, the live file it saw is the backup, and nothing is left over. */
  lemma SuccessLeaves(d: Disk, bytes: seq<Byte>, f: Faults)
    requires Succeeds(d, f)
    ensures SavedDisk(d, bytes, f) == Disk(Present(bytes), Absent, if SeesLive(d, f) then d.live else d.bak)
  {
  }

  /**
   A failed save: its temporary file is gone if it could be removed, and a live file is still
   in its place, unless it was set aside as the backup and could not be put back.
   */
  lemma FailureLeaves(d: Disk, bytes: seq<Byte>, f: Faults)
    requires !Succeeds(d, f) && !RestoresStale(d, f)
    ensures var after := SavedDisk(d, bytes, f);
      && (f.makeRoot && f.removeTmp ==> after.tmp.Absent?) && (!f.makeRoot ==> after == d)
      && (d.live.Present? ==> after.live == d.live || (after.live.Absent? && after.bak == d.live))
      && (d.live.Present? && after.live.Absent? <==>
            f.makeRoot && f.write && SeesLive(d, f) && f.setAside && !(f.probeBak && f.restore))
  {
  }

  /**
   What becomes of the old backup in a failed save: it is given up once a live file is seen, and
   it or the file set aside moves to the live place if it is seen and can be moved.
   */
  lemma FailureAndBackup(d: Disk, bytes: seq<Byte>, f: Faults)
    requires !Succeeds(d, f)
    ensures var after := SavedDisk(d, bytes, f);
      if !f.makeRoot || !f.write then after.live == d.live && after.bak == d.bak
      else if SeesLive(d, f) && !f.setAside then after.bak == if f.removeBak then Absent else d.bak
      else
        var aside := if SeesLive(d, f) then d.live else d.bak;
        if aside.Present? && f.probeBak && f.restore then after.live == aside && after.bak == Absent
        else after.bak == aside
  {
  }

  // ----- Sequences of saves ------------------------------------------------------------

  /** A save that ran to its end, or was cut off by a crash after step `k`. */
  datatype Stop = Finished | Crashed(k: nat)

  datatype Attempt = Attempt(input: seq<Byte>, faults: Faults, stop: Stop)

  function AfterAttempt(c: Codec, d: Disk, a: Attempt): Disk {
    var trail := SaveTrail(d, c.normalize(a.input), a.faults);
    if a.stop.Crashed? && a.stop.k < |trail| then trail[a.stop.k] else LastOf(d, trail)
  }

  function DiskAfter(c: Codec, d: Disk, attempts: seq<Attempt>): Disk {
    if attempts == [] then d
    else AfterAttempt(c, DiskAfter(c, d, attempts[..|attempts| - 1]), attempts[|attempts| - 1])
  }

  ghost predicate Orderly(c: Codec, d: Disk, attempts: seq<Attempt>) {
    forall k {:trigger attempts[k]} :: 0 <= k < |attempts| ==>
      Settled(c, attempts[k].input) && !RestoresStale(DiskAfter(c, d, attempts[..k]), attempts[k].faults)
  }

  lemma AttemptLoads(c: Codec, d: Disk, a: Attempt)
    requires Settled(c, a.input) && !RestoresStale(d, a.faults)
    ensures var after := Loaded(c, AfterAttempt(c, d, a));
      && (after == Loaded(c, d) || after == c.normalize(a.input))
      && (a.stop.Finished? ==> after == if Succeeds(d, a.faults) then c.normalize(a.input) else Loaded(c, d))
  {
    CrashConsistent(c, d, a.input, a.faults, if a.stop.Crashed? then a.stop.k else 0);
  }

  /** What came of an attempt: it returned, or was cut off. */
  datatype Outcome = ReturnedTrue | ReturnedFalse | CutOff

  function OutcomeOf(d: Disk, a: Attempt): Outcome {
    if a.stop.Crashed? then CutOff else if Succeeds(d, a.faults) then ReturnedTrue else ReturnedFalse
  }

  /** How one attempt moves the loadable layout. */
  predicate Moves(before: seq<Byte>, after: seq<Byte>, saved: seq<Byte>, outcome: Outcome) {
    match outcome
    case ReturnedTrue => after == saved
    case ReturnedFalse => after == before
    case CutOff => after == before || after == saved
  }

  /** The layouts loadable before, between and after the attempts. */
  ghost predicate IsTale(shown: seq<seq<Byte>>, saved: seq<seq<Byte>>, outcomes: seq<Outcome>) {
    && |shown| == |saved| + 1 == |outcomes| + 1
    && forall k {:trigger outcomes[k]} :: 0 <= k < |outcomes| ==> Moves(shown[k], shown[k + 1], saved[k], outcomes[k])
  }

  /** After `j`, nothing returned true. */
  ghost predicate NoneAfter(outcomes: seq<Outcome>, j: int) {
    forall k {:trigger outcomes[k]} :: 0 <= k < |outcomes| && j < k ==> outcomes[k] != ReturnedTrue
  }

  /** A layout whose own save was cut off after `j`. */
  ghost predicate WasCutOff(saved: seq<seq<Byte>>, outcomes: seq<Outcome>, j: int, v: seq<Byte>)
    requires |saved| == |outcomes|
  {
    exists k :: 0 <= k < |outcomes| && j < k && outcomes[k] == CutOff && saved[k] == v
  }

  lemma {:induction false} TaleKeeps(
      shown: seq<seq<Byte>>, saved: seq<seq<Byte>>, outcomes: seq<Outcome>, j: int, n: nat)
    requires IsTale(shown, saved, outcomes) && -1 <= j < n <= |outcomes| && NoneAfter(outcomes, j)
    requires j >= 0 ==> outcomes[j] == ReturnedTrue
    ensures shown[n] == (if j < 0 then shown[0] else saved[j]) || WasCutOff(saved, outcomes, j, shown[n])
  {
    if n > 0 {
      assert Moves(shown[n - 1], shown[n], saved[n - 1], outcomes[n - 1]);
      if j < n - 1 {
        TaleKeeps(shown, saved, outcomes, j, n - 1);
      }
    }
  }

  /** The tale of a sequence of attempts. */
  function Shown(c: Codec, d: Disk, attempts: seq<Attempt>): seq<seq<Byte>> {
    seq(|attempts| + 1, k requires 0 <= k <= |attempts| => Loaded(c, DiskAfter(c, d, attempts[..k])))
  }

  function SavedOf(c: Codec, attempts: seq<Attempt>): seq<seq<Byte>> {
    seq(|attempts|, k requires 0 <= k < |attempts| => c.normalize(attempts[k].input))
  }

  function OutcomesOf(c: Codec, d: Disk, attempts: seq<Attempt>): seq<Outcome> {
    seq(|attempts|, k requires 0 <= k < |attempts| => OutcomeOf(DiskAfter(c, d, attempts[..k]), attempts[k]))
  }

  lemma AttemptMoves(c: Codec, d: Disk, attempts: seq<Attempt>, k: nat)
    requires Orderly(c, d, attempts) && k < |attempts|
    ensures Moves(Loaded(c, DiskAfter(c, d, attempts[..k])), Loaded(c, DiskAfter(c, d, attempts[..k + 1])),
                  c.normalize(attempts[k].input), OutcomeOf(DiskAfter(c, d, attempts[..k]), attempts[k]))
  {
    assert attempts[..k + 1][..k] == attempts[..k];
    AttemptLoads(c, DiskAfter(c, d, attempts[..k]), attempts[k]);
  }

  lemma AttemptsTell(c: Codec, d: Disk, attempts: seq<Attempt>)
    requires Orderly(c, d, attempts)
    ensures IsTale(Shown(c, d, attempts), SavedOf(c, attempts), OutcomesOf(c, d, attempts))
  {
    forall k | 0 <= k < |attempts|
      ensures Moves(Shown(c, d, attempts)[k], Shown(c, d, attempts)[k + 1],
                    SavedOf(c, attempts)[k], OutcomesOf(c, d, attempts)[k])
    {
      AttemptMoves(c, d, attempts, k);
    }
  }

  /**
   Over every sequence of saves and crashes: after a save that returned true (or from the
   start, with j = -1), as long as no later save returned true, load gives that layout, or one
   whose own save was cut off by a crash. Saves that returned false never show.
   */
  lemma LastGoodSurvives(c: Codec, d: Disk, attempts: seq<Attempt>, j: int)
    requires Orderly(c, d, attempts) && -1 <= j < |attempts| && NoneAfter(OutcomesOf(c, d, attempts), j)
    requires j >= 0 ==> OutcomesOf(c, d, attempts)[j] == ReturnedTrue
    ensures var after := Loaded(c, DiskAfter(c, d, attempts));
      || after == (if j < 0 then Loaded(c, d) else c.normalize(attempts[j].input))
      || WasCutOff(SavedOf(c, attempts), OutcomesOf(c, d, attempts), j, after)
  {
    AttemptsTell(c, d, attempts);
    assert attempts[..|attempts|] == attempts && attempts[..0] == [];
    TaleKeeps(Shown(c, d, attempts), SavedOf(c, attempts), OutcomesOf(c, d, attempts), j, |attempts|);
  }
}
