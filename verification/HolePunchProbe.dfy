/**
 The two-stage hole-punch probe (sdk/serve.js, runProbe and runWideProbe): does the file system under
 the store really free bytes when a hole is punched, also when the hole is longer than 2^32 bytes?

 The storage is arbitrary. `Env` says, for every call the probe makes, what the store answers and what it
 does to the scratch file meanwhile: allocation may lag behind writes and truncates, any call may reject,
 the store may be closing, and a punch frees whatever it frees. The verdict is a function of that. A stat that
 answers reads the allocation as it is, and blocks above the line, once charged, go only by a punch or a truncate.
 */
module HolePunchProbe {
  const KIB := 1024
  const PROBE_BYTES := 512 * KIB
  const PROBE_HOLE_BYTES := 256 * KIB
  const GIB := 1024 * 1024 * 1024
  const PROBE_WIDE_HOLE := 5 * GIB
  const FOUR_GIB := 0x1_0000_0000

  /**
   Bytes allocated to the scratch file below and above the 4 GiB line, and bytes written (below, above)
   that are not charged to the inode yet.
   */
  datatype Disk = Disk(low: nat, high: nat, lowPend: nat, highPend: nat)

  /** What happens on its own before a call is served: late charges, late releases of truncated blocks. */
  datatype Drift = Drift(chargeLow: nat, chargeHigh: nat, release: nat)

  datatype Stat = StatRejects | NoBlocks | Blocks

  datatype Poll = Poll(drift: Drift, stat: Stat)

  /** A punch rejects, or frees some of what is allocated; `reach` is how far from its offset it really went. */
  datatype Punch = PunchRejects | Frees(reach: nat, low: nat, high: nat)

  /** One settle loop: the stats it reads, the last one at the deadline. */
  type Polls = p: seq<Poll> | p != [] witness [Poll(Drift(0, 0, 0), Blocks)]

  datatype Env = Env(
    allocThrows: bool, closing: bool, writeRejects: bool, closingAfterWrite: bool,
    settle: Polls, punch: Punch, after: Poll,
    wide: WideEnv)

  datatype WideEnv = WideEnv(
    allocThrows: bool, closing: bool, truncateRejects: bool, extendRejects: bool,
    drain: Polls, closingBeforeWrite: bool, writeRejects: bool, closingAfterWrite: bool,
    charge: Polls, punch: Punch, after: Poll)

  datatype Reason =
    | AllocThrew | StoreClosing | WriteThrew | StatThrew | StatHasNoBlocks | NotSettled
    | PunchThrew | StillGrowing | Measured
    | WideAllocThrew | WideStoreClosing | WideTruncateThrew | WideStatThrew | WideBaselineNotSettled
    | WideWriteThrew | WideNotSettled | WidePunchThrew | WideStillGrowing | WideMeasured

  /** ok: a verdict; otherwise inconclusive. */
  datatype Verdict = Verdict(ok: bool, canPunch: bool, reason: Reason)

  function Inconclusive(r: Reason): Verdict { Verdict(false, false, r) }

  function CannotPunch(r: Reason): Verdict { Verdict(true, false, r) }

  function Min(a: nat, b: nat): nat { if a <= b then a else b }

  function Allocated(d: Disk): nat { d.low + d.high }

  function Drifted(d: Disk, x: Drift): Disk {
    var cl, ch := Min(x.chargeLow, d.lowPend), Min(x.chargeHigh, d.highPend);
    Disk(d.low - Min(x.release, d.low) + cl, d.high + ch, d.lowPend - cl, d.highPend - ch)
  }

  function Punched(d: Disk, p: Punch): Disk
    requires p.Frees?
  {
    d.(low := d.low - Min(p.low, d.low), high := d.high - Min(p.high, d.high))
  }

  // ---- a settle loop ---------------------------------------------------------------------------

  datatype Settled = Stopped(reason: Reason) | Ready(disk: Disk)

  /** Poll until `want` holds of the allocation; the failures name the loop they belong to. */
  function Settle(d: Disk, polls: Polls, up: bool, threshold: nat, threw: Reason, unsettled: Reason): (r: Settled)
    decreases |polls|
  {
    var now := Drifted(d, polls[0].drift);
    match polls[0].stat
    case StatRejects => Stopped(threw)
    case NoBlocks => Stopped(StatHasNoBlocks)
    case Blocks =>
      if Reached(now, up, threshold) then Ready(now)
      else if |polls| == 1 then Stopped(unsettled)
      else Settle(now, polls[1..], up, threshold, threw, unsettled)
  }

  /** The charge loops wait for the allocation to reach the threshold, the drain loop to fall below it. */
  predicate Reached(d: Disk, up: bool, threshold: nat) {
    if up then Allocated(d) >= threshold else Allocated(d) < threshold
  }

  method SettleLoop(d: Disk, polls: Polls, up: bool, threshold: nat, threw: Reason, unsettled: Reason)
      returns (r: Settled)
    ensures r == Settle(d, polls, up, threshold, threw, unsettled)
  {
    var disk, i := d, 0;
    while true
      invariant 0 <= i < |polls|
      invariant Settle(d, polls, up, threshold, threw, unsettled) ==
                Settle(disk, polls[i..], up, threshold, threw, unsettled)
      decreases |polls| - i
    {
      disk := Drifted(disk, polls[i].drift);
      if polls[i].stat.StatRejects? { return Stopped(threw); }
      if polls[i].stat.NoBlocks? { return Stopped(StatHasNoBlocks); }
      if Reached(disk, up, threshold) { return Ready(disk); }
      if i == |polls| - 1 { return Stopped(unsettled); }
      assert polls[i..][1..] == polls[i + 1..];
      i := i + 1;
    }
  }

  // ---- the wide stage --------------------------------------------------------------------------

  /** Truncated to nothing: pending writes are gone, charged blocks may linger until they are released. */
  function Truncated(d: Disk): Disk { d.(lowPend := 0, highPend := 0) }

  function Drain(d: Disk, w: WideEnv): Settled {
    Settle(Truncated(d), w.drain, false, PROBE_HOLE_BYTES / 2, WideStatThrew, WideBaselineNotSettled)
  }

  function Written(d: Disk): Disk { d.(highPend := d.highPend + PROBE_HOLE_BYTES) }

  /** Up to the wide punch: the disk the punch will meet, or why the probe stopped. */
  function WideReady(d: Disk, e: WideEnv): Settled {
    if e.allocThrows then Stopped(WideAllocThrew)
    else if e.closing then Stopped(WideStoreClosing)
    else if e.truncateRejects || e.extendRejects then Stopped(WideTruncateThrew)
    else
      match Drain(d, e)
      case Stopped(r) => Stopped(r)
      case Ready(low) =>
        if e.closingBeforeWrite || (e.closingAfterWrite && !e.writeRejects) then Stopped(WideStoreClosing)
        else if e.writeRejects then Stopped(WideWriteThrew)
        else Settle(Written(low), e.charge, true, PROBE_HOLE_BYTES, WideStatThrew, WideNotSettled)
  }

  function Judge(before: Disk, punch: Punch, after: Poll, rejects: Reason, threw: Reason, growing: Reason,
                 measured: Reason): Verdict {
    if punch.PunchRejects? then CannotPunch(rejects)
    else
      var d := Drifted(Punched(before, punch), after.drift);
      match after.stat
      case StatRejects => Inconclusive(threw)
      case NoBlocks => Inconclusive(StatHasNoBlocks)
      case Blocks =>
        if Allocated(d) > Allocated(before) then Inconclusive(growing)
        else Verdict(true, Allocated(before) - Allocated(d) >= PROBE_HOLE_BYTES / 2, measured)
  }

  function WideProbe(d: Disk, e: WideEnv): Verdict {
    match WideReady(d, e)
    case Stopped(r) => Inconclusive(r)
    case Ready(before) => Judge(before, e.punch, e.after, WidePunchThrew, WideStatThrew, WideStillGrowing, WideMeasured)
  }

  // ---- the small stage, and the probe ----------------------------------------------------------

  const EMPTY := Disk(0, 0, 0, 0)

  function SmallReady(e: Env): Settled {
    if e.allocThrows then Stopped(AllocThrew)
    else if e.closing then Stopped(StoreClosing)
    else if e.writeRejects then Stopped(WriteThrew)
    else if e.closingAfterWrite then Stopped(StoreClosing)
    else Settle(EMPTY.(lowPend := PROBE_BYTES), e.settle, true, PROBE_BYTES, StatThrew, NotSettled)
  }

  function AfterSmall(before: Disk, e: Env): Disk
    requires e.punch.Frees?
  {
    Drifted(Punched(before, e.punch), e.after.drift)
  }

  /** A small punch that worked is necessary and not sufficient: the wide stage has the last word. */
  function Conclude(small: Verdict, before: Disk, e: Env): Verdict {
    if !small.canPunch || e.punch.PunchRejects? then small
    else
      var wide := WideProbe(AfterSmall(before, e), e.wide);
      if wide.ok && wide.canPunch then Verdict(true, true, Measured) else wide
  }

  function Probe(e: Env): Verdict {
    match SmallReady(e)
    case Stopped(r) => Inconclusive(r)
    case Ready(before) =>
      Conclude(Judge(before, e.punch, e.after, PunchThrew, StatThrew, StillGrowing, Measured), before, e)
  }

  /** runWideProbe: individually guarded steps, of which only the punch's own rejection is a verdict. */
  method RunWideProbe(d: Disk, e: WideEnv) returns (v: Verdict)
    ensures v == WideProbe(d, e)
  {
    if e.allocThrows { return Inconclusive(WideAllocThrew); }
    if e.closing { return Inconclusive(WideStoreClosing); }
    if e.truncateRejects { return Inconclusive(WideTruncateThrew); }
    if e.extendRejects { return Inconclusive(WideTruncateThrew); }
    var baseline :=
      SettleLoop(Truncated(d), e.drain, false, PROBE_HOLE_BYTES / 2, WideStatThrew, WideBaselineNotSettled);
    if baseline.Stopped? { return Inconclusive(baseline.reason); }
    if e.closingBeforeWrite { return Inconclusive(WideStoreClosing); }
    if e.writeRejects { return Inconclusive(WideWriteThrew); }
    if e.closingAfterWrite { return Inconclusive(WideStoreClosing); }
    var disk := Written(baseline.disk);
    var charged := SettleLoop(disk, e.charge, true, PROBE_HOLE_BYTES, WideStatThrew, WideNotSettled);
    if charged.Stopped? { return Inconclusive(charged.reason); }
    var wideBefore := Allocated(charged.disk);
    if e.punch.PunchRejects? { return CannotPunch(WidePunchThrew); }
    disk := Drifted(Punched(charged.disk, e.punch), e.after.drift);
    if e.after.stat.StatRejects? { return Inconclusive(WideStatThrew); }
    if e.after.stat.NoBlocks? { return Inconclusive(StatHasNoBlocks); }
    var wideAfter := Allocated(disk);
    if wideAfter > wideBefore { return Inconclusive(WideStillGrowing); }
    return Verdict(true, wideBefore - wideAfter >= PROBE_HOLE_BYTES / 2, WideMeasured);
  }

  /** runProbe: the small punch, and behind it the wide one. */
  method RunProbe(e: Env) returns (v: Verdict)
    ensures v == Probe(e)
  {
    if e.allocThrows { return Inconclusive(AllocThrew); }
    if e.closing { return Inconclusive(StoreClosing); }
    if e.writeRejects { return Inconclusive(WriteThrew); }
    if e.closingAfterWrite { return Inconclusive(StoreClosing); }
    var settled := SettleLoop(EMPTY.(lowPend := PROBE_BYTES), e.settle, true, PROBE_BYTES, StatThrew, NotSettled);
    if settled.Stopped? { return Inconclusive(settled.reason); }
    var before := Allocated(settled.disk);
    if e.punch.PunchRejects? { return CannotPunch(PunchThrew); }
    var disk := Drifted(Punched(settled.disk, e.punch), e.after.drift);
    if e.after.stat.StatRejects? { return Inconclusive(StatThrew); }
    if e.after.stat.NoBlocks? { return Inconclusive(StatHasNoBlocks); }
    var after := Allocated(disk);
    if after > before { return Inconclusive(StillGrowing); }
    if before - after < PROBE_HOLE_BYTES / 2 { return CannotPunch(Measured); }
    var wide := RunWideProbe(disk, e.wide);
    if wide.ok && wide.canPunch { return Verdict(true, true, Measured); }
    return wide;
  }

  // ---- what a verdict is worth -----------------------------------------------------------------

  /** Bytes above the 4 GiB line that the wide punch freed. */
  function HighFreed(e: Env): nat {
    match SmallReady(e)
    case Stopped(_) => 0
    case Ready(before) =>
      if e.punch.PunchRejects? then 0
      else
        match WideReady(AfterSmall(before, e), e.wide)
        case Stopped(_) => 0
        case Ready(d) => if e.wide.punch.Frees? then Min(e.wide.punch.high, d.high) else 0
  }

  /** Nothing is written below the line in the wide stage, so what is charged there can only be released. */
  lemma {:induction false} SettleKeepsLow(d: Disk, polls: Polls, up: bool, threshold: nat, threw: Reason,
                                          unsettled: Reason)
    requires d.lowPend == 0
    ensures
      var r := Settle(d, polls, up, threshold, threw, unsettled);
      r.Ready? ==> r.disk.lowPend == 0 && r.disk.low <= d.low && Reached(r.disk, up, threshold)
    decreases |polls|
  {
    var now := Drifted(d, polls[0].drift);
    if polls[0].stat.Blocks? && !Reached(now, up, threshold) && |polls| > 1 {
      SettleKeepsLow(now, polls[1..], up, threshold, threw, unsettled);
    }
  }

  lemma WideReadyIsLow(d: Disk, e: WideEnv)
    ensures WideReady(d, e).Ready? ==> WideReady(d, e).disk.low < PROBE_HOLE_BYTES / 2
  {
    SettleKeepsLow(Truncated(d), e.drain, false, PROBE_HOLE_BYTES / 2, WideStatThrew, WideBaselineNotSettled);
    if Drain(d, e).Ready? {
      SettleKeepsLow(Written(Drain(d, e).disk), e.charge, true, PROBE_HOLE_BYTES, WideStatThrew, WideNotSettled);
    }
  }

  /** Soundness: whatever the store does, a certified one freed bytes above the 4 GiB line. */
  lemma CertifiedFreesAboveTheLine(e: Env)
    requires Probe(e).canPunch
    ensures Probe(e).ok && HighFreed(e) > 0
  {
    var before := SmallReady(e).disk;
    WideReadyIsLow(AfterSmall(before, e), e.wide);
  }

  /** A punch acts between its offset and its reach: one that stays below the line frees nothing above it. */
  predicate Local(offset: nat, p: Punch) {
    p.Frees? && offset + p.reach <= FOUR_GIB ==> p.high == 0
  }

  /** The lengths are truncated to 32 bits somewhere below the store. */
  predicate TruncatesLengths(length: nat, p: Punch) {
    p.Frees? ==> p.reach <= length % FOUR_GIB
  }

  predicate FreesNothing(p: Punch) { p.Frees? ==> p.low == 0 && p.high == 0 }

  /** A store that truncates lengths to 32 bits, or frees nothing, or rejects punches, is never certified. */
  lemma BrokenPunchNeverCertified(e: Env)
    requires Local(0, e.wide.punch)
    requires TruncatesLengths(PROBE_WIDE_HOLE, e.wide.punch) || FreesNothing(e.wide.punch)
    ensures !Probe(e).canPunch
  {
    if Probe(e).canPunch { CertifiedFreesAboveTheLine(e); }
  }

  /** Both stats around a punch were read, and nothing else was still charging blocks. */
  predicate MeasuredAround(before: Disk, punch: Punch, after: Poll) {
    punch.Frees? && after.stat.Blocks? && Allocated(Drifted(Punched(before, punch), after.drift)) <= Allocated(before)
  }

  predicate Shortfall(before: Disk, punch: Punch, after: Poll)
    requires punch.Frees?
  {
    Allocated(before) - Allocated(Drifted(Punched(before, punch), after.drift)) < PROBE_HOLE_BYTES / 2
  }

  predicate PunchAnswered(before: Disk, punch: Punch, after: Poll) {
    punch.PunchRejects? || MeasuredAround(before, punch, after)
  }

  /**
   A verdict comes from a punch and from nothing else: the probe gives one exactly when the small punch
   rejected or fell measurably short, or, that punch having worked, when the wide one was answered by a
   rejection or by two stats; and it says "can punch" exactly when neither fell short.
   */
  lemma VerdictsComeFromPunches(e: Env)
    ensures
      var small, v := SmallReady(e), Probe(e);
      && (v.canPunch ==> v.ok)
      && (v.ok <==>
            && small.Ready? && PunchAnswered(small.disk, e.punch, e.after)
            && (e.punch.Frees? && !Shortfall(small.disk, e.punch, e.after) ==>
                  var wide := WideReady(AfterSmall(small.disk, e), e.wide);
                  wide.Ready? && PunchAnswered(wide.disk, e.wide.punch, e.wide.after)))
      && (v.canPunch <==>
            && v.ok && e.punch.Frees? && !Shortfall(small.disk, e.punch, e.after) && e.wide.punch.Frees?
            && !Shortfall(WideReady(AfterSmall(small.disk, e), e.wide).disk, e.wide.punch, e.wide.after))
  {}

  // ---- a verdict, on what happened alone -------------------------------------------------------

  /** The scratch file after the first n polls. */
  function DiskAt(d: Disk, polls: seq<Poll>, n: nat): Disk
    requires n <= |polls|
  {
    if n == 0 then d else Drifted(DiskAt(d, polls, n - 1), polls[n - 1].drift)
  }

  predicate AtLeast(d: Disk, bytes: nat) { d.low + d.high >= bytes }

  predicate Reads(polls: seq<Poll>, k: nat) { k < |polls| && polls[k].stat.Blocks? }

  /** The k-th stat finds the allocation on the side of the threshold that is waited for. */
  predicate OnSide(d: Disk, polls: seq<Poll>, up: bool, threshold: nat, k: nat) {
    k < |polls| && AtLeast(DiskAt(d, polls, k + 1), threshold) == up
  }

  /** The n-th stat is the first to, and none failed before. */
  predicate SettlesAt(d: Disk, polls: seq<Poll>, up: bool, threshold: nat, n: nat) {
    && (forall k: nat :: k <= n ==> Reads(polls, k))
    && OnSide(d, polls, up, threshold, n)
    && forall k: nat :: k < n ==> !OnSide(d, polls, up, threshold, k)
  }

  lemma {:induction false} DiskAtShifts(d: Disk, polls: seq<Poll>, n: nat)
    requires n < |polls|
    ensures DiskAt(d, polls, n + 1) == DiskAt(Drifted(d, polls[0].drift), polls[1..], n)
  {
    if n == 0 {
    } else {
      DiskAtShifts(d, polls, n - 1);
    }
  }

  lemma OnSideShifts(d: Disk, polls: Polls, up: bool, threshold: nat, k: nat)
    ensures OnSide(d, polls, up, threshold, k + 1) == OnSide(Drifted(d, polls[0].drift), polls[1..], up, threshold, k)
    ensures Reads(polls, k + 1) == Reads(polls[1..], k)
  {
    if k + 1 < |polls| { DiskAtShifts(d, polls, k + 1); }
  }

  lemma SettlesAtShifts(d: Disk, polls: Polls, up: bool, threshold: nat, n: nat)
    requires Reads(polls, 0) && !OnSide(d, polls, up, threshold, 0)
    ensures
      SettlesAt(d, polls, up, threshold, n + 1) <==>
      SettlesAt(Drifted(d, polls[0].drift), polls[1..], up, threshold, n)
  {
    var now, rest := Drifted(d, polls[0].drift), polls[1..];
    forall k: nat
      ensures OnSide(d, polls, up, threshold, k + 1) == OnSide(now, rest, up, threshold, k)
      ensures Reads(polls, k + 1) == Reads(rest, k)
    {
      OnSideShifts(d, polls, up, threshold, k);
    }
    assert forall k: nat :: k > 0 ==> OnSide(d, polls, up, threshold, k) == OnSide(now, rest, up, threshold, k - 1);
    assert forall k: nat :: k > 0 ==> Reads(polls, k) == Reads(rest, k - 1);
    assert forall k: nat :: OnSide(now, rest, up, threshold, k) == OnSide(d, polls, up, threshold, k + 1);
    assert forall k: nat :: Reads(rest, k) == Reads(polls, k + 1);
  }

  lemma SettleGoesOn(d: Disk, polls: Polls, up: bool, threshold: nat, threw: Reason, unsettled: Reason)
    requires Reads(polls, 0) && Reads(polls, 1) && !OnSide(d, polls, up, threshold, 0)
    ensures Settle(d, polls, up, threshold, threw, unsettled)
      == Settle(Drifted(d, polls[0].drift), polls[1..], up, threshold, threw, unsettled)
  {
    assert DiskAt(d, polls, 1) == Drifted(d, polls[0].drift);
  }

  lemma SettleEnds(d: Disk, polls: Polls, up: bool, threshold: nat, threw: Reason, unsettled: Reason)
    requires Reads(polls, 0) && OnSide(d, polls, up, threshold, 0)
    ensures Settle(d, polls, up, threshold, threw, unsettled) == Ready(DiskAt(d, polls, 1))
  {
    assert DiskAt(d, polls, 1) == Drifted(d, polls[0].drift);
  }

  /** A loop is ready with the disk of the stat that settles it; and, conversely, only when one does. */
  lemma {:induction false} SettledIsReady(d: Disk, polls: Polls, up: bool, threshold: nat, threw: Reason,
                                          unsettled: Reason, n: nat)
    requires SettlesAt(d, polls, up, threshold, n)
    ensures Settle(d, polls, up, threshold, threw, unsettled) == Ready(DiskAt(d, polls, n + 1))
    decreases |polls|
  {
    assert Reads(polls, 0);
    if n == 0 {
      SettleEnds(d, polls, up, threshold, threw, unsettled);
    } else {
      assert !OnSide(d, polls, up, threshold, 0) && Reads(polls, 1);
      SettleGoesOn(d, polls, up, threshold, threw, unsettled);
      SettlesAtShifts(d, polls, up, threshold, n - 1);
      SettledIsReady(Drifted(d, polls[0].drift), polls[1..], up, threshold, threw, unsettled, n - 1);
      DiskAtShifts(d, polls, n);
    }
  }

  lemma {:induction false} ReadySettles(d: Disk, polls: Polls, up: bool, threshold: nat, threw: Reason,
                                        unsettled: Reason)
    requires Settle(d, polls, up, threshold, threw, unsettled).Ready?
    ensures exists n: nat :: SettlesAt(d, polls, up, threshold, n)
    decreases |polls|
  {
    assert Reads(polls, 0) && DiskAt(d, polls, 1) == Drifted(d, polls[0].drift);
    if OnSide(d, polls, up, threshold, 0) {
      assert SettlesAt(d, polls, up, threshold, 0);
    } else {
      ReadySettles(Drifted(d, polls[0].drift), polls[1..], up, threshold, threw, unsettled);
      var n: nat :| SettlesAt(Drifted(d, polls[0].drift), polls[1..], up, threshold, n);
      SettlesAtShifts(d, polls, up, threshold, n);
    }
  }

  /** Nothing failed and nothing closed before the small punch, which the n-th stat let go ahead on this disk. */
  predicate SmallGoesAhead(e: Env, n: nat, before: Disk) {
    && !e.allocThrows && !e.closing && !e.writeRejects && !e.closingAfterWrite
    && SettlesAt(Disk(0, 0, PROBE_BYTES, 0), e.settle, true, PROBE_BYTES, n)
    && before == DiskAt(Disk(0, 0, PROBE_BYTES, 0), e.settle, n + 1)
  }

  /** Likewise before the wide punch: the file drained, and the one block above the line charged. */
  predicate WideGoesAhead(d: Disk, w: WideEnv, a: nat, b: nat, before: Disk) {
    && !w.allocThrows && !w.closing && !w.truncateRejects && !w.extendRejects
    && !w.closingBeforeWrite && !w.writeRejects && !w.closingAfterWrite
    && var empty := Disk(d.low, d.high, 0, 0);
    && SettlesAt(empty, w.drain, false, PROBE_HOLE_BYTES / 2, a)
    && var drained := DiskAt(empty, w.drain, a + 1);
    && var written := drained.(highPend := drained.highPend + PROBE_HOLE_BYTES);
    && SettlesAt(written, w.charge, true, PROBE_HOLE_BYTES, b)
    && before == DiskAt(written, w.charge, b + 1)
  }

  lemma SmallReadyIff(e: Env)
    ensures forall n: nat, before :: SmallGoesAhead(e, n, before) ==> SmallReady(e) == Ready(before)
    ensures SmallReady(e).Ready? ==> exists n: nat :: SmallGoesAhead(e, n, SmallReady(e).disk)
  {
    var start := Disk(0, 0, PROBE_BYTES, 0);
    forall n: nat, before | SmallGoesAhead(e, n, before) ensures SmallReady(e) == Ready(before) {
      SettledIsReady(start, e.settle, true, PROBE_BYTES, StatThrew, NotSettled, n);
    }
    if SmallReady(e).Ready? {
      ReadySettles(start, e.settle, true, PROBE_BYTES, StatThrew, NotSettled);
      var n: nat :| SettlesAt(start, e.settle, true, PROBE_BYTES, n);
      SettledIsReady(start, e.settle, true, PROBE_BYTES, StatThrew, NotSettled, n);
      assert SmallGoesAhead(e, n, SmallReady(e).disk);
    }
  }

  lemma WideReadyIff(d: Disk, w: WideEnv)
    ensures forall a: nat, b: nat, before :: WideGoesAhead(d, w, a, b, before) ==> WideReady(d, w) == Ready(before)
    ensures WideReady(d, w).Ready? ==> exists a: nat, b: nat :: WideGoesAhead(d, w, a, b, WideReady(d, w).disk)
  {
    var empty := Disk(d.low, d.high, 0, 0);
    forall a: nat, b: nat, before | WideGoesAhead(d, w, a, b, before) ensures WideReady(d, w) == Ready(before) {
      SettledIsReady(empty, w.drain, false, PROBE_HOLE_BYTES / 2, WideStatThrew, WideBaselineNotSettled, a);
      var drained := DiskAt(empty, w.drain, a + 1);
      var written := drained.(highPend := drained.highPend + PROBE_HOLE_BYTES);
      SettledIsReady(written, w.charge, true, PROBE_HOLE_BYTES, WideStatThrew, WideNotSettled, b);
    }
    if WideReady(d, w).Ready? {
      ReadySettles(empty, w.drain, false, PROBE_HOLE_BYTES / 2, WideStatThrew, WideBaselineNotSettled);
      var a: nat :| SettlesAt(empty, w.drain, false, PROBE_HOLE_BYTES / 2, a);
      SettledIsReady(empty, w.drain, false, PROBE_HOLE_BYTES / 2, WideStatThrew, WideBaselineNotSettled, a);
      var drained := DiskAt(empty, w.drain, a + 1);
      var written := drained.(highPend := drained.highPend + PROBE_HOLE_BYTES);
      ReadySettles(written, w.charge, true, PROBE_HOLE_BYTES, WideStatThrew, WideNotSettled);
      var b: nat :| SettlesAt(written, w.charge, true, PROBE_HOLE_BYTES, b);
      SettledIsReady(written, w.charge, true, PROBE_HOLE_BYTES, WideStatThrew, WideNotSettled, b);
      assert WideGoesAhead(d, w, a, b, WideReady(d, w).disk);
    }
  }

  /** A stage's punch was not rejected and freed at least half of what it should. */
  predicate Works(before: Disk, punch: Punch, after: Poll) { punch.Frees? && !Shortfall(before, punch, after) }

  /** The wide stage gives a verdict: `works`, or not. */
  ghost predicate WideSays(d: Disk, w: WideEnv, works: bool) {
    exists a: nat, b: nat, before ::
      WideGoesAhead(d, w, a, b, before) && PunchAnswered(before, w.punch, w.after)
      && Works(before, w.punch, w.after) == works
  }

  /**
   The verdict on what happened alone. "Can punch" is answered exactly when both punches went ahead, were measured and
   worked; "cannot" exactly when the first to go ahead and not work was rejected or measured. Anything that
   throws, closes or does not settle before it leaves no verdict.
   */
  lemma VerdictIff(e: Env)
    ensures
      Probe(e).ok && Probe(e).canPunch <==>
        exists n: nat, before ::
          && SmallGoesAhead(e, n, before) && MeasuredAround(before, e.punch, e.after) && Works(before, e.punch, e.after)
          && WideSays(Drifted(Punched(before, e.punch), e.after.drift), e.wide, true)
    ensures
      Probe(e).ok && !Probe(e).canPunch <==>
        exists n: nat, before ::
          && SmallGoesAhead(e, n, before) && PunchAnswered(before, e.punch, e.after)
          && (Works(before, e.punch, e.after) ==>
                WideSays(Drifted(Punched(before, e.punch), e.after.drift), e.wide, false))
  {
    VerdictsComeFromPunches(e);
    SmallReadyIff(e);
    if SmallReady(e).Ready? {
      var before := SmallReady(e).disk;
      var n: nat :| SmallGoesAhead(e, n, before);
      if e.punch.Frees? { WideReadyIff(AfterSmall(before, e), e.wide); }
      VerdictFrom(e, before);
    }
  }

  lemma VerdictFrom(e: Env, before: Disk)
    requires SmallReady(e) == Ready(before)
    requires e.punch.Frees? ==>
               var d := AfterSmall(before, e);
               && (forall a: nat, b: nat, w :: WideGoesAhead(d, e.wide, a, b, w) ==> WideReady(d, e.wide) == Ready(w))
               && (WideReady(d, e.wide).Ready? ==>
                     exists a: nat, b: nat :: WideGoesAhead(d, e.wide, a, b, WideReady(d, e.wide).disk))
    ensures
      Probe(e).ok && Probe(e).canPunch <==>
        && MeasuredAround(before, e.punch, e.after) && Works(before, e.punch, e.after)
        && WideSays(Drifted(Punched(before, e.punch), e.after.drift), e.wide, true)
    ensures
      Probe(e).ok && !Probe(e).canPunch <==>
        && PunchAnswered(before, e.punch, e.after)
        && (Works(before, e.punch, e.after) ==>
              WideSays(Drifted(Punched(before, e.punch), e.after.drift), e.wide, false))
  {
    VerdictsComeFromPunches(e);
    if e.punch.Frees? && WideReady(AfterSmall(before, e), e.wide).Ready? {
      var d := AfterSmall(before, e);
      var w := WideReady(d, e.wide).disk;
      var a: nat, b: nat :| WideGoesAhead(d, e.wide, a, b, w);
      assert WideSays(d, e.wide, true) <==>
             PunchAnswered(w, e.wide.punch, e.wide.after) && Works(w, e.wide.punch, e.wide.after);
      assert WideSays(d, e.wide, false) <==>
        PunchAnswered(w, e.wide.punch, e.wide.after) && !Works(w, e.wide.punch, e.wide.after);
    }
  }

  predicate SomeStat(polls: seq<Poll>, stat: Stat) { exists k :: 0 <= k < |polls| && polls[k].stat == stat }

  /** What each reason for having no verdict says did happen. */
  predicate Happened(e: Env, r: Reason) {
    match r
    case AllocThrew => e.allocThrows
    case StoreClosing => e.closing || e.closingAfterWrite
    case WriteThrew => e.writeRejects
    case StatThrew => SomeStat(e.settle, StatRejects) || e.after.stat.StatRejects?
    case StatHasNoBlocks =>
      || SomeStat(e.settle, NoBlocks) || e.after.stat.NoBlocks? || SomeStat(e.wide.drain, NoBlocks)
      || SomeStat(e.wide.charge, NoBlocks) || e.wide.after.stat.NoBlocks?
    case WideAllocThrew => e.wide.allocThrows
    case WideStoreClosing => e.wide.closing || e.wide.closingBeforeWrite || e.wide.closingAfterWrite
    case WideTruncateThrew => e.wide.truncateRejects || e.wide.extendRejects
    case WideStatThrew =>
      SomeStat(e.wide.drain, StatRejects) || SomeStat(e.wide.charge, StatRejects) || e.wide.after.stat.StatRejects?
    case WideWriteThrew => e.wide.writeRejects
    case PunchThrew => e.punch.PunchRejects?
    case WidePunchThrew => e.wide.punch.PunchRejects?
    case _ => true
  }

  lemma {:induction false} StopsForAStat(d: Disk, polls: Polls, up: bool, threshold: nat, threw: Reason,
                                         unsettled: Reason)
    ensures
      var r := Settle(d, polls, up, threshold, threw, unsettled);
      r.Stopped? ==>
        || r.reason == unsettled
        || (r.reason == threw && SomeStat(polls, StatRejects))
        || (r.reason == StatHasNoBlocks && SomeStat(polls, NoBlocks))
    decreases |polls|
  {
    var now := Drifted(d, polls[0].drift);
    assert polls[0].stat == StatRejects || polls[0].stat == NoBlocks || polls[0].stat == Blocks;
    if polls[0].stat.Blocks? && !Reached(now, up, threshold) && |polls| > 1 {
      StopsForAStat(now, polls[1..], up, threshold, threw, unsettled);
      assert forall k :: 0 <= k < |polls[1..]| ==> polls[1..][k] == polls[k + 1];
    }
  }

  lemma WideReasonsAreTrue(d: Disk, e: Env)
    ensures WideReady(d, e.wide).Stopped? ==> Happened(e, WideReady(d, e.wide).reason)
  {
    StopsForAStat(Truncated(d), e.wide.drain, false, PROBE_HOLE_BYTES / 2, WideStatThrew, WideBaselineNotSettled);
    if Drain(d, e.wide).Ready? {
      StopsForAStat(Written(Drain(d, e.wide).disk), e.wide.charge, true, PROBE_HOLE_BYTES, WideStatThrew,
                    WideNotSettled);
    }
  }

  /** Whatever reason the probe gives, that is what happened. */
  lemma ReasonsAreTrue(e: Env)
    ensures Happened(e, Probe(e).reason)
  {
    StopsForAStat(EMPTY.(lowPend := PROBE_BYTES), e.settle, true, PROBE_BYTES, StatThrew, NotSettled);
    if SmallReady(e).Ready? && e.punch.Frees? { WideReasonsAreTrue(AfterSmall(SmallReady(e).disk, e), e); }
  }

  // ---- an honest store -------------------------------------------------------------------------

  /** A loop settles when some stat before its deadline reaches the threshold, with no failure before it. */
  predicate Settles(d: Disk, polls: Polls, up: bool, threshold: nat)
    decreases |polls|
  {
    var now := Drifted(d, polls[0].drift);
    polls[0].stat.Blocks? && (Reached(now, up, threshold) || (|polls| > 1 && Settles(now, polls[1..], up, threshold)))
  }

  lemma {:induction false} SettlesIsReady(d: Disk, polls: Polls, up: bool, threshold: nat, threw: Reason,
                                          unsettled: Reason)
    ensures Settles(d, polls, up, threshold) ==> Settle(d, polls, up, threshold, threw, unsettled).Ready?
    decreases |polls|
  {
    if polls[0].stat.Blocks? && |polls| > 1 {
      SettlesIsReady(Drifted(d, polls[0].drift), polls[1..], up, threshold, threw, unsettled);
    }
  }

  /** Total bytes below the line, charged or not, never exceed what was written there; likewise above. */
  lemma {:induction false} SettleConserves(d: Disk, polls: Polls, up: bool, threshold: nat, threw: Reason,
                                           unsettled: Reason)
    ensures
      var r := Settle(d, polls, up, threshold, threw, unsettled);
      r.Ready? ==> r.disk.low + r.disk.lowPend <= d.low + d.lowPend
                   && r.disk.high + r.disk.highPend == d.high + d.highPend && Reached(r.disk, up, threshold)
    decreases |polls|
  {
    var now := Drifted(d, polls[0].drift);
    if polls[0].stat.Blocks? && !Reached(now, up, threshold) && |polls| > 1 {
      SettleConserves(now, polls[1..], up, threshold, threw, unsettled);
    }
  }

  predicate WideNoFailures(w: WideEnv) {
    && !w.allocThrows && !w.closing && !w.truncateRejects && !w.extendRejects
    && !w.closingBeforeWrite && !w.writeRejects && !w.closingAfterWrite && w.after.stat.Blocks?
  }

  predicate NoFailures(e: Env) {
    && !e.allocThrows && !e.closing && !e.writeRejects && !e.closingAfterWrite && e.after.stat.Blocks?
    && WideNoFailures(e.wide)
  }

  /** An honest punch frees what its range covers: at least half of the small hole, and everything below 5 GiB. */
  predicate HonestPunches(e: Env) {
    e.punch.Frees? && e.punch.low >= PROBE_HOLE_BYTES / 2 && WideHonest(e.wide.punch)
  }

  predicate WideHonest(p: Punch) {
    p.Frees? && p.low >= PROBE_HOLE_BYTES && p.high >= PROBE_HOLE_BYTES
  }

  predicate WideSettles(d: Disk, w: WideEnv) {
    && Settles(Truncated(d), w.drain, false, PROBE_HOLE_BYTES / 2)
    && (Drain(d, w).Ready? ==> Settles(Written(Drain(d, w).disk), w.charge, true, PROBE_HOLE_BYTES))
  }

  /** The three loops settle, each on the disk the steps before it left. */
  predicate AllSettle(e: Env) {
    && Settles(EMPTY.(lowPend := PROBE_BYTES), e.settle, true, PROBE_BYTES)
    && (e.punch.Frees? && SmallReady(e).Ready? ==> WideSettles(AfterSmall(SmallReady(e).disk, e), e.wide))
  }

  lemma WideReadyHonest(d: Disk, w: WideEnv)
    requires d.high == 0 && WideNoFailures(w) && WideSettles(d, w)
    ensures
      var r := WideReady(d, w);
      && r.Ready? && r.disk.low < PROBE_HOLE_BYTES / 2 && r.disk.lowPend == 0
      && r.disk.high + r.disk.highPend == PROBE_HOLE_BYTES && Allocated(r.disk) >= PROBE_HOLE_BYTES
  {
    SettlesIsReady(Truncated(d), w.drain, false, PROBE_HOLE_BYTES / 2, WideStatThrew, WideBaselineNotSettled);
    SettleConserves(Truncated(d), w.drain, false, PROBE_HOLE_BYTES / 2, WideStatThrew, WideBaselineNotSettled);
    SettleKeepsLow(Truncated(d), w.drain, false, PROBE_HOLE_BYTES / 2, WideStatThrew, WideBaselineNotSettled);
    var base := Drain(d, w).disk;
    SettlesIsReady(Written(base), w.charge, true, PROBE_HOLE_BYTES, WideStatThrew, WideNotSettled);
    SettleKeepsLow(Written(base), w.charge, true, PROBE_HOLE_BYTES, WideStatThrew, WideNotSettled);
    SettleConserves(Written(base), w.charge, true, PROBE_HOLE_BYTES, WideStatThrew, WideNotSettled);
  }

  lemma WideHonestCertified(d: Disk, w: WideEnv)
    requires d.high == 0 && WideNoFailures(w) && WideSettles(d, w) && WideHonest(w.punch)
    ensures WideProbe(d, w) == Verdict(true, true, WideMeasured)
  {
    WideReadyHonest(d, w);
  }

  lemma SmallReadyHonest(e: Env)
    requires NoFailures(e) && Settles(EMPTY.(lowPend := PROBE_BYTES), e.settle, true, PROBE_BYTES)
    ensures SmallReady(e) == Ready(Disk(PROBE_BYTES, 0, 0, 0))
  {
    var start := EMPTY.(lowPend := PROBE_BYTES);
    SettlesIsReady(start, e.settle, true, PROBE_BYTES, StatThrew, NotSettled);
    SettleConserves(start, e.settle, true, PROBE_BYTES, StatThrew, NotSettled);
  }

  lemma SmallPunchHonest(e: Env)
    requires e.after.stat.Blocks? && HonestPunches(e)
    ensures
      var before := Disk(PROBE_BYTES, 0, 0, 0);
      && Judge(before, e.punch, e.after, PunchThrew, StatThrew, StillGrowing, Measured) == Verdict(true, true, Measured)
      && AfterSmall(before, e).high == 0
  {}

  /** Completeness: an honest store whose allocation settles in time, and that fails no call, is certified. */
  lemma HonestStoreCertified(e: Env)
    requires NoFailures(e) && HonestPunches(e) && AllSettle(e)
    ensures Probe(e) == Verdict(true, true, Measured)
  {
    SmallReadyHonest(e);
    SmallPunchHonest(e);
    WideHonestCertified(AfterSmall(Disk(PROBE_BYTES, 0, 0, 0), e), e.wide);
  }
}
