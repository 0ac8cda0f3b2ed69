/**
 Atomic file replacement (core/atomic-write.js) on a file system that may lose power.

 Two levels: what the running system sees, and what would survive. File contents and modes survive once
 synced; until then anything may be found in the file. Directory changes are journalled and survive
 once the directory is synced; a crash keeps any subset of the journal (each entry whole: a rename is
 one entry). A crash may happen between any two system calls, and every call may fail.
 */
module AtomicReplace {
  import opened Wrappers

  /** Permission bits, numbered from the lowest. */
  type Mode = set<nat>

  const RW_FOR_ALL: Mode := {1, 2, 4, 5, 7, 8}  // 0o666

  /** `clean`: contents and mode are the durable ones; otherwise what would survive is arbitrary. */
  datatype Inode = Inode(data: string, mode: Mode, clean: bool)

  datatype Version = Version(data: string, mode: Mode)

  /** The two names that matter: the live path and its sibling temp file. */
  datatype Dir = Dir(target: Option<nat>, tmp: Option<nat>)

  datatype DirOp = LinkTmp(ino: nat) | RenameTmp(ino: nat) | UnlinkTmp

  datatype Disk = Disk(inodes: map<nat, Inode>, next: nat, base: Dir, journal: seq<DirOp>)

  function Apply(dir: Dir, op: DirOp): Dir {
    match op
    case LinkTmp(i) => dir.(tmp := Some(i))
    case RenameTmp(i) => Dir(Some(i), None)
    case UnlinkTmp => dir.(tmp := None)
  }

  function ApplyAll(dir: Dir, ops: seq<DirOp>): Dir {
    if ops == [] then dir else Apply(ApplyAll(dir, ops[..|ops| - 1]), ops[|ops| - 1])
  }

  /** The directory as the running system sees it. */
  function Live(d: Disk): Dir { ApplyAll(d.base, d.journal) }

  function Snapshot(d: Disk, dir: Dir): Option<Version> {
    if dir.target.Some? && dir.target.value in d.inodes then
      var n := d.inodes[dir.target.value]; Some(Version(n.data, n.mode))
    else None
  }

  /** What a reader of the live path sees now. */
  function Seen(d: Disk): Option<Version> { Snapshot(d, Live(d)) }

  // ---- crashes ---------------------------------------------------------------------------------

  function Kept(dir: Dir, ops: seq<DirOp>, keep: seq<bool>): Dir
    requires |keep| == |ops|
  {
    if ops == [] then dir
    else
      var before := Kept(dir, ops[..|ops| - 1], keep[..|ops| - 1]);
      if keep[|ops| - 1] then Apply(before, ops[|ops| - 1]) else before
  }

  /** Any subset of the journal survives, and files that were not synced hold anything. */
  function Crash(d: Disk, keep: seq<bool>, junk: nat -> Inode): Disk
    requires |keep| == |d.journal|
  {
    Disk(map i | i in d.inodes :: if d.inodes[i].clean then d.inodes[i] else junk(i).(clean := true),
         d.next, Kept(d.base, d.journal, keep), [])
  }

  // ---- the system calls ------------------------------------------------------------------------

  /** The file the temp name opens: a stale one, or the next to be created. */
  function TmpInode(d: Disk): nat {
    var t := Live(d).tmp;
    if t.Some? && t.value in d.inodes then t.value else d.next
  }

  function Create(d: Disk, mode: Mode): Disk {
    d.(inodes := d.inodes[d.next := Inode("", mode, false)], next := d.next + 1,
       journal := d.journal + [LinkTmp(d.next)])
  }

  /** open(tmp, 'w', mode): truncates a stale temp file, or creates one with the mode less the umask. */
  function OpenTmp(d: Disk, mode: Mode, umask: Mode): Disk {
    var i := TmpInode(d);
    if i in d.inodes then d.(inodes := d.inodes[i := Inode("", d.inodes[i].mode, false)]) else Create(d, mode - umask)
  }

  function SetMode(d: Disk, i: nat, mode: Mode): Disk {
    if i in d.inodes then d.(inodes := d.inodes[i := Inode(d.inodes[i].data, mode, false)]) else d
  }

  function SetData(d: Disk, i: nat, data: string): Disk {
    if i in d.inodes then d.(inodes := d.inodes[i := Inode(data, d.inodes[i].mode, false)]) else d
  }

  function Fsync(d: Disk, i: nat): Disk {
    if i in d.inodes then d.(inodes := d.inodes[i := d.inodes[i].(clean := true)]) else d
  }

  function Journal(d: Disk, op: DirOp): Disk { d.(journal := d.journal + [op]) }

  function SyncDir(d: Disk): Disk { d.(base := Live(d), journal := []) }

  // ---- the recipe ------------------------------------------------------------------------------

  /** mode None: the caller asked for none. */
  datatype Args = Args(data: string, mode: Option<Mode>, fsync: bool)

  /** Which calls fail; a failing write may leave anything in the temp file. */
  datatype Env = Env(umask: Mode, mkdirFails: bool, openFails: bool, chmodFails: bool, writeFails: Option<string>,
                     fsyncFails: bool, closeFails: bool, renameFails: bool, unlinkFails: bool, dirSyncFails: bool)

  function Opened(d: Disk, a: Args, e: Env): Disk {
    OpenTmp(d, if a.mode.Some? then a.mode.value else RW_FOR_ALL, e.umask)
  }

  function Chmodded(d: Disk, i: nat, a: Args, e: Env): Disk {
    if a.mode.Some? && !e.chmodFails then SetMode(d, i, a.mode.value) else d
  }

  function Written(d: Disk, i: nat, a: Args, e: Env): Disk {
    SetData(d, i, if e.writeFails.Some? then e.writeFails.value else a.data)
  }

  function Cleaned(d: Disk, e: Env): Disk {
    if e.unlinkFails then d else Journal(d, UnlinkTmp)
  }

  datatype Result = Result(trace: seq<Disk>, ok: bool)

  /** The temp file after the open, the chmod, the write and the fsync. */
  function Step1(d: Disk, a: Args, e: Env): Disk { Opened(d, a, e) }

  function Step2(d: Disk, a: Args, e: Env): Disk { Chmodded(Step1(d, a, e), TmpInode(d), a, e) }

  function Step3(d: Disk, a: Args, e: Env): Disk { Written(Step2(d, a, e), TmpInode(d), a, e) }

  function Step4(d: Disk, a: Args, e: Env): Disk {
    if a.fsync then Fsync(Step3(d, a, e), TmpInode(d)) else Step3(d, a, e)
  }

  function Step5(d: Disk, a: Args, e: Env): Disk { Journal(Step4(d, a, e), RenameTmp(TmpInode(d))) }

  function UpToWrite(d: Disk, a: Args, e: Env): seq<Disk> {
    [d] + [Step1(d, a, e)] + [Step2(d, a, e)] + [Step3(d, a, e)]
  }

  function UpToRename(d: Disk, a: Args, e: Env): seq<Disk> { UpToWrite(d, a, e) + [Step4(d, a, e)] }

  /** Every disk the system passes through, in order, and whether the call returned. */
  function Replace(d: Disk, a: Args, e: Env): Result {
    if e.mkdirFails then Result([d], false)
    else if e.openFails then Result([d, Cleaned(d, e)], false)
    else if e.writeFails.Some? || (a.fsync && e.fsyncFails) then
      Result(UpToWrite(d, a, e) + [Cleaned(Step3(d, a, e), e)], false)
    else if e.closeFails || e.renameFails then
      Result(UpToRename(d, a, e) + [Cleaned(Step4(d, a, e), e)], false)
    else
      var renamed := UpToRename(d, a, e) + [Step5(d, a, e)];
      if a.fsync && !e.dirSyncFails then Result(renamed + [SyncDir(Step5(d, a, e))], true) else Result(renamed, true)
  }

  /** The version the call is putting in place: its data, and the mode the temp file has by then. */
  function Offered(d: Disk, a: Args, e: Env): Version {
    var d1 := Opened(d, a, e);
    Version(a.data,
            if a.mode.Some? && !e.chmodFails then a.mode.value
            else if TmpInode(d) in d1.inodes then d1.inodes[TmpInode(d)].mode else {})
  }

  // ---- what every disk on the way satisfies ----------------------------------------------------

  /** A file the live path may turn out to name after a crash. */
  predicate Candidate(d: Disk, i: nat) {
    d.base.target == Some(i) || RenameTmp(i) in d.journal
  }

  /** No crash makes the temp name an alias of the live path. */
  predicate NoAlias(d: Disk) {
    && (d.base.tmp.Some? ==> d.base.tmp != d.base.target)
    && (forall p :: 0 <= p < |d.journal| && d.journal[p].LinkTmp? ==>
          d.base.target != Some(d.journal[p].ino) && RenameTmp(d.journal[p].ino) !in d.journal[..p])
  }

  predicate Bounded(d: Disk) {
    && (forall i :: i in d.inodes ==> i < d.next)
    && (d.base.target.Some? ==> d.base.target.value in d.inodes)
    && (d.base.tmp.Some? ==> d.base.tmp.value in d.inodes)
    && (forall op :: op in d.journal && !op.UnlinkTmp? ==> op.ino in d.inodes)
  }

  /** Whatever the live path may name is wholly on disk and one of the given versions. */
  predicate Safe(d: Disk, versions: set<Option<Version>>) {
    && Bounded(d) && NoAlias(d)
    && (Live(d).tmp.Some? ==> !Candidate(d, Live(d).tmp.value))
    && (d.base.target.None? ==> None in versions)
    && (forall i :: i in d.inodes && Candidate(d, i) ==>
          d.inodes[i].clean && Some(Version(d.inodes[i].data, d.inodes[i].mode)) in versions)
  }

  lemma LiveAppend(d: Disk, op: DirOp)
    ensures Live(Journal(d, op)) == Apply(Live(d), op)
  {
    assert (d.journal + [op])[..|d.journal|] == d.journal;
  }

  lemma {:induction false} AppliedNamesKnown(d: Disk, n: nat)
    requires Bounded(d) && n <= |d.journal|
    ensures
      var dir := ApplyAll(d.base, d.journal[..n]);
      && (dir.tmp.Some? ==> dir.tmp.value in d.inodes)
      && (dir.target.Some? ==> dir.target.value in d.inodes && Candidate(d, dir.target.value))
      && (dir.target.None? ==> d.base.target.None?)
  {
    if n == 0 {
    } else {
      AppliedNamesKnown(d, n - 1);
      assert d.journal[..n][..n - 1] == d.journal[..n - 1] && d.journal[n - 1] in d.journal;
    }
  }

  lemma LiveNamesKnown(d: Disk)
    requires Bounded(d)
    ensures
      && (Live(d).tmp.Some? ==> Live(d).tmp.value in d.inodes)
      && (Live(d).target.Some? ==> Live(d).target.value in d.inodes && Candidate(d, Live(d).target.value))
      && (Live(d).target.None? ==> d.base.target.None?)
  {
    AppliedNamesKnown(d, |d.journal|);
    assert d.journal[..|d.journal|] == d.journal;
  }

  /** A reader of the running system sees one of the versions, whole. */
  lemma SafeIsSeen(d: Disk, versions: set<Option<Version>>)
    requires Safe(d, versions)
    ensures Seen(d) in versions
  {
    LiveNamesKnown(d);
  }

  lemma {:induction false} KeptNames(d: Disk, n: nat, keep: seq<bool>)
    requires Bounded(d) && NoAlias(d) && n <= |d.journal| && |keep| == n
    ensures
      var dir := Kept(d.base, d.journal[..n], keep);
      && (dir.target.Some? ==> dir.target == d.base.target || RenameTmp(dir.target.value) in d.journal[..n])
      && (dir.target.None? ==> d.base.target.None?)
      && (dir.tmp.Some? ==> dir.tmp != dir.target && dir.tmp.value in d.inodes)
  {
    if n == 0 {
    } else {
      KeptNames(d, n - 1, keep[..n - 1]);
      assert d.journal[..n][..n - 1] == d.journal[..n - 1];
      assert d.journal[..n][n - 1] == d.journal[n - 1] && d.journal[n - 1] in d.journal
             && d.journal[n - 1] in d.journal[..n];
      assert forall op :: op in d.journal[..n - 1] ==> op in d.journal[..n];
    }
  }

  /** The point of the invariant: after any crash the live path is one of the versions, whole, and it stays safe. */
  lemma CrashIsSafe(d: Disk, versions: set<Option<Version>>, keep: seq<bool>, junk: nat -> Inode)
    requires Safe(d, versions) && |keep| == |d.journal|
    ensures Safe(Crash(d, keep, junk), versions) && Seen(Crash(d, keep, junk)) in versions
  {
    assert d.journal[..|d.journal|] == d.journal;
    KeptNames(d, |d.journal|, keep);
    var c := Crash(d, keep, junk);
    assert Live(c) == c.base;
    SafeIsSeen(c, versions);
  }

  // ---- each call keeps it ----------------------------------------------------------------------

  /** The temp file is open: it is the live temp name, and no crash can make the live path name it. */
  predicate Open(d: Disk, i: nat) {
    Live(d).tmp == Some(i) && i in d.inodes && !Candidate(d, i)
  }

  lemma CreateNames(d: Disk, mode: Mode)
    ensures Live(Create(d, mode)) == Live(d).(tmp := Some(d.next))
  {
    var t := Create(d, mode);
    assert t.journal[..|d.journal|] == d.journal;
  }

  lemma CreateKeepsSafe(d: Disk, v: set<Option<Version>>, mode: Mode)
    requires Safe(d, v)
    ensures
      var t := Create(d, mode);
      Safe(t, v) && Open(t, d.next) && Live(t).target == Live(d).target && Seen(t) == Seen(d)
  {
    LiveNamesKnown(d);
    var t := Create(d, mode);
    CreateNames(d, mode);
    assert RenameTmp(d.next) !in d.journal;
    forall p | 0 <= p < |t.journal| && t.journal[p].LinkTmp?
      ensures t.base.target != Some(t.journal[p].ino) && RenameTmp(t.journal[p].ino) !in t.journal[..p]
    {
      if p < |d.journal| {
        assert t.journal[..p] == d.journal[..p] && t.journal[p] == d.journal[p];
      } else {
        assert t.journal[..p] == d.journal;
      }
    }
  }

  /** Whatever is done to the open temp file, the live path is as safe as before. */
  lemma TouchKeepsSafe(d: Disk, v: set<Option<Version>>, i: nat, n: Inode)
    requires Safe(d, v) && Open(d, i)
    ensures
      var t := d.(inodes := d.inodes[i := n]);
      Safe(t, v) && Open(t, i) && Live(t) == Live(d) && Seen(t) == Seen(d)
  {
    LiveNamesKnown(d);
  }

  /** The file is open and what it will replace is untouched. */
  predicate Working(d: Disk, t: Disk, v: set<Option<Version>>) {
    Safe(t, v) && Open(t, TmpInode(d)) && Seen(t) == Seen(d)
  }

  lemma Step1Works(d: Disk, v: set<Option<Version>>, a: Args, e: Env)
    requires Safe(d, v)
    ensures Working(d, Step1(d, a, e), v)
  {
    LiveNamesKnown(d);
    var i := TmpInode(d);
    if Live(d).tmp.Some? {
      TouchKeepsSafe(d, v, i, Inode("", d.inodes[i].mode, false));
    } else {
      CreateKeepsSafe(d, v, (if a.mode.Some? then a.mode.value else RW_FOR_ALL) - e.umask);
    }
  }

  lemma Step2Works(d: Disk, v: set<Option<Version>>, a: Args, e: Env)
    requires Safe(d, v)
    ensures Working(d, Step2(d, a, e), v)
  {
    Step1Works(d, v, a, e);
    var i, d1 := TmpInode(d), Step1(d, a, e);
    if a.mode.Some? && !e.chmodFails { TouchKeepsSafe(d1, v, i, Inode(d1.inodes[i].data, a.mode.value, false)); }
  }

  lemma Step3Works(d: Disk, v: set<Option<Version>>, a: Args, e: Env)
    requires Safe(d, v)
    ensures Working(d, Step3(d, a, e), v)
  {
    Step2Works(d, v, a, e);
    var i, d2 := TmpInode(d), Step2(d, a, e);
    TouchKeepsSafe(d2, v, i,
                   Inode(if e.writeFails.Some? then e.writeFails.value else a.data, d2.inodes[i].mode, false));
  }

  lemma Step4Works(d: Disk, v: set<Option<Version>>, a: Args, e: Env)
    requires Safe(d, v)
    ensures Working(d, Step4(d, a, e), v)
  {
    Step3Works(d, v, a, e);
    var i, d3 := TmpInode(d), Step3(d, a, e);
    if a.fsync { TouchKeepsSafe(d3, v, i, d3.inodes[i].(clean := true)); }
  }

  /** What the temp file holds when the rename is due. */
  lemma Step4Holds(d: Disk, a: Args, e: Env)
    requires Bounded(d) && e.writeFails.None?
    ensures
      var d4, i := Step4(d, a, e), TmpInode(d);
      i in d4.inodes && Version(d4.inodes[i].data, d4.inodes[i].mode) == Offered(d, a, e) &&
      (a.fsync ==> d4.inodes[i].clean)
  {
    var i := TmpInode(d);
    assert i in Step1(d, a, e).inodes;
    assert i in Step2(d, a, e).inodes;
  }

  lemma JournalKeepsNoAlias(d: Disk, op: DirOp)
    requires NoAlias(d) && !op.LinkTmp?
    ensures NoAlias(Journal(d, op))
  {
    var t := Journal(d, op);
    forall p | 0 <= p < |t.journal| && t.journal[p].LinkTmp?
      ensures t.base.target != Some(t.journal[p].ino) && RenameTmp(t.journal[p].ino) !in t.journal[..p]
    {
      assert p < |d.journal| && t.journal[..p] == d.journal[..p] && t.journal[p] == d.journal[p];
    }
  }

  lemma UnlinkKeepsSafe(d: Disk, v: set<Option<Version>>)
    requires Safe(d, v)
    ensures Safe(Journal(d, UnlinkTmp), v) && Seen(Journal(d, UnlinkTmp)) == Seen(d)
  {
    LiveAppend(d, UnlinkTmp);
    JournalKeepsNoAlias(d, UnlinkTmp);
  }

  /** The rename adds exactly one version the live path may turn out to be. */
  lemma RenameIsSafe(d: Disk, v: set<Option<Version>>, i: nat)
    requires Safe(d, v) && Open(d, i) && d.inodes[i].clean
    ensures
      var found := Some(Version(d.inodes[i].data, d.inodes[i].mode));
      Safe(Journal(d, RenameTmp(i)), v + {found}) && Seen(Journal(d, RenameTmp(i))) == found
  {
    LiveAppend(d, RenameTmp(i));
    JournalKeepsNoAlias(d, RenameTmp(i));
  }

  /** After a directory sync only what is seen can be found. */
  lemma SyncDirIsSafe(d: Disk, v: set<Option<Version>>)
    requires Safe(d, v)
    ensures Safe(SyncDir(d), {Seen(d)}) && Seen(SyncDir(d)) == Seen(d)
  {
    LiveNamesKnown(d);
    assert Live(SyncDir(d)) == Live(d);
  }

  // ---- one call --------------------------------------------------------------------------------

  function Last(r: Result): Disk
    requires r.trace != []
  {
    r.trace[|r.trace| - 1]
  }

  predicate AllSafe(trace: seq<Disk>, v: set<Option<Version>>) {
    forall k :: 0 <= k < |trace| ==> Safe(trace[k], v)
  }

  lemma AllSafeAppend(trace: seq<Disk>, d: Disk, v: set<Option<Version>>)
    requires AllSafe(trace, v) && Safe(d, v)
    ensures AllSafe(trace + [d], v)
  {}

  /** Up to the rename only the temp file is touched: nothing a reader or a crash can find has changed. */
  lemma WorkIsSafe(d: Disk, v: set<Option<Version>>, a: Args, e: Env)
    requires Safe(d, v)
    ensures AllSafe(UpToWrite(d, a, e), v) && AllSafe(UpToRename(d, a, e), v)
    ensures Working(d, Step3(d, a, e), v) && Working(d, Step4(d, a, e), v)
  {
    Step1Works(d, v, a, e);
    Step2Works(d, v, a, e);
    Step3Works(d, v, a, e);
    Step4Works(d, v, a, e);
    AllSafeAppend([d], Step1(d, a, e), v);
    AllSafeAppend([d] + [Step1(d, a, e)], Step2(d, a, e), v);
    AllSafeAppend([d] + [Step1(d, a, e)] + [Step2(d, a, e)], Step3(d, a, e), v);
    AllSafeAppend(UpToWrite(d, a, e), Step4(d, a, e), v);
  }

  lemma CleanedIsSafe(d: Disk, v: set<Option<Version>>, e: Env)
    requires Safe(d, v)
    ensures Safe(Cleaned(d, e), v) && Seen(Cleaned(d, e)) == Seen(d)
  {
    UnlinkKeepsSafe(d, v);
  }

  lemma SafeGrows(d: Disk, v: set<Option<Version>>, extra: Option<Version>)
    requires Safe(d, v)
    ensures Safe(d, v + {extra})
  {}

  lemma AllSafeGrows(trace: seq<Disk>, v: set<Option<Version>>, extra: Option<Version>)
    requires AllSafe(trace, v)
    ensures AllSafe(trace, v + {extra})
  {
    forall k | 0 <= k < |trace| ensures Safe(trace[k], v + {extra}) { SafeGrows(trace[k], v, extra); }
  }

  lemma SafeForMore(d: Disk, v: set<Option<Version>>, more: set<Option<Version>>)
    requires Safe(d, v) && v <= more
    ensures Safe(d, more)
  {}

  /** A failure at a disk that still shows the old version, whatever the clean-up does. */
  lemma FailsAt(d: Disk, v: set<Option<Version>>, passed: seq<Disk>, at: Disk, e: Env)
    requires AllSafe(passed, v) && Safe(at, v) && Seen(at) == Seen(d)
    ensures AllSafe(passed + [Cleaned(at, e)], v) && Seen(Cleaned(at, e)) == Seen(d)
  {
    CleanedIsSafe(at, v, e);
    AllSafeAppend(passed, Cleaned(at, e), v);
  }

  lemma FailsEarly(d: Disk, v: set<Option<Version>>, a: Args, e: Env)
    requires Safe(d, v) && (e.mkdirFails || e.openFails)
    ensures AllSafe(Replace(d, a, e).trace, v) && Seen(Last(Replace(d, a, e))) == Seen(d)
  {
    if e.mkdirFails {
    } else {
      FailsAt(d, v, [d], d, e);
      assert Replace(d, a, e).trace == [d] + [Cleaned(d, e)];
    }
  }

  /** A call that fails leaves the live path exactly as it was, on every disk on the way and after any crash. */
  lemma FailedReplaceLeavesTheOld(d: Disk, v: set<Option<Version>>, a: Args, e: Env)
    requires Safe(d, v) && !Replace(d, a, e).ok
    ensures AllSafe(Replace(d, a, e).trace, v) && Seen(Last(Replace(d, a, e))) == Seen(d)
  {
    if e.mkdirFails || e.openFails {
      FailsEarly(d, v, a, e);
    } else if e.writeFails.Some? || (a.fsync && e.fsyncFails) {
      WorkIsSafe(d, v, a, e);
      FailsAt(d, v, UpToWrite(d, a, e), Step3(d, a, e), e);
    } else {
      WorkIsSafe(d, v, a, e);
      FailsAt(d, v, UpToRename(d, a, e), Step4(d, a, e), e);
    }
  }

  lemma RenamedIsSafe(d: Disk, v: set<Option<Version>>, a: Args, e: Env)
    requires Safe(d, v) && a.fsync && e.writeFails.None?
    ensures
      var offer := Some(Offered(d, a, e));
      AllSafe(UpToRename(d, a, e) + [Step5(d, a, e)], v + {offer}) &&
      Safe(Step5(d, a, e), v + {offer}) && Seen(Step5(d, a, e)) == offer
  {
    var offer := Some(Offered(d, a, e));
    WorkIsSafe(d, v, a, e);
    Step4Holds(d, a, e);
    RenameIsSafe(Step4(d, a, e), v, TmpInode(d));
    AllSafeGrows(UpToRename(d, a, e), v, offer);
    AllSafeAppend(UpToRename(d, a, e), Step5(d, a, e), v + {offer});
  }

  lemma SyncsTheDirectory(d: Disk, v: set<Option<Version>>, passed: seq<Disk>, offer: Version)
    requires AllSafe(passed, v + {Some(offer)}) && Safe(d, v + {Some(offer)}) && Seen(d) == Some(offer)
    ensures AllSafe(passed + [SyncDir(d)], v + {Some(offer)})
    ensures Safe(SyncDir(d), {Some(offer)}) && Seen(SyncDir(d)) == Some(offer)
  {
    SyncDirIsSafe(d, v + {Some(offer)});
    SafeForMore(SyncDir(d), {Some(offer)}, v + {Some(offer)});
    AllSafeAppend(passed, SyncDir(d), v + {Some(offer)});
  }

  /**
   With fsync, a call that returns was crash safe at every step: on every disk the system passed through,
   any crash leaves one of the old versions or the offered one, whole and with its mode. The offered
   version is in place, and with the directory synced nothing older can come back.
   */
  lemma ReturnedReplaceIsSafe(d: Disk, v: set<Option<Version>>, a: Args, e: Env)
    requires Safe(d, v) && a.fsync && Replace(d, a, e).ok
    ensures
      var r := Replace(d, a, e);
      var offer := Some(Offered(d, a, e));
      && AllSafe(r.trace, v + {offer}) && Seen(Last(r)) == offer
      && (!e.dirSyncFails ==> Safe(Last(r), {offer}))
  {
    RenamedIsSafe(d, v, a, e);
    if !e.dirSyncFails {
      SyncsTheDirectory(Step5(d, a, e), v, UpToRename(d, a, e) + [Step5(d, a, e)], Offered(d, a, e));
    }
  }

  /**
   The mode of what is put in place is the requested one exactly when the chmod took, or a stale temp file
   already had it, or a new one was created under a umask that takes no requested bit away.
   */
  lemma ResultingMode(d: Disk, a: Args, e: Env)
    requires Bounded(d) && a.mode.Some?
    ensures
      Offered(d, a, e).mode == a.mode.value <==>
        || !e.chmodFails
        || (if TmpInode(d) in d.inodes then d.inodes[TmpInode(d)].mode == a.mode.value
            else a.mode.value !! e.umask)
  {
    var i := TmpInode(d);
    assert i !in d.inodes ==> Opened(d, a, e).inodes[i].mode == a.mode.value - e.umask;
  }

  function KeepEverything(d: Disk): seq<bool> { seq(|d.journal|, _ => true) }

  lemma {:induction false} KeepAll(d: Disk, n: nat)
    requires n <= |d.journal|
    ensures Kept(d.base, d.journal[..n], seq(n, _ => true)) == ApplyAll(d.base, d.journal[..n])
  {
    if n == 0 {
    } else {
      KeepAll(d, n - 1);
      assert d.journal[..n][..n - 1] == d.journal[..n - 1];
      assert seq(n, _ => true)[..n - 1] == seq(n - 1, _ => true);
    }
  }

  /** A live file that was not synced holds whatever the crash leaves in it. */
  lemma UnsyncedTargetTears(d: Disk, i: nat, junk: Version)
    requires Live(d).target == Some(i) && i in d.inodes && !d.inodes[i].clean
    ensures Seen(Crash(d, KeepEverything(d), _ => Inode(junk.data, junk.mode, false))) == Some(junk)
  {
    var c := Crash(d, KeepEverything(d), _ => Inode(junk.data, junk.mode, false));
    KeepAll(d, |d.journal|);
    assert d.journal[..|d.journal|] == d.journal;
    assert Live(c) == c.base && c.base == Live(d);
  }

  /** Without fsync the file goes live unsynced: for any contents whatever, some crash leaves exactly those. */
  lemma UnsyncedReplaceTears(d: Disk, v: set<Option<Version>>, a: Args, e: Env, junk: Version)
    requires Safe(d, v) && !a.fsync && Replace(d, a, e).ok
    ensures
      var last := Last(Replace(d, a, e));
      Seen(Crash(last, KeepEverything(last), _ => Inode(junk.data, junk.mode, false))) == Some(junk)
  {
    Step4Works(d, v, a, e);
    LiveAppend(Step4(d, a, e), RenameTmp(TmpInode(d)));
    UnsyncedTargetTears(Step5(d, a, e), TmpInode(d), junk);
  }

  // ---- any number of writes, deaths of the process and power losses ------------------------------

  /** Dies: the process stops inside a call, after it passed through disk number `at`. */
  datatype Event =
    | Call(a: Args, e: Env)
    | Dies(a: Args, e: Env, at: nat)
    | PowerLoss(keep: nat -> bool, junk: nat -> Inode)

  const RENAMED_AT := 5

  predicate Synced(ev: Event) { ev.PowerLoss? || ev.a.fsync }

  predicate AllSynced(evs: seq<Event>) { forall k :: 0 <= k < |evs| ==> Synced(evs[k]) }

  function Do(d: Disk, ev: Event): Disk {
    match ev
    case Call(a, e) => Last(Replace(d, a, e))
    case Dies(a, e, at) =>
      var trace := Replace(d, a, e).trace; if at < |trace| then trace[at] else trace[|trace| - 1]
    case PowerLoss(keep, junk) => Crash(d, seq(|d.journal|, keep), junk)
  }

  /** Whether the event got as far as the rename. */
  predicate Renames(d: Disk, ev: Event) {
    match ev
    case Call(a, e) => Replace(d, a, e).ok
    case Dies(a, e, at) => Replace(d, a, e).ok && RENAMED_AT <= at
    case PowerLoss(_, _) => false
  }

  /** What may be found afterwards, given what might have been found before. */
  function Possible(d: Disk, v: set<Option<Version>>, ev: Event): set<Option<Version>> {
    if ev.PowerLoss? then {Seen(Do(d, ev))}
    else if !Renames(d, ev) then v
    else if ev.Call? && !ev.e.dirSyncFails then {Some(Offered(d, ev.a, ev.e))}
    else v + {Some(Offered(d, ev.a, ev.e))}
  }

  function Run(d: Disk, evs: seq<Event>): Disk
    decreases |evs|
  {
    if evs == [] then d else Run(Do(d, evs[0]), evs[1..])
  }

  function Offers(d: Disk, evs: seq<Event>): set<Option<Version>>
    decreases |evs|
  {
    if evs == [] then {}
    else
      (if Renames(d, evs[0]) then {Some(Offered(d, evs[0].a, evs[0].e))} else {}) + Offers(Do(d, evs[0]), evs[1..])
  }

  lemma CallIsSafe(d: Disk, v: set<Option<Version>>, ev: Event)
    requires Safe(d, v) && !ev.PowerLoss? && ev.a.fsync
    ensures Safe(Do(d, ev), Possible(d, v, ev))
  {
    if Replace(d, ev.a, ev.e).ok {
      if ev.Dies? && ev.at < RENAMED_AT {
        WorkIsSafe(d, v, ev.a, ev.e);
        assert Do(d, ev) == UpToRename(d, ev.a, ev.e)[ev.at];
      } else {
        ReturnedReplaceIsSafe(d, v, ev.a, ev.e);
      }
    } else {
      FailedReplaceLeavesTheOld(d, v, ev.a, ev.e);
    }
  }

  lemma PowerLossIsSafe(d: Disk, v: set<Option<Version>>, ev: Event)
    requires Safe(d, v) && ev.PowerLoss?
    ensures Safe(Do(d, ev), Possible(d, v, ev)) && Possible(d, v, ev) <= v
  {
    CrashIsSafe(d, v, seq(|d.journal|, ev.keep), ev.junk);
    var c := Do(d, ev);
    LiveNamesKnown(c);
    assert Live(c) == c.base;
  }

  lemma {:induction false} RunIsSafe(d: Disk, v: set<Option<Version>>, evs: seq<Event>)
    requires Safe(d, v) && AllSynced(evs)
    ensures Safe(Run(d, evs), v + Offers(d, evs))
    decreases |evs|
  {
    if evs == [] {
    } else {
      var ev := evs[0];
      if ev.PowerLoss? { PowerLossIsSafe(d, v, ev); } else { CallIsSafe(d, v, ev); }
      RunIsSafe(Do(d, ev), Possible(d, v, ev), evs[1..]);
      SafeForMore(Run(d, evs), Possible(d, v, ev) + Offers(Do(d, ev), evs[1..]), v + Offers(d, evs));
    }
  }

  /** Where the system starts: nothing pending, and a stale temp file at most. */
  predicate Settled(d: Disk) {
    && d.journal == [] && Bounded(d)
    && (d.base.tmp.Some? ==> d.base.tmp != d.base.target)
    && (d.base.target.Some? ==> d.inodes[d.base.target.value].clean)
  }

  /**
   Over any sequence of synced writes, of deaths of the process inside one and of power losses that each
   lose any subset of what is not synced: the live path holds what it held at first or one of the versions
   whose rename was reached, whole and with its mode.
   */
  lemma NothingTornEver(d: Disk, evs: seq<Event>)
    requires Settled(d) && AllSynced(evs)
    ensures Seen(Run(d, evs)) in {Seen(d)} + Offers(d, evs)
  {
    assert Live(d) == d.base;
    RunIsSafe(d, {Seen(d)}, evs);
    SafeIsSeen(Run(d, evs), {Seen(d)} + Offers(d, evs));
  }

  /** Calls that fail, deaths before the rename, and power losses. */
  predicate NoRename(d: Disk, evs: seq<Event>)
    decreases |evs|
  {
    evs == [] || (!Renames(d, evs[0]) && NoRename(Do(d, evs[0]), evs[1..]))
  }

  lemma {:induction false} NoRenameNoOffer(d: Disk, evs: seq<Event>)
    requires NoRename(d, evs)
    ensures Offers(d, evs) == {}
    decreases |evs|
  {
    if evs == [] {
    } else {
      NoRenameNoOffer(Do(d, evs[0]), evs[1..]);
    }
  }

  /**
   After a write that returned with its directory synced, every reader finds that version or one renamed
   later, whatever fails, dies or loses power in between: until another rename, exactly that version.
   */
  lemma SyncedWriteSurvives(d: Disk, before: seq<Event>, a: Args, e: Env, after: seq<Event>)
    requires Settled(d) && AllSynced(before) && AllSynced(after) && a.fsync
    requires Replace(Run(d, before), a, e).ok && !e.dirSyncFails
    ensures
      var at := Run(d, before);
      var done := Last(Replace(at, a, e));
      && Seen(Run(done, after)) in {Some(Offered(at, a, e))} + Offers(done, after)
      && (NoRename(done, after) ==> Seen(Run(done, after)) == Some(Offered(at, a, e)))
  {
    assert Live(d) == d.base;
    RunIsSafe(d, {Seen(d)}, before);
    var at := Run(d, before);
    ReturnedReplaceIsSafe(at, {Seen(d)} + Offers(d, before), a, e);
    var done, offer := Last(Replace(at, a, e)), Some(Offered(at, a, e));
    RunIsSafe(done, {offer}, after);
    SafeIsSeen(Run(done, after), {offer} + Offers(done, after));
    if NoRename(done, after) { NoRenameNoOffer(done, after); }
  }

  // ---- without power loss the rename alone is enough ---------------------------------------------

  predicate Sound(d: Disk) {
    Bounded(d) && (Live(d).tmp.Some? ==> Live(d).tmp != Live(d).target)
  }

  predicate Untouched(d: Disk, t: Disk) {
    && Sound(t) && Seen(t) == Seen(d) && TmpInode(d) in t.inodes && Live(t).tmp == Some(TmpInode(d))
  }

  lemma TouchIsSound(d: Disk, i: nat, n: Inode)
    requires Sound(d) && Live(d).tmp == Some(i) && i in d.inodes
    ensures var t := d.(inodes := d.inodes[i := n]); Sound(t) && Seen(t) == Seen(d) && Live(t) == Live(d)
  {
    LiveNamesKnown(d);
  }

  lemma CreateIsSound(d: Disk, mode: Mode)
    requires Sound(d)
    ensures
      var t := Create(d, mode);
      Sound(t) && Seen(t) == Seen(d) && d.next in t.inodes && Live(t).tmp == Some(d.next)
  {
    LiveNamesKnown(d);
    CreateNames(d, mode);
  }

  lemma Step1IsSound(d: Disk, a: Args, e: Env)
    requires Sound(d)
    ensures Untouched(d, Step1(d, a, e))
  {
    LiveNamesKnown(d);
    var i := TmpInode(d);
    if Live(d).tmp.Some? {
      TouchIsSound(d, i, Inode("", d.inodes[i].mode, false));
    } else {
      CreateIsSound(d, (if a.mode.Some? then a.mode.value else RW_FOR_ALL) - e.umask);
    }
  }

  lemma Step2IsSound(d: Disk, a: Args, e: Env)
    requires Sound(d)
    ensures Untouched(d, Step2(d, a, e))
  {
    Step1IsSound(d, a, e);
    var i, d1 := TmpInode(d), Step1(d, a, e);
    if a.mode.Some? && !e.chmodFails { TouchIsSound(d1, i, Inode(d1.inodes[i].data, a.mode.value, false)); }
  }

  lemma Step3IsSound(d: Disk, a: Args, e: Env)
    requires Sound(d)
    ensures Untouched(d, Step3(d, a, e))
  {
    Step2IsSound(d, a, e);
    var i, d2 := TmpInode(d), Step2(d, a, e);
    TouchIsSound(d2, i, Inode(if e.writeFails.Some? then e.writeFails.value else a.data, d2.inodes[i].mode, false));
  }

  lemma Step4IsSound(d: Disk, a: Args, e: Env)
    requires Sound(d)
    ensures Untouched(d, Step4(d, a, e))
  {
    Step3IsSound(d, a, e);
    var i, d3 := TmpInode(d), Step3(d, a, e);
    if a.fsync { TouchIsSound(d3, i, d3.inodes[i].(clean := true)); }
  }

  lemma CleanedIsSound(d: Disk, e: Env)
    requires Sound(d)
    ensures Sound(Cleaned(d, e)) && Seen(Cleaned(d, e)) == Seen(d)
  {
    LiveAppend(d, UnlinkTmp);
  }

  lemma RenamedIsSound(d: Disk, a: Args, e: Env)
    requires Sound(d) && e.writeFails.None?
    ensures Sound(Step5(d, a, e)) && Seen(Step5(d, a, e)) == Some(Offered(d, a, e))
    ensures Sound(SyncDir(Step5(d, a, e))) && Seen(SyncDir(Step5(d, a, e))) == Some(Offered(d, a, e))
  {
    Step4IsSound(d, a, e);
    Step4Holds(d, a, e);
    LiveAppend(Step4(d, a, e), RenameTmp(TmpInode(d)));
    LiveNamesKnown(Step5(d, a, e));
    assert Live(SyncDir(Step5(d, a, e))) == Live(Step5(d, a, e));
  }

  predicate SoundWith(t: Disk, seen: Option<Version>) { Sound(t) && Seen(t) == seen }

  predicate Passed(d: Disk, trace: seq<Disk>) { forall k :: 0 <= k < |trace| ==> SoundWith(trace[k], Seen(d)) }

  lemma PassedAppend(d: Disk, trace: seq<Disk>, t: Disk)
    requires Passed(d, trace) && SoundWith(t, Seen(d))
    ensures Passed(d, trace + [t])
  {}

  lemma WorkIsSound(d: Disk, a: Args, e: Env)
    requires Sound(d)
    ensures Passed(d, UpToWrite(d, a, e)) && Passed(d, UpToRename(d, a, e))
  {
    assert Passed(d, UpToWrite(d, a, e)) by {
      assert SoundWith(Step1(d, a, e), Seen(d)) by { Step1IsSound(d, a, e); }
      assert SoundWith(Step2(d, a, e), Seen(d)) by { Step2IsSound(d, a, e); }
      assert SoundWith(Step3(d, a, e), Seen(d)) by { Step3IsSound(d, a, e); }
      PassedAppend(d, [d], Step1(d, a, e));
      PassedAppend(d, [d] + [Step1(d, a, e)], Step2(d, a, e));
      PassedAppend(d, [d] + [Step1(d, a, e)] + [Step2(d, a, e)], Step3(d, a, e));
    }
    Step4IsSound(d, a, e);
    PassedAppend(d, UpToWrite(d, a, e), Step4(d, a, e));
  }

  lemma FailureIsSound(d: Disk, a: Args, e: Env)
    requires Sound(d) && !Replace(d, a, e).ok
    ensures Passed(d, Replace(d, a, e).trace)
  {
    WorkIsSound(d, a, e);
    Step3IsSound(d, a, e);
    Step4IsSound(d, a, e);
    if e.mkdirFails {
    } else if e.openFails {
      CleanedIsSound(d, e);
    } else if e.writeFails.Some? || (a.fsync && e.fsyncFails) {
      CleanedIsSound(Step3(d, a, e), e);
      PassedAppend(d, UpToWrite(d, a, e), Cleaned(Step3(d, a, e), e));
    } else {
      CleanedIsSound(Step4(d, a, e), e);
      PassedAppend(d, UpToRename(d, a, e), Cleaned(Step4(d, a, e), e));
    }
  }

  /** Synced or not: whatever the process passes through, a reader sees the whole old or the whole new file. */
  lemma ReaderSeesOldOrNew(d: Disk, a: Args, e: Env, k: nat)
    requires Sound(d) && k < |Replace(d, a, e).trace|
    ensures
      var r := Replace(d, a, e);
      && Sound(r.trace[k])
      && Seen(r.trace[k]) == (if r.ok && RENAMED_AT <= k then Some(Offered(d, a, e)) else Seen(d))
  {
    if !Replace(d, a, e).ok {
      FailureIsSound(d, a, e);
    } else if k < RENAMED_AT {
      WorkIsSound(d, a, e);
      assert Replace(d, a, e).trace[k] == UpToRename(d, a, e)[k];
    } else {
      RenamedIsSound(d, a, e);
    }
  }

  // ---- what a call answers and leaves behind -----------------------------------------------------

  /** The calls up to the rename, each of which may fail. */
  predicate NothingFails(a: Args, e: Env) {
    && !e.mkdirFails && !e.openFails && e.writeFails.None? && (a.fsync ==> !e.fsyncFails)
    && !e.closeFails && !e.renameFails
  }

  /** A call returns exactly when nothing up to the rename failed; chmod, unlink and the directory sync do not count. */
  lemma ReturnsIffNothingFails(d: Disk, a: Args, e: Env)
    ensures Replace(d, a, e).ok <==> NothingFails(a, e)
  {}

  /** What a call puts in place is the data it was given, and an opened temp file is empty whatever it held before. */
  lemma OffersItsData(d: Disk, a: Args, e: Env)
    requires Sound(d)
    ensures Offered(d, a, e).data == a.data
    ensures TmpInode(d) in Opened(d, a, e).inodes && Opened(d, a, e).inodes[TmpInode(d)].data == ""
    ensures Replace(d, a, e).ok ==>
            Seen(Last(Replace(d, a, e))).Some? && Seen(Last(Replace(d, a, e))).value.data == a.data
  {
    if Replace(d, a, e).ok {
      RenamedIsSound(d, a, e);
      Step4Holds(d, a, e);
    }
  }

  lemma CleanedLeavesNoTemp(d: Disk, e: Env)
    requires !e.unlinkFails
    ensures Live(Cleaned(d, e)).tmp.None?
  {
    LiveAppend(d, UnlinkTmp);
  }

  lemma ReturnLeavesNoTemp(d: Disk, a: Args, e: Env)
    requires Replace(d, a, e).ok
    ensures Live(Last(Replace(d, a, e))).tmp.None?
  {
    LiveAppend(Step4(d, a, e), RenameTmp(TmpInode(d)));
    if a.fsync && !e.dirSyncFails { assert Live(SyncDir(Step5(d, a, e))) == Live(Step5(d, a, e)); }
  }

  /**
   No temp file is left behind: not by a return, nor by a failure whose clean-up works. A failed mkdir touches
   nothing.
   */
  lemma LeavesNoTemp(d: Disk, a: Args, e: Env)
    ensures
      var r := Replace(d, a, e);
      && (r.ok || (!e.mkdirFails && !e.unlinkFails) ==> Live(Last(r)).tmp.None?)
      && (e.mkdirFails ==> r.trace == [d])
  {
    if Replace(d, a, e).ok {
      ReturnLeavesNoTemp(d, a, e);
    } else if !e.mkdirFails && !e.unlinkFails {
      CleanedLeavesNoTemp(d, e);
      CleanedLeavesNoTemp(Step3(d, a, e), e);
      CleanedLeavesNoTemp(Step4(d, a, e), e);
    }
  }

  /** Nothing of the directory has been made durable since. */
  predicate Unsynced(d: Disk, t: Disk) { t.base == d.base && d.journal <= t.journal }

  predicate AllUnsynced(d: Disk, trace: seq<Disk>) { forall k :: 0 <= k < |trace| ==> Unsynced(d, trace[k]) }

  lemma AllUnsyncedAppend(d: Disk, trace: seq<Disk>, t: Disk)
    requires AllUnsynced(d, trace) && Unsynced(d, t)
    ensures AllUnsynced(d, trace + [t])
  {}

  lemma StepsUnsynced(d: Disk, a: Args, e: Env)
    ensures AllUnsynced(d, UpToWrite(d, a, e)) && AllUnsynced(d, UpToRename(d, a, e))
    ensures Unsynced(d, Step3(d, a, e)) && Unsynced(d, Step4(d, a, e)) && Unsynced(d, Step5(d, a, e))
  {
    assert Unsynced(d, Step1(d, a, e)) && Unsynced(d, Step2(d, a, e)) && Unsynced(d, Step3(d, a, e));
    AllUnsyncedAppend(d, [d], Step1(d, a, e));
    AllUnsyncedAppend(d, [d] + [Step1(d, a, e)], Step2(d, a, e));
    AllUnsyncedAppend(d, [d] + [Step1(d, a, e)] + [Step2(d, a, e)], Step3(d, a, e));
    AllUnsyncedAppend(d, UpToWrite(d, a, e), Step4(d, a, e));
  }

  lemma FailureUnsynced(d: Disk, a: Args, e: Env)
    requires !Replace(d, a, e).ok
    ensures AllUnsynced(d, Replace(d, a, e).trace)
  {
    StepsUnsynced(d, a, e);
    if e.mkdirFails {
    } else if e.openFails {
      AllUnsyncedAppend(d, [d], Cleaned(d, e));
      assert Replace(d, a, e).trace == [d] + [Cleaned(d, e)];
    } else if e.writeFails.Some? || (a.fsync && e.fsyncFails) {
      AllUnsyncedAppend(d, UpToWrite(d, a, e), Cleaned(Step3(d, a, e), e));
    } else {
      AllUnsyncedAppend(d, UpToRename(d, a, e), Cleaned(Step4(d, a, e), e));
    }
  }

  /** The directory is made durable exactly by a return with fsync whose directory sync works, and only at its end. */
  lemma DirectorySyncedIff(d: Disk, a: Args, e: Env, k: nat)
    requires k < |Replace(d, a, e).trace|
    ensures
      var r := Replace(d, a, e);
      if NothingFails(a, e) && a.fsync && !e.dirSyncFails && k == |r.trace| - 1
      then r.trace[k].journal == [] && r.trace[k].base == Live(Step5(d, a, e))
      else Unsynced(d, r.trace[k])
  {
    var r := Replace(d, a, e);
    if !r.ok {
      FailureUnsynced(d, a, e);
    } else {
      var renamed := UpToRename(d, a, e) + [Step5(d, a, e)];
      StepsUnsynced(d, a, e);
      AllUnsyncedAppend(d, UpToRename(d, a, e), Step5(d, a, e));
      assert k < |renamed| ==> r.trace[k] == renamed[k];
    }
  }

  /** Every version a run may leave is the data of one of its calls, whole. */
  lemma {:induction false} OffersAreAsked(d: Disk, evs: seq<Event>, v: Option<Version>)
    requires v in Offers(d, evs)
    ensures v.Some? && exists n :: 0 <= n < |evs| && !evs[n].PowerLoss? && evs[n].a.data == v.value.data
    decreases |evs|
  {
    if Renames(d, evs[0]) && v == Some(Offered(d, evs[0].a, evs[0].e)) {
      assert !evs[0].PowerLoss? && v.value.data == evs[0].a.data;
    } else {
      OffersAreAsked(Do(d, evs[0]), evs[1..], v);
      var n :| 0 <= n < |evs[1..]| && !evs[1..][n].PowerLoss? && evs[1..][n].a.data == v.value.data;
      assert evs[n + 1] == evs[1..][n];
    }
  }

  // ---- the directory's own mode ------------------------------------------------------------------

  /** None: the directory does not exist. */
  function EnsureDirMode(current: Option<Mode>, mode: Mode, chmodFails: bool): (r: Option<Mode>)
    ensures r.Some? <==> current.Some?
    ensures r.Some? ==> r.value <= current.value
    ensures r.Some? && !chmodFails ==> r.value <= mode && current.value * mode <= r.value
  {
    if current.Some? && current.value - mode != {} && !chmodFails then Some(current.value * mode)
    else
      assert current.Some? && !chmodFails ==> forall b :: b in current.value ==> b !in current.value - mode;
      current
  }

  const ALL_FOR_ALL: Mode := {0, 1, 2, 3, 4, 5, 6, 7, 8}  // 0o777

  /** mkdir with its mode applies only to a directory it creates. */
  function MakeDir(current: Option<Mode>, mode: Option<Mode>, umask: Mode): Mode {
    if current.Some? then current.value else (if mode.Some? then mode.value else ALL_FOR_ALL) - umask
  }

  function PreparedDir(current: Option<Mode>, mode: Option<Mode>, umask: Mode, chmodFails: bool): Option<Mode> {
    var made := Some(MakeDir(current, mode, umask));
    if mode.Some? then EnsureDirMode(made, mode.value, chmodFails) else made
  }

  /** A directory is never loosened, and ends within the requested mode unless its own chmod failed on an old one. */
  lemma DirectoryOnlyTightens(current: Option<Mode>, mode: Option<Mode>, umask: Mode, chmodFails: bool)
    ensures
      var after := PreparedDir(current, mode, umask, chmodFails);
      && after.Some? && (current.Some? ==> after.value <= current.value)
      && (mode.Some? ==>
            (after.value <= mode.value <==> current.None? || current.value <= mode.value || !chmodFails))
  {
    if current.Some? && mode.Some? {
      assert current.value - mode.value == {} <==> current.value <= mode.value by {
        assert current.value - mode.value == {} ==> forall b :: b in current.value ==> b !in current.value - mode.value;
      }
    }
  }

  // ---- the code ----------------------------------------------------------------------------------

  class FileSystem {
    var disk: Disk
    var dirMode: Option<Mode>
    /** The disks the current call has passed through. */
    ghost var passed: seq<Disk>

    constructor (d: Disk, mode: Option<Mode>)
      ensures disk == d && dirMode == mode
    {
      disk, dirMode, passed := d, mode, [d];
    }

    method Reach(d: Disk)
      modifies this`disk, this`passed
      ensures disk == d && passed == old(passed) + [d]
    {
      disk, passed := d, passed + [d];
    }

    method Tighten(mode: Mode, chmodFails: bool)
      modifies this`dirMode
      ensures dirMode == EnsureDirMode(old(dirMode), mode, chmodFails)
    {
      if dirMode.Some? && dirMode.value - mode != {} {
        if !chmodFails { dirMode := Some(dirMode.value * mode); }
      }
    }

    method PrepareDir(mode: Option<Mode>, umask: Mode, chmodFails: bool)
      modifies this`dirMode
      ensures dirMode == PreparedDir(old(dirMode), mode, umask, chmodFails)
    {
      if dirMode.None? { dirMode := Some((if mode.Some? then mode.value else ALL_FOR_ALL) - umask); }
      if mode.Some? { Tighten(mode.value, chmodFails); }
    }

    /** Opens the temp file, forces its mode and writes it. */
    method FillTmp(a: Args, e: Env) returns (fd: nat)
      requires passed == [disk]
      modifies this`disk, this`passed
      ensures fd == TmpInode(old(disk))
      ensures disk == Step3(old(disk), a, e) && passed == UpToWrite(old(disk), a, e)
    {
      fd := TmpInode(disk);
      Reach(OpenTmp(disk, if a.mode.Some? then a.mode.value else RW_FOR_ALL, e.umask));
      if a.mode.Some? && !e.chmodFails { Reach(SetMode(disk, fd, a.mode.value)); } else { Reach(disk); }
      Reach(SetData(disk, fd, if e.writeFails.Some? then e.writeFails.value else a.data));
    }

    method FlushTmp(fd: nat, a: Args, e: Env, ghost d: Disk)
      requires fd == TmpInode(d) && disk == Step3(d, a, e) && passed == UpToWrite(d, a, e)
      modifies this`disk, this`passed
      ensures disk == Step4(d, a, e) && passed == UpToRename(d, a, e)
    {
      if a.fsync { Reach(Fsync(disk, fd)); } else { Reach(disk); }
    }

    /** The try block: every call up to the rename. Returns whether the rename was reached. */
    method TryReplace(a: Args, e: Env) returns (renamed: bool)
      requires passed == [disk] && !e.mkdirFails
      modifies this`disk, this`passed
      ensures renamed <==> Replace(old(disk), a, e).ok
      ensures renamed ==> disk == Step5(old(disk), a, e)
      ensures renamed ==>
                Replace(old(disk), a, e).trace == passed + (if a.fsync && !e.dirSyncFails then [SyncDir(disk)] else [])
      ensures renamed ==> passed != [] && passed[|passed| - 1] == disk
      ensures !renamed ==> passed + [Cleaned(disk, e)] == Replace(old(disk), a, e).trace
    {
      ghost var d := disk;
      if e.openFails { return false; }
      var fd := FillTmp(a, e);
      if e.writeFails.Some? || (a.fsync && e.fsyncFails) { return false; }
      FlushTmp(fd, a, e, d);
      if e.closeFails || e.renameFails { return false; }
      Reach(Journal(disk, RenameTmp(fd)));
      return true;
    }

    method WriteFileAtomic(a: Args, e: Env, mode: Option<Mode>, dirChmodFails: bool) returns (ok: bool)
      modifies this
      ensures passed == Replace(old(disk), a, e).trace && disk == Last(Replace(old(disk), a, e))
      ensures ok == Replace(old(disk), a, e).ok
      ensures dirMode == if e.mkdirFails then old(dirMode) else PreparedDir(old(dirMode), mode, e.umask, dirChmodFails)
    {
      passed := [disk];
      if e.mkdirFails { return false; }
      PrepareDir(mode, e.umask, dirChmodFails);
      ok := TryReplace(a, e);
      if !ok {
        Reach(if e.unlinkFails then disk else Journal(disk, UnlinkTmp));
        return;
      }
      if a.fsync && !e.dirSyncFails { Reach(SyncDir(disk)); }
    }
  }
}
