/**
 Egress rollups (broadcaster/src/analytics.js): per-run byte counters sampled every few minutes become
 deltas in the current hour's bucket, which is reduced into the day's file when the hour is over.

 Peers gauges, respawns and incidents ride the same records and are not modelled. Hours and days are UTC,
 from a clock in milliseconds that may jump either way.
 */
module EgressRollup {
  import opened MapSums

  const HOUR_MS := 3600000
  const DAY_MS := 24 * HOUR_MS

  type Id = string

  /** One hour's entry, and one day's file: hour -> entry. */
  type Entry = map<Id, nat>

  type Day = map<int, Entry>

  datatype Bucket = Bucket(hourStart: int, egress: Entry)

  datatype Today = Today(date: int, hours: Day)

  datatype State = State(bucket: Bucket, today: Today, files: map<int, Day>, lastCum: map<Id, nat>)

  function DateOf(t: int): int { t / DAY_MS }

  function HourOf(t: int): int { t / HOUR_MS % 24 }

  function HourStart(t: int): int { t / HOUR_MS * HOUR_MS }

  // ---- rolling over ----------------------------------------------------------------------------

  /** Same-hour collision: counters add up. */
  function Merge(prev: Entry, entry: Entry): Entry {
    map id | id in prev.Keys + entry.Keys :: Get(prev, id) + Get(entry, id)
  }

  function ReducedHours(s: State): Day {
    var h := HourOf(s.bucket.hourStart);
    s.today.hours[h := if h in s.today.hours then Merge(s.today.hours[h], s.bucket.egress) else s.bucket.egress]
  }

  /**
   The bucket goes into its hour, and the day's file is written. (When the write throws, the file stays as it
   was.)
   */
  function Reduced(s: State): State {
    s.(today := s.today.(hours := ReducedHours(s)), files := s.files[s.today.date := ReducedHours(s)])
  }

  /** What the file system does in one roll: whether the day's file is written, and the next day's read. */
  datatype Io = Io(written: bool, readable: bool)

  const DONE := Io(true, true)
  const THREW := Io(false, true)

  /** An unreadable or mislabelled file counts as none. */
  function ReadDay(files: map<int, Day>, date: int, readable: bool): Today {
    Today(date, if readable && date in files then files[date] else map[])
  }

  function NewBucket(now: int): Bucket { Bucket(HourStart(now), map[]) }

  function Stale(files: map<int, Day>, now: int, retentionDays: nat): set<int> {
    set d | d in files && d < DateOf(now - retentionDays * DAY_MS)
  }

  /** The day's file is read before the old files are pruned. */
  function Opened(files: map<int, Day>, lastCum: map<Id, nat>, now: int, readable: bool, retentionDays: nat): State {
    State(NewBucket(now), ReadDay(files, DateOf(now), readable), files - Stale(files, now, retentionDays), lastCum)
  }

  /** The day or the hour of the bucket is over: it has to be reduced. */
  predicate Due(s: State, now: int) { s.today.date != DateOf(now) || HourStart(now) != s.bucket.hourStart }

  /** When the write throws, the hour is merged already and the bucket is as full as before. */
  function Roll(s: State, now: int, io: Io, retentionDays: nat): State {
    if !Due(s, now) then s
    else if !io.written then s.(today := Reduced(s).today)
    else if s.today.date != DateOf(now) then Opened(Reduced(s).files, s.lastCum, now, io.readable, retentionDays)
    else Reduced(s).(bucket := NewBucket(now))
  }

  // ---- sampling --------------------------------------------------------------------------------

  /** A shrink is a restart: the whole new cumulative counts. */
  function Delta(last: nat, cum: nat): nat { if cum >= last then cum - last else cum }

  function DeltaOf(lastCum: map<Id, nat>, samples: map<Id, nat>, id: Id): nat {
    if id in samples then Delta(Get(lastCum, id), samples[id]) else 0
  }

  function Counted(egress: Entry, lastCum: map<Id, nat>, samples: map<Id, nat>): Entry {
    map id | id in egress.Keys + samples.Keys :: Get(egress, id) + DeltaOf(lastCum, samples, id)
  }

  /** Channels that stopped sampling are forgotten. */
  function Sampled(s: State, samples: map<Id, nat>): State {
    s.(bucket := s.bucket.(egress := Counted(s.bucket.egress, s.lastCum, samples)), lastCum := samples)
  }

  datatype Event = Tick(now: int, io: Io, samples: map<Id, nat>) | Api(now: int, io: Io)

  /** The roll throws, and the tick or the answer with it. */
  predicate Fails(s: State, ev: Event) { Due(s, ev.now) && !ev.io.written }

  function Step(s: State, ev: Event, retentionDays: nat): State {
    var t := Roll(s, ev.now, ev.io, retentionDays);
    if ev.Tick? && !Fails(s, ev) then Sampled(t, ev.samples) else t
  }

  /** A new process: the files there are, an empty hour, and no memory of the counters. */
  function Boot(files: map<int, Day>, now: int, readable: bool, retentionDays: nat): State {
    Opened(files, map[], now, readable, retentionDays)
  }

  function Run(s: State, evs: seq<Event>, retentionDays: nat): State
    decreases |evs|
  {
    if evs == [] then s else Run(Step(s, evs[0], retentionDays), evs[1..], retentionDays)
  }

  // ---- what is on record -----------------------------------------------------------------------

  function HourColumn(day: Day, id: Id): map<int, nat> { map h | h in day :: Get(day[h], id) }

  ghost function DayTotal(day: Day, id: Id): nat { Sum(HourColumn(day, id)) }

  ghost function DayColumn(files: map<int, Day>, id: Id): map<int, nat> { map d | d in files :: DayTotal(files[d], id) }

  ghost function FilesTotal(files: map<int, Day>, id: Id): nat { Sum(DayColumn(files, id)) }

  /** The days as they are served: today from memory, the others from their files. */
  function Days(s: State): map<int, Day> { s.files[s.today.date := s.today.hours] }

  /** Everything recorded for a channel: every hour of every day served, and the live bucket. */
  ghost function Recorded(s: State, id: Id): nat { FilesTotal(Days(s), id) + Get(s.bucket.egress, id) }

  /** A step that opens another day, after the reduce has been written. */
  predicate Reopens(s: State, ev: Event) { s.today.date != DateOf(ev.now) && ev.io.written }

  /** What pruning takes away in one step. */
  ghost function Pruned(s: State, ev: Event, retentionDays: nat, id: Id): nat {
    if Reopens(s, ev) then
      var files := Reduced(s).files; Sum(Within(DayColumn(files, id), Stale(files, ev.now, retentionDays)))
    else 0
  }

  /** What the file of the day that is opened holds, when it cannot be read: the next write replaces it. */
  ghost function Unread(s: State, ev: Event, id: Id): nat {
    if Reopens(s, ev) && !ev.io.readable then Get(DayColumn(Reduced(s).files, id), DateOf(ev.now)) else 0
  }

  /** What a failed write leaves both in the day and in the bucket. */
  function Doubled(s: State, ev: Event, id: Id): nat { if Fails(s, ev) then Get(s.bucket.egress, id) else 0 }

  ghost function AllGone(s: State, evs: seq<Event>, retentionDays: nat, id: Id): nat
    decreases |evs|
  {
    if evs == [] then 0
    else
      Pruned(s, evs[0], retentionDays, id) + Unread(s, evs[0], id) +
      AllGone(Step(s, evs[0], retentionDays), evs[1..], retentionDays, id)
  }

  function AllDoubled(s: State, evs: seq<Event>, retentionDays: nat, id: Id): nat
    decreases |evs|
  {
    if evs == [] then 0
    else Doubled(s, evs[0], id) + AllDoubled(Step(s, evs[0], retentionDays), evs[1..], retentionDays, id)
  }

  function DeltaAt(s: State, ev: Event, id: Id): nat {
    if ev.Tick? && !Fails(s, ev) then DeltaOf(s.lastCum, ev.samples, id) else 0
  }

  function AllDeltas(s: State, evs: seq<Event>, retentionDays: nat, id: Id): nat
    decreases |evs|
  {
    if evs == [] then 0
    else DeltaAt(s, evs[0], id) + AllDeltas(Step(s, evs[0], retentionDays), evs[1..], retentionDays, id)
  }

  /** The copy of today's hours in memory is what its file holds, if it has been written. */
  predicate Mirrors(s: State) {
    if s.today.date in s.files then s.files[s.today.date] == s.today.hours else s.today.hours == map[]
  }

  lemma ReducedColumn(s: State, id: Id)
    ensures
      var h, was := HourOf(s.bucket.hourStart), HourColumn(s.today.hours, id);
      HourColumn(ReducedHours(s), id) == was[h := Get(was, h) + Get(s.bucket.egress, id)]
  {}

  lemma ReducedHoursTotal(s: State, id: Id)
    ensures DayTotal(ReducedHours(s), id) == DayTotal(s.today.hours, id) + Get(s.bucket.egress, id)
  {
    var h := HourOf(s.bucket.hourStart);
    var was := HourColumn(s.today.hours, id);
    ReducedColumn(s, id);
    SumUpdate(was, h, Get(was, h) + Get(s.bucket.egress, id));
  }

  lemma FilesUpdate(files: map<int, Day>, d: int, day: Day, id: Id)
    ensures FilesTotal(files[d := day], id) + Get(DayColumn(files, id), d) == FilesTotal(files, id) + DayTotal(day, id)
  {
    var was, total := DayColumn(files, id), DayTotal(day, id);
    assert DayColumn(files[d := day], id) == was[d := total];
    SumUpdate(was, d, total);
  }

  /** Once written, a reduce leaves everything on record in the files: nothing is lost and nothing counted twice. */
  lemma ReducedKeepsTotal(s: State, id: Id)
    ensures FilesTotal(Reduced(s).files, id) == Recorded(s, id)
  {
    ReducedHoursTotal(s, id);
    FilesUpdate(s.files, s.today.date, s.today.hours, id);
    FilesUpdate(s.files, s.today.date, ReducedHours(s), id);
  }

  lemma PrunedKeepsRest(files: map<int, Day>, stale: set<int>, id: Id)
    ensures FilesTotal(files - stale, id) + Sum(Within(DayColumn(files, id), stale)) == FilesTotal(files, id)
  {
    SumSplit(DayColumn(files, id), stale);
    assert DayColumn(files - stale, id) == DayColumn(files, id) - stale;
  }

  /** The day's own file is never the one pruned. */
  lemma TodayIsNotStale(files: map<int, Day>, now: int, retentionDays: nat)
    ensures DateOf(now) !in Stale(files, now, retentionDays)
  {
    assert now - retentionDays * DAY_MS <= now;
  }

  lemma EmptyDay(id: Id)
    ensures DayTotal(map[], id) == 0
  {
    assert HourColumn(map[], id) == map[];
  }

  /** Opening a day serves what the files hold, without what is pruned and what cannot be read. */
  lemma OpenedServes(files: map<int, Day>, lastCum: map<Id, nat>, now: int, readable: bool, retentionDays: nat, id: Id)
    ensures
      var t, d := Opened(files, lastCum, now, readable, retentionDays), DateOf(now);
      && Recorded(t, id) + Sum(Within(DayColumn(files, id), Stale(files, now, retentionDays)))
         + (if readable then 0 else Get(DayColumn(files, id), d)) == FilesTotal(files, id)
      && (readable ==> Mirrors(t))
  {
    var t, d := Opened(files, lastCum, now, readable, retentionDays), DateOf(now);
    TodayIsNotStale(files, now, retentionDays);
    PrunedKeepsRest(files, Stale(files, now, retentionDays), id);
    FilesUpdate(t.files, d, t.today.hours, id);
    EmptyDay(id);
  }

  /** A write that throws leaves the bucket in the day as served, and in the bucket. */
  lemma FailedRollDoubles(s: State, id: Id)
    ensures Recorded(s.(today := Reduced(s).today), id) == Recorded(s, id) + Get(s.bucket.egress, id)
  {
    assert Days(s.(today := Reduced(s).today)) == Reduced(s).files;
    ReducedKeepsTotal(s, id);
  }

  /**
   A roll changes the record only by what it prunes or cannot read, and by what a failed write leaves twice;
   and one that writes and reads leaves memory the mirror of the file.
   */
  lemma RollConserves(s: State, ev: Event, retentionDays: nat, id: Id)
    ensures
      var t := Roll(s, ev.now, ev.io, retentionDays);
      && Recorded(t, id) + Pruned(s, ev, retentionDays, id) + Unread(s, ev, id) == Recorded(s, id) + Doubled(s, ev, id)
      && (!Fails(s, ev) && ev.io.readable && (Mirrors(s) || Due(s, ev.now)) ==> Mirrors(t))
  {
    if !Due(s, ev.now) {
    } else if !ev.io.written {
      FailedRollDoubles(s, id);
    } else {
      ReducedKeepsTotal(s, id);
      if Reopens(s, ev) {
        OpenedServes(Reduced(s).files, s.lastCum, ev.now, ev.io.readable, retentionDays, id);
      } else {
        assert Days(Reduced(s)) == Reduced(s).files;
      }
    }
  }

  /** A step adds its delta to the record. */
  lemma StepConserves(s: State, ev: Event, retentionDays: nat, id: Id)
    ensures
      Recorded(Step(s, ev, retentionDays), id) + Pruned(s, ev, retentionDays, id) + Unread(s, ev, id) ==
      Recorded(s, id) + DeltaAt(s, ev, id) + Doubled(s, ev, id)
  {
    RollConserves(s, ev, retentionDays, id);
    var t := Roll(s, ev.now, ev.io, retentionDays);
    assert Days(Step(s, ev, retentionDays)) == Days(t) && t.lastCum == s.lastCum;
  }

  /**
   Over any ticks and reads, with hours and days rolling over, hours met twice, any clock, and writes and reads
   that fail: what is served and the live bucket, with what was pruned or could not be read, is what was there
   at the start, the sum of the deltas, and each bucket found full by a write that failed.
   */
  lemma {:induction false} RollupConserves(s: State, evs: seq<Event>, retentionDays: nat, id: Id)
    ensures
      Recorded(Run(s, evs, retentionDays), id) + AllGone(s, evs, retentionDays, id) ==
      Recorded(s, id) + AllDeltas(s, evs, retentionDays, id) + AllDoubled(s, evs, retentionDays, id)
    decreases |evs|
  {
    if evs == [] {
    } else {
      StepConserves(s, evs[0], retentionDays, id);
      RollupConserves(Step(s, evs[0], retentionDays), evs[1..], retentionDays, id);
    }
  }

  /** The n-th event's write fails while the bucket holds bytes of the channel. */
  predicate DoublesAt(s: State, evs: seq<Event>, n: nat, retentionDays: nat, id: Id)
    requires n < |evs|
  {
    var before := Run(s, evs[..n], retentionDays);
    Fails(before, evs[n]) && Get(before.bucket.egress, id) > 0
  }

  lemma {:induction false} NoneDoubledIff(s: State, evs: seq<Event>, retentionDays: nat, id: Id)
    ensures
      AllDoubled(s, evs, retentionDays, id) == 0 <==>
        forall n :: 0 <= n < |evs| ==> !DoublesAt(s, evs, n, retentionDays, id)
    decreases |evs|
  {
    if evs == [] {
    } else {
      var t, rest := Step(s, evs[0], retentionDays), evs[1..];
      NoneDoubledIff(t, rest, retentionDays, id);
      assert DoublesAt(s, evs, 0, retentionDays, id) <==> Doubled(s, evs[0], id) > 0;
      forall n: nat | n < |rest|
        ensures DoublesAt(s, evs, n + 1, retentionDays, id) == DoublesAt(t, rest, n, retentionDays, id)
      {
        assert evs[..n + 1][1..] == rest[..n];
      }
      assert forall m :: 1 <= m < |evs| ==>
        DoublesAt(s, evs, m, retentionDays, id) == DoublesAt(t, rest, m - 1, retentionDays, id);
    }
  }

  /** The record of a channel is conserved exactly when no write failed with bytes of it in the bucket. */
  lemma ConservedIff(s: State, evs: seq<Event>, retentionDays: nat, id: Id)
    ensures
      var recorded := Recorded(Run(s, evs, retentionDays), id) + AllGone(s, evs, retentionDays, id);
      recorded == Recorded(s, id) + AllDeltas(s, evs, retentionDays, id)
      <==> forall n :: 0 <= n < |evs| ==> !DoublesAt(s, evs, n, retentionDays, id)
  {
    RollupConserves(s, evs, retentionDays, id);
    NoneDoubledIff(s, evs, retentionDays, id);
  }

  /** It does happen: an hour of n bytes whose write throws once is n bytes on record twice. */
  lemma RetriedReduceDoubles(id: Id, n: nat, retentionDays: nat)
    ensures
      var s := Boot(map[], 0, true, retentionDays);
      var evs := [Tick(0, DONE, map[id := n]), Api(HOUR_MS, THREW), Api(HOUR_MS, DONE)];
      Recorded(s, id) == 0 && Recorded(Run(s, evs, retentionDays), id) == 2 * n
  {
    var s := Boot(map[], 0, true, retentionDays);
    OpenedServes(map[], map[], 0, true, retentionDays, id);
    assert DayColumn(map[], id) == map[];
    var t := Step(s, Tick(0, DONE, map[id := n]), retentionDays);
    StepConserves(s, Tick(0, DONE, map[id := n]), retentionDays, id);
    RetryDoubles(t, HOUR_MS, retentionDays, id);
    var evs := [Tick(0, DONE, map[id := n]), Api(HOUR_MS, THREW), Api(HOUR_MS, DONE)];
    assert evs[1..] == [Api(HOUR_MS, THREW), Api(HOUR_MS, DONE)];
  }

  /** A roll that throws once within its day and is then tried again counts the bucket once more. */
  lemma RetryDoubles(s: State, now: int, retentionDays: nat, id: Id)
    requires Due(s, now) && s.today.date == DateOf(now)
    ensures
      Recorded(Run(s, [Api(now, THREW), Api(now, DONE)], retentionDays), id) ==
        Recorded(s, id) + Get(s.bucket.egress, id)
  {
    var evs, t := [Api(now, THREW), Api(now, DONE)], Step(s, Api(now, THREW), retentionDays);
    StepConserves(s, evs[0], retentionDays, id);
    StepConserves(t, evs[1], retentionDays, id);
    assert evs[1..] == [evs[1]] && evs[1..][1..] == [];
    assert Run(t, [evs[1]], retentionDays) == Step(t, evs[1], retentionDays);
  }

  // ---- what is on disk -------------------------------------------------------------------------

  /** What the files hold for a channel, and the live bucket. */
  ghost function OnDisk(s: State, id: Id): nat { FilesTotal(s.files, id) + Get(s.bucket.egress, id) }

  /** How much more the day in memory holds than its file does; less than nothing when the file was not read. */
  ghost function Ahead(s: State, id: Id): int {
    DayTotal(s.today.hours, id) - Get(DayColumn(s.files, id), s.today.date)
  }

  lemma RecordedIsOnDisk(s: State, id: Id)
    ensures Recorded(s, id) == OnDisk(s, id) + Ahead(s, id)
  {
    FilesUpdate(s.files, s.today.date, s.today.hours, id);
  }

  /** While memory mirrors the file, the files and the bucket alone hold the record. */
  lemma MirroredIsOnDisk(s: State, id: Id)
    requires Mirrors(s)
    ensures Ahead(s, id) == 0 && OnDisk(s, id) == Recorded(s, id)
  {
    RecordedIsOnDisk(s, id);
    EmptyDay(id);
  }

  /**
   A failed write puts memory ahead by the bucket; a written roll levels the two, but for a file it opens and
   cannot read.
   */
  ghost function AheadAfter(s: State, ev: Event, id: Id, was: int): int {
    if !Due(s, ev.now) then was else if Fails(s, ev) then was + Get(s.bucket.egress, id) else 0 - Unread(s, ev, id)
  }

  ghost function AllAhead(s: State, evs: seq<Event>, retentionDays: nat, id: Id, was: int): int
    decreases |evs|
  {
    if evs == [] then was
    else AllAhead(Step(s, evs[0], retentionDays), evs[1..], retentionDays, id, AheadAfter(s, evs[0], id, was))
  }

  lemma OpenedAhead(files: map<int, Day>, lastCum: map<Id, nat>, now: int, readable: bool, retentionDays: nat, id: Id)
    ensures
      Ahead(Opened(files, lastCum, now, readable, retentionDays), id) ==
      if readable then 0 else 0 - Get(DayColumn(files, id), DateOf(now))
  {
    TodayIsNotStale(files, now, retentionDays);
    EmptyDay(id);
  }

  lemma StepAhead(s: State, ev: Event, retentionDays: nat, id: Id)
    ensures Ahead(Step(s, ev, retentionDays), id) == AheadAfter(s, ev, id, Ahead(s, id))
  {
    if Fails(s, ev) {
      ReducedHoursTotal(s, id);
    } else if Reopens(s, ev) {
      OpenedAhead(Reduced(s).files, s.lastCum, ev.now, ev.io.readable, retentionDays, id);
    }
  }

  lemma {:induction false} RunAhead(s: State, evs: seq<Event>, retentionDays: nat, id: Id)
    ensures Ahead(Run(s, evs, retentionDays), id) == AllAhead(s, evs, retentionDays, id, Ahead(s, id))
    decreases |evs|
  {
    if evs == [] {
    } else {
      StepAhead(s, evs[0], retentionDays, id);
      RunAhead(Step(s, evs[0], retentionDays), evs[1..], retentionDays, id);
    }
  }

  /**
   Over any run, failed writes and reads included: what the files and the live bucket hold, with what was pruned
   or could not be read and what is ahead of its file in memory, accounts for every delta and every doubled bucket.
   */
  lemma DiskConserves(s: State, evs: seq<Event>, retentionDays: nat, id: Id)
    ensures
      OnDisk(Run(s, evs, retentionDays), id) + AllGone(s, evs, retentionDays, id)
      + AllAhead(s, evs, retentionDays, id, Ahead(s, id)) ==
      OnDisk(s, id) + Ahead(s, id) + AllDeltas(s, evs, retentionDays, id) + AllDoubled(s, evs, retentionDays, id)
  {
    RollupConserves(s, evs, retentionDays, id);
    RunAhead(s, evs, retentionDays, id);
    RecordedIsOnDisk(s, id);
    RecordedIsOnDisk(Run(s, evs, retentionDays), id);
  }

  predicate AllDone(evs: seq<Event>) { forall n :: 0 <= n < |evs| ==> evs[n].io == DONE }

  /** While every write and read succeeds, memory stays the mirror of the file. */
  lemma {:induction false} RunMirrors(s: State, evs: seq<Event>, retentionDays: nat)
    requires Mirrors(s) && AllDone(evs)
    ensures Mirrors(Run(s, evs, retentionDays))
    decreases |evs|
  {
    if evs == [] {
    } else {
      RollConserves(s, evs[0], retentionDays, "");
      RunMirrors(Step(s, evs[0], retentionDays), evs[1..], retentionDays);
    }
  }

  /** And then the files and the live bucket conserve the deltas by themselves. */
  lemma FilesHoldTheRecord(s: State, evs: seq<Event>, retentionDays: nat, id: Id)
    requires Mirrors(s) && AllDone(evs)
    ensures
      OnDisk(Run(s, evs, retentionDays), id) + AllGone(s, evs, retentionDays, id) ==
      OnDisk(s, id) + AllDeltas(s, evs, retentionDays, id)
  {
    RunMirrors(s, evs, retentionDays);
    MirroredIsOnDisk(s, id);
    MirroredIsOnDisk(Run(s, evs, retentionDays), id);
    RollupConserves(s, evs, retentionDays, id);
    NoneDoubledIff(s, evs, retentionDays, id);
  }

  // ---- restarts --------------------------------------------------------------------------------

  /** What a process that starts on these files prunes, and what it cannot read. */
  ghost function BootGone(files: map<int, Day>, now: int, readable: bool, retentionDays: nat, id: Id): nat {
    Sum(Within(DayColumn(files, id), Stale(files, now, retentionDays)))
    + (if readable then 0 else Get(DayColumn(files, id), DateOf(now)))
  }

  /** One process: what it did, and the start of the next. */
  datatype Life = Life(evs: seq<Event>, now: int, readable: bool)

  function Restarted(s: State, life: Life, retentionDays: nat): State {
    Boot(Run(s, life.evs, retentionDays).files, life.now, life.readable, retentionDays)
  }

  /**
   The hour in progress, and what only memory held: less than nothing when the restart reads a file that was
   not read.
   */
  ghost function RestartLoss(s: State, life: Life, retentionDays: nat, id: Id): int {
    Get(Run(s, life.evs, retentionDays).bucket.egress, id) + AllAhead(s, life.evs, retentionDays, id, Ahead(s, id))
  }

  /**
   A restart loses exactly the live bucket and what memory was ahead, besides what the new process prunes or
   cannot read.
   */
  lemma RestartLosesExactly(s: State, life: Life, retentionDays: nat, id: Id)
    ensures
      var t := Run(s, life.evs, retentionDays);
      Recorded(Restarted(s, life, retentionDays), id) + BootGone(t.files, life.now, life.readable, retentionDays, id)
      + RestartLoss(s, life, retentionDays, id) == Recorded(t, id)
  {
    var t := Run(s, life.evs, retentionDays);
    RunAhead(s, life.evs, retentionDays, id);
    RecordedIsOnDisk(t, id);
    OpenedServes(t.files, map[], life.now, life.readable, retentionDays, id);
  }

  function AllLives(s: State, lives: seq<Life>, retentionDays: nat): State
    decreases |lives|
  {
    if lives == [] then s else AllLives(Restarted(s, lives[0], retentionDays), lives[1..], retentionDays)
  }

  /** What one process adds to the record, less what its end and the next start take away. */
  ghost function Balance(s: State, life: Life, retentionDays: nat, id: Id): int {
    AllDeltas(s, life.evs, retentionDays, id) + AllDoubled(s, life.evs, retentionDays, id)
    - AllGone(s, life.evs, retentionDays, id) - RestartLoss(s, life, retentionDays, id)
    - BootGone(Run(s, life.evs, retentionDays).files, life.now, life.readable, retentionDays, id)
  }

  ghost function AllBalances(s: State, lives: seq<Life>, retentionDays: nat, id: Id): int
    decreases |lives|
  {
    if lives == [] then 0
    else
      Balance(s, lives[0], retentionDays, id) +
      AllBalances(Restarted(s, lives[0], retentionDays), lives[1..], retentionDays, id)
  }

  /** So the books balance over any number of processes, however each of them went. */
  lemma {:induction false} RestartsConserve(s: State, lives: seq<Life>, retentionDays: nat, id: Id)
    ensures Recorded(AllLives(s, lives, retentionDays), id) ==
            Recorded(s, id) + AllBalances(s, lives, retentionDays, id)
    decreases |lives|
  {
    if lives == [] {
    } else {
      RollupConserves(s, lives[0].evs, retentionDays, id);
      RestartLosesExactly(s, lives[0], retentionDays, id);
      RestartsConserve(Restarted(s, lives[0], retentionDays), lives[1..], retentionDays, id);
    }
  }

  // ---- which days are kept ---------------------------------------------------------------------

  lemma DaysApart(now: int, i: int)
    ensures DateOf(now - i * DAY_MS) == DateOf(now) - i
  {}

  /** Opening a day keeps exactly the files of the last `retentionDays` days, and keeps them as they are. */
  lemma OpenedKeepsExactly(files: map<int, Day>, lastCum: map<Id, nat>, now: int, readable: bool, retentionDays: nat)
    ensures
      Opened(files, lastCum, now, readable, retentionDays).files ==
      map d | d in files && DateOf(now) <= d + retentionDays :: files[d]
  {
    DaysApart(now, retentionDays);
  }

  /** The clock never reads more than the retention past the day. */
  predicate WithinRetention(evs: seq<Event>, d: int, retentionDays: nat) {
    forall n :: 0 <= n < |evs| ==> DateOf(evs[n].now) <= d + retentionDays
  }

  predicate NeverToday(s: State, evs: seq<Event>, d: int) {
    s.today.date != d && forall n :: 0 <= n < |evs| ==> DateOf(evs[n].now) != d
  }

  lemma StepRetains(s: State, ev: Event, retentionDays: nat, d: int)
    requires d in s.files && DateOf(ev.now) <= d + retentionDays
    ensures
      var t := Step(s, ev, retentionDays);
      && d in t.files && (s.today.date != d ==> t.files[d] == s.files[d])
      && (t.today.date == s.today.date || t.today.date == DateOf(ev.now))
  {
    OpenedKeepsExactly(Reduced(s).files, s.lastCum, ev.now, ev.io.readable, retentionDays);
  }

  /** A day on file stays on file while the clock is within the retention of it, and unchanged unless it is today. */
  lemma {:induction false} RetainedDayStays(s: State, evs: seq<Event>, retentionDays: nat, d: int)
    requires d in s.files && WithinRetention(evs, d, retentionDays)
    ensures d in Run(s, evs, retentionDays).files
    ensures NeverToday(s, evs, d) ==> Run(s, evs, retentionDays).files[d] == s.files[d]
    decreases |evs|
  {
    if evs == [] {
    } else {
      var t := Step(s, evs[0], retentionDays);
      StepRetains(s, evs[0], retentionDays, d);
      RetainedDayStays(t, evs[1..], retentionDays, d);
      if NeverToday(s, evs, d) { assert NeverToday(t, evs[1..], d); }
    }
  }

  /** And a day older than that is gone once another day has been opened, or the process restarted. */
  lemma OlderDayGoes(s: State, ev: Event, retentionDays: nat, d: int)
    requires d + retentionDays < DateOf(ev.now)
    ensures s.today.date != DateOf(ev.now) && ev.io.written ==> d !in Step(s, ev, retentionDays).files
    ensures d !in Boot(s.files, ev.now, ev.io.readable, retentionDays).files
  {
    OpenedKeepsExactly(Reduced(s).files, s.lastCum, ev.now, ev.io.readable, retentionDays);
    OpenedKeepsExactly(s.files, map[], ev.now, ev.io.readable, retentionDays);
  }

  /** A restart keeps what is within the retention, as it is. */
  lemma RestartRetains(files: map<int, Day>, now: int, readable: bool, retentionDays: nat, d: int)
    requires d in files && DateOf(now) <= d + retentionDays
    ensures
      var t := Boot(files, now, readable, retentionDays);
      d in t.files && t.files[d] == files[d] && (d == DateOf(now) && readable ==> Days(t)[d] == files[d])
  {
    OpenedKeepsExactly(files, map[], now, readable, retentionDays);
  }

  // ---- which hour bytes are put under ------------------------------------------------------------

  /** The bucket is an hour of today. */
  predicate Aligned(s: State) {
    exists h :: 0 <= h < 24 && s.bucket.hourStart == HourOfDay(s.today.date, h)
  }

  function HourOfDay(date: int, h: int): int { date * DAY_MS + h * HOUR_MS }

  lemma HourStartIs(now: int)
    ensures 0 <= HourOf(now) < 24
            && HourStart(now) == HourOfDay(DateOf(now), HourOf(now)) <= now < HourStart(now) + HOUR_MS
    ensures HourOf(HourStart(now)) == HourOf(now)
  {
    assert now / HOUR_MS / 24 == now / DAY_MS;
  }

  lemma HourOfDayReadsBack(date: int, h: int)
    requires 0 <= h < 24
    ensures HourOf(HourOfDay(date, h)) == h
  {
    assert HourOfDay(date, h) / HOUR_MS == date * 24 + h;
  }

  lemma StepAligned(s: State, ev: Event, retentionDays: nat)
    requires Aligned(s)
    ensures Aligned(Step(s, ev, retentionDays))
  {
    HourStartIs(ev.now);
    var t := Step(s, ev, retentionDays);
    if t.bucket.hourStart == s.bucket.hourStart && t.today.date == s.today.date {
      var h :| 0 <= h < 24 && s.bucket.hourStart == HourOfDay(s.today.date, h);
      assert t.bucket.hourStart == HourOfDay(t.today.date, h);
    } else {
      assert t.bucket.hourStart == HourOfDay(t.today.date, HourOf(ev.now));
    }
  }

  lemma {:induction false} RunAligned(s: State, evs: seq<Event>, retentionDays: nat)
    requires Aligned(s)
    ensures Aligned(Run(s, evs, retentionDays))
    decreases |evs|
  {
    if evs == [] {
    } else {
      StepAligned(s, evs[0], retentionDays);
      RunAligned(Step(s, evs[0], retentionDays), evs[1..], retentionDays);
    }
  }

  /**
   Over any run from a fresh process, the bucket is an hour of today, and a reduce adds it to that hour of that day
   and leaves every other hour as it was.
   */
  lemma ReducedUnderItsHour(files: map<int, Day>, start: int, readable: bool, evs: seq<Event>, retentionDays: nat,
                            h: int,
                            id: Id)
    requires 0 <= h < 24
    ensures
      var s := Run(Boot(files, start, readable, retentionDays), evs, retentionDays);
      var was, now := s.today.hours, Reduced(s).files[s.today.date];
      if s.bucket.hourStart == HourOfDay(s.today.date, h)
      then h in now && Get(now[h], id) == (if h in was then Get(was[h], id) else 0) + Get(s.bucket.egress, id)
      else (h in now <==> h in was) && (h in was ==> now[h] == was[h])
  {
    var s := Run(Boot(files, start, readable, retentionDays), evs, retentionDays);
    HourStartIs(start);
    assert Aligned(Boot(files, start, readable, retentionDays));
    RunAligned(Boot(files, start, readable, retentionDays), evs, retentionDays);
    var g :| 0 <= g < 24 && s.bucket.hourStart == HourOfDay(s.today.date, g);
    HourOfDayReadsBack(s.today.date, g);
  }

  /** What a tick counts it counts in the hour and the day the clock reads. */
  lemma TickCountsInItsHour(s: State, ev: Event, retentionDays: nat)
    requires ev.Tick? && !Fails(s, ev)
    ensures
      var t := Step(s, ev, retentionDays);
      t.bucket.hourStart <= ev.now < t.bucket.hourStart + HOUR_MS
        && t.today.date * DAY_MS <= ev.now < (t.today.date + 1) * DAY_MS
  {
    HourStartIs(ev.now);
  }

  // ---- against the bytes really sent -----------------------------------------------------------

  /** One tick as one channel sees it: not running, or run number `run` with `cum` bytes sent so far. */
  datatype Seen = Gap | Cum(run: nat, cum: nat)

  /** Runs follow one another, a run's counter never falls, and a run that stopped does not come back. */
  predicate Plausible(seen: seq<Seen>) {
    && (forall i, j :: 0 <= i < j < |seen| && seen[i].Cum? && seen[j].Cum? ==>
          seen[i].run < seen[j].run || (seen[i].run == seen[j].run && seen[i].cum <= seen[j].cum))
    && (forall i, k, j :: 0 <= i < k < j < |seen| && seen[i].Cum? && seen[k].Gap? && seen[j].Cum? ==>
        seen[i].run < seen[j].run)
  }

  function LastOf(seen: seq<Seen>): nat {
    if seen != [] && seen[|seen| - 1].Cum? then seen[|seen| - 1].cum else 0
  }

  /** What the ticks add up for the channel. */
  function DeltaSum(seen: seq<Seen>): nat {
    if seen == [] then 0
    else
      var init, last := seen[..|seen| - 1], seen[|seen| - 1];
      DeltaSum(init) + (if last.Cum? then Delta(LastOf(init), last.cum) else 0)
  }

  /** Bytes of runs whose restart showed neither a gap nor a drop. */
  function Hidden(seen: seq<Seen>): nat {
    if seen == [] then 0
    else
      var init, last := seen[..|seen| - 1], seen[|seen| - 1];
      Hidden(init) +
      (if last.Cum? && init != [] && init[|init| - 1].Cum? && init[|init| - 1].run != last.run
       && last.cum >= LastOf(init)
       then LastOf(init) else 0)
  }

  /** The bytes of each run as last sampled. */
  function LastByRun(seen: seq<Seen>): map<nat, nat> {
    if seen == [] then map[]
    else
      var init, last := seen[..|seen| - 1], seen[|seen| - 1];
      if last.Cum? then LastByRun(init)[last.run := last.cum] else LastByRun(init)
  }

  lemma {:induction false} LastByRunIs(seen: seq<Seen>, run: nat)
    requires run in LastByRun(seen)
    ensures exists i :: 0 <= i < |seen| && seen[i] == Cum(run, LastByRun(seen)[run])
  {
    var n := |seen| - 1;
    if seen[n].Cum? && seen[n].run == run {
    } else {
      LastByRunIs(seen[..n], run);
      var i :| 0 <= i < n && seen[..n][i] == Cum(run, LastByRun(seen[..n])[run]);
      assert seen[i] == Cum(run, LastByRun(seen)[run]);
    }
  }

  /** What is recorded falls short of what was sampled by exactly the hidden restarts. */
  lemma {:induction false} DeltasMissOnlyTheHidden(seen: seq<Seen>)
    requires Plausible(seen)
    ensures DeltaSum(seen) + Hidden(seen) == Sum(LastByRun(seen))
  {
    if seen == [] {
    } else {
      var n := |seen| - 1;
      var init, last := seen[..n], seen[n];
      DeltasMissOnlyTheHidden(init);
      if last.Cum? {
        SumUpdate(LastByRun(init), last.run, last.cum);
        NewestRun(seen);
      }
    }
  }

  /** The last sample's run either carries on from the sample before it or has never been seen. */
  lemma NewestRun(seen: seq<Seen>)
    requires Plausible(seen) && seen != [] && seen[|seen| - 1].Cum?
    ensures
      var n := |seen| - 1;
      var before := LastByRun(seen[..n]);
      if n > 0 && seen[n - 1].Cum? && seen[n - 1].run == seen[n].run
      then seen[n].run in before && before[seen[n].run] == seen[n - 1].cum <= seen[n].cum
      else seen[n].run !in before
  {
    var n := |seen| - 1;
    var run, init := seen[n].run, seen[..n];
    if n > 0 && seen[n - 1].Cum? && seen[n - 1].run == run { assert init[n - 1] == seen[n - 1]; }
    if run in LastByRun(init) { RunStays(seen); }
  }

  lemma RunStays(seen: seq<Seen>)
    requires Plausible(seen) && seen != [] && seen[|seen| - 1].Cum?
             && seen[|seen| - 1].run in LastByRun(seen[..|seen| - 1])
    ensures |seen| > 1 && seen[|seen| - 2].Cum? && seen[|seen| - 2].run == seen[|seen| - 1].run
  {
    var n := |seen| - 1;
    var run, init := seen[n].run, seen[..n];
    LastByRunIs(init, run);
    var i :| 0 <= i < |init| && init[i] == Cum(run, LastByRun(init)[run]);
    assert seen[i] == init[i];
    RunHolds(seen, i);
  }

  /** Between two samples of one run there is nothing but samples of it. */
  lemma RunHolds(seen: seq<Seen>, i: nat)
    requires Plausible(seen) && i < |seen| - 1 && seen[i].Cum? && seen[|seen| - 1].Cum?
             && seen[i].run == seen[|seen| - 1].run
    ensures seen[|seen| - 2].Cum? && seen[|seen| - 2].run == seen[i].run
  {
    var n, k := |seen| - 1, |seen| - 2;
    if i < k {
      assert seen[i].run < seen[n].run || !seen[k].Gap?;
    }
  }

  /**
   Recorded egress never exceeds the bytes really sent; and it equals them exactly when each run's last bytes
   were sampled and every restart showed as a drop or a gap (or followed a run that had sent nothing).
   */
  lemma NeverMoreThanSent(seen: seq<Seen>, sent: map<nat, nat>)
    requires Plausible(seen) && forall run :: run in LastByRun(seen) ==>
             run in sent && LastByRun(seen)[run] <= sent[run]
    ensures DeltaSum(seen) <= Sum(sent)
    ensures DeltaSum(seen) == Sum(sent) <==> Hidden(seen) == 0 && Sum(LastByRun(seen)) == Sum(sent)
  {
    DeltasMissOnlyTheHidden(seen);
    SumMonotone(LastByRun(seen), sent);
  }

  /** The ticks of a run of the collector that were counted, as one channel's sightings. */
  function Sightings(s: State, evs: seq<Event>, retentionDays: nat, id: Id, runs: seq<nat>): seq<Seen>
    requires |runs| == |evs|
  {
    if evs == [] then []
    else
      var n := |evs| - 1;
      Sightings(s, evs[..n], retentionDays, id, runs[..n]) +
      (if evs[n].Api? || Fails(Run(s, evs[..n], retentionDays), evs[n]) then []
       else [if id in evs[n].samples then Cum(runs[n], evs[n].samples[id]) else Gap])
  }

  lemma {:induction false} RunAppend(s: State, evs: seq<Event>, ev: Event, retentionDays: nat, id: Id)
    ensures Run(s, evs + [ev], retentionDays) == Step(Run(s, evs, retentionDays), ev, retentionDays)
    ensures
      AllDeltas(s, evs + [ev], retentionDays, id) ==
      AllDeltas(s, evs, retentionDays, id) + DeltaAt(Run(s, evs, retentionDays), ev, id)
    decreases |evs|
  {
    var all := evs + [ev];
    if evs == [] {
      assert all[1..] == [];
    } else {
      assert all[1..] == evs[1..] + [ev];
      RunAppend(Step(s, evs[0], retentionDays), evs[1..], ev, retentionDays, id);
    }
  }

  /** From a fresh process, the collector's deltas are the channel's: gaps and restarts are seen as they are. */
  lemma {:induction false} DeltasAreTheSightings(s: State, evs: seq<Event>, retentionDays: nat, id: Id, runs: seq<nat>)
    requires |runs| == |evs| && s.lastCum == map[]
    ensures
      var seen := Sightings(s, evs, retentionDays, id, runs);
      && AllDeltas(s, evs, retentionDays, id) == DeltaSum(seen)
      && Get(Run(s, evs, retentionDays).lastCum, id) == LastOf(seen)
    decreases |evs|
  {
    if evs == [] {
    } else {
      var n := |evs| - 1;
      assert evs == evs[..n] + [evs[n]];
      RunAppend(s, evs[..n], evs[n], retentionDays, id);
      DeltasAreTheSightings(s, evs[..n], retentionDays, id, runs[..n]);
      var seen := Sightings(s, evs, retentionDays, id, runs);
      var before := Sightings(s, evs[..n], retentionDays, id, runs[..n]);
      if |seen| > |before| { assert seen[..|seen| - 1] == before; } else { assert seen == before; }
    }
  }

  /** No run's last sighting reads more than the run sent. */
  predicate WithinSent(seen: seq<Seen>, sent: map<nat, nat>) {
    forall run :: run in LastByRun(seen) ==> run in sent && LastByRun(seen)[run] <= sent[run]
  }

  /**
   A process's whole record of a channel, against what the channel sent: it is what was sampled last of each run,
   less the hidden restarts, more the buckets left in place by failed writes.
   */
  lemma RecordIsTrue(boot: State, evs: seq<Event>, retentionDays: nat, id: Id, runs: seq<nat>, sent: map<nat, nat>)
    requires |runs| == |evs| && boot.lastCum == map[]
    requires
      var seen := Sightings(boot, evs, retentionDays, id, runs);
      Plausible(seen) && WithinSent(seen, sent)
    ensures
      var seen := Sightings(boot, evs, retentionDays, id, runs);
      var recorded := Recorded(Run(boot, evs, retentionDays), id) + AllGone(boot, evs, retentionDays, id);
      var doubled := AllDoubled(boot, evs, retentionDays, id);
      && recorded + Hidden(seen) == Recorded(boot, id) + Sum(LastByRun(seen)) + doubled
      && recorded <= Recorded(boot, id) + Sum(sent) + doubled
      && (recorded == Recorded(boot, id) + Sum(sent) + doubled <==>
          Hidden(seen) == 0 && Sum(LastByRun(seen)) == Sum(sent))
  {
    RollupConserves(boot, evs, retentionDays, id);
    DeltasAreTheSightings(boot, evs, retentionDays, id, runs);
    DeltasMissOnlyTheHidden(Sightings(boot, evs, retentionDays, id, runs));
    NeverMoreThanSent(Sightings(boot, evs, retentionDays, id, runs), sent);
  }

  // ---- the code --------------------------------------------------------------------------------

  function Asked(days: int, retentionDays: nat): nat {
    var most := if days > retentionDays then retentionDays else days; if most > 1 then most else 1
  }

  function Between(days: map<int, Day>, after: int, upTo: int): map<int, Day> {
    map d | d in days && after < d <= upTo :: days[d]
  }

  lemma BetweenGrows(days: map<int, Day>, after: int, upTo: int)
    requires after < upTo
    ensures
      Between(days, after, upTo) ==
      if upTo in days then Between(days, after, upTo - 1)[upTo := days[upTo]] else Between(days, after, upTo - 1)
  {}

  /** Each of the last n days that is on file, or is today, is served: today's from memory, the others from file. */
  ghost predicate Serves(served: map<int, Day>, s: State, today: int, n: int) {
    && (forall d :: d in served <==> today - n < d <= today && (d in s.files || d == s.today.date))
    && (forall d :: d in served ==> served[d] == if d == s.today.date then s.today.hours else s.files[d])
  }

  /** At least one day is asked for, and no more than are kept. */
  lemma AskedIsWithin(days: int, retentionDays: nat)
    requires retentionDays > 0
    ensures 1 <= Asked(days, retentionDays) <= retentionDays
    ensures days < 1 ==> Asked(days, retentionDays) == 1
    ensures days > retentionDays ==> Asked(days, retentionDays) == retentionDays
    ensures 1 <= days <= retentionDays ==> Asked(days, retentionDays) == days
  {}

  class Analytics {
    const retentionDays: nat
    var bucket: Bucket
    var today: Today
    var files: map<int, Day>
    var lastCum: map<Id, nat>

    ghost function View(): State
      reads this
    {
      State(bucket, today, files, lastCum)
    }

    constructor (days: map<int, Day>, now: int, readable: bool, retention: nat)
      ensures retentionDays == retention && View() == Boot(days, now, readable, retention)
    {
      retentionDays := retention;
      today := ReadDay(days, DateOf(now), readable);
      bucket := NewBucket(now);
      files := days - Stale(days, now, retention);
      lastCum := map[];
    }

    /** The hour is merged before the file is written: a write that throws (not ok) leaves it merged. */
    method ReduceBucket(written: bool) returns (ok: bool)
      modifies this`today, this`files
      ensures ok == written
      ensures View() == if ok then Reduced(old(View())) else old(View()).(today := Reduced(old(View())).today)
    {
      var h := HourOf(bucket.hourStart);
      var entry := bucket.egress;
      if h in today.hours { entry := Merge(today.hours[h], entry); }
      today := today.(hours := today.hours[h := entry]);
      if !written { return false; }
      files := files[today.date := today.hours];
      return true;
    }

    method RollOver(now: int, io: Io) returns (ok: bool)
      modifies this`today, this`files, this`bucket
      ensures View() == Roll(old(View()), now, io, retentionDays) && ok == !(Due(old(View()), now) && !io.written)
    {
      if today.date != DateOf(now) {
        ok := ReduceBucket(io.written);
        if !ok { return; }
        today := ReadDay(files, DateOf(now), io.readable);
        bucket := NewBucket(now);
        files := files - Stale(files, now, retentionDays);
        return;
      }
      if HourStart(now) != bucket.hourStart {
        ok := ReduceBucket(io.written);
        if !ok { return; }
        bucket := NewBucket(now);
      }
      return true;
    }

    method Count(samples: map<Id, nat>)
      modifies this`bucket, this`lastCum
      ensures View() == Sampled(old(View()), samples)
    {
      var todo := samples.Keys;
      var egress := bucket.egress;
      while todo != {}
        invariant todo <= samples.Keys
        invariant egress.Keys == bucket.egress.Keys + (samples.Keys - todo)
        invariant forall id :: id in egress ==>
                    egress[id] == Get(bucket.egress, id) + (if id in todo then 0 else DeltaOf(lastCum, samples, id))
        decreases todo
      {
        var id :| id in todo;
        var last := if id in lastCum then lastCum[id] else 0;
        var cum := samples[id];
        egress := egress[id := (if id in egress then egress[id] else 0) + (if cum >= last then cum - last else cum)];
        todo := todo - {id};
      }
      assert egress == Counted(bucket.egress, lastCum, samples);
      bucket := bucket.(egress := egress);
      lastCum := samples;
    }

    method Tick(now: int, io: Io, samples: map<Id, nat>) returns (ok: bool)
      modifies this
      ensures View() == Step(old(View()), Event.Tick(now, io, samples), retentionDays)
      ensures ok == !Fails(old(View()), Event.Tick(now, io, samples))
    {
      ok := RollOver(now, io);
      if ok { Count(samples); }
    }

    /** The last n days, today's from memory. */
    method ListDays(now: int, n: nat) returns (served: map<int, Day>)
      ensures served == Between(Days(View()), DateOf(now) - n, DateOf(now))
    {
      served := map[];
      var i := n;
      ghost var all := Days(View());
      while i > 0
        invariant 0 <= i <= n
        invariant served == Between(all, DateOf(now) - n, DateOf(now) - i)
      {
        i := i - 1;
        var date := DateOf(now - i * DAY_MS);
        DaysApart(now, i);
        BetweenGrows(all, DateOf(now) - n, date);
        if date == today.date {
          served := served[date := today.hours];
        } else if date in files {
          served := served[date := files[date]];
        }
      }
    }

    /** What is asked for is served: at least one day, and no more than are kept. */
    method Api(now: int, io: Io, days: int) returns (ok: bool, served: map<int, Day>)
      modifies this
      ensures View() == Step(old(View()), Event.Api(now, io), retentionDays)
      ensures ok == !Fails(old(View()), Event.Api(now, io))
      ensures ok ==> served == Between(Days(View()), DateOf(now) - Asked(days, retentionDays), DateOf(now))
      ensures ok ==>
              Serves(served, View(), DateOf(now),
                     if 1 <= days <= retentionDays then days else Asked(days, retentionDays))
    {
      served := map[];
      ok := RollOver(now, io);
      if ok { served := ListDays(now, Asked(days, retentionDays)); }
    }
  }

  // ---- the meter -------------------------------------------------------------------------------

  type Socket = nat

  datatype Meter = Meter(closed: nat, live: map<Socket, nat>)

  /** Bytes of closed connections, and of the live ones so far. */
  ghost function Total(m: Meter): nat { m.closed + Sum(m.live) }

  function Connected(m: Meter, s: Socket): Meter { m.(live := m.live[s := 0]) }

  function Transmits(m: Meter, s: Socket, bytes: nat): Meter
    requires s in m.live
  {
    m.(live := m.live[s := m.live[s] + bytes])
  }

  /** `readable`: what the counter still reads once the connection is closed. */
  function Closes(m: Meter, s: Socket, readable: nat): Meter { Meter(m.closed + readable, m.live - {s}) }

  /**
   A new connection or more bytes never lower the total; a close lowers it exactly when bytes cannot be read
   any more.
   */
  lemma TotalNeverFalls(m: Meter, s: Socket, bytes: nat, readable: nat)
    ensures s !in m.live ==> Total(Connected(m, s)) == Total(m)
    ensures s in m.live ==> Total(Transmits(m, s, bytes)) == Total(m) + bytes
    ensures s in m.live ==> (Total(Closes(m, s, readable)) >= Total(m) <==> readable >= m.live[s])
  {
    SumUpdate(m.live, s, 0);
    if s in m.live {
      SumUpdate(m.live, s, m.live[s] + bytes);
      SumTakes(m.live, s);
    }
  }

  datatype Traffic = Opens(socket: Socket) | Sends(socket: Socket, bytes: nat) | Ends(socket: Socket)

  predicate Possible(m: Meter, t: Traffic) { if t.Opens? then t.socket !in m.live else t.socket in m.live }

  /** A closed connection's counter can still be read. */
  function Metered(m: Meter, t: Traffic): Meter
    requires Possible(m, t)
  {
    match t
    case Opens(s) => Connected(m, s)
    case Sends(s, bytes) => Transmits(m, s, bytes)
    case Ends(s) => Closes(m, s, m.live[s])
  }

  predicate PossibleAll(m: Meter, ts: seq<Traffic>)
    decreases |ts|
  {
    ts == [] || (Possible(m, ts[0]) && PossibleAll(Metered(m, ts[0]), ts[1..]))
  }

  function MeteredAll(m: Meter, ts: seq<Traffic>): Meter
    requires PossibleAll(m, ts)
    decreases |ts|
  {
    if ts == [] then m else MeteredAll(Metered(m, ts[0]), ts[1..])
  }

  function BytesSent(ts: seq<Traffic>): nat {
    if ts == [] then 0 else (if ts[0].Sends? then ts[0].bytes else 0) + BytesSent(ts[1..])
  }

  /** The connections open after the traffic, from those open before. */
  function StillOpen(live: set<Socket>, ts: seq<Traffic>): set<Socket>
    decreases |ts|
  {
    if ts == [] then live
    else
      StillOpen(if ts[0].Opens? then live + {ts[0].socket} else if ts[0].Ends? then live - {ts[0].socket} else live,
                ts[1..])
  }

  /** Whatever connections come and go, the total is the bytes sent, and only open connections are kept. */
  lemma {:induction false} MeterIsExact(m: Meter, ts: seq<Traffic>)
    requires PossibleAll(m, ts)
    ensures Total(MeteredAll(m, ts)) == Total(m) + BytesSent(ts)
    ensures MeteredAll(m, ts).live.Keys == StillOpen(m.live.Keys, ts)
    decreases |ts|
  {
    if ts == [] {
    } else {
      var s, next := ts[0].socket, Metered(m, ts[0]);
      if ts[0].Opens? { SumUpdate(m.live, s, 0); }
      else if ts[0].Sends? { SumUpdate(m.live, s, m.live[s] + ts[0].bytes); }
      else { SumTakes(m.live, s); }
      MeterIsExact(next, ts[1..]);
      assert next.live.Keys == StillOpen(m.live.Keys, [ts[0]]);
    }
  }

  class EgressMeter {
    var closed: nat
    var live: map<Socket, nat>

    ghost function View(): Meter
      reads this
    {
      Meter(closed, live)
    }

    constructor ()
      ensures View() == Meter(0, map[])
    {
      closed, live := 0, map[];
    }

    method OnConnection(s: Socket)
      modifies this
      ensures View() == Connected(old(View()), s)
    {
      live := live[s := 0];
    }

    method OnClose(s: Socket, readable: nat)
      modifies this
      ensures View() == Closes(old(View()), s, readable)
    {
      live := live - {s};
      closed := closed + readable;
    }

    method ReadTotal() returns (t: nat)
      ensures t == Total(View())
    {
      t := closed;
      var rest := live;
      while rest != map[]
        invariant t + Sum(rest) == Total(View())
        decreases |rest|
      {
        var s :| s in rest;
        SumTakes(rest, s);
        Smaller(rest, s);
        t := t + rest[s];
        rest := rest - {s};
      }
    }
  }
}
