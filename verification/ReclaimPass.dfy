/**
 One reclaim pass over a feed replica (sdk/serve.js): the floor is the lowest blob offset the playlist
 still references, and every local block below it except the live thumbnail's is freed.

 Each metadata read is raced against a timer, so its outcome is one of three; the pass has to tell a read
 that did not land from an entry that is not there.
 */
module ReclaimPass {
  import opened JsText
  import opened Wrappers

  // ---- the playlist ----------------------------------------------------------------------------

  function TrimStart(s: string): (r: string)
    ensures |r| <= |s| && (r != "" ==> !IsSpace(r[0]))
  {
    if s != "" && IsSpace(s[0]) then TrimStart(s[1..]) else s
  }

  function TrimEnd(s: string): (r: string)
    ensures r <= s && (r != "" ==> !IsSpace(r[|r| - 1]))
  {
    if s != "" && IsSpace(s[|s| - 1]) then TrimEnd(s[..|s| - 1]) else s
  }

  function Trim(s: string): string { TrimEnd(TrimStart(s)) }

  predicate IsAlpha(c: char) { 'a' <= c <= 'z' || 'A' <= c <= 'Z' }

  predicate IsSchemeChar(c: char) { IsAlpha(c) || '0' <= c <= '9' || c in "+.-" }

  /** The rest of a scheme, up to and including "://". */
  predicate SchemeTail(s: string) {
    "://" <= s || (s != "" && IsSchemeChar(s[0]) && SchemeTail(s[1..]))
  }

  predicate IsAbsoluteUrl(s: string) { s != "" && IsAlpha(s[0]) && SchemeTail(s[1..]) }

  /** What one line contributes. */
  function LineUris(raw: string): seq<string> {
    var line := Trim(raw);
    if line == "" || line[0] == '#' || IsAbsoluteUrl(line) then []
    else [if line[0] == '/' then line else "/" + line]
  }

  /** The text split at its newlines. */
  function Lines(text: string): (lines: seq<string>)
    ensures lines != []
  {
    if text == "" then [""]
    else
      var rest := Lines(text[1..]);
      if text[0] == '\n' then [""] + rest else [[text[0]] + rest[0]] + rest[1..]
  }

  function PlaylistUris(text: string): seq<string> { FlatMap(LineUris, Lines(text)) }

  lemma {:induction false} JoinedLines(a: string, b: string)
    ensures Lines(a + "\n" + b) == Lines(a) + Lines(b)
  {
    if a == "" {
      assert (a + "\n" + b)[1..] == b;
    } else {
      assert (a + "\n" + b)[1..] == a[1..] + "\n" + b;
      JoinedLines(a[1..], b);
    }
  }

  /** Playlists read line by line: joining two texts joins their listings. */
  lemma JoinedPlaylists(a: string, b: string)
    ensures PlaylistUris(a + "\n" + b) == PlaylistUris(a) + PlaylistUris(b)
  {
    JoinedLines(a, b);
    FlatMapJoins(LineUris, Lines(a), Lines(b));
  }

  /** A root-relative path as the listing leaves it. */
  predicate IsListed(uri: string) {
    uri != "" && uri[0] == '/' && '\n' !in uri && !IsSpace(uri[|uri| - 1])
  }

  lemma {:induction false} TrimStartKeeps(s: string, c: char)
    requires c !in s
    ensures c !in TrimStart(s)
  {
    if s != "" && IsSpace(s[0]) { TrimStartKeeps(s[1..], c); }
  }

  lemma LineIsListed(raw: string)
    requires '\n' !in raw
    ensures forall u :: u in LineUris(raw) ==> IsListed(u)
  {
    TrimStartKeeps(raw, '\n');
    TrimmedEnds(raw);
  }

  lemma TrimmedEnds(raw: string)
    requires '\n' !in TrimStart(raw)
    ensures '\n' !in Trim(raw) && (Trim(raw) != "" ==> !IsSpace(Trim(raw)[|Trim(raw)| - 1]))
  {
    assert forall c :: c in Trim(raw) ==> c in TrimStart(raw);
  }

  lemma {:induction false} LinesHoldNoNewline(text: string)
    ensures forall k :: 0 <= k < |Lines(text)| ==> '\n' !in Lines(text)[k]
  {
    if text == "" {
    } else {
      LinesHoldNoNewline(text[1..]);
    }
  }

  lemma {:induction false} OneLine(text: string)
    requires '\n' !in text
    ensures Lines(text) == [text]
  {
    if text == "" {
    } else {
      OneLine(text[1..]);
      assert text == [text[0]] + text[1..];
    }
  }

  lemma {:induction false} ListingIsListed(lines: seq<string>)
    requires forall k :: 0 <= k < |lines| ==> '\n' !in lines[k]
    ensures forall u :: u in FlatMap(LineUris, lines) ==> IsListed(u)
  {
    if lines == [] {
    } else {
      ListingIsListed(lines[..|lines| - 1]);
      LineIsListed(lines[|lines| - 1]);
    }
  }

  /** Everything listed is a trimmed root-relative path on one line. */
  lemma EveryUriIsListed(text: string)
    ensures forall u :: u in PlaylistUris(text) ==> IsListed(u)
  {
    LinesHoldNoNewline(text);
    ListingIsListed(Lines(text));
  }

  lemma ListedStays(uri: string)
    requires IsListed(uri)
    ensures PlaylistUris(uri) == [uri]
  {
    OneLine(uri);
    assert LineUris(uri) == [uri] by { assert !IsSpace(uri[0]) && TrimStart(uri) == uri; }
    var lines := Lines(uri);
    assert lines[..|lines| - 1] == [] && FlatMap(LineUris, lines[..|lines| - 1]) == [];
  }

  function JoinLines(lines: seq<string>): string {
    if lines == [] then "" else if |lines| == 1 then lines[0] else lines[0] + "\n" + JoinLines(lines[1..])
  }

  lemma {:induction false} JoinedStays(uris: seq<string>)
    requires forall u :: u in uris ==> IsListed(u)
    ensures PlaylistUris(JoinLines(uris)) == uris
  {
    if |uris| == 1 {
      ListedStays(uris[0]);
      assert uris == [uris[0]];
    } else if uris != [] {
      JoinedPlaylists(uris[0], JoinLines(uris[1..]));
      ListedStays(uris[0]);
      JoinedStays(uris[1..]);
      assert uris == [uris[0]] + uris[1..];
    }
  }

  /** Listing a listing changes nothing. */
  lemma ListingIsStable(text: string)
    ensures PlaylistUris(JoinLines(PlaylistUris(text))) == PlaylistUris(text)
  {
    EveryUriIsListed(text);
    JoinedStays(PlaylistUris(text));
  }

  method ListUris(text: string) returns (uris: seq<string>)
    ensures uris == PlaylistUris(text)
  {
    uris := [];
    var lines := Lines(text);
    for i := 0 to |lines|
      invariant uris == FlatMap(LineUris, lines[..i])
    {
      assert lines[..i + 1][..i] == lines[..i];
      var line := Trim(lines[i]);
      if line == "" || line[0] == '#' { continue; }
      if IsAbsoluteUrl(line) { continue; }
      uris := uris + [if line[0] == '/' then line else "/" + line];
    }
    assert lines[..|lines|] == lines;
  }

  // ---- what a listing lists --------------------------------------------------------------------

  predicate Blank(s: string) { forall i :: 0 <= i < |s| ==> IsSpace(s[i]) }

  predicate Bare(s: string) { s != "" ==> !IsSpace(s[0]) && !IsSpace(s[|s| - 1]) }

  lemma BlankJoins(a: string, b: string)
    requires Blank(a) && Blank(b)
    ensures Blank(a + b)
  {}

  lemma {:induction false} TrimStartIs(s: string)
    ensures s == s[..|s| - |TrimStart(s)|] + TrimStart(s) && Blank(s[..|s| - |TrimStart(s)|])
  {
    if s != "" && IsSpace(s[0]) {
      TrimStartIs(s[1..]);
      var n := |s| - |TrimStart(s)|;
      BlankJoins([s[0]], s[1..][..n - 1]);
      assert s[..n] == [s[0]] + s[1..][..n - 1];
      assert s == [s[0]] + (s[1..][..n - 1] + TrimStart(s));
    }
  }

  lemma {:induction false} TrimEndIs(s: string)
    ensures s == TrimEnd(s) + s[|TrimEnd(s)|..] && Blank(s[|TrimEnd(s)|..])
  {
    if s != "" && IsSpace(s[|s| - 1]) {
      var n := |s| - 1;
      TrimEndIs(s[..n]);
      assert s[|TrimEnd(s)|..] == s[..n][|TrimEnd(s)|..] + [s[n]];
    }
  }

  predicate Around3(s: string, before: string, middle: string, after: string) {
    s == before + middle + after && Blank(before) && Blank(after)
  }

  /** What is left of a trimmed text has no white space at its ends. */
  lemma TrimmedIsBare(s: string)
    ensures Bare(Trim(s))
  {
    TrimEndIs(TrimStart(s));
    if Trim(s) != "" { assert Trim(s)[0] == TrimStart(s)[0]; }
  }

  lemma TwoTrims(s: string, before: string, t: string, middle: string, after: string)
    requires s == before + t && t == middle + after && Blank(before) && Blank(after)
    ensures Around3(s, before, middle, after)
  {
    assert before + middle + after == before + (middle + after);
  }

  /** Trimming takes white space off both ends and nothing else. */
  lemma TrimIs(s: string)
    ensures exists before: string, after: string :: Around3(s, before, Trim(s), after)
  {
    var t := TrimStart(s);
    TrimStartIs(s);
    TrimEndIs(t);
    TwoTrims(s, s[..|s| - |t|], t, Trim(s), t[|Trim(s)|..]);
  }

  /** The lines are the pieces between newlines: joined again they are the text. */
  lemma {:induction false} LinesAreTheText(text: string)
    ensures JoinLines(Lines(text)) == text
  {
    if text == "" {
    } else {
      var rest := Lines(text[1..]);
      LinesAreTheText(text[1..]);
      if text[0] == '\n' {
        assert ([""] + rest)[1..] == rest;
      } else {
        assert ([[text[0]] + rest[0]] + rest[1..])[1..] == rest[1..];
      }
    }
  }

  /** A scheme of k characters, a letter first, and then "://". */
  predicate SchemeAt(s: string, k: nat) {
    && 0 < k <= |s| && ('a' <= s[0] <= 'z' || 'A' <= s[0] <= 'Z')
    && (forall i :: 0 < i < k ==>
          || 'a' <= s[i] <= 'z' || 'A' <= s[i] <= 'Z' || '0' <= s[i] <= '9'
          || s[i] == '+' || s[i] == '.' || s[i] == '-')
    && "://" <= s[k..]
  }

  predicate SchemeUpTo(s: string, k: nat) {
    k <= |s| && (forall i :: 0 <= i < k ==> IsSchemeChar(s[i])) && "://" <= s[k..]
  }

  lemma {:induction false} SchemeTailHasOne(s: string)
    requires SchemeTail(s)
    ensures exists k: nat :: SchemeUpTo(s, k)
  {
    if "://" <= s {
      assert s[0..] == s;
      assert SchemeUpTo(s, 0);
    } else {
      SchemeTailHasOne(s[1..]);
      var k: nat :| SchemeUpTo(s[1..], k);
      assert s[1..][k..] == s[k + 1..];
      assert forall i :: 0 < i < k + 1 ==> s[i] == s[1..][i - 1];
      assert SchemeUpTo(s, k + 1);
    }
  }

  lemma {:induction false} SchemeUpToIsTail(s: string, k: nat)
    requires SchemeUpTo(s, k)
    ensures SchemeTail(s)
  {
    if k == 0 {
      assert s[0..] == s;
    } else {
      assert s[1..][k - 1..] == s[k..];
      assert forall i :: 0 <= i < k - 1 ==> s[1..][i] == s[i + 1];
      SchemeUpToIsTail(s[1..], k - 1);
    }
  }

  lemma SchemeCharsAre(c: char)
    ensures IsSchemeChar(c) <==>
      || 'a' <= c <= 'z' || 'A' <= c <= 'Z' || '0' <= c <= '9' || c == '+' || c == '.' || c == '-'
  {
    assert "+.-"[0] == '+' && "+.-"[1] == '.' && "+.-"[2] == '-';
  }

  lemma SchemeIsUpTo(s: string, k: nat)
    requires s != ""
    ensures SchemeAt(s, k + 1) <==> IsAlpha(s[0]) && SchemeUpTo(s[1..], k)
  {
    if k < |s| {
      assert s[1..][k..] == s[k + 1..];
      forall i | 0 <= i < k ensures s[1..][i] == s[i + 1] { SchemeCharsAre(s[i + 1]); }
      forall i | 0 < i < k + 1 ensures s[i] == s[1..][i - 1] { SchemeCharsAre(s[i]); }
    }
  }

  lemma AbsoluteUrlIff(s: string)
    ensures IsAbsoluteUrl(s) <==> exists k: nat :: SchemeAt(s, k)
  {
    if IsAbsoluteUrl(s) {
      SchemeTailHasOne(s[1..]);
      var k: nat :| SchemeUpTo(s[1..], k);
      SchemeIsUpTo(s, k);
    }
    if k: nat :| SchemeAt(s, k) {
      SchemeIsUpTo(s, k - 1);
      SchemeUpToIsTail(s[1..], k - 1);
    }
  }

  /** A line that names something of the feed: not empty, no comment and no URL of another host. */
  ghost predicate IsName(n: string) { n != "" && n[0] != '#' && !exists k: nat :: SchemeAt(n, k) }

  function Rooted(n: string): string
    requires n != ""
  {
    if n[0] == '/' then n else "/" + n
  }

  /** Where the lines that name something stand, in order. */
  function Positions(names: string -> bool, lines: seq<string>): seq<nat> {
    if lines == [] then []
    else
      var n := |lines| - 1;
      Positions(names, lines[..n]) + (if names(lines[n]) then [n] else [])
  }

  lemma {:induction false} PositionsAre(names: string -> bool, lines: seq<string>, k: nat)
    ensures k in Positions(names, lines) <==> k < |lines| && names(lines[k])
  {
    if lines == [] {
    } else {
      var n := |lines| - 1;
      PositionsAre(names, lines[..n], k);
      assert k < n ==> lines[..n][k] == lines[k];
    }
  }

  lemma {:induction false} PositionsIncrease(names: string -> bool, lines: seq<string>, i: nat, j: nat)
    requires i < j < |Positions(names, lines)|
    ensures Positions(names, lines)[i] < Positions(names, lines)[j] < |lines|
  {
    var n := |lines| - 1;
    var before := Positions(names, lines[..n]);
    if j < |before| {
      PositionsIncrease(names, lines[..n], i, j);
    } else {
      assert before[i] in before;
      PositionsAre(names, lines[..n], before[i]);
    }
  }

  /** A reading of one line: its name, if it has one. */
  ghost predicate ReadsNames(read: string -> seq<string>, names: string -> bool, path: string -> string) {
    forall raw :: read(raw) == if names(raw) then [path(raw)] else []
  }

  lemma {:induction false} OnePathPerName(read: string -> seq<string>, names: string -> bool, path: string -> string,
                                          lines: seq<string>)
    requires ReadsNames(read, names, path)
    ensures |FlatMap(read, lines)| == |Positions(names, lines)|
  {
    if lines == [] {
    } else {
      OnePathPerName(read, names, path, lines[..|lines| - 1]);
    }
  }

  lemma {:induction false} PathOfName(read: string -> seq<string>, names: string -> bool, path: string -> string,
                                      lines: seq<string>, i: nat)
    requires ReadsNames(read, names, path) && i < |Positions(names, lines)|
    ensures |FlatMap(read, lines)| == |Positions(names, lines)|
    ensures
      var k := Positions(names, lines)[i];
      k < |lines| && names(lines[k]) && FlatMap(read, lines)[i] == path(lines[k])
  {
    var n := |lines| - 1;
    OnePathPerName(read, names, path, lines);
    OnePathPerName(read, names, path, lines[..n]);
    if i < |Positions(names, lines[..n])| { PathOfName(read, names, path, lines[..n], i); }
  }

  lemma {:induction false} ReadIff(read: string -> seq<string>, names: string -> bool, path: string -> string,
                                   lines: seq<string>, u: string)
    requires ReadsNames(read, names, path)
    ensures u in FlatMap(read, lines) <==> exists k: nat :: k < |lines| && names(lines[k]) && u == path(lines[k])
  {
    if lines == [] {
    } else {
      var n := |lines| - 1;
      ReadIff(read, names, path, lines[..n], u);
      if u in FlatMap(read, lines[..n]) {
        var k: nat :| k < n && names(lines[..n][k]) && u == path(lines[..n][k]);
        assert names(lines[k]) && u == path(lines[k]);
      }
      if k: nat :| k < |lines| && names(lines[k]) && u == path(lines[k]) {
        if k < n { assert names(lines[..n][k]) && u == path(lines[..n][k]); }
      }
    }
  }

  lemma OneLineLists(raw: string)
    ensures LineUris(raw) == if IsName(Trim(raw)) then [Rooted(Trim(raw))] else []
  {
    AbsoluteUrlIff(Trim(raw));
  }

  ghost predicate NamesSomething(raw: string) { IsName(Trim(raw)) }

  function PathOn(raw: string): string { if Trim(raw) == "" then "" else Rooted(Trim(raw)) }

  lemma LinesAreRead()
    ensures ReadsNames(LineUris, (raw: string) => NamesSomething(raw), PathOn)
  {
    forall raw ensures LineUris(raw) == if NamesSomething(raw) then [PathOn(raw)] else [] { OneLineLists(raw); }
  }

  /** What a playlist lists: one path for each line that names something, in the order of the lines, and no others. */
  lemma ListsExactlyTheNames(text: string, i: nat, k: nat)
    ensures
      var names := (raw: string) => NamesSomething(raw);
      var lines, uris := Lines(text), PlaylistUris(text);
      var ks := Positions(names, lines);
      && |uris| == |ks|
      && (k in ks <==> k < |lines| && NamesSomething(lines[k]))
      && (i < |ks| ==> ks[i] < |lines| && uris[i] == PathOn(lines[ks[i]]))
      && (k < i < |ks| ==> ks[k] < ks[i])
  {
    var names := (raw: string) => NamesSomething(raw);
    var lines := Lines(text);
    LinesAreRead();
    OnePathPerName(LineUris, names, PathOn, lines);
    PositionsAre(names, lines, k);
    if i < |Positions(names, lines)| { PathOfName(LineUris, names, PathOn, lines, i); }
    if k < i < |Positions(names, lines)| { PositionsIncrease(names, lines, k, i); }
  }

  /** So a path is listed exactly when some line names it. */
  lemma ListedIff(text: string, u: string)
    ensures u in PlaylistUris(text) <==>
      exists k: nat :: k < |Lines(text)| && NamesSomething(Lines(text)[k]) && u == PathOn(Lines(text)[k])
  {
    var names := (raw: string) => NamesSomething(raw);
    LinesAreRead();
    ReadIff(LineUris, names, PathOn, Lines(text), u);
    assert forall k: nat :: k < |Lines(text)| ==> names(Lines(text)[k]) == NamesSomething(Lines(text)[k]);
  }

  /** In particular a bare relative name, as the broadcaster writes its segments. */
  lemma RelativeNameIsListed(name: string)
    requires Bare(name) && '\n' !in name && IsName(name) && name[0] != '/'
    ensures PlaylistUris(name) == ["/" + name]
  {
    OneLine(name);
    assert Trim(name) == name;
    OneLineLists(name);
    assert [name][..0] == [] && FlatMap(LineUris, [name][..0]) == [];
  }

  // ---- the reads -------------------------------------------------------------------------------

  datatype Blob = Blob(offset: nat, length: nat, bytes: nat)

  /** TimedOut covers a read that rejected; Missing is a read that landed on nothing. */
  datatype Read = TimedOut | Missing | Found(blob: Blob)

  datatype BlobsRead = NoBlobs | Ready

  function Extent(b: Blob): set<nat> { Blocks(b.offset, b.offset + b.length) }

  function Blocks(start: nat, end: nat): (blocks: set<nat>)
    ensures forall n: nat :: n in blocks <==> start <= n < end
  {
    if start < end then Blocks(start, end - 1) + {end - 1} else {}
  }

  // ---- the floor -------------------------------------------------------------------------------

  /** floor None: nothing in the window resolved. */
  datatype Window = Abandoned | Window(floor: Option<nat>, bytes: nat, listed: nat, resolved: nat)

  function Scan(entries: seq<Read>): Window {
    if entries == [] then Window(None, 0, 0, 0)
    else
      var before := Scan(entries[..|entries| - 1]);
      if before.Abandoned? then Abandoned
      else
        match entries[|entries| - 1]
        case TimedOut => Abandoned
        case Missing => before.(listed := before.listed + 1)
        case Found(b) =>
          Window(Some(if before.floor.Some? && before.floor.value <= b.offset then before.floor.value else b.offset),
                 before.bytes + b.bytes, before.listed + 1, before.resolved + 1)
  }

  /** The floor is the lowest offset found; one read that did not land and there is none at all. */
  lemma {:induction false} ScanIsTheMinimum(entries: seq<Read>)
    ensures Scan(entries).Abandoned? <==> TimedOut in entries
    ensures !Scan(entries).Abandoned? ==>
      && (Scan(entries).floor.None? <==> forall r :: r in entries ==> r.Missing?)
      && (Scan(entries).floor.Some? ==>
          exists r :: r in entries && r.Found? && r.blob.offset == Scan(entries).floor.value)
      && (forall r :: r in entries && r.Found? ==>
          Scan(entries).floor.Some? && Scan(entries).floor.value <= r.blob.offset)
      && Scan(entries).listed == |entries|
  {
    if entries == [] {
    } else {
      var init, last := entries[..|entries| - 1], entries[|entries| - 1];
      ScanIsTheMinimum(init);
      assert entries == init + [last];
      assert last in entries;
      if !Scan(entries).Abandoned? && Scan(entries).floor.Some? && Scan(init).floor.Some?
         && Scan(entries).floor == Scan(init).floor
      {
        var r :| r in init && r.Found? && r.blob.offset == Scan(init).floor.value;
        assert r in entries;
      }
    }
  }

  function BlobOf(read: Read): seq<Blob> { if read.Found? then [read.blob] else [] }

  function TotalBytes(blobs: seq<Blob>): nat {
    if blobs == [] then 0 else TotalBytes(blobs[..|blobs| - 1]) + blobs[|blobs| - 1].bytes
  }

  /** What the window sink is told: the bytes of the segments that resolved, and how many did. */
  lemma {:induction false} ScanMeasuresTheWindow(entries: seq<Read>)
    requires !Scan(entries).Abandoned?
    ensures
      var found := FlatMap(BlobOf, entries);
      Scan(entries).resolved == |found| && Scan(entries).bytes == TotalBytes(found)
  {
    if entries == [] {
    } else {
      var init, last := entries[..|entries| - 1], entries[|entries| - 1];
      ScanMeasuresTheWindow(init);
      assert FlatMap(BlobOf, init) + [] == FlatMap(BlobOf, init);
      if last.Found? {
        var found := FlatMap(BlobOf, entries);
        assert found == FlatMap(BlobOf, init) + [last.blob];
        assert found[..|found| - 1] == FlatMap(BlobOf, init);
      }
    }
  }

  // ---- what is punched -------------------------------------------------------------------------

  datatype Keep = Unknown | Nothing | Keep(start: nat, end: nat)

  function ThumbBlockRange(thumb: Read, floor: nat): (k: Keep)
    ensures k.Unknown? <==> thumb.TimedOut?
    ensures !k.Unknown? ==>
      Blocks(0, floor) * (if thumb.Found? then Extent(thumb.blob) else {}) ==
        (if k.Keep? then Blocks(k.start, k.end) else {})
    ensures k.Keep? ==> k.start < k.end <= floor
  {
    match thumb
    case TimedOut => Unknown
    case Missing => Nothing
    case Found(b) =>
      if b.length == 0 || floor <= b.offset then Nothing
      else Keep(b.offset, if b.offset + b.length < floor then b.offset + b.length else floor)
  }

  datatype Reads = Reads(entries: seq<Read>, blobs: BlobsRead, thumb: Read)

  datatype Plan = Stop(ok: bool) | Punch(ranges: seq<(nat, nat)>)

  function PlanOf(r: Reads): Plan {
    var w := Scan(r.entries);
    if w.Abandoned? then Stop(false)
    else if w.floor.None? || w.floor.value == 0 then Stop(true)
    else if r.blobs.NoBlobs? then Stop(false)
    else
      var keep := ThumbBlockRange(r.thumb, w.floor.value);
      if keep.Unknown? then Stop(false) else Punch(Around(keep, w.floor.value))
  }

  /** The ranges to clear: everything below the floor, around what is kept. */
  function Around(keep: Keep, floor: nat): seq<(nat, nat)>
    requires !keep.Unknown?
  {
    if keep.Nothing? then [(0, floor)]
    else (if keep.start > 0 then [(0, keep.start)] else []) + (if keep.end < floor then [(keep.end, floor)] else [])
  }

  function Punched(ranges: seq<(nat, nat)>): set<nat> {
    if ranges == [] then {} else Blocks(ranges[0].0, ranges[0].1) + Punched(ranges[1..])
  }

  /** Blocks the feed still wants: those of a listed segment that resolved, and the thumbnail's. */
  ghost predicate Wanted(r: Reads, block: nat) {
    || (r.thumb.Found? && block in Extent(r.thumb.blob))
    || (exists i :: 0 <= i < |r.entries| && r.entries[i].Found? && block in Extent(r.entries[i].blob))
  }

  lemma PunchedTwo(low: (nat, nat), high: (nat, nat))
    ensures Punched([low]) == Blocks(low.0, low.1)
    ensures Punched([low, high]) == Blocks(low.0, low.1) + Blocks(high.0, high.1)
  {
    assert [low][1..] == [] && [low, high][1..] == [high] && [high][1..] == [];
  }

  lemma AroundIs(keep: Keep, floor: nat)
    requires !keep.Unknown? && (keep.Keep? ==> keep.start < keep.end <= floor)
    ensures Punched(Around(keep, floor)) == Blocks(0, floor) - (if keep.Keep? then Blocks(keep.start, keep.end) else {})
  {
    PunchedTwo((0, floor), (0, floor));
    if keep.Keep? {
      var low, high := (0, keep.start), (keep.end, floor);
      PunchedTwo(low, high);
      PunchedTwo(high, low);
      assert Around(keep, floor) ==
             if low.1 > 0 && high.0 < floor then [low, high]
             else if low.1 > 0 then [low]
             else if high.0 < floor then [high]
             else [];
      assert Blocks(low.0, low.1) + Blocks(high.0, high.1) == Blocks(0, floor) - Blocks(keep.start, keep.end);
    }
  }

  lemma PunchedIs(r: Reads)
    requires PlanOf(r).Punch?
    ensures
      && Scan(r.entries).floor.Some?
      && Punched(PlanOf(r).ranges) ==
         Blocks(0, Scan(r.entries).floor.value) - (if r.thumb.Found? then Extent(r.thumb.blob) else {})
  {
    var floor := Scan(r.entries).floor.value;
    var keep := ThumbBlockRange(r.thumb, floor);
    AroundIs(keep, floor);
    assert PlanOf(r).ranges == Around(keep, floor);
  }

  /** No block of a listed segment or of the thumbnail is ever freed. */
  lemma WantedBlocksStay(r: Reads, block: nat)
    requires PlanOf(r).Punch? && Wanted(r, block)
    ensures block !in Punched(PlanOf(r).ranges)
  {
    PunchedIs(r);
    ScanIsTheMinimum(r.entries);
    if !(r.thumb.Found? && block in Extent(r.thumb.blob)) {
      var i :| 0 <= i < |r.entries| && r.entries[i].Found? && block in Extent(r.entries[i].blob);
      assert r.entries[i] in r.entries;
    }
  }

  /** Something is freed only when every read landed: then everything below the floor but the thumbnail is. */
  lemma FreesExactlyTheRest(r: Reads)
    ensures
      PlanOf(r).Punch? <==>
        && TimedOut !in r.entries && r.blobs.Ready? && !r.thumb.TimedOut?
        && (exists e :: e in r.entries && e.Found?)
        && (forall e :: e in r.entries && e.Found? ==> e.blob.offset > 0)
    ensures PlanOf(r).Punch? ==>
      forall block: nat ::
        block in Punched(PlanOf(r).ranges) <==>
          && (forall e :: e in r.entries && e.Found? ==> block < e.blob.offset)
          && !(r.thumb.Found? && block in Extent(r.thumb.blob))
  {
    ScanIsTheMinimum(r.entries);
    if PlanOf(r).Punch? {
      PunchedIs(r);
      var e0 :| e0 in r.entries && e0.Found? && e0.blob.offset == Scan(r.entries).floor.value;
      forall block: nat
        ensures block in Punched(PlanOf(r).ranges) <==>
          && (forall e :: e in r.entries && e.Found? ==> block < e.blob.offset)
          && !(r.thumb.Found? && block in Extent(r.thumb.blob))
      {
        if block < Scan(r.entries).floor.value {
          assert forall e :: e in r.entries && e.Found? ==> block < e.blob.offset;
        }
      }
    }
  }

  /** Where the listed segments really lie: as read, when the read found them. */
  predicate Really(entries: seq<Read>, segments: seq<Blob>) {
    |segments| == |entries| && forall i :: 0 <= i < |entries| && entries[i].Found? ==> entries[i].blob == segments[i]
  }

  predicate Loses(ranges: seq<(nat, nat)>, blob: Blob) { Extent(blob) * Punched(ranges) != {} }

  predicate BelowTheFloor(r: Reads, blob: Blob) {
    var w := Scan(r.entries);
    && w.Window? && w.floor.Some?
    && exists block ::
         block in Extent(blob) && block < w.floor.value && !(r.thumb.Found? && block in Extent(r.thumb.blob))
  }

  lemma LosesIff(r: Reads, blob: Blob)
    requires PlanOf(r).Punch?
    ensures Loses(PlanOf(r).ranges, blob) <==> BelowTheFloor(r, blob)
  {
    PunchedIs(r);
    var punched := Punched(PlanOf(r).ranges);
    if BelowTheFloor(r, blob) {
      var block :| block in Extent(blob) && block < Scan(r.entries).floor.value
                   && !(r.thumb.Found? && block in Extent(r.thumb.blob));
      assert block in Extent(blob) * punched;
    } else {
      assert forall block :: block in Extent(blob) ==> block !in punched;
    }
  }

  /**
   A listed segment whose entry has not reached this replica is read as missing and counts for nothing: all
   listed segments keep their blocks exactly when none that was read as missing lies below the floor the
   others set, outside the thumbnail.
   */
  lemma ListedSegmentsStayIff(r: Reads, segments: seq<Blob>)
    requires PlanOf(r).Punch? && Really(r.entries, segments)
    ensures
      (forall i :: 0 <= i < |segments| ==> !Loses(PlanOf(r).ranges, segments[i]))
      <==> forall i :: 0 <= i < |segments| && r.entries[i].Missing? ==> !BelowTheFloor(r, segments[i])
  {
    ScanIsTheMinimum(r.entries);
    forall i | 0 <= i < |segments|
      ensures Loses(PlanOf(r).ranges, segments[i]) <==> BelowTheFloor(r, segments[i])
      ensures r.entries[i].Found? ==> !BelowTheFloor(r, segments[i])
    {
      LosesIff(r, segments[i]);
      assert r.entries[i] in r.entries;
    }
  }

  /** It can happen: a missing entry for block 1 beside a segment found at block 5. */
  lemma MissingSegmentIsLost()
    ensures
      var r := Reads([Missing, Found(Blob(5, 1, 1))], Ready, Missing);
      PlanOf(r).Punch? && Really(r.entries, [Blob(1, 1, 1), Blob(5, 1, 1)]) && Loses(PlanOf(r).ranges, Blob(1, 1, 1))
  {
    var r := Reads([Missing, Found(Blob(5, 1, 1))], Ready, Missing);
    assert r.entries[..1] == [Missing] && r.entries[..1][..0] == [];
    assert Scan(r.entries[..1]) == Window(None, 0, 1, 0);
    assert Scan(r.entries).floor == Some(5);
    assert 1 in Extent(Blob(1, 1, 1));
    LosesIff(r, Blob(1, 1, 1));
  }

  // ---- the code --------------------------------------------------------------------------------

  /** What a clear frees: all it was asked, or any part of it before it throws. */
  datatype Clearing = Clears | Throws(freed: set<nat>)

  function Cleared(local: set<nat>, range: (nat, nat), c: Clearing): set<nat> {
    local - (if c.Clears? then Blocks(range.0, range.1) else Blocks(range.0, range.1) * c.freed)
  }

  /** Clears in order until one throws. */
  function Carried(local: set<nat>, ranges: seq<(nat, nat)>, clearings: seq<Clearing>): set<nat>
    requires |clearings| == 2 && |ranges| <= 2
  {
    if ranges == [] then local
    else
      var first := Cleared(local, ranges[0], clearings[0]);
      if |ranges| == 1 || clearings[0].Throws? then first else Cleared(first, ranges[1], clearings[1])
  }

  predicate AllClear(ranges: seq<(nat, nat)>, clearings: seq<Clearing>)
    requires |clearings| == 2 && |ranges| <= 2
  {
    forall i :: 0 <= i < |ranges| ==> clearings[i].Clears?
  }

  /** The bytes of the window, with how much of the listing they were measured over. */
  datatype Report = Report(bytes: nat, listed: nat, resolved: nat)

  function ReportOf(r: Reads): Option<Report> {
    match Scan(r.entries)
    case Abandoned => None
    case Window(_, bytes, listed, resolved) => if bytes > 0 then Some(Report(bytes, listed, resolved)) else None
  }

  class Replica {
    var local: set<nat>

    constructor (blocks: set<nat>)
      ensures local == blocks
    {
      local := blocks;
    }

    method Clear(start: nat, end: nat, c: Clearing) returns (ok: bool)
      modifies this
      ensures local == Cleared(old(local), (start, end), c) && ok == c.Clears?
    {
      local := local - (if c.Clears? then Blocks(start, end) else Blocks(start, end) * c.freed);
      ok := c.Clears?;
    }

    /** The floor loop: one entry read a listed path, until one does not land. */
    method ScanWindow(entries: seq<Read>) returns (w: Window)
      ensures w == Scan(entries)
    {
      var floor: Option<nat>, bytes: nat, listed: nat, resolved: nat := None, 0, 0, 0;
      for i := 0 to |entries|
        invariant Scan(entries[..i]) == Window(floor, bytes, listed, resolved)
      {
        assert entries[..i + 1][..i] == entries[..i];
        listed := listed + 1;
        match entries[i] {
          case TimedOut =>
            AbandonedStays(entries, i + 1);
            return Abandoned;
          case Missing =>
          case Found(b) =>
            resolved := resolved + 1;
            bytes := bytes + b.bytes;
            if floor.None? || b.offset < floor.value { floor := Some(b.offset); }
        }
      }
      assert entries[..|entries|] == entries;
      return Window(floor, bytes, listed, resolved);
    }

    /** Returns whether the pass completed, and what the window-size sink was told. */
    method ReclaimBelowWindow(playlist: string, r: Reads, clearings: seq<Clearing>)
        returns (ok: bool, report: Option<Report>)
      requires |r.entries| == |PlaylistUris(playlist)| && |clearings| == 2
      modifies this
      ensures report == ReportOf(r)
      ensures PlanOf(r).Stop? ==> local == old(local) && ok == PlanOf(r).ok
      ensures PlanOf(r).Punch? ==>
              local == Carried(old(local), PlanOf(r).ranges, clearings) && ok == AllClear(PlanOf(r).ranges, clearings)
    {
      var w := ScanWindow(r.entries);
      if w.Abandoned? { return false, None; }
      report := if w.bytes > 0 then Some(Report(w.bytes, w.listed, w.resolved)) else None;
      if w.floor.None? || w.floor.value == 0 { return true, report; }
      if r.blobs.NoBlobs? { return false, report; }
      var keep := ThumbBlockRange(r.thumb, w.floor.value);
      if keep.Unknown? { return false, report; }
      ok := ClearAround(keep, w.floor.value, clearings);
    }

    method ClearAround(keep: Keep, floor: nat, clearings: seq<Clearing>) returns (ok: bool)
      requires !keep.Unknown? && |clearings| == 2
      modifies this
      ensures local == Carried(old(local), Around(keep, floor), clearings)
      ensures ok == AllClear(Around(keep, floor), clearings)
    {
      if keep.Nothing? {
        ok := Clear(0, floor, clearings[0]);
        return;
      }
      var at := 0;
      if keep.start > 0 {
        ok := Clear(0, keep.start, clearings[0]);
        if !ok { return; }
        at := 1;
      }
      if keep.end < floor {
        ok := Clear(keep.end, floor, clearings[at]);
        if !ok { return; }
      }
      ok := true;
    }

    /** The idle sweep: a finished programme (an end tag anywhere in it) is never reclaimed. */
    method ReclaimIdleFeed(playlist: Option<string>, r: Reads, clearings: seq<Clearing>)
      requires playlist.Some? ==> |r.entries| == |PlaylistUris(playlist.value)|
      requires |clearings| == 2
      modifies this
      ensures local == if playlist.None? || playlist.value == "" || Contains(playlist.value, ENDLIST) || PlanOf(r).Stop?
                       then old(local) else Carried(old(local), PlanOf(r).ranges, clearings)
    {
      if playlist.None? || playlist.value == "" { return; }
      if Contains(playlist.value, ENDLIST) { return; }
      var _, _ := ReclaimBelowWindow(playlist.value, r, clearings);
    }
  }

  const ENDLIST := "#EXT-X-ENDLIST"

  predicate Contains(s: string, word: string) {
    word <= s || (s != "" && Contains(s[1..], word))
  }

  lemma {:induction false} AbandonedStays(entries: seq<Read>, n: nat)
    requires n <= |entries| && Scan(entries[..n]).Abandoned?
    ensures Scan(entries).Abandoned?
  {
    ScanIsTheMinimum(entries[..n]);
    ScanIsTheMinimum(entries);
    assert TimedOut in entries;
  }

  /** However the clears end, no wanted block is lost; when none throws only wanted and higher blocks are left. */
  lemma PassKeepsWhatIsWanted(r: Reads, local: set<nat>, clearings: seq<Clearing>, block: nat)
    requires |clearings| == 2 && PlanOf(r).Punch?
    ensures
      var after := Carried(local, PlanOf(r).ranges, clearings);
      && (block in local && Wanted(r, block) ==> block in after)
      && (AllClear(PlanOf(r).ranges, clearings) ==> after == local - Punched(PlanOf(r).ranges))
  {
    var ranges := PlanOf(r).ranges;
    if Wanted(r, block) { WantedBlocksStay(r, block); }
    if |ranges| == 1 {
      PunchedTwo(ranges[0], ranges[0]);
      assert ranges == [ranges[0]];
    } else if |ranges| == 2 {
      PunchedTwo(ranges[0], ranges[1]);
      assert ranges == [ranges[0], ranges[1]];
    }
  }

  // ---- what a pass answers ---------------------------------------------------------------------

  /**
   A pass that clears nothing answers that all is well exactly when there is nothing below the window, and that
   it failed exactly when something it had to know did not come: an entry, the blobs or the thumbnail.
   */
  lemma PassAnswers(r: Reads)
    ensures PlanOf(r) == Stop(true) <==>
      && TimedOut !in r.entries
      && ((forall e :: e in r.entries ==> e.Missing?) || exists e :: e in r.entries && e.Found? && e.blob.offset == 0)
    ensures PlanOf(r) == Stop(false) <==>
      || TimedOut in r.entries
      || (&& (exists e :: e in r.entries && e.Found?)
          && (forall e :: e in r.entries && e.Found? ==> e.blob.offset > 0)
          && (r.blobs.NoBlobs? || r.thumb.TimedOut?))
  {
    ScanIsTheMinimum(r.entries);
    if !Scan(r.entries).Abandoned? {
      if Scan(r.entries).floor.Some? {
        var e0 :| e0 in r.entries && e0.Found? && e0.blob.offset == Scan(r.entries).floor.value;
      }
    }
  }

  /** The sink is told what resolved and out of how many, unless a read did not land or nothing with bytes resolved. */
  lemma SinkIsTold(r: Reads)
    ensures
      var found := FlatMap(BlobOf, r.entries);
      ReportOf(r) ==
      if TimedOut in r.entries || TotalBytes(found) == 0 then None
      else Some(Report(TotalBytes(found), |r.entries|, |found|))
  {
    ScanIsTheMinimum(r.entries);
    if !Scan(r.entries).Abandoned? { ScanMeasuresTheWindow(r.entries); }
  }

  /** What clear number n frees of its range. */
  predicate Freed(ranges: seq<(nat, nat)>, clearings: seq<Clearing>, n: nat, block: nat) {
    && n < |ranges| && n < |clearings| && ranges[n].0 <= block < ranges[n].1
    && (clearings[n].Throws? ==> block in clearings[n].freed)
  }

  /** The clears run in order and stop at the first that throws: a block goes when one that ran freed it. */
  lemma ClearsInOrder(local: set<nat>, ranges: seq<(nat, nat)>, clearings: seq<Clearing>, block: nat)
    requires |clearings| == 2 && |ranges| <= 2
    ensures block in Carried(local, ranges, clearings) <==>
      && block in local && !Freed(ranges, clearings, 0, block)
      && (Freed(ranges, clearings, 1, block) ==> clearings[0].Throws?)
  {}

  lemma {:induction false} ContainsIff(s: string, word: string)
    ensures Contains(s, word) <==> exists i: nat :: i <= |s| && word <= s[i..]
  {
    if word <= s {
      assert s[0..] == s;
    } else if s != "" {
      ContainsIff(s[1..], word);
      if Contains(s, word) {
        var i: nat :| i <= |s| - 1 && word <= s[1..][i..];
        assert s[1..][i..] == s[i + 1..];
      }
      if i: nat :| i <= |s| && word <= s[i..] {
        assert s[0..] == s;
        assert s[1..][i - 1..] == s[i..];
      }
    }
  }
}
