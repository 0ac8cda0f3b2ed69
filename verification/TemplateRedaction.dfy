/**
 Turning a configuration into a template (core/config-snapshot.js): whole sections are dropped, and every
 place a dotted path names (`*` standing for exactly one key or index) is deleted, or has the credentials
 taken out of its URL.

 A tree is a value here: the code works on a private JSON copy, so nothing else can see it change. Deleting
 an array's item leaves a hole, which is not a key until the next JSON copy turns it into null. What a URL
 cleaner does to a value is a parameter.
 */
module TemplateRedaction {
  import opened Wrappers

  /** Arrays are keyed by their indices written out. */
  datatype Json =
    | Null | Text(text: string) | Other(repr: string) | Hole
    | Node(isArray: bool, fields: map<string, Json>)

  datatype Mode = Remove | Url

  type Cleaner = Json -> string

  /** What the URL cleaner is assumed to do: nothing comes of null, and a cleaned URL is clean. */
  ghost predicate Cleans(clean: Cleaner) {
    && clean(Null) == ""
    && forall v :: clean(Text(clean(v))) == clean(v)
  }

  /** JSON.parse(JSON.stringify(...)). */
  function Copy(v: Json): Json
    decreases v
  {
    if !v.Node? then v
    else Node(v.isArray, map k | k in v.fields :: if v.fields[k].Hole? then Null else Copy(v.fields[k]))
  }

  // ---- one path --------------------------------------------------------------------------------

  predicate Hits(segment: string, key: string) { segment == "*" || segment == key }

  datatype Act = Kept | Changed(now: Json) | Deleted

  function ActOn(v: Json, mode: Mode, clean: Cleaner): Act {
    if mode.Remove? then Deleted
    else if v == Text(clean(v)) then Kept
    else if clean(v) != "" then Changed(Text(clean(v)))
    else Deleted
  }

  /** A key of the node that is there to be visited. */
  predicate Has(v: Json, k: string) { v.Node? && k in v.fields && !v.fields[k].Hole? }

  predicate Visits(v: Json, path: seq<string>, k: string)
    requires path != []
  {
    Has(v, k) && Hits(path[0], k)
  }

  predicate Removes(v: Json, path: seq<string>, mode: Mode, clean: Cleaner, k: string)
    requires path != []
  {
    Visits(v, path, k) && |path| == 1 && ActOn(v.fields[k], mode, clean).Deleted?
  }

  /** The tree with every place the path names acted on. */
  function Redact(v: Json, path: seq<string>, mode: Mode, clean: Cleaner): Json
    requires path != []
    decreases v
  {
    if !v.Node? then v
    else
      Node(v.isArray, map k | k in v.fields && (v.isArray || !Removes(v, path, mode, clean, k)) ::
        if !Visits(v, path, k) then v.fields[k]
        else if |path| > 1 then Redact(v.fields[k], path[1..], mode, clean)
        else
          match ActOn(v.fields[k], mode, clean)
          case Kept => v.fields[k]
          case Changed(now) => now
          case Deleted => Hole)
  }

  /** Where the path acts: the trails of the values deleted or rewritten. */
  function HitTrails(v: Json, path: seq<string>, mode: Mode, clean: Cleaner): set<seq<string>>
    requires path != []
    decreases v, 2
  {
    if v.Node? then HitsOver(v, path, mode, clean, v.fields.Keys) else {}
  }

  function HitsOver(v: Json, path: seq<string>, mode: Mode, clean: Cleaner, keys: set<string>): set<seq<string>>
    requires path != [] && v.Node? && keys <= v.fields.Keys
    decreases v, 1
  {
    set k, t | k in keys && t in HitsAt(v, path, mode, clean, k) :: [k] + t
  }

  /** The rest of the trails under one key. */
  function HitsAt(v: Json, path: seq<string>, mode: Mode, clean: Cleaner, k: string): set<seq<string>>
    requires path != [] && v.Node? && k in v.fields
    decreases v, 0
  {
    if !Visits(v, path, k) then {}
    else if |path| > 1 then HitTrails(v.fields[k], path[1..], mode, clean)
    else if ActOn(v.fields[k], mode, clean).Kept? then {}
    else {[]}
  }

  // ---- trails ----------------------------------------------------------------------------------

  function Lookup(v: Json, trail: seq<string>): Option<Json>
    decreases |trail|
  {
    if trail == [] then Some(v)
    else if Has(v, trail[0]) then Lookup(v.fields[trail[0]], trail[1..])
    else None
  }

  predicate Matches(trail: seq<string>, path: seq<string>) {
    |trail| == |path| && forall i :: 0 <= i < |path| ==> Hits(path[i], trail[i])
  }

  /** The trail does not lead to or through a place the path names. */
  predicate Clear(trail: seq<string>, path: seq<string>) {
    |trail| < |path| || !Matches(trail[..|path|], path)
  }

  lemma MatchesTail(trail: seq<string>, path: seq<string>)
    requires trail != [] && path != []
    ensures Matches(trail, path) <==> Hits(path[0], trail[0]) && Matches(trail[1..], path[1..])
  {
    if Hits(path[0], trail[0]) && Matches(trail[1..], path[1..]) {
      forall i | 0 <= i < |path| ensures Hits(path[i], trail[i]) {
        if i > 0 { assert path[1..][i - 1] == path[i] && trail[1..][i - 1] == trail[i]; }
      }
    }
  }

  /** The trails acted on are exactly the places there that match the path and are not already as they should be. */
  lemma {:induction false} HitsAreTheMatches(v: Json, path: seq<string>, mode: Mode, clean: Cleaner, trail: seq<string>)
    requires path != []
    ensures
      trail in HitTrails(v, path, mode, clean) <==>
        Matches(trail, path) && Lookup(v, trail).Some? && !ActOn(Lookup(v, trail).value, mode, clean).Kept?
    decreases v
  {
    if trail != [] && v.Node? {
      var k, rest := trail[0], trail[1..];
      assert trail == [k] + rest;
      MatchesTail(trail, path);
      assert trail in HitTrails(v, path, mode, clean) <==> k in v.fields && rest in HitsAt(v, path, mode, clean, k) by {
        if trail in HitTrails(v, path, mode, clean) {
          assert trail in HitsOver(v, path, mode, clean, v.fields.Keys);
          var k', t :| k' in v.fields.Keys && t in HitsAt(v, path, mode, clean, k') && trail == [k'] + t;
          assert t == rest;
        }
      }
      if Visits(v, path, k) && |path| > 1 { HitsAreTheMatches(v.fields[k], path[1..], mode, clean, rest); }
    }
  }

  /** Acting on a path never makes a place that was not there. */
  lemma {:induction false} RedactOnlyRemoves(v: Json, path: seq<string>, mode: Mode, clean: Cleaner, trail: seq<string>)
    requires path != [] && Lookup(Redact(v, path, mode, clean), trail).Some?
    ensures Lookup(v, trail).Some?
    decreases v
  {
    if trail == [] {
    } else {
      var k := trail[0];
      if Visits(v, path, k) && |path| > 1 { RedactOnlyRemoves(v.fields[k], path[1..], mode, clean, trail[1..]); }
    }
  }

  /** A leaf the path neither names nor passes above is untouched. */
  lemma {:induction false} RedactSpares(v: Json, path: seq<string>, mode: Mode, clean: Cleaner, trail: seq<string>)
    requires path != [] && Lookup(v, trail).Some? && !Lookup(v, trail).value.Node? && Clear(trail, path)
    ensures Lookup(Redact(v, path, mode, clean), trail) == Lookup(v, trail)
    decreases v
  {
    if trail == [] {
    } else {
      var k, rest := trail[0], trail[1..];
      assert |path| == 1 && Visits(v, path, k) ==> Matches(trail[..1], path);
      if Visits(v, path, k) {
        if |path| > 1 {
          assert Clear(rest, path[1..]) by {
            if |trail| >= |path| {
              MatchesTail(trail[..|path|], path);
              assert trail[..|path|][1..] == rest[..|path| - 1];
            }
          }
          RedactSpares(v.fields[k], path[1..], mode, clean, rest);
        }
      }
    }
  }

  // ---- what a path leaves clean ----------------------------------------------------------------

  /** Nothing the path names is left to act on. */
  predicate CleanFor(v: Json, path: seq<string>, mode: Mode, clean: Cleaner)
    requires path != []
    decreases v
  {
    v.Node? ==>
      forall k :: k in v.fields && Visits(v, path, k) ==>
        if |path| > 1 then CleanFor(v.fields[k], path[1..], mode, clean) else ActOn(v.fields[k], mode, clean).Kept?
  }

  lemma {:induction false} RedactCleans(v: Json, path: seq<string>, mode: Mode, clean: Cleaner)
    requires path != [] && Cleans(clean)
    ensures CleanFor(Redact(v, path, mode, clean), path, mode, clean)
    decreases v
  {
    if !v.Node? {
    } else {
      var r := Redact(v, path, mode, clean);
      forall k | k in r.fields && Visits(r, path, k)
        ensures if |path| > 1 then CleanFor(r.fields[k], path[1..], mode, clean)
                else ActOn(r.fields[k], mode, clean).Kept?
      {
        assert Visits(v, path, k);
        if |path| > 1 { RedactCleans(v.fields[k], path[1..], mode, clean); }
      }
    }
  }

  /** A later path cannot undo it. */
  lemma {:induction false} RedactKeepsClean(v: Json, p: seq<string>, m: Mode, q: seq<string>, n: Mode, clean: Cleaner)
    requires p != [] && q != [] && Cleans(clean) && CleanFor(v, p, m, clean)
    ensures CleanFor(Redact(v, q, n, clean), p, m, clean)
    decreases v
  {
    if !v.Node? {
    } else {
      var r := Redact(v, q, n, clean);
      forall k | k in r.fields && Visits(r, p, k)
        ensures if |p| > 1 then CleanFor(r.fields[k], p[1..], m, clean) else ActOn(r.fields[k], m, clean).Kept?
      {
        assert Visits(v, p, k);
        if |p| == 1 {
          var x := v.fields[k];
          assert ActOn(x, m, clean).Kept? && x.Text? && x == Text(clean(x));
          if Visits(v, q, k) {
            if |q| > 1 {
              assert Redact(x, q[1..], n, clean) == x;
            } else {
              assert !ActOn(x, n, clean).Changed?;
            }
          }
          assert r.fields[k] == x;
        } else if Visits(v, q, k) && |q| > 1 {
          RedactKeepsClean(v.fields[k], p[1..], m, q[1..], n, clean);
        }
      }
    }
  }

  /** In the tree's own terms: no value is found at a removed place, and only clean text at a URL's. */
  lemma {:induction false} CleanMeans(v: Json, path: seq<string>, mode: Mode, clean: Cleaner, trail: seq<string>)
    requires path != [] && CleanFor(v, path, mode, clean) && Matches(trail, path) && Lookup(v, trail).Some?
    ensures mode.Url? && Lookup(v, trail).value == Text(clean(Lookup(v, trail).value))
    decreases v
  {
    var k := trail[0];
    MatchesTail(trail, path);
    assert Visits(v, path, k);
    if |path| > 1 { CleanMeans(v.fields[k], path[1..], mode, clean, trail[1..]); }
  }

  // ---- the spec --------------------------------------------------------------------------------

  datatype Rule = Rule(path: seq<string>, mode: Mode, reason: string)

  datatype Spec = Spec(drop: seq<(string, string)>, redact: seq<Rule>)

  datatype Kind = Section | Redacted | Removed

  datatype Omission = Omission(path: seq<string>, reason: string, kind: Kind, count: nat)

  predicate SpecOk(spec: Spec) { forall i :: 0 <= i < |spec.redact| ==> spec.redact[i].path != [] }

  function DropSection(v: Json, section: string): Json {
    if v.Node? && section in v.fields then Node(v.isArray, v.fields - {section}) else v
  }

  function Drop(v: Json, drops: seq<(string, string)>): Json {
    if drops == [] then v else DropSection(Drop(v, drops[..|drops| - 1]), drops[|drops| - 1].0)
  }

  function RedactAll(v: Json, rules: seq<Rule>, clean: Cleaner): Json
    requires forall i :: 0 <= i < |rules| ==> rules[i].path != []
  {
    if rules == [] then v
    else
      var last := rules[|rules| - 1];
      Redact(RedactAll(v, rules[..|rules| - 1], clean), last.path, last.mode, clean)
  }

  function Template(sections: Json, spec: Spec, clean: Cleaner): Json
    requires SpecOk(spec)
  {
    RedactAll(Drop(Copy(sections), spec.drop), spec.redact, clean)
  }

  lemma {:induction false} RulesLeaveClean(v: Json, rules: seq<Rule>, clean: Cleaner, i: nat)
    requires Cleans(clean) && i < |rules| && forall j :: 0 <= j < |rules| ==> rules[j].path != []
    ensures CleanFor(RedactAll(v, rules, clean), rules[i].path, rules[i].mode, clean)
  {
    var n := |rules| - 1;
    var before := RedactAll(v, rules[..n], clean);
    if i == n {
      RedactCleans(before, rules[n].path, rules[n].mode, clean);
    } else {
      RulesLeaveClean(v, rules[..n], clean, i);
      RedactKeepsClean(before, rules[i].path, rules[i].mode, rules[n].path, rules[n].mode, clean);
    }
  }

  lemma {:induction false} RulesOnlyRemove(v: Json, rules: seq<Rule>, clean: Cleaner, trail: seq<string>)
    requires (forall j :: 0 <= j < |rules| ==> rules[j].path != []) && Lookup(RedactAll(v, rules, clean), trail).Some?
    ensures Lookup(v, trail).Some?
  {
    if rules == [] {
    } else {
      var n := |rules| - 1;
      RedactOnlyRemoves(RedactAll(v, rules[..n], clean), rules[n].path, rules[n].mode, clean, trail);
      RulesOnlyRemove(v, rules[..n], clean, trail);
    }
  }

  lemma {:induction false} DropRemoves(v: Json, drops: seq<(string, string)>, i: nat)
    requires i < |drops|
    ensures !Has(Drop(v, drops), drops[i].0)
  {
    if i < |drops| - 1 { DropRemoves(v, drops[..|drops| - 1], i); }
  }

  /** No dropped section is left, nothing a removing path names is left, and what a URL path names is clean text. */
  lemma NothingNamedSurvives(sections: Json, spec: Spec, clean: Cleaner, trail: seq<string>)
    requires SpecOk(spec) && Cleans(clean) && Lookup(Template(sections, spec, clean), trail).Some?
    ensures trail != [] ==> forall i :: 0 <= i < |spec.drop| ==> spec.drop[i].0 != trail[0]
    ensures
      forall i :: 0 <= i < |spec.redact| && Matches(trail, spec.redact[i].path) ==>
        && spec.redact[i].mode.Url?
        && var found := Lookup(Template(sections, spec, clean), trail).value; found == Text(clean(found))
  {
    var v := Drop(Copy(sections), spec.drop);
    forall i | 0 <= i < |spec.redact| && Matches(trail, spec.redact[i].path)
      ensures spec.redact[i].mode.Url?
      ensures var found := Lookup(Template(sections, spec, clean), trail).value; found == Text(clean(found))
    {
      RulesLeaveClean(v, spec.redact, clean, i);
      CleanMeans(Template(sections, spec, clean), spec.redact[i].path, spec.redact[i].mode, clean, trail);
    }
    RulesOnlyRemove(v, spec.redact, clean, trail);
    forall i | 0 <= i < |spec.drop| && trail != [] ensures spec.drop[i].0 != trail[0] {
      DropRemoves(Copy(sections), spec.drop, i);
    }
  }

  lemma {:induction false} RulesSpare(v: Json, rules: seq<Rule>, clean: Cleaner, trail: seq<string>)
    requires forall j :: 0 <= j < |rules| ==> rules[j].path != [] && Clear(trail, rules[j].path)
    requires Lookup(v, trail).Some? && !Lookup(v, trail).value.Node?
    ensures Lookup(RedactAll(v, rules, clean), trail) == Lookup(v, trail)
  {
    if rules == [] {
    } else {
      var n := |rules| - 1;
      RulesSpare(v, rules[..n], clean, trail);
      RedactSpares(RedactAll(v, rules[..n], clean), rules[n].path, rules[n].mode, clean, trail);
    }
  }

  lemma {:induction false} DropSpares(v: Json, drops: seq<(string, string)>, trail: seq<string>)
    requires trail != [] && forall i :: 0 <= i < |drops| ==> drops[i].0 != trail[0]
    ensures Lookup(Drop(v, drops), trail) == Lookup(v, trail)
  {
    if drops == [] {
    } else {
      DropSpares(v, drops[..|drops| - 1], trail);
    }
  }

  lemma {:induction false} CopySpares(v: Json, trail: seq<string>)
    requires Lookup(v, trail).Some? && !Lookup(v, trail).value.Node?
    ensures Lookup(Copy(v), trail) == Lookup(v, trail)
    decreases |trail|
  {
    if trail == [] {
    } else {
      CopySpares(v.fields[trail[0]], trail[1..]);
    }
  }

  /** Every value outside the dropped sections with no redacted place above it is in the template as it was. */
  lemma EverythingElseSurvives(sections: Json, spec: Spec, clean: Cleaner, trail: seq<string>)
    requires SpecOk(spec) && trail != [] && Lookup(sections, trail).Some? && !Lookup(sections, trail).value.Node?
    requires forall i :: 0 <= i < |spec.drop| ==> spec.drop[i].0 != trail[0]
    requires forall i :: 0 <= i < |spec.redact| ==> Clear(trail, spec.redact[i].path)
    ensures Lookup(Template(sections, spec, clean), trail) == Lookup(sections, trail)
  {
    CopySpares(sections, trail);
    DropSpares(Copy(sections), spec.drop, trail);
    RulesSpare(Drop(Copy(sections), spec.drop), spec.redact, clean, trail);
  }

  // ---- what survives, exactly ------------------------------------------------------------------

  /** One trail leads to the other's place or through it. */
  predicate Meet(t: seq<string>, trail: seq<string>) { t <= trail || trail <= t }

  /** The path acts on nothing at, above or below the place. */
  ghost predicate Misses(v: Json, path: seq<string>, mode: Mode, clean: Cleaner, trail: seq<string>)
    requires path != []
  {
    forall t :: t in HitTrails(v, path, mode, clean) ==> !Meet(t, trail)
  }

  lemma {:induction false} LookupSplit(v: Json, trail: seq<string>, rest: seq<string>)
    requires Lookup(v, trail).Some?
    ensures Lookup(v, trail + rest) == Lookup(Lookup(v, trail).value, rest)
    decreases |trail|
  {
    if trail == [] {
      assert trail + rest == rest;
    } else {
      assert (trail + rest)[1..] == trail[1..] + rest;
      LookupSplit(v.fields[trail[0]], trail[1..], rest);
    }
  }

  /** A place above another one that is there is a node. */
  lemma {:induction false} AboveIsNode(v: Json, t: seq<string>, trail: seq<string>)
    requires t < trail && Lookup(v, trail).Some?
    ensures Lookup(v, t).Some? && Lookup(v, t).value.Node?
    decreases |t|
  {
    if t == [] {
    } else {
      AboveIsNode(v.fields[t[0]], t[1..], trail[1..]);
    }
  }

  lemma MeetTail(k: string, t: seq<string>, rest: seq<string>)
    ensures Meet([k] + t, [k] + rest) <==> Meet(t, rest)
  {
    assert ([k] + t)[1..] == t && ([k] + rest)[1..] == rest;
    assert [k] + t <= [k] + rest <==> t <= rest;
    assert [k] + rest <= [k] + t <==> rest <= t;
  }

  lemma MissesBelow(v: Json, path: seq<string>, mode: Mode, clean: Cleaner, k: string, rest: seq<string>)
    requires |path| > 1 && Visits(v, path, k) && Misses(v, path, mode, clean, [k] + rest)
    ensures Misses(v.fields[k], path[1..], mode, clean, rest)
  {
    forall t | t in HitTrails(v.fields[k], path[1..], mode, clean) ensures !Meet(t, rest) {
      HitsAreTheMatches(v.fields[k], path[1..], mode, clean, t);
      HitsAreTheMatches(v, path, mode, clean, [k] + t);
      assert ([k] + t)[1..] == t;
      MatchesTail([k] + t, path);
      assert [k] + t in HitTrails(v, path, mode, clean);
      MeetTail(k, t, rest);
    }
  }

  /** What a path misses it leaves as it was, containers included. */
  lemma {:induction false} RedactMisses(v: Json, path: seq<string>, mode: Mode, clean: Cleaner, trail: seq<string>)
    requires path != [] && Lookup(v, trail).Some? && Misses(v, path, mode, clean, trail)
    ensures Lookup(Redact(v, path, mode, clean), trail) == Lookup(v, trail)
    decreases v
  {
    if !v.Node? {
    } else if trail == [] {
      var r := Redact(v, path, mode, clean);
      forall k | k in v.fields ensures k in r.fields && r.fields[k] == v.fields[k] {
        RedactMissesKey(v, path, mode, clean, k, []);
      }
      assert r.fields == v.fields;
    } else {
      assert trail == [trail[0]] + trail[1..];
      RedactMissesKey(v, path, mode, clean, trail[0], trail[1..]);
    }
  }

  /** One key of it; `rest` is [] when the whole value below the key is to stay. */
  lemma {:induction false} RedactMissesKey(v: Json, path: seq<string>, mode: Mode, clean: Cleaner, k: string,
                                           rest: seq<string>)
    requires path != [] && v.Node? && k in v.fields && (rest != [] ==> Has(v, k) && Lookup(v.fields[k], rest).Some?)
    requires Misses(v, path, mode, clean, [k] + rest) || (rest == [] && Misses(v, path, mode, clean, []))
    ensures
      var r := Redact(v, path, mode, clean);
      k in r.fields && (if rest == [] then r.fields[k] == v.fields[k]
                        else Has(r, k) && Lookup(r.fields[k], rest) == Lookup(v.fields[k], rest))
    decreases v, 0
  {
    if Visits(v, path, k) {
      assert Misses(v, path, mode, clean, [k] + rest);
      if |path| > 1 {
        MissesBelow(v, path, mode, clean, k, rest);
        RedactMisses(v.fields[k], path[1..], mode, clean, rest);
      } else {
        HitsAreTheMatches(v, path, mode, clean, [k]);
        assert Meet([k], [k] + rest);
      }
    }
  }

  /** Two trees that hold the same at a place are hit in the same places at, above and below it. */
  lemma HitStays(v: Json, w: Json, path: seq<string>, mode: Mode, clean: Cleaner, trail: seq<string>, t: seq<string>)
    requires path != [] && Lookup(v, trail).Some? && Lookup(v, trail) == Lookup(w, trail)
    requires t in HitTrails(v, path, mode, clean) && Meet(t, trail)
    ensures t in HitTrails(w, path, mode, clean)
  {
    HitsAreTheMatches(v, path, mode, clean, t);
    HitsAreTheMatches(w, path, mode, clean, t);
    if trail <= t {
      assert t == trail + t[|trail|..];
      LookupSplit(v, trail, t[|trail|..]);
      LookupSplit(w, trail, t[|trail|..]);
    } else {
      AboveIsNode(w, t, trail);
    }
  }

  lemma StillMisses(v: Json, w: Json, path: seq<string>, mode: Mode, clean: Cleaner, trail: seq<string>)
    requires path != [] && Lookup(v, trail).Some? && Lookup(v, trail) == Lookup(w, trail)
    requires Misses(v, path, mode, clean, trail)
    ensures Misses(w, path, mode, clean, trail)
  {
    forall t | t in HitTrails(w, path, mode, clean) ensures !Meet(t, trail) {
      if Meet(t, trail) { HitStays(w, v, path, mode, clean, trail, t); }
    }
  }

  /** Where nothing is left to act on nothing is hit. */
  lemma CleanMisses(v: Json, path: seq<string>, mode: Mode, clean: Cleaner, trail: seq<string>)
    requires path != [] && CleanFor(v, path, mode, clean)
    ensures Misses(v, path, mode, clean, trail)
  {
    forall t ensures t !in HitTrails(v, path, mode, clean) {
      HitsAreTheMatches(v, path, mode, clean, t);
      if Matches(t, path) && Lookup(v, t).Some? { CleanMeans(v, path, mode, clean, t); }
    }
  }

  ghost predicate AllMiss(v: Json, rules: seq<Rule>, clean: Cleaner, trail: seq<string>) {
    forall j :: 0 <= j < |rules| ==> rules[j].path != [] && Misses(v, rules[j].path, rules[j].mode, clean, trail)
  }

  lemma {:induction false} RulesMiss(v: Json, rules: seq<Rule>, clean: Cleaner, trail: seq<string>)
    requires AllMiss(v, rules, clean, trail) && Lookup(v, trail).Some?
    ensures Lookup(RedactAll(v, rules, clean), trail) == Lookup(v, trail)
  {
    if rules == [] {
    } else {
      var n := |rules| - 1;
      var before := RedactAll(v, rules[..n], clean);
      RulesMiss(v, rules[..n], clean, trail);
      StillMisses(v, before, rules[n].path, rules[n].mode, clean, trail);
      RedactMisses(before, rules[n].path, rules[n].mode, clean, trail);
    }
  }

  lemma UndroppedSurvivesIff(v: Json, rules: seq<Rule>, clean: Cleaner, trail: seq<string>)
    requires Cleans(clean) && Lookup(v, trail).Some? && forall j :: 0 <= j < |rules| ==> rules[j].path != []
    ensures Lookup(RedactAll(v, rules, clean), trail) == Lookup(v, trail) <==> AllMiss(v, rules, clean, trail)
  {
    var out := RedactAll(v, rules, clean);
    if AllMiss(v, rules, clean, trail) {
      RulesMiss(v, rules, clean, trail);
    } else if Lookup(out, trail) == Lookup(v, trail) {
      forall j | 0 <= j < |rules| ensures Misses(v, rules[j].path, rules[j].mode, clean, trail) {
        RulesLeaveClean(v, rules, clean, j);
        CleanMisses(out, rules[j].path, rules[j].mode, clean, trail);
        StillMisses(out, v, rules[j].path, rules[j].mode, clean, trail);
      }
    }
  }

  /**
   A value, leaf or container, full or empty, is in the template just as it was exactly when its section is not
   dropped and no rule acts on anything at, above or below it.
   */
  lemma SurvivesIff(sections: Json, spec: Spec, clean: Cleaner, trail: seq<string>)
    requires SpecOk(spec) && Cleans(clean) && trail != [] && Lookup(Copy(sections), trail).Some?
    ensures
      Lookup(Template(sections, spec, clean), trail) == Lookup(Copy(sections), trail) <==>
        && (forall i :: 0 <= i < |spec.drop| ==> spec.drop[i].0 != trail[0])
        && AllMiss(Copy(sections), spec.redact, clean, trail)
  {
    var whole, kept := Copy(sections), Drop(Copy(sections), spec.drop);
    if forall i :: 0 <= i < |spec.drop| ==> spec.drop[i].0 != trail[0] {
      DropSpares(whole, spec.drop, trail);
      UndroppedSurvivesIff(kept, spec.redact, clean, trail);
      AllMissAlike(whole, kept, spec.redact, clean, trail);
    } else if Lookup(Template(sections, spec, clean), trail).Some? {
      NothingNamedSurvives(sections, spec, clean, trail);
    }
  }

  lemma AllMissAlike(v: Json, w: Json, rules: seq<Rule>, clean: Cleaner, trail: seq<string>)
    requires Lookup(v, trail).Some? && Lookup(v, trail) == Lookup(w, trail)
    requires forall j :: 0 <= j < |rules| ==> rules[j].path != []
    ensures AllMiss(v, rules, clean, trail) <==> AllMiss(w, rules, clean, trail)
  {
    forall j | 0 <= j < |rules|
      ensures Misses(v, rules[j].path, rules[j].mode, clean, trail) <==>
              Misses(w, rules[j].path, rules[j].mode, clean, trail)
    {
      if Misses(v, rules[j].path, rules[j].mode, clean, trail) {
        StillMisses(v, w, rules[j].path, rules[j].mode, clean, trail);
      }
      if Misses(w, rules[j].path, rules[j].mode, clean, trail) {
        StillMisses(w, v, rules[j].path, rules[j].mode, clean, trail);
      }
    }
  }

  /** What a place the path names comes to: nothing, or the text its URL is cleaned to. */
  lemma {:induction false} RedactNamed(v: Json, path: seq<string>, mode: Mode, clean: Cleaner, trail: seq<string>)
    requires path != [] && Matches(trail, path) && Lookup(v, trail).Some? && Cleans(clean)
    ensures
      var x := Lookup(v, trail).value;
      Lookup(Redact(v, path, mode, clean), trail) ==
      if mode.Remove? then None
      else if clean(x) != "" then Some(Text(clean(x)))
      else if x == Text("") then Some(x)
      else None
    decreases |trail|
  {
    MatchesTail(trail, path);
    var k := trail[0];
    assert Visits(v, path, k);
    if |path| > 1 {
      RedactNamed(v.fields[k], path[1..], mode, clean, trail[1..]);
    } else {
      assert Lookup(v.fields[k], []) == Some(v.fields[k]);
      var r := Redact(v, path, mode, clean);
      if Has(r, k) { assert Lookup(r.fields[k], trail[1..]) == Some(r.fields[k]); }
    }
  }

  /** A URL: its cleaned text, or nothing when nothing is left of it. */
  function CleanedUrl(x: Json, clean: Cleaner): Option<Json> {
    if clean(x) != "" then Some(Text(clean(x))) else if x == Text("") then Some(x) else None
  }

  /** Each rule names the place, as a URL, or has nothing to do with it. */
  predicate OnlyUrls(rules: seq<Rule>, trail: seq<string>) {
    forall j :: 0 <= j < |rules| ==>
      && rules[j].path != []
      && (Clear(trail, rules[j].path) || (rules[j].mode.Url? && Matches(trail, rules[j].path)))
  }

  predicate SomeUrl(rules: seq<Rule>, trail: seq<string>) {
    exists j :: 0 <= j < |rules| && Matches(trail, rules[j].path)
  }

  /** One rule more: `seen` when one before it named the place. */
  lemma UrlNext(v: Json, rule: Rule, clean: Cleaner, trail: seq<string>, x: Json, seen: bool)
    requires OnlyUrls([rule], trail) && rule.path != [] && Cleans(clean) && !x.Node?
    requires Lookup(v, trail) == if seen then CleanedUrl(x, clean) else Some(x)
    ensures
      Lookup(Redact(v, rule.path, rule.mode, clean), trail) ==
      if seen || Matches(trail, rule.path) then CleanedUrl(x, clean) else Some(x)
  {
    assert [rule][0] == rule;
    if Lookup(v, trail).None? {
      if Lookup(Redact(v, rule.path, rule.mode, clean), trail).Some? {
        RedactOnlyRemoves(v, rule.path, rule.mode, clean, trail);
      }
    } else if Matches(trail, rule.path) {
      assert trail[..|rule.path|] == trail;
      RedactNamed(v, rule.path, rule.mode, clean, trail);
      assert clean(Text(clean(x))) == clean(x);
    } else {
      RedactSpares(v, rule.path, rule.mode, clean, trail);
    }
  }

  lemma UrlsOn(rules: seq<Rule>, trail: seq<string>)
    requires rules != [] && OnlyUrls(rules, trail)
    ensures
      var init, last := rules[..|rules| - 1], rules[|rules| - 1];
      && OnlyUrls(init, trail) && OnlyUrls([last], trail) && last.path != []
      && (SomeUrl(rules, trail) <==> SomeUrl(init, trail) || Matches(trail, last.path))
  {
    var n := |rules| - 1;
    assert [rules[n]][0] == rules[n];
    if j :| 0 <= j < n && Matches(trail, rules[..n][j].path) { assert Matches(trail, rules[j].path); }
  }

  lemma {:induction false} UrlsAreCleaned(v: Json, rules: seq<Rule>, clean: Cleaner, trail: seq<string>)
    requires OnlyUrls(rules, trail) && Cleans(clean) && Lookup(v, trail).Some? && !Lookup(v, trail).value.Node?
    ensures
      Lookup(RedactAll(v, rules, clean), trail) ==
      if SomeUrl(rules, trail) then CleanedUrl(Lookup(v, trail).value, clean) else Lookup(v, trail)
  {
    if rules == [] {
    } else {
      var n := |rules| - 1;
      UrlsOn(rules, trail);
      UrlsAreCleaned(v, rules[..n], clean, trail);
      UrlNext(RedactAll(v, rules[..n], clean), rules[n], clean, trail, Lookup(v, trail).value,
              SomeUrl(rules[..n], trail));
    }
  }

  /**
   A leaf that is named only as a URL is in the template as its cleaned text, or not at all if nothing is left
   of it.
   */
  lemma TemplateKeepsCleanedUrls(sections: Json, spec: Spec, clean: Cleaner, trail: seq<string>)
    requires SpecOk(spec) && Cleans(clean) && trail != []
    requires Lookup(sections, trail).Some? && !Lookup(sections, trail).value.Node?
    requires forall i :: 0 <= i < |spec.drop| ==> spec.drop[i].0 != trail[0]
    requires OnlyUrls(spec.redact, trail) && SomeUrl(spec.redact, trail)
    ensures Lookup(Template(sections, spec, clean), trail) == CleanedUrl(Lookup(sections, trail).value, clean)
  {
    CopySpares(sections, trail);
    DropSpares(Copy(sections), spec.drop, trail);
    UrlsAreCleaned(Drop(Copy(sections), spec.drop), spec.redact, clean, trail);
  }

  // ---- applying it twice -----------------------------------------------------------------------

  /** The paths that go on below a key. */
  function Below(paths: set<seq<string>>, k: string): set<seq<string>> {
    set p | p in paths && |p| > 1 && Hits(p[0], k) :: p[1..]
  }

  predicate Named(paths: set<seq<string>>, k: string) { exists p :: p in paths && |p| == 1 && Hits(p[0], k) }

  /** Every hole is at a place one of the paths names. */
  predicate HolesNamed(v: Json, paths: set<seq<string>>)
    decreases v
  {
    v.Node? ==> forall k :: k in v.fields ==>
      if v.fields[k].Hole? then Named(paths, k) else HolesNamed(v.fields[k], Below(paths, k))
  }

  /** The tree with null in every hole the paths do not name. */
  function Fill(v: Json, paths: set<seq<string>>): Json
    decreases v
  {
    if !v.Node? then v
    else
      Node(v.isArray, map k | k in v.fields ::
        if !v.fields[k].Hole? then Fill(v.fields[k], Below(paths, k))
        else if Named(paths, k) then Hole
        else Null)
  }

  lemma {:induction false} FillNoneIsCopy(v: Json)
    ensures Fill(v, {}) == Copy(v)
    decreases v
  {
    if !v.Node? {
    } else {
      forall k | k in v.fields ensures Fill(v, {}).fields[k] == Copy(v).fields[k] {
        assert Below({}, k) == {};
        if !v.fields[k].Hole? { FillNoneIsCopy(v.fields[k]); }
      }
    }
  }

  lemma {:induction false} FillAllIsSame(v: Json, paths: set<seq<string>>)
    requires HolesNamed(v, paths)
    ensures Fill(v, paths) == v
    decreases v
  {
    if !v.Node? {
    } else {
      forall k | k in v.fields ensures Fill(v, paths).fields[k] == v.fields[k] {
        if !v.fields[k].Hole? { FillAllIsSame(v.fields[k], Below(paths, k)); }
      }
    }
  }

  lemma BelowAdd(paths: set<seq<string>>, p: seq<string>, k: string)
    requires p != []
    ensures Below(paths + {p}, k) == Below(paths, k) + (if |p| > 1 && Hits(p[0], k) then {p[1..]} else {})
    ensures Named(paths + {p}, k) <==> Named(paths, k) || (|p| == 1 && Hits(p[0], k))
  {
    if |p| > 1 && Hits(p[0], k) { assert p in paths + {p}; }
    if |p| == 1 && Hits(p[0], k) { assert p in paths + {p}; }
    if Named(paths, k) {
      var q :| q in paths && |q| == 1 && Hits(q[0], k);
      assert q in paths + {p};
    }
  }

  /** Acting again on a clean tree whose holes had become null only makes its holes again. */
  lemma {:induction false} RedactRefills(v: Json, paths: set<seq<string>>, p: seq<string>, mode: Mode, clean: Cleaner)
    requires p != [] && Cleans(clean) && CleanFor(v, p, mode, clean) && OnlyArraysHaveHoles(v)
    ensures Redact(Fill(v, paths), p, mode, clean) == Fill(v, paths + {p})
    decreases v
  {
    if v.Node? {
      var f, r, g := Fill(v, paths), Redact(Fill(v, paths), p, mode, clean), Fill(v, paths + {p});
      forall k | k in v.fields ensures k in r.fields && r.fields[k] == g.fields[k] {
        RefillsAt(v, paths, p, mode, clean, k);
      }
      assert r.fields == g.fields;
    }
  }

  lemma {:induction false} RefillsAt(v: Json, paths: set<seq<string>>, p: seq<string>, mode: Mode, clean: Cleaner,
                                     k: string)
    requires p != [] && Cleans(clean) && CleanFor(v, p, mode, clean) && OnlyArraysHaveHoles(v) && v.Node?
             && k in v.fields
    ensures
      var r := Redact(Fill(v, paths), p, mode, clean);
      k in r.fields && r.fields[k] == Fill(v, paths + {p}).fields[k]
    decreases v, 0
  {
    BelowAdd(paths, p, k);
    if v.fields[k].Hole? {
      RefillsHole(v, paths, p, mode, clean, k);
    } else if !Hits(p[0], k) {
      assert Below(paths + {p}, k) == Below(paths, k);
    } else if |p| == 1 {
      assert Visits(v, p, k);
      assert v.fields[k].Text?;
    } else {
      assert Visits(v, p, k);
      RedactRefills(v.fields[k], Below(paths, k), p[1..], mode, clean);
      RefillsBelow(v, paths, p, mode, clean, k);
    }
  }

  lemma RefillsHole(v: Json, paths: set<seq<string>>, p: seq<string>, mode: Mode, clean: Cleaner, k: string)
    requires p != [] && Cleans(clean) && v.Node? && v.isArray && k in v.fields && v.fields[k].Hole?
    requires Named(paths + {p}, k) <==> Named(paths, k) || (|p| == 1 && Hits(p[0], k))
    ensures
      var r := Redact(Fill(v, paths), p, mode, clean);
      k in r.fields && r.fields[k] == Fill(v, paths + {p}).fields[k]
  {
    var f := Fill(v, paths);
    if Named(paths, k) {
      assert f.fields[k] == Hole && !Visits(f, p, k);
    } else {
      assert f.fields[k] == Null && (Visits(f, p, k) <==> Hits(p[0], k));
      assert ActOn(Null, mode, clean).Deleted?;
    }
  }

  lemma RefillsBelow(v: Json, paths: set<seq<string>>, p: seq<string>, mode: Mode, clean: Cleaner, k: string)
    requires |p| > 1 && v.Node? && Has(v, k) && Hits(p[0], k)
    requires Below(paths + {p}, k) == Below(paths, k) + {p[1..]}
    requires Redact(Fill(v.fields[k], Below(paths, k)), p[1..], mode, clean) ==
             Fill(v.fields[k], Below(paths, k) + {p[1..]})
    ensures
      var r := Redact(Fill(v, paths), p, mode, clean);
      k in r.fields && r.fields[k] == Fill(v, paths + {p}).fields[k]
  {
    var f := Fill(v, paths);
    assert f.fields[k] == Fill(v.fields[k], Below(paths, k)) && !f.fields[k].Hole?;
    assert Visits(f, p, k);
  }

  predicate OnlyArraysHaveHoles(v: Json)
    decreases v
  {
    v.Node? ==> forall k :: k in v.fields ==> if v.fields[k].Hole? then v.isArray else OnlyArraysHaveHoles(v.fields[k])
  }

  lemma {:induction false} RedactNamesHoles(v: Json, paths: set<seq<string>>, p: seq<string>, mode: Mode,
                                            clean: Cleaner)
    requires p != [] && HolesNamed(v, paths) && OnlyArraysHaveHoles(v)
    ensures HolesNamed(Redact(v, p, mode, clean), paths + {p}) && OnlyArraysHaveHoles(Redact(v, p, mode, clean))
    decreases v
  {
    if !v.Node? {
    } else {
      var r := Redact(v, p, mode, clean);
      forall k | k in r.fields
        ensures if r.fields[k].Hole? then Named(paths + {p}, k) && r.isArray
                else HolesNamed(r.fields[k], Below(paths + {p}, k)) && OnlyArraysHaveHoles(r.fields[k])
      {
        BelowAdd(paths, p, k);
        if Visits(v, p, k) {
          if |p| > 1 { RedactNamesHoles(v.fields[k], Below(paths, k), p[1..], mode, clean); }
          else { NamedByMore(v.fields[k], Below(paths, k), Below(paths + {p}, k)); }
        } else if !v.fields[k].Hole? {
          NamedByMore(v.fields[k], Below(paths, k), Below(paths + {p}, k));
        }
      }
    }
  }

  lemma {:induction false} NamedByMore(v: Json, paths: set<seq<string>>, more: set<seq<string>>)
    requires HolesNamed(v, paths) && paths <= more
    ensures HolesNamed(v, more)
    decreases v
  {
    if !v.Node? {
    } else {
      forall k | k in v.fields
        ensures if v.fields[k].Hole? then Named(more, k) else HolesNamed(v.fields[k], Below(more, k))
      {
        if v.fields[k].Hole? {
          var p :| p in paths && |p| == 1 && Hits(p[0], k);
          assert p in more;
        } else {
          NamedByMore(v.fields[k], Below(paths, k), Below(more, k));
        }
      }
    }
  }

  lemma {:induction false} CopyHasNoHoles(v: Json, paths: set<seq<string>>)
    ensures HolesNamed(Copy(v), paths) && OnlyArraysHaveHoles(Copy(v))
    decreases v
  {
    if !v.Node? {
    } else {
      forall k | k in v.fields
        ensures HolesNamed(Copy(v).fields[k], Below(paths, k)) && OnlyArraysHaveHoles(Copy(v).fields[k])
      {
        if !v.fields[k].Hole? { CopyHasNoHoles(v.fields[k], Below(paths, k)); }
      }
    }
  }

  lemma {:induction false} DropKeepsHoles(v: Json, drops: seq<(string, string)>)
    requires HolesNamed(v, {}) && OnlyArraysHaveHoles(v)
    ensures HolesNamed(Drop(v, drops), {}) && OnlyArraysHaveHoles(Drop(v, drops))
  {
    if drops == [] {
    } else {
      DropKeepsHoles(v, drops[..|drops| - 1]);
    }
  }

  function PathsOf(rules: seq<Rule>): set<seq<string>> {
    if rules == [] then {} else PathsOf(rules[..|rules| - 1]) + {rules[|rules| - 1].path}
  }

  lemma {:induction false} RulesNameHoles(v: Json, rules: seq<Rule>, clean: Cleaner)
    requires (forall j :: 0 <= j < |rules| ==> rules[j].path != []) && HolesNamed(v, {}) && OnlyArraysHaveHoles(v)
    ensures HolesNamed(RedactAll(v, rules, clean), PathsOf(rules)) && OnlyArraysHaveHoles(RedactAll(v, rules, clean))
  {
    if rules == [] {
    } else {
      var n := |rules| - 1;
      RulesNameHoles(v, rules[..n], clean);
      RedactNamesHoles(RedactAll(v, rules[..n], clean), PathsOf(rules[..n]), rules[n].path, rules[n].mode, clean);
    }
  }

  lemma {:induction false} RulesRefill(v: Json, rules: seq<Rule>, clean: Cleaner)
    requires Cleans(clean) && OnlyArraysHaveHoles(v)
    requires forall j :: 0 <= j < |rules| ==> rules[j].path != [] && CleanFor(v, rules[j].path, rules[j].mode, clean)
    ensures RedactAll(Fill(v, {}), rules, clean) == Fill(v, PathsOf(rules))
  {
    if rules == [] {
    } else {
      var n := |rules| - 1;
      RulesRefill(v, rules[..n], clean);
      RedactRefills(v, PathsOf(rules[..n]), rules[n].path, rules[n].mode, clean);
    }
  }

  /** A hole an array's item left at the trail's end. */
  predicate HoleAt(v: Json, trail: seq<string>)
    decreases |trail|
  {
    && trail != [] && v.Node? && trail[0] in v.fields
    && (if |trail| == 1 then v.fields[trail[0]].Hole? else HoleAt(v.fields[trail[0]], trail[1..]))
  }

  lemma {:induction false} CopyIsHitAtHoles(v: Json, path: seq<string>, mode: Mode, clean: Cleaner, trail: seq<string>)
    requires path != [] && Cleans(clean) && CleanFor(v, path, mode, clean) && Matches(trail, path)
    ensures
      var found := Lookup(Copy(v), trail);
      found.Some? && !ActOn(found.value, mode, clean).Kept? <==> HoleAt(v, trail)
    decreases |trail|
  {
    if Has(v, trail[0]) {
      MatchesTail(trail, path);
      var x := v.fields[trail[0]];
      if |trail| == 1 {
        assert Lookup(Copy(v), trail) == Some(Copy(x)) by { assert Lookup(Copy(x), trail[1..]) == Some(Copy(x)); }
      } else {
        CopyIsHitAtHoles(x, path[1..], mode, clean, trail[1..]);
      }
    } else if HoleAt(v, trail) && |trail| == 1 {
      assert Lookup(Copy(v), trail) == Some(Null) by { assert Lookup(Null, trail[1..]) == Some(Null); }
    }
  }

  /** Acting a second time, on a copy, hits exactly the holes that acting the first time left on the path. */
  lemma HolesAreHitAgain(v: Json, path: seq<string>, mode: Mode, clean: Cleaner, trail: seq<string>)
    requires path != [] && Cleans(clean)
    ensures
      var r := Redact(v, path, mode, clean);
      trail in HitTrails(Copy(r), path, mode, clean) <==> Matches(trail, path) && HoleAt(r, trail)
  {
    var r := Redact(v, path, mode, clean);
    RedactCleans(v, path, mode, clean);
    HitsAreTheMatches(Copy(r), path, mode, clean, trail);
    if Matches(trail, path) { CopyIsHitAtHoles(r, path, mode, clean, trail); }
  }

  /** A key at the root that is not there is never put there. */
  lemma {:induction false} RulesKeepRootKeys(v: Json, rules: seq<Rule>, clean: Cleaner, k: string)
    requires (forall j :: 0 <= j < |rules| ==> rules[j].path != []) && (v.Node? ==> k !in v.fields)
    ensures var r := RedactAll(v, rules, clean); r.Node? ==> k !in r.fields
  {
    if rules == [] {
    } else {
      RulesKeepRootKeys(v, rules[..|rules| - 1], clean, k);
    }
  }

  lemma {:induction false} DropRemovesKey(v: Json, drops: seq<(string, string)>, i: nat)
    requires i < |drops|
    ensures var r := Drop(v, drops); r.Node? ==> drops[i].0 !in r.fields
  {
    if i < |drops| - 1 { DropRemovesKey(v, drops[..|drops| - 1], i); }
  }

  lemma {:induction false} DropAgain(v: Json, drops: seq<(string, string)>)
    requires forall i :: 0 <= i < |drops| ==> !(v.Node? && drops[i].0 in v.fields)
    ensures Drop(v, drops) == v
  {
    if drops == [] {
    } else {
      DropAgain(v, drops[..|drops| - 1]);
    }
  }

  /** Templating a template changes nothing, array holes included. */
  lemma TemplateTwiceIsOnce(sections: Json, spec: Spec, clean: Cleaner)
    requires SpecOk(spec) && Cleans(clean)
    ensures Template(Template(sections, spec, clean), spec, clean) == Template(sections, spec, clean)
  {
    var start := Drop(Copy(sections), spec.drop);
    var out := Template(sections, spec, clean);
    CopyHasNoHoles(sections, {});
    DropKeepsHoles(Copy(sections), spec.drop);
    RulesNameHoles(start, spec.redact, clean);
    forall j | 0 <= j < |spec.redact| ensures CleanFor(out, spec.redact[j].path, spec.redact[j].mode, clean) {
      RulesLeaveClean(start, spec.redact, clean, j);
    }
    forall i | 0 <= i < |spec.drop| ensures !(Copy(out).Node? && spec.drop[i].0 in Copy(out).fields) {
      DropRemovesKey(Copy(sections), spec.drop, i);
      RulesKeepRootKeys(start, spec.redact, clean, spec.drop[i].0);
    }
    DropAgain(Copy(out), spec.drop);
    FillNoneIsCopy(out);
    RulesRefill(out, spec.redact, clean);
    FillAllIsSame(out, PathsOf(spec.redact));
  }

  // ---- the code --------------------------------------------------------------------------------

  lemma {:induction false} PrefixedCount(k: string, rests: set<seq<string>>, all: set<seq<string>>)
    requires all == set t | t in rests :: [k] + t
    ensures |all| == |rests|
    decreases rests
  {
    if rests == {} {
      assert all == {};
    } else {
      var t :| t in rests;
      var fewer := set u | u in rests - {t} :: [k] + u;
      assert all == fewer + {[k] + t};
      assert [k] + t !in fewer by {
        assert forall u :: u in rests - {t} ==> ([k] + u)[1..] == u;
        assert ([k] + t)[1..] == t;
      }
      PrefixedCount(k, rests - {t}, fewer);
    }
  }

  function Prefixed(k: string, rests: set<seq<string>>): set<seq<string>> { set t | t in rests :: [k] + t }

  lemma HitsSplit(v: Json, path: seq<string>, mode: Mode, clean: Cleaner, keys: set<string>, k: string)
    requires path != [] && v.Node? && keys <= v.fields.Keys && k in v.fields
    ensures
      HitsOver(v, path, mode, clean, keys + {k}) ==
      HitsOver(v, path, mode, clean, keys) + Prefixed(k, HitsAt(v, path, mode, clean, k))
  {
    var more, before, here :=
      HitsOver(v, path, mode, clean, keys + {k}), HitsOver(v, path, mode, clean, keys),
        Prefixed(k, HitsAt(v, path, mode, clean, k));
    forall t ensures t in more <==> t in before + here {
      if t in before {
        var j, rest :| j in keys && rest in HitsAt(v, path, mode, clean, j) && t == [j] + rest;
        assert j in keys + {k};
      }
    }
  }

  /** Counting key by key counts every trail once. */
  lemma HitsAddUp(v: Json, path: seq<string>, mode: Mode, clean: Cleaner, keys: set<string>, k: string)
    requires path != [] && v.Node? && keys <= v.fields.Keys && k in v.fields && k !in keys
    ensures
      |HitsOver(v, path, mode, clean, keys + {k})| ==
      |HitsOver(v, path, mode, clean, keys)| + |HitsAt(v, path, mode, clean, k)|
  {
    var rests, before := HitsAt(v, path, mode, clean, k), HitsOver(v, path, mode, clean, keys);
    PrefixedCount(k, rests, Prefixed(k, rests));
    HitsSplit(v, path, mode, clean, keys, k);
    forall t | t in before ensures t !in Prefixed(k, rests) { assert t[0] in keys; }
    assert before !! Prefixed(k, rests);
  }

  function At(fields: map<string, Json>, k: string): Option<Json> { if k in fields then Some(fields[k]) else None }

  /** Acts on one key, or walks on below it. Returns what is there afterwards, and the hits. */
  method VisitKey(v: Json, path: seq<string>, mode: Mode, clean: Cleaner, k: string)
      returns (now: Option<Json>, hits: nat)
    requires path != [] && v.Node? && k in v.fields
    ensures now == At(Redact(v, path, mode, clean).fields, k)
    ensures hits == |HitsAt(v, path, mode, clean, k)|
    decreases v, 0
  {
    now, hits := Some(v.fields[k]), 0;
    if Visits(v, path, k) {
      if |path| > 1 {
        var below, n := Walk(v.fields[k], path[1..], mode, clean);
        now, hits := Some(below), n;
      } else {
        var act := ActOn(v.fields[k], mode, clean);
        if !act.Kept? {
          now := if act.Changed? then Some(act.now) else if v.isArray then Some(Hole) else None;
          hits := 1;
        }
      }
    }
  }

  /** The walk over every key the segment names. Returns the tree afterwards, and the hits. */
  method Walk(v: Json, path: seq<string>, mode: Mode, clean: Cleaner) returns (out: Json, hits: nat)
    requires path != []
    ensures out == Redact(v, path, mode, clean)
    ensures hits == |HitTrails(v, path, mode, clean)|
    decreases v, 1
  {
    hits := 0;
    if !v.Node? { return v, 0; }
    var fields := v.fields;
    var done: set<string> := {};
    ghost var whole := Redact(v, path, mode, clean).fields;
    while v.fields.Keys - done != {}
      invariant done <= v.fields.Keys
      invariant PartWay(v.fields, fields, whole, done)
      invariant hits == |HitsOver(v, path, mode, clean, done)|
      decreases v.fields.Keys - done
    {
      var k :| k in v.fields.Keys - done;
      HitsAddUp(v, path, mode, clean, done, k);
      var now, n := VisitKey(v, path, mode, clean, k);
      PartWayOn(v.fields, fields, whole, done, k, now);
      fields := if now.Some? then fields[k := now.value] else fields - {k};
      done := done + {k};
      hits := hits + n;
    }
    assert done == v.fields.Keys;
    PartWayDone(v.fields, fields, whole);
    out := Node(v.isArray, fields);
  }

  /** The keys done are as they will be, the others as they were. */
  ghost predicate PartWay(was: map<string, Json>, fields: map<string, Json>, whole: map<string, Json>,
                          done: set<string>) {
    && fields.Keys <= was.Keys
    && forall k :: k in was ==> At(fields, k) == At(if k in done then whole else was, k)
  }

  lemma PartWayOn(was: map<string, Json>, fields: map<string, Json>, whole: map<string, Json>, done: set<string>,
                  k: string, now: Option<Json>)
    requires PartWay(was, fields, whole, done) && k in was && now == At(whole, k)
    ensures PartWay(was, if now.Some? then fields[k := now.value] else fields - {k}, whole, done + {k})
  {}

  lemma PartWayDone(was: map<string, Json>, fields: map<string, Json>, whole: map<string, Json>)
    requires PartWay(was, fields, whole, was.Keys) && whole.Keys <= was.Keys
    ensures fields == whole
  {
    assert forall k :: k in was ==> At(fields, k) == At(whole, k);
  }

  function RuleOmission(v: Json, rule: Rule, clean: Cleaner): seq<Omission>
    requires rule.path != []
  {
    var hits := |HitTrails(v, rule.path, rule.mode, clean)|;
    if hits == 0 then [] else [Omission(rule.path, rule.reason, if rule.mode.Url? then Redacted else Removed, hits)]
  }

  /** What is reported left out: each rule with the number of places it acted on when its turn came. */
  function RuleOmissions(v: Json, rules: seq<Rule>, clean: Cleaner): seq<Omission>
    requires forall i :: 0 <= i < |rules| ==> rules[i].path != []
  {
    if rules == [] then []
    else
      var n := |rules| - 1;
      RuleOmissions(v, rules[..n], clean) + RuleOmission(RedactAll(v, rules[..n], clean), rules[n], clean)
  }

  function SectionOmissions(v: Json, drops: seq<(string, string)>): seq<Omission> {
    if drops == [] then []
    else
      var n := |drops| - 1;
      var before := Drop(v, drops[..n]);
      SectionOmissions(v, drops[..n]) +
      (if before.Node? && drops[n].0 in before.fields then [Omission([drops[n].0], drops[n].1, Section, 0)] else [])
  }

  /** The tree the i-th rule finds when its turn comes. */
  function Before(v: Json, rules: seq<Rule>, clean: Cleaner, i: nat): Json
    requires i <= |rules| && forall j :: 0 <= j < |rules| ==> rules[j].path != []
  {
    RedactAll(v, rules[..i], clean)
  }

  /** The i-th rule has something to act on when its turn comes. */
  predicate Acts(v: Json, rules: seq<Rule>, clean: Cleaner, i: nat)
    requires forall j :: 0 <= j < |rules| ==> rules[j].path != []
  {
    i < |rules| && HitTrails(Before(v, rules, clean, i), rules[i].path, rules[i].mode, clean) != {}
  }

  /** What is reported of it: its path and reason, whether places were cleaned or removed, and how many. */
  predicate Reports(v: Json, rules: seq<Rule>, clean: Cleaner, i: nat, o: Omission)
    requires forall j :: 0 <= j < |rules| ==> rules[j].path != []
  {
    && Acts(v, rules, clean, i) && o.path == rules[i].path && o.reason == rules[i].reason
    && (o.kind.Redacted? <==> rules[i].mode.Url?) && (o.kind.Removed? <==> rules[i].mode.Remove?)
    && o.count == |HitTrails(Before(v, rules, clean, i), rules[i].path, rules[i].mode, clean)|
  }

  /** The parts one after another, and how many of the first n have something. */
  function Joined(parts: nat -> seq<Omission>, n: nat): seq<Omission> {
    if n == 0 then [] else Joined(parts, n - 1) + parts(n - 1)
  }

  function Having(parts: nat -> seq<Omission>, n: nat): nat {
    if n == 0 then 0 else Having(parts, n - 1) + (if parts(n - 1) == [] then 0 else 1)
  }

  lemma {:induction false} JoinedAt(parts: nat -> seq<Omission>, n: nat, i: nat)
    requires forall k :: |parts(k)| <= 1
    ensures |Joined(parts, n)| == Having(parts, n)
    ensures i < n && parts(i) != [] ==>
      Having(parts, i) < |Joined(parts, n)| && Joined(parts, n)[Having(parts, i)] == parts(i)[0]
  {
    if n == 0 {
    } else {
      JoinedAt(parts, n - 1, i);
    }
  }

  lemma RuleIsReported(v: Json, rule: Rule, clean: Cleaner)
    requires rule.path != []
    ensures
      var hits, out := HitTrails(v, rule.path, rule.mode, clean), RuleOmission(v, rule, clean);
      if hits == {} then out == []
      else
        && |out| == 1 && out[0].path == rule.path && out[0].reason == rule.reason && out[0].count == |hits| > 0
        && (out[0].kind.Redacted? <==> rule.mode.Url?) && (out[0].kind.Removed? <==> rule.mode.Remove?)
  {
    var hits := HitTrails(v, rule.path, rule.mode, clean);
    assert |hits| == 0 <==> hits == {};
  }

  function PartOf(v: Json, rules: seq<Rule>, clean: Cleaner, i: nat): (o: seq<Omission>)
    requires forall j :: 0 <= j < |rules| ==> rules[j].path != []
    ensures |o| <= 1
  {
    if i < |rules| then RuleOmission(Before(v, rules, clean, i), rules[i], clean) else []
  }

  function Parts(v: Json, rules: seq<Rule>, clean: Cleaner): nat -> seq<Omission>
    requires forall j :: 0 <= j < |rules| ==> rules[j].path != []
  {
    (i: nat) => PartOf(v, rules, clean, i)
  }

  lemma {:induction false} OmissionsAreJoined(v: Json, rules: seq<Rule>, clean: Cleaner, n: nat)
    requires n <= |rules| && forall j :: 0 <= j < |rules| ==> rules[j].path != []
    ensures RuleOmissions(v, rules[..n], clean) == Joined(Parts(v, rules, clean), n)
  {
    if n == 0 {
    } else {
      assert rules[..n][..n - 1] == rules[..n - 1];
      OmissionsAreJoined(v, rules, clean, n - 1);
    }
  }

  lemma PartReports(v: Json, rules: seq<Rule>, clean: Cleaner, i: nat)
    requires forall j :: 0 <= j < |rules| ==> rules[j].path != []
    ensures
      var part := Parts(v, rules, clean)(i);
      && |part| <= 1 && (Acts(v, rules, clean, i) <==> part != [])
      && (Acts(v, rules, clean, i) ==> Reports(v, rules, clean, i, part[0]))
  {
    if i < |rules| { RuleIsReported(Before(v, rules, clean, i), rules[i], clean); }
  }

  /** Each rule that acted is reported once, in the order of the rules, and nothing else is. */
  lemma OmissionsAreTheActs(v: Json, rules: seq<Rule>, clean: Cleaner, i: nat)
    requires forall j :: 0 <= j < |rules| ==> rules[j].path != []
    ensures
      var parts, all := Parts(v, rules, clean), RuleOmissions(v, rules, clean);
      && |all| == Having(parts, |rules|) && (Acts(v, rules, clean, i) <==> parts(i) != [])
      && (Acts(v, rules, clean, i) ==>
            Having(parts, i) < |all| && Reports(v, rules, clean, i, all[Having(parts, i)]))
  {
    assert rules[..|rules|] == rules;
    OmissionsAreJoined(v, rules, clean, |rules|);
    forall k: nat ensures |Parts(v, rules, clean)(k)| <= 1 { PartReports(v, rules, clean, k); }
    JoinedAt(Parts(v, rules, clean), |rules|, i);
    PartReports(v, rules, clean, i);
  }

  /** The i-th drop finds its section: it is there, and no drop before named it. */
  predicate Finds(v: Json, drops: seq<(string, string)>, i: nat) {
    i < |drops| && v.Node? && drops[i].0 in v.fields && forall j :: 0 <= j < i ==> drops[j].0 != drops[i].0
  }

  function FindCount(v: Json, drops: seq<(string, string)>, n: nat): nat
    requires n <= |drops|
  {
    if n == 0 then 0 else FindCount(v, drops, n - 1) + (if Finds(v, drops, n - 1) then 1 else 0)
  }

  lemma {:induction false} DroppedKeys(v: Json, drops: seq<(string, string)>, k: string)
    ensures
      var r := Drop(v, drops);
      && (r.Node? <==> v.Node?)
      && (v.Node? ==> (k in r.fields <==> k in v.fields && forall j :: 0 <= j < |drops| ==> drops[j].0 != k))
  {
    if drops == [] {
    } else {
      var n := |drops| - 1;
      DroppedKeys(v, drops[..n], k);
      assert forall j :: 0 <= j < n ==> drops[..n][j] == drops[j];
    }
  }

  lemma {:induction false} SectionsFoundAreReported(v: Json, drops: seq<(string, string)>, n: nat, i: nat)
    requires n <= |drops|
    ensures |SectionOmissions(v, drops[..n])| == FindCount(v, drops, n)
    ensures i < n && Finds(v, drops, i) ==>
      FindCount(v, drops, i) < |SectionOmissions(v, drops[..n])|
      && SectionOmissions(v, drops[..n])[FindCount(v, drops, i)] == Omission([drops[i].0], drops[i].1, Section, 0)
  {
    if n == 0 {
    } else {
      assert drops[..n][..n - 1] == drops[..n - 1];
      SectionsFoundAreReported(v, drops, n - 1, i);
      DroppedKeys(v, drops[..n - 1], drops[n - 1].0);
    }
  }

  method DropSections(v: Json, drops: seq<(string, string)>) returns (out: Json, omitted: seq<Omission>)
    ensures out == Drop(v, drops) && omitted == SectionOmissions(v, drops)
  {
    out, omitted := v, [];
    for i := 0 to |drops|
      invariant out == Drop(v, drops[..i]) && omitted == SectionOmissions(v, drops[..i])
    {
      assert drops[..i + 1][..i] == drops[..i];
      if out.Node? && drops[i].0 in out.fields {
        omitted := omitted + [Omission([drops[i].0], drops[i].1, Section, 0)];
        out := Node(out.isArray, out.fields - {drops[i].0});
      }
    }
    assert drops[..|drops|] == drops;
  }

  method ApplyTemplateSpec(sections: Json, spec: Spec, clean: Cleaner) returns (out: Json, omitted: seq<Omission>)
    requires SpecOk(spec)
    ensures out == Template(sections, spec, clean)
    ensures
      omitted == SectionOmissions(Copy(sections), spec.drop) +
                 RuleOmissions(Drop(Copy(sections), spec.drop), spec.redact, clean)
  {
    out, omitted := DropSections(Copy(sections), spec.drop);
    ghost var start, dropped := out, omitted;
    var rules := spec.redact;
    for i := 0 to |rules|
      invariant out == RedactAll(start, rules[..i], clean)
      invariant omitted == dropped + RuleOmissions(start, rules[..i], clean)
    {
      assert rules[..i + 1][..i] == rules[..i];
      var hits: nat;
      ghost var before := out;
      out, hits := Walk(out, rules[i].path, rules[i].mode, clean);
      if hits > 0 {
        var kind := if rules[i].mode.Url? then Redacted else Removed;
        omitted := omitted + [Omission(rules[i].path, rules[i].reason, kind, hits)];
      }
      assert omitted == dropped + (RuleOmissions(start, rules[..i], clean) + RuleOmission(before, rules[i], clean));
    }
    assert rules[..|rules|] == rules;
  }
}
