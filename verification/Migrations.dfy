/** Applying the schema migrations: a fixed list in version order, each in its own transaction. */
module Migrations {
  import opened Basics
  import opened Text
  import opened Sorting
  import opened LineEndings

  datatype File = File(name: string, isDir: bool, contents: string)
  datatype Migration = Migration(version: string, contents: string, checksum: string)

  datatype Discovery = Found(ordered: seq<Migration>) | NoVersion | NoneFound

  const SUFFIX := ".up.sql"

  predicate IsMigration(f: File) {
    !f.isDir && |f.name| >= |SUFFIX| && f.name[|f.name| - |SUFFIX|..] == SUFFIX
  }

  function VersionOf(f: File): string
    requires IsMigration(f)
  {
    f.name[..|f.name| - |SUFFIX|]
  }

  function Loaded(sha: string -> string, f: File): Migration
    requires IsMigration(f)
  {
    Migration(VersionOf(f), Normalize(f.contents), sha(Normalize(f.contents)))
  }

  function ByVersion(): Migration -> string {
    (m: Migration) => m.version
  }

  /** Entries of one directory have distinct names. */
  ghost predicate Directory(files: seq<File>) {
    forall i, j :: 0 <= i < j < |files| ==> files[i].name != files[j].name
  }

  ghost predicate Lists(sha: string -> string, ms: seq<Migration>, files: seq<File>) {
    forall m :: m in ms <==> exists i :: 0 <= i < |files| && IsMigration(files[i]) && Loaded(sha, files[i]) == m
  }

  /** All migration files, loaded and in strict version order. */
  method DiscoverMigrations(sha: string -> string, files: seq<File>) returns (d: Discovery)
    requires Directory(files)
    ensures d.Found? ==> d.ordered != [] && SortedBy(d.ordered, ByVersion()) && Lists(sha, d.ordered, files)
    ensures d.NoVersion? <==> exists i :: 0 <= i < |files| && IsMigration(files[i]) && VersionOf(files[i]) == ""
    ensures d.NoneFound? <==> forall i :: 0 <= i < |files| ==> !IsMigration(files[i])
  {
    hide Normalize, IsMigration, VersionOf, Loaded, Lists;
    var result: seq<Migration> := [];
    assert Lists(sha, result, files[..0]) by { NothingListed(sha, files); }
    for i := 0 to |files|
      invariant Lists(sha, result, files[..i])
      invariant forall k :: 0 <= k < i && IsMigration(files[k]) ==> VersionOf(files[k]) != ""
      invariant result == [] <==> forall k :: 0 <= k < i ==> !IsMigration(files[k])
      invariant DistinctBy(result, ByVersion())
    {
      ghost var before := result;
      if IsMigration(files[i]) {
        if VersionOf(files[i]) == "" { return NoVersion; }
        FreshVersion(sha, result, files, i);
        result := result + [Loaded(sha, files[i])];
      }
      ListsStep(sha, before, files, i);
    }
    assert files[..|files|] == files;
    if result == [] { return NoneFound; }
    var ordered := Sort(result, ByVersion());
    SameMembers(ordered, result);
    assert ordered != [] by { assert result[0] in ordered; }
    assert Lists(sha, ordered, files) by { ListsSame(sha, result, ordered, files); }
    return Found(ordered);
  }

  lemma NothingListed(sha: string -> string, files: seq<File>)
    ensures Lists(sha, [], files[..0])
  {
  }

  lemma ListsSame(sha: string -> string, ms: seq<Migration>, ns: seq<Migration>, files: seq<File>)
    requires Lists(sha, ms, files) && forall m :: m in ms <==> m in ns
    ensures Lists(sha, ns, files)
  {
    hide Loaded, IsMigration;
  }

  lemma FreshVersion(sha: string -> string, ms: seq<Migration>, files: seq<File>, i: nat)
    requires i < |files| && Directory(files) && IsMigration(files[i]) && Lists(sha, ms, files[..i])
    requires DistinctBy(ms, ByVersion())
    ensures DistinctBy(ms + [Loaded(sha, files[i])], ByVersion())
  {
    hide Normalize, IsMigration, VersionOf;
    forall k | 0 <= k < |ms| ensures ms[k].version != VersionOf(files[i]) {
      assert ms[k] in ms;
      var j :| 0 <= j < i && IsMigration(files[..i][j]) && Loaded(sha, files[..i][j]) == ms[k];
      SameVersionSameName(files[j], files[i]);
    }
  }

  lemma SameVersionSameName(f: File, g: File)
    requires IsMigration(f) && IsMigration(g)
    ensures VersionOf(f) == VersionOf(g) ==> f.name == g.name
  {
    assert f.name == VersionOf(f) + SUFFIX && g.name == VersionOf(g) + SUFFIX;
  }

  lemma ListsStep(sha: string -> string, ms: seq<Migration>, files: seq<File>, i: nat)
    requires i < |files| && Lists(sha, ms, files[..i])
    ensures Lists(sha, if IsMigration(files[i]) then ms + [Loaded(sha, files[i])] else ms, files[..i + 1])
  {
    var now := if IsMigration(files[i]) then ms + [Loaded(sha, files[i])] else ms;
    var seen, before := files[..i + 1], files[..i];
    forall m ensures m in now <==> exists j :: 0 <= j < |seen| && IsMigration(seen[j]) && Loaded(sha, seen[j]) == m {
      if m in ms {
        var j :| 0 <= j < |before| && IsMigration(before[j]) && Loaded(sha, before[j]) == m;
        assert seen[j] == before[j];
      } else if m in now {
        assert seen[i] == files[i];
      }
      if j :| 0 <= j < |seen| && IsMigration(seen[j]) && Loaded(sha, seen[j]) == m {
        if j < i { assert before[j] == seen[j]; }
      }
    }
    hide Normalize;
  }

  // ----- applying -----

  /** The recorded checksums, and every script that took effect, in order. */
  datatype State = State(recorded: map<string, Option<string>>, effects: seq<Migration>)

  const EMPTY := State(map[], [])

  /** What may go wrong at one migration: before its commit takes effect, or only in the commit's reply. */
  datatype Fault = NoFault | Aborted | ReplyLost

  datatype Outcome =
    | Applied | Stopped | NullRemains | MissingChecksum(version: string) | ChecksumMismatch(version: string)

  function Record(s: State, m: Migration): State {
    State(s.recorded[m.version := Some(m.checksum)], s.effects + [m])
  }

  function Validate(s: State, m: Migration): Outcome
    requires m.version in s.recorded
  {
    var r := s.recorded[m.version];
    if r.None? || r.value == "" then MissingChecksum(m.version)
    else if r.value != m.checksum then ChecksumMismatch(m.version)
    else Applied
  }

  predicate SomeNull(recorded: map<string, Option<string>>) {
    exists v :: v in recorded && recorded[v].None?
  }

  /** One pass from migration i on; the last statement makes the checksum column NOT NULL. */
  function ApplyFrom(s: State, ordered: seq<Migration>, i: nat, faults: nat -> Fault): (State, Outcome)
    decreases |ordered| - i
  {
    if i >= |ordered| then
      (s, if faults(|ordered|) != NoFault then Stopped else if SomeNull(s.recorded) then NullRemains else Applied)
    else
      var m := ordered[i];
      if m.version in s.recorded then
        if faults(i) != NoFault then (s, Stopped)
        else if Validate(s, m) != Applied then (s, Validate(s, m))
        else ApplyFrom(s, ordered, i + 1, faults)
      else
        match faults(i)
        case Aborted => (s, Stopped)
        case ReplyLost => (Record(s, m), Stopped)
        case NoFault => ApplyFrom(Record(s, m), ordered, i + 1, faults)
  }

  function Restarts(s: State, ordered: seq<Migration>, runs: seq<nat -> Fault>): State {
    if runs == [] then s else ApplyFrom(Restarts(s, ordered, runs[..|runs| - 1]), ordered, 0, runs[|runs| - 1]).0
  }

  // ----- prefixes -----

  ghost predicate Ordered(ordered: seq<Migration>) {
    SortedBy(ordered, ByVersion()) && forall i :: 0 <= i < |ordered| ==> ordered[i].checksum != ""
  }

  /** Exactly the first k migrations are recorded and have taken effect, once each and in order. */
  ghost predicate PrefixDone(s: State, ordered: seq<Migration>, k: nat) {
    && k <= |ordered|
    && s.effects == ordered[..k]
    && (forall v :: v in s.recorded <==> exists i :: 0 <= i < k && ordered[i].version == v)
    && (forall i :: 0 <= i < k ==>
          ordered[i].version in s.recorded && s.recorded[ordered[i].version] == Some(ordered[i].checksum))
  }

  lemma VersionsDiffer(ordered: seq<Migration>, i: nat, j: nat)
    requires Ordered(ordered) && i < j < |ordered|
    ensures ordered[i].version != ordered[j].version
  {
    assert Less(ByVersion()(ordered[i]), ByVersion()(ordered[j]));
    LessIrreflexive(ordered[i].version);
  }

  lemma RecordNext(s: State, ordered: seq<Migration>, k: nat)
    requires Ordered(ordered) && PrefixDone(s, ordered, k) && k < |ordered|
    ensures ordered[k].version !in s.recorded && PrefixDone(Record(s, ordered[k]), ordered, k + 1)
  {
    forall i | 0 <= i < k ensures ordered[i].version != ordered[k].version { VersionsDiffer(ordered, i, k); }
    assert Record(s, ordered[k]).effects == ordered[..k + 1];
    VersionsOfNext(s, ordered, k);
    ChecksumsOfNext(s, ordered, k);
    hide Ordered;
  }

  lemma ChecksumsOfNext(s: State, ordered: seq<Migration>, k: nat)
    requires k < |ordered| && forall i :: 0 <= i < k ==> ordered[i].version != ordered[k].version
    requires forall i :: 0 <= i < k ==>
      ordered[i].version in s.recorded && s.recorded[ordered[i].version] == Some(ordered[i].checksum)
    ensures var s' := Record(s, ordered[k]);
      forall i :: 0 <= i < k + 1 ==>
        ordered[i].version in s'.recorded && s'.recorded[ordered[i].version] == Some(ordered[i].checksum)
  {
  }

  lemma VersionsOfNext(s: State, ordered: seq<Migration>, k: nat)
    requires k < |ordered| && forall v :: v in s.recorded <==> exists i :: 0 <= i < k && ordered[i].version == v
    ensures forall v :: v in Record(s, ordered[k]).recorded <==> exists i :: 0 <= i < k + 1 && ordered[i].version == v
  {
    var s' := Record(s, ordered[k]);
    forall v ensures v in s'.recorded <==> exists i :: 0 <= i < k + 1 && ordered[i].version == v {
      if v in s.recorded {
        var i :| 0 <= i < k && ordered[i].version == v;
        assert i < k + 1;
      }
      if v == ordered[k].version { assert k < k + 1; }
      if i :| 0 <= i < k + 1 && ordered[i].version == v {
        if i < k { assert v in s.recorded; }
      }
    }
  }

  lemma PrefixValid(s: State, ordered: seq<Migration>, k: nat, i: nat)
    requires Ordered(ordered) && PrefixDone(s, ordered, k) && i < k
    ensures ordered[i].version in s.recorded && Validate(s, ordered[i]) == Applied
  {
  }

  lemma PrefixNotNull(s: State, ordered: seq<Migration>, k: nat)
    requires PrefixDone(s, ordered, k)
    ensures !SomeNull(s.recorded)
  {
  }

  lemma PrefixEffects(s: State, ordered: seq<Migration>, k: nat)
    requires PrefixDone(s, ordered, k)
    ensures k <= |ordered| && s.effects == ordered[..k]
  {
  }

  /** What a pass does at one migration of a list whose first k are done. */
  lemma PassStep(s: State, ordered: seq<Migration>, i: nat, k: nat, faults: nat -> Fault)
    requires Ordered(ordered) && PrefixDone(s, ordered, k) && i <= k
    ensures k <= |ordered|
    ensures ApplyFrom(s, ordered, i, faults) ==
      if i == |ordered| then (s, if faults(|ordered|) != NoFault then Stopped else Applied)
      else if i < k then if faults(i) != NoFault then (s, Stopped) else ApplyFrom(s, ordered, i + 1, faults)
      else if faults(i) == Aborted then (s, Stopped)
      else if faults(i) == ReplyLost then (Record(s, ordered[i]), Stopped)
      else ApplyFrom(Record(s, ordered[i]), ordered, i + 1, faults)
  {
    PrefixEffects(s, ordered, k);
    PrefixNotNull(s, ordered, k);
    if i < k { PrefixValid(s, ordered, k, i); }
    if i == k < |ordered| { RecordNext(s, ordered, k); }
    hide PrefixDone, Ordered, Record, Validate, SomeNull;
  }

  /** A run goes over the recorded prefix unchanged and then extends it, one migration at a time. */
  lemma {:induction false} ApplyExtendsPrefix(s: State, ordered: seq<Migration>, i: nat, k: nat, faults: nat -> Fault)
    returns (k': nat)
    requires Ordered(ordered) && PrefixDone(s, ordered, k) && i <= k
    ensures var (s', o) := ApplyFrom(s, ordered, i, faults);
      && k <= k' && PrefixDone(s', ordered, k')
      && (o == Applied || o == Stopped)
      && (o == Applied ==> k' == |ordered|)
      && ((forall j :: 0 <= j <= |ordered| ==> faults(j) == NoFault) ==> o == Applied)
    decreases |ordered| - i
  {
    PassStep(s, ordered, i, k, faults);
    if i == k < |ordered| { RecordNext(s, ordered, k); }
    hide PrefixDone, Ordered, Record, ApplyFrom;
    if i >= |ordered| || (i < k && faults(i) != NoFault) {
      k' := k;
    } else if i < k {
      k' := ApplyExtendsPrefix(s, ordered, i + 1, k, faults);
    } else {
      match faults(i) {
        case Aborted => k' := k;
        case ReplyLost => k' := k + 1;
        case NoFault => k' := ApplyExtendsPrefix(Record(s, ordered[k]), ordered, i + 1, k + 1, faults);
      }
    }
  }

  /**
   Over any number of runs of one file list, each stopped by any error anywhere, the migrations that took
   effect are a prefix in version order, each exactly once, and exactly those are recorded.
   */
  lemma {:induction false} RestartsKeepPrefix(ordered: seq<Migration>, runs: seq<nat -> Fault>) returns (k: nat)
    requires Ordered(ordered)
    ensures PrefixDone(Restarts(EMPTY, ordered, runs), ordered, k)
    decreases |runs|
  {
    if runs == [] {
      k := 0;
    } else {
      var k0 := RestartsKeepPrefix(ordered, runs[..|runs| - 1]);
      k := ApplyExtendsPrefix(Restarts(EMPTY, ordered, runs[..|runs| - 1]), ordered, 0, k0, runs[|runs| - 1]);
    }
  }

  /** A later run without faults succeeds and applies exactly the missing suffix. */
  lemma LaterRunAppliesSuffix(ordered: seq<Migration>, runs: seq<nat -> Fault>, faults: nat -> Fault)
    requires Ordered(ordered)
    ensures var s := Restarts(EMPTY, ordered, runs); var (s', o) := ApplyFrom(s, ordered, 0, faults);
      && |s.effects| <= |ordered|
      && (o == Applied ==> s'.effects == s.effects + ordered[|s.effects|..])
      && ((forall j :: 0 <= j <= |ordered| ==> faults(j) == NoFault) ==> o == Applied)
  {
    hide Ordered, PrefixDone, ApplyFrom, Restarts;
    var s := Restarts(EMPTY, ordered, runs);
    var k := RestartsKeepPrefix(ordered, runs);
    PrefixEffects(s, ordered, k);
    var k' := ApplyExtendsPrefix(s, ordered, 0, k, faults);
    PrefixEffects(ApplyFrom(s, ordered, 0, faults).0, ordered, k');
    assert ordered[..|ordered|] == ordered == ordered[..k] + ordered[k..];
  }

  // ----- changed files -----

  /**
   On any database, a run succeeds only with every file recorded under its own checksum and no checksum
   missing at all; no run ever rewrites a record, and no recorded version takes effect again.
   */
  lemma {:induction false} ChecksumsGuard(s: State, ordered: seq<Migration>, i: nat, faults: nat -> Fault)
    ensures var (s', o) := ApplyFrom(s, ordered, i, faults);
      && (forall v :: v in s.recorded ==> v in s'.recorded && s'.recorded[v] == s.recorded[v])
      && s.effects <= s'.effects
      && (forall x :: |s.effects| <= x < |s'.effects| ==> s'.effects[x].version !in s.recorded)
      && (o == Applied ==>
            && !SomeNull(s'.recorded)
            && forall j :: i <= j < |ordered| ==>
                 ordered[j].version in s'.recorded && s'.recorded[ordered[j].version] == Some(ordered[j].checksum))
    decreases |ordered| - i
  {
    if i < |ordered| {
      var m := ordered[i];
      if m.version in s.recorded {
        if faults(i) == NoFault && Validate(s, m) == Applied { ChecksumsGuard(s, ordered, i + 1, faults); }
      } else if faults(i) == NoFault {
        ChecksumsGuard(Record(s, m), ordered, i + 1, faults);
      }
      hide SomeNull;
    }
  }

  /** Every file before number j that has a record has it under its own checksum. */
  ghost predicate GoodBefore(s: State, ordered: seq<Migration>, i: nat, j: nat)
    requires j <= |ordered|
  {
    forall l :: i <= l < j && ordered[l].version in s.recorded ==> Validate(s, ordered[l]) == Applied
  }

  /**
   A file whose recorded checksum is missing or differs stops every run: nothing from it on takes effect,
   and a run without faults reports exactly the first such file.
   */
  lemma {:induction false} BadRecordStops(s: State, ordered: seq<Migration>, i: nat, j: nat, faults: nat -> Fault)
    requires SortedBy(ordered, ByVersion()) && i <= j < |ordered|
    requires ordered[j].version in s.recorded && Validate(s, ordered[j]) != Applied
    ensures var (s', o) := ApplyFrom(s, ordered, i, faults);
      && o != Applied && s.effects <= s'.effects
      && (forall x :: |s.effects| <= x < |s'.effects| ==> s'.effects[x] in ordered[i..j])
      && (GoodBefore(s, ordered, i, j) && (forall l :: i <= l <= j ==> faults(l) == NoFault)
          ==> o == Validate(s, ordered[j]))
    decreases |ordered| - i
  {
    var m := ordered[i];
    if i < j { assert ordered[i..j] == [m] + ordered[i + 1..j]; }
    if m.version in s.recorded {
      if faults(i) == NoFault && Validate(s, m) == Applied { BadRecordStops(s, ordered, i + 1, j, faults); }
    } else if faults(i) == NoFault {
      if GoodBefore(s, ordered, i, j) { RecordKeepsGood(s, ordered, i, j); }
      BadRecordStops(Record(s, m), ordered, i + 1, j, faults);
    }
    hide SomeNull;
  }

  lemma RecordKeepsGood(s: State, ordered: seq<Migration>, i: nat, j: nat)
    requires SortedBy(ordered, ByVersion()) && i < j < |ordered| && GoodBefore(s, ordered, i, j)
    ensures GoodBefore(Record(s, ordered[i]), ordered, i + 1, j)
  {
    forall l | i + 1 <= l < j ensures ordered[l].version != ordered[i].version {
      assert Less(ByVersion()(ordered[i]), ByVersion()(ordered[l]));
      LessIrreflexive(ordered[i].version);
    }
  }

  /** The migrations are the files named after a version with the suffix, and carry that version. */
  lemma MigrationNames(f: File, version: string)
    ensures IsMigration(f) && VersionOf(f) == version <==> !f.isDir && f.name == version + ".up.sql"
  {
    if IsMigration(f) { assert f.name == VersionOf(f) + SUFFIX; }
  }

  /** Whatever the line endings of the checkout, a file is loaded as its text, under the checksum of its text. */
  lemma ChecksumOfStyle(sha: string -> string, version: string, text: string, style: Style)
    requires NoCr(text)
    ensures var f := File(version + ".up.sql", false, Render(text, seq(|text|, _ => style)));
      IsMigration(f) && Loaded(sha, f) == Migration(version, text, sha(text))
  {
    UniformStyle(text, style);
    MigrationNames(File(version + ".up.sql", false, Render(text, seq(|text|, _ => style))), version);
    hide Normalize, Render;
  }

  // ----- the loop over the database -----

  class Database {
    var recorded: map<string, Option<string>>
    var effects: seq<Migration>

    ghost function View(): State
      reads this
    {
      State(recorded, effects)
    }

    constructor ()
      ensures View() == EMPTY
    {
      recorded, effects := map[], [];
    }

    method ApplyMigrations(ordered: seq<Migration>, faults: nat -> Fault) returns (o: Outcome)
      modifies this
      ensures (View(), o) == ApplyFrom(old(View()), ordered, 0, faults)
    {
      var i := 0;
      while i < |ordered|
        invariant i <= |ordered|
        invariant ApplyFrom(View(), ordered, i, faults) == ApplyFrom(old(View()), ordered, 0, faults)
        decreases |ordered| - i
      {
        var m := ordered[i];
        if m.version in recorded {
          if faults(i) != NoFault { return Stopped; }
          var r := recorded[m.version];
          if r.None? || r.value == "" { return MissingChecksum(m.version); }
          if r.value != m.checksum { return ChecksumMismatch(m.version); }
        } else {
          var fault := faults(i);
          if fault == Aborted { return Stopped; }
          effects := effects + [m];
          recorded := recorded[m.version := Some(m.checksum)];
          if fault == ReplyLost { return Stopped; }
        }
        i := i + 1;
      }
      if faults(|ordered|) != NoFault { return Stopped; }
      if SomeNull(recorded) { return NullRemains; }
      return Applied;
    }
  }
}
