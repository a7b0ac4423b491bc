/**
 * The fixture walk: visit the entries under the test root in walk order,
 * skip directories and files not ending in ".json", decode each fixture into
 * its named tests, and deliver a fresh test case for every test whose network
 * is in the ruleset. A fixture that does not decode ends the walk.
 */
module Corpus {
  import opened Options
  import opened Fmt
  import opened Fixture
  import opened Blocktest
  import Rules

  /** What decoding a file's JSON gives: the tests by name, or the decoder's error text. */
  datatype Content = Parsed(tests: map<string, BlockTest>) | Unparsable(reason: string)

  /** One entry of the walk: its path, its base name, whether it is a directory, its decoded content. */
  datatype Entry = Entry(path: string, name: string, isDir: bool, content: Content)

  /** A file the walk reads: not a directory, and named `*.json`. */
  predicate IsFixture(e: Entry) {
    !e.isDir && HasSuffix(e.name, ".json")
  }

  /** A fixture that decoded: its path and its tests. */
  datatype Decoded = Decoded(path: string, tests: map<string, BlockTest>)

  /** The fixtures the walk decodes, in order, and the error that stopped it, if any. */
  datatype Walked = Walked(fixtures: seq<Decoded>, aborted: Option<string>)

  function Walk(entries: seq<Entry>): (w: Walked)
    ensures |w.fixtures| <= |entries|
  {
    if entries == [] then Walked([], None)
    else
      var e := entries[0];
      if !IsFixture(e) then Walk(entries[1..])
      else match e.content
        case Unparsable(reason) => Walked([], Some(reason))
        case Parsed(tests) =>
          var rest := Walk(entries[1..]);
          Walked([Decoded(e.path, tests)] + rest.fixtures, rest.aborted)
  }

  /** The entries the walk reads, in walk order. */
  function FixtureEntries(es: seq<Entry>): seq<Entry> {
    if es == [] then []
    else (if IsFixture(es[0]) then [es[0]] else []) + FixtureEntries(es[1..])
  }

  /** Every entry the walk reads decodes. */
  predicate AllDecode(es: seq<Entry>) {
    forall i :: 0 <= i < |es| && IsFixture(es[i]) ==> es[i].content.Parsed?
  }

  /** Every entry decodes exactly when the first one does and all the later ones do. */
  lemma AllDecodeFront(es: seq<Entry>)
    requires es != []
    ensures AllDecode(es) <==> (IsFixture(es[0]) ==> es[0].content.Parsed?) && AllDecode(es[1..])
  {
    assert forall i :: 0 <= i < |es| - 1 ==> es[1..][i] == es[i + 1];
  }

  /** The walk runs to the end exactly when every fixture decodes. */
  lemma {:induction false} WalkCompletes(es: seq<Entry>)
    ensures Walk(es).aborted.None? <==> AllDecode(es)
    decreases |es|
  {
    if es != [] {
      WalkCompletes(es[1..]);
      AllDecodeFront(es);
    }
  }

  /**
   * A walk that runs to the end gives one decoded fixture per `*.json` file,
   * in walk order; directories and other files are skipped.
   */
  lemma {:induction false} WalkDelivers(es: seq<Entry>)
    requires AllDecode(es)
    ensures var fs := FixtureEntries(es);
      |Walk(es).fixtures| == |fs|
      && forall k :: 0 <= k < |fs| ==>
           fs[k].content.Parsed? && Walk(es).fixtures[k] == Decoded(fs[k].path, fs[k].content.tests)
    decreases |es|
  {
    if es != [] {
      var rest := es[1..];
      AllDecodeFront(es);
      WalkDelivers(rest);
      var fs, gs := FixtureEntries(es), FixtureEntries(rest);
      if IsFixture(es[0]) {
        var head := Decoded(es[0].path, es[0].content.tests);
        assert fs == [es[0]] + gs;
        assert Walk(es).fixtures == [head] + Walk(rest).fixtures;
        forall k | 1 <= k < |fs|
          ensures fs[k].content.Parsed? && Walk(es).fixtures[k] == Decoded(fs[k].path, fs[k].content.tests)
        {
          assert fs[k] == gs[k - 1];
        }
      } else {
        assert fs == gs;
        assert Walk(es) == Walk(rest);
      }
    }
  }

  /**
   * The first fixture that does not decode ends the walk: its decoder error
   * is the walk's error, and the fixtures delivered are those of the entries
   * before it. Nothing after it is read.
   */
  lemma {:induction false} WalkStopsAtFirst(es: seq<Entry>, i: nat)
    requires i < |es| && IsFixture(es[i]) && es[i].content.Unparsable?
    requires AllDecode(es[..i])
    ensures Walk(es).aborted == Some(es[i].content.reason)
    ensures Walk(es).fixtures == Walk(es[..i]).fixtures
    decreases i
  {
    if i > 0 {
      var rest := es[1..];
      assert rest[..i - 1] == es[..i][1..];
      assert AllDecode(rest[..i - 1]) by {
        assert forall j :: 0 <= j < i - 1 ==> rest[j] == es[j + 1];
      }
      WalkStopsAtFirst(rest, i - 1);
      assert es[..i][0] == es[0];
    }
  }

  /** The names of a fixture's tests that pass validate. */
  function Accepted(tests: map<string, BlockTest>): (names: set<string>)
    ensures names <= tests.Keys
  {
    set n | n in tests && tests[n].network in Rules.Networks
  }

  /** A delivered test case, by what it was built from: file path, test name, test. */
  type Origin = (string, string, BlockTest)

  function FileOrigins(f: Decoded): set<Origin> {
    set n | n in Accepted(f.tests) :: (f.path, n, f.tests[n])
  }

  /** The test cases the fixtures give, by origin. */
  function Expected(fs: seq<Decoded>): set<Origin> {
    if fs == [] then {} else Expected(fs[..|fs| - 1]) + FileOrigins(fs[|fs| - 1])
  }

  /** How many test cases the fixtures give. */
  function ExpectedCount(fs: seq<Decoded>): nat {
    if fs == [] then 0 else ExpectedCount(fs[..|fs| - 1]) + |Accepted(fs[|fs| - 1].tests)|
  }

  function Origins(out: seq<Testcase>): set<Origin> {
    set t | t in out :: (t.filepath, t.name, t.blockTest)
  }

  lemma OriginsAppend(out: seq<Testcase>, batch: seq<Testcase>)
    ensures Origins(out + batch) == Origins(out) + Origins(batch)
  {
    assert forall u :: u in out + batch <==> u in out || u in batch;
  }

  /** The test names of some test cases. */
  function Names(batch: seq<Testcase>): set<string> {
    set t | t in batch :: t.name
  }

  /** Test cases with pairwise different names are as many as their names. */
  lemma {:induction false} DistinctNamesCount(batch: seq<Testcase>)
    requires forall i, j :: 0 <= i < j < |batch| ==> batch[i].name != batch[j].name
    ensures |Names(batch)| == |batch|
  {
    if batch != [] {
      var init, last := batch[..|batch| - 1], batch[|batch| - 1];
      DistinctNamesCount(init);
      assert batch == init + [last];
      assert Names(batch) == Names(init) + {last.name};
    }
  }

  /** Test cases built from one fixture are known by their names alone. */
  lemma OriginsByName(batch: seq<Testcase>, path: string, tests: map<string, BlockTest>)
    requires forall t :: t in batch ==> t.filepath == path && t.name in tests && t.blockTest == tests[t.name]
    ensures Origins(batch) == set n | n in Names(batch) :: (path, n, tests[n])
  {
    forall o | o in set n | n in Names(batch) :: (path, n, tests[n])
      ensures o in Origins(batch)
    {
      var n :| n in Names(batch) && o == (path, n, tests[n]);
      var t :| t in batch && t.name == n;
    }
  }

  /**
   * The loop over one fixture's tests: a fresh test case for each test,
   * visited in map order, keeping those that pass validate.
   */
  method DeliverFixture(path: string, tests: map<string, BlockTest>) returns (batch: seq<Testcase>)
    ensures forall t :: t in batch ==> fresh(t) && t.nodeId == ""
    ensures forall i, j :: 0 <= i < j < |batch| ==> batch[i] != batch[j]
    ensures forall t :: t in batch ==> t.Validate().None?
    ensures Origins(batch) == FileOrigins(Decoded(path, tests))
    ensures |batch| == |Accepted(tests)|
  {
    batch := [];
    var todo := tests.Keys;
    while todo != {}
      invariant todo <= tests.Keys
      invariant forall t :: t in batch ==> fresh(t) && t.nodeId == ""
      invariant forall i, j :: 0 <= i < j < |batch| ==> batch[i].name != batch[j].name
      invariant forall t :: t in batch ==>
        t.filepath == path && t.name in tests && t.name !in todo
        && t.blockTest == tests[t.name] && t.Validate().None?
      invariant forall n :: n in tests && n !in todo && tests[n].network in Rules.Networks ==> n in Names(batch)
      decreases |todo|
    {
      var name :| name in todo;
      var t := new Testcase(name, tests[name], path);
      todo := todo - {name};
      if t.Validate().Some? {
        continue;
      }
      batch := batch + [t];
    }
    assert Names(batch) == Accepted(tests);
    OriginsByName(batch, path, tests);
    DistinctNamesCount(batch);
  }

  /**
   * deliverTests: the test cases in walk order (within one fixture in map
   * order, which is unspecified), with the counts it logs: fixtures decoded
   * and tests delivered, and the error that stopped the walk.
   */
  method DeliverTests(entries: seq<Entry>) returns (out: seq<Testcase>, files: nat, count: nat, aborted: Option<string>)
    ensures forall t :: t in out ==> fresh(t) && t.nodeId == ""
    ensures forall i, j :: 0 <= i < j < |out| ==> out[i] != out[j]
    ensures forall t :: t in out ==> t.Validate().None?
    ensures var w := Walk(entries);
      Origins(out) == Expected(w.fixtures)
      && count == |out| == ExpectedCount(w.fixtures)
      && files == |w.fixtures|
      && aborted == w.aborted
  {
    out := [];
    files, count := 0, 0;
    aborted := None;
    ghost var seen: seq<Decoded> := [];
    var k := 0;
    while k < |entries|
      invariant 0 <= k <= |entries|
      invariant Walk(entries) == Walked(seen + Walk(entries[k..]).fixtures, Walk(entries[k..]).aborted)
      invariant forall t :: t in out ==> fresh(t) && t.nodeId == ""
      invariant forall i, j :: 0 <= i < j < |out| ==> out[i] != out[j]
      invariant forall t :: t in out ==> t.Validate().None?
      invariant Origins(out) == Expected(seen)
      invariant count == |out| == ExpectedCount(seen)
      invariant files == |seen|
    {
      var e := entries[k];
      assert entries[k..][0] == e && entries[k..][1..] == entries[k + 1..];
      if !IsFixture(e) {
        k := k + 1;
        continue;
      }
      if e.content.Unparsable? {
        aborted := Some(e.content.reason);
        assert seen + [] == seen;
        return;
      }
      label walked:
      var batch := DeliverFixture(e.path, e.content.tests);
      forall i, j | 0 <= i < |out| <= j < |out| + |batch|
        ensures (out + batch)[i] != (out + batch)[j]
      {
        assert old@walked(allocated(out[i]));
        assert batch[j - |out|] in batch;
      }
      OriginsAppend(out, batch);
      out := out + batch;
      files := files + 1;
      count := count + |batch|;
      ghost var f := Decoded(e.path, e.content.tests);
      assert seen + [f] + Walk(entries[k + 1..]).fixtures == seen + ([f] + Walk(entries[k + 1..]).fixtures);
      assert (seen + [f])[..|seen|] == seen;
      seen := seen + [f];
      k := k + 1;
    }
    assert entries[k..] == [];
    assert seen + [] == seen;
  }
}
