/**
 * What runTest and run promise, stated over the functions that describe
 * them: a report is filed exactly when the test has a node id, the node id
 * changes only when a node starts, a run succeeds exactly when every check
 * passes, and once a test has run on one client its staging directory is
 * taken, so every later client fails at staging and reports under the node
 * id of the earlier one.
 */
module Runs {
  import opened Options
  import opened Fmt
  import opened Fixture
  import opened Errors
  import opened Storage
  import opened Rpc
  import opened Host
  import opened Blocktest
  import opened Staging
  import opened Executor

  /** The directory runTest stages a test in. */
  function DirOf(s: Setup, t: Testcase): string {
    StagingDir(t.Key(s.foreign.sha1))
  }

  /** A path mkdir refuses: it exists already, or the system refuses it. */
  predicate Taken(s: Setup, d: Disk, dir: string) {
    dir in d.dirs || dir in d.files || dir in s.broken
  }

  /** The reason mkdir gives for a taken path. */
  function Refusal(s: Setup, d: Disk, dir: string): string {
    if dir in d.dirs || dir in d.files then "file exists"
    else if dir in s.broken then s.broken[dir]
    else ""
  }

  /** The error of a run whose staging directory is taken. */
  function Refused(s: Setup, d: Disk, t: Testcase): Error {
    Io(PathError("mkdir", DirOf(s, t), Refusal(s, d, DirOf(s, t))))
  }

  /** n failure reports for node id, or none when there is no node id. */
  function Refusals(id: string, name: string, text: string, n: nat): (r: seq<Report>)
    ensures |r| == if id == "" then 0 else n
    ensures forall k :: 0 <= k < |r| ==> r[k] == Report(false, id, name, text)
  {
    if id == "" || n == 0 then [] else Refusals(id, name, text, n - 1) + [Report(false, id, name, text)]
  }

  /**
   * One run on one client: a start request exactly when staging succeeded,
   * with the base variables, the staged paths and the test's rules; a new
   * node id only from a node the host started; and, from the deferred done,
   * one report exactly when the node id is not empty, carrying the outcome.
   */
  lemma RunUnitShape(s: Setup, w: World, t: Testcase, id: string, client: string)
    ensures var u := RunUnit(s, w, t, id, client);
      var staged := t.Staging(s.foreign, s.broken, w.disk);
      var key := t.Key(s.foreign.sha1);
      var env := BaseEnv(client, GenesisFile(key), BlockFolder(key)) + t.EnvUpdates();
      u.world.disk == staged.0
      && u.world.started == (if staged.1.err.None? then w.started + [env] else w.started)
      && (staged.1.err.Some? ==> u.nodeId == id && u.err == staged.1.err)
      && (u.nodeId != id ==> s.nodes(|w.started|).Started? && u.nodeId == s.nodes(|w.started|).nodeId)
      && u.world.results == w.results
           + (if u.nodeId == "" then [] else [Report(u.err.None?, u.nodeId, TestName(t.filepath, t.name), ErrText(u.err))])
  {
  }

  /**
   * A run succeeds exactly when staging succeeds, the host starts a node,
   * the node can be dialed, and both hashes are fetched and are the
   * expected genesis and last-block hashes.
   */
  lemma RunUnitSucceedsIff(s: Setup, w: World, t: Testcase, id: string, client: string)
    ensures RunUnit(s, w, t, id, client).err.None? <==>
      t.Staging(s.foreign, s.broken, w.disk).1.err.None?
      && s.nodes(|w.started|).Started?
      && var ep := s.nodes(|w.started|).endpoint;
      ep.dialError.None?
      && var g := HashFetch(ep.replies(0), ep.replies(1), s.foreign.hexToHash);
      g.result.Fetched? && g.result.hash == t.blockTest.genesis.hash
      && var h := HashFetch(ep.replies(g.attempts), ep.replies(g.attempts + 1), s.foreign.hexToHash);
      h.result.Fetched? && h.result.hash == t.blockTest.bestBlock
  {
  }

  /**
   * A node whose head is not the expected last block: the run fails, and
   * the one report filed for it is a failure under the node's id whose text
   * is that of the last-block mismatch, which BestBlockMismatchReadsBack
   * shows both hashes can be read back from.
   */
  lemma HeadMismatchReported(s: Setup, w: World, t: Testcase, id: string, client: string)
    requires t.Staging(s.foreign, s.broken, w.disk).1.err.None?
    requires s.nodes(|w.started|).Started? && s.nodes(|w.started|).nodeId != ""
    requires var ep := s.nodes(|w.started|).endpoint;
      ep.dialError.None?
      && var g := HashFetch(ep.replies(0), ep.replies(1), s.foreign.hexToHash);
      g.result.Fetched? && g.result.hash == t.blockTest.genesis.hash
      && HashFetch(ep.replies(g.attempts), ep.replies(g.attempts + 1), s.foreign.hexToHash).result.Fetched?
    ensures var u := RunUnit(s, w, t, id, client);
      var ep := s.nodes(|w.started|).endpoint;
      var g := HashFetch(ep.replies(0), ep.replies(1), s.foreign.hexToHash);
      var got := HashFetch(ep.replies(g.attempts), ep.replies(g.attempts + 1), s.foreign.hexToHash).result.hash;
      var e := BestBlockMismatch(t.blockTest.bestBlock, got, t.name, t.filepath);
      got != t.blockTest.bestBlock ==>
        u.err == Some(e)
        && u.world.results == w.results
             + [Report(false, s.nodes(|w.started|).nodeId, TestName(t.filepath, t.name), Message(e))]
  {
  }

  /**
   * The checks stop at the first failing step: a failed dial sends nothing;
   * the genesis block is asked for once, or twice after a refused call; the
   * head is asked for only after the genesis hash was fetched and matched,
   * never before a genesis call, and at most twice; and a check that passes
   * has asked for the head.
   */
  lemma ChecksStopAtFirstFailure(hexToHash: string -> Hash, t: Testcase, ep: Endpoint)
    ensures var calls := ProbeCalls(hexToHash, t, ep);
      var g := HashFetch(ep.replies(0), ep.replies(1), hexToHash);
      (ep.dialError.Some? ==> calls == [])
      && (ep.dialError.None? ==>
            1 <= |calls| && calls[0] == GenesisBlock && |calls| <= g.attempts + 2
            && (forall k :: 0 <= k < |calls| ==> (calls[k] == GenesisBlock <==> k < g.attempts))
            && (forall k :: g.attempts <= k < |calls| ==> calls[k] == HeadBlock))
      && (HeadBlock in calls <==>
            ep.dialError.None? && g.result.Fetched? && t.VerifyGenesis(g.result.hash).None?)
      && |calls| <= 4
      && (Probe(hexToHash, t, ep).None? ==> HeadBlock in calls)
  {
    var calls := ProbeCalls(hexToHash, t, ep);
    assert GenesisBlock != HeadBlock by { assert GenesisBlock[0] != HeadBlock[0]; }
    if ep.dialError.None? {
      var g := HashFetch(ep.replies(0), ep.replies(1), hexToHash);
      var genesisCalls := seq(g.attempts, _ => GenesisBlock);
      assert HeadBlock !in genesisCalls;
      if g.result.FetchFailed? || t.VerifyGenesis(g.result.hash).Some? {
        assert calls == genesisCalls;
      } else {
        var h := HashFetch(ep.replies(g.attempts), ep.replies(g.attempts + 1), hexToHash);
        assert calls == genesisCalls + seq(h.attempts, _ => HeadBlock);
        assert calls[g.attempts] == HeadBlock;
      }
    }
  }

  /** runTest asks the node nothing unless staging succeeded and the host started a node. */
  lemma NoCallsBeforeStart(s: Setup, w: World, t: Testcase)
    ensures UnitCalls(s, w, t) != [] ==>
      t.Staging(s.foreign, s.broken, w.disk).1.err.None?
      && s.nodes(|w.started|).Started?
      && s.nodes(|w.started|).endpoint.dialError.None?
      && UnitCalls(s, w, t) == ProbeCalls(s.foreign.hexToHash, t, s.nodes(|w.started|).endpoint)
  {
  }

  /** Whatever staging does, the staging directory is taken afterwards. */
  lemma StagingTakesDir(s: Setup, t: Testcase, d: Disk)
    ensures Taken(s, t.Staging(s.foreign, s.broken, d).0, DirOf(s, t))
  {
    var key := t.Key(s.foreign.sha1);
    var o1 := MkdirOn(d, s.broken, StagingDir(key));
    if o1.err.None? {
      var o2 := MkdirOn(o1.disk, s.broken, BlockFolder(key));
      if o2.err.None? {
        var o3 := WriteOn(o2.disk, s.broken, GenesisFile(key), s.foreign.genesisJson(t.blockTest));
        if o3.err.None? {
          WriteBlocksKeepsDirs(s.foreign.fromHex, s.broken, o3.disk, BlockFolder(key), t.blockTest.blocks, 0);
        }
      }
    }
  }

  /**
   * A run whose staging directory is taken changes nothing but the reports:
   * no start request, the node id kept, the mkdir error, and a failure
   * report under the kept node id when there is one.
   */
  lemma TakenDirFails(s: Setup, w: World, t: Testcase, id: string, client: string)
    requires Taken(s, w.disk, DirOf(s, t))
    ensures var u := RunUnit(s, w, t, id, client);
      var e := Refused(s, w.disk, t);
      u.world.disk == w.disk && u.world.started == w.started && u.nodeId == id
      && u.err == Some(e)
      && u.world.results == w.results + Refusals(id, TestName(t.filepath, t.name), Message(e), 1)
  {
  }

  /**
   * One test on several clients: only the first client can stage and start
   * a node; every later one fails because the staging directory the first
   * one made is there (or is refused), reports that failure under the first
   * one's node id, and leaves the disk, the start requests and the node id
   * as the first one left them.
   */
  lemma {:induction false} LaterClientsFailAtStaging(s: Setup, w: World, t: Testcase, id: string, clients: seq<string>)
    requires |clients| >= 1
    ensures var first := RunUnit(s, w, t, id, clients[0]);
      var u := RunClients(s, w, t, id, clients);
      var e := Refused(s, first.world.disk, t);
      u.world.disk == first.world.disk && u.world.started == first.world.started && u.nodeId == first.nodeId
      && (|clients| > 1 ==> u.err == Some(e))
      && u.world.results == first.world.results
           + Refusals(first.nodeId, TestName(t.filepath, t.name), Message(e), |clients| - 1)
    decreases |clients|
  {
    var n := |clients| - 1;
    var first := RunUnit(s, w, t, id, clients[0]);
    var e := Refused(s, first.world.disk, t);
    var name := TestName(t.filepath, t.name);
    if n == 0 {
      assert clients[..0] == [];
    } else {
      var init := clients[..n];
      assert init[0] == clients[0];
      LaterClientsFailAtStaging(s, w, t, id, init);
      var v := RunClients(s, w, t, id, init);
      StagingTakesDir(s, t, w.disk);
      TakenDirFails(s, v.world, t, v.nodeId, clients[n]);
      assert v.world.results + Refusals(first.nodeId, name, Message(e), 1)
          == first.world.results + Refusals(first.nodeId, name, Message(e), n);
    }
  }

  /** If nothing else refuses the staging directory, later clients see "file exists". */
  lemma RefusedAsExisting(s: Setup, w: World, t: Testcase, id: string, client: string)
    requires DirOf(s, t) !in s.broken
    ensures var first := RunUnit(s, w, t, id, client);
      Refused(s, first.world.disk, t) == Io(PathError("mkdir", DirOf(s, t), "file exists"))
  {
    StagingTakesDir(s, t, w.disk);
  }

  /** However many clients there are, a test asks the host for at most one node. */
  lemma AtMostOneStart(s: Setup, w: World, t: Testcase, id: string, clients: seq<string>)
    ensures |w.started| <= |RunClients(s, w, t, id, clients).world.started| <= |w.started| + 1
  {
    if clients != [] {
      LaterClientsFailAtStaging(s, w, t, id, clients);
      RunUnitShape(s, w, t, id, clients[0]);
    }
  }

  /** A run over several tests asks for at most one node per test. */
  lemma {:induction false} AtMostOneStartPerTest(s: Setup, w: World, tests: seq<Testcase>, ids: seq<string>, clients: seq<string>)
    requires |ids| == |tests|
    ensures |w.started| <= |RunTests(s, w, tests, ids, clients).world.started| <= |w.started| + |tests|
    decreases |tests|
  {
    if tests != [] {
      var n := |tests| - 1;
      AtMostOneStartPerTest(s, w, tests[..n], ids[..n], clients);
      var r := RunTests(s, w, tests[..n], ids[..n], clients);
      AtMostOneStart(s, r.world, tests[n], ids[n], clients);
    }
  }
}
