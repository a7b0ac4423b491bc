/**
 * Running test cases against clients: for one test on one client, stage its
 * files, start a node with the test's environment, dial it, check its genesis
 * and head hashes, and report the outcome to the host if a node id is known.
 * The functions here describe a run as a function of the world before it;
 * the class below does the same steps on objects, and its methods are proved
 * to agree with the functions.
 */
module Executor {
  import opened Options
  import opened Fmt
  import opened Fixture
  import opened Errors
  import opened Storage
  import opened Rpc
  import opened Host
  import opened Blocktest

  /** `hexutil.EncodeBig(new(big.Int))`: the number of the genesis block. */
  const GenesisBlock := "0x0"

  const HeadBlock := "latest"

  /** The environment runTest starts a node with, before updateEnv adds the test's rules. */
  function BaseEnv(client: string, genesis: string, blocks: string): map<string, string> {
    map["CLIENT" := client, "HIVE_INIT_GENESIS" := genesis, "HIVE_INIT_BLOCKS" := blocks,
        "HIVE_FORK_DAO_VOTE" := "1", "HIVE_INIT_CHAIN" := "ignore", "HIVE_INIT_KEYS" := "ignore"]
  }

  /**
   * The test name reported to the host: `path:name`, made relative with a
   * leading "." when it starts with "/tests/".
   */
  function TestName(filepath: string, name: string): (r: string)
    ensures var plain := filepath + ":" + name;
      |plain| <= |r| <= |plain| + 1
      && r[|r| - |plain|..] == plain
      && (|r| == |plain| + 1 <==> HasPrefix(plain, "/tests/"))
      && (|r| == |plain| + 1 ==> r[0] == '.')
      && !HasPrefix(r, "/tests/")
  {
    var plain := filepath + ":" + name;
    if HasPrefix(plain, "/tests/") then
      assert ("." + plain)[0] == '.';
      assert ("." + plain)[1..] == plain;
      "." + plain
    else plain
  }

  /** Disk, start requests and reports: everything a run changes outside the test case. */
  datatype World = World(disk: Disk, started: seq<map<string, string>>, results: seq<Report>)

  /** What the environment answers: library functions, refused paths, the host's start replies. */
  datatype Setup = Setup(foreign: Foreign, broken: map<string, string>, nodes: nat -> NodeReply)

  /** After one test on one client: the world, the test's node id, and the error runTest returns. */
  datatype Unit = Unit(world: World, nodeId: string, err: Option<Error>)

  /** The checks on a started node: dial, genesis hash, head hash, in that order. */
  function Probe(hexToHash: string -> Hash, t: Testcase, ep: Endpoint): Option<Error> {
    if ep.dialError.Some? then Some(DialFailed(ep.dialError.value))
    else
      var g := HashFetch(ep.replies(0), ep.replies(1), hexToHash);
      if g.result.FetchFailed? then Some(GenesisCheckFailed(g.result.error))
      else if t.VerifyGenesis(g.result.hash).Some? then t.VerifyGenesis(g.result.hash)
      else
        var h := HashFetch(ep.replies(g.attempts), ep.replies(g.attempts + 1), hexToHash);
        if h.result.FetchFailed? then Some(HeadFetchFailed(h.result.error))
        else t.VerifyBestblock(h.result.hash)
  }

  /**
   * The `eth_getBlockByNumber` arguments the checks send, in order: none when
   * the dial fails, the genesis fetch's calls, and the head fetch's calls only
   * when the genesis hash was fetched and matched.
   */
  function ProbeCalls(hexToHash: string -> Hash, t: Testcase, ep: Endpoint): seq<string> {
    if ep.dialError.Some? then []
    else
      var g := HashFetch(ep.replies(0), ep.replies(1), hexToHash);
      var genesisCalls := seq(g.attempts, _ => GenesisBlock);
      if g.result.FetchFailed? || t.VerifyGenesis(g.result.hash).Some? then genesisCalls
      else
        var h := HashFetch(ep.replies(g.attempts), ep.replies(g.attempts + 1), hexToHash);
        genesisCalls + seq(h.attempts, _ => HeadBlock)
  }

  /** The RPC calls of runTest: the checks' calls if staging succeeded and a node started, none otherwise. */
  function UnitCalls(s: Setup, w: World, t: Testcase): seq<string> {
    if t.Staging(s.foreign, s.broken, w.disk).1.err.Some? then []
    else match s.nodes(|w.started|)
      case StartError(_) => []
      case Started(_, ep) => ProbeCalls(s.foreign.hexToHash, t, ep)
  }

  /** runTest up to its first return, before the deferred report. */
  function Attempt(s: Setup, w: World, t: Testcase, nodeId: string, client: string): Unit {
    var staged := t.Staging(s.foreign, s.broken, w.disk);
    var w1 := w.(disk := staged.0);
    if staged.1.err.Some? then Unit(w1, nodeId, staged.1.err)
    else
      var env := BaseEnv(client, staged.1.genesisFile, staged.1.blockFolder) + t.EnvUpdates();
      var w2 := w1.(started := w.started + [env]);
      match s.nodes(|w.started|)
      case StartError(reason) => Unit(w2, nodeId, Some(StartFailed(reason)))
      case Started(id, ep) => Unit(w2, id, Probe(s.foreign.hexToHash, t, ep))
  }

  /** The deferred `done`: a report for the test's node, if it has one. */
  function Reported(u: Unit, t: Testcase): World {
    if u.nodeId == "" then u.world
    else u.world.(results := u.world.results
                    + [Report(u.err.None?, u.nodeId, TestName(t.filepath, t.name), ErrText(u.err))])
  }

  /** runTest: the attempt, then the report. */
  function RunUnit(s: Setup, w: World, t: Testcase, nodeId: string, client: string): Unit {
    var u := Attempt(s, w, t, nodeId, client);
    u.(world := Reported(u, t))
  }

  /** One test on each client in turn, the test keeping its node id from one client to the next. */
  function RunClients(s: Setup, w: World, t: Testcase, nodeId: string, clients: seq<string>): Unit
    decreases |clients|
  {
    if clients == [] then Unit(w, nodeId, None)
    else
      var u := RunClients(s, w, t, nodeId, clients[..|clients| - 1]);
      RunUnit(s, u.world, t, u.nodeId, clients[|clients| - 1])
  }

  /** After a run over several tests: the world and each test's node id. */
  datatype Sweep = Sweep(world: World, ids: seq<string>)

  /** run: every test, in order, on every client. */
  function RunTests(s: Setup, w: World, tests: seq<Testcase>, ids: seq<string>, clients: seq<string>): (r: Sweep)
    requires |ids| == |tests|
    ensures |r.ids| == |tests|
    decreases |tests|
  {
    if tests == [] then Sweep(w, [])
    else
      var n := |tests| - 1;
      var r := RunTests(s, w, tests[..n], ids[..n], clients);
      var u := RunClients(s, r.world, tests[n], ids[n], clients);
      Sweep(u.world, r.ids + [u.nodeId])
  }

  /** One more test: run it on every client, starting from where the earlier tests left the world. */
  lemma RunTestsStep(s: Setup, w: World, tests: seq<Testcase>, ids: seq<string>, clients: seq<string>, i: nat)
    requires |ids| == |tests| && i < |tests|
    ensures var r := RunTests(s, w, tests[..i], ids[..i], clients);
      var u := RunClients(s, r.world, tests[i], ids[i], clients);
      RunTests(s, w, tests[..i + 1], ids[..i + 1], clients) == Sweep(u.world, r.ids + [u.nodeId])
  {
    assert tests[..i + 1][..i] == tests[..i];
    assert ids[..i + 1][..i] == ids[..i];
  }

  class BlocktestExecutor {
    const host: SimulatorHost
    const clients: seq<string>
    const fs: FileSystem
    const foreign: Foreign

    constructor (host: SimulatorHost, clients: seq<string>, fs: FileSystem, foreign: Foreign)
      ensures this.host == host && this.clients == clients && this.fs == fs && this.foreign == foreign
    {
      this.host := host;
      this.clients := clients;
      this.fs := fs;
      this.foreign := foreign;
    }

    function Config(): Setup {
      Setup(foreign, fs.broken, host.nodes)
    }

    function State(): World
      reads fs, host
    {
      World(fs.State(), host.started, host.results)
    }

    /**
     * The body of runTest, up to its first return. rpc is the client it
     * dialed, if it got that far; the calls made on it are the ones
     * UnitCalls lists, and no client means UnitCalls lists none.
     */
    method Execute(t: Testcase, client: string) returns (err: Option<Error>, ghost rpc: RpcClient?)
      modifies fs, host, t
      ensures var u := Attempt(Config(), old(State()), t, old(t.nodeId), client);
        State() == u.world && t.nodeId == u.nodeId && err == u.err
      ensures rpc == null ==> UnitCalls(Config(), old(State()), t) == []
      ensures rpc != null ==> fresh(rpc) && rpc.calls == UnitCalls(Config(), old(State()), t)
    {
      rpc := null;
      var genesis, chain, blocks, e := t.Artefacts(fs, foreign);
      if e.Some? {
        return e, rpc;
      }
      var env := new Env(BaseEnv(client, genesis, blocks));
      t.UpdateEnv(env);
      var reply := host.StartNewNode(env.vars);
      if reply.StartError? {
        return Some(StartFailed(reply.reason)), rpc;
      }
      t.nodeId := reply.nodeId;
      err, rpc := Check(t, reply.endpoint);
    }

    /**
     * The part of runTest after the node has started: dial it, then compare
     * its two hashes. rpc is the dialed client, whose recorded calls are the
     * arguments sent to the node, in order; no client means no call.
     */
    method Check(t: Testcase, ep: Endpoint) returns (err: Option<Error>, ghost rpc: RpcClient?)
      ensures err == Probe(foreign.hexToHash, t, ep)
      ensures rpc == null ==> ProbeCalls(foreign.hexToHash, t, ep) == []
      ensures rpc != null ==> fresh(rpc) && rpc.calls == ProbeCalls(foreign.hexToHash, t, ep)
    {
      if ep.dialError.Some? {
        return Some(DialFailed(ep.dialError.value)), null;
      }
      var rawClient := new RpcClient(ep.replies);
      rpc := rawClient;
      var genesisHash := GetHash(rawClient, GenesisBlock, foreign.hexToHash);
      if genesisHash.FetchFailed? {
        return Some(GenesisCheckFailed(genesisHash.error)), rpc;
      }
      err := t.VerifyGenesis(genesisHash.hash);
      if err.Some? {
        return;
      }
      var lastHash := GetHash(rawClient, HeadBlock, foreign.hexToHash);
      if lastHash.FetchFailed? {
        return Some(HeadFetchFailed(lastHash.error)), rpc;
      }
      err := t.VerifyBestblock(lastHash.hash);
    }

    /** The deferred `done` of runTest: reports only when the test has a node id. */
    method Done(t: Testcase, err: Option<Error>)
      modifies host
      ensures host.started == old(host.started)
      ensures t.nodeId == "" ==> host.results == old(host.results)
      ensures t.nodeId != "" ==>
        host.results == old(host.results) + [Report(err.None?, t.nodeId, TestName(t.filepath, t.name), ErrText(err))]
    {
      var errString := "";
      var success := err.None?;
      if !success {
        errString := Message(err.value);
      }
      var id := t.nodeId;
      if id != "" {
        var testname := TestName(t.filepath, t.name);
        host.AddResults(success, id, testname, errString);
      }
    }

    method RunTest(t: Testcase, client: string) returns (err: Option<Error>)
      modifies fs, host, t
      ensures var u := RunUnit(Config(), old(State()), t, old(t.nodeId), client);
        State() == u.world && t.nodeId == u.nodeId && err == u.err
    {
      ghost var rpc;
      err, rpc := Execute(t, client);
      Done(t, err);
    }

    /** The inner loop of run: one test on every client, in order. */
    method RunOnClients(t: Testcase)
      modifies fs, host, t
      ensures var u := RunClients(Config(), old(State()), t, old(t.nodeId), clients);
        State() == u.world && t.nodeId == u.nodeId
    {
      ghost var w0 := State();
      ghost var id0 := t.nodeId;
      var j := 0;
      while j < |clients|
        invariant j <= |clients|
        invariant var u := RunClients(Config(), w0, t, id0, clients[..j]);
          State() == u.world && t.nodeId == u.nodeId
      {
        assert clients[..j + 1][..j] == clients[..j];
        var _ := RunTest(t, clients[j]);
        j := j + 1;
      }
      assert clients[..j] == clients;
    }

    /** run: each test on each client; ids are the test cases' node ids beforehand. */
    method Run(tests: seq<Testcase>, ghost ids: seq<string>)
      requires forall i, j :: 0 <= i < j < |tests| ==> tests[i] != tests[j]
      requires |ids| == |tests| && forall k :: 0 <= k < |tests| ==> tests[k].nodeId == ids[k]
      modifies fs, host, set t | t in tests
      ensures var r := RunTests(Config(), old(State()), tests, ids, clients);
        State() == r.world && forall k :: 0 <= k < |tests| ==> tests[k].nodeId == r.ids[k]
    {
      ghost var w0 := State();
      ghost var r := Sweep(w0, []);
      var i := 0;
      while i < |tests|
        invariant 0 <= i <= |tests| && |r.ids| == i
        invariant r == RunTests(Config(), w0, tests[..i], ids[..i], clients)
        invariant State() == r.world
        invariant forall k :: 0 <= k < i ==> tests[k].nodeId == r.ids[k]
        invariant forall k :: i <= k < |tests| ==> tests[k].nodeId == ids[k]
      {
        RunTestsStep(Config(), w0, tests, ids, clients, i);
        RunOnClients(tests[i]);
        ghost var after := r.ids + [tests[i].nodeId];
        r := Sweep(State(), after);
        i := i + 1;
      }
      assert tests[..|tests|] == tests;
      assert ids[..|tests|] == ids;
    }
  }
}
