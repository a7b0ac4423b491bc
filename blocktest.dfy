/**
 * One test case: a named entry of a fixture file, with the node it last ran
 * on. It checks its network against the ruleset, adds its fork rules to a
 * node environment, stages its genesis and blocks on disk, and compares the
 * hashes a node reports against the expected ones.
 */
module Blocktest {
  import opened Options
  import opened Fmt
  import opened Fixture
  import opened Rules
  import opened Errors
  import opened Storage

  /** A node environment that the runner builds up in place. */
  class Env {
    var vars: map<string, string>

    constructor (vars: map<string, string>)
      ensures this.vars == vars
    {
      this.vars := vars;
    }
  }

  /** The variable that tells the node not to check proof of work. */
  const SkipPow := "HIVE_SKIP_POW"

  /** `%x` of the SHA-1 of the file path followed by the test name. */
  function StagingKey(sha1: string -> Digest, filepath: string, name: string): (key: string)
    ensures |key| == 40 && UnHex(key) == Some(sha1(filepath + name))
  {
    UnHexOfHex(sha1(filepath + name));
    Hex(sha1(filepath + name))
  }

  function StagingDir(key: string): string {
    "./" + key
  }

  function BlockFolder(key: string): string {
    "./" + key + "/blocks"
  }

  function GenesisFile(key: string): string {
    "./" + key + "/genesis.json"
  }

  /** The n-th block file (counting from 1): `%s/%04d.rlp`. */
  function BlockPath(folder: string, n: nat): string {
    folder + "/" + Pad4(n) + ".rlp"
  }

  /** What artefacts returns: genesis file, chain file, block folder, error. */
  datatype Staged = Staged(genesisFile: string, chainFile: string, blockFolder: string, err: Option<Error>)

  function Failed(e: Error): Staged {
    Staged("", "", "", Some(e))
  }

  /** Writes blocks[i..] as files i+1, i+2, ... of the folder, stopping at the first failure. */
  function WriteBlocks(fromHex: string -> Bytes, broken: map<string, string>, d: Disk,
                       folder: string, blocks: seq<Block>, i: nat): (Disk, Option<Error>)
    requires i <= |blocks|
    decreases |blocks| - i
  {
    if i == |blocks| then (d, None)
    else
      var o := WriteOn(d, broken, BlockPath(folder, i + 1), fromHex(blocks[i].rlp));
      if o.err.Some? then (o.disk, Some(BlockWriteFailed(i, o.err.value)))
      else WriteBlocks(fromHex, broken, o.disk, folder, blocks, i + 1)
  }

  /** The variables the loop of updateEnv has written after visiting the keys in done. */
  function Written(rules: map<string, int>, done: set<string>): map<string, string>
    requires done <= rules.Keys
  {
    map k | k in done :: Decimal(rules[k])
  }

  lemma WrittenStep(rules: map<string, int>, done: set<string>, k: string)
    requires done <= rules.Keys && k in rules
    ensures Written(rules, done + {k}) == Written(rules, done)[k := Decimal(rules[k])]
  {
  }

  lemma UnionUpdate(base: map<string, string>, r: map<string, string>, k: string, v: string)
    ensures (base + r)[k := v] == base + r[k := v]
  {
  }

  /** The loop of updateEnv: one variable per rule, visited in any order. */
  method WriteRules(env: Env, rules: map<string, int>)
    modifies env
    ensures env.vars == old(env.vars) + RuleEnv(rules)
  {
    var todo := rules.Keys;
    ghost var done: set<string> := {};
    while todo != {}
      invariant todo + done == rules.Keys && todo !! done
      invariant env.vars == old(env.vars) + Written(rules, done)
      decreases |todo|
    {
      var k :| k in todo;
      WrittenStep(rules, done, k);
      UnionUpdate(old(env.vars), Written(rules, done), k, Decimal(rules[k]));
      env.vars := env.vars[k := Decimal(rules[k])];
      todo := todo - {k};
      done := done + {k};
    }
    assert Written(rules, rules.Keys) == RuleEnv(rules);
  }

  class Testcase {
    const name: string
    const blockTest: BlockTest
    const filepath: string
    var nodeId: string

    constructor (name: string, blockTest: BlockTest, filepath: string)
      ensures this.name == name && this.blockTest == blockTest && this.filepath == filepath
      ensures nodeId == ""
    {
      this.name := name;
      this.blockTest := blockTest;
      this.filepath := filepath;
      nodeId := "";
    }

    /**
     * validate: an error exactly when the network has no entry in the ruleset.
     * The lookup is written against Networks, the table's key set (see
     * ValidateLooksUpTable).
     */
    function Validate(): (r: Option<Error>)
      ensures r.None? <==> blockTest.network in Networks
      ensures r.Some? ==> r.value == NetworkUndefined(blockTest.network)
    {
      if blockTest.network !in Networks then Some(NetworkUndefined(blockTest.network)) else None
    }

    /** The variables updateEnv sets: the fork thresholds, and HIVE_SKIP_POW for NoProof. */
    function EnvUpdates(): map<string, string> {
      var written := RuleEnv(RulesFor(blockTest.network));
      if blockTest.sealEngine == NoProof then written[SkipPow := "1"] else written
    }

    /** updateEnv: writes each fork threshold of the network in decimal, then possibly HIVE_SKIP_POW. */
    method UpdateEnv(env: Env)
      modifies env
      ensures env.vars == old(env.vars) + EnvUpdates()
    {
      var rules := RulesFor(blockTest.network);
      WriteRules(env, rules);
      if blockTest.sealEngine == NoProof {
        UnionUpdate(old(env.vars), RuleEnv(rules), SkipPow, "1");
        env.vars := env.vars[SkipPow := "1"];
      }
    }

    function Key(sha1: string -> Digest): string {
      StagingKey(sha1, filepath, name)
    }

    /**
     * artefacts, as a function of the disk: the key directory, its blocks
     * folder, genesis.json, then one file per block. Every error returns
     * empty paths; the chain file is always empty.
     */
    function Staging(foreign: Foreign, broken: map<string, string>, d: Disk): (r: (Disk, Staged))
      ensures r.1.chainFile == ""
      ensures r.1.err.Some? ==> r.1.genesisFile == "" && r.1.blockFolder == ""
      ensures r.1.err.None? ==>
        r.1.genesisFile == GenesisFile(Key(foreign.sha1)) && r.1.blockFolder == BlockFolder(Key(foreign.sha1))
    {
      var key := Key(foreign.sha1);
      var o1 := MkdirOn(d, broken, StagingDir(key));
      if o1.err.Some? then (o1.disk, Failed(Io(o1.err.value)))
      else
        var o2 := MkdirOn(o1.disk, broken, BlockFolder(key));
        if o2.err.Some? then (o2.disk, Failed(Io(o2.err.value)))
        else
          var o3 := WriteOn(o2.disk, broken, GenesisFile(key), foreign.genesisJson(blockTest));
          if o3.err.Some? then (o3.disk, Failed(GenesisWriteFailed(o3.err.value)))
          else
            var w := WriteBlocks(foreign.fromHex, broken, o3.disk, BlockFolder(key), blockTest.blocks, 0);
            if w.1.Some? then (w.0, Failed(w.1.value))
            else (w.0, Staged(GenesisFile(key), "", BlockFolder(key), None))
    }

    method Artefacts(fs: FileSystem, foreign: Foreign) returns (genesis: string, chain: string, blocks: string, err: Option<Error>)
      modifies fs
      ensures (fs.State(), Staged(genesis, chain, blocks, err)) == Staging(foreign, fs.broken, old(fs.State()))
    {
      var key := StagingKey(foreign.sha1, filepath, name);
      var blockFolder := BlockFolder(key);
      var e := fs.Mkdir(StagingDir(key));
      if e.Some? {
        return "", "", "", Some(Io(e.value));
      }
      e := fs.Mkdir(blockFolder);
      if e.Some? {
        return "", "", "", Some(Io(e.value));
      }
      var genBytes := foreign.genesisJson(blockTest);
      var genesisFile := GenesisFile(key);
      e := fs.WriteFile(genesisFile, genBytes);
      if e.Some? {
        return "", "", "", Some(GenesisWriteFailed(e.value));
      }
      ghost var staged := fs.State();
      var i := 0;
      while i < |blockTest.blocks|
        invariant 0 <= i <= |blockTest.blocks|
        invariant WriteBlocks(foreign.fromHex, fs.broken, fs.State(), blockFolder, blockTest.blocks, i)
               == WriteBlocks(foreign.fromHex, fs.broken, staged, blockFolder, blockTest.blocks, 0)
      {
        var rlpdata := foreign.fromHex(blockTest.blocks[i].rlp);
        var fname := BlockPath(blockFolder, i + 1);
        e := fs.WriteFile(fname, rlpdata);
        if e.Some? {
          return "", "", "", Some(BlockWriteFailed(i, e.value));
        }
        i := i + 1;
      }
      return genesisFile, "", blockFolder, None;
    }

    /** verifyGenesis: no error exactly when the node's genesis hash is the expected one. */
    function VerifyGenesis(got: Bytes): (r: Option<Error>)
      ensures r.None? <==> got == blockTest.genesis.hash
      ensures r.Some? ==> r.value == GenesisMismatch(blockTest.genesis.hash, got)
    {
      var exp := blockTest.genesis.hash;
      if Compare(exp, got) != 0 then Some(GenesisMismatch(exp, got)) else None
    }

    /** verifyBestblock: no error exactly when the node's head hash is the expected last block. */
    function VerifyBestblock(got: Bytes): (r: Option<Error>)
      ensures r.None? <==> got == blockTest.bestBlock
      ensures r.Some? ==> r.value == BestBlockMismatch(blockTest.bestBlock, got, name, filepath)
    {
      var exp := blockTest.bestBlock;
      if Compare(exp, got) != 0 then Some(BestBlockMismatch(exp, got, name, filepath)) else None
    }
  }

  /** The shape of the update for any rule map without a HIVE_SKIP_POW entry. */
  lemma Rendering(rules: map<string, int>, noProof: bool)
    requires SkipPow !in rules
    ensures var written := RuleEnv(rules);
      var u := if noProof then written[SkipPow := "1"] else written;
      u.Keys == rules.Keys + (if noProof then {SkipPow} else {})
      && (forall k :: k in rules ==> ParseDecimal(u[k]) == Some(rules[k]))
      && (SkipPow in u <==> noProof)
      && (noProof ==> u[SkipPow] == "1")
  {
    forall k | k in rules {
      DecimalRoundTrip(rules[k]);
    }
  }

  lemma SkipPowIsNoFork()
    ensures SkipPow !in ForkKeys
  {
    assert |SkipPow| == 13;
  }

  /**
   * What updateEnv adds: every fork threshold of the network as a decimal
   * string that reads back to the threshold, and HIVE_SKIP_POW = "1" exactly
   * for NoProof tests; nothing else.
   */
  lemma EnvUpdatesContents(t: Testcase)
    ensures var rules := RulesFor(t.blockTest.network);
      var u := t.EnvUpdates();
      var noProof := t.blockTest.sealEngine == NoProof;
      u.Keys == rules.Keys + (if noProof then {SkipPow} else {})
      && (forall k :: k in rules ==> ParseDecimal(u[k]) == Some(rules[k]))
      && (SkipPow in u <==> noProof)
      && (noProof ==> u[SkipPow] == "1")
  {
    var rules := RulesFor(t.blockTest.network);
    if t.blockTest.network in Ruleset {
      EntriesAreComplete();
      SkipPowIsNoFork();
    }
    Rendering(rules, t.blockTest.sealEngine == NoProof);
  }

  /** validate passes exactly for the networks that have a row in the ruleset. */
  lemma ValidateLooksUpTable(t: Testcase)
    ensures t.Validate().None? <==> t.blockTest.network in Ruleset
    ensures t.Validate().Some? ==> t.Validate().value == NetworkUndefined(t.blockTest.network)
  {
    NetworksAreRows();
  }

  /**
   * For a network the table lacks, `ruleset[net]` is the nil map, so updateEnv
   * adds no fork key at all: at most HIVE_SKIP_POW, for a NoProof test.
   */
  lemma UnknownNetworkGetsNoFork(t: Testcase)
    requires t.Validate().Some?
    ensures forall k :: k in ForkKeys ==> k !in t.EnvUpdates()
    ensures t.EnvUpdates().Keys == if t.blockTest.sealEngine == NoProof then {SkipPow} else {}
  {
    ValidateLooksUpTable(t);
    EnvUpdatesContents(t);
    SkipPowIsNoFork();
  }

  /** For a network in the table, the node gets all eight fork keys, each 0, 5 or 2000. */
  lemma EnvHasEveryFork(t: Testcase)
    requires t.Validate().None?
    ensures var u := t.EnvUpdates();
      forall k :: k in ForkKeys ==> k in u && ParseDecimal(u[k]) in {Some(0), Some(TransitionBlock), Some(Never)}
  {
    ValidateLooksUpTable(t);
    EnvUpdatesContents(t);
    EntriesAreComplete();
    var rules := RulesFor(t.blockTest.network);
    assert Thresholds(rules);
  }
}
