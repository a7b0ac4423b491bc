# goconsensus blocktest runner, modelled in Dafny

goconsensus is a hive simulator. It runs Ethereum blockchain conformance tests
against client nodes. It walks a tree of JSON fixture files and turns every
named test whose network appears in its fork-rule table (`ruleset`) into a
test case. Each test case then runs on every available client, in order:

1. stage the test's genesis and blocks in a directory named after a SHA-1 key;
2. start a node whose environment carries the network's fork thresholds;
3. dial the node and compare its genesis hash and its head hash with the
   fixture's expected hashes (each hash is fetched with one retry);
4. report the outcome to the simulator host, from a deferred `done`, but only
   when the test case carries a node id.

The model follows the program's structure, one module per concern:

- `Rules`: the `ruleset` table as a constant map, and its properties.
- `Blocktest`: the `Testcase` class (`validate`, `updateEnv`, `artefacts`,
  `verifyGenesis`, `verifyBestblock`) and the `Env` map it updates.
- `Staging`: what `artefacts` leaves on disk.
- `Storage`: the filesystem as a class over a set of directories and a map of
  files.
- `Rpc`: `getHash` over a scripted RPC client.
- `Host`: the simulator host's `StartNewNode` and `AddResults`.
- `Executor`: `runTest` and `run`, as methods of a `BlocktestExecutor` class.
  Each method is proved equal to a function of the world before it. The world
  is the disk, the start requests and the reports.
- `Runs`: what those functions promise across calls and across clients.
- `Corpus`: the walk and the filtering loop of `deliverTests`.
- `Fmt`: the formatting the runner relies on (`%d`, `%04d`, `%x`,
  `bytes.Compare`, Go string order).
- `Errors`: the errors and their texts.
- `Options` and `Fixture`: the option type, the fixture data and the library
  functions.

The library functions the runner calls are fields of `Fixture.Foreign` and are
never opened: SHA-1, JSON encoding of the genesis, `common.FromHex` and
`common.HexToHash`. Replies from the host and from a node are given up front
as scripts: the n-th request gets the n-th reply. Paths the operating system
would refuse for reasons other than existence are given as a map from path to
reason.

Two consequences of the code are worth stating on their own:
- The staging key hashes the file path and the test name run together with no
  separator, so `("a", "bc")` and `("ab", "c")` share one staging directory.
  This is `Staging.StagingKeyCollides`.
- Staging is not repeatable: `os.Mkdir` fails on a directory that exists. A
  test case runs on every client in turn, so every client after the first
  fails at staging, starts no node, and reports that failure under the first
  client's node id when it has one (no report is filed when the first client
  never got a node). This is `Runs.LaterClientsFailAtStaging`.

## Model

| member | source | states |
|---|---|---|
| Rules.NetworksAreRows | main.go:27-178 | the table has a row for exactly the fifteen networks named in `Networks` |
| Blocktest.UnknownNetworkGetsNoFork | main.go:242-247 | for a network the table lacks, `ruleset[net]` is the nil map and updateEnv adds no fork key: only `HIVE_SKIP_POW` for a NoProof test, nothing otherwise |
| Rules.EntriesAreComplete | main.go:27-178 | every row sets exactly the eight `HIVE_FORK_*` keys, each to 0, 5 or 2000 |
| Rules.ThresholdsAreOrdered | main.go:27-178 | in every row, the seven thresholds other than `HIVE_FORK_DAO_BLOCK` never decrease along the historical fork order (the DAO block is left out: in most rows it is 2000 while later forks are at 0) |
| Rules.EarlyTransitionsBlend | main.go:108-147 | FrontierToHomesteadAt5, HomesteadToEIP150At5 and EIP158ToByzantiumAt5 are their base row with every fork the target row sets differently moved to block 5 |
| Rules.LateTransitionsBlend | main.go:148-177 | the same for the three transitions from Byzantium and ConstantinopleFix |
| Rules.DaoTransition | main.go:128-137 | HomesteadToDaoAt5 is Homestead with only the DAO block moved to 5 |
| Blocktest.Testcase.Validate | main.go:233-239 | no error exactly when the network is known; otherwise the error names the network |
| Blocktest.ValidateLooksUpTable | main.go:233-239 | validate passes exactly when the network is a key of the table itself |
| Blocktest.WriteRules | main.go:244-247 | the loop adds one `%d` entry per rule of the row to the map and changes nothing else, in any visiting order |
| Blocktest.Testcase.UpdateEnv | main.go:242-252 | the map afterwards is the old map overridden by the network's rules and, for NoProof, `HIVE_SKIP_POW` |
| Blocktest.EnvUpdatesContents | main.go:242-252 | updateEnv adds exactly the row's keys plus `HIVE_SKIP_POW` iff the seal engine is NoProof; each threshold reads back from its decimal text, and `HIVE_SKIP_POW` is "1" |
| Blocktest.EnvHasEveryFork | main.go:242-252 | for a test that passes validate, the node gets all eight fork keys, each reading back as 0, 5 or 2000 |
| Fmt.DecimalRoundTrip | main.go:246 | `%d` of any integer reads back to that integer |
| Blocktest.StagingKey | main.go:270 | the key is 40 hex characters that read back to the SHA-1 of path followed by name |
| Staging.StagingKeyCollides | main.go:270 | two different (path, name) pairs with the same concatenation get the same key |
| Blocktest.Testcase.Staging | main.go:268-295 | the chain file is always ""; every error returns empty paths; success returns the key's genesis.json and blocks folder |
| Blocktest.Testcase.Artefacts | main.go:268-295 | the method leaves the disk, and returns the paths and error, that the staging function gives for the old disk |
| Staging.ExistingDirectoryRefused | main.go:273-275 | if the key directory exists, artefacts fails with mkdir's "file exists" and the disk is unchanged |
| Staging.StagingSucceedsIff | main.go:273-292 | artefacts succeeds exactly when neither directory exists or is refused, genesis.json is not a directory or refused, and no block path is a directory or refused |
| Staging.StagingSucceeds | main.go:279-294 | on success, both directories are added, genesis.json and one file per block are written with their contents, and every other file is unchanged |
| Storage.MkdirOn | main.go:273-278 | `os.Mkdir` fails exactly when the path exists or is refused, and then changes nothing; otherwise it adds the directory |
| Storage.WriteOn | main.go:282-290 | `ioutil.WriteFile` fails exactly when the path is a directory or refused; otherwise it sets that one file |
| Storage.FileSystem.Mkdir | main.go:273-278 | the filesystem object moves as `MkdirOn` says |
| Storage.FileSystem.WriteFile | main.go:282-290 | the filesystem object moves as `WriteOn` says |
| Staging.WriteBlocksSucceedIff | main.go:286-292 | the block loop succeeds exactly when no block path is a directory or refused |
| Staging.WriteBlocksWrites | main.go:286-292 | after the block loop, file n holds block n's bytes, the files added are exactly the block names, and other files are kept |
| Staging.BlockPathInjective | main.go:288 | distinct block numbers give distinct file names |
| Staging.BlockNamesCount | main.go:286-292 | k blocks give exactly k block file names |
| Staging.GenesisIsNotABlock | main.go:281-288 | genesis.json is never one of the block file names |
| Staging.BlockNamesSorted | main.go:288 | for blocks 1 to 9999, the byte order of the file names is the block order |
| Staging.BlockNamesPastPadding | main.go:288 | from block 10000 on, the order breaks: file 10000 sorts before file 9999 |
| Fmt.Pad4Value | main.go:288 | `%04d` keeps the value, and is four characters wide exactly below 10000 |
| Errors.BlockIndexReadsBack | main.go:290 | the block-write error text carries the 0-based block index, which reads back |
| Fmt.Compare | main.go:298 | `bytes.Compare` gives -1, 0 or 1, and 0 exactly for equal byte strings |
| Blocktest.Testcase.VerifyGenesis | main.go:297-302 | no error exactly when the received bytes equal the expected genesis hash; otherwise a mismatch carrying both |
| Errors.GenesisMismatchReadsBack | main.go:299 | from the genesis mismatch text, both the expected and the received hash read back |
| Fmt.UnHexOfHex | main.go:299 | `%x` of any bytes reads back to those bytes |
| Blocktest.Testcase.VerifyBestblock | main.go:303-308 | no error exactly when the received bytes equal the expected last-block hash; otherwise a mismatch carrying both and the test's name and path |
| Errors.BestBlockMismatchReadsBack | main.go:305 | from the last-block mismatch text, both hashes read back |
| Rpc.HashFetch | main.go:406-424 | a second call is made exactly when the first failed. getHash fails with the call error only when both calls failed, and succeeds exactly when the answer it reads has a string "hash", converted by HexToHash |
| Rpc.RpcClient.Call | main.go:408-411 | each call is recorded and gets the next scripted reply |
| Rpc.GetHash | main.go:406-424 | the method returns what `HashFetch` gives for the next two scripted replies and makes that many calls with the same argument |
| Host.SimulatorHost.StartNewNode | main.go:369 | each start request is recorded with its environment and gets the next scripted answer |
| Host.SimulatorHost.AddResults | main.go:344 | each report is appended and nothing else changes |
| Executor.TestName | main.go:340-343 | the report name is path ":" name, with one "." in front exactly when that starts with "/tests/"; the result never starts with "/tests/" |
| Executor.BlocktestExecutor.Check | main.go:375-400 | the dial, genesis and head checks return the error `Probe` gives (the first failing step's error, or none) and the client it dials (a fresh one, or none) has recorded exactly the calls `ProbeCalls` lists, none when it dials no client |
| Executor.BlocktestExecutor.Execute | main.go:352-400 | runTest up to its return moves the disk, the host and the node id as `Attempt` says, and returns its error; the RPC client it dials, if any, is fresh and has recorded exactly the calls `UnitCalls` lists, and with no client `UnitCalls` lists none |
| Runs.ChecksStopAtFirstFailure | main.go:375-393 | once a check fails no later one runs: a failed dial sends no call, the genesis block is asked for first (twice only after a refused call), and the head is asked for, at most twice, exactly when the genesis hash was fetched and matched; a passing check always asked for the head |
| Runs.NoCallsBeforeStart | main.go:352-376 | runTest calls the node only after staging succeeded, the host started a node and the dial succeeded |
| Executor.BlocktestExecutor.Done | main.go:330-350 | the deferred done adds one report with success = (err == nil) exactly when the node id is not empty, and starts nothing |
| Executor.BlocktestExecutor.RunTest | main.go:323-404 | one runTest moves the world and the node id as `RunUnit` says, and returns its error |
| Executor.BlocktestExecutor.RunOnClients | main.go:313-318 | one test on every client in order moves the world and the node id as `RunClients` says |
| Executor.BlocktestExecutor.Run | main.go:310-321 | run over the tests moves the world as `RunTests` says, and leaves each test case with the node id `RunTests` gives it |
| Executor.RunTests | main.go:310-321 | the definition of run's order: each test in turn on every client, one final node id per test; `Runs.AtMostOneStartPerTest` is what is proved about it |
| Runs.RunUnitShape | main.go:330-374 | a start request exactly when staging succeeded, with the base variables, the staged paths and the test's rules. A staging error keeps the node id and is the error. The node id changes only to the id of a node the host started. The reports grow by one exactly when the node id is not empty, with success = (err == nil) and the error's text |
| Runs.RunUnitSucceedsIff | main.go:352-403 | runTest returns no error exactly when staging succeeds, the host starts a node, the dial succeeds, and both hashes are fetched and equal the expected ones |
| Runs.HeadMismatchReported | main.go:392-400 | when the head hash differs, runTest fails with the last-block mismatch, and the single report is a failure under the new node id with that mismatch's text |
| Runs.StagingTakesDir | main.go:273-292 | whatever artefacts does, afterwards the key directory exists or is refused |
| Runs.TakenDirFails | main.go:330-356 | with the key directory taken, runTest starts nothing and keeps the disk and the node id. It returns the mkdir error and reports it only if the node id is not empty |
| Runs.LaterClientsFailAtStaging | main.go:312-318 | after the first client, each later client on the same test case fails at mkdir. That client starts nothing and keeps the first client's node id. It files one failure report under that id, when the id is not empty |
| Runs.RefusedAsExisting | main.go:273-275 | unless the system refuses the key directory, later clients fail with "file exists" |
| Runs.AtMostOneStart | main.go:313-318 | one test case asks the host for at most one node, however many clients there are |
| Runs.AtMostOneStartPerTest | main.go:310-321 | run asks for at most one node per test |
| Corpus.WalkCompletes | main.go:184-196 | the walk runs to the end exactly when every `*.json` file that is not a directory decodes |
| Corpus.WalkDelivers | main.go:185-196 | a walk that runs to the end gives one decoded fixture per `*.json` file, in walk order, skipping directories and other files |
| Corpus.WalkStopsAtFirst | main.go:191-196 | the first fixture that does not decode ends the walk with its decoder error, and only the fixtures before it are delivered |
| Corpus.DeliverFixture | main.go:198-211 | one fixture's loop gives fresh, distinct test cases with empty node ids, all passing validate. They are exactly those built from the fixture's tests whose network is known, and as many as those tests |
| Corpus.DistinctNamesCount | main.go:198-210 | test cases with pairwise distinct names are as many as their names |
| Corpus.DeliverTests | main.go:180-218 | the delivered test cases are fresh, distinct, unreported (empty node id) and valid. They are exactly those the decoded fixtures give. The count `i` is their number, the count `j` is the number of fixtures decoded. A decoding error ends the walk; the program discards it, and the model's `aborted` output returns it only so that the stop can be stated |

## Left out

- The producer goroutine, the channel, the sixteen workers and the wait group: the model runs one worker's `run` loop over a sequence of test cases.
- Real I/O: `filepath.Walk` becomes a sequence of entries, `ioutil.ReadFile`/`json.Unmarshal` a decoded content per entry, and `os.Mkdir`/`ioutil.WriteFile` a set of directories and a map of files. Neither `MkdirOn` nor `WriteOn` checks that the parent directory exists, and file modes are not modelled. A write that fails after the file is opened is not modelled either: `ioutil.WriteFile` opens with create and truncate, then writes and closes, so a full disk gives a "write" or "close" error and leaves a created, truncated or partly written file; `WriteOn` fails only at open, with op "open", and then changes nothing. A root that cannot be read is not modelled either: `filepath.Walk` then calls the callback with a nil `info`, and `info.IsDir()` panics and stops the runner.
- The `ReadFile` error that `json.Unmarshal`'s error overwrites: a file that cannot be read is modelled as one that does not decode.
- `toGethGenesis`, `json.Marshal`, `sha1.Sum`, `common.FromHex`, `common.HexToHash` and `hexutil.EncodeBig`: foreign functions, never opened. The genesis block argument is the constant "0x0".
- `rpc.DialContext` and `rawClient.Call`: a node's dial outcome and replies are scripted.
- The `time.Now` measurements, the reported duration, every log line, and `main`'s environment bootstrap (`HIVE_SIMULATOR`, `TESTPATH`, `GetClientTypes`).
- The error `AddResults` returns: the runner only logs it.
- simulator_test.go is not part of this model (a disabled stub with no assertions).
- Corpus.DeliverFixture: the Go map's iteration order is unspecified, so the model fixes none. It is stated up to order, as the set of (path, name, test) triples delivered.
- Storage.WriteOn: fails only when opening the file fails, and then leaves the disk unchanged; the write- and close-phase failures of `ioutil.WriteFile` and the partial file they leave are not modelled (see Real I/O above).
- Blocktest.Testcase.Validate: written as membership in `Rules.Networks`; `Blocktest.ValidateLooksUpTable` proves that set is the table's key set.
- Executor.BlocktestExecutor.Run: does not return the logged counter `num_executed`, which is one per (test, client) pair. Run takes the test cases' node ids beforehand as a ghost parameter; `Corpus.DeliverTests` delivers them all empty.
