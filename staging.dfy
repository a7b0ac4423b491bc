/**
 * What artefacts leaves on disk: the directory layout, which files it writes
 * and with what, when it fails, and how the block files sort.
 */
module Staging {
  import opened Fmt
  import opened Fixture
  import opened Errors
  import opened Storage
  import opened Blocktest

  /** The names of block files lo+1 .. hi. */
  function BlockNames(folder: string, lo: nat, hi: nat): set<string> {
    set n | lo < n <= hi :: BlockPath(folder, n)
  }

  /** Different block numbers give different file names. */
  lemma BlockPathInjective(folder: string, i: nat, j: nat)
    ensures BlockPath(folder, i) == BlockPath(folder, j) <==> i == j
  {
    if BlockPath(folder, i) == BlockPath(folder, j) {
      var p := folder + "/";
      Middle(p, Pad4(i), ".rlp");
      Middle(p, Pad4(j), ".rlp");
      assert |Pad4(i)| == |Pad4(j)|;
      Pad4Value(i);
      Pad4Value(j);
    }
  }

  /** A block file name is at least 18 characters longer than the key. */
  lemma BlockPathLength(key: string, n: nat)
    ensures |BlockPath(BlockFolder(key), n)| >= |key| + 18
  {
    Pad4Value(n);
    if n >= 10000 {
      assert |Pad4(n)| >= 5;
    }
  }

  /** There are exactly k block files for k blocks. */
  lemma {:induction false} BlockNamesCount(folder: string, k: nat)
    ensures |BlockNames(folder, 0, k)| == k
  {
    if k > 0 {
      BlockNamesCount(folder, k - 1);
      assert BlockNames(folder, 0, k) == BlockNames(folder, 0, k - 1) + {BlockPath(folder, k)};
      if BlockPath(folder, k) in BlockNames(folder, 0, k - 1) {
        var n :| 0 < n <= k - 1 && BlockPath(folder, n) == BlockPath(folder, k);
        BlockPathInjective(folder, n, k);
      }
    }
  }

  /** genesis.json is never taken for a block file. */
  lemma GenesisIsNotABlock(key: string, n: nat)
    ensures GenesisFile(key) != BlockPath(BlockFolder(key), n)
  {
    var p := "./" + key + "/";
    GenesisFileAfter(key, p);
    BlockPathAfter(key, n, p);
  }

  /** After the key directory, genesis.json starts with 'g'. */
  lemma GenesisFileAfter(key: string, p: string)
    requires p == "./" + key + "/"
    ensures |GenesisFile(key)| > |p| && GenesisFile(key)[|p|] == 'g'
  {
    assert GenesisFile(key) == p + "genesis.json";
  }

  /** After the key directory, a block file name starts with 'b'. */
  lemma BlockPathAfter(key: string, n: nat, p: string)
    requires p == "./" + key + "/"
    ensures |BlockPath(BlockFolder(key), n)| > |p| && BlockPath(BlockFolder(key), n)[|p|] == 'b'
  {
    var tail := "blocks/" + Pad4(n) + ".rlp";
    assert BlockPath(BlockFolder(key), n) == p + tail;
    assert tail[0] == 'b';
  }

  /**
   * Up to 9999 blocks, the byte-wise order of the file names is the block
   * order, so a listing of the folder gives the blocks in sequence.
   */
  lemma BlockNamesSorted(folder: string, i: nat, j: nat)
    requires 1 <= i <= 9999 && 1 <= j <= 9999
    ensures LexLess(BlockPath(folder, i), BlockPath(folder, j)) <==> i < j
  {
    var p := folder + "/";
    var a, b := Pad4(i), Pad4(j);
    assert BlockPath(folder, i) == p + (a + ".rlp");
    assert BlockPath(folder, j) == p + (b + ".rlp");
    LexSharedPrefix(p, a + ".rlp", b + ".rlp");
    Pad4Value(i);
    Pad4Value(j);
    if i == j {
      LexIrreflexive(a + ".rlp");
    } else {
      LexEqualLength(a, b, ".rlp", ".rlp");
      LexDigits(a, b);
    }
  }

  /** From block 10000 on the padding runs out: file 10000 sorts before file 9999. */
  lemma BlockNamesPastPadding(folder: string)
    ensures LexLess(BlockPath(folder, 10000), BlockPath(folder, 9999))
  {
    assert Digits(1) == "1";
    assert Digits(10) == "10";
    assert Digits(100) == "100";
    assert Digits(1000) == "1000";
    assert Digits(10000) == "10000";
    assert Digits(9) == "9";
    assert Digits(99) == "99";
    assert Digits(999) == "999";
    assert Digits(9999) == "9999";
    var p := folder + "/";
    assert BlockPath(folder, 10000) == p + "10000.rlp";
    assert BlockPath(folder, 9999) == p + "9999.rlp";
    LexSharedPrefix(p, "10000.rlp", "9999.rlp");
  }

  /**
   * The key hashes the file path and the test name run together, so two
   * different (path, name) pairs with the same concatenation share a staging
   * directory.
   */
  lemma StagingKeyCollides(sha1: string -> Digest, path: string, a: string, b: string)
    requires a != []
    ensures (path, a + b) != (path + a, b)
    ensures StagingKey(sha1, path, a + b) == StagingKey(sha1, path + a, b)
  {
    assert path + (a + b) == (path + a) + b;
    assert |path| < |path + a|;
  }

  /** A staging directory that already exists stops artefacts before anything is written. */
  lemma ExistingDirectoryRefused(t: Testcase, foreign: Foreign, broken: map<string, string>, d: Disk)
    requires var dir := StagingDir(t.Key(foreign.sha1)); dir in d.dirs || dir in d.files
    ensures t.Staging(foreign, broken, d)
         == (d, Failed(Io(PathError("mkdir", StagingDir(t.Key(foreign.sha1)), "file exists"))))
  {
  }

  /** Block writes change no directory. */
  lemma {:induction false} WriteBlocksKeepsDirs(fromHex: string -> Bytes, broken: map<string, string>, d: Disk,
                                                folder: string, blocks: seq<Block>, i: nat)
    requires i <= |blocks|
    ensures WriteBlocks(fromHex, broken, d, folder, blocks, i).0.dirs == d.dirs
    decreases |blocks| - i
  {
    if i < |blocks| {
      var o := WriteOn(d, broken, BlockPath(folder, i + 1), fromHex(blocks[i].rlp));
      if o.err.None? {
        WriteBlocksKeepsDirs(fromHex, broken, o.disk, folder, blocks, i + 1);
      }
    }
  }

  /** Block writes succeed exactly when no block path is a directory or refused by the system. */
  lemma {:induction false} WriteBlocksSucceedIff(fromHex: string -> Bytes, broken: map<string, string>, d: Disk,
                                                 folder: string, blocks: seq<Block>, i: nat)
    requires i <= |blocks|
    ensures WriteBlocks(fromHex, broken, d, folder, blocks, i).1.None?
       <==> forall n :: i < n <= |blocks| ==> BlockPath(folder, n) !in d.dirs && BlockPath(folder, n) !in broken
    decreases |blocks| - i
  {
    if i < |blocks| {
      var here := BlockPath(folder, i + 1);
      var o := WriteOn(d, broken, here, fromHex(blocks[i].rlp));
      if o.err.None? {
        WriteBlocksSucceedIff(fromHex, broken, o.disk, folder, blocks, i + 1);
        assert o.disk.dirs == d.dirs;
      } else {
        assert here in d.dirs || here in broken;
      }
    }
  }

  /** Block writes add exactly the block file names to the files. */
  lemma {:induction false} WriteBlocksFileNames(fromHex: string -> Bytes, broken: map<string, string>, d: Disk,
                                                folder: string, blocks: seq<Block>, i: nat)
    requires i <= |blocks|
    requires WriteBlocks(fromHex, broken, d, folder, blocks, i).1.None?
    ensures WriteBlocks(fromHex, broken, d, folder, blocks, i).0.files.Keys == d.files.Keys + BlockNames(folder, i, |blocks|)
    decreases |blocks| - i
  {
    if i < |blocks| {
      var here := BlockPath(folder, i + 1);
      var o := WriteOn(d, broken, here, fromHex(blocks[i].rlp));
      WriteBlocksFileNames(fromHex, broken, o.disk, folder, blocks, i + 1);
      assert BlockNames(folder, i, |blocks|) == {here} + BlockNames(folder, i + 1, |blocks|);
    } else {
      assert BlockNames(folder, i, |blocks|) == {};
    }
  }

  /** Block writes leave a path that is not a block file name as it was. */
  lemma {:induction false} WriteBlocksKeeps(fromHex: string -> Bytes, broken: map<string, string>, d: Disk,
                                            folder: string, blocks: seq<Block>, i: nat, p: string)
    requires i <= |blocks| && p !in BlockNames(folder, i, |blocks|)
    ensures var w := WriteBlocks(fromHex, broken, d, folder, blocks, i).0;
      (p in w.files <==> p in d.files) && (p in d.files ==> w.files[p] == d.files[p])
    decreases |blocks| - i
  {
    if i < |blocks| {
      var here := BlockPath(folder, i + 1);
      var o := WriteOn(d, broken, here, fromHex(blocks[i].rlp));
      assert here in BlockNames(folder, i, |blocks|);
      if o.err.None? {
        forall q | q in BlockNames(folder, i + 1, |blocks|) ensures q in BlockNames(folder, i, |blocks|) {
          var n :| i + 1 < n <= |blocks| && q == BlockPath(folder, n);
        }
        WriteBlocksKeeps(fromHex, broken, o.disk, folder, blocks, i + 1, p);
      }
    }
  }

  /** A block file name is not among the names of the blocks after it. */
  lemma NotLater(folder: string, i: nat, k: nat)
    ensures BlockPath(folder, i + 1) !in BlockNames(folder, i + 1, k)
  {
    forall n | i + 1 < n <= k ensures BlockPath(folder, n) != BlockPath(folder, i + 1) {
      BlockPathInjective(folder, n, i + 1);
    }
  }

  /** After successful block writes, file n holds block n. */
  lemma {:induction false} WriteBlocksContents(fromHex: string -> Bytes, broken: map<string, string>, d: Disk,
                                               folder: string, blocks: seq<Block>, i: nat, n: nat)
    requires i < n <= |blocks|
    requires WriteBlocks(fromHex, broken, d, folder, blocks, i).1.None?
    ensures var w := WriteBlocks(fromHex, broken, d, folder, blocks, i).0;
      BlockPath(folder, n) in w.files && w.files[BlockPath(folder, n)] == fromHex(blocks[n - 1].rlp)
    decreases |blocks| - i
  {
    var here := BlockPath(folder, i + 1);
    var o := WriteOn(d, broken, here, fromHex(blocks[i].rlp));
    if n == i + 1 {
      NotLater(folder, i, |blocks|);
      WriteBlocksKeeps(fromHex, broken, o.disk, folder, blocks, i + 1, here);
    } else {
      WriteBlocksContents(fromHex, broken, o.disk, folder, blocks, i + 1, n);
    }
  }

  /** After successful block writes, file n holds block n and no other file changed. */
  lemma WriteBlocksWrites(fromHex: string -> Bytes, broken: map<string, string>, d: Disk,
                          folder: string, blocks: seq<Block>, i: nat)
    requires i <= |blocks|
    requires WriteBlocks(fromHex, broken, d, folder, blocks, i).1.None?
    ensures var w := WriteBlocks(fromHex, broken, d, folder, blocks, i).0;
      w.files.Keys == d.files.Keys + BlockNames(folder, i, |blocks|)
      && (forall n :: i < n <= |blocks| ==> w.files[BlockPath(folder, n)] == fromHex(blocks[n - 1].rlp))
      && (forall p :: p in d.files && p !in BlockNames(folder, i, |blocks|) ==> w.files[p] == d.files[p])
  {
    var w := WriteBlocks(fromHex, broken, d, folder, blocks, i).0;
    WriteBlocksFileNames(fromHex, broken, d, folder, blocks, i);
    forall n | i < n <= |blocks| ensures w.files[BlockPath(folder, n)] == fromHex(blocks[n - 1].rlp) {
      WriteBlocksContents(fromHex, broken, d, folder, blocks, i, n);
    }
    forall p | p in d.files && p !in BlockNames(folder, i, |blocks|) {
      WriteBlocksKeeps(fromHex, broken, d, folder, blocks, i, p);
    }
  }

  /**
   * artefacts succeeds exactly when neither directory exists or is refused,
   * genesis.json is not a directory, and no block file is a directory, and no
   * path among them is refused by the system.
   */
  lemma StagingSucceedsIff(t: Testcase, foreign: Foreign, broken: map<string, string>, d: Disk)
    ensures var key := t.Key(foreign.sha1);
      var dir, folder := StagingDir(key), BlockFolder(key);
      t.Staging(foreign, broken, d).1.err.None? <==>
        (dir !in d.dirs && dir !in d.files && dir !in broken
         && folder !in d.dirs && folder !in d.files && folder !in broken
         && GenesisFile(key) !in d.dirs && GenesisFile(key) !in broken
         && forall n :: 0 < n <= |t.blockTest.blocks| ==>
              BlockPath(folder, n) !in d.dirs && BlockPath(folder, n) !in broken)
  {
    var key := t.Key(foreign.sha1);
    var dir, folder := StagingDir(key), BlockFolder(key);
    var blocks := t.blockTest.blocks;
    var o1 := MkdirOn(d, broken, dir);
    if o1.err.None? {
      var o2 := MkdirOn(o1.disk, broken, folder);
      assert |folder| == |dir| + 7;
      if o2.err.None? {
        var o3 := WriteOn(o2.disk, broken, GenesisFile(key), foreign.genesisJson(t.blockTest));
        assert |GenesisFile(key)| == |key| + 15;
        if o3.err.None? {
          WriteBlocksSucceedIff(foreign.fromHex, broken, o3.disk, folder, blocks, 0);
          WriteBlocksKeepsDirs(foreign.fromHex, broken, o3.disk, folder, blocks, 0);
          forall n | 0 < n <= |blocks| {
            BlockPathLength(key, n);
          }
        }
      }
    }
  }

  /**
   * On success, artefacts has created the key directory and its blocks
   * folder, written genesis.json and one file per block holding that block's
   * bytes, and left every other file as it was.
   */
  lemma StagingSucceeds(t: Testcase, foreign: Foreign, broken: map<string, string>, d: Disk)
    requires t.Staging(foreign, broken, d).1.err.None?
    ensures var key := t.Key(foreign.sha1);
      var folder := BlockFolder(key);
      var blocks := t.blockTest.blocks;
      var written := {GenesisFile(key)} + BlockNames(folder, 0, |blocks|);
      var after := t.Staging(foreign, broken, d).0;
      after.dirs == d.dirs + {StagingDir(key), folder}
      && after.files.Keys == d.files.Keys + written
      && after.files[GenesisFile(key)] == foreign.genesisJson(t.blockTest)
      && (forall n :: 0 < n <= |blocks| ==> after.files[BlockPath(folder, n)] == foreign.fromHex(blocks[n - 1].rlp))
      && (forall p :: p in d.files && p !in written ==> after.files[p] == d.files[p])
  {
    var key := t.Key(foreign.sha1);
    var dir, folder := StagingDir(key), BlockFolder(key);
    var blocks := t.blockTest.blocks;
    var o1 := MkdirOn(d, broken, dir);
    var o2 := MkdirOn(o1.disk, broken, folder);
    var o3 := WriteOn(o2.disk, broken, GenesisFile(key), foreign.genesisJson(t.blockTest));
    WriteBlocksKeepsDirs(foreign.fromHex, broken, o3.disk, folder, blocks, 0);
    WriteBlocksWrites(foreign.fromHex, broken, o3.disk, folder, blocks, 0);
    forall n | 0 < n <= |blocks| {
      GenesisIsNotABlock(key, n);
    }
    assert GenesisFile(key) !in BlockNames(folder, 0, |blocks|);
  }
}
