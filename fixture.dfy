/**
 * One blockchain test vector as the fixture files describe it, and the
 * library functions the runner applies to it without looking inside (SHA-1,
 * JSON encoding of the genesis, hex decoding).
 */
module Fixture {
  import opened Fmt

  /** A 32-byte block hash (go-ethereum's `common.Hash`). */
  type Hash = s: Bytes | |s| == 32 witness seq(32, _ => 0)

  /** A SHA-1 digest. */
  type Digest = s: Bytes | |s| == 20 witness seq(20, _ => 0)

  /** The genesis header: its hash, and the remaining fields as the fixture writes them. */
  datatype Header = Header(hash: Hash, fields: map<string, string>)

  /** One block of the chain, as the hex text of its RLP encoding. */
  datatype Block = Block(rlp: string)

  /** One entry of a fixture file. */
  datatype BlockTest = BlockTest(
    network: string,
    sealEngine: string,
    genesis: Header,
    pre: map<string, string>,
    blocks: seq<Block>,
    bestBlock: Hash)

  /** The seal-engine value that asks the node not to check proof of work. */
  const NoProof := "NoProof"

  /**
   * Library functions the model does not open:
   * sha1 is `sha1.Sum` of the string's bytes, genesisJson is `json.Marshal`
   * of `toGethGenesis`, fromHex is `common.FromHex`, hexToHash is
   * `common.HexToHash(..).Bytes()`.
   */
  datatype Foreign = Foreign(
    sha1: string -> Digest,
    genesisJson: BlockTest -> Bytes,
    fromHex: string -> Bytes,
    hexToHash: string -> Hash)
}
