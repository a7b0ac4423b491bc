/**
 * The errors a test run can end with, and the text each one reports
 * (`err.Error()` in the runner), which is what reaches the simulator host.
 */
module Errors {
  import opened Options
  import opened Fmt
  import opened Fixture

  /** Go's `*os.PathError`: the operation, the path and the system's reason. */
  datatype IoError = PathError(op: string, path: string, reason: string)

  /** Why reading a block hash over RPC failed. */
  datatype FetchError =
    | Transport(reason: string)     // the RPC call itself failed (the last attempt's error)
    | NoHash                        // the answer has no "hash" member
    | NotAString(value: string)     // the "hash" member is not a string; value is its `%v` text

  datatype Error =
    | NetworkUndefined(network: string)
    | Io(io: IoError)                           // creating the staging directories
    | GenesisWriteFailed(io: IoError)
    | BlockWriteFailed(index: nat, io: IoError) // index counts from 0
    | StartFailed(reason: string)               // the host could not start a node
    | DialFailed(reason: string)
    | GenesisCheckFailed(cause: FetchError)     // fetching block 0
    | HeadFetchFailed(cause: FetchError)        // fetching the latest block
    | GenesisMismatch(expected: Hash, got: Bytes)
    | BestBlockMismatch(expected: Hash, got: Bytes, name: string, filepath: string)

  function IoMessage(e: IoError): string {
    e.op + " " + e.path + ": " + e.reason
  }

  function FetchMessage(e: FetchError): string {
    match e
    case Transport(reason) => reason
    case NoHash => "no hash found in response"
    case NotAString(value) => "error: string conversion failed for " + value
  }

  const GenesisMismatchLead := "genesis mismatch, expectd 0x"
  const BestBlockMismatchLead := "last block mismatch, expectd 0x"
  const MismatchMiddle := " got 0x"

  /** `err.Error()`. */
  function Message(e: Error): string {
    match e
    case NetworkUndefined(network) => "network " + network + " not defined in ruleset"
    case Io(io) => IoMessage(io)
    case GenesisWriteFailed(io) => "failed writing genesis: " + IoMessage(io)
    case BlockWriteFailed(index, io) => "failed writing block " + Decimal(index) + ": " + IoMessage(io)
    case StartFailed(reason) => reason
    case DialFailed(reason) => "failed to start client: " + reason
    case GenesisCheckFailed(cause) => "failed to check genesis: " + FetchMessage(cause)
    case HeadFetchFailed(cause) => FetchMessage(cause)
    case GenesisMismatch(expected, got) =>
      GenesisMismatchLead + Hex(expected) + MismatchMiddle + Hex(got)
    case BestBlockMismatch(expected, got, name, filepath) =>
      BestBlockMismatchLead + Hex(expected) + MismatchMiddle + Hex(got) + " (" + name + " " + filepath + ")"
  }

  /** The error string the runner reports: empty when there is no error. */
  function ErrText(err: Option<Error>): string {
    if err.None? then "" else Message(err.value)
  }

  /** The block index of a failed block write appears in the text and reads back. */
  lemma BlockIndexReadsBack(index: nat, io: IoError)
    ensures var m := Message(BlockWriteFailed(index, io));
      var lead := "failed writing block ";
      var n := |Decimal(index)|;
      m[..|lead|] == lead && ParseDecimal(m[|lead|..|lead| + n]) == Some(index as int)
  {
    var lead := "failed writing block ";
    var m := Message(BlockWriteFailed(index, io));
    var d := Decimal(index);
    assert m == lead + d + (": " + IoMessage(io));
    assert m[|lead|..|lead| + |d|] == d;
    DecimalRoundTrip(index);
  }

  /**
   * A genesis mismatch text carries both hashes in hex, and they read back:
   * the expected hash right after the lead, the received bytes after " got 0x".
   */
  lemma GenesisMismatchReadsBack(expected: Hash, got: Bytes)
    ensures var m := Message(GenesisMismatch(expected, got));
      var lead := GenesisMismatchLead;
      var at := |lead| + 64 + |MismatchMiddle|;
      HasPrefix(m, lead)
      && UnHex(m[|lead|..|lead| + 64]) == Some(expected)
      && UnHex(m[at..at + 2 * |got|]) == Some(got)
  {
    var hx, hy := Hex(expected), Hex(got);
    Segments(GenesisMismatchLead, hx, MismatchMiddle, hy, "");
    assert Message(GenesisMismatch(expected, got)) == GenesisMismatchLead + hx + MismatchMiddle + hy + "";
    UnHexOfHex(expected);
    UnHexOfHex(got);
  }

  /** The same for the head-block text, which also names the test. */
  lemma BestBlockMismatchReadsBack(expected: Hash, got: Bytes, name: string, filepath: string)
    ensures var m := Message(BestBlockMismatch(expected, got, name, filepath));
      var lead := BestBlockMismatchLead;
      var at := |lead| + 64 + |MismatchMiddle|;
      HasPrefix(m, lead)
      && UnHex(m[|lead|..|lead| + 64]) == Some(expected)
      && UnHex(m[at..at + 2 * |got|]) == Some(got)
  {
    var hx, hy := Hex(expected), Hex(got);
    var tail := " (" + name + " " + filepath + ")";
    Segments(BestBlockMismatchLead, hx, MismatchMiddle, hy, tail);
    assert Message(BestBlockMismatch(expected, got, name, filepath)) == BestBlockMismatchLead + hx + MismatchMiddle + hy + tail;
    UnHexOfHex(expected);
    UnHexOfHex(got);
  }

  /** Where the parts of a five-part concatenation sit. */
  lemma Segments(a: string, b: string, c: string, d: string, e: string)
    ensures var m := a + b + c + d + e;
      var at := |a| + |b| + |c|;
      m[..|a|] == a && m[|a|..|a| + |b|] == b && m[at..at + |d|] == d
  {
    var m := a + b + c + d + e;
    assert m == a + b + (c + d + e);
    assert m == (a + b + c) + d + e;
  }
}
