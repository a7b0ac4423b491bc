/**
 * Reading a block hash from a node over JSON-RPC (`getHash`). The node's
 * answers are given up front as a script: the n-th call made on a client gets
 * the n-th reply.
 */
module Rpc {
  import opened Fixture
  import opened Errors

  /** A member of the decoded JSON object: a string, or anything else with its `%v` text. */
  datatype Json = JString(s: string) | JOther(repr: string)

  /** The outcome of one `eth_getBlockByNumber` call. */
  datatype Reply = Refused(reason: string) | Answer(block: map<string, Json>)

  datatype FetchResult = Fetched(hash: Hash) | FetchFailed(error: FetchError)

  /** How many calls a fetch made, and what it returned. */
  datatype Fetch = Fetch(attempts: nat, result: FetchResult)

  /** The reply getHash reads: the second one only if the first call failed. */
  function Used(first: Reply, second: Reply): Reply {
    if first.Refused? then second else first
  }

  /**
   * getHash, given the replies to its first and (possible) second call.
   * Retries exactly once, and only after a failed call; succeeds exactly when
   * the reply it reads has a string "hash", which it converts with hexToHash.
   */
  function HashFetch(first: Reply, second: Reply, hexToHash: string -> Hash): (f: Fetch)
    ensures f.attempts == (if first.Refused? then 2 else 1)
    ensures f.result.FetchFailed? && f.result.error.Transport? <==> first.Refused? && second.Refused?
    ensures f.result.FetchFailed? && f.result.error.Transport? ==> f.result.error.reason == second.reason
    ensures var used := Used(first, second);
      f.result.Fetched? <==> used.Answer? && "hash" in used.block && used.block["hash"].JString?
    ensures var used := Used(first, second);
      f.result.Fetched? ==> f.result.hash == hexToHash(used.block["hash"].s)
    ensures var used := Used(first, second);
      f.result == FetchFailed(NoHash) <==> used.Answer? && "hash" !in used.block
  {
    var attempts := if first.Refused? then 2 else 1;
    match Used(first, second)
    case Refused(reason) => Fetch(attempts, FetchFailed(Transport(reason)))
    case Answer(block) =>
      if "hash" !in block then Fetch(attempts, FetchFailed(NoHash))
      else match block["hash"]
        case JString(s) => Fetch(attempts, Fetched(hexToHash(s)))
        case JOther(repr) => Fetch(attempts, FetchFailed(NotAString(repr)))
  }

  /** A node's RPC endpoint: the calls made so far, and the scripted replies. */
  class RpcClient {
    const replies: nat -> Reply
    var calls: seq<string>

    constructor (replies: nat -> Reply)
      ensures this.replies == replies && calls == []
    {
      this.replies := replies;
      calls := [];
    }

    /** `rawClient.Call(&blockData, "eth_getBlockByNumber", arg, false)`. */
    method Call(arg: string) returns (reply: Reply)
      modifies this
      ensures calls == old(calls) + [arg]
      ensures reply == replies(|old(calls)|)
    {
      reply := replies(|calls|);
      calls := calls + [arg];
    }
  }

  /** getHash: one call, one more if it failed, then the "hash" member of the answer. */
  method GetHash(client: RpcClient, arg: string, hexToHash: string -> Hash) returns (r: FetchResult)
    modifies client
    ensures var n := |old(client.calls)|;
      var f := HashFetch(client.replies(n), client.replies(n + 1), hexToHash);
      r == f.result && client.calls == old(client.calls) + seq(f.attempts, _ => arg)
  {
    var reply := client.Call(arg);
    if reply.Refused? {
      reply := client.Call(arg);
      if reply.Refused? {
        return FetchFailed(Transport(reply.reason));
      }
    }
    if "hash" !in reply.block {
      return FetchFailed(NoHash);
    }
    match reply.block["hash"]
    case JString(s) => r := Fetched(hexToHash(s));
    case JOther(repr) => r := FetchFailed(NotAString(repr));
  }
}
