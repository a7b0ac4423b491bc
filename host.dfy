/**
 * The simulator host's API as the runner uses it: starting a client node with
 * an environment, and recording a test result. The host's answers to start
 * requests are given up front: the n-th request gets the n-th answer.
 */
module Host {
  import opened Options
  import opened Rpc

  /** How a started node can be reached: whether dialing it fails, and its RPC replies. */
  datatype Endpoint = Endpoint(dialError: Option<string>, replies: nat -> Reply)

  /** The host's answer to `StartNewNode`. */
  datatype NodeReply = Started(nodeId: string, endpoint: Endpoint) | StartError(reason: string)

  /** One `AddResults` call; the duration argument is not modelled. */
  datatype Report = Report(success: bool, nodeId: string, testName: string, errText: string)

  class SimulatorHost {
    const nodes: nat -> NodeReply
    var started: seq<map<string, string>>   // the environment of every start request, in order
    var results: seq<Report>

    constructor (nodes: nat -> NodeReply)
      ensures this.nodes == nodes && started == [] && results == []
    {
      this.nodes := nodes;
      started := [];
      results := [];
    }

    method StartNewNode(env: map<string, string>) returns (reply: NodeReply)
      modifies this
      ensures started == old(started) + [env] && results == old(results)
      ensures reply == nodes(|old(started)|)
    {
      reply := nodes(|started|);
      started := started + [env];
    }

    method AddResults(success: bool, nodeId: string, testName: string, errText: string)
      modifies this
      ensures results == old(results) + [Report(success, nodeId, testName, errText)]
      ensures started == old(started)
    {
      results := results + [Report(success, nodeId, testName, errText)];
    }
  }
}
