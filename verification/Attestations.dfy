/** Signed completions of externally owned nodes, and the verifier that admits them. */
module Attestations {
  import opened GraphSchema

  datatype Result = Succeeded | Failed | Indeterminate {
    function Text(): string {
      match this
      case Succeeded => "succeeded"
      case Failed => "failed"
      case Indeterminate => "indeterminate"
    }
  }

  datatype Identity = Identity(roles: set<string>, validFrom: int, validUntil: int, revokedAt: Option<int>) {
    predicate Active(now: int) {
      validFrom <= now < validUntil && (revokedAt.None? || now < revokedAt.value)
    }
  }

  datatype Completion = Completion(
    graph: string, contract: string, run: string, node: string, instance: string,
    producer: string, role: string, artifact: string, result: Result, issued: int, expires: int, nonce: string,
    inputs: map<string, string>, facts: map<string, string>,
    authority: seq<string>, evidence: seq<string>, signature: string)

  /** The trusted workloads, the owner of each node, and the signature check under a workload's key. */
  datatype Verifier = Verifier(
    identities: map<string, Identity>, owners: map<string, string>, maximumTtl: int, skew: int,
    verify: (string, Completion) -> bool)
  {
    /** The completion is bound to the expected instance and signed by the node's active owner. */
    predicate Validates(c: Completion, graph: string, contract: string, run: string, node: string, instance: string,
                        now: int) {
      && c.graph == graph && c.contract == contract && c.run == run && c.node == node && c.instance == instance
      && c.producer in identities && identities[c.producer].Active(now)
      && c.role in identities[c.producer].roles
      && node in owners && c.role == owners[node]
      && now < c.expires && c.issued <= now + skew && c.expires - c.issued <= maximumTtl
      && verify(c.producer, c)
    }
  }

  /** Signed facts are text; only a textual verdict is decoded. */
  function Facts(facts: map<string, string>): Payload {
    map k | k in facts :: if k == "passed" && facts[k] in {"true", "false"} then Bool(facts[k] == "true") else Str(facts[k])
  }

  /** What a completion records; the caller's payload is laid over it. */
  function CompletionPayload(c: Completion, seal: string, payload: Payload): Payload {
    Facts(c.facts)
    + map["result" := Str(c.result.Text()), "success" := Bool(c.result == Succeeded), "completion_digest" := Str(seal),
          "producer_identity" := Str(c.producer), "producer_role" := Str(c.role), "artifact_digest" := Str(c.artifact)]
    + payload
  }

  const OVERLAID: set<string> := {"result", "success", "completion_digest", "producer_identity", "producer_role", "artifact_digest"}

  /** What is recorded, key by key: the caller's payload first, then what the completion itself says,
      then its signed facts, of which a textual verdict becomes a boolean. */
  lemma RecordMeans(c: Completion, seal: string, payload: Payload, key: string)
    ensures var recorded := CompletionPayload(c, seal, payload);
            && (key in recorded <==> key in payload || key in OVERLAID || key in c.facts)
            && (key in payload ==> recorded[key] == payload[key])
            && (key !in payload ==>
                  && (key == "result" ==> recorded[key] == Str(match c.result
                                                               case Succeeded => "succeeded"
                                                               case Failed => "failed"
                                                               case Indeterminate => "indeterminate"))
                  && (key == "success" ==> recorded[key] == Bool(c.result.Succeeded?))
                  && (key == "completion_digest" ==> recorded[key] == Str(seal))
                  && (key == "producer_identity" ==> recorded[key] == Str(c.producer))
                  && (key == "producer_role" ==> recorded[key] == Str(c.role))
                  && (key == "artifact_digest" ==> recorded[key] == Str(c.artifact)))
            && (key in c.facts && key !in payload && key !in OVERLAID ==>
                  recorded[key] == if key == "passed" && c.facts[key] == "true" then Bool(true)
                                   else if key == "passed" && c.facts[key] == "false" then Bool(false)
                                   else Str(c.facts[key]))
  {}
}
