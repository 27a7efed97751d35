/**
 One JSON-RPC round trip (`chain/transport.ts`, `chain/classify.ts`, `chain/policy.ts` and
 `chain/provider.ts`): from a transport's answer to a value of the right shape, or a named fault.
 */
module Rpc {
  import opened Wrappers
  import opened HexText

  datatype Procedure =
    | EthChainId | ClientVersion | GetCode | GetStorageAt | EthCall
    | TransactionByHash | TransactionReceipt | BlockByNumber
    | AnvilMetadata | HardhatMetadata | AnyOther

  /** The block tag a request carries: omitted, `latest`, or anything else. */
  datatype Tag = NoTag | Latest | OtherTag

  /** A storage slot or a selector. */
  type Key = nat

  /** `subject` and `key` stand for the remaining parameters. */
  datatype Request = Request(procedure: Procedure, tag: Tag, subject: string, key: Key)

  /** A JSON value, as far as the shapes look. */
  datatype Json = Null | Text(text: string) | NonText

  /** The members of a JSON-RPC error object of section 5.1, when they have the right type. */
  datatype ErrorField = NoError | ErrorObject(code: Option<int>, message: Option<string>)

  /** A resolved 2xx body: unparsed text, a non-object, or an object with its `error` and `result` members. */
  datatype Body = TextBody | NonObject | Object(error: ErrorField, result: Option<Json>)

  datatype Rejection = Rejection(status: Option<int>, timedOut: bool)

  datatype Reply = Rejected(why: Rejection) | Resolved(body: Body)

  /** Any behaviour of the endpoint and the transport: the reply to request number `id`. */
  type Node = (nat, Request) -> Reply

  datatype TransportFailure = HttpStatus(status: int) | Timeout | Unreachable | NonJsonBody | MalformedEnvelope

  datatype RpcOutcome = Answer(result: Json) | NodeError(code: int, message: string) | Failure(cause: TransportFailure)

  // ---------- the envelope ----------

  function ClassifyRejection(why: Rejection): TransportFailure {
    if why.status.Some? then HttpStatus(why.status.value) else if why.timedOut then Timeout else Unreachable
  }

  /** `error` is looked at before `result`, and a null one is none. */
  function ValidateEnvelope(body: Body): RpcOutcome {
    match body
    case TextBody => Failure(NonJsonBody)
    case NonObject => Failure(MalformedEnvelope)
    case Object(ErrorObject(code, message), _) =>
      if code.Some? && message.Some? then NodeError(code.value, message.value) else Failure(MalformedEnvelope)
    case Object(NoError, result) => if result.Some? then Answer(result.value) else Failure(MalformedEnvelope)
  }

  function Post(node: Node, id: nat, request: Request): RpcOutcome {
    match node(id, request)
    case Rejected(why) => Failure(ClassifyRejection(why))
    case Resolved(body) => ValidateEnvelope(body)
  }

  /** A result is only ever read off an object that has one and carries no error. */
  lemma ResultsAreResults(node: Node, id: nat, request: Request, j: Json)
    ensures Post(node, id, request) == Answer(j) <==> node(id, request) == Resolved(Object(NoError, Some(j)))
  {
  }

  // ---------- classifying a node error ----------

  datatype Diagnosis = NoContract | Reverted | MethodUnsupported | ArgumentRejected | Unclassified

  predicate Includes(s: string, t: string) {
    exists i | 0 <= i <= |s| :: t <= s[i..]
  }

  predicate SaysNoContract(message: string) {
    var text := LowerText(message);
    Includes(text, "contract") && (Includes(text, "not exist") || Includes(text, "doesn't exist"))
  }

  predicate SaysReverted(message: string) {
    Includes(LowerText(message), "revert")
  }

  function Classify(code: int, message: string): Diagnosis {
    if code == -32600 then (if SaysNoContract(message) then NoContract else Unclassified)
    else if code == -32000 then (if SaysReverted(message) then Reverted else Unclassified)
    else if code == -32601 then MethodUnsupported
    else if code == -32602 then ArgumentRejected
    else Unclassified
  }

  predicate IsProbeOutcome(d: Diagnosis) {
    match d
    case NoContract => true
    case Reverted => true
    case MethodUnsupported => false
    case ArgumentRejected => false
    case Unclassified => false
  }

  /** A probe absorbs exactly a revert that says so and an absent contract that says so; running out of energy is neither. */
  lemma ProbeIff(code: int, message: string)
    ensures IsProbeOutcome(Classify(code, message)) <==>
            (code == -32000 && SaysReverted(message)) || (code == -32600 && SaysNoContract(message))
  {
  }

  // ---------- policy ----------

  predicate Refused(m: Procedure) { m.AnvilMetadata? || m.HardhatMetadata? }

  /** State methods answer from present state only. */
  predicate TagRefused(r: Request) {
    (r.procedure.GetCode? || r.procedure.GetStorageAt? || r.procedure.EthCall?) && r.tag.OtherTag?
  }

  predicate HexData(s: string) { |s| >= 2 && s[0] == '0' && s[1] == 'x' && IsHex(s[2..]) }

  /** The result-shape table; the methods outside it are answered as they are. */
  predicate HasShape(m: Procedure, j: Json) {
    match m
    case EthChainId => j.Text? && HexData(j.text) && 3 <= |j.text| <= 66 && ParseHex(j.text[2..]) > 0
    case ClientVersion => j.Text? && j.text != ""
    case GetStorageAt => j.Text? && HexData(j.text)
    case GetCode => j.Text? && HexData(j.text)
    case EthCall => j.Text? && HexData(j.text)
    case _ => true
  }

  datatype Fault =
    | MethodRefused
    | BlockTagRefused
    | ResultShape
    | RpcError(diagnosis: Diagnosis)
    | Transport(cause: TransportFailure)
    | SlotMalformed
    | NotFound

  /** Some request that reaches the node. */
  predicate Reaches(r: Request) { !Refused(r.procedure) && !TagRefused(r) }

  /** `createProvider.send`. */
  function Send(node: Node, id: nat, r: Request): Result<Json, Fault> {
    if Refused(r.procedure) then Err(MethodRefused)
    else if TagRefused(r) then Err(BlockTagRefused)
    else match Post(node, id, r)
      case Answer(j) => if HasShape(r.procedure, j) then Ok(j) else Err(ResultShape)
      case NodeError(code, message) => Err(RpcError(Classify(code, message)))
      case Failure(cause) => Err(Transport(cause))
  }

  /** The node answered with a JSON-RPC result of the method's shape. */
  ghost predicate Answered(node: Node, id: nat, r: Request) {
    exists j :: node(id, r) == Resolved(Object(NoError, Some(j))) && HasShape(r.procedure, j)
  }

  /** The node answered an `eth_call` with an error that is one of the two probe outcomes. */
  ghost predicate ProbeAnswered(node: Node, id: nat, r: Request) {
    && r.procedure.EthCall?
    && Post(node, id, r).NodeError?
    && IsProbeOutcome(Classify(Post(node, id, r).code, Post(node, id, r).message))
  }

  /** A value is sent back only off a well-formed result of the right shape, and a refused request is never posted. */
  lemma SendIsSound(node: Node, id: nat, r: Request)
    ensures Send(node, id, r).Ok? <==> Reaches(r) && Answered(node, id, r)
    ensures Send(node, id, r).Ok? ==> node(id, r) == Resolved(Object(NoError, Some(Send(node, id, r).value)))
    ensures Send(node, id, r).Err? && Send(node, id, r).error.RpcError? && IsProbeOutcome(Send(node, id, r).error.diagnosis) && r.procedure.EthCall? ==>
              ProbeAnswered(node, id, r)
  {
    if Post(node, id, r).Answer? { ResultsAreResults(node, id, r, Post(node, id, r).result); }
    if Answered(node, id, r) {
      var j :| node(id, r) == Resolved(Object(NoError, Some(j))) && HasShape(r.procedure, j);
      ResultsAreResults(node, id, r, j);
    }
  }

  /** The channel numbers its requests. */
  class RpcChannel {
    var nextId: nat

    constructor ()
      ensures nextId == 1
    {
      nextId := 1;
    }

    /** Every request that is posted has a number of its own. */
    method Exchange(node: Node, r: Request) returns (outcome: RpcOutcome)
      modifies this
      ensures outcome == Post(node, old(nextId), r) && nextId == old(nextId) + 1
    {
      var id := nextId;
      nextId := nextId + 1;
      match node(id, r) {
        case Rejected(why) => outcome := Failure(ClassifyRejection(why));
        case Resolved(body) => outcome := ValidateEnvelope(body);
      }
    }

    /** `send`: a refused request issues no network request at all. */
    method SendThrough(node: Node, r: Request) returns (answer: Result<Json, Fault>)
      modifies this
      ensures answer == Send(node, old(nextId), r)
      ensures nextId == old(nextId) + if Reaches(r) then 1 else 0
    {
      if Refused(r.procedure) { return Err(MethodRefused); }
      if TagRefused(r) { return Err(BlockTagRefused); }
      var outcome := Exchange(node, r);
      match outcome {
        case Answer(j) => answer := if HasShape(r.procedure, j) then Ok(j) else Err(ResultShape);
        case NodeError(code, message) => answer := Err(RpcError(Classify(code, message)));
        case Failure(cause) => answer := Err(Transport(cause));
      }
    }
  }
}
