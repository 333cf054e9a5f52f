/**
 * The handler of the `abci` skill: it receives the consensus engine's ABCI
 * requests, recovers their dialogue, refuses responses, strips the `request_`
 * prefix of the performative, dispatches on the remaining name and puts at
 * most one reply in the skill's outbox. Every request handler builds a fixed
 * reply that carries no application state.
 */
module AbciHandlers {
  import opened Wrappers
  import opened Strings

  type Bytes = seq<bv8>

  /** An incoming ABCI message: its performative (as its string value), sender and id. */
  datatype AbciMessage = AbciMessage(performative: string, sender: string, id: nat)

  /** The dialogue a message belongs to, when it can be recovered. */
  datatype AbciDialogue = AbciDialogue(counterparty: string)

  datatype ValidatorUpdate = ValidatorUpdate(pubKey: Bytes, power: int)
  datatype ProofOp = ProofOp(kind: string, key: Bytes, data: Bytes)
  datatype AbciEvent = AbciEvent(kind: string)

  /** The bodies of the replies the handler sends; `target` is the id of the request answered. */
  datatype Reply =
    | ResponseException(error: string)
    | ResponseInfo(target: nat, infoData: string, version: string, appVersion: int,
                   lastBlockHeight: int, lastBlockAppHash: Bytes)
    | ResponseFlush(target: nat)
    | ResponseInitChain(target: nat, validators: seq<ValidatorUpdate>, appHash: Bytes)
    | ResponseQuery(target: nat, code: int, log: string, info: string, index: int, key: Bytes,
                    value: Bytes, proofOps: seq<ProofOp>, height: int, codespace: string)
    | ResponseCheckTx(target: nat, code: int, data: Bytes, log: string, info: string,
                      gasWanted: int, gasUsed: int, events: seq<AbciEvent>, codespace: string)
    | ResponseDeliverTx(target: nat, code: int, data: Bytes, log: string, info: string,
                        gasWanted: int, gasUsed: int, events: seq<AbciEvent>, codespace: string)
    | ResponseBeginBlock(target: nat, events: seq<AbciEvent>)
    | ResponseEndBlock(target: nat, validatorUpdates: seq<ValidatorUpdate>, events: seq<AbciEvent>)
    | ResponseCommit(target: nat, data: Bytes, retainHeight: int)

  /** A message put in the outbox: its counterparty and its body. */
  datatype Envelope = Envelope(to: string, body: Reply)

  /** The string value of a reply's performative. */
  function Performative(r: Reply): string
  {
    match r
    case ResponseException(_) => "response_exception"
    case ResponseInfo(_, _, _, _, _, _) => "response_info"
    case ResponseFlush(_) => "response_flush"
    case ResponseInitChain(_, _, _) => "response_init_chain"
    case ResponseQuery(_, _, _, _, _, _, _, _, _, _) => "response_query"
    case ResponseCheckTx(_, _, _, _, _, _, _, _, _) => "response_check_tx"
    case ResponseDeliverTx(_, _, _, _, _, _, _, _, _) => "response_deliver_tx"
    case ResponseBeginBlock(_, _) => "response_begin_block"
    case ResponseEndBlock(_, _, _) => "response_end_block"
    case ResponseCommit(_, _, _) => "response_commit"
  }

  /** The request types the handler has a method for. */
  datatype RequestType =
    | InfoRequest | FlushRequest | InitChainRequest | QueryRequest | CheckTxRequest
    | DeliverTxRequest | BeginBlockRequest | EndBlockRequest | CommitRequest

  /** The name of the handler method for a request type. */
  function HandlerName(t: RequestType): string
  {
    match t
    case InfoRequest => "info"
    case FlushRequest => "flush"
    case InitChainRequest => "init_chain"
    case QueryRequest => "query"
    case CheckTxRequest => "check_tx"
    case DeliverTxRequest => "deliver_tx"
    case BeginBlockRequest => "begin_block"
    case EndBlockRequest => "end_block"
    case CommitRequest => "commit"
  }

  /** `getattr(self, name, None)` restricted to the request handlers. */
  function LookupHandler(name: string): (r: Option<RequestType>)
    ensures r.Some? ==> HandlerName(r.value) == name
  {
    if name == "info" then Some(InfoRequest)
    else if name == "flush" then Some(FlushRequest)
    else if name == "init_chain" then Some(InitChainRequest)
    else if name == "query" then Some(QueryRequest)
    else if name == "check_tx" then Some(CheckTxRequest)
    else if name == "deliver_tx" then Some(DeliverTxRequest)
    else if name == "begin_block" then Some(BeginBlockRequest)
    else if name == "end_block" then Some(EndBlockRequest)
    else if name == "commit" then Some(CommitRequest)
    else None
  }

  /** Every handler is found under its own name. */
  lemma LookupHandlerName(t: RequestType)
    ensures LookupHandler(HandlerName(t)) == Some(t)
  {
  }

  // ---------------------------------------------------------------------------
  // The request handlers

  function Info(m: AbciMessage): Reply
  {
    ResponseInfo(m.id, "", "", 0, 0, [])
  }

  function Flush(m: AbciMessage): Reply
  {
    ResponseFlush(m.id)
  }

  function InitChain(m: AbciMessage): Reply
  {
    ResponseInitChain(m.id, [], [])
  }

  function Query(m: AbciMessage): Reply
  {
    ResponseQuery(m.id, 0, "", "", 0, [], [], [], 0, "")
  }

  function CheckTx(m: AbciMessage): Reply
  {
    ResponseCheckTx(m.id, 0, [], "", "", 0, 0, [], "")
  }

  function DeliverTx(m: AbciMessage): Reply
  {
    ResponseDeliverTx(m.id, 0, [], "", "", 0, 0, [], "")
  }

  function BeginBlock(m: AbciMessage): Reply
  {
    ResponseBeginBlock(m.id, [])
  }

  function EndBlock(m: AbciMessage): Reply
  {
    ResponseEndBlock(m.id, [], [])
  }

  function Commit(m: AbciMessage): Reply
  {
    ResponseCommit(m.id, [], 0)
  }

  /** Call the handler method for `t`. */
  function Dispatch(t: RequestType, m: AbciMessage): Reply
  {
    match t
    case InfoRequest => Info(m)
    case FlushRequest => Flush(m)
    case InitChainRequest => InitChain(m)
    case QueryRequest => Query(m)
    case CheckTxRequest => CheckTx(m)
    case DeliverTxRequest => DeliverTx(m)
    case BeginBlockRequest => BeginBlock(m)
    case EndBlockRequest => EndBlock(m)
    case CommitRequest => Commit(m)
  }

  /** The id of the request a reply answers. */
  function Target(r: Reply): Option<nat>
  {
    if r.ResponseException? then None else Some(r.target)
  }

  /**
   * Each handler answers with the response performative of its own request
   * type, addressed to the request it was given.
   */
  lemma DispatchMatchesRequest(t: RequestType, m: AbciMessage)
    ensures Performative(Dispatch(t, m)) == "response_" + HandlerName(t)
    ensures Target(Dispatch(t, m)) == Some(m.id)
  {
    match t
    case InfoRequest => assert "response_" + "info" == "response_info";
    case FlushRequest => assert "response_" + "flush" == "response_flush";
    case InitChainRequest => assert "response_" + "init_chain" == "response_init_chain";
    case QueryRequest => assert "response_" + "query" == "response_query";
    case CheckTxRequest => assert "response_" + "check_tx" == "response_check_tx";
    case DeliverTxRequest => assert "response_" + "deliver_tx" == "response_deliver_tx";
    case BeginBlockRequest => assert "response_" + "begin_block" == "response_begin_block";
    case EndBlockRequest => assert "response_" + "end_block" == "response_end_block";
    case CommitRequest => assert "response_" + "commit" == "response_commit";
  }

  /** Transaction checks and deliveries are always accepted, with nothing attached. */
  lemma TransactionRepliesAccept(m: AbciMessage)
    ensures var r := CheckTx(m);
      r.code == 0 && r.data == [] && r.gasWanted == 0 && r.gasUsed == 0 && r.events == []
    ensures var r := DeliverTx(m);
      r.code == 0 && r.data == [] && r.gasWanted == 0 && r.gasUsed == 0 && r.events == []
  {
  }

  /** The bookkeeping replies carry no application state. */
  lemma BookkeepingReplies(m: AbciMessage)
    ensures var r := Query(m); r.code == 0 && r.key == [] && r.value == [] && r.height == 0
    ensures var r := Info(m); r.lastBlockHeight == 0 && r.appVersion == 0 && r.lastBlockAppHash == []
    ensures var r := Commit(m); r.data == [] && r.retainHeight == 0
  {
  }

  // ---------------------------------------------------------------------------
  // Dispatching

  const INVALID_DIALOGUE := "Invalid dialogue."
  const REQUEST_PREFIX := "request_"
  const RESPONSE_MARKER := "response_"

  /** The error sent back for a response-type performative. */
  function NotARequestError(performative: string): string
  {
    "can only handle ABCI requests, received '" + performative + "'"
  }

  /** The request type named by a performative: `performative.replace("request_", "")`. */
  function RequestTypeName(performative: string): string
  {
    ReplaceAll(performative, REQUEST_PREFIX, "")
  }

  /** What `handle` puts in the outbox for one message. */
  function Replies(m: AbciMessage, dialogue: Option<AbciDialogue>): (r: seq<Envelope>)
    ensures |r| <= 1
  {
    if dialogue.None? then [Envelope(m.sender, ResponseException(INVALID_DIALOGUE))]
    else if Contains(m.performative, RESPONSE_MARKER) then
      [Envelope(m.sender, ResponseException(NotARequestError(m.performative)))]
    else
      match LookupHandler(RequestTypeName(m.performative))
      case None => []
      case Some(t) => [Envelope(dialogue.value.counterparty, Dispatch(t, m))]
  }

  /**
   * What a message gets back, by case: an exception when its dialogue is lost
   * or when it is a response; a reply of the handler its performative names;
   * nothing when no handler has that name.
   */
  lemma RepliesByCase(m: AbciMessage, dialogue: Option<AbciDialogue>)
    ensures dialogue.None? ==> Replies(m, dialogue) == [Envelope(m.sender, ResponseException("Invalid dialogue."))]
    ensures dialogue.Some? && Contains(m.performative, "response_") ==>
      Replies(m, dialogue) == [Envelope(m.sender, ResponseException(NotARequestError(m.performative)))]
    ensures dialogue.Some? && !Contains(m.performative, "response_") ==>
      (Replies(m, dialogue) == [] <==> LookupHandler(RequestTypeName(m.performative)).None?)
    ensures forall e | e in Replies(m, dialogue) && !e.body.ResponseException? ::
      exists t :: e.body == Dispatch(t, m) && HandlerName(t) == RequestTypeName(m.performative)
  {
  }

  /** The performative `request_<name>` of a handler. */
  function RequestPerformative(t: RequestType): string
  {
    REQUEST_PREFIX + HandlerName(t)
  }

  /** No handler name holds the `request_` prefix or the `response_` marker. */
  lemma HandlerNameIsPlain(t: RequestType)
    ensures !Contains(HandlerName(t), REQUEST_PREFIX)
    ensures !Contains(RequestPerformative(t), RESPONSE_MARKER)
  {
    NotContainsByHead(HandlerName(t), REQUEST_PREFIX);
    PrefixedNameIsRequest(HandlerName(t));
  }

  /**
   * `request_<name>` does not contain `response_` when every `r` of the name
   * is too close to its end to start that marker.
   */
  lemma PrefixedNameIsRequest(name: string)
    requires forall j :: 0 <= j < |name| && name[j] == 'r' ==> |name| - j < |RESPONSE_MARKER|
    ensures !Contains(REQUEST_PREFIX + name, RESPONSE_MARKER)
  {
    var s, sub := REQUEST_PREFIX + name, RESPONSE_MARKER;
    forall i | 0 <= i <= |s|
      ensures !IsPrefix(sub, s[i..])
    {
      if i + |sub| <= |s| {
        if i < |REQUEST_PREFIX| {
          MarkerNotInPrefix(name, i);
        } else {
          assert s[i] == name[i - |REQUEST_PREFIX|];
          assert s[i..][0] != sub[0];
        }
      }
    }
    NoMatchAnywhere(s, sub);
  }

  /** `response_` starts at no position of `request_`. */
  lemma MarkerNotInPrefix(name: string, i: nat)
    requires i < |REQUEST_PREFIX| && i + |RESPONSE_MARKER| <= |REQUEST_PREFIX + name|
    ensures !IsPrefix(RESPONSE_MARKER, (REQUEST_PREFIX + name)[i..])
  {
    var s := REQUEST_PREFIX + name;
    assert s[..|REQUEST_PREFIX|] == REQUEST_PREFIX;
    if i == 0 {
      assert s[2] == 'q';
      assert s[i..][2] != RESPONSE_MARKER[2];
    } else {
      assert s[i] == REQUEST_PREFIX[i];
      assert s[i..][0] != RESPONSE_MARKER[0];
    }
  }

  /**
   * Each request performative of the protocol reaches its own handler, and
   * exactly that handler's reply is sent to the dialogue's counterparty.
   */
  lemma {:induction false} RequestReachesHandler(t: RequestType, m: AbciMessage, d: AbciDialogue)
    requires m.performative == RequestPerformative(t)
    ensures RequestTypeName(m.performative) == HandlerName(t)
    ensures Replies(m, Some(d)) == [Envelope(d.counterparty, Dispatch(t, m))]
    ensures Performative(Replies(m, Some(d))[0].body) == "response_" + HandlerName(t)
  {
    HandlerNameIsPlain(t);
    assert RequestTypeName(m.performative) == HandlerName(t) by {
      ReplaceAllLeading(REQUEST_PREFIX, HandlerName(t), "");
      ReplaceAllAbsent(HandlerName(t), REQUEST_PREFIX, "");
    }
    LookupHandlerName(t);
    DispatchMatchesRequest(t, m);
  }

  /** The skill's handler and the outbox it writes to. */
  class AbciHandler {
    var outbox: seq<Envelope>

    constructor ()
      ensures outbox == []
    {
      outbox := [];
    }

    /** `handle`: puts what `Replies` says, and nothing else, after what was already sent. */
    method Handle(m: AbciMessage, dialogue: Option<AbciDialogue>)
      modifies this
      ensures outbox == old(outbox) + Replies(m, dialogue)
    {
      if dialogue.None? {
        SendException(m, INVALID_DIALOGUE);
        return;
      }
      var performative := m.performative;
      if Contains(performative, RESPONSE_MARKER) {
        SendException(m, NotARequestError(performative));
        return;
      }
      var requestType := ReplaceAll(performative, REQUEST_PREFIX, "");
      var handler := LookupHandler(requestType);
      if handler.None? {
        return;
      }
      var response := Dispatch(handler.value, m);
      outbox := outbox + [Envelope(dialogue.value.counterparty, response)];
    }

    /** `send_exception`: one exception reply to the message's sender. */
    method SendException(m: AbciMessage, error: string)
      modifies this
      ensures outbox == old(outbox) + [Envelope(m.sender, ResponseException(error))]
    {
      outbox := outbox + [Envelope(m.sender, ResponseException(error))];
    }
  }
}
