/** The task-request protocol (helpers/general.rs): one system message built
    from a fixed template, sent to the language-model gateway with a single
    retry, and optionally decoded. */
module General {
  import opened Wrappers
  import opened Llm

  // The template of `extend_ai_function`, cut where the two values go in.
  const FunctionLabel: string := "FUNCTION: "
  const InstructionBlock: string :=
    "\n  INSTRUCTION: You are a function printer. You ONLY print the results of functions.\n  Nothing else. No commentary. Here is the input to the function: "
  const Closing: string := ".\n  Print out what the function will return."

  /** The system message asking the model to print what `aiFunc` returns on `funcInput`. */
  function ExtendAiFunction(aiFunc: string -> string, funcInput: string): (m: Message)
    ensures m.role == SystemRole
    ensures |m.content| == |FunctionLabel| + |aiFunc(funcInput)| + |InstructionBlock| + |funcInput| + |Closing|
  {
    Message(SystemRole, FunctionLabel + aiFunc(funcInput) + InstructionBlock + funcInput + Closing)
  }

  /** Reads a template message back: the function text (of the given length)
      and the input it was applied to, or None when `content` does not follow the template. */
  function Embedded(content: string, functionLength: nat): Option<(string, string)>
  {
    var head := |FunctionLabel| + functionLength;
    var mid := head + |InstructionBlock|;
    if |content| < mid + |Closing| then None
    else if content[..|FunctionLabel|] != FunctionLabel
         || content[head..mid] != InstructionBlock
         || content[|content| - |Closing|..] != Closing
    then None
    else Some((content[|FunctionLabel|..head], content[mid..|content| - |Closing|]))
  }

  /** The function text and the input are embedded verbatim: both can be read back. */
  lemma ExtendAiFunctionRoundTrip(aiFunc: string -> string, funcInput: string)
    ensures Embedded(ExtendAiFunction(aiFunc, funcInput).content, |aiFunc(funcInput)|)
            == Some((aiFunc(funcInput), funcInput))
  {
    var f := aiFunc(funcInput);
    var c := ExtendAiFunction(aiFunc, funcInput).content;
    var head := |FunctionLabel| + |f|;
    var mid := head + |InstructionBlock|;
    var tail := mid + |funcInput|;
    assert c == FunctionLabel + f + InstructionBlock + funcInput + Closing;
    assert c[..|FunctionLabel|] == FunctionLabel;
    assert c[|FunctionLabel|..head] == f;
    assert c[head..mid] == InstructionBlock;
    assert c[mid..tail] == funcInput;
    assert c[tail..] == Closing;
  }

  /** What one gateway call gives: the completion text, or a transport error. */
  datatype CallOutcome = Completion(text: string) | TransportError

  /** Why a task request aborted: two failed calls, or an answer that does not decode. */
  datatype TaskError = FailedTwice | DecodeFailed

  /** The outcome of the `k`-th gateway call; a call past the end of the script fails. */
  function OutcomeAt(script: seq<CallOutcome>, k: nat): CallOutcome
  {
    if k < |script| then script[k] else TransportError
  }

  /** The language-model gateway, as an oracle: call `k` answers `script[k]`,
      and `sent` records the message list of every call made so far. */
  class Gateway {
    const script: seq<CallOutcome>
    var sent: seq<seq<Message>>

    constructor (script: seq<CallOutcome>)
      ensures this.script == script && sent == []
    {
      this.script := script;
      sent := [];
    }

    /** The number of calls made so far. */
    function Calls(): nat
      reads this
    {
      |sent|
    }

    /** One call: the next scripted outcome, with `messages` logged. */
    method CallGpt(messages: seq<Message>) returns (r: CallOutcome)
      modifies this
      ensures r == OutcomeAt(script, old(Calls()))
      ensures sent == old(sent) + [messages]
    {
      r := OutcomeAt(script, |sent|);
      sent := sent + [messages];
    }
  }

  /** The reply of a task request whose first call is call number `at`:
      the first of at most two attempts that succeeds. */
  function TaskReply(script: seq<CallOutcome>, at: nat): (r: Result<string, TaskError>)
    ensures r.Success? <==> OutcomeAt(script, at).Completion? || OutcomeAt(script, at + 1).Completion?
    ensures OutcomeAt(script, at).Completion? ==> r == Success(OutcomeAt(script, at).text)
    ensures OutcomeAt(script, at).TransportError? && OutcomeAt(script, at + 1).Completion?
            ==> r == Success(OutcomeAt(script, at + 1).text)
    ensures r.Failure? ==> r.error == FailedTwice
  {
    match OutcomeAt(script, at)
    case Completion(text) => Success(text)
    case TransportError =>
      match OutcomeAt(script, at + 1)
      case Completion(text) => Success(text)
      case TransportError => Failure(FailedTwice)
  }

  /** How many gateway calls that request makes: one, and a second only after a failure. */
  function TaskCalls(script: seq<CallOutcome>, at: nat): (n: nat)
    ensures 1 <= n <= 2
    ensures n == 1 <==> OutcomeAt(script, at).Completion?
  {
    if OutcomeAt(script, at).Completion? then 1 else 2
  }

  /** The message lists a task request sends: the same one-message list on every attempt. */
  function Attempts(m: Message, n: nat): (log: seq<seq<Message>>)
    ensures |log| == n
    ensures forall i :: 0 <= i < n ==> log[i] == [m]
  {
    seq(n, _ => [m])
  }

  /** The decoded reply: the transport failure, a decoding failure, or the decoded value. */
  function DecodedReply<T>(script: seq<CallOutcome>, at: nat, decode: string -> Option<T>): (r: Result<T, TaskError>)
    ensures TaskReply(script, at).Failure? ==> r == Failure(FailedTwice)
    ensures TaskReply(script, at).Success? && decode(TaskReply(script, at).value).None?
            ==> r == Failure(DecodeFailed)
    ensures r.Success? <==> TaskReply(script, at).Success? && decode(TaskReply(script, at).value).Some?
    ensures r.Success? ==> decode(TaskReply(script, at).value) == Some(r.value)
  {
    match TaskReply(script, at)
    case Failure(e) => Failure(e)
    case Success(text) =>
      match decode(text)
      case None => Failure(DecodeFailed)
      case Some(v) => Success(v)
  }

  /** `ai_task_request`: applies `functionPass` to `msgContext`, calls the gateway once,
      and once more with the identical message list if the first call failed. */
  method AiTaskRequest(gateway: Gateway, msgContext: string, functionPass: string -> string)
    returns (r: Result<string, TaskError>)
    modifies gateway
    ensures r == TaskReply(gateway.script, old(gateway.Calls()))
    ensures gateway.sent == old(gateway.sent)
              + Attempts(ExtendAiFunction(functionPass, msgContext), TaskCalls(gateway.script, old(gateway.Calls())))
  {
    var extendedMsg := ExtendAiFunction(functionPass, msgContext);
    var first := gateway.CallGpt([extendedMsg]);
    match first
    case Completion(text) =>
      r := Success(text);
    case TransportError =>
      var second := gateway.CallGpt([extendedMsg]);
      r := if second.Completion? then Success(second.text) else Failure(FailedTwice);
  }

  /** `ai_task_request_decoded`: the request above, then the decoder; a reply that
      does not decode aborts the request. */
  method AiTaskRequestDecoded<T>(gateway: Gateway, msgContext: string, functionPass: string -> string,
                                 decode: string -> Option<T>)
    returns (r: Result<T, TaskError>)
    modifies gateway
    ensures r == DecodedReply(gateway.script, old(gateway.Calls()), decode)
    ensures gateway.sent == old(gateway.sent)
              + Attempts(ExtendAiFunction(functionPass, msgContext), TaskCalls(gateway.script, old(gateway.Calls())))
  {
    var llmResponse := AiTaskRequest(gateway, msgContext, functionPass);
    match llmResponse
    case Failure(e) =>
      r := Failure(e);
    case Success(text) =>
      r := match decode(text)
           case None => Failure(DecodeFailed)
           case Some(v) => Success(v);
  }
}
