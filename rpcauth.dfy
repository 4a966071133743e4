/** RPC authorization for sansshell: an `Authorizer` runs an ordered chain of hooks over an
    authorization input, asks a policy whether the (hook-modified) input is allowed, and
    classifies every outcome as a gRPC status. Four interceptors put that decision in front
    of unary handlers, unary invokers, client-stream sends and server-stream receives. */
module RpcAuth {
  import opened Wrappers
  import opened Status

  // ---------------------------------------------------------------------------------------
  // Data model
  // ---------------------------------------------------------------------------------------

  /** A protobuf message as a structurally serializable value: its full name and fields. */
  datatype Message = Message(name: string, fields: map<string, string>)

  /** The value handed to an interceptor: either a proto.Message or some other Go value
      (named by its dynamic type, as `%T` prints it). */
  datatype Payload = Proto(msg: Message) | NotProtoValue(typeName: string)

  /** The contents of an RPCAuthInput: the full method name, the message, and the
      attributes that hooks may add or change. */
  datatype InputDoc = InputDoc(methodName: string, message: Message, extensions: map<string, string>)

  /** What one hook leaves behind: the input as the hook changed it in place, and the error
      it returned (`None` for nil). A hook may change the input and still fail. */
  datatype HookOutcome = HookOutcome(doc: InputDoc, err: Option<Error>)

  /** An RPCAuthzHook. */
  type Hook = InputDoc -> HookOutcome

  /** The answer of the policy engine for one input: `(allowed, nil)` or `(_, err)`. */
  datatype PolicyAnswer = Answer(allowed: bool) | PolicyFailure(err: Error)

  /** The policy engine, as an oracle over the input. */
  type Policy = InputDoc -> PolicyAnswer

  /** NewRPCAuthInput under a call's context: builds the input for a method and a message,
      or fails. */
  type Builder = (string, Message) -> Result<InputDoc, Error>

  /** The state of the hook chain after it stops: the input as changed so far, how many
      hooks were invoked, and the error of the hook that stopped it (`None` if none did). */
  datatype ChainRun = ChainRun(doc: InputDoc, ran: nat, failure: Option<Error>)

  /** Everything one evaluation does that a caller or an observer can see: the error
      returned (`None` for nil), the input afterwards (`None` for a nil input), the number
      of hooks invoked and whether the policy was asked. */
  datatype Evaluation = Evaluation(verdict: Option<Error>, doc: Option<InputDoc>, hooksRun: nat, policyRun: bool)

  /** The result of a unary interceptor: either the downstream handler or invoker was called
      and its result is returned as is, or it was not called and the error is returned. */
  datatype Gated<+R> = Forwarded(result: R) | Rejected(err: Error)

  // ---------------------------------------------------------------------------------------
  // The fixed errors of the layer
  // ---------------------------------------------------------------------------------------

  const NilInputError: Error := StatusError(InvalidArgument, "policy input cannot be nil")

  /** The generic denial: it carries nothing from the policy engine. */
  const DeniedError: Error := StatusError(PermissionDenied, "OPA policy does not permit this request")

  /** The Internal error for a value that is not a proto.Message, naming its type. */
  function NotProtoError(typeName: string): (r: Error)
    ensures r.StatusError? && r.code == Internal
  {
    StatusError(Internal, "unable to authorize request of type " + typeName + " which is not proto.Message")
  }

  /** A failing hook's error as `Eval` returns it: a status error passes through unchanged,
      anything else becomes Internal and keeps the original text. */
  function HookErrorStatus(e: Error): (r: Error)
    ensures r.StatusError?
    ensures e.StatusError? ==> r == e
    ensures !e.StatusError? ==> r.code == Internal && |Text(e)| <= |r.desc| && r.desc[|r.desc| - |Text(e)|..] == Text(e)
  {
    if e.StatusError? then e else Wrap(Internal, "authz hook error: ", e)
  }

  /** The policy's answer as `Eval` returns it. */
  function PolicyStatus(a: PolicyAnswer): (r: Option<Error>)
    ensures r.None? <==> a == Answer(true)
    ensures r.Some? ==> r.value.StatusError?
    ensures a.PolicyFailure? ==> r.value.code == Internal
    ensures a == Answer(false) ==> r == Some(DeniedError)
  {
    match a
    case PolicyFailure(err) => Some(Wrap(Internal, "authz policy evaluation error: ", err))
    case Answer(allowed) => if allowed then None else Some(DeniedError)
  }

  // ---------------------------------------------------------------------------------------
  // The hook chain
  // ---------------------------------------------------------------------------------------

  /** The hooks run in order, each on the input as the previous ones left it, until one
      fails. Stated over prefixes, as the loop in `Eval` builds it up. */
  function RunChain(hooks: seq<Hook>, doc: InputDoc): (r: ChainRun)
    ensures r.ran <= |hooks|
    ensures r.failure.None? ==> r.ran == |hooks|
    ensures r.failure.Some? ==> r.ran >= 1
    decreases |hooks|
  {
    if hooks == [] then ChainRun(doc, 0, None)
    else
      var prev := RunChain(hooks[..|hooks| - 1], doc);
      if prev.failure.Some? then prev
      else
        var o := hooks[|hooks| - 1](prev.doc);
        ChainRun(o.doc, |hooks|, o.err)
  }

  /** Hook `j` succeeds when it runs on the input as the hooks before it left it. */
  predicate HookPasses(hooks: seq<Hook>, doc: InputDoc, j: nat)
    requires j < |hooks|
  {
    hooks[j](RunChain(hooks[..j], doc).doc).err.None?
  }

  /** Running `p` then `q` is running `p + q`: if `p` stops, `q` never runs; otherwise `q`
      starts from the input `p` left, and its hooks are counted after those of `p`. */
  lemma {:induction false} ChainAppend(p: seq<Hook>, q: seq<Hook>, doc: InputDoc)
    ensures var a := RunChain(p, doc);
      RunChain(p + q, doc) ==
        if a.failure.Some? then a
        else var b := RunChain(q, a.doc); ChainRun(b.doc, |p| + b.ran, b.failure)
    decreases |q|
  {
    if q == [] {
      assert p + q == p;
    } else {
      var q' := q[..|q| - 1];
      ChainAppend(p, q', doc);
      assert (p + q)[..|p + q| - 1] == p + q';
      assert (p + q)[|p + q| - 1] == q[|q| - 1];
    }
  }

  /** Looking at a prefix of the chain does not change what its hooks see. */
  lemma PrefixPasses(hooks: seq<Hook>, doc: InputDoc, k: nat, j: nat)
    requires j < k <= |hooks|
    ensures HookPasses(hooks[..k], doc, j) == HookPasses(hooks, doc, j)
  {
    assert hooks[..k][..j] == hooks[..j];
  }

  /** The chain completes exactly when every hook succeeds on the input the earlier hooks
      produced. */
  lemma {:induction false} ChainSucceedsIff(hooks: seq<Hook>, doc: InputDoc)
    ensures RunChain(hooks, doc).failure.None? <==> forall j | 0 <= j < |hooks| :: HookPasses(hooks, doc, j)
    decreases |hooks|
  {
    if hooks != [] {
      var n := |hooks|;
      ChainSucceedsIff(hooks[..n - 1], doc);
      forall j | 0 <= j < n - 1
        ensures HookPasses(hooks[..n - 1], doc, j) == HookPasses(hooks, doc, j)
      {
        PrefixPasses(hooks, doc, n - 1, j);
      }
      if RunChain(hooks[..n - 1], doc).failure.Some? {
        var j :| 0 <= j < n - 1 && !HookPasses(hooks[..n - 1], doc, j);
        assert !HookPasses(hooks, doc, j);
      } else {
        assert RunChain(hooks, doc).failure.None? <==> HookPasses(hooks, doc, n - 1);
      }
    }
  }

  /** A chain that stops, stops at the first hook that fails: every hook before it passed,
      no hook after it ran, and the chain's result is that hook's own outcome. */
  lemma {:induction false} ChainFirstFailure(hooks: seq<Hook>, doc: InputDoc)
    requires RunChain(hooks, doc).failure.Some?
    ensures var r := RunChain(hooks, doc);
      && (forall j | 0 <= j < r.ran - 1 :: HookPasses(hooks, doc, j))
      && !HookPasses(hooks, doc, r.ran - 1)
      && r == RunChain(hooks[..r.ran], doc)
      && var o := hooks[r.ran - 1](RunChain(hooks[..r.ran - 1], doc).doc);
         r.doc == o.doc && r.failure == o.err
    decreases |hooks|
  {
    var n := |hooks|;
    var p := hooks[..n - 1];
    var r := RunChain(hooks, doc);
    if RunChain(p, doc).failure.Some? {
      ChainFirstFailure(p, doc);
      forall j | 0 <= j < r.ran
        ensures HookPasses(p, doc, j) == HookPasses(hooks, doc, j)
      {
        PrefixPasses(hooks, doc, n - 1, j);
      }
      assert p[..r.ran] == hooks[..r.ran];
      assert p[..r.ran - 1] == hooks[..r.ran - 1];
    } else {
      ChainSucceedsIff(p, doc);
      forall j | 0 <= j < n - 1
        ensures HookPasses(hooks, doc, j)
      {
        PrefixPasses(hooks, doc, n - 1, j);
      }
      assert hooks[..n] == hooks;
    }
  }

  // ---------------------------------------------------------------------------------------
  // Authorizer.Eval, as a specification
  // ---------------------------------------------------------------------------------------

  /** What `Eval` does with an input (`None` for a nil pointer): reject nil, run the
      hooks, then ask the policy about the input as the hooks left it. */
  function Evaluate(hooks: seq<Hook>, policy: Policy, input: Option<InputDoc>): (e: Evaluation)
    ensures input.None? ==> e.verdict == Some(NilInputError) && e.hooksRun == 0 && !e.policyRun
    ensures input.Some? <==> e.doc.Some?
    ensures e.verdict.Some? ==> e.verdict.value.StatusError?
    ensures e.hooksRun <= |hooks|
    ensures e.policyRun ==> e.hooksRun == |hooks|
    ensures e.verdict.None? ==> e.policyRun
  {
    if input.None? then Evaluation(Some(NilInputError), None, 0, false)
    else
      var c := RunChain(hooks, input.value);
      if c.failure.Some? then Evaluation(Some(HookErrorStatus(c.failure.value)), Some(c.doc), c.ran, false)
      else Evaluation(PolicyStatus(policy(c.doc)), Some(c.doc), c.ran, true)
  }

  /** `Eval` returns nil iff the input is non-nil, every hook succeeds on the input as the
      earlier hooks left it, and the policy allows the input as all hooks left it. */
  lemma EvalAllowsIff(hooks: seq<Hook>, policy: Policy, input: Option<InputDoc>)
    ensures Evaluate(hooks, policy, input).verdict.None? <==>
      && input.Some?
      && (forall j | 0 <= j < |hooks| :: HookPasses(hooks, input.value, j))
      && policy(RunChain(hooks, input.value).doc) == Answer(true)
  {
    if input.Some? {
      ChainSucceedsIff(hooks, input.value);
    }
  }

  /** When hook `k` is the first to fail, `Eval` returns that hook's error (a status error
      unchanged, any other error as Internal), has invoked exactly hooks 0..k, never asks
      the policy, and leaves the input as hook `k` changed it. */
  lemma HookFailureSurfaces(hooks: seq<Hook>, policy: Policy, doc: InputDoc, k: nat)
    requires k < |hooks|
    requires forall j | 0 <= j < k :: HookPasses(hooks, doc, j)
    requires !HookPasses(hooks, doc, k)
    ensures var o := hooks[k](RunChain(hooks[..k], doc).doc);
      var e := Evaluate(hooks, policy, Some(doc));
      && e.verdict == Some(HookErrorStatus(o.err.value))
      && e.hooksRun == k + 1 && !e.policyRun
      && e.doc == Some(o.doc)
  {
    forall j | 0 <= j < k
      ensures HookPasses(hooks[..k], doc, j)
    {
      PrefixPasses(hooks, doc, k, j);
    }
    ChainSucceedsIff(hooks[..k], doc);
    var p := hooks[..k + 1];
    assert p[..k] == hooks[..k];
    ChainAppend(p, hooks[k + 1..], doc);
    assert p + hooks[k + 1..] == hooks;
  }

  /** Once every hook has passed, the policy alone decides: an engine error is Internal, a
      denial is the fixed generic PermissionDenied, an allow is nil; in every case the
      hooks' changes to the input remain. */
  lemma PolicyDecides(hooks: seq<Hook>, policy: Policy, doc: InputDoc)
    requires forall j | 0 <= j < |hooks| :: HookPasses(hooks, doc, j)
    ensures var c := RunChain(hooks, doc);
      var e := Evaluate(hooks, policy, Some(doc));
      && e.doc == Some(c.doc) && e.hooksRun == |hooks| && e.policyRun
      && (policy(c.doc).PolicyFailure? ==> e.verdict == Some(Wrap(Internal, "authz policy evaluation error: ", policy(c.doc).err)))
      && (policy(c.doc) == Answer(false) ==> e.verdict == Some(DeniedError))
      && (policy(c.doc) == Answer(true) ==> e.verdict.None?)
  {
    ChainSucceedsIff(hooks, doc);
  }

  /** An error from `Eval` is always a status error; its code is InvalidArgument, Internal
      or PermissionDenied unless it is the failing hook's own status error, passed through. */
  lemma EvalErrorsClassified(hooks: seq<Hook>, policy: Policy, input: Option<InputDoc>)
    ensures var e := Evaluate(hooks, policy, input);
      e.verdict.Some? ==>
        && e.verdict.value.StatusError?
        && (e.verdict.value.code in {InvalidArgument, Internal, PermissionDenied}
            || (input.Some? && RunChain(hooks, input.value).failure == e.verdict))
  {
  }

  // ---------------------------------------------------------------------------------------
  // The objects: the input that hooks change in place, and the Authorizer
  // ---------------------------------------------------------------------------------------

  /** An RPCAuthInput: one per call or per streamed message, changed in place by hooks. */
  class AuthInput {
    var doc: InputDoc

    constructor (doc: InputDoc)
      ensures this.doc == doc
    {
      this.doc := doc;
    }
  }

  /** An Authorizer: one policy and one ordered hook list, both fixed at construction, so
      that one Authorizer can be shared by all calls and streams. */
  class Authorizer {
    const policy: Policy
    const hooks: seq<Hook>

    /** New: hooks run, in the order given, on every evaluation. */
    constructor New(policy: Policy, hooks: seq<Hook>)
      ensures this.policy == policy && this.hooks == hooks
    {
      this.policy := policy;
      this.hooks := hooks;
    }

    /** Eval: evaluates `input` (null for nil) against the hooks and the policy, returning
        nil iff the request is permitted. The ghost results count the hooks invoked and say
        whether the policy was asked. Hook changes to the input stay, whatever the outcome. */
    method Eval(input: AuthInput?) returns (err: Option<Error>, ghost hooksRun: nat, ghost policyRun: bool)
      modifies input
      ensures var e := Evaluate(hooks, policy, if input == null then None else Some(old(input.doc)));
        && err == e.verdict && hooksRun == e.hooksRun && policyRun == e.policyRun
        && (input != null ==> e.doc == Some(input.doc))
    {
      if input == null {
        return Some(NilInputError), 0, false;
      }
      ghost var start := input.doc;
      var i := 0;
      while i < |hooks|
        invariant 0 <= i <= |hooks|
        invariant RunChain(hooks[..i], start) == ChainRun(input.doc, i, None)
      {
        var o := hooks[i](input.doc);
        input.doc := o.doc;
        assert hooks[..i + 1][..i] == hooks[..i];
        if o.err.Some? {
          ChainAppend(hooks[..i + 1], hooks[i + 1..], start);
          assert hooks[..i + 1] + hooks[i + 1..] == hooks;
          return Some(HookErrorStatus(o.err.value)), i + 1, false;
        }
        i := i + 1;
      }
      assert hooks[..i] == hooks;
      err := PolicyStatus(policy(input.doc));
      hooksRun, policyRun := i, true;
    }

    /** Authorize (unary server interceptor): the handler runs only for a proto message
        whose input can be built and passes `Eval`, and its result is returned unchanged. */
    function Authorize<R>(fullMethod: string, req: Payload, build: Builder, handler: Payload -> R): (r: Gated<R>)
      ensures r.Forwarded? <==> UnaryGate(hooks, policy, build, fullMethod, req).None?
      ensures r.Forwarded? ==> r.result == handler(req)
      ensures r.Rejected? ==> Some(r.err) == UnaryGate(hooks, policy, build, fullMethod, req)
    {
      var gate := UnaryGate(hooks, policy, build, fullMethod, req);
      if gate.Some? then Rejected(gate.value) else Forwarded(handler(req))
    }

    /** AuthorizeClient (unary client interceptor): the call is handed to the invoker only
        when it passes the same gate, and the invoker's error is returned unchanged. */
    function AuthorizeClient(methodName: string, req: Payload, build: Builder, invoker: (string, Payload) -> Option<Error>): (r: Gated<Option<Error>>)
      ensures r.Forwarded? <==> UnaryGate(hooks, policy, build, methodName, req).None?
      ensures r.Forwarded? ==> r.result == invoker(methodName, req)
      ensures r.Rejected? ==> Some(r.err) == UnaryGate(hooks, policy, build, methodName, req)
    {
      var gate := UnaryGate(hooks, policy, build, methodName, req);
      if gate.Some? then Rejected(gate.value) else Forwarded(invoker(methodName, req))
    }

    /** AuthorizeClientStream: `opened` is what opening the underlying stream returned. A
        failure to open is wrapped as Internal; otherwise the new stream has sent nothing. */
    method AuthorizeClientStream(methodName: string, build: Builder, openErr: Option<Error>)
      returns (stream: WrappedClientStream?, err: Option<Error>)
      ensures openErr.Some? ==> stream == null && err == Some(Wrap(Internal, "can't create clientStream: ", openErr.value))
      ensures openErr.None? ==>
        && err.None? && stream != null && fresh(stream) && stream.Valid()
        && stream.authz == this && stream.methodName == methodName && stream.build == build
        && stream.offered == [] && stream.sent == []
    {
      if openErr.Some? {
        return null, Some(Wrap(Internal, "can't create clientStream: ", openErr.value));
      }
      stream := new WrappedClientStream(methodName, this, build);
      err := None;
    }

    /** AuthorizeStream: the wrapped server stream handed to the stream handler; it has
        received nothing yet. */
    method AuthorizeStream(fullMethod: string, build: Builder) returns (wrapped: WrappedServerStream)
      ensures fresh(wrapped) && wrapped.Valid()
      ensures wrapped.authz == this && wrapped.methodName == fullMethod && wrapped.build == build
      ensures wrapped.received == [] && wrapped.delivered == []
    {
      wrapped := new WrappedServerStream(fullMethod, this, build);
    }
  }

  // ---------------------------------------------------------------------------------------
  // The gates in front of the four call shapes
  // ---------------------------------------------------------------------------------------

  /** The check the unary interceptors make before forwarding: not a proto message or an
      input that cannot be built is Internal; otherwise `Eval` decides. */
  function UnaryGate(hooks: seq<Hook>, policy: Policy, build: Builder, methodName: string, req: Payload): (r: Option<Error>)
    ensures r.None? <==>
      && req.Proto?
      && build(methodName, req.msg).Success?
      && Evaluate(hooks, policy, Some(build(methodName, req.msg).value)).verdict.None?
    ensures r.Some? ==> r.value.StatusError?
    ensures !req.Proto? ==> r == Some(NotProtoError(req.typeName))
    ensures req.Proto? && build(methodName, req.msg).Failure? ==>
      r == Some(Wrap(Internal, "unable to create auth input: ", build(methodName, req.msg).error))
    ensures req.Proto? && build(methodName, req.msg).Success? ==>
      r == Evaluate(hooks, policy, Some(build(methodName, req.msg).value)).verdict
  {
    if !req.Proto? then Some(NotProtoError(req.typeName))
    else
      match build(methodName, req.msg)
      case Failure(e) => Some(Wrap(Internal, "unable to create auth input: ", e))
      case Success(doc) => Evaluate(hooks, policy, Some(doc)).verdict
  }

  /** The check the stream wrappers make for one message: as `UnaryGate`, except that an
      input that cannot be built returns the builder's error as it is. */
  function StreamGate(hooks: seq<Hook>, policy: Policy, build: Builder, methodName: string, req: Payload): (r: Option<Error>)
    ensures r.None? <==>
      && req.Proto?
      && build(methodName, req.msg).Success?
      && Evaluate(hooks, policy, Some(build(methodName, req.msg).value)).verdict.None?
    ensures !req.Proto? ==> r == Some(NotProtoError(req.typeName))
    ensures req.Proto? && build(methodName, req.msg).Failure? ==> r == Some(build(methodName, req.msg).error)
    ensures req.Proto? && build(methodName, req.msg).Success? ==>
      r == Evaluate(hooks, policy, Some(build(methodName, req.msg).value)).verdict
  {
    if !req.Proto? then Some(NotProtoError(req.typeName))
    else
      match build(methodName, req.msg)
      case Failure(e) => Some(e)
      case Success(doc) => Evaluate(hooks, policy, Some(doc)).verdict
  }

  /** The unary and the stream gates admit exactly the same requests and return the same
      error except when the input cannot be built: the unary paths then wrap the builder's
      error as Internal, the stream paths return it unwrapped. */
  lemma GatesDifferOnlyInBuildFailure(hooks: seq<Hook>, policy: Policy, build: Builder, methodName: string, req: Payload)
    ensures UnaryGate(hooks, policy, build, methodName, req).None? <==> StreamGate(hooks, policy, build, methodName, req).None?
    ensures !(req.Proto? && build(methodName, req.msg).Failure?) ==>
      UnaryGate(hooks, policy, build, methodName, req) == StreamGate(hooks, policy, build, methodName, req)
  {
  }

  /** The unary server interceptor calls its handler only for a proto message whose input
      is built and whose every hook passes, with the policy allowing the hook-changed input. */
  lemma AuthorizeForwardsOnlyIfAllowed<R>(g: Authorizer, fullMethod: string, req: Payload, build: Builder, handler: Payload -> R)
    ensures g.Authorize(fullMethod, req, build, handler).Forwarded? <==>
      && req.Proto?
      && build(fullMethod, req.msg).Success?
      && var doc := build(fullMethod, req.msg).value;
         && (forall j | 0 <= j < |g.hooks| :: HookPasses(g.hooks, doc, j))
         && g.policy(RunChain(g.hooks, doc).doc) == Answer(true)
    ensures g.Authorize(fullMethod, req, build, handler).Rejected? ==>
      g.Authorize(fullMethod, req, build, handler).err.StatusError?
    ensures !req.Proto? ==> g.Authorize(fullMethod, req, build, handler) == Rejected(NotProtoError(req.typeName))
    ensures req.Proto? && build(fullMethod, req.msg).Failure? ==>
      g.Authorize(fullMethod, req, build, handler) == Rejected(Wrap(Internal, "unable to create auth input: ", build(fullMethod, req.msg).error))
    ensures req.Proto? && build(fullMethod, req.msg).Success? ==>
      var e := Evaluate(g.hooks, g.policy, Some(build(fullMethod, req.msg).value));
      e.verdict.Some? ==> g.Authorize(fullMethod, req, build, handler) == Rejected(e.verdict.value)
  {
    if req.Proto? && build(fullMethod, req.msg).Success? {
      EvalAllowsIff(g.hooks, g.policy, Some(build(fullMethod, req.msg).value));
    }
  }

  /** Likewise the unary client interceptor never hands a call to the invoker unless the
      hooks and the policy allow it, and every rejection is a status error. */
  lemma AuthorizeClientForwardsOnlyIfAllowed(g: Authorizer, methodName: string, req: Payload, build: Builder, invoker: (string, Payload) -> Option<Error>)
    ensures g.AuthorizeClient(methodName, req, build, invoker).Forwarded? <==>
      && req.Proto?
      && build(methodName, req.msg).Success?
      && var doc := build(methodName, req.msg).value;
         && (forall j | 0 <= j < |g.hooks| :: HookPasses(g.hooks, doc, j))
         && g.policy(RunChain(g.hooks, doc).doc) == Answer(true)
    ensures g.AuthorizeClient(methodName, req, build, invoker).Rejected? ==>
      g.AuthorizeClient(methodName, req, build, invoker).err.StatusError?
    ensures !req.Proto? ==> g.AuthorizeClient(methodName, req, build, invoker) == Rejected(NotProtoError(req.typeName))
    ensures req.Proto? && build(methodName, req.msg).Failure? ==>
      g.AuthorizeClient(methodName, req, build, invoker) == Rejected(Wrap(Internal, "unable to create auth input: ", build(methodName, req.msg).error))
    ensures req.Proto? && build(methodName, req.msg).Success? ==>
      var e := Evaluate(g.hooks, g.policy, Some(build(methodName, req.msg).value));
      e.verdict.Some? ==> g.AuthorizeClient(methodName, req, build, invoker) == Rejected(e.verdict.value)
  {
    if req.Proto? && build(methodName, req.msg).Success? {
      EvalAllowsIff(g.hooks, g.policy, Some(build(methodName, req.msg).value));
    }
  }

  // ---------------------------------------------------------------------------------------
  // The stream wrappers
  // ---------------------------------------------------------------------------------------

  /** The messages of `msgs`, in order, that pass `StreamGate` each on its own. */
  function Admitted(hooks: seq<Hook>, policy: Policy, build: Builder, methodName: string, msgs: seq<Payload>): (r: seq<Payload>)
    ensures |r| <= |msgs|
    ensures forall m | m in r :: m in msgs && StreamGate(hooks, policy, build, methodName, m).None?
    decreases |msgs|
  {
    if msgs == [] then []
    else
      var last := msgs[|msgs| - 1];
      Admitted(hooks, policy, build, methodName, msgs[..|msgs| - 1])
        + if StreamGate(hooks, policy, build, methodName, last).None? then [last] else []
  }

  /** A message is admitted or not whatever was offered before it: the decision for the
      last message of a stream is the same after any history. */
  lemma AdmittedIgnoresHistory(hooks: seq<Hook>, policy: Policy, build: Builder, methodName: string, h1: seq<Payload>, h2: seq<Payload>, m: Payload)
    ensures Admitted(hooks, policy, build, methodName, h1 + [m]) == Admitted(hooks, policy, build, methodName, h1) + Admitted(hooks, policy, build, methodName, [m])
    ensures (Admitted(hooks, policy, build, methodName, h1 + [m]) == Admitted(hooks, policy, build, methodName, h1))
        <==> (Admitted(hooks, policy, build, methodName, h2 + [m]) == Admitted(hooks, policy, build, methodName, h2))
  {
  }

  /** wrappedClientStream: the client side of one stream. `offered` logs every SendMsg
      call, `sent` the messages handed on to the underlying stream. */
  class WrappedClientStream {
    const methodName: string
    const authz: Authorizer
    /** NewRPCAuthInput under this stream's context. */
    const build: Builder
    ghost var offered: seq<Payload>
    ghost var sent: seq<Payload>

    /** What was sent is exactly what was offered and passed authorization message by
        message. */
    ghost predicate Valid()
      reads this
    {
      sent == Admitted(authz.hooks, authz.policy, build, methodName, offered)
    }

    constructor (methodName: string, authz: Authorizer, build: Builder)
      ensures this.methodName == methodName && this.authz == authz && this.build == build
      ensures offered == [] && sent == [] && Valid()
    {
      this.methodName := methodName;
      this.authz := authz;
      this.build := build;
      offered, sent := [], [];
    }

    /** SendMsg: authorizes `req` on its own and only then hands it to the underlying
        stream, whose own result is `transport`. */
    method SendMsg(req: Payload, transport: Option<Error>) returns (err: Option<Error>)
      requires Valid()
      modifies this
      ensures Valid()
      ensures var gate := StreamGate(authz.hooks, authz.policy, build, methodName, req);
        && offered == old(offered) + [req]
        && sent == (if gate.None? then old(sent) + [req] else old(sent))
        && err == (if gate.None? then transport else gate)
    {
      offered := offered + [req];
      assert offered[..|offered| - 1] == old(offered);
      if !req.Proto? {
        return Some(NotProtoError(req.typeName));
      }
      var built := build(methodName, req.msg);
      if built.Failure? {
        return Some(built.error);
      }
      var input := new AuthInput(built.value);
      ghost var hooksRun, policyRun;
      err, hooksRun, policyRun := authz.Eval(input);
      if err.Some? {
        return;
      }
      sent := sent + [req];
      err := transport;
    }
  }

  /** wrappedStream: the server side of one stream. `received` logs the messages read from
      the underlying stream, `delivered` those RecvMsg returned nil for. */
  class WrappedServerStream {
    /** info.FullMethod */
    const methodName: string
    const authz: Authorizer
    /** NewRPCAuthInput under this stream's context. */
    const build: Builder
    ghost var received: seq<Payload>
    ghost var delivered: seq<Payload>

    /** The handler was given exactly the received messages that passed authorization. */
    ghost predicate Valid()
      reads this
    {
      delivered == Admitted(authz.hooks, authz.policy, build, methodName, received)
    }

    constructor (methodName: string, authz: Authorizer, build: Builder)
      ensures this.methodName == methodName && this.authz == authz && this.build == build
      ensures received == [] && delivered == [] && Valid()
    {
      this.methodName := methodName;
      this.authz := authz;
      this.build := build;
      received, delivered := [], [];
    }

    /** RecvMsg: `wire` is what the underlying stream's RecvMsg produced. A receive error is
        returned unchanged without evaluating; a received message is authorized only after
        it has been read. */
    method RecvMsg(wire: Result<Payload, Error>) returns (err: Option<Error>)
      requires Valid()
      modifies this
      ensures Valid()
      ensures wire.Failure? ==> err == Some(wire.error) && received == old(received) && delivered == old(delivered)
      ensures wire.Success? ==>
        var gate := StreamGate(authz.hooks, authz.policy, build, methodName, wire.value);
        && received == old(received) + [wire.value]
        && delivered == (if gate.None? then old(delivered) + [wire.value] else old(delivered))
        && err == gate
    {
      if wire.Failure? {
        return Some(wire.error);
      }
      var req := wire.value;
      received := received + [req];
      assert received[..|received| - 1] == old(received);
      if !req.Proto? {
        return Some(NotProtoError(req.typeName));
      }
      var built := build(methodName, req.msg);
      if built.Failure? {
        return Some(built.error);
      }
      var input := new AuthInput(built.value);
      ghost var hooksRun, policyRun;
      err, hooksRun, policyRun := authz.Eval(input);
      if err.Some? {
        return;
      }
      delivered := delivered + [req];
    }
  }
}
