/** Concrete hooks, policies and streams that exercise the authorization layer: hook order,
    short-circuiting, per-message stream decisions and the unary/stream difference on a
    builder failure. */
module RpcAuthExamples {
  import opened Wrappers
  import opened Status
  import opened RpcAuth

  /** Sets the extension "stage" to "1". */
  function StampHook(d: InputDoc): HookOutcome
  {
    HookOutcome(d.(extensions := d.extensions["stage" := "1"]), None)
  }

  /** Fails with a plain error unless "stage" has been set. */
  function RequireStampHook(d: InputDoc): HookOutcome
  {
    if "stage" in d.extensions then HookOutcome(d, None) else HookOutcome(d, Some(PlainError("stage not set")))
  }

  /** Rejects every request with its own PermissionDenied status. */
  function VetoHook(d: InputDoc): HookOutcome
  {
    HookOutcome(d, Some(StatusError(PermissionDenied, "vetoed by hook")))
  }

  function AllowAll(d: InputDoc): PolicyAnswer
  {
    Answer(true)
  }

  /** Denies any message that carries a "deny" field. */
  function DenyFlagged(d: InputDoc): PolicyAnswer
  {
    if "deny" in d.message.fields then Answer(false) else Answer(true)
  }

  function BuildDoc(methodName: string, msg: Message): Result<InputDoc, Error>
  {
    Success(InputDoc(methodName, msg, map[]))
  }

  function BrokenBuild(methodName: string, msg: Message): Result<InputDoc, Error>
  {
    Failure(PlainError("bad input"))
  }

  /** A hook that needs an earlier hook's change passes in one order and fails in the other:
      hooks run in sequence, each on the input the previous one left. */
  lemma HookOrderMatters(d: InputDoc)
    requires "stage" !in d.extensions
    ensures Evaluate([StampHook, RequireStampHook], AllowAll, Some(d)).verdict.None?
    ensures var e := Evaluate([RequireStampHook, StampHook], AllowAll, Some(d));
      e.verdict == Some(StatusError(Internal, "authz hook error: stage not set"))
      && e.hooksRun == 1 && !e.policyRun
  {
    var ab := [StampHook, RequireStampHook];
    assert ab[..1] == [StampHook];
    assert ab[..1][..0] == [];
    var stamped := StampHook(d).doc;
    assert RunChain(ab[..1], d) == ChainRun(stamped, 1, None);
    assert RequireStampHook(stamped).err.None?;
    assert RunChain(ab, d) == ChainRun(stamped, 2, None);
    var ba := [RequireStampHook, StampHook];
    assert ba[..1] == [RequireStampHook];
    assert ba[..1][..0] == [];
    assert RunChain(ba[..1], d) == ChainRun(d, 1, Some(PlainError("stage not set")));
    assert RunChain(ba, d) == ChainRun(d, 1, Some(PlainError("stage not set")));
    assert "authz hook error: " + "stage not set" == "authz hook error: stage not set";
  }

  /** With hooks [stamp, veto, h], the veto's own status is returned unchanged, the third
      hook never runs and the policy is never asked, whatever they are; the stamp stays. */
  lemma VetoShortCircuits(d: InputDoc, h: Hook, policy: Policy)
    ensures var e := Evaluate([StampHook, VetoHook, h], policy, Some(d));
      && e.verdict == Some(StatusError(PermissionDenied, "vetoed by hook"))
      && e.hooksRun == 2 && !e.policyRun
      && e.doc == Some(StampHook(d).doc)
  {
    var hooks := [StampHook, VetoHook, h];
    assert hooks[..1] == [StampHook];
    assert hooks[..1][..0] == [];
    assert hooks[..2] == [StampHook, VetoHook];
    assert hooks[..2][..1] == [StampHook];
    assert !HookPasses(hooks, d, 1);
    HookFailureSurfaces(hooks, policy, d, 1);
  }

  /** A builder failure reaches a unary caller as an Internal status, but a stream caller
      as the builder's own unclassified error. */
  lemma BuildFailureAsymmetry(hooks: seq<Hook>, policy: Policy, methodName: string, msg: Message)
    ensures UnaryGate(hooks, policy, BrokenBuild, methodName, Proto(msg)) ==
      Some(StatusError(Internal, "unable to create auth input: bad input"))
    ensures StreamGate(hooks, policy, BrokenBuild, methodName, Proto(msg)) == Some(PlainError("bad input"))
  {
    assert "unable to create auth input: " + "bad input" == "unable to create auth input: bad input";
  }

  /** Three messages on one client stream, the second denied: the first and third are sent,
      the second send fails, and the denial does not affect the third. */
  method SendIndependence() returns (stream: WrappedClientStream, e1: Option<Error>, e2: Option<Error>, e3: Option<Error>)
    ensures e1.None? && e2 == Some(DeniedError) && e3.None?
    ensures stream.sent == [Proto(Message("m1", map[])), Proto(Message("m3", map[]))]
  {
    var authz := new Authorizer.New(DenyFlagged, []);
    stream := new WrappedClientStream("/Exec.Exec/Run", authz, BuildDoc);
    var m1, m2, m3 := Message("m1", map[]), Message("m2", map["deny" := "yes"]), Message("m3", map[]);
    e1 := stream.SendMsg(Proto(m1), None);
    e2 := stream.SendMsg(Proto(m2), None);
    e3 := stream.SendMsg(Proto(m3), None);
  }

  /** A server stream whose wire yields an allowed message, a denied one, then end of
      stream: only the first is delivered, and the end-of-stream error comes back as is. */
  method ReceiveThenAuthorize() returns (stream: WrappedServerStream, e1: Option<Error>, e2: Option<Error>, e3: Option<Error>)
    ensures e1.None? && e2 == Some(DeniedError) && e3 == Some(PlainError("EOF"))
    ensures stream.received == [Proto(Message("m1", map[])), Proto(Message("m2", map["deny" := "yes"]))]
    ensures stream.delivered == [Proto(Message("m1", map[]))]
  {
    var authz := new Authorizer.New(DenyFlagged, []);
    stream := authz.AuthorizeStream("/Exec.Exec/StreamingRun", BuildDoc);
    var m1, m2 := Message("m1", map[]), Message("m2", map["deny" := "yes"]);
    assert StreamGate([], DenyFlagged, BuildDoc, "/Exec.Exec/StreamingRun", Proto(m1)).None?;
    assert StreamGate([], DenyFlagged, BuildDoc, "/Exec.Exec/StreamingRun", Proto(m2)) == Some(DeniedError);
    e1 := stream.RecvMsg(Success(Proto(m1)));
    assert stream.received == [Proto(m1)] && stream.delivered == [Proto(m1)];
    e2 := stream.RecvMsg(Success(Proto(m2)));
    assert stream.received == [Proto(m1), Proto(m2)] && stream.delivered == [Proto(m1)];
    e3 := stream.RecvMsg(Failure(PlainError("EOF")));
  }
}
