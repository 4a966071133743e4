# sansshell RPC authorization, modelled in Dafny

This project models the RPC authorization layer of sansshell (`auth/opa/rpcauth/rpcauth.go`).
An `Authorizer` holds one OPA policy and an ordered list of authorization hooks, both set
when it is built; no method of the Authorizer changes them. `Eval` rejects a nil input. It then runs the hooks in order. Each hook
may change the input in place, and the first hook that fails stops the chain. Finally `Eval`
asks the policy about the input as the hooks left it. Every outcome becomes either nil or a
gRPC status error.

Four interceptors put `Eval` in front of a call:
- the unary server interceptor (`Authorize`);
- the unary client interceptor (`AuthorizeClient`);
- the client-stream wrapper, which authorizes each `SendMsg` before sending;
- the server-stream wrapper, which authorizes each `RecvMsg` after receiving.

Files:
- `wrappers.dfy`: `Option` (Go's nil or a value) and `Result` (a Go `(value, error)` pair).
- `status.dfy`: the non-OK gRPC codes. An error is a status error or a plain Go error. The file also gives the text `%v` prints for an error and what `status.Errorf` builds.
- `rpcauth.dfy`: the `RpcAuth` module, which covers:
  - the data model;
  - the hook chain as a function over prefixes (`RunChain`);
  - the specification of `Eval` (`Evaluate`);
  - the `Authorizer` class and its `Eval` loop;
  - the unary gates;
  - the two stream-wrapper classes.
- `examples.dfy`: concrete hooks, policies and streams. They show hook order, short-circuiting, per-message stream decisions and the unary/stream difference.

How the model represents each part:
- A `Hook` is a total function from the input document to a `HookOutcome`. The outcome holds the document as the hook left it and the hook's error. A hook can change the input and still fail, as a Go hook holding the `*RPCAuthInput` can. The change is kept either way.
- The policy is an oracle `InputDoc -> PolicyAnswer`: `Answer(allowed)` or `PolicyFailure(err)`.
- `NewRPCAuthInput` under a call's context is a `Builder`. It may fail.
- The input `Eval` changes in place is the class `AuthInput`. `Eval` takes it as a nullable reference.
- What reaches the downstream side is recorded in ghost logs on the stream objects:
  - `offered` and `sent` on the client stream;
  - `received` and `delivered` on the server stream.
- The unary interceptors are functions whose result `Gated<R>` records whether the handler or invoker was called.

Failures to build the input are handled differently by call shape. The unary paths wrap the
builder's error as Internal (`rpcauth.go:130-131`, `146-147`). The stream paths return it
unwrapped (`rpcauth.go:184-186`, `225-227`), so a stream caller can see an error that is not a
status. The model keeps this difference: `UnaryGate` wraps the error and `StreamGate` does not.
`GatesDifferOnlyInBuildFailure` and `BuildFailureAsymmetry` state it.

## Model

| member | source | states |
|---|---|---|
| `Status.Wrap` | auth/opa/rpcauth/rpcauth.go:101 | `status.Errorf(code, prefix+"%v", err)` is a status error with that code whose description ends with the cause's text |
| `RpcAuth.HookErrorStatus` | auth/opa/rpcauth/rpcauth.go:96-101 | a hook error that is already a status is returned unchanged; any other becomes Internal and keeps the original text; the result is always a status |
| `RpcAuth.NotProtoError` | auth/opa/rpcauth/rpcauth.go:127 | a value that is not a proto message is rejected with an Internal status error |
| `RpcAuth.PolicyStatus` | auth/opa/rpcauth/rpcauth.go:112-120 | the policy's answer maps to nil exactly when it is `(true, nil)`; an engine error is Internal; `false` is the fixed generic PermissionDenied; every non-nil result is a status |
| `RpcAuth.RunChain` | auth/opa/rpcauth/rpcauth.go:95-103 | the chain invokes at most all hooks; it invokes all of them when none fails, and at least one when one fails |
| `RpcAuth.ChainAppend` | auth/opa/rpcauth/rpcauth.go:54-60 | running hooks `p` then `q` equals running `p + q`: if `p` stops, no hook of `q` runs; otherwise `q` starts from the input `p` left |
| `RpcAuth.ChainSucceedsIff` | auth/opa/rpcauth/rpcauth.go:95-103 | the chain completes iff every hook succeeds on the input as the earlier hooks changed it |
| `RpcAuth.ChainFirstFailure` | auth/opa/rpcauth/rpcauth.go:95-102 | a chain that stops, stops at the first failing hook: all earlier hooks passed, no later hook affects the result, and the result is that hook's own outcome |
| `RpcAuth.Evaluate` | auth/opa/rpcauth/rpcauth.go:80-121 | a nil input gives InvalidArgument with no hook and no policy call; every error is a status; the policy is asked only after all hooks ran; nil implies the policy was asked |
| `RpcAuth.EvalAllowsIff` | auth/opa/rpcauth/rpcauth.go:75-79 | `Eval` is nil iff the input is non-nil, every hook passes on the input earlier hooks left, and the policy allows the input as all hooks left it |
| `RpcAuth.HookFailureSurfaces` | auth/opa/rpcauth/rpcauth.go:95-102 | when hook k is the first to fail, `Eval` returns its classified error, has invoked exactly k+1 hooks, never asks the policy, and keeps hook k's change to the input |
| `RpcAuth.PolicyDecides` | auth/opa/rpcauth/rpcauth.go:112-120 | once all hooks pass, an engine error becomes Internal, `false` becomes the fixed PermissionDenied message, and `true` becomes nil; the hooks' changes remain in every case |
| `RpcAuth.EvalErrorsClassified` | auth/opa/rpcauth/rpcauth.go:92-119 | every `Eval` error is a status error; its code is InvalidArgument, Internal or PermissionDenied unless it is the failing hook's own status error |
| `RpcAuth.Authorizer.New` | auth/opa/rpcauth/rpcauth.go:58-60 | the Authorizer holds exactly the given policy and hooks in the given order; no method of the Authorizer changes them afterwards |
| `RpcAuth.Authorizer.Eval` | auth/opa/rpcauth/rpcauth.go:80-121 | the loop over the hooks changes the input in place and returns what `Evaluate` specifies: the same error, the same final input, the same number of hooks invoked and the same policy call |
| `RpcAuth.Authorizer.Authorize` | auth/opa/rpcauth/rpcauth.go:124-137 | the handler is called iff the unary gate passes, and its result is returned unchanged; otherwise the gate's error is returned |
| `RpcAuth.Authorizer.AuthorizeClient` | auth/opa/rpcauth/rpcauth.go:140-153 | the invoker is called iff the unary gate passes, and its error is returned unchanged; otherwise the gate's error is returned |
| `RpcAuth.Authorizer.AuthorizeClientStream` | auth/opa/rpcauth/rpcauth.go:156-167 | a failure to open the stream is wrapped as Internal with no stream; otherwise a fresh wrapped stream for this method and Authorizer, with nothing sent |
| `RpcAuth.Authorizer.AuthorizeStream` | auth/opa/rpcauth/rpcauth.go:194-201 | the handler is given a fresh wrapped stream for this method and Authorizer, with nothing received or delivered |
| `RpcAuth.UnaryGate` | auth/opa/rpcauth/rpcauth.go:125-135 | passes iff the request is a proto message, its input is built, and `Eval` is nil; every failure is a status error; a non-proto request gives the Internal not-proto error; a build failure is wrapped as Internal; once the input is built the result is `Eval`'s own, unchanged |
| `RpcAuth.StreamGate` | auth/opa/rpcauth/rpcauth.go:179-189 | passes iff the message is a proto message, its input is built, and `Eval` is nil; a non-proto message gives the Internal not-proto error; a build failure is returned unwrapped; once the input is built the result is `Eval`'s own, unchanged |
| `RpcAuth.GatesDifferOnlyInBuildFailure` | auth/opa/rpcauth/rpcauth.go:183-186 | the unary and stream gates admit the same requests; their errors differ only when the input cannot be built |
| `RpcAuth.AuthorizeForwardsOnlyIfAllowed` | auth/opa/rpcauth/rpcauth.go:124-137 | the unary server handler runs iff the request is proto, its input is built, every hook passes, and the policy allows the hook-changed input; a rejection is always a status error: the not-proto error, the Internal-wrapped build failure, or `Eval`'s own error |
| `RpcAuth.AuthorizeClientForwardsOnlyIfAllowed` | auth/opa/rpcauth/rpcauth.go:140-153 | the same iff for the unary client invoker, with the same three rejection errors |
| `RpcAuth.Admitted` | auth/opa/rpcauth/rpcauth.go:177-191 | the messages let through on a stream are among those offered, and each passed the stream gate on its own |
| `RpcAuth.AdmittedIgnoresHistory` | auth/opa/rpcauth/rpcauth.go:177-191 | whether a message is let through does not depend on the earlier messages of the stream |
| `RpcAuth.WrappedClientStream.constructor` | auth/opa/rpcauth/rpcauth.go:161-165 | a client wrapper is bound to one method, Authorizer and input builder, and starts with nothing offered or sent |
| `RpcAuth.WrappedClientStream.SendMsg` | auth/opa/rpcauth/rpcauth.go:177-191 | the message is handed to the underlying stream only if it alone passes the gate, and then the underlying result is returned; otherwise the gate's error is returned and nothing is sent; it keeps sent equal to the admitted subset of offered |
| `RpcAuth.WrappedServerStream.constructor` | auth/opa/rpcauth/rpcauth.go:195-199 | a server wrapper is bound to one method, Authorizer and input builder, and starts with nothing received or delivered |
| `RpcAuth.WrappedServerStream.RecvMsg` | auth/opa/rpcauth/rpcauth.go:211-232 | a receive error is returned unchanged with no evaluation; a received message is logged first and then authorized; it is delivered (nil) only if it passes the gate; it keeps delivered equal to the admitted subset of received |
| `RpcAuthExamples.HookOrderMatters` | auth/opa/rpcauth/rpcauth.go:54-56 | a hook that depends on another hook's change passes after it and fails before it, with only one hook invoked |
| `RpcAuthExamples.VetoShortCircuits` | auth/opa/rpcauth/rpcauth.go:95-101 | a hook's own PermissionDenied status is returned unchanged; no later hook runs and the policy is not asked, whatever they are |
| `RpcAuthExamples.BuildFailureAsymmetry` | auth/opa/rpcauth/rpcauth.go:183-186 | the same builder failure reaches a unary caller as Internal and a stream caller as the raw error |
| `RpcAuthExamples.SendIndependence` | auth/opa/rpcauth/rpcauth.go:177-191 | on one client stream, with messages allow, deny, allow, the first and third are sent and the second send fails with the generic denial |
| `RpcAuthExamples.ReceiveThenAuthorize` | auth/opa/rpcauth/rpcauth.go:211-232 | on one server stream, an allowed message is received and delivered; a denied one is received but not delivered; an end-of-stream error comes back unchanged and receives nothing |

## Left out

- `NewWithPolicy` and the OPA engine. Policy parsing and evaluation live in an external library. The policy is an oracle over the input.
- `NewRPCAuthInput` and the input schema. The builder is an abstract function that may fail. Its document holds the method, the message and hook-editable extensions. A successful build is taken to give a non-nil input.
- The `req.(proto.Message)` type assertion is modelled by the `Payload` tag `Proto` / `NotProtoValue`.
- The verbosity-gated JSON logging in `Eval`. It is observability only and does not change any result.
- The `context.Context`. Hooks, the policy and the builder are deterministic functions of their inputs. Cancellation, deadlines and context-derived attributes are not modelled.
- Concurrency and the sharing of one Authorizer across goroutines. The model only records that its fields are immutable (`const`).
- gRPC transport behaviour. The underlying stream's results are parameters: `transport` for `SendMsg`, `wire` for `RecvMsg`, `openErr` for opening a client stream. The other stream operations pass through and are not modelled.
- `RpcAuth.Authorizer.AuthorizeStream`: the application's stream handler is code this model cannot see. The model returns the wrapped stream the handler is given. The handler's own returned error, which the source passes through, is not modelled.
- `RpcAuth.WrappedServerStream.RecvMsg`: the destination message is filled in even when authorization then fails. The model records this as the message entering `received` but not `delivered`.
- Sharing of the hook slice and the policy pointer. `New` stores the slice it is given (`rpcauth.go:59`), so a caller that passes `hooks...` shares that slice's backing array with the Authorizer, as `NewWithPolicy` does (`rpcauth.go:72`). Such a caller could still replace hooks afterwards, and the policy is a shared pointer too. The model copies both into immutable fields, so it assumes neither is changed after `New`.
- Status errors wrapped inside other errors (`errors.As` in newer `status.FromError`). An error counts as a status error only when it is one itself.
- The command-line front-ends `services/sansshell/client/client.go` and `services/exec/client/client.go`. They do flag parsing and output formatting over a proxy client that is not part of this model.
- `auth/mtls/flags/flags.go`. It loads certificate files and registers a flag at init time, which is I/O with no logic to state.
