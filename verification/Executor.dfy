// Running the operations of one target, and why a validated target runs
// safely: no nil pointer is followed, no number loses bits, and every
// operation gets exactly one well-formed result.
module Executor {
  import opened Options
  import opened Snmp
  import opened Models
  import opened Config
  import opened Validation

  datatype AuthAlgorithm = NoAuth | MD5 | SHA | SHA224 | SHA256 | SHA384 | SHA512
  datatype PrivAlgorithm = NoPriv | DES | AES | AES192 | AES256 | AES192C | AES256C
  datatype MsgFlags = NoAuthNoPriv | AuthNoPriv | AuthPriv
  datatype ProtocolVersion = Version1 | Version2c | Version3

  datatype Usm = Usm(flags: MsgFlags, userName: string, auth: AuthAlgorithm, authPassphrase: string,
                     priv: PrivAlgorithm, privPassphrase: string, contextName: string, contextEngineId: string)

  datatype Client = Client(target: string, port: nat, timeoutMs: int, retries: int,
                           community: string, version: ProtocolVersion, usm: Option<Usm>)

  datatype Built = NilPointer | Built(client: Client)

  function FlagsOf(level: string): MsgFlags {
    if level == "authNoPriv" then AuthNoPriv else if level == "authPriv" then AuthPriv else NoAuthNoPriv
  }

  function AuthOf(protocol: string): AuthAlgorithm {
    if protocol == "md5" then MD5 else if protocol == "sha" then SHA else if protocol == "sha224" then SHA224
    else if protocol == "sha256" then SHA256 else if protocol == "sha384" then SHA384 else if protocol == "sha512" then SHA512
    else NoAuth
  }

  function PrivOf(protocol: string): PrivAlgorithm {
    if protocol == "des" then DES else if protocol == "aes" then AES else if protocol == "aes192" then AES192
    else if protocol == "aes256" then AES256 else if protocol == "aes192c" then AES192C else if protocol == "aes256c" then AES256C
    else NoPriv
  }

  function AuthName(a: AuthAlgorithm): string {
    match a
    case NoAuth => "" case MD5 => "md5" case SHA => "sha" case SHA224 => "sha224"
    case SHA256 => "sha256" case SHA384 => "sha384" case SHA512 => "sha512"
  }

  function PrivName(a: PrivAlgorithm): string {
    match a
    case NoPriv => "" case DES => "des" case AES => "aes" case AES192 => "aes192"
    case AES256 => "aes256" case AES192C => "aes192c" case AES256C => "aes256c"
  }

  // Go's uint16(x) keeps the low sixteen bits.
  function TruncateToUint16(x: int): nat {
    x % 0x1_0000
  }

  function NewClient(t: Target): Built {
    if t.retries.None? then NilPointer
    else
      var base := Client(t.target, TruncateToUint16(t.port), t.timeoutMs, t.retries.value, t.community, Version2c, None);
      if t.version == "1" then Built(base.(version := Version1))
      else if t.version == "3" then
        if t.v3.None? then NilPointer
        else
          var c := t.v3.value;
          Built(base.(community := "", version := Version3,
                      usm := Some(Usm(FlagsOf(c.securityLevel), c.username, AuthOf(c.authProtocol), c.authPassphrase,
                                      PrivOf(c.privProtocol), c.privPassphrase, c.contextName, c.contextEngineId))))
      else Built(base)
  }

  // ---- one operation -------------------------------------------------------

  // What the agent sends back: variables, then possibly a failure.
  datatype Reply = Reply(pdus: seq<Pdu>, failure: Option<ApiError>)

  datatype Answer = NilPointerFollowed | Failed(error: ApiError) | Values(values: seq<VarBind>)

  const LIMIT_EXCEEDED := ApiError("result_limit_exceeded", "result limit exceeded")
  const CANCELED := ApiError("internal_error", "request canceled")
  const UNSUPPORTED := ApiError("snmp_error", "SNMP request failed")

  function FromConversion(c: Conversion): Answer {
    match c case Converted(values) => Values(values) case ResultLimitExceeded => Failed(LIMIT_EXCEEDED)
  }

  // The values are all of the reply's variables or none of them.
  function AnswerOf(op: Operation, reply: Reply, limit: int): Answer {
    if op.kind == "getbulk" && op.maxRepetitions.None? then NilPointerFollowed
    else if op.kind in {"get", "getnext", "getbulk"} then
      if reply.failure.Some? then Failed(reply.failure.value)
      else if |reply.pdus| > limit then Failed(LIMIT_EXCEEDED)
      else Values(ConvertAll(reply.pdus))
    else if op.kind == "walk" then
      if |reply.pdus| > limit && reply.pdus != [] then Failed(LIMIT_EXCEEDED)
      else if reply.failure.Some? then Failed(reply.failure.value)
      else Values(ConvertAll(reply.pdus))
    else Failed(UNSUPPORTED)
  }

  method ExecuteOperation(op: Operation, reply: Reply, limit: int) returns (o: Answer)
    ensures o == AnswerOf(op, reply, limit)
  {
    if op.kind == "get" || op.kind == "getnext" || op.kind == "getbulk" {
      if op.kind == "getbulk" && op.maxRepetitions.None? {
        return NilPointerFollowed;
      }
      if reply.failure.Some? {
        return Failed(reply.failure.value);
      }
      var c := ConvertPdu(reply.pdus, limit);
      return FromConversion(c);
    } else if op.kind == "walk" {
      var c := WalkConvert(reply.pdus, limit);
      if c.ResultLimitExceeded? {
        return Failed(LIMIT_EXCEEDED);
      }
      if reply.failure.Some? {
        return Failed(reply.failure.value);
      }
      return Values(c.values);
    }
    return Failed(UNSUPPORTED);
  }

  // A walk and a batch request that get the same variables report the same,
  // limit included: exactly unless the limit is negative and nothing came back.
  lemma WalkAgreesWithBatchExactlyWhen(walk: Operation, get: Operation, pdus: seq<Pdu>, limit: int)
    requires walk.kind == "walk" && get.kind == "get"
    ensures AnswerOf(walk, Reply(pdus, None), limit) == AnswerOf(get, Reply(pdus, None), limit)
            <==> limit >= 0 || pdus != []
  {}

  // ---- all operations of a target ------------------------------------------

  function ErrorResult(op: Operation, e: ApiError): OperationResult {
    OperationResult(op.kind, "error", [], Some(e))
  }

  function ResultOf(op: Operation, o: Answer): OperationResult
    requires !o.NilPointerFollowed?
  {
    match o
    case Failed(e) => ErrorResult(op, e)
    case Values(values) => OperationResult(op.kind, "ok", values, None)
  }

  predicate WellShapedResult(op: Operation, r: OperationResult, limit: int) {
    && r.kind == op.kind
    && ((r.status == "ok" && r.error.None? && |r.values| <= limit) || (r.status == "error" && r.error.Some? && r.values == []))
  }

  // One result per operation, in order, each either ok with at most limit
  // values and no error, or an error without values.
  ghost predicate WellShaped(ops: seq<Operation>, results: seq<OperationResult>, limit: int) {
    && |results| == |ops|
    && forall i :: 0 <= i < |ops| ==> WellShapedResult(ops[i], results[i], limit)
  }

  method ErrorResults(ops: seq<Operation>, e: ApiError) returns (out: seq<OperationResult>)
    ensures |out| == |ops| && forall i :: 0 <= i < |ops| ==> out[i] == ErrorResult(ops[i], e)
    ensures forall limit :: WellShaped(ops, out, limit)
  {
    out := [];
    for i := 0 to |ops|
      invariant |out| == i && forall k :: 0 <= k < i ==> out[k] == ErrorResult(ops[k], e)
    {
      out := out + [ErrorResult(ops[i], e)];
    }
  }

  // What the surroundings do during one execution: whether connecting fails,
  // which operations find the request canceled, and what the agent replies.
  datatype World = World(connectFailure: Option<ApiError>, canceled: nat -> bool, reply: nat -> Reply)

  datatype Execution = Panicked | Finished(results: seq<OperationResult>)

  // The operation at i follows a nil MaxRepetitions.
  predicate Crashes(t: Target, w: World, i: nat)
    requires i < |t.operations|
  {
    t.operations[i].kind == "getbulk" && t.operations[i].maxRepetitions.None? && !w.canceled(i)
  }

  function ResultAt(t: Target, w: World, limit: int, i: nat): OperationResult
    requires i < |t.operations| && !Crashes(t, w, i)
  {
    if w.canceled(i) then ErrorResult(t.operations[i], CANCELED)
    else ResultOf(t.operations[i], AnswerOf(t.operations[i], w.reply(i), limit))
  }

  // What executing all operations of a target comes to: connecting comes before
  // any operation, and each operation's result depends on its own reply only.
  function ExecutionOf(t: Target, w: World, limit: int): Execution {
    if NewClient(t).NilPointer? then Panicked
    else if w.connectFailure.Some? then
      Finished(seq(|t.operations|, i requires 0 <= i < |t.operations| => ErrorResult(t.operations[i], w.connectFailure.value)))
    else if exists i :: 0 <= i < |t.operations| && Crashes(t, w, i) then Panicked
    else Finished(seq(|t.operations|, i requires 0 <= i < |t.operations| => ResultAt(t, w, limit, i)))
  }

  method Execute(t: Target, w: World, limit: int) returns (r: Execution)
    ensures r == ExecutionOf(t, w, limit)
    ensures r.Panicked? <==> NewClient(t).NilPointer? || (w.connectFailure.None? && exists i :: 0 <= i < |t.operations| && Crashes(t, w, i))
  {
    var client := NewClient(t);
    if client.NilPointer? {
      return Panicked;
    }
    if w.connectFailure.Some? {
      var errors := ErrorResults(t.operations, w.connectFailure.value);
      return Finished(errors);
    }
    var out: seq<OperationResult> := [];
    var i := 0;
    while i < |t.operations|
      invariant i <= |t.operations| && |out| == i
      invariant forall k :: 0 <= k < i ==> !Crashes(t, w, k) && out[k] == ResultAt(t, w, limit, k)
    {
      var op := t.operations[i];
      if w.canceled(i) {
        out := out + [ErrorResult(op, CANCELED)];
      } else {
        var o := ExecuteOperation(op, w.reply(i), limit);
        if o.NilPointerFollowed? {
          assert Crashes(t, w, i);
          return Panicked;
        }
        out := out + [ResultOf(op, o)];
      }
      i := i + 1;
    }
    return Finished(out);
  }

  // ---- validated targets run safely -------------------------------------------

  // Nothing of the credentials is lost or exchanged on the way to the client.
  predicate CarriesCredentials(u: Usm, c: V3Credentials) {
    && u.userName == c.username && u.contextName == c.contextName && u.contextEngineId == c.contextEngineId
    && AuthName(u.auth) == c.authProtocol && u.authPassphrase == c.authPassphrase
    && PrivName(u.priv) == c.privProtocol && u.privPassphrase == c.privPassphrase
  }

  lemma ProtocolsAreNamed(c: V3Credentials)
    requires V3Acceptable(c)
    ensures AuthName(AuthOf(c.authProtocol)) == c.authProtocol
    ensures PrivName(PrivOf(c.privProtocol)) == c.privProtocol
  {}

  lemma FlagsAnnounceProtocols(c: V3Credentials)
    requires V3Acceptable(c)
    ensures AuthOf(c.authProtocol) != NoAuth <==> FlagsOf(c.securityLevel) != NoAuthNoPriv
    ensures PrivOf(c.privProtocol) != NoPriv <==> FlagsOf(c.securityLevel) == AuthPriv
    ensures AuthOf(c.authProtocol) != NoAuth <==> c.authPassphrase != ""
    ensures PrivOf(c.privProtocol) != NoPriv <==> c.privPassphrase != ""
  {}

  // For every accepted target in normal form: the client is built, its port is
  // the requested one, its version and credentials are the requested ones, and
  // its message flags announce exactly the protocols it carries.
  lemma ValidatedClientIsFaithful(t: Target, cfg: Config)
    requires cfg.Valid() && TargetAcceptable(t, cfg)
    ensures var n := NormalTarget(t, cfg);
            && NewClient(n).Built?
            && (var c := NewClient(n).client;
                && c.target == t.target && c.timeoutMs == n.timeoutMs && c.retries == n.retries.value >= 0
                && c.port == n.port && 1 <= c.port <= 65535
                && (c.version == Version1 <==> n.version == "1")
                && (c.version == Version2c <==> n.version == "2c")
                && (c.version == Version3 <==> n.version == "3") && (c.version == Version3 <==> c.usm.Some?)
                && (c.version != Version3 ==> c.community == t.community != "")
                && (c.usm.Some? ==>
                      && CarriesCredentials(c.usm.value, t.v3.value)
                      && (c.usm.value.auth != NoAuth <==> c.usm.value.flags != NoAuthNoPriv)
                      && (c.usm.value.priv != NoPriv <==> c.usm.value.flags == AuthPriv)
                      && (c.usm.value.auth != NoAuth <==> c.usm.value.authPassphrase != "")
                      && (c.usm.value.priv != NoPriv <==> c.usm.value.privPassphrase != "")))
  {
    if t.v3.Some? {
      FlagsAnnounceProtocols(t.v3.value);
      ProtocolsAreNamed(t.v3.value);
    }
  }

  // No accepted operation reaches the default of the dispatch or lacks what
  // its branch needs.
  lemma ValidatedOperationsDispatch(op: Operation, version: string, cfg: Config)
    requires OpAcceptable(op, version, cfg)
    ensures NormalOp(op).kind in {"get", "getnext", "getbulk", "walk"}
    ensures NormalOp(op).kind == "getbulk" ==> NormalOp(op).maxRepetitions.Some? && NormalOp(op).maxRepetitions.value > 0 && version != "1"
  {}

  lemma ValidatedTargetNeverCrashes(t: Target, cfg: Config, w: World)
    requires TargetAcceptable(t, cfg)
    ensures var n := NormalTarget(t, cfg);
            |n.operations| == |t.operations|
            && forall i :: 0 <= i < |t.operations| ==> n.operations[i].kind == t.operations[i].kind && !Crashes(n, w, i)
  {
    var n := NormalTarget(t, cfg);
    forall i | 0 <= i < |t.operations|
      ensures n.operations[i].kind == t.operations[i].kind && !Crashes(n, w, i)
    {
      ValidatedOperationsDispatch(t.operations[i], VersionOf(t), cfg);
    }
  }

  // Operation i is answered in full.
  predicate Succeeds(w: World, limit: int, i: nat) {
    w.connectFailure.None? && !w.canceled(i) && w.reply(i).failure.None? && |w.reply(i).pdus| <= limit
  }

  // A result tells what became of operation i: ok, reporting all that the agent
  // sent, exactly when the operation is answered in full; otherwise the error that
  // stands in the way.
  ghost predicate Tells(r: OperationResult, w: World, limit: int, i: nat) {
    && (r.status == "ok" <==> Succeeds(w, limit, i))
    && (r.status == "ok" ==> r.values == ConvertAll(w.reply(i).pdus) && ReportsAll(r.values, w.reply(i).pdus))
    && (r.status != "ok" ==>
          r.error.Some? &&
          if w.connectFailure.Some? then r.error == w.connectFailure
          else if w.canceled(i) then r.error.value == ApiError("internal_error", "request canceled")
          else r.error == w.reply(i).failure
               || (|w.reply(i).pdus| > limit && r.error.value == ApiError("result_limit_exceeded", "result limit exceeded")))
  }

  lemma ResultAtIsWellShaped(t: Target, w: World, limit: nat, i: nat)
    requires i < |t.operations| && t.operations[i].kind in {"get", "getnext", "getbulk", "walk"} && !Crashes(t, w, i)
    requires w.connectFailure.None?
    ensures WellShapedResult(t.operations[i], ResultAt(t, w, limit, i), limit)
    ensures Tells(ResultAt(t, w, limit, i), w, limit, i)
  {}

  // A kind that validation would reject is an SNMP error, whatever comes back.
  lemma UnknownKindsFail(op: Operation, reply: Reply, limit: int)
    requires op.kind !in {"get", "getnext", "getbulk", "walk"}
    ensures AnswerOf(op, reply, limit) == Failed(ApiError("snmp_error", "SNMP request failed"))
  {}

  // Validation and client know the same protocol names: those of the algorithms.
  lemma ProtocolNamesAreTheAlgorithms(v: string)
    ensures AuthProtocol(v) <==> exists a: AuthAlgorithm :: a != NoAuth && AuthName(a) == v
    ensures PrivProtocol(v) <==> exists a: PrivAlgorithm :: a != NoPriv && PrivName(a) == v
  {
    if AuthProtocol(v) { assert AuthName(AuthOf(v)) == v && AuthOf(v) != NoAuth; }
    if PrivProtocol(v) { assert PrivName(PrivOf(v)) == v && PrivOf(v) != NoPriv; }
  }

  // Whatever the network does, executing a validated target does not panic and
  // gives one well-shaped result per requested operation, which tells what
  // became of it.
  lemma ValidatedExecution(t: Target, cfg: Config, w: World)
    requires cfg.Valid() && TargetAcceptable(t, cfg)
    ensures var x := ExecutionOf(NormalTarget(t, cfg), w, cfg.maxVarbindsPerOperation);
            && x.Finished?
            && WellShaped(t.operations, x.results, cfg.maxVarbindsPerOperation)
            && forall i :: 0 <= i < |t.operations| ==> Tells(x.results[i], w, cfg.maxVarbindsPerOperation, i)
  {
    var n := NormalTarget(t, cfg);
    ValidatedClientIsFaithful(t, cfg);
    ValidatedTargetNeverCrashes(t, cfg, w);
    if w.connectFailure.None? {
      forall i | 0 <= i < |t.operations|
        ensures var r := ResultAt(n, w, cfg.maxVarbindsPerOperation, i);
                WellShapedResult(t.operations[i], r, cfg.maxVarbindsPerOperation) && Tells(r, w, cfg.maxVarbindsPerOperation, i)
      {
        ValidatedOperationsDispatch(t.operations[i], VersionOf(t), cfg);
        ResultAtIsWellShaped(n, w, cfg.maxVarbindsPerOperation, i);
      }
    }
  }

  method ExecuteValidated(t: Target, cfg: Config, w: World) returns (results: seq<OperationResult>)
    requires cfg.Valid() && TargetAcceptable(t, cfg)
    ensures ExecutionOf(NormalTarget(t, cfg), w, cfg.maxVarbindsPerOperation) == Finished(results)
    ensures WellShaped(t.operations, results, cfg.maxVarbindsPerOperation)
    ensures forall i :: 0 <= i < |t.operations| ==> Tells(results[i], w, cfg.maxVarbindsPerOperation, i)
  {
    ValidatedExecution(t, cfg, w);
    var r := Execute(NormalTarget(t, cfg), w, cfg.maxVarbindsPerOperation);
    results := r.results;
  }
}
