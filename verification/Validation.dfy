// Query validation: the checks in the order the gateway makes them, the
// normalisation it does on the way, and what acceptance means.
module Validation {
  import opened Options
  import opened Text
  import opened Oid
  import opened Models
  import opened Config

  datatype V3Fault = Missing | BlankUsername | FieldsForNoAuth | BadAuthProtocol | NoAuthPassphrase
                   | FieldsForAuthOnly | BadPrivProtocol | NoPrivPassphrase | BadSecurityLevel

  datatype OpFault = BulkOnV1 | UnexpectedFields | NoOids | TooManyOids | BadOid(at: nat)
                   | ZeroRepetitions | BadRootOid | UnknownType

  datatype TargetFault = BlankTarget | BadPort | NoCommunity | UnexpectedV3 | UnexpectedCommunity | BadV3(v3: V3Fault)
                       | BadVersion | NegativeTimeout | NegativeRetries | NoOperations | TooManyOperations
                       | AtOperation(j: nat, op: OpFault)

  datatype QueryError = NoRequests | TooManyRequests | AtTarget(i: nat, fault: TargetFault)

  // ---- what is acceptable, as documented -----------------------------------

  // The documented protocol names.
  const AUTH_NAMES := {"md5", "sha", "sha224", "sha256", "sha384", "sha512"}
  const PRIV_NAMES := {"des", "aes", "aes192", "aes256", "aes192c", "aes256c"}

  predicate V3Acceptable(c: V3Credentials) {
    && !Blank(c.username)
    && (|| (c.securityLevel == "noAuthNoPriv" && c.authProtocol == c.authPassphrase == c.privProtocol == c.privPassphrase == "")
        || (c.securityLevel == "authNoPriv" && c.authProtocol in AUTH_NAMES && c.authPassphrase != "" && c.privProtocol == c.privPassphrase == "")
        || (c.securityLevel == "authPriv" && c.authProtocol in AUTH_NAMES && c.authPassphrase != ""
            && c.privProtocol in PRIV_NAMES && c.privPassphrase != ""))
  }

  predicate OidsAcceptable(oids: seq<string>, cfg: Config) {
    0 < |oids| <= cfg.maxOidsPerOperation && forall i :: 0 <= i < |oids| ==> ValidOid(oids[i])
  }

  predicate OpAcceptable(op: Operation, version: string, cfg: Config) {
    || (op.kind in {"get", "getnext"} && op.rootOid == "" && op.nonRepeaters.None? && op.maxRepetitions.None? && OidsAcceptable(op.oids, cfg))
    || (op.kind == "getbulk" && version != "1" && op.rootOid == "" && op.maxRepetitions != Some(0) && OidsAcceptable(op.oids, cfg))
    || (op.kind == "walk" && op.oids == [] && op.nonRepeaters.None? && op.maxRepetitions.None? && ValidOid(op.rootOid))
  }

  function VersionOf(t: Target): string {
    if t.version == "" then "2c" else t.version
  }

  predicate HeaderAcceptable(t: Target, cfg: Config) {
    && !Blank(t.target)
    && 0 <= t.port <= 65535
    && (if VersionOf(t) == "3" then t.community == "" && t.v3.Some? && V3Acceptable(t.v3.value)
        else VersionOf(t) in {"1", "2c"} && t.community != "" && t.v3.None?)
    && t.timeoutMs >= 0
    && (if t.retries.Some? then t.retries.value >= 0 else cfg.defaultSnmpRetries >= 0)
    && 0 < |t.operations| <= cfg.maxOperationsPerTarget
  }

  predicate TargetAcceptable(t: Target, cfg: Config) {
    && HeaderAcceptable(t, cfg)
    && forall j :: 0 <= j < |t.operations| ==> OpAcceptable(t.operations[j], VersionOf(t), cfg)
  }

  predicate QueryAcceptable(ts: seq<Target>, cfg: Config) {
    0 < |ts| <= cfg.maxTargetsPerQuery && forall i :: 0 <= i < |ts| ==> TargetAcceptable(ts[i], cfg)
  }

  // ---- the normal form of an accepted request ------------------------------

  // s with f applied to its first k elements.
  function MapUpTo<T>(f: T -> T, s: seq<T>, k: nat): (r: seq<T>)
    ensures |r| == |s| && forall i :: 0 <= i < |s| ==> r[i] == if i < k then f(s[i]) else s[i]
  {
    seq(|s|, i requires 0 <= i < |s| => if i < k then f(s[i]) else s[i])
  }

  function NormalOids(oids: seq<string>): seq<string> {
    MapUpTo(NormalizeOid, oids, |oids|)
  }

  function NormalOp(op: Operation): Operation {
    if op.kind == "walk" then op.(rootOid := NormalizeOid(op.rootOid))
    else op.(oids := NormalOids(op.oids),
             maxRepetitions := if op.kind == "getbulk" && op.maxRepetitions.None? then Some(10) else op.maxRepetitions)
  }

  function NormalOps(ops: seq<Operation>): seq<Operation> {
    MapUpTo(NormalOp, ops, |ops|)
  }

  // Whole milliseconds of a positive duration, as Duration.Milliseconds gives them.
  function Milliseconds(ns: int): int {
    if ns >= 0 then ns / 1_000_000 else -(-ns / 1_000_000)
  }

  function WithDefaults(t: Target, cfg: Config): Target {
    t.(port := if t.port == 0 then 161 else t.port,
       version := VersionOf(t),
       timeoutMs := if t.timeoutMs == 0 then Milliseconds(cfg.defaultSnmpTimeoutNs) else t.timeoutMs,
       retries := if t.retries.None? then Some(cfg.defaultSnmpRetries) else t.retries)
  }

  function NormalTarget(t: Target, cfg: Config): Target {
    WithDefaults(t, cfg).(operations := NormalOps(t.operations))
  }

  function TargetNormalizer(cfg: Config): Target -> Target {
    t => NormalTarget(t, cfg)
  }

  function NormalQuery(ts: seq<Target>, cfg: Config): seq<Target> {
    MapUpTo(TargetNormalizer(cfg), ts, |ts|)
  }

  // ---- the checks in order, and the state each leaves ----------------------

  predicate AuthProtocol(v: string) {
    v == "md5" || v == "sha" || v == "sha224" || v == "sha256" || v == "sha384" || v == "sha512"
  }

  predicate PrivProtocol(v: string) {
    v == "des" || v == "aes" || v == "aes192" || v == "aes256" || v == "aes192c" || v == "aes256c"
  }

  function CheckV3(v3: Option<V3Credentials>): Option<V3Fault> {
    if v3.None? then Some(Missing)
    else
      var c := v3.value;
      if Blank(c.username) then Some(BlankUsername)
      else if c.securityLevel == "noAuthNoPriv" then
        if c.authProtocol != "" || c.authPassphrase != "" || c.privProtocol != "" || c.privPassphrase != "" then Some(FieldsForNoAuth) else None
      else if c.securityLevel == "authNoPriv" then
        if !AuthProtocol(c.authProtocol) then Some(BadAuthProtocol)
        else if c.authPassphrase == "" then Some(NoAuthPassphrase)
        else if c.privProtocol != "" || c.privPassphrase != "" then Some(FieldsForAuthOnly)
        else None
      else if c.securityLevel == "authPriv" then
        if !AuthProtocol(c.authProtocol) then Some(BadAuthProtocol)
        else if c.authPassphrase == "" then Some(NoAuthPassphrase)
        else if !PrivProtocol(c.privProtocol) then Some(BadPrivProtocol)
        else if c.privPassphrase == "" then Some(NoPrivPassphrase)
        else None
      else Some(BadSecurityLevel)
  }

  function FirstIndex<T>(bad: T -> bool, s: seq<T>): (k: nat)
    ensures k <= |s|
    ensures forall i :: 0 <= i < k ==> !bad(s[i])
    ensures k < |s| ==> bad(s[k])
  {
    if s == [] || bad(s[0]) then 0 else 1 + FirstIndex(bad, s[1..])
  }

  function FirstInvalid(oids: seq<string>): (k: nat)
    ensures k <= |oids|
    ensures forall i :: 0 <= i < k ==> ValidOid(oids[i])
    ensures k < |oids| ==> !ValidOid(oids[k])
  {
    FirstIndex(o => !ValidOid(o), oids)
  }

  function CheckOids(oids: seq<string>, cfg: Config): Option<OpFault> {
    if |oids| == 0 then Some(NoOids)
    else if |oids| > cfg.maxOidsPerOperation then Some(TooManyOids)
    else if FirstInvalid(oids) < |oids| then Some(BadOid(FirstInvalid(oids)))
    else None
  }

  // The OIDs before the first invalid one are already normalised.
  function OidsAfter(oids: seq<string>, cfg: Config): seq<string> {
    if 0 < |oids| <= cfg.maxOidsPerOperation then MapUpTo(NormalizeOid, oids, FirstInvalid(oids)) else oids
  }

  function CheckOp(op: Operation, cfg: Config): Option<OpFault> {
    if op.kind == "get" || op.kind == "getnext" then
      if op.rootOid != "" || op.nonRepeaters.Some? || op.maxRepetitions.Some? then Some(UnexpectedFields)
      else CheckOids(op.oids, cfg)
    else if op.kind == "getbulk" then
      if op.rootOid != "" then Some(UnexpectedFields)
      else if CheckOids(op.oids, cfg).Some? then CheckOids(op.oids, cfg)
      else if op.maxRepetitions == Some(0) then Some(ZeroRepetitions)
      else None
    else if op.kind == "walk" then
      if |op.oids| > 0 || op.nonRepeaters.Some? || op.maxRepetitions.Some? then Some(UnexpectedFields)
      else if !ValidOid(op.rootOid) then Some(BadRootOid)
      else None
    else Some(UnknownType)
  }

  function OpAfter(op: Operation, cfg: Config): Operation {
    if CheckOp(op, cfg).None? then NormalOp(op)
    else if op.kind in {"get", "getnext", "getbulk"} && CheckOp(op, cfg) != Some(UnexpectedFields) then op.(oids := OidsAfter(op.oids, cfg))
    else op
  }

  function CheckOpFor(op: Operation, version: string, cfg: Config): Option<OpFault> {
    if version == "1" && op.kind == "getbulk" then Some(BulkOnV1) else CheckOp(op, cfg)
  }

  function CheckCredentials(version: string, community: string, v3: Option<V3Credentials>): Option<TargetFault> {
    if version == "1" || version == "2c" then
      if community == "" then Some(NoCommunity)
      else if v3.Some? then Some(UnexpectedV3)
      else None
    else if version == "3" then
      if community != "" then Some(UnexpectedCommunity)
      else match CheckV3(v3) case Some(f) => Some(BadV3(f)) case None => None
    else Some(BadVersion)
  }

  // The target's own fields, in the order they are checked and defaulted.
  function HeaderStep(t: Target, cfg: Config): (Target, Option<TargetFault>) {
    if Blank(t.target) then (t, Some(BlankTarget))
    else
      var t1 := t.(port := if t.port == 0 then 161 else t.port);
      if t1.port < 1 || t1.port > 65535 then (t1, Some(BadPort))
      else
        var t2 := t1.(version := VersionOf(t));
        var fault := CheckCredentials(t2.version, t.community, t.v3);
        if fault.Some? then (t2, fault)
        else if t.timeoutMs < 0 then (t2, Some(NegativeTimeout))
        else
          var t3 := WithDefaults(t, cfg);
          if t3.retries.value < 0 then (t3, Some(NegativeRetries))
          else if |t.operations| == 0 then (t3, Some(NoOperations))
          else if |t.operations| > cfg.maxOperationsPerTarget then (t3, Some(TooManyOperations))
          else (t3, None)
  }

  function FirstBadOp(ops: seq<Operation>, version: string, cfg: Config): (k: nat)
    ensures k <= |ops|
    ensures forall j :: 0 <= j < k ==> CheckOpFor(ops[j], version, cfg).None?
    ensures k < |ops| ==> CheckOpFor(ops[k], version, cfg).Some?
  {
    FirstIndex(op => CheckOpFor(op, version, cfg).Some?, ops)
  }

  // Operations before the first bad one are normalised, that one is left as its
  // check left it, and later ones are untouched.
  function OpsAfter(ops: seq<Operation>, version: string, cfg: Config): seq<Operation> {
    var k := FirstBadOp(ops, version, cfg);
    var done := MapUpTo(NormalOp, ops, k);
    if k == |ops| || (version == "1" && ops[k].kind == "getbulk") then done else done[k := OpAfter(ops[k], cfg)]
  }

  function OpsFault(ops: seq<Operation>, version: string, cfg: Config): Option<TargetFault> {
    var k := FirstBadOp(ops, version, cfg);
    if k < |ops| then Some(AtOperation(k, CheckOpFor(ops[k], version, cfg).value)) else None
  }

  lemma MapOneMore<T>(f: T -> T, s: seq<T>, k: nat)
    requires k < |s|
    ensures MapUpTo(f, s, k)[k := f(s[k])] == MapUpTo(f, s, k + 1)
  {}

  function CheckTarget(t: Target, cfg: Config): Option<TargetFault> {
    var (header, fault) := HeaderStep(t, cfg);
    if fault.Some? then fault else OpsFault(t.operations, VersionOf(t), cfg)
  }

  function TargetAfter(t: Target, cfg: Config): Target {
    var (header, fault) := HeaderStep(t, cfg);
    if fault.Some? then header else header.(operations := OpsAfter(t.operations, VersionOf(t), cfg))
  }

  function FirstBadTarget(ts: seq<Target>, cfg: Config): (k: nat)
    ensures k <= |ts|
    ensures forall i :: 0 <= i < k ==> CheckTarget(ts[i], cfg).None?
    ensures k < |ts| ==> CheckTarget(ts[k], cfg).Some?
  {
    FirstIndex(t => CheckTarget(t, cfg).Some?, ts)
  }

  function CheckQuery(ts: seq<Target>, cfg: Config): Option<QueryError> {
    if |ts| == 0 then Some(NoRequests)
    else if |ts| > cfg.maxTargetsPerQuery then Some(TooManyRequests)
    else
      var k := FirstBadTarget(ts, cfg);
      if k < |ts| then Some(AtTarget(k, CheckTarget(ts[k], cfg).value)) else None
  }

  function QueryAfter(ts: seq<Target>, cfg: Config): seq<Target> {
    var k := FirstBadTarget(ts, cfg);
    if |ts| == 0 || |ts| > cfg.maxTargetsPerQuery then ts
    else
      var done := MapUpTo(TargetNormalizer(cfg), ts, k);
      if k == |ts| then done else done[k := TargetAfter(ts[k], cfg)]
  }

  // ---- acceptance ---------------------------------------------------------

  lemma V3CheckMeansAcceptable(v3: Option<V3Credentials>)
    ensures CheckV3(v3).None? <==> v3.Some? && V3Acceptable(v3.value)
  {}

  lemma OpCheckMeansAcceptable(op: Operation, version: string, cfg: Config)
    ensures CheckOpFor(op, version, cfg).None? <==> OpAcceptable(op, version, cfg)
    ensures CheckOp(op, cfg).None? ==> OpAfter(op, cfg) == NormalOp(op)
  {}

  lemma HeaderCheckMeansAcceptable(t: Target, cfg: Config)
    ensures HeaderStep(t, cfg).1.None? <==> HeaderAcceptable(t, cfg)
    ensures HeaderStep(t, cfg).1.None? ==> HeaderStep(t, cfg).0 == WithDefaults(t, cfg)
  {
    V3CheckMeansAcceptable(t.v3);
  }

  // A target passes exactly when it is acceptable, and then becomes its normal
  // form; otherwise an operation is blamed only after the header passed, and
  // it is the first unacceptable one.
  lemma TargetCheckMeansAcceptable(t: Target, cfg: Config)
    ensures CheckTarget(t, cfg).None? <==> TargetAcceptable(t, cfg)
    ensures TargetAcceptable(t, cfg) ==> TargetAfter(t, cfg) == NormalTarget(t, cfg)
    ensures forall j: nat, f :: CheckTarget(t, cfg) == Some(AtOperation(j, f)) ==>
              && HeaderAcceptable(t, cfg) && j < |t.operations|
              && !OpAcceptable(t.operations[j], VersionOf(t), cfg)
              && forall k :: 0 <= k < j ==> OpAcceptable(t.operations[k], VersionOf(t), cfg)
  {
    HeaderCheckMeansAcceptable(t, cfg);
    forall j | 0 <= j < |t.operations|
      ensures CheckOpFor(t.operations[j], VersionOf(t), cfg).None? <==> OpAcceptable(t.operations[j], VersionOf(t), cfg)
    {
      OpCheckMeansAcceptable(t.operations[j], VersionOf(t), cfg);
    }
  }

  // A query passes exactly when it is acceptable, and then every target is in
  // normal form; a rejection names the first unacceptable target.
  lemma QueryCheckMeansAcceptable(ts: seq<Target>, cfg: Config)
    ensures CheckQuery(ts, cfg).None? <==> QueryAcceptable(ts, cfg)
    ensures QueryAcceptable(ts, cfg) ==> QueryAfter(ts, cfg) == NormalQuery(ts, cfg)
    ensures forall i: nat, f :: CheckQuery(ts, cfg) == Some(AtTarget(i, f)) ==>
              && i < |ts| && !TargetAcceptable(ts[i], cfg) && CheckTarget(ts[i], cfg) == Some(f)
              && (forall k :: 0 <= k < i ==> TargetAcceptable(ts[k], cfg) && QueryAfter(ts, cfg)[k] == NormalTarget(ts[k], cfg))
              && (forall k :: i < k < |ts| ==> QueryAfter(ts, cfg)[k] == ts[k])
  {
    forall i | 0 <= i < |ts| ensures CheckTarget(ts[i], cfg).None? <==> TargetAcceptable(ts[i], cfg) {
      TargetCheckMeansAcceptable(ts[i], cfg);
    }
  }

  // ---- which fault is reported ---------------------------------------------------

  // What each fault says of the input, on its own.
  ghost predicate V3Violates(f: V3Fault, v3: Option<V3Credentials>) {
    if v3.None? then f == Missing
    else
      var c := v3.value;
      var auth, priv := c.securityLevel in {"authNoPriv", "authPriv"}, c.securityLevel == "authPriv";
      match f
      case Missing => false
      case BlankUsername => forall j :: 0 <= j < |c.username| ==> IsSpace(c.username[j])
      case FieldsForNoAuth =>
        c.securityLevel == "noAuthNoPriv" && !(c.authProtocol == c.authPassphrase == c.privProtocol == c.privPassphrase == "")
      case BadAuthProtocol => auth && c.authProtocol !in AUTH_NAMES
      case NoAuthPassphrase => auth && c.authPassphrase == ""
      case FieldsForAuthOnly => c.securityLevel == "authNoPriv" && !(c.privProtocol == c.privPassphrase == "")
      case BadPrivProtocol => priv && c.privProtocol !in PRIV_NAMES
      case NoPrivPassphrase => priv && c.privPassphrase == ""
      case BadSecurityLevel => c.securityLevel !in {"noAuthNoPriv", "authNoPriv", "authPriv"}
  }

  // The place of a fault among the checks.
  function V3Order(f: V3Fault): nat {
    match f
    case Missing => 0 case BlankUsername => 1 case FieldsForNoAuth => 2 case BadAuthProtocol => 3 case NoAuthPassphrase => 4
    case FieldsForAuthOnly => 5 case BadPrivProtocol => 6 case NoPrivPassphrase => 7 case BadSecurityLevel => 8
  }

  // The fault reported is violated, and none checked before it is.
  lemma V3FaultIsTheFirst(v3: Option<V3Credentials>, f: V3Fault)
    ensures CheckV3(v3) == Some(f) <==> V3Violates(f, v3) && forall g :: V3Violates(g, v3) ==> V3Order(f) <= V3Order(g)
  {
    if v3.Some? { BlankMeansAllSpace(v3.value.username); }
    if CheckV3(v3).Some? {
      assert V3Violates(CheckV3(v3).value, v3);
    }
  }

  ghost predicate OpViolates(f: OpFault, op: Operation, version: string, cfg: Config) {
    match f
    case BulkOnV1 => version == "1" && op.kind == "getbulk"
    case UnexpectedFields =>
      || (op.kind in {"get", "getnext"} && (op.rootOid != "" || op.nonRepeaters.Some? || op.maxRepetitions.Some?))
      || (op.kind == "getbulk" && op.rootOid != "")
      || (op.kind == "walk" && (op.oids != [] || op.nonRepeaters.Some? || op.maxRepetitions.Some?))
    case NoOids => op.kind in {"get", "getnext", "getbulk"} && op.oids == []
    case TooManyOids => op.kind in {"get", "getnext", "getbulk"} && |op.oids| > cfg.maxOidsPerOperation
    case BadOid(at) => op.kind in {"get", "getnext", "getbulk"} && at < |op.oids| && !MatchesPattern(op.oids[at])
    case ZeroRepetitions => op.kind == "getbulk" && op.maxRepetitions == Some(0)
    case BadRootOid => op.kind == "walk" && !MatchesPattern(op.rootOid)
    case UnknownType => op.kind !in {"get", "getnext", "getbulk", "walk"}
  }

  function OpOrder(f: OpFault): nat {
    match f
    case BulkOnV1 => 0 case UnexpectedFields => 1 case NoOids => 2 case TooManyOids => 3 case BadOid(_) => 4
    case ZeroRepetitions => 5 case BadRootOid => 6 case UnknownType => 7
  }

  // An earlier check, or of OIDs an earlier one.
  predicate OpBefore(f: OpFault, g: OpFault) {
    if f.BadOid? && g.BadOid? then f.at <= g.at else OpOrder(f) <= OpOrder(g)
  }

  lemma FirstInvalidIsBad(op: Operation)
    ensures forall k :: 0 <= k < |op.oids| ==> (ValidOid(op.oids[k]) <==> MatchesPattern(op.oids[k]))
    ensures ValidOid(op.rootOid) <==> MatchesPattern(op.rootOid)
  {
    RecogniserIsThePattern(op.rootOid);
    forall k | 0 <= k < |op.oids| ensures ValidOid(op.oids[k]) <==> MatchesPattern(op.oids[k]) {
      RecogniserIsThePattern(op.oids[k]);
    }
  }

  lemma OpFaultIsTheFirst(op: Operation, version: string, cfg: Config, f: OpFault)
    requires CheckOpFor(op, version, cfg) == Some(f)
    ensures OpViolates(f, op, version, cfg)
    ensures forall g :: OpViolates(g, op, version, cfg) ==> OpBefore(f, g)
  {
    FirstInvalidIsBad(op);
  }

  ghost predicate TargetViolates(f: TargetFault, t: Target, cfg: Config) {
    match f
    case BlankTarget => forall j :: 0 <= j < |t.target| ==> IsSpace(t.target[j])
    case BadPort => t.port < 0 || t.port > 65535
    case NoCommunity => t.version in {"", "1", "2c"} && t.community == ""
    case UnexpectedV3 => t.version in {"", "1", "2c"} && t.v3.Some?
    case UnexpectedCommunity => t.version == "3" && t.community != ""
    case BadV3(v3) => t.version == "3" && CheckV3(t.v3) == Some(v3)
    case BadVersion => t.version !in {"", "1", "2c", "3"}
    case NegativeTimeout => t.timeoutMs < 0
    case NegativeRetries => if t.retries.Some? then t.retries.value < 0 else cfg.defaultSnmpRetries < 0
    case NoOperations => t.operations == []
    case TooManyOperations => |t.operations| > cfg.maxOperationsPerTarget
    case AtOperation(j, op) => j < |t.operations| && CheckOpFor(t.operations[j], if t.version == "" then "2c" else t.version, cfg) == Some(op)
  }

  function TargetOrder(f: TargetFault): nat {
    match f
    case BlankTarget => 0 case BadPort => 1 case NoCommunity => 2 case UnexpectedV3 => 3 case UnexpectedCommunity => 4
    case BadV3(_) => 5 case BadVersion => 6 case NegativeTimeout => 7 case NegativeRetries => 8
    case NoOperations => 9 case TooManyOperations => 10 case AtOperation(_, _) => 11
  }

  predicate TargetBefore(f: TargetFault, g: TargetFault) {
    if f.AtOperation? && g.AtOperation? then f.j <= g.j else TargetOrder(f) <= TargetOrder(g)
  }

  lemma HeaderFaultIsTheFirst(t: Target, cfg: Config, f: TargetFault)
    requires HeaderStep(t, cfg).1 == Some(f)
    ensures !f.AtOperation? && TargetViolates(f, t, cfg)
    ensures forall g :: TargetViolates(g, t, cfg) ==> TargetOrder(f) <= TargetOrder(g)
  {
    BlankMeansAllSpace(t.target);
  }

  lemma SoundHeaderViolatesNothing(t: Target, cfg: Config)
    requires HeaderStep(t, cfg).1.None?
    ensures forall g :: TargetViolates(g, t, cfg) ==> g.AtOperation?
  {
    BlankMeansAllSpace(t.target);
  }

  // The fault reported is violated, and none checked before it is.
  lemma TargetFaultIsTheFirst(t: Target, cfg: Config, f: TargetFault)
    requires CheckTarget(t, cfg) == Some(f)
    ensures TargetViolates(f, t, cfg)
    ensures forall g :: TargetViolates(g, t, cfg) ==> TargetBefore(f, g)
  {
    if HeaderStep(t, cfg).1.Some? {
      HeaderFaultIsTheFirst(t, cfg, f);
    } else {
      SoundHeaderViolatesNothing(t, cfg);
    }
  }

  lemma QueryFaultMeans(ts: seq<Target>, cfg: Config)
    ensures CheckQuery(ts, cfg) == Some(NoRequests) <==> ts == []
    ensures CheckQuery(ts, cfg) == Some(TooManyRequests) <==> ts != [] && |ts| > cfg.maxTargetsPerQuery
  {}

  // ---- what the normal form is ------------------------------------------------

  // The same identifiers, each with its leading dot.
  ghost predicate SameOidsDotted(was: seq<string>, now: seq<string>) {
    && |now| == |was|
    && forall i :: 0 <= i < |now| ==> ValidOid(now[i]) && now[i][0] == '.' && Components(now[i]) == Components(was[i])
  }

  lemma NormalOpIsExplicit(op: Operation, version: string, cfg: Config)
    requires OpAcceptable(op, version, cfg)
    ensures var n := NormalOp(op);
            && n.kind == op.kind && n.nonRepeaters == op.nonRepeaters
            && SameOidsDotted(op.oids, n.oids)
            && (if op.kind == "walk" then SameOidsDotted([op.rootOid], [n.rootOid]) else n.rootOid == op.rootOid)
            && (op.kind == "getbulk" <==> n.maxRepetitions.Some?)
            && (n.maxRepetitions.Some? ==> n.maxRepetitions.value == if op.maxRepetitions.Some? then op.maxRepetitions.value else 10)
  {
    NormalizeKeepsValidity(op.rootOid);
    NormalizePrintsComponents(op.rootOid);
    forall i | 0 <= i < |op.oids|
      ensures ValidOid(NormalizeOid(op.oids[i])) <==> ValidOid(op.oids[i])
      ensures Components(NormalizeOid(op.oids[i])) == Components(op.oids[i])
    {
      NormalizeKeepsValidity(op.oids[i]);
      NormalizePrintsComponents(op.oids[i]);
    }
  }

  // An accepted target keeps what it says and is completed where it says
  // nothing, until nothing in it is left to a default.
  lemma NormalTargetIsExplicit(t: Target, cfg: Config)
    requires cfg.Valid() && TargetAcceptable(t, cfg)
    ensures var n := NormalTarget(t, cfg);
            && n.target == t.target && n.community == t.community && n.v3 == t.v3
            && 1 <= n.port <= 65535 && (if t.port != 0 then n.port == t.port else n.port == 161)
            && n.version in {"1", "2c", "3"} && (if t.version != "" then n.version == t.version else n.version == "2c")
            && n.retries.Some? && n.retries.value >= 0
            && (if t.retries.Some? then n.retries == t.retries else n.retries.value == cfg.defaultSnmpRetries)
            && n.timeoutMs >= 0
            && (if t.timeoutMs != 0 then n.timeoutMs == t.timeoutMs
                else n.timeoutMs * 1_000_000 <= cfg.defaultSnmpTimeoutNs < (n.timeoutMs + 1) * 1_000_000)
            && |n.operations| == |t.operations|
            && forall j :: 0 <= j < |t.operations| ==>
                 && n.operations[j].kind == t.operations[j].kind
                 && SameOidsDotted(t.operations[j].oids, n.operations[j].oids)
                 && (n.operations[j].kind == "getbulk" <==> n.operations[j].maxRepetitions.Some?)
  {
    forall j | 0 <= j < |t.operations|
      ensures var m := NormalOp(t.operations[j]);
              && m.kind == t.operations[j].kind && SameOidsDotted(t.operations[j].oids, m.oids)
              && (m.kind == "getbulk" <==> m.maxRepetitions.Some?)
    {
      NormalOpIsExplicit(t.operations[j], VersionOf(t), cfg);
    }
  }

  // ---- normal forms are fixed -----------------------------------------------

  lemma NormalOpIsFixed(op: Operation, version: string, cfg: Config)
    requires OpAcceptable(op, version, cfg)
    ensures OpAcceptable(NormalOp(op), version, cfg) && NormalOp(NormalOp(op)) == NormalOp(op)
  {
    var n := NormalOp(op);
    NormalizeKeepsValidity(op.rootOid);
    forall i | 0 <= i < |op.oids| ensures NormalizeOid(NormalizeOid(op.oids[i])) == NormalizeOid(op.oids[i]) && (ValidOid(NormalizeOid(op.oids[i])) <==> ValidOid(op.oids[i])) {
      NormalizeKeepsValidity(op.oids[i]);
    }
    assert NormalOids(NormalOids(op.oids)) == NormalOids(op.oids);
  }

  lemma NormalTargetIsFixed(t: Target, cfg: Config)
    requires cfg.Valid() && TargetAcceptable(t, cfg)
    ensures TargetAcceptable(NormalTarget(t, cfg), cfg)
    ensures NormalTarget(NormalTarget(t, cfg), cfg) == NormalTarget(t, cfg)
  {
    var n := NormalTarget(t, cfg);
    forall j | 0 <= j < |t.operations|
      ensures OpAcceptable(n.operations[j], VersionOf(n), cfg) && NormalOp(n.operations[j]) == n.operations[j]
    {
      NormalOpIsFixed(t.operations[j], VersionOf(t), cfg);
    }
    assert NormalOps(n.operations) == n.operations;
  }

  // Validating an accepted request again accepts it and changes nothing.
  lemma ValidationIsIdempotent(ts: seq<Target>, cfg: Config)
    requires cfg.Valid() && QueryAcceptable(ts, cfg)
    ensures QueryAcceptable(NormalQuery(ts, cfg), cfg)
    ensures NormalQuery(NormalQuery(ts, cfg), cfg) == NormalQuery(ts, cfg)
  {
    forall i | 0 <= i < |ts|
      ensures TargetAcceptable(NormalQuery(ts, cfg)[i], cfg) && NormalTarget(NormalQuery(ts, cfg)[i], cfg) == NormalQuery(ts, cfg)[i]
    {
      NormalTargetIsFixed(ts[i], cfg);
    }
  }

  // The documented "greater than 0" holds of the timeout that is used exactly
  // when the request sets one or the configured default reaches a millisecond.
  lemma TimeoutIsPositiveExactlyWhen(t: Target, cfg: Config)
    requires cfg.Valid() && TargetAcceptable(t, cfg)
    ensures NormalTarget(t, cfg).timeoutMs > 0 <==> t.timeoutMs != 0 || cfg.defaultSnmpTimeoutNs >= 1_000_000
  {}

  lemma SubMillisecondDefaultGivesZeroTimeout(cfg: Config)
    requires cfg.Valid() && cfg.defaultSnmpTimeoutNs == 999_999
    ensures var t := Target("a", 0, "", "public", None, 0, None, [Operation("walk", [], None, None, "1")]);
            TargetAcceptable(t, cfg) && NormalTarget(t, cfg).timeoutMs == 0
  {}

  // ---- the records that are changed in place ----------------------------

  method ValidateOids(oids: array<string>, cfg: Config) returns (fault: Option<OpFault>)
    modifies oids
    ensures fault == CheckOids(old(oids[..]), cfg)
    ensures oids[..] == OidsAfter(old(oids[..]), cfg)
    ensures fault.None? ==> oids[..] == NormalOids(old(oids[..]))
  {
    if oids.Length == 0 {
      return Some(NoOids);
    }
    if oids.Length > cfg.maxOidsPerOperation {
      return Some(TooManyOids);
    }
    ghost var was := oids[..];
    var i := 0;
    while i < oids.Length
      invariant i <= FirstInvalid(was)
      invariant oids[..] == MapUpTo(NormalizeOid, was, i)
    {
      assert oids[i] == oids[..][i] == was[i];
      if !ValidOid(oids[i]) {
        return Some(BadOid(i));
      }
      MapOneMore(NormalizeOid, was, i);
      oids[i] := NormalizeOid(oids[i]);
      i := i + 1;
    }
    return None;
  }

  class OperationRecord {
    const kind: string
    const oids: array<string>
    const nonRepeaters: Option<uint8>
    var maxRepetitions: Option<uint32>
    var rootOid: string

    constructor (kind: string, oids: array<string>, nonRepeaters: Option<uint8>, maxRepetitions: Option<uint32>, rootOid: string)
      ensures this.oids == oids && View() == Operation(kind, oids[..], nonRepeaters, maxRepetitions, rootOid)
    {
      this.kind, this.oids, this.nonRepeaters, this.maxRepetitions, this.rootOid := kind, oids, nonRepeaters, maxRepetitions, rootOid;
    }

    ghost function View(): Operation
      reads this, oids
    {
      Operation(kind, oids[..], nonRepeaters, maxRepetitions, rootOid)
    }

    method Validate(cfg: Config) returns (fault: Option<OpFault>)
      modifies this, oids
      ensures fault == CheckOp(old(View()), cfg)
      ensures View() == OpAfter(old(View()), cfg)
    {
      if kind == "get" || kind == "getnext" {
        if rootOid != "" || nonRepeaters.Some? || maxRepetitions.Some? {
          return Some(UnexpectedFields);
        }
        fault := ValidateOids(oids, cfg);
      } else if kind == "getbulk" {
        if rootOid != "" {
          return Some(UnexpectedFields);
        }
        fault := ValidateOids(oids, cfg);
        if fault.Some? {
          return;
        }
        if maxRepetitions.None? {
          maxRepetitions := Some(10);
        }
        if maxRepetitions.value == 0 {
          return Some(ZeroRepetitions);
        }
      } else if kind == "walk" {
        if oids.Length > 0 || nonRepeaters.Some? || maxRepetitions.Some? {
          return Some(UnexpectedFields);
        }
        if !ValidOid(rootOid) {
          return Some(BadRootOid);
        }
        rootOid := NormalizeOid(rootOid);
        return None;
      } else {
        return Some(UnknownType);
      }
    }
  }

  class TargetRecord {
    const target: string
    const community: string
    const v3: Option<V3Credentials>
    const operations: seq<OperationRecord>
    var port: int
    var version: string
    var timeoutMs: int
    var retries: Option<int>

    constructor (t: Target, operations: seq<OperationRecord>)
      ensures this.operations == operations
      ensures target == t.target && community == t.community && v3 == t.v3 && port == t.port
      ensures version == t.version && timeoutMs == t.timeoutMs && retries == t.retries
    {
      target, community, v3, this.operations := t.target, t.community, t.v3, operations;
      port, version, timeoutMs, retries := t.port, t.version, t.timeoutMs, t.retries;
    }

    ghost function Arrays(): set<array<string>> {
      set o | o in operations :: o.oids
    }

    // The decoder gives every operation its own record and its own OID array.
    ghost predicate Separate() {
      forall j, k :: 0 <= j < k < |operations| ==> operations[j] != operations[k] && operations[j].oids != operations[k].oids
    }

    ghost function OpViews(): (views: seq<Operation>)
      reads operations, Arrays()
      ensures |views| == |operations| && forall j :: 0 <= j < |operations| ==> views[j] == operations[j].View()
    {
      seq(|operations|, j requires 0 <= j < |operations| reads operations, Arrays() => operations[j].View())
    }

    // The target with its own fields and the given operations.
    ghost function Head(ops: seq<Operation>): Target
      reads this
    {
      Target(target, port, version, community, v3, timeoutMs, retries, ops)
    }

    ghost function View(): Target
      reads this, operations, Arrays()
    {
      Head(OpViews())
    }

    method ValidateHeader(cfg: Config, ghost ops: seq<Operation>) returns (fault: Option<TargetFault>)
      requires |ops| == |operations|
      modifies this
      ensures fault == HeaderStep(old(Head(ops)), cfg).1
      ensures Head(ops) == HeaderStep(old(Head(ops)), cfg).0
    {
      if Blank(target) {
        return Some(BlankTarget);
      }
      if port == 0 {
        port := 161;
      }
      if port < 1 || port > 65535 {
        return Some(BadPort);
      }
      if version == "" {
        version := "2c";
      }
      fault := CheckCredentials(version, community, v3);
      if fault.Some? {
        return;
      }
      if timeoutMs < 0 {
        return Some(NegativeTimeout);
      }
      if timeoutMs == 0 {
        timeoutMs := Milliseconds(cfg.defaultSnmpTimeoutNs);
      }
      if retries.None? {
        retries := Some(cfg.defaultSnmpRetries);
      }
      if retries.value < 0 {
        return Some(NegativeRetries);
      }
      if |operations| == 0 {
        return Some(NoOperations);
      }
      if |operations| > cfg.maxOperationsPerTarget {
        return Some(TooManyOperations);
      }
      return None;
    }

    // Checks one operation; the others keep their values.
    method ValidateOperation(j: nat, cfg: Config) returns (fault: Option<OpFault>)
      requires Separate() && j < |operations|
      modifies operations[j], operations[j].oids
      ensures fault == CheckOp(old(OpViews())[j], cfg)
      ensures OpViews() == old(OpViews())[j := OpAfter(old(OpViews())[j], cfg)]
    {
      fault := operations[j].Validate(cfg);
      forall k | 0 <= k < |operations| && k != j ensures operations[k].View() == old(operations[k].View()) {
        assert operations[k] != operations[j] && operations[k].oids != operations[j].oids;
      }
    }

    method ValidateOperations(cfg: Config) returns (fault: Option<TargetFault>)
      requires Separate()
      modifies operations, Arrays()
      ensures fault == OpsFault(old(OpViews()), version, cfg)
      ensures OpViews() == OpsAfter(old(OpViews()), version, cfg)
    {
      ghost var was := OpViews();
      var j := 0;
      assert was == MapUpTo(NormalOp, was, 0);
      while j < |operations|
        invariant j <= FirstBadOp(was, version, cfg) && OpViews() == MapUpTo(NormalOp, was, j)
      {
        assert OpViews()[j] == was[j];
        if version == "1" && operations[j].kind == "getbulk" {
          return Some(AtOperation(j, BulkOnV1));
        }
        assert operations[j] in operations && operations[j].oids in Arrays();
        var f := ValidateOperation(j, cfg);
        if f.Some? {
          return Some(AtOperation(j, f.value));
        }
        OpCheckMeansAcceptable(was[j], version, cfg);
        MapOneMore(NormalOp, was, j);
        j := j + 1;
      }
      return None;
    }

    method Validate(cfg: Config) returns (fault: Option<TargetFault>)
      requires Separate()
      modifies this, operations, Arrays()
      ensures fault == CheckTarget(old(View()), cfg)
      ensures View() == TargetAfter(old(View()), cfg)
    {
      ghost var was := OpViews();
      fault := ValidateHeader(cfg, was);
      assert OpViews() == was;
      if fault.Some? {
        return;
      }
      HeaderCheckMeansAcceptable(old(View()), cfg);
      fault := ValidateOperations(cfg);
    }
  }

  // ---- the whole query ----------------------------------------------------

  class QueryRecord {
    const requests: seq<TargetRecord>

    constructor (requests: seq<TargetRecord>)
      ensures this.requests == requests
    {
      this.requests := requests;
    }

    ghost function Operations(): set<OperationRecord> {
      set t, o | t in requests && o in t.operations :: o
    }

    ghost function Arrays(): set<array<string>> {
      set t, o | t in requests && o in t.operations :: o.oids
    }

    // Nothing is shared between two requests.
    ghost predicate Separate() {
      && (forall i :: 0 <= i < |requests| ==> requests[i].Separate())
      && (forall i, k :: 0 <= i < k < |requests| ==>
            && requests[i] != requests[k]
            && (forall o, p :: o in requests[i].operations && p in requests[k].operations ==> o != p && o.oids != p.oids))
    }

    ghost function View(): (views: seq<Target>)
      reads requests, Operations(), Arrays()
      ensures |views| == |requests| && forall i :: 0 <= i < |requests| ==> views[i] == requests[i].View()
    {
      seq(|requests|, i requires 0 <= i < |requests| reads requests, Operations(), Arrays() =>
        (assert requests[i] in requests;
         assert forall o :: o in requests[i].operations ==> o in Operations() && o.oids in Arrays();
         requests[i].View()))
    }

    // A target none of whose parts changed keeps its value.
    twostate lemma Untouched(k: nat)
      requires k < |requests| && unchanged(requests[k], requests[k].operations, requests[k].Arrays())
      ensures requests[k].View() == old(requests[k].View())
    {
      assert requests[k].OpViews() == old(requests[k].OpViews());
    }

    lemma DisjointParts(i: nat, k: nat)
      requires Separate() && i < |requests| && k < |requests| && i != k
      ensures requests[k] != requests[i]
      ensures forall o :: o in requests[k].operations ==> o !in requests[i].operations
      ensures requests[k].Arrays() !! requests[i].Arrays()
    {}

    // Checks one target; the others keep their values.
    method ValidateTarget(i: nat, cfg: Config) returns (fault: Option<TargetFault>)
      requires Separate() && i < |requests|
      modifies requests[i], requests[i].operations, requests[i].Arrays()
      ensures fault == CheckTarget(old(View())[i], cfg)
      ensures View() == old(View())[i := TargetAfter(old(View())[i], cfg)]
    {
      fault := requests[i].Validate(cfg);
      forall k | 0 <= k < |requests| && k != i ensures requests[k].View() == old(requests[k].View()) {
        DisjointParts(i, k);
        Untouched(k);
      }
    }

    method ValidateQuery(cfg: Config) returns (err: Option<QueryError>)
      requires Separate()
      modifies requests, Operations(), Arrays()
      ensures err == CheckQuery(old(View()), cfg)
      ensures View() == QueryAfter(old(View()), cfg)
    {
      if |requests| == 0 {
        return Some(NoRequests);
      }
      if |requests| > cfg.maxTargetsPerQuery {
        return Some(TooManyRequests);
      }
      ghost var was := View();
      var i := 0;
      assert was == MapUpTo(TargetNormalizer(cfg), was, 0);
      while i < |requests|
        invariant i <= FirstBadTarget(was, cfg) && View() == MapUpTo(TargetNormalizer(cfg), was, i)
      {
        assert View()[i] == was[i];
        OneTargetFootprint(i);
        var f := ValidateTarget(i, cfg);
        if f.Some? {
          return Some(AtTarget(i, f.value));
        }
        TargetCheckMeansAcceptable(was[i], cfg);
        MapOneMore(TargetNormalizer(cfg), was, i);
        i := i + 1;
      }
      return None;
    }

    lemma OneTargetFootprint(i: nat)
      requires i < |requests|
      ensures requests[i] in requests && requests[i].Arrays() <= Arrays()
      ensures forall o :: o in requests[i].operations ==> o in Operations()
    {}
  }
}
