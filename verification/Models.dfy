// The query request and response, as the JSON bodies carry them.
module Models {
  import opened Options
  import opened Snmp

  type uint8 = x: int | 0 <= x < 0x100
  type uint32 = x: int | 0 <= x < 0x1_0000_0000

  datatype V3Credentials = V3Credentials(
    username: string, securityLevel: string, authProtocol: string, authPassphrase: string,
    privProtocol: string, privPassphrase: string, contextName: string, contextEngineId: string)

  datatype Operation = Operation(
    kind: string, oids: seq<string>, nonRepeaters: Option<uint8>, maxRepetitions: Option<uint32>, rootOid: string)

  datatype Target = Target(
    target: string, port: int, version: string, community: string, v3: Option<V3Credentials>,
    timeoutMs: int, retries: Option<int>, operations: seq<Operation>)

  datatype ApiError = ApiError(code: string, message: string)

  datatype OperationResult = OperationResult(kind: string, status: string, values: seq<VarBind>, error: Option<ApiError>)

  datatype TargetResult = TargetResult(target: string, port: int, operations: seq<OperationResult>)
}
