// Variable bindings as they come off the wire and as the gateway reports them.
module Snmp {
  import opened Oid

  // A decoded value. RawBytes holds the text that converting the octets gives.
  datatype Value = Text(s: string) | RawBytes(octets: string) | Opaque(id: int)

  datatype Pdu = Pdu(name: string, kind: string, value: Value)

  datatype VarBind = VarBind(oid: string, kind: string, value: Value)

  datatype Conversion = Converted(values: seq<VarBind>) | ResultLimitExceeded

  function ConvertValue(v: Value): Value {
    if v.RawBytes? then Text(v.octets) else v
  }

  // b reports p: under the same numbers with a leading dot, with its type, and
  // with its value, octets as the text they are.
  predicate Reports(b: VarBind, p: Pdu) {
    && b.oid != "" && b.oid[0] == '.' && Components(b.oid) == Components(p.name)
    && b.kind == p.kind
    && b.value == match p.value case RawBytes(octets) => Text(octets) case v => v
  }

  ghost predicate ReportsAll(values: seq<VarBind>, pdus: seq<Pdu>) {
    |values| == |pdus| && forall i :: 0 <= i < |pdus| ==> Reports(values[i], pdus[i])
  }

  function ConvertSingle(p: Pdu): (b: VarBind)
    ensures Reports(b, p)
  {
    NormalizePrintsComponents(p.name);
    VarBind(NormalizeOid(p.name), p.kind, ConvertValue(p.value))
  }

  function ConvertAll(pdus: seq<Pdu>): (values: seq<VarBind>)
    ensures |values| == |pdus|
    ensures forall i :: 0 <= i < |pdus| ==> values[i] == ConvertSingle(pdus[i])
    ensures ReportsAll(values, pdus)
  {
    seq(|pdus|, i requires 0 <= i < |pdus| => ConvertSingle(pdus[i]))
  }

  // The batch conversion: all the values, or none when there are too many.
  method ConvertPdu(pdus: seq<Pdu>, limit: int) returns (r: Conversion)
    ensures r == if |pdus| > limit then ResultLimitExceeded else Converted(ConvertAll(pdus))
    ensures |pdus| <= limit <==> r.Converted?
    ensures r.Converted? ==> ReportsAll(r.values, pdus)
  {
    if |pdus| > limit {
      return ResultLimitExceeded;
    }
    if pdus == [] {
      return Converted([]);
    }
    var out := new VarBind[|pdus|](i => VarBind("", "", Opaque(0)));
    for i := 0 to |pdus|
      invariant forall j :: 0 <= j < i ==> out[j] == ConvertSingle(pdus[j])
    {
      out[i] := ConvertSingle(pdus[i]);
    }
    assert out[..] == ConvertAll(pdus);
    return Converted(out[..]);
  }

  // A walk that delivers pdus one by one to the callback, which refuses the
  // first one past the limit. The refusal ends the walk and loses the values.
  method WalkConvert(pdus: seq<Pdu>, limit: int) returns (r: Conversion)
    ensures r == if |pdus| > limit && pdus != [] then ResultLimitExceeded else Converted(ConvertAll(pdus))
    ensures |pdus| <= limit || pdus == [] <==> r.Converted?
    ensures r.Converted? ==> ReportsAll(r.values, pdus)
  {
    var values: seq<VarBind> := [];
    var i := 0;
    while i < |pdus|
      invariant i <= |pdus| && (i == 0 || i <= limit)
      invariant values == ConvertAll(pdus[..i])
    {
      if |values| >= limit {
        return ResultLimitExceeded;
      }
      values := values + [ConvertSingle(pdus[i])];
      assert pdus[..i + 1] == pdus[..i] + [pdus[i]];
      i := i + 1;
    }
    assert pdus[..i] == pdus;
    return Converted(values);
  }
}
