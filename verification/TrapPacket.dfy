// Decoded trap packets: which are supported, which trap OID they are routed
// by, and the payload that is forwarded for them.
module TrapPacket {
  import opened Options
  import opened Text
  import opened Oid
  import opened Cidr
  import opened Snmp
  import TrapRouter

  datatype Version = V1 | V2c | V3 | OtherVersion
  datatype PduType = Trap | TrapV2 | InformRequest | OtherPdu

  datatype Packet = Packet(
    version: Version, pduType: PduType, community: string, variables: seq<Pdu>,
    genericTrap: int, specificTrap: int, enterprise: string, timestamp: nat)

  datatype Payload = Payload(
    receivedAt: int, sourceIp: Bits, sourcePort: nat, version: string, isInform: bool, matchedCidr: string,
    trapOid: string, uptime: Option<Value>, varbinds: seq<VarBind>)

  const SNMP_TRAP_OID := "." + "1.3.6.1" + "." + "6.3.1.1.4.1.0"
  const SYS_UPTIME := "." + "1.3.6.1" + "." + "2.1.1.3.0"
  // snmpTraps, under which the generic traps of SNMPv1 are numbered from 1.
  const GENERIC_PREFIX := "1.3.6.1" + "." + "6.3.1.1.5"
  const GENERIC_TRAPS: seq<string> := ["1", "3", "6", "1"] + ["6", "3", "1", "1", "5"]

  // The text is the given numbers, each after a dot.
  predicate SpellsOut(text: string, numbers: seq<string>) {
    text != "" && text[0] == '.' && Components(text) == numbers
  }

  predicate Supported(p: Packet) {
    match p.version
    case V1 => p.pduType == Trap
    case V2c => p.pduType == TrapV2 || p.pduType == InformRequest
    case V3 => p.pduType == TrapV2 || p.pduType == InformRequest
    case OtherVersion => false
  }

  function VersionName(v: Version): string {
    match v case V1 => "1" case V3 => "3" case _ => "2c"
  }

  // ---- SNMPv1 trap OIDs, section 3.1 of RFC 3584 ---------------------------

  function V1TrapOid(p: Packet): string {
    if 0 <= p.genericTrap <= 5 then "." + GENERIC_PREFIX + "." + Itoa(p.genericTrap + 1)
    else if p.genericTrap == 6 then
      if !ValidOid(p.enterprise) then "" else NormalizeOid(p.enterprise) + ".0." + Itoa(p.specificTrap)
    else ""
  }

  // The numbers of a v1 trap OID, in order.
  function V1Numbers(p: Packet): seq<string> {
    if p.genericTrap == 6 then Components(p.enterprise) + ["0", Itoa(p.specificTrap)]
    else GENERIC_TRAPS + [Itoa(p.genericTrap + 1)]
  }

  lemma Regroup(front: string, last: string)
    ensures "." + front + ".0." + last == "." + (front + ['.'] + ("0" + "." + last))
  {
    assert ".0." == ['.'] + ("0" + ".");
  }

  lemma JoinCons(head: string, rest: seq<string>)
    requires rest != []
    ensures Join([head] + rest, '.') == head + "." + Join(rest, '.')
  {
    assert ([head] + rest)[1..] == rest;
  }

  lemma EnterpriseOidPrintsNumbers(p: Packet)
    requires p.genericTrap == 6
    ensures NormalizeOid(p.enterprise) + ".0." + Itoa(p.specificTrap) == Print(V1Numbers(p))
    ensures forall s :: s in V1Numbers(p) ==> '.' !in s
  {
    var parts, last := Components(p.enterprise), Itoa(p.specificTrap);
    NormalizePrintsComponents(p.enterprise);
    SplitPartsAvoidSeparator(StripDot(p.enterprise), '.');
    ItoaShape(p.specificTrap);
    JoinAppend(parts, ["0", last], '.');
    JoinCons("0", [last]);
    assert ["0"] + [last] == ["0", last];
    Regroup(Join(parts, '.'), last);
  }

  lemma FirstFourText()
    ensures Join(["1", "3", "6", "1"], '.') == "1.3.6.1"
  {
    JoinCons("6", ["1"]);
    JoinCons("3", ["6"] + ["1"]);
    JoinCons("1", ["3"] + (["6"] + ["1"]));
    assert ["1"] + (["3"] + (["6"] + ["1"])) == ["1", "3", "6", "1"];
  }

  lemma LastFiveText()
    ensures Join(["6", "3", "1", "1", "5"], '.') == "6.3.1.1.5"
  {
    JoinCons("1", ["5"]);
    JoinCons("1", ["1"] + ["5"]);
    JoinCons("3", ["1"] + (["1"] + ["5"]));
    JoinCons("6", ["3"] + (["1"] + (["1"] + ["5"])));
    assert ["6"] + (["3"] + (["1"] + (["1"] + ["5"]))) == ["6", "3", "1", "1", "5"];
  }

  lemma GenericPrefixText()
    ensures Join(GENERIC_TRAPS, '.') == GENERIC_PREFIX
  {
    FirstFourText();
    LastFiveText();
    JoinAppend(["1", "3", "6", "1"], ["6", "3", "1", "1", "5"], '.');
  }

  lemma GenericNumbers()
    ensures AllNumbers(GENERIC_TRAPS)
  {}

  lemma V1TrapOidPrintsNumbers(p: Packet)
    requires V1TrapOid(p) != ""
    ensures V1TrapOid(p) == Print(V1Numbers(p))
    ensures forall s :: s in V1Numbers(p) ==> '.' !in s
  {
    if p.genericTrap == 6 {
      EnterpriseOidPrintsNumbers(p);
    } else {
      var last := Itoa(p.genericTrap + 1);
      ItoaShape(p.genericTrap + 1);
      JoinAppend(GENERIC_TRAPS, [last], '.');
      GenericPrefixText();
      assert "." + GENERIC_PREFIX + "." + last == "." + (GENERIC_PREFIX + ['.'] + last);
      GenericNumbers();
      NumbersHoldNoDot(GENERIC_TRAPS);
    }
  }

  lemma PrintSpells(parts: seq<string>)
    requires parts != [] && forall t :: t in parts ==> '.' !in t
    ensures SpellsOut(Print(parts), parts)
  {
    SplitAfterJoin(parts, '.');
    assert StripDot(Print(parts)) == Join(parts, '.');
  }

  lemma V1TrapOidSpells(p: Packet)
    requires V1TrapOid(p) != ""
    ensures SpellsOut(V1TrapOid(p), V1Numbers(p))
  {
    V1TrapOidPrintsNumbers(p);
    PrintSpells(V1Numbers(p));
  }

  lemma GenericList(last: string)
    ensures GENERIC_TRAPS + [last] == ["1", "3", "6", "1", "6", "3", "1", "1", "5", last]
  {}

  // When a trap has an OID at all.
  lemma V1TrapOidIsEmptyExactlyWhen(p: Packet)
    ensures V1TrapOid(p) == "" <==> !(0 <= p.genericTrap <= 5) && !(p.genericTrap == 6 && ValidOid(p.enterprise))
  {}

  // The numbers of the generic traps' OIDs, and of an enterprise's; any other
  // trap has none.
  lemma V1TrapOidIsExplicit(p: Packet)
    ensures 0 <= p.genericTrap <= 5 ==>
              SpellsOut(V1TrapOid(p), ["1", "3", "6", "1", "6", "3", "1", "1", "5", Itoa(p.genericTrap + 1)])
    ensures p.genericTrap == 6 && ValidOid(p.enterprise) ==>
              SpellsOut(V1TrapOid(p), Components(p.enterprise) + ["0", Itoa(p.specificTrap)])
    ensures !(0 <= p.genericTrap <= 5) && !(p.genericTrap == 6 && ValidOid(p.enterprise)) <==> V1TrapOid(p) == ""
  {
    V1TrapOidIsEmptyExactlyWhen(p);
    if V1TrapOid(p) != "" { V1TrapOidSpells(p); }
    GenericList(Itoa(p.genericTrap + 1));
  }

  // The result is empty or a valid OID in normal form, except for an
  // enterprise trap with a negative specific code, which never is.
  lemma V1TrapOidIsNormalExactlyWhen(p: Packet)
    ensures (V1TrapOid(p) == "" || (ValidOid(V1TrapOid(p)) && NormalizeOid(V1TrapOid(p)) == V1TrapOid(p)))
            <==> !(p.genericTrap == 6 && ValidOid(p.enterprise) && p.specificTrap < 0)
  {
    if V1TrapOid(p) != "" {
      var parts := V1Numbers(p);
      V1TrapOidPrintsNumbers(p);
      ItoaShape(p.specificTrap);
      ItoaShape(p.genericTrap + 1);
      SplitAfterJoin(parts, '.');
      assert StripDot(Print(parts)) == Join(parts, '.');
      ValidMeansNumbers(V1TrapOid(p));
      if p.genericTrap == 6 {
        ValidMeansNumbers(p.enterprise);
        assert parts[|parts| - 1] == Itoa(p.specificTrap);
      } else {
        assert AllNumbers(parts) by { GenericNumbers(); }
      }
    }
  }

  lemma PrintInjective(a: seq<string>, b: seq<string>)
    requires a != [] && b != [] && Print(a) == Print(b)
    requires forall s :: s in a || s in b ==> '.' !in s
    ensures a == b
  {
    SplitAfterJoin(a, '.');
    SplitAfterJoin(b, '.');
    assert Print(a)[1..] == Join(a, '.') && Print(b)[1..] == Join(b, '.');
  }

  // The number before the last is 0 for enterprise traps and 5 for generic ones.
  lemma NumbersByKind(p: Packet)
    ensures var s, n := V1Numbers(p), |V1Numbers(p)|;
            n >= 2 && if p.genericTrap == 6 then s[n - 2] == "0" && s[n - 1] == Itoa(p.specificTrap) && s[..n - 2] == Components(p.enterprise)
                      else s[n - 2] == "5" && s[n - 1] == Itoa(p.genericTrap + 1)
  {}

  // Different traps get different OIDs: generic codes, enterprise and specific
  // code are all recovered, and the two kinds never meet.
  lemma V1TrapOidInjective(p: Packet, q: Packet)
    requires V1TrapOid(p) == V1TrapOid(q) != ""
    ensures p.genericTrap == q.genericTrap
    ensures p.genericTrap == 6 ==> p.specificTrap == q.specificTrap && NormalizeOid(p.enterprise) == NormalizeOid(q.enterprise)
  {
    V1TrapOidPrintsNumbers(p);
    V1TrapOidPrintsNumbers(q);
    PrintInjective(V1Numbers(p), V1Numbers(q));
    NumbersByKind(p);
    NumbersByKind(q);
    if p.genericTrap == 6 {
      ItoaInjective(p.specificTrap, q.specificTrap);
      NormalizeIdentifies(p.enterprise, q.enterprise);
    } else {
      ItoaInjective(p.genericTrap + 1, q.genericTrap + 1);
    }
  }

  // ---- the OID used for routing and the one in the payload -----------------

  function NormalizeTrapOidValue(v: Value): string {
    if v.Text? && ValidOid(v.s) then NormalizeOid(v.s) else ""
  }

  // The values of the variables with a given name, in packet order.
  function Named(variables: seq<Pdu>, name: string): seq<Value> {
    if variables == [] then []
    else (if NormalizeOid(variables[0].name) == name then [variables[0].value] else []) + Named(variables[1..], name)
  }

  function Last<T>(s: seq<T>): T
    requires s != []
  {
    s[|s| - 1]
  }

  function RoutingOid(p: Packet): string {
    var named := Named(p.variables, SNMP_TRAP_OID);
    if p.version == V1 then V1TrapOid(p)
    else if named == [] then ""
    else NormalizeTrapOidValue(named[0])
  }

  // The payload's trap OID and uptime, given the values found under their names.
  function OidFrom(p: Packet, named: seq<Value>): string {
    if named != [] then NormalizeTrapOidValue(ConvertValue(Last(named)))
    else if p.version == V1 then V1TrapOid(p)
    else ""
  }

  function UptimeFrom(p: Packet, named: seq<Value>): Option<Value> {
    if named != [] then Some(ConvertValue(Last(named)))
    else if p.version == V1 then Some(Opaque(p.timestamp))
    else None
  }

  function PayloadOid(p: Packet): string {
    OidFrom(p, Named(p.variables, SNMP_TRAP_OID))
  }

  function PayloadUptime(p: Packet): Option<Value> {
    UptimeFrom(p, Named(p.variables, SYS_UPTIME))
  }

  method ExtractTrapOid(p: Packet) returns (oid: string)
    ensures oid == RoutingOid(p)
  {
    if p.version == V1 {
      return V1TrapOid(p);
    }
    var i := 0;
    while i < |p.variables|
      invariant i <= |p.variables|
      invariant Named(p.variables, SNMP_TRAP_OID) == Named(p.variables[i..], SNMP_TRAP_OID)
    {
      if NormalizeOid(p.variables[i].name) == SNMP_TRAP_OID {
        return NormalizeTrapOidValue(p.variables[i].value);
      }
      i := i + 1;
    }
    return "";
  }

  lemma {:induction false} NamedGrows(variables: seq<Pdu>, x: Pdu, name: string)
    ensures Named(variables + [x], name) == Named(variables, name) + (if NormalizeOid(x.name) == name then [x.value] else [])
  {
    if variables == [] {
      assert variables + [x] == [x];
    } else {
      NamedGrows(variables[1..], x, name);
      assert (variables + [x])[1..] == variables[1..] + [x];
    }
  }

  // The payload of a packet received at a given time.
  function PayloadOf(p: Packet, now: int, sourceIp: Bits, sourcePort: nat, matchedCidr: string): Payload {
    Payload(now, sourceIp, sourcePort, VersionName(p.version), p.pduType == InformRequest, matchedCidr,
            PayloadOid(p), PayloadUptime(p), ConvertAll(p.variables))
  }

  lemma FromGrows(p: Packet, i: nat)
    requires i < |p.variables|
    ensures var x := ConvertSingle(p.variables[i]);
            OidFrom(p, Named(p.variables[..i + 1], SNMP_TRAP_OID)) ==
              if x.oid == SNMP_TRAP_OID then NormalizeTrapOidValue(x.value) else OidFrom(p, Named(p.variables[..i], SNMP_TRAP_OID))
    ensures var x := ConvertSingle(p.variables[i]);
            UptimeFrom(p, Named(p.variables[..i + 1], SYS_UPTIME)) ==
              if x.oid == SYS_UPTIME then Some(x.value) else UptimeFrom(p, Named(p.variables[..i], SYS_UPTIME))
  {
    assert p.variables[..i + 1] == p.variables[..i] + [p.variables[i]];
    NamedGrows(p.variables[..i], p.variables[i], SNMP_TRAP_OID);
    NamedGrows(p.variables[..i], p.variables[i], SYS_UPTIME);
  }

  lemma NamesDiffer()
    ensures SNMP_TRAP_OID != SYS_UPTIME
  {}

  // None is the conversion failure, which the unlimited conversion never meets.
  method BuildTrapPayload(p: Packet, now: int, sourceIp: Bits, sourcePort: nat, matchedCidr: string) returns (r: Option<Payload>)
    ensures r == Some(PayloadOf(p, now, sourceIp, sourcePort, matchedCidr))
  {
    var conversion := ConvertPdu(p.variables, |p.variables|);
    if conversion.ResultLimitExceeded? {
      return None;
    }
    var values := conversion.values;
    var trapOid, uptime := "", None;
    if p.version == V1 {
      trapOid, uptime := V1TrapOid(p), Some(Opaque(p.timestamp));
    }
    NamesDiffer();
    var i := 0;
    while i < |values|
      invariant i <= |values|
      invariant trapOid == OidFrom(p, Named(p.variables[..i], SNMP_TRAP_OID))
      invariant uptime == UptimeFrom(p, Named(p.variables[..i], SYS_UPTIME))
    {
      FromGrows(p, i);
      if values[i].oid == SNMP_TRAP_OID {
        trapOid := NormalizeTrapOidValue(values[i].value);
      } else if values[i].oid == SYS_UPTIME {
        uptime := Some(values[i].value);
      }
      i := i + 1;
    }
    assert p.variables[..i] == p.variables;
    return Some(Payload(now, sourceIp, sourcePort, VersionName(p.version), p.pduType == InformRequest, matchedCidr, trapOid, uptime, values));
  }

  // The numbers a value spells as an OID; none when it is not a textual OID.
  function Spelled(v: Value): seq<string> {
    if v.Text? && ValidOid(v.s) then Components(v.s) else []
  }

  lemma SameOidMeansSameNumbers(u: Value, v: Value)
    ensures NormalizeTrapOidValue(u) == NormalizeTrapOidValue(v) <==> Spelled(u) == Spelled(v)
  {
    if u.Text? && v.Text? { NormalizeIdentifies(u.s, v.s); }
  }

  lemma RepeatsNativeOid(v: Value, p: Packet)
    ensures NormalizeTrapOidValue(v) == V1TrapOid(p) <==> Spelled(v) == if V1TrapOid(p) == "" then [] else V1Numbers(p)
  {
    if V1TrapOid(p) != "" && v.Text? && ValidOid(v.s) {
      V1TrapOidPrintsNumbers(p);
      NormalizePrintsComponents(v.s);
      SplitAfterJoin(V1Numbers(p), '.');
      SplitPartsAvoidSeparator(StripDot(v.s), '.');
      SplitAfterJoin(Components(v.s), '.');
      assert Print(V1Numbers(p))[1..] == Join(V1Numbers(p), '.');
      assert Print(Components(v.s))[1..] == Join(Components(v.s), '.');
    }
  }

  // Routing takes the first variable named snmpTrapOID.0 as decoded, the
  // payload the last one after octets became text; a v1 packet routes by its
  // native fields but lets such a variable overwrite the payload. They agree
  // exactly when the numbers spelled there are the same.
  lemma RoutingAgreesWithPayloadExactlyWhen(p: Packet)
    ensures RoutingOid(p) == PayloadOid(p) <==>
            (var named := Named(p.variables, SNMP_TRAP_OID);
             || named == []
             || (var last := Spelled(ConvertValue(Last(named)));
                 if p.version == V1 then last == (if V1TrapOid(p) == "" then [] else V1Numbers(p))
                 else last == Spelled(named[0])))
  {
    var named := Named(p.variables, SNMP_TRAP_OID);
    if named != [] {
      SameOidMeansSameNumbers(named[0], ConvertValue(Last(named)));
      RepeatsNativeOid(ConvertValue(Last(named)), p);
    }
  }

  // One such variable in a v2c or v3 packet: only octets that happen to spell
  // an OID make the two differ.
  lemma SingleTrapOidDiffersExactlyForOctets(p: Packet)
    requires p.version != V1 && |Named(p.variables, SNMP_TRAP_OID)| == 1
    ensures var v := Named(p.variables, SNMP_TRAP_OID)[0];
            RoutingOid(p) != PayloadOid(p) <==> v.RawBytes? && ValidOid(v.octets)
  {}

  // The usual packets: at most one such variable, not raw bytes, and none in v1.
  lemma UsualPacketsRouteByPayloadOid(p: Packet)
    requires |Named(p.variables, SNMP_TRAP_OID)| <= (if p.version == V1 then 0 else 1)
    requires forall v :: v in Named(p.variables, SNMP_TRAP_OID) ==> !v.RawBytes?
    ensures RoutingOid(p) == PayloadOid(p)
  {}

  function V2Trap(variables: seq<Pdu>): Packet {
    Packet(V2c, TrapV2, "public", variables, 0, 0, "", 0)
  }

  lemma NamedOf(value: Value)
    ensures Named([Pdu(SNMP_TRAP_OID, "", value)], SNMP_TRAP_OID) == [value]
  {
    assert SNMP_TRAP_OID[0] == '.';
    assert [Pdu(SNMP_TRAP_OID, "", value)][1..] == [];
  }

  // linkDown and linkUp, the generic traps 2 and 3, and the enterprise of a vendor.
  const LINK_DOWN := "." + GENERIC_PREFIX + "." + "3"
  const LINK_UP := "." + GENERIC_PREFIX + "." + "4"
  const VENDOR := ".1.3.6.1.4.1.9"

  lemma {:induction false} DigitsAndDots(s: string)
    requires |s| % 2 == 1
    requires forall k :: 0 <= k < |s| ==> if k % 2 == 0 then IsDigit(s[k]) else s[k] == '.'
    ensures Runs(s, false)
  {
    if |s| == 1 {
      assert s[1..] == "";
    } else {
      assert forall k :: 0 <= k < |s| - 2 ==> s[2..][k] == s[k + 2];
      DigitsAndDots(s[2..]);
      assert s[1] == '.' && s[1..][1..] == s[2..];
    }
  }

  lemma DottedDigitsAreOid(s: string)
    requires s != "" && |s| % 2 == 0
    requires forall k :: 0 <= k < |s| ==> if k % 2 == 1 then IsDigit(s[k]) else s[k] == '.'
    ensures ValidOid(s) && NormalizeOid(s) == s
  {
    assert forall k :: 0 <= k < |s| - 1 ==> s[1..][k] == s[k + 1];
    DigitsAndDots(s[1..]);
  }

  const TRAP_OID_NUMBERS := ["1", "3", "6", "1", "6", "3", "1", "1", "4", "1", "0"]
  const UPTIME_NUMBERS := ["1", "3", "6", "1", "2", "1", "1", "3", "0"]

  lemma TrapOidTail()
    ensures Join(["6", "3", "1", "1", "4", "1", "0"], '.') == "6.3.1.1.4.1.0"
  {
    JoinCons("1", ["0"]);
    JoinCons("4", ["1"] + ["0"]);
    JoinCons("1", ["4"] + (["1"] + ["0"]));
    JoinCons("1", ["1"] + (["4"] + (["1"] + ["0"])));
    JoinCons("3", ["1"] + (["1"] + (["4"] + (["1"] + ["0"]))));
    JoinCons("6", ["3"] + (["1"] + (["1"] + (["4"] + (["1"] + ["0"])))));
    assert ["6"] + (["3"] + (["1"] + (["1"] + (["4"] + (["1"] + ["0"]))))) == ["6", "3", "1", "1", "4", "1", "0"];
  }

  lemma UptimeTail()
    ensures Join(["2", "1", "1", "3", "0"], '.') == "2.1.1.3.0"
  {
    JoinCons("3", ["0"]);
    JoinCons("1", ["3"] + ["0"]);
    JoinCons("1", ["1"] + (["3"] + ["0"]));
    JoinCons("2", ["1"] + (["1"] + (["3"] + ["0"])));
    assert ["2"] + (["1"] + (["1"] + (["3"] + ["0"]))) == ["2", "1", "1", "3", "0"];
  }

  // A name below internet (1.3.6.1) is known by its numbers.
  lemma NameByNumbers(name: string, tail: seq<string>, text: string)
    requires tail != [] && Join(tail, '.') == text && forall t :: t in tail ==> '.' !in t
    ensures NormalizeOid(name) == "." + "1.3.6.1" + "." + text <==> Components(name) == ["1", "3", "6", "1"] + tail
  {
    var numbers := ["1", "3", "6", "1"] + tail;
    FirstFourText();
    JoinAppend(["1", "3", "6", "1"], tail, '.');
    SplitAfterJoin(numbers, '.');
    var whole := "." + Join(numbers, '.');
    assert StripDot(whole) == Join(numbers, '.');
    assert whole == "." + "1.3.6.1" + "." + text;
    NormalizeIdentifies(name, whole);
    assert NormalizeOid(whole) == whole;
  }

  lemma TrapOidName(name: string)
    ensures NormalizeOid(name) == SNMP_TRAP_OID <==> Components(name) == TRAP_OID_NUMBERS
  {
    TrapOidTail();
    var tail := ["6", "3", "1", "1", "4", "1", "0"];
    NameByNumbers(name, tail, "6.3.1.1.4.1.0");
    assert ["1", "3", "6", "1"] + tail == TRAP_OID_NUMBERS;
  }

  lemma UptimeName(name: string)
    ensures NormalizeOid(name) == SYS_UPTIME <==> Components(name) == UPTIME_NUMBERS
  {
    UptimeTail();
    var tail := ["2", "1", "1", "3", "0"];
    NameByNumbers(name, tail, "2.1.1.3.0");
    assert ["1", "3", "6", "1"] + tail == UPTIME_NUMBERS;
  }

  // The first and the last variable of a packet under a name.
  ghost predicate FirstUnder(variables: seq<Pdu>, numbers: seq<string>, i: nat) {
    i < |variables| && Components(variables[i].name) == numbers && forall k :: 0 <= k < i ==> Components(variables[k].name) != numbers
  }

  ghost predicate LastUnder(variables: seq<Pdu>, numbers: seq<string>, i: nat) {
    i < |variables| && Components(variables[i].name) == numbers
    && forall k :: i < k < |variables| ==> Components(variables[k].name) != numbers
  }

  ghost predicate NoneUnder(variables: seq<Pdu>, numbers: seq<string>) {
    forall k :: 0 <= k < |variables| ==> Components(variables[k].name) != numbers
  }

  lemma {:induction false} NamedNone(variables: seq<Pdu>, name: string, numbers: seq<string>)
    requires forall n :: NormalizeOid(n) == name <==> Components(n) == numbers
    ensures Named(variables, name) == [] <==> NoneUnder(variables, numbers)
  {
    if variables == [] {
    } else {
      NamedNone(variables[1..], name, numbers);
      assert variables == [variables[0]] + variables[1..];
    }
  }

  lemma {:induction false} NamedFirst(variables: seq<Pdu>, name: string, numbers: seq<string>, i: nat)
    requires forall n :: NormalizeOid(n) == name <==> Components(n) == numbers
    requires FirstUnder(variables, numbers, i)
    ensures Named(variables, name) != [] && Named(variables, name)[0] == variables[i].value
    decreases i
  {
    if i == 0 {
    } else {
      assert forall k :: 0 < k < |variables| ==> variables[k] == variables[1..][k - 1];
      NamedFirst(variables[1..], name, numbers, i - 1);
    }
  }

  lemma {:induction false} NamedLast(variables: seq<Pdu>, name: string, numbers: seq<string>, i: nat)
    requires forall n :: NormalizeOid(n) == name <==> Components(n) == numbers
    requires LastUnder(variables, numbers, i)
    ensures Named(variables, name) != [] && Last(Named(variables, name)) == variables[i].value
    decreases |variables|
  {
    var front, last := variables[..|variables| - 1], variables[|variables| - 1];
    NamedGrows(front, last, name);
    assert variables == front + [last];
    if i == |front| {
    } else {
      NamedLast(front, name, numbers, i);
    }
  }

  lemma NamedIsUnder(variables: seq<Pdu>, name: string, numbers: seq<string>)
    requires forall n :: NormalizeOid(n) == name <==> Components(n) == numbers
    ensures Named(variables, name) == [] <==> NoneUnder(variables, numbers)
    ensures forall i: nat :: FirstUnder(variables, numbers, i) ==>
              Named(variables, name) != [] && Named(variables, name)[0] == variables[i].value
    ensures forall i: nat :: LastUnder(variables, numbers, i) ==>
              Named(variables, name) != [] && Last(Named(variables, name)) == variables[i].value
  {
    NamedNone(variables, name, numbers);
    forall i: nat | FirstUnder(variables, numbers, i)
      ensures Named(variables, name) != [] && Named(variables, name)[0] == variables[i].value
    {
      NamedFirst(variables, name, numbers, i);
    }
    forall i: nat | LastUnder(variables, numbers, i)
      ensures Named(variables, name) != [] && Last(Named(variables, name)) == variables[i].value
    {
      NamedLast(variables, name, numbers, i);
    }
  }

  // A text gives the OID it spells, anything else gives none.
  ghost predicate GivesOid(text: Option<string>, oid: string) {
    if text.Some? && MatchesPattern(text.value) then SpellsOut(oid, Components(text.value)) else oid == ""
  }

  function TextOf(v: Value): Option<string> {
    match v case Text(s) => Some(s) case _ => None
  }

  // Octets count as the text they are.
  function TextOrOctets(v: Value): Option<string> {
    match v case Text(s) => Some(s) case RawBytes(octets) => Some(octets) case Opaque(_) => None
  }

  lemma NormalizedValueGivesOid(v: Value)
    ensures GivesOid(TextOf(v), NormalizeTrapOidValue(v))
    ensures GivesOid(TextOrOctets(v), NormalizeTrapOidValue(ConvertValue(v)))
  {
    match v
    case Text(t) => RecogniserIsThePattern(t); NormalizePrintsComponents(t);
    case RawBytes(t) => RecogniserIsThePattern(t); NormalizePrintsComponents(t);
    case Opaque(_) =>
  }

  // The OID a packet is routed by: its native one for v1, else what the first
  // snmpTrapOID.0 says; none without one.
  lemma RoutingOidIsExplicit(p: Packet)
    ensures p.version == V1 ==> RoutingOid(p) == V1TrapOid(p)
    ensures p.version != V1 ==> forall i: nat :: FirstUnder(p.variables, TRAP_OID_NUMBERS, i) ==>
              GivesOid(TextOf(p.variables[i].value), RoutingOid(p))
    ensures p.version != V1 && NoneUnder(p.variables, TRAP_OID_NUMBERS) ==> RoutingOid(p) == ""
  {
    forall n ensures NormalizeOid(n) == SNMP_TRAP_OID <==> Components(n) == TRAP_OID_NUMBERS { TrapOidName(n); }
    NamedIsUnder(p.variables, SNMP_TRAP_OID, TRAP_OID_NUMBERS);
    var named := Named(p.variables, SNMP_TRAP_OID);
    if named != [] { NormalizedValueGivesOid(named[0]); }
  }

  // What the payload of a packet holds: when and from where it came, its version,
  // whether it is an inform, the matched CIDR, every variable, the OID and the
  // uptime its last such variables say, and for v1 else its native ones.
  ghost predicate PayloadTells(p: Packet, now: int, sourceIp: Bits, sourcePort: nat, matchedCidr: string, r: Payload) {
    && r.receivedAt == now && r.sourceIp == sourceIp && r.sourcePort == sourcePort && r.matchedCidr == matchedCidr
    && (p.version == V1 ==> r.version == "1") && (p.version == V2c ==> r.version == "2c") && (p.version == V3 ==> r.version == "3")
    && (r.isInform <==> p.pduType == InformRequest)
    && ReportsAll(r.varbinds, p.variables)
    && (forall i: nat :: LastUnder(p.variables, TRAP_OID_NUMBERS, i) ==> GivesOid(TextOrOctets(p.variables[i].value), r.trapOid))
    && (NoneUnder(p.variables, TRAP_OID_NUMBERS) ==> r.trapOid == if p.version == V1 then V1TrapOid(p) else "")
    && (forall i: nat :: LastUnder(p.variables, UPTIME_NUMBERS, i) ==>
          r.uptime == Some(match p.variables[i].value case RawBytes(octets) => Text(octets) case v => v))
    && (NoneUnder(p.variables, UPTIME_NUMBERS) ==> r.uptime == if p.version == V1 then Some(Opaque(p.timestamp)) else None)
  }

  lemma PayloadOidIsExplicit(p: Packet)
    ensures forall i: nat :: LastUnder(p.variables, TRAP_OID_NUMBERS, i) ==> GivesOid(TextOrOctets(p.variables[i].value), PayloadOid(p))
    ensures NoneUnder(p.variables, TRAP_OID_NUMBERS) ==> PayloadOid(p) == if p.version == V1 then V1TrapOid(p) else ""
  {
    forall n ensures NormalizeOid(n) == SNMP_TRAP_OID <==> Components(n) == TRAP_OID_NUMBERS { TrapOidName(n); }
    NamedIsUnder(p.variables, SNMP_TRAP_OID, TRAP_OID_NUMBERS);
    var named := Named(p.variables, SNMP_TRAP_OID);
    if named != [] { NormalizedValueGivesOid(Last(named)); }
  }

  lemma UptimeIsExplicit(p: Packet)
    ensures forall i: nat :: LastUnder(p.variables, UPTIME_NUMBERS, i) ==>
              PayloadUptime(p) == Some(match p.variables[i].value case RawBytes(octets) => Text(octets) case v => v)
    ensures NoneUnder(p.variables, UPTIME_NUMBERS) ==> PayloadUptime(p) == if p.version == V1 then Some(Opaque(p.timestamp)) else None
  {
    forall n ensures NormalizeOid(n) == SYS_UPTIME <==> Components(n) == UPTIME_NUMBERS { UptimeName(n); }
    NamedIsUnder(p.variables, SYS_UPTIME, UPTIME_NUMBERS);
  }

  lemma PayloadIsExplicit(p: Packet, now: int, sourceIp: Bits, sourcePort: nat, matchedCidr: string)
    ensures PayloadTells(p, now, sourceIp, sourcePort, matchedCidr, PayloadOf(p, now, sourceIp, sourcePort, matchedCidr))
  {
    PayloadOidIsExplicit(p);
    UptimeIsExplicit(p);
  }

  predicate NormalOid(s: string) {
    ValidOid(s) && NormalizeOid(s) == s
  }

  lemma GenericOid(code: int)
    requires 0 <= code <= 5
    ensures NormalOid("." + GENERIC_PREFIX + "." + Itoa(code + 1))
  {
    V1TrapOidIsNormalExactlyWhen(Packet(V1, Trap, "", [], code, 0, "", 0));
  }

  lemma LinkOids()
    ensures NormalOid(LINK_DOWN) && NormalOid(LINK_UP) && LINK_DOWN != LINK_UP
  {
    assert Itoa(3) == "3" && Itoa(4) == "4";
    GenericOid(2);
    GenericOid(3);
    assert LINK_DOWN[|LINK_DOWN| - 1] != LINK_UP[|LINK_UP| - 1];
  }

  lemma VendorOid()
    ensures NormalOid(VENDOR)
  {
    DottedDigitsAreOid(VENDOR);
  }

  lemma FirstAndLast(one: Value, two: Value)
    ensures Named([Pdu(SNMP_TRAP_OID, "", one), Pdu(SNMP_TRAP_OID, "", two)], SNMP_TRAP_OID) == [one, two]
  {
    NamedOf(one);
    NamedOf(two);
    NamedGrows([Pdu(SNMP_TRAP_OID, "", one)], Pdu(SNMP_TRAP_OID, "", two), SNMP_TRAP_OID);
    assert [Pdu(SNMP_TRAP_OID, "", one)] + [Pdu(SNMP_TRAP_OID, "", two)] == [Pdu(SNMP_TRAP_OID, "", one), Pdu(SNMP_TRAP_OID, "", two)];
  }

  lemma RoutedByTheFirst(a: string, b: string)
    requires NormalOid(a) && NormalOid(b)
    ensures var p := V2Trap([Pdu(SNMP_TRAP_OID, "", Text(a)), Pdu(SNMP_TRAP_OID, "", Text(b))]);
            RoutingOid(p) == a && PayloadOid(p) == b
  {
    FirstAndLast(Text(a), Text(b));
  }

  lemma RoutedWithoutOctets(a: string)
    requires NormalOid(a)
    ensures var p := V2Trap([Pdu(SNMP_TRAP_OID, "", RawBytes(a))]);
            RoutingOid(p) == "" && PayloadOid(p) == a
  {
    NamedOf(RawBytes(a));
  }

  // Two different variables of that name: routed as linkDown, forwarded as linkUp.
  lemma TwoTrapOidsDisagree()
    ensures var p := V2Trap([Pdu(SNMP_TRAP_OID, "", Text(LINK_DOWN)), Pdu(SNMP_TRAP_OID, "", Text(LINK_UP))]);
            RoutingOid(p) == LINK_DOWN && PayloadOid(p) == LINK_UP && LINK_DOWN != LINK_UP
  {
    LinkOids();
    RoutedByTheFirst(LINK_DOWN, LINK_UP);
  }

  // Octets that spell linkDown: routed without an OID, forwarded as linkDown.
  lemma OctetsDisagree()
    ensures var p := V2Trap([Pdu(SNMP_TRAP_OID, "", RawBytes(LINK_DOWN))]);
            RoutingOid(p) == "" && PayloadOid(p) == LINK_DOWN
  {
    LinkOids();
    RoutedWithoutOctets(LINK_DOWN);
  }

  lemma NegativeSpecificPrints(enterprise: string)
    requires NormalOid(enterprise)
    ensures var p := Packet(V1, Trap, "public", [], 6, -1, enterprise, 0);
            V1TrapOid(p) == enterprise + (".0." + "-1") && !ValidOid(V1TrapOid(p))
  {
    var p := Packet(V1, Trap, "public", [], 6, -1, enterprise, 0);
    assert Itoa(-1) == "-1";
    V1TrapOidIsNormalExactlyWhen(p);
    assert enterprise + ".0." + "-1" == enterprise + (".0." + "-1");
  }

  // A vendor's trap with specific code -1: its OID ends in .0.-1, and is none.
  lemma NegativeSpecificPrintsNoOid()
    ensures var p := Packet(V1, Trap, "public", [], 6, -1, VENDOR, 0);
            V1TrapOid(p) == VENDOR + ".0.-1" && !ValidOid(V1TrapOid(p))
  {
    VendorOid();
    NegativeSpecificPrints(VENDOR);
    assert ".0." + "-1" == ".0.-1";
  }

  // ---- the decision on one packet ------------------------------------------

  datatype Job = Job(targetUrl: string, payload: Payload)

  datatype Datagram = Undecodable | Decoded(packet: Packet, sourceIp: Bits, sourcePort: nat, now: int)

  datatype Disposition = Rejected | Unmatched | Accepted(job: Job)

  datatype TrapConfig = TrapConfig(allowedCommunities: seq<string>, routes: seq<TrapRouter.Route>, defaultTarget: string)

  predicate CommunityAllowed(c: TrapConfig, community: string) {
    c.allowedCommunities == [] || community in c.allowedCommunities
  }

  method CheckCommunity(c: TrapConfig, community: string) returns (allowed: bool)
    ensures allowed == CommunityAllowed(c, community)
    ensures allowed <==> |c.allowedCommunities| == 0 || exists i :: 0 <= i < |c.allowedCommunities| && c.allowedCommunities[i] == community
  {
    if |c.allowedCommunities| == 0 {
      return true;
    }
    for i := 0 to |c.allowedCommunities|
      invariant forall k :: 0 <= k < i ==> c.allowedCommunities[k] != community
    {
      if c.allowedCommunities[i] == community {
        return true;
      }
    }
    return false;
  }

  function Dispose(c: TrapConfig, d: Datagram): Disposition {
    if d.Undecodable? then Rejected
    else
      var p := d.packet;
      if !Supported(p) then Rejected
      else if p.version != V3 && !CommunityAllowed(c, p.community) then Rejected
      else
        match TrapRouter.Lookup(c.routes, c.defaultTarget, d.sourceIp, RoutingOid(p))
        case NoRoute => Unmatched
        case Destination(url, cidr) => Accepted(Job(url, PayloadOf(p, d.now, d.sourceIp, d.sourcePort, cidr)))
  }

  // The datagram passes the checks that come before routing: it decodes, to a v1
  // trap, or a v2c or v3 trap or inform, and a v1 or v2c one carries a community
  // of the allowlist, unless that is empty.
  ghost predicate Admitted(c: TrapConfig, d: Datagram) {
    && d.Decoded?
    && (d.packet.version, d.packet.pduType) in {(V1, Trap), (V2c, TrapV2), (V2c, InformRequest), (V3, TrapV2), (V3, InformRequest)}
    && (d.packet.version in {V1, V2c} && c.allowedCommunities != [] ==>
          exists i :: 0 <= i < |c.allowedCommunities| && c.allowedCommunities[i] == d.packet.community)
  }

  // Exactly the datagrams that are not admitted are rejected.
  lemma RejectedExactlyWhen(c: TrapConfig, d: Datagram)
    ensures Dispose(c, d).Rejected? <==>
              || d.Undecodable?
              || (d.packet.version, d.packet.pduType) !in {(V1, Trap), (V2c, TrapV2), (V2c, InformRequest), (V3, TrapV2), (V3, InformRequest)}
              || (d.packet.version in {V1, V2c} && c.allowedCommunities != []
                  && forall i :: 0 <= i < |c.allowedCommunities| ==> c.allowedCommunities[i] != d.packet.community)
    ensures Dispose(c, d).Rejected? <==> !Admitted(c, d)
  {}

  // What an accepted datagram's job is for, and what it carries.
  ghost predicate SendsTo(d: Datagram, job: Job, url: string, cidr: string) {
    d.Decoded? && job.targetUrl == url && PayloadTells(d.packet, d.now, d.sourceIp, d.sourcePort, cidr, job.payload)
  }

  // Over routes that answer by a route file: an admitted packet is accepted for
  // the chosen entry's target, for the default target when no entry matches,
  // and otherwise unmatched.
  lemma AcceptedJobsFollowTheFile(c: TrapConfig, lib: TrapRouter.Library, file: seq<TrapRouter.RouteConfig>, d: Datagram)
    requires TrapRouter.AnswersByFile(lib, file, c.routes, c.defaultTarget) && Admitted(c, d)
    ensures var oid, x := RoutingOid(d.packet), Dispose(c, d);
            && (forall i: nat :: TrapRouter.Chosen(lib, file, d.sourceIp, oid, i) ==>
                  x.Accepted? && SendsTo(d, x.job, file[i].targetUrl, file[i].sourceCidr))
            && (TrapRouter.NoneMatches(lib, file, d.sourceIp, oid) ==>
                  if c.defaultTarget == "" then x.Unmatched? else x.Accepted? && SendsTo(d, x.job, c.defaultTarget, ""))
  {
    RejectedExactlyWhen(c, d);
    var found := TrapRouter.Lookup(c.routes, c.defaultTarget, d.sourceIp, RoutingOid(d.packet));
    if found.Destination? {
      PayloadIsExplicit(d.packet, d.now, d.sourceIp, d.sourcePort, found.cidr);
    }
  }

  // Over a loaded route file: a packet is accepted for the best rule's target,
  // for the default target when no rule is eligible, and otherwise unmatched.
  lemma AcceptedJobsFollowTheRules(c: TrapConfig, rules: seq<TrapRouter.Rule>, d: Datagram)
    requires c.routes == TrapRouter.SortedRoutes(rules)
    requires Admitted(c, d)
    ensures forall i: nat :: TrapRouter.IsBest(rules, d.sourceIp, RoutingOid(d.packet), i) ==>
              Dispose(c, d) == Accepted(Job(rules[i].targetUrl, PayloadOf(d.packet, d.now, d.sourceIp, d.sourcePort, rules[i].sourceCidr)))
    ensures TrapRouter.NoneEligible(rules, d.sourceIp, RoutingOid(d.packet)) ==>
              Dispose(c, d) == if c.defaultTarget == "" then Unmatched
                               else Accepted(Job(c.defaultTarget, PayloadOf(d.packet, d.now, d.sourceIp, d.sourcePort, "")))
  {
    RejectedExactlyWhen(c, d);
    TrapRouter.RoutingRefinement(rules, c.defaultTarget, d.sourceIp, RoutingOid(d.packet));
  }
}
