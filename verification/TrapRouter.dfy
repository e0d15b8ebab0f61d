// Trap routing: loading the route file, the network-blind sort, the first-match
// lookup, and the longest-prefix rule they implement together.
module TrapRouter {
  import opened Options
  import opened Text
  import opened Oid
  import opened Cidr
  import opened StableSort

  datatype RouteConfig = RouteConfig(sourceCidr: string, trapOid: string, targetUrl: string)

  datatype Route = Route(sourceCidr: string, trapOid: string, network: IPNet, targetUrl: string, prefixBits: nat)

  datatype LoadError = InvalidDefaultTarget | Unreadable | Undecodable | MissingField | InvalidCidr | InvalidTargetUrl | InvalidTrapOid

  type ValidPrefix = p: Prefix | p.Valid() witness Prefix(Repeat(32, false), 0)

  // The library calls of the loader: CIDR text to prefix, and the URL check.
  datatype Library = Library(parsePrefix: string -> Option<ValidPrefix>, httpUrl: string -> bool)

  // What is found under the path of the route file, if one is set.
  datatype RouteFile = NoPath | ReadFails | NotDecodable | Entries(entries: seq<RouteConfig>)

  // A route file entry after parsing.
  datatype Rule = Rule(sourceCidr: string, trapOid: string, targetUrl: string, prefix: ValidPrefix)

  function EntryError(lib: Library, c: RouteConfig): Option<LoadError> {
    if Blank(c.sourceCidr) || Blank(c.targetUrl) then Some(MissingField)
    else if lib.parsePrefix(c.sourceCidr).None? then Some(InvalidCidr)
    else if !lib.httpUrl(c.targetUrl) then Some(InvalidTargetUrl)
    else if c.trapOid != "" && !ValidOid(c.trapOid) then Some(InvalidTrapOid)
    else None
  }

  predicate AllSpace(s: string) {
    forall j :: 0 <= j < |s| ==> IsSpace(s[j])
  }

  // What each error says of the entry: the fields are there, then the CIDR
  // parses, then the target is a web address, then the trap OID, if any, is one.
  lemma EntryErrorMeans(lib: Library, c: RouteConfig)
    ensures var missing := AllSpace(c.sourceCidr) || AllSpace(c.targetUrl);
            var unparsed := lib.parsePrefix(c.sourceCidr).None?;
            var unusable := !lib.httpUrl(c.targetUrl);
            var misspelled := c.trapOid != "" && !MatchesPattern(c.trapOid);
            && (EntryError(lib, c) == Some(MissingField) <==> missing)
            && (EntryError(lib, c) == Some(InvalidCidr) <==> !missing && unparsed)
            && (EntryError(lib, c) == Some(InvalidTargetUrl) <==> !missing && !unparsed && unusable)
            && (EntryError(lib, c) == Some(InvalidTrapOid) <==> !missing && !unparsed && !unusable && misspelled)
            && (EntryError(lib, c) == None <==> !missing && !unparsed && !unusable && !misspelled)
  {
    BlankMeansAllSpace(c.sourceCidr);
    BlankMeansAllSpace(c.targetUrl);
    RecogniserIsThePattern(c.trapOid);
  }

  // The trap OID of an entry is the given normal one.
  predicate SameOid(entry: string, trapOid: string) {
    trapOid != "" && trapOid[0] == '.' && Components(entry) == Components(trapOid)
  }

  lemma SameOidIsNormalOid(entry: string, trapOid: string)
    ensures NormalizeOid(entry) == trapOid <==> SameOid(entry, trapOid)
  {
    NormalizeIdentifies(entry, trapOid);
  }

  // The rule holds what the entry says, each in its place.
  ghost predicate SaysEntry(lib: Library, r: Rule, c: RouteConfig) {
    && r.sourceCidr == c.sourceCidr && r.targetUrl == c.targetUrl
    && (if c.trapOid == "" then r.trapOid == "" else SameOid(c.trapOid, r.trapOid))
    && lib.parsePrefix(c.sourceCidr) == Some(r.prefix)
  }

  function ParseEntry(lib: Library, c: RouteConfig): (r: Rule)
    requires EntryError(lib, c).None?
    ensures SaysEntry(lib, r, c)
  {
    SameOidIsNormalOid(c.trapOid, NormalizeOid(c.trapOid));
    Rule(c.sourceCidr, if c.trapOid == "" then "" else NormalizeOid(c.trapOid), c.targetUrl,
         lib.parsePrefix(c.sourceCidr).value)
  }

  ghost predicate Loadable(lib: Library, file: seq<RouteConfig>) {
    forall i :: 0 <= i < |file| ==> EntryError(lib, file[i]).None?
  }

  // err is what the first invalid entry is rejected for.
  ghost predicate FirstError(lib: Library, file: seq<RouteConfig>, err: Option<LoadError>) {
    exists i :: 0 <= i < |file| && Loadable(lib, file[..i]) && EntryError(lib, file[i]) == err
  }

  ghost function Rules(lib: Library, file: seq<RouteConfig>): (rules: seq<Rule>)
    requires Loadable(lib, file)
    ensures |rules| == |file|
    ensures forall i :: 0 <= i < |file| ==> SaysEntry(lib, rules[i], file[i])
  {
    seq(|file|, i requires 0 <= i < |file| => ParseEntry(lib, file[i]))
  }

  function RouteOf(r: Rule): Route {
    var network := ParseCidr(r.prefix);
    Route(r.sourceCidr, r.trapOid, network, r.targetUrl, MaskOnes(network.mask))
  }

  function Routes(rules: seq<Rule>): (routes: seq<Route>)
    ensures |routes| == |rules|
  {
    if rules == [] then [] else Routes(rules[..|rules| - 1]) + [RouteOf(rules[|rules| - 1])]
  }

  // The route that an entry becomes.
  ghost predicate RouteSaysEntry(lib: Library, r: Route, c: RouteConfig) {
    && r.sourceCidr == c.sourceCidr && r.targetUrl == c.targetUrl
    && (if c.trapOid == "" then r.trapOid == "" else SameOid(c.trapOid, r.trapOid))
    && lib.parsePrefix(c.sourceCidr).Some?
    && (var p := lib.parsePrefix(c.sourceCidr).value; r.network == ParseCidr(p) && r.prefixBits == p.ones)
  }

  lemma RouteOfSaysEntry(lib: Library, r: Rule, c: RouteConfig)
    requires SaysEntry(lib, r, c)
    ensures RouteSaysEntry(lib, RouteOf(r), c)
  {
    MaskOnesOfMask(r.prefix.ones, |r.prefix.addr|);
  }

  lemma {:induction false} RoutesAt(rules: seq<Rule>)
    ensures forall k :: 0 <= k < |rules| ==> Routes(rules)[k] == RouteOf(rules[k])
  {
    if rules == [] {
    } else {
      RoutesAt(rules[..|rules| - 1]);
    }
  }

  lemma RoutesSayEntries(lib: Library, file: seq<RouteConfig>)
    requires Loadable(lib, file)
    ensures var routes := Routes(Rules(lib, file)); forall k :: 0 <= k < |file| ==> RouteSaysEntry(lib, routes[k], file[k])
  {
    var rules := Rules(lib, file);
    RoutesAt(rules);
    forall k | 0 <= k < |file| ensures RouteSaysEntry(lib, RouteOf(rules[k]), file[k]) {
      RouteOfSaysEntry(lib, rules[k], file[k]);
    }
  }

  lemma RoutesGrow(lib: Library, file: seq<RouteConfig>, i: nat)
    requires i < |file| && Loadable(lib, file[..i]) && EntryError(lib, file[i]).None?
    ensures Loadable(lib, file[..i + 1])
    ensures Routes(Rules(lib, file[..i + 1])) == Routes(Rules(lib, file[..i])) + [RouteOf(ParseEntry(lib, file[i]))]
    ensures RouteSaysEntry(lib, RouteOf(ParseEntry(lib, file[i])), file[i])
  {
    RouteOfSaysEntry(lib, ParseEntry(lib, file[i]), file[i]);
    var more := file[..i + 1];
    forall k | 0 <= k < |more| ensures EntryError(lib, more[k]).None? {
      assert more[k] == if k < i then file[..i][k] else file[i];
    }
    assert Rules(lib, more)[..i] == Rules(lib, file[..i]);
  }

  // The comparator handed to the sort.
  predicate RouteLess(a: Route, b: Route) {
    if a.prefixBits == b.prefixBits then a.trapOid != "" && b.trapOid == ""
    else a.prefixBits > b.prefixBits
  }

  function SortedRoutes(rules: seq<Rule>): seq<Route> {
    Sort(RouteLess, Routes(rules))
  }

  lemma RouteLessIsStrictWeakOrder()
    ensures StrictWeakOrder(RouteLess)
  {}

  predicate Accepts(r: Route, ip: Bits, trapOid: string) {
    Contains(r.network, ip) && (r.trapOid == "" || r.trapOid == trapOid)
  }

  // ---- lookup ------------------------------------------------------------

  datatype Destination = NoRoute | Destination(url: string, cidr: string)

  // What a first-match scan of a route list answers.
  function Scan(routes: seq<Route>, ip: Bits, trapOid: string): Option<Route> {
    if routes == [] then None
    else if Accepts(routes[0], ip, trapOid) then Some(routes[0])
    else Scan(routes[1..], ip, trapOid)
  }

  function Lookup(routes: seq<Route>, defaultTarget: string, ip: Bits, trapOid: string): Destination {
    match Scan(routes, ip, trapOid)
    case Some(r) => Destination(r.targetUrl, r.sourceCidr)
    case None => if defaultTarget != "" then Destination(defaultTarget, "") else NoRoute
  }

  // ---- the rule the documentation states ----------------------------------

  predicate Eligible(r: Rule, ip: Bits, trapOid: string) {
    InBlock(BlockOf(r.prefix), ip) && (r.trapOid == "" || r.trapOid == trapOid)
  }

  // Longer prefix first, then rules with a trap OID, then file order.
  predicate Precedes(rules: seq<Rule>, i: nat, j: nat)
    requires i < |rules| && j < |rules|
  {
    var a, b := rules[i], rules[j];
    || a.prefix.ones > b.prefix.ones
    || (a.prefix.ones == b.prefix.ones && a.trapOid != "" && b.trapOid == "")
    || (a.prefix.ones == b.prefix.ones && (a.trapOid == "" <==> b.trapOid == "") && i <= j)
  }

  ghost predicate IsBest(rules: seq<Rule>, ip: Bits, trapOid: string, i: nat) {
    && i < |rules|
    && Eligible(rules[i], ip, trapOid)
    && forall j :: 0 <= j < |rules| && Eligible(rules[j], ip, trapOid) ==> Precedes(rules, i, j)
  }

  lemma RouteOfAgrees(r: Rule, ip: Bits, trapOid: string)
    ensures Accepts(RouteOf(r), ip, trapOid) <==> Eligible(r, ip, trapOid)
    ensures RouteOf(r).prefixBits == r.prefix.ones
  {
    ContainsIsPrefixMatch(r.prefix, ip);
    MaskOnesOfMask(r.prefix.ones, |r.prefix.addr|);
  }

  lemma {:induction false} ScanConcat(a: seq<Route>, b: seq<Route>, ip: Bits, trapOid: string)
    ensures Scan(a + b, ip, trapOid) == if Scan(a, ip, trapOid).Some? then Scan(a, ip, trapOid) else Scan(b, ip, trapOid)
  {
    if a == [] {
      assert a + b == b;
    } else {
      ScanConcat(a[1..], b, ip, trapOid);
      assert (a + b)[1..] == a[1..] + b;
    }
  }

  lemma {:induction false} ScanFinds(s: seq<Route>, ip: Bits, trapOid: string) returns (k: nat)
    ensures k <= |s|
    ensures k == |s| <==> Scan(s, ip, trapOid).None?
    ensures k < |s| ==> Scan(s, ip, trapOid) == Some(s[k]) && Accepts(s[k], ip, trapOid)
    ensures forall j :: 0 <= j < k ==> !Accepts(s[j], ip, trapOid)
  {
    k := 0;
    if s != [] && !Accepts(s[0], ip, trapOid) {
      var k' := ScanFinds(s[1..], ip, trapOid);
      k := k' + 1;
      assert forall j :: 0 < j < k ==> s[j] == s[1..][j - 1];
    }
  }

  // Inserting one route into a sorted list changes the answer exactly when the
  // new route accepts and is strictly less than the old answer.
  lemma {:induction false} ScanAfterInsert(s: seq<Route>, x: Route, ip: Bits, trapOid: string)
    requires Sorted(RouteLess, s)
    ensures var before := Scan(s, ip, trapOid);
            Scan(Insert(RouteLess, s, x), ip, trapOid) ==
              if Accepts(x, ip, trapOid) && (before.None? || RouteLess(x, before.value)) then Some(x) else before
  {
    if s != [] && RouteLess(x, s[|s| - 1]) {
      var front, last := s[..|s| - 1], s[|s| - 1];
      ScanAfterInsert(front, x, ip, trapOid);
      ScanConcat(Insert(RouteLess, front, x), [last], ip, trapOid);
      ScanConcat(front, [last], ip, trapOid);
      assert s == front + [last];
    } else {
      ScanConcat(s, [x], ip, trapOid);
      var k := ScanFinds(s, ip, trapOid);
      if k < |s| - 1 { assert !RouteLess(s[|s| - 1], s[k]); }
    }
  }

  ghost predicate NoneEligible(rules: seq<Rule>, ip: Bits, trapOid: string) {
    forall j :: 0 <= j < |rules| ==> !Eligible(rules[j], ip, trapOid)
  }

  // The answer r is right for the rules: the best rule's route, or none.
  ghost predicate RightAnswer(rules: seq<Rule>, ip: Bits, trapOid: string, r: Option<Route>, i: nat) {
    if r.Some? then IsBest(rules, ip, trapOid, i) && r.value == RouteOf(rules[i])
    else NoneEligible(rules, ip, trapOid)
  }

  lemma AnswerWithOneMore(rules: seq<Rule>, x: Rule, ip: Bits, trapOid: string, r: Option<Route>, i: nat)
    requires RightAnswer(rules, ip, trapOid, r, i)
    ensures if Eligible(x, ip, trapOid) && (r.None? || RouteLess(RouteOf(x), r.value))
            then RightAnswer(rules + [x], ip, trapOid, Some(RouteOf(x)), |rules|)
            else RightAnswer(rules + [x], ip, trapOid, r, i)
  {
    RouteOfAgrees(x, ip, trapOid);
    if r.Some? { RouteOfAgrees(rules[i], ip, trapOid); }
    var more := rules + [x];
    assert forall j :: 0 <= j < |rules| ==> more[j] == rules[j];
    assert more[|rules|] == x;
    if Eligible(x, ip, trapOid) && (r.None? || RouteLess(RouteOf(x), r.value)) {
      forall j | 0 <= j < |more| && Eligible(more[j], ip, trapOid) ensures Precedes(more, |rules|, j) {
        if j < |rules| { assert Precedes(rules, i, j); }
      }
    } else if r.Some? {
      forall j | 0 <= j < |more| && Eligible(more[j], ip, trapOid) ensures Precedes(more, i, j) {
        if j < |rules| { assert Precedes(rules, i, j); }
      }
    }
  }

  // The first match over the sorted list is the rule's choice, for every
  // route file, address and trap OID; there is none exactly when no rule is
  // eligible.
  lemma {:induction false} FirstMatchIsBest(rules: seq<Rule>, ip: Bits, trapOid: string) returns (i: nat)
    ensures RightAnswer(rules, ip, trapOid, Scan(SortedRoutes(rules), ip, trapOid), i)
  {
    i := 0;
    if rules == [] {
    } else {
      var n := |rules| - 1;
      var front, x := rules[..n], rules[n];
      i := FirstMatchIsBest(front, ip, trapOid);
      RouteLessIsStrictWeakOrder();
      SortIsStable(RouteLess, Routes(front));
      assert Routes(rules)[..n] == Routes(front) && rules == front + [x];
      var before := SortedRoutes(front);
      ScanAfterInsert(before, RouteOf(x), ip, trapOid);
      RouteOfAgrees(x, ip, trapOid);
      AnswerWithOneMore(front, x, ip, trapOid, Scan(before, ip, trapOid), i);
      var r := Scan(before, ip, trapOid);
      if Eligible(x, ip, trapOid) && (r.None? || RouteLess(RouteOf(x), r.value)) {
        i := n;
      }
    }
  }

  lemma BestIsUnique(rules: seq<Rule>, ip: Bits, trapOid: string, i: nat, j: nat)
    requires IsBest(rules, ip, trapOid, i) && IsBest(rules, ip, trapOid, j)
    ensures i == j
  {}

  // A loaded router answers every lookup by the declarative choice, and falls
  // back to the default target exactly when no rule is eligible.
  lemma RoutingRefinement(rules: seq<Rule>, defaultTarget: string, ip: Bits, trapOid: string)
    ensures (exists i: nat :: IsBest(rules, ip, trapOid, i)) <==> !NoneEligible(rules, ip, trapOid)
    ensures forall i: nat :: IsBest(rules, ip, trapOid, i) ==>
              Lookup(SortedRoutes(rules), defaultTarget, ip, trapOid) == Destination(rules[i].targetUrl, rules[i].sourceCidr)
    ensures NoneEligible(rules, ip, trapOid) ==>
              Lookup(SortedRoutes(rules), defaultTarget, ip, trapOid) ==
                if defaultTarget == "" then NoRoute else Destination(defaultTarget, "")
  {
    var k := FirstMatchIsBest(rules, ip, trapOid);
    forall i: nat | IsBest(rules, ip, trapOid, i)
      ensures IsBest(rules, ip, trapOid, k) && i == k
    {
      BestIsUnique(rules, ip, trapOid, i, k);
    }
  }

  // ---- the rule over the route file ---------------------------------------------

  // An entry matches a sender and a trap OID.
  ghost predicate Matches(lib: Library, c: RouteConfig, ip: Bits, trapOid: string) {
    && lib.parsePrefix(c.sourceCidr).Some? && InBlock(BlockOf(lib.parsePrefix(c.sourceCidr).value), ip)
    && (c.trapOid == "" || SameOid(c.trapOid, trapOid))
  }

  function Length(lib: Library, c: RouteConfig): nat {
    match lib.parsePrefix(c.sourceCidr) case Some(p) => p.ones case None => 0
  }

  // Entry i is the choice: it matches, and every other matching entry has a
  // shorter prefix, or as long a one and no trap OID where i has one, or comes
  // later in the file with as much.
  ghost predicate Chosen(lib: Library, file: seq<RouteConfig>, ip: Bits, trapOid: string, i: nat) {
    && i < |file| && Matches(lib, file[i], ip, trapOid)
    && forall j :: 0 <= j < |file| && Matches(lib, file[j], ip, trapOid) ==>
         || Length(lib, file[j]) < Length(lib, file[i])
         || (Length(lib, file[j]) == Length(lib, file[i]) && file[j].trapOid == "" && file[i].trapOid != "")
         || (Length(lib, file[j]) == Length(lib, file[i]) && (file[j].trapOid == "" <==> file[i].trapOid == "") && i <= j)
  }

  ghost predicate NoneMatches(lib: Library, file: seq<RouteConfig>, ip: Bits, trapOid: string) {
    forall j :: 0 <= j < |file| ==> !Matches(lib, file[j], ip, trapOid)
  }

  // A lookup answers with the chosen entry's target and CIDR text; when none
  // matches, with the default target, if there is one.
  ghost predicate AnswersByFile(lib: Library, file: seq<RouteConfig>, routes: seq<Route>, defaultTarget: string) {
    forall ip, trapOid ::
      var d := Lookup(routes, defaultTarget, ip, trapOid);
      && (forall i: nat :: Chosen(lib, file, ip, trapOid, i) ==> d == Destination(file[i].targetUrl, file[i].sourceCidr))
      && (NoneMatches(lib, file, ip, trapOid) ==> d == if defaultTarget == "" then NoRoute else Destination(defaultTarget, ""))
      && (NoneMatches(lib, file, ip, trapOid) || exists i: nat :: Chosen(lib, file, ip, trapOid, i))
  }

  lemma MatchesIsEligible(lib: Library, r: Rule, c: RouteConfig, ip: Bits, trapOid: string)
    requires SaysEntry(lib, r, c)
    ensures Matches(lib, c, ip, trapOid) <==> Eligible(r, ip, trapOid)
    ensures Length(lib, c) == r.prefix.ones && (c.trapOid == "" <==> r.trapOid == "")
  {
    if c.trapOid != "" {
      SameOidIsNormalOid(c.trapOid, r.trapOid);
      SameOidIsNormalOid(c.trapOid, trapOid);
    }
  }

  lemma ChosenIsBest(lib: Library, file: seq<RouteConfig>, rules: seq<Rule>, ip: Bits, trapOid: string, i: nat)
    requires |rules| == |file| && forall k :: 0 <= k < |file| ==> SaysEntry(lib, rules[k], file[k])
    ensures Chosen(lib, file, ip, trapOid, i) <==> IsBest(rules, ip, trapOid, i)
    ensures NoneMatches(lib, file, ip, trapOid) <==> NoneEligible(rules, ip, trapOid)
  {
    forall k | 0 <= k < |file|
      ensures Matches(lib, file[k], ip, trapOid) <==> Eligible(rules[k], ip, trapOid)
      ensures Length(lib, file[k]) == rules[k].prefix.ones && (file[k].trapOid == "" <==> rules[k].trapOid == "")
    {
      MatchesIsEligible(lib, rules[k], file[k], ip, trapOid);
    }
  }

  // The sorted routes of a file's rules answer by the file.
  lemma SortedRoutesAnswerByFile(lib: Library, file: seq<RouteConfig>, rules: seq<Rule>, defaultTarget: string)
    requires |rules| == |file| && forall k :: 0 <= k < |file| ==> SaysEntry(lib, rules[k], file[k])
    ensures AnswersByFile(lib, file, SortedRoutes(rules), defaultTarget)
  {
    forall ip, trapOid
      ensures var d := Lookup(SortedRoutes(rules), defaultTarget, ip, trapOid);
              && (forall i: nat :: Chosen(lib, file, ip, trapOid, i) ==> d == Destination(file[i].targetUrl, file[i].sourceCidr))
              && (NoneMatches(lib, file, ip, trapOid) ==> d == if defaultTarget == "" then NoRoute else Destination(defaultTarget, ""))
              && (NoneMatches(lib, file, ip, trapOid) || exists i: nat :: Chosen(lib, file, ip, trapOid, i))
    {
      RoutingRefinement(rules, defaultTarget, ip, trapOid);
      forall i: nat ensures Chosen(lib, file, ip, trapOid, i) <==> IsBest(rules, ip, trapOid, i) {
        ChosenIsBest(lib, file, rules, ip, trapOid, i);
      }
      ChosenIsBest(lib, file, rules, ip, trapOid, 0);
    }
  }

  // ---- the router --------------------------------------------------------

  class Router {
    var routes: seq<Route>
    var defaultTarget: string

    constructor (defaultTarget: string)
      ensures this.routes == [] && this.defaultTarget == defaultTarget
    {
      this.routes := [];
      this.defaultTarget := defaultTarget;
    }

    // Appends one route per entry, stopping at the first invalid one.
    method AppendRoutes(lib: Library, entries: seq<RouteConfig>) returns (err: Option<LoadError>)
      requires routes == []
      modifies this`routes
      ensures err.None? <==> Loadable(lib, entries)
      ensures err.None? ==> routes == Routes(Rules(lib, entries))
      ensures err.None? ==> |routes| == |entries| && forall k :: 0 <= k < |entries| ==> RouteSaysEntry(lib, routes[k], entries[k])
      ensures err.Some? ==> FirstError(lib, entries, err)
    {
      var i := 0;
      while i < |entries|
        invariant i <= |entries|
        invariant Loadable(lib, entries[..i])
        invariant routes == Routes(Rules(lib, entries[..i]))
      {
        var e := EntryError(lib, entries[i]);
        if e.Some? {
          assert FirstError(lib, entries, e);
          return e;
        }
        RoutesGrow(lib, entries, i);
        routes := routes + [RouteOf(ParseEntry(lib, entries[i]))];
        i := i + 1;
      }
      assert entries[..i] == entries;
      RoutesSayEntries(lib, entries);
      return None;
    }

    method SortRoutes()
      modifies this`routes
      ensures routes == Sort(RouteLess, old(routes))
    {
      var unsorted := routes;
      var a := new Route[|unsorted|](k requires 0 <= k < |unsorted| => unsorted[k]);
      assert a[..] == unsorted;
      SortInPlace(a, RouteLess);
      routes := a[..];
    }

    static method Load(lib: Library, file: RouteFile, defaultTarget: string)
      returns (router: Router, err: Option<LoadError>)
      ensures fresh(router)
      ensures err.None? <==> (defaultTarget == "" || lib.httpUrl(defaultTarget))
                             && (file.NoPath? || (file.Entries? && Loadable(lib, file.entries)))
      ensures err == Some(InvalidDefaultTarget) <==> defaultTarget != "" && !lib.httpUrl(defaultTarget)
      ensures err.Some? && err.value != InvalidDefaultTarget ==>
                match file
                case NoPath => false
                case ReadFails => err.value == Unreadable
                case NotDecodable => err.value == Undecodable
                case Entries(entries) => FirstError(lib, entries, err)
      ensures err.None? ==> router.defaultTarget == defaultTarget
      ensures err.None? ==> router.routes == if file.NoPath? then [] else SortedRoutes(Rules(lib, file.entries))
      ensures err.None? ==> AnswersByFile(lib, if file.NoPath? then [] else file.entries, router.routes, defaultTarget)
    {
      router := new Router(defaultTarget);
      if defaultTarget != "" && !lib.httpUrl(defaultTarget) {
        return router, Some(InvalidDefaultTarget);
      }
      match file {
        case NoPath =>
          SortedRoutesAnswerByFile(lib, [], [], defaultTarget);
          return router, None;
        case ReadFails => return router, Some(Unreadable);
        case NotDecodable => return router, Some(Undecodable);
        case Entries(entries) =>
          err := router.AppendRoutes(lib, entries);
          if err.None? {
            router.SortRoutes();
            SortedRoutesAnswerByFile(lib, entries, Rules(lib, entries), defaultTarget);
          }
      }
    }

    method Match(ip: Bits, trapOid: string) returns (d: Destination)
      ensures d == Lookup(routes, defaultTarget, ip, trapOid)
    {
      var i := 0;
      while i < |routes|
        invariant i <= |routes|
        invariant Scan(routes, ip, trapOid) == Scan(routes[i..], ip, trapOid)
      {
        if Accepts(routes[i], ip, trapOid) {
          return Destination(routes[i].targetUrl, routes[i].sourceCidr);
        }
        i := i + 1;
      }
      return if defaultTarget != "" then Destination(defaultTarget, "") else NoRoute;
    }
  }

  // ---- most specific network ------------------------------------------------

  // A matching plain IPv4 rule that is longer than every matching IPv4-mapped
  // rule, while some mapped rule matches.
  ghost predicate MappedHides(rules: seq<Rule>, ip: Bits, trapOid: string) {
    && (exists m :: 0 <= m < |rules| && Eligible(rules[m], ip, trapOid) && Mapped(rules[m].prefix))
    && (exists q :: 0 <= q < |rules| && Eligible(rules[q], ip, trapOid) && !Mapped(rules[q].prefix)
          && forall m :: 0 <= m < |rules| && Eligible(rules[m], ip, trapOid) && Mapped(rules[m].prefix) ==>
               |BlockOf(rules[m].prefix).prefix| < |BlockOf(rules[q].prefix).prefix|)
  }

  ghost predicate MostSpecific(rules: seq<Rule>, ip: Bits, trapOid: string, i: nat)
    requires i < |rules|
  {
    forall j :: 0 <= j < |rules| && Eligible(rules[j], ip, trapOid) ==>
      Inside(BlockOf(rules[i].prefix), BlockOf(rules[j].prefix))
  }

  // Matching rules are of one family, and the mapped ones always sort first.
  lemma EligibleLengths(r: Rule, ip: Bits, trapOid: string)
    requires Eligible(r, ip, trapOid)
    ensures BlockOf(r.prefix).v4 <==> To4(ip).Some?
    ensures |BlockOf(r.prefix).prefix| == if Mapped(r.prefix) then r.prefix.ones - MAPPED_BITS else r.prefix.ones
    ensures To4(ip).Some? && !Mapped(r.prefix) ==> r.prefix.ones <= V4_BITS
    ensures Mapped(r.prefix) ==> To4(ip).Some?
  {}

  // The chosen network lies inside every other matching network exactly when
  // no mapped rule hides a longer plain one; and then, among rules for the
  // same network, a rule with the trap OID wins over a generic one.
  lemma ChoiceIsMostSpecificExactlyWhen(rules: seq<Rule>, ip: Bits, trapOid: string, i: nat)
    requires IsBest(rules, ip, trapOid, i)
    ensures MostSpecific(rules, ip, trapOid, i) <==> !MappedHides(rules, ip, trapOid)
    ensures forall j :: 0 <= j < |rules| && Eligible(rules[j], ip, trapOid) && rules[j].trapOid != ""
              && |rules[j].prefix.addr| == |rules[i].prefix.addr| && BlockOf(rules[j].prefix) == BlockOf(rules[i].prefix)
              ==> rules[i].trapOid == trapOid
  {}

  // Among rules for the chosen network, one with the trap OID wins over a
  // generic one.
  ghost predicate OidWinsTie(rules: seq<Rule>, ip: Bits, trapOid: string, i: nat)
    requires i < |rules|
  {
    forall j :: 0 <= j < |rules| && Eligible(rules[j], ip, trapOid) && rules[j].trapOid != "" ==>
      BlockOf(rules[j].prefix) == BlockOf(rules[i].prefix) ==> rules[i].trapOid != ""
  }

  // m is a generic IPv4-mapped rule, unsurpassed among the matching mapped ones,
  // and q a plain rule for the same network with the trap OID.
  ghost predicate MappedShadows(rules: seq<Rule>, ip: Bits, trapOid: string, m: nat, q: nat) {
    && m < |rules| && Eligible(rules[m], ip, trapOid) && Mapped(rules[m].prefix) && rules[m].trapOid == ""
    && q < |rules| && Eligible(rules[q], ip, trapOid) && !Mapped(rules[q].prefix) && rules[q].trapOid != ""
    && BlockOf(rules[m].prefix) == BlockOf(rules[q].prefix)
    && forall j :: 0 <= j < |rules| && Eligible(rules[j], ip, trapOid) && Mapped(rules[j].prefix) ==>
         && rules[j].prefix.ones <= rules[m].prefix.ones
         && (rules[j].prefix.ones == rules[m].prefix.ones ==> rules[j].trapOid == "")
  }

  ghost predicate MappedTakesTie(rules: seq<Rule>, ip: Bits, trapOid: string) {
    exists m: nat, q: nat :: MappedShadows(rules, ip, trapOid, m, q)
  }

  // The chosen rule is then as long as m, mapped and generic, and so for q's network.
  lemma ShadowIsChosen(rules: seq<Rule>, ip: Bits, trapOid: string, i: nat, m: nat, q: nat)
    requires IsBest(rules, ip, trapOid, i) && MappedShadows(rules, ip, trapOid, m, q)
    ensures rules[i].trapOid == "" && BlockOf(rules[i].prefix) == BlockOf(rules[q].prefix)
  {
    assert Precedes(rules, i, m);
    EligibleLengths(rules[i], ip, trapOid);
    EligibleLengths(rules[m], ip, trapOid);
    SharedAddressNests(BlockOf(rules[i].prefix), BlockOf(rules[m].prefix), ip);
  }

  // A generic choice over the trap OID for the same network is such a shadow.
  lemma LostTieIsShadow(rules: seq<Rule>, ip: Bits, trapOid: string, i: nat, q: nat)
    requires IsBest(rules, ip, trapOid, i) && rules[i].trapOid == ""
    requires q < |rules| && Eligible(rules[q], ip, trapOid) && rules[q].trapOid != "" && BlockOf(rules[q].prefix) == BlockOf(rules[i].prefix)
    ensures MappedShadows(rules, ip, trapOid, i, q)
  {
    assert Precedes(rules, i, q);
    EligibleLengths(rules[i], ip, trapOid);
    EligibleLengths(rules[q], ip, trapOid);
    assert forall j :: 0 <= j < |rules| && Eligible(rules[j], ip, trapOid) ==> Precedes(rules, i, j);
  }

  // The tie-break holds of the choice exactly when no mapped rule takes the tie.
  lemma OidWinsTieExactlyWhen(rules: seq<Rule>, ip: Bits, trapOid: string, i: nat)
    requires IsBest(rules, ip, trapOid, i)
    ensures OidWinsTie(rules, ip, trapOid, i) <==> !MappedTakesTie(rules, ip, trapOid)
  {
    forall m: nat, q: nat | MappedShadows(rules, ip, trapOid, m, q)
      ensures !OidWinsTie(rules, ip, trapOid, i)
    {
      ShadowIsChosen(rules, ip, trapOid, i, m, q);
    }
    if !OidWinsTie(rules, ip, trapOid, i) {
      var q :| 0 <= q < |rules| && Eligible(rules[q], ip, trapOid) && rules[q].trapOid != ""
               && BlockOf(rules[q].prefix) == BlockOf(rules[i].prefix) && rules[i].trapOid == "";
      LostTieIsShadow(rules, ip, trapOid, i, q);
    }
  }

  // 1.2.3.4
  const SENDER: Bits := Repeat(7, false) + [true] + Repeat(6, false) + [true, false] + Repeat(6, false) + [true, true]
                        + Repeat(5, false) + [true, false, false]

  const MAPPED_ALL := Prefix(MAPPED_PREFIX + Repeat(32, false), 96)

  lemma MappedAllIsEverything()
    ensures MAPPED_ALL.Valid() && BlockOf(MAPPED_ALL) == Block(true, []) && Mapped(MAPPED_ALL)
  {
    assert MAPPED_ALL.addr[..MAPPED_BITS] == MAPPED_PREFIX;
  }

  // A trap from 1.2.3.4: ::ffff:0.0.0.0/96 is chosen over 0.0.0.0/1.
  lemma MappedCidrBeatsLongerPlainOne()
    ensures MAPPED_ALL.Valid()
    ensures var rules := [Rule("::ffff:0.0.0.0/96", "", "http://a", MAPPED_ALL),
                          Rule("0.0.0.0/1", "", "http://b", Prefix(Repeat(32, false), 1))];
            && IsBest(rules, SENDER, "", 0)
            && !MostSpecific(rules, SENDER, "", 0)
  {
    MappedAllIsEverything();
    var q := Prefix(Repeat(32, false), 1);
    var rules := [Rule("::ffff:0.0.0.0/96", "", "http://a", MAPPED_ALL), Rule("0.0.0.0/1", "", "http://b", q)];
    assert BlockOf(q).prefix == [false] && SENDER[0] == false;
    assert Eligible(rules[0], SENDER, "");
    assert Eligible(rules[1], SENDER, "");
    assert !Inside(BlockOf(rules[0].prefix), BlockOf(rules[1].prefix));
  }

  // And a generic ::ffff:0.0.0.0/96 is chosen over 0.0.0.0/0 with the trap's OID.
  lemma MappedGenericBeatsPlainOid()
    ensures MAPPED_ALL.Valid()
    ensures var rules := [Rule("0.0.0.0/0", ".1.3", "http://b", Prefix(Repeat(32, false), 0)),
                          Rule("::ffff:0.0.0.0/96", "", "http://a", MAPPED_ALL)];
            && IsBest(rules, SENDER, ".1.3", 1)
            && !OidWinsTie(rules, SENDER, ".1.3", 1)
  {
    MappedAllIsEverything();
    var q := Prefix(Repeat(32, false), 0);
    var rules := [Rule("0.0.0.0/0", ".1.3", "http://b", q), Rule("::ffff:0.0.0.0/96", "", "http://a", MAPPED_ALL)];
    assert BlockOf(q) == Block(true, []);
    assert Eligible(rules[0], SENDER, ".1.3");
    assert Eligible(rules[1], SENDER, ".1.3");
  }

  // Reordering the route file can only swap rules with the same network and OID.
  lemma FileOrderMattersOnlyForTwins(rules: seq<Rule>, shuffled: seq<Rule>, ip: Bits, trapOid: string, i: nat, j: nat)
    requires multiset(rules) == multiset(shuffled)
    requires IsBest(rules, ip, trapOid, i) && IsBest(shuffled, ip, trapOid, j)
    ensures RouteOf(rules[i]).network == RouteOf(shuffled[j]).network
    ensures rules[i].trapOid == shuffled[j].trapOid
  {
    var a, b := rules[i], shuffled[j];
    assert a in multiset(shuffled) && b in multiset(rules);
    var i' :| 0 <= i' < |shuffled| && shuffled[i'] == a;
    var j' :| 0 <= j' < |rules| && rules[j'] == b;
    assert Precedes(rules, i, j') && Precedes(shuffled, j, i');
    EligibleLengths(a, ip, trapOid);
    EligibleLengths(b, ip, trapOid);
    SharedAddressNests(BlockOf(a.prefix), BlockOf(b.prefix), ip);
    if Mapped(a.prefix) {
      assert a.prefix.addr[..a.prefix.ones] == MAPPED_PREFIX + BlockOf(a.prefix).prefix;
      assert b.prefix.addr[..b.prefix.ones] == MAPPED_PREFIX + BlockOf(b.prefix).prefix;
    }
    SamePrefixSameNetwork(a.prefix, b.prefix);
  }
}
