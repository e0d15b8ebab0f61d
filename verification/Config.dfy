// The comma-separated settings and the numeric limits of the configuration.
module Config {
  import opened Options
  import opened Text

  datatype Config = Config(
    defaultSnmpTimeoutNs: int, defaultSnmpRetries: int, maxParallelTargets: int, maxTargetsPerQuery: int,
    maxOperationsPerTarget: int, maxOidsPerOperation: int, maxVarbindsPerOperation: int,
    trapForwardRetries: int, trapForwardQueueSize: int, trapForwardWorkers: int)
  {
    // What startup checks of the numbers above.
    predicate Valid() {
      && defaultSnmpTimeoutNs > 0 && defaultSnmpRetries >= 0 && maxParallelTargets > 0 && maxTargetsPerQuery > 0
      && maxOperationsPerTarget > 0 && maxOidsPerOperation > 0 && maxVarbindsPerOperation > 0
      && trapForwardRetries >= 0 && trapForwardQueueSize > 0 && trapForwardWorkers > 0
    }
  }

  // Startup refuses exactly the configurations with a number out of range.
  lemma RefusedExactlyWhen(c: Config)
    ensures !c.Valid() <==>
              || c.defaultSnmpTimeoutNs <= 0 || c.defaultSnmpRetries < 0
              || c.maxParallelTargets <= 0 || c.maxTargetsPerQuery <= 0
              || c.maxOperationsPerTarget <= 0 || c.maxOidsPerOperation <= 0 || c.maxVarbindsPerOperation <= 0
              || c.trapForwardRetries < 0 || c.trapForwardQueueSize <= 0 || c.trapForwardWorkers <= 0
  {}

  // The built-in configuration is accepted.
  lemma DefaultsAreValid()
    ensures Config(3_000_000_000, 1, 8, 64, 32, 128, 10000, 3, 1024, 4).Valid()
  {}

  // ---- comma-separated lists -------------------------------------------

  // The parts that are left when each is trimmed and empty ones are dropped.
  function TrimmedParts(parts: seq<string>): seq<string> {
    if parts == [] then []
    else (if TrimSpace(parts[0]) != "" then [TrimSpace(parts[0])] else []) + TrimmedParts(parts[1..])
  }

  function CsvItems(v: string): seq<string> {
    TrimmedParts(Split(v, ','))
  }

  lemma {:induction false} TrimmedPartsGrow(parts: seq<string>, x: string)
    ensures TrimmedParts(parts + [x]) == TrimmedParts(parts) + (if TrimSpace(x) != "" then [TrimSpace(x)] else [])
  {
    if parts == [] {
    } else {
      TrimmedPartsGrow(parts[1..], x);
      assert (parts + [x])[1..] == parts[1..] + [x];
    }
  }

  method SplitCsv(v: string) returns (out: seq<string>)
    ensures out == CsvItems(v)
  {
    out := [];
    var parts := Split(v, ',');
    var i := 0;
    while i < |parts|
      invariant i <= |parts|
      invariant out == TrimmedParts(parts[..i])
    {
      var trimmed := TrimSpace(parts[i]);
      TrimmedPartsGrow(parts[..i], parts[i]);
      assert parts[..i + 1] == parts[..i] + [parts[i]];
      if trimmed != "" {
        out := out + [trimmed];
      }
      i := i + 1;
    }
    assert parts[..i] == parts;
  }

  // An item that splitting can produce.
  predicate Clean(item: string) {
    item != "" && Trimmed(item) && ',' !in item
  }

  lemma {:induction false} TrimmedPartsAreClean(parts: seq<string>)
    requires forall p :: p in parts ==> ',' !in p
    ensures forall x :: x in TrimmedParts(parts) ==> Clean(x)
  {
    if parts == [] {
    } else {
      assert parts[0] in parts;
      TrimmedPartsAreClean(parts[1..]);
      TrimSpaceIsTrimmed(parts[0]);
    }
  }

  lemma {:induction false} CleanPartsStay(parts: seq<string>)
    requires forall p :: p in parts ==> Clean(p)
    ensures TrimmedParts(parts) == parts
  {
    if parts == [] {
    } else {
      assert Clean(parts[0]);
      CleanPartsStay(parts[1..]);
      TrimmedIsFixed(parts[0]);
      assert parts == [parts[0]] + parts[1..];
    }
  }

  // A list survives being joined and split again exactly when its items are clean.
  lemma JoinedListSurvivesExactlyWhen(items: seq<string>)
    ensures CsvItems(Join(items, ',')) == items <==> forall x :: x in items ==> Clean(x)
  {
    SplitPartsAvoidSeparator(Join(items, ','), ',');
    TrimmedPartsAreClean(Split(Join(items, ','), ','));
    if forall x :: x in items ==> Clean(x) {
      if items == [] {
        assert Split("", ',') == [""] && TrimmedParts([""]) == [];
      } else {
        SplitAfterJoin(items, ',');
        CleanPartsStay(items);
      }
    }
  }

  lemma CsvRoundTrip(v: string)
    ensures CsvItems(Join(CsvItems(v), ',')) == CsvItems(v)
  {
    SplitPartsAvoidSeparator(v, ',');
    TrimmedPartsAreClean(Split(v, ','));
    JoinedListSurvivesExactlyWhen(CsvItems(v));
  }

  // What a list setting comes to: the built-in list, overridden by a non-empty
  // environment value, becomes the default text of the flag.
  function ListSetting(fallback: seq<string>, env: string, flag: Option<string>): seq<string> {
    CsvItems(match flag case Some(text) => text case None => Join(if env != "" then CsvItems(env) else fallback, ','))
  }

  method LoadListSetting(fallback: seq<string>, env: string, flag: Option<string>) returns (list: seq<string>)
    ensures list == ListSetting(fallback, env, flag)
    ensures flag.Some? ==> list == CsvItems(flag.value)
    ensures flag.None? && env != "" ==> list == CsvItems(env)
    ensures flag.None? && env == "" ==> (list == fallback <==> forall x :: x in fallback ==> Clean(x))
  {
    list := fallback;
    if env != "" {
      list := SplitCsv(env);
      CsvRoundTrip(env);
    }
    var text := Join(list, ',');
    if flag.Some? {
      text := flag.value;
    }
    JoinedListSurvivesExactlyWhen(list);
    list := SplitCsv(text);
  }

  // The built-in certificate hosts; the other two lists are empty.
  const TLS_HOSTS := ["localhost", "127.0.0.1"]

  lemma HostsAreClean()
    ensures forall x :: x in TLS_HOSTS ==> Clean(x)
  {
    assert Clean("localhost") && Clean("127.0.0.1");
  }

  // Without a flag, no list the loader can start from is changed by being printed
  // and split again: the environment's items, or else the built-in ones, result.
  lemma ListSettingsAreAsConfigured(fallback: seq<string>, env: string)
    requires fallback == TLS_HOSTS || fallback == []
    ensures ListSetting(fallback, env, None) == if env != "" then CsvItems(env) else fallback
  {
    HostsAreClean();
    CsvRoundTrip(env);
    JoinedListSurvivesExactlyWhen(fallback);
  }
}
