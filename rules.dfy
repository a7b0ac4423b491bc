/**
 * The fork-activation table: for every network a test fixture may name, the
 * block number at which each protocol fork becomes active on the node under
 * test. 0 means active from genesis, 2000 means not active during any test,
 * 5 marks the fork whose transition a "...At5" network exercises.
 */
module Rules {
  import opened Fmt

  const ForkHomestead := "HIVE_FORK_HOMESTEAD"
  const ForkTangerine := "HIVE_FORK_TANGERINE"
  const ForkSpurious := "HIVE_FORK_SPURIOUS"
  const ForkDao := "HIVE_FORK_DAO_BLOCK"
  const ForkByzantium := "HIVE_FORK_BYZANTIUM"
  const ForkConstantinople := "HIVE_FORK_CONSTANTINOPLE"
  const ForkPetersburg := "HIVE_FORK_PETERSBURG"
  const ForkIstanbul := "HIVE_FORK_ISTANBUL"

  /** The eight environment keys every entry of the table sets. */
  const ForkKeys: set<string> :=
    {ForkHomestead, ForkTangerine, ForkSpurious, ForkDao,
     ForkByzantium, ForkConstantinople, ForkPetersburg, ForkIstanbul}

  /** The forks in the order they happened on the main network; the DAO block is not one of them here. */
  const ForkOrder: seq<string> :=
    [ForkHomestead, ForkTangerine, ForkSpurious, ForkByzantium,
     ForkConstantinople, ForkPetersburg, ForkIstanbul]

  /** "Not before the end of the test." */
  const Never := 2000

  /** The block at which a transition network switches. */
  const TransitionBlock := 5

  /** One row of the table, its thresholds in the source's key order. */
  function Schedule(homestead: int, tangerine: int, spurious: int, dao: int,
                    byzantium: int, constantinople: int, petersburg: int, istanbul: int): map<string, int>
  {
    map[ForkHomestead := homestead, ForkTangerine := tangerine, ForkSpurious := spurious,
        ForkDao := dao, ForkByzantium := byzantium, ForkConstantinople := constantinople,
        ForkPetersburg := petersburg, ForkIstanbul := istanbul]
  }

  /** `ruleset`: network name to fork thresholds. */
  const Ruleset: map<string, map<string, int>> := map[
    "Frontier"                        := Schedule(2000, 2000, 2000, 2000, 2000, 2000, 2000, 2000),
    "Homestead"                       := Schedule(0,    2000, 2000, 2000, 2000, 2000, 2000, 2000),
    "EIP150"                          := Schedule(0,    0,    2000, 2000, 2000, 2000, 2000, 2000),
    "EIP158"                          := Schedule(0,    0,    0,    2000, 2000, 2000, 2000, 2000),
    "Byzantium"                       := Schedule(0,    0,    0,    2000, 0,    2000, 2000, 2000),
    "Constantinople"                  := Schedule(0,    0,    0,    2000, 0,    0,    2000, 2000),
    "ConstantinopleFix"               := Schedule(0,    0,    0,    2000, 0,    0,    0,    2000),
    "Istanbul"                        := Schedule(0,    0,    0,    2000, 0,    0,    0,    0),
    "FrontierToHomesteadAt5"          := Schedule(5,    2000, 2000, 2000, 2000, 2000, 2000, 2000),
    "HomesteadToEIP150At5"            := Schedule(0,    5,    2000, 2000, 2000, 2000, 2000, 2000),
    "HomesteadToDaoAt5"               := Schedule(0,    2000, 2000, 5,    2000, 2000, 2000, 2000),
    "EIP158ToByzantiumAt5"            := Schedule(0,    0,    0,    2000, 5,    2000, 2000, 2000),
    "ByzantiumToConstantinopleAt5"    := Schedule(0,    0,    0,    2000, 0,    5,    2000, 2000),
    "ByzantiumToConstantinopleFixAt5" := Schedule(0,    0,    0,    2000, 0,    5,    5,    2000),
    "ConstantinopleFixToIstanbulAt5"  := Schedule(0,    0,    0,    2000, 0,    0,    0,    5)
  ]

  /** The networks the table has a row for. */
  const Networks: set<string> :=
    {"Frontier", "Homestead", "EIP150", "EIP158", "Byzantium", "Constantinople",
     "ConstantinopleFix", "Istanbul", "FrontierToHomesteadAt5", "HomesteadToEIP150At5",
     "HomesteadToDaoAt5", "EIP158ToByzantiumAt5", "ByzantiumToConstantinopleAt5",
     "ByzantiumToConstantinopleFixAt5", "ConstantinopleFixToIstanbulAt5"}

  /** Networks names exactly the rows of the table. */
  lemma NetworksAreRows()
    ensures Ruleset.Keys == Networks
  {
    forall n | n in Ruleset
      ensures n in Networks
    {
      RowNames(n);
    }
  }

  /**
   * `ruleset[net]` as Go reads it: a network that is not in the table gives
   * the nil map, which has no entries.
   */
  function RulesFor(network: string): (r: map<string, int>)
    ensures network in Ruleset ==> r == Ruleset[network]
    ensures network !in Ruleset ==> r == map[]
  {
    if network in Ruleset then Ruleset[network] else map[]
  }

  /** The thresholds as environment strings, each written with `%d`. */
  function RuleEnv(rules: map<string, int>): map<string, string> {
    map k | k in rules :: Decimal(rules[k])
  }

  /**
   * "From" with every fork that "to" sets differently moved to the transition
   * block: the schedule a transition network is meant to have.
   */
  function Blend(from: map<string, int>, to: map<string, int>): map<string, int> {
    map k | k in from :: if k in to && from[k] != to[k] then TransitionBlock else from[k]
  }

  lemma ScheduleEntries(a: int, b: int, c: int, d: int, e: int, f: int, g: int, h: int)
    ensures var r := Schedule(a, b, c, d, e, f, g, h);
      r.Keys == ForkKeys &&
      r[ForkHomestead] == a && r[ForkTangerine] == b && r[ForkSpurious] == c && r[ForkDao] == d &&
      r[ForkByzantium] == e && r[ForkConstantinople] == f && r[ForkPetersburg] == g && r[ForkIstanbul] == h
  {
  }

  /** The schedule switches forks on in their historical order. */
  predicate Ordered(r: map<string, int>) {
    forall i, j :: 0 <= i < j < |ForkOrder| ==>
      ForkOrder[i] in r && ForkOrder[j] in r && r[ForkOrder[i]] <= r[ForkOrder[j]]
  }

  lemma ChainIsOrdered(r: map<string, int>)
    requires r.Keys == ForkKeys
    requires r[ForkHomestead] <= r[ForkTangerine] <= r[ForkSpurious] <= r[ForkByzantium]
             <= r[ForkConstantinople] <= r[ForkPetersburg] <= r[ForkIstanbul]
    ensures Ordered(r)
  {
  }

  predicate Thresholds(r: map<string, int>) {
    forall k :: k in r ==> r[k] in {0, TransitionBlock, Never}
  }

  lemma ScheduleThresholds(a: int, b: int, c: int, d: int, e: int, f: int, g: int, h: int)
    requires a in {0, 5, 2000} && b in {0, 5, 2000} && c in {0, 5, 2000} && d in {0, 5, 2000}
    requires e in {0, 5, 2000} && f in {0, 5, 2000} && g in {0, 5, 2000} && h in {0, 5, 2000}
    ensures Thresholds(Schedule(a, b, c, d, e, f, g, h))
  {
    ScheduleEntries(a, b, c, d, e, f, g, h);
  }

  lemma BlendSchedules(a: int, b: int, c: int, d: int, e: int, f: int, g: int, h: int,
                       a': int, b': int, c': int, d': int, e': int, f': int, g': int, h': int)
    ensures Blend(Schedule(a, b, c, d, e, f, g, h), Schedule(a', b', c', d', e', f', g', h'))
         == Schedule(Step(a, a'), Step(b, b'), Step(c, c'), Step(d, d'),
                     Step(e, e'), Step(f, f'), Step(g, g'), Step(h, h'))
  {
    ScheduleEntries(a, b, c, d, e, f, g, h);
    ScheduleEntries(a', b', c', d', e', f', g', h');
    ScheduleEntries(Step(a, a'), Step(b, b'), Step(c, c'), Step(d, d'),
                    Step(e, e'), Step(f, f'), Step(g, g'), Step(h, h'));
    BlendByKeys(Schedule(a, b, c, d, e, f, g, h), Schedule(a', b', c', d', e', f', g', h'),
                Schedule(Step(a, a'), Step(b, b'), Step(c, c'), Step(d, d'),
                         Step(e, e'), Step(f, f'), Step(g, g'), Step(h, h')));
  }

  lemma BlendByKeys(x: map<string, int>, y: map<string, int>, z: map<string, int>)
    requires x.Keys == ForkKeys && y.Keys == ForkKeys && z.Keys == ForkKeys
    requires forall k :: k in ForkKeys ==> z[k] == Step(x[k], y[k])
    ensures Blend(x, y) == z
  {
  }

  function Step(x: int, y: int): int {
    if x != y then TransitionBlock else x
  }

  // ---------------------------------------------------------------------------
  // Reading the table. Each lookup in a 15-entry map display costs the solver
  // a comparison with every other key, so the rows are read three at a time.

  lemma RowNames(n: string)
    requires n in Ruleset
    ensures n == "Frontier"
         || n == "Homestead"
         || n == "EIP150"
         || n == "EIP158"
         || n == "Byzantium"
         || n == "Constantinople"
         || n == "ConstantinopleFix"
         || n == "Istanbul"
         || n == "FrontierToHomesteadAt5"
         || n == "HomesteadToEIP150At5"
         || n == "HomesteadToDaoAt5"
         || n == "EIP158ToByzantiumAt5"
         || n == "ByzantiumToConstantinopleAt5"
         || n == "ByzantiumToConstantinopleFixAt5"
         || n == "ConstantinopleFixToIstanbulAt5"
  {
  }

  lemma Rows1()
    ensures Ruleset["Frontier"] == Schedule(2000, 2000, 2000, 2000, 2000, 2000, 2000, 2000)
    ensures Ruleset["Homestead"] == Schedule(0,    2000, 2000, 2000, 2000, 2000, 2000, 2000)
    ensures Ruleset["EIP150"] == Schedule(0,    0,    2000, 2000, 2000, 2000, 2000, 2000)
  {
  }

  lemma Rows2()
    ensures Ruleset["EIP158"] == Schedule(0,    0,    0,    2000, 2000, 2000, 2000, 2000)
    ensures Ruleset["Byzantium"] == Schedule(0,    0,    0,    2000, 0,    2000, 2000, 2000)
    ensures Ruleset["Constantinople"] == Schedule(0,    0,    0,    2000, 0,    0,    2000, 2000)
  {
  }

  lemma Rows3()
    ensures Ruleset["ConstantinopleFix"] == Schedule(0,    0,    0,    2000, 0,    0,    0,    2000)
    ensures Ruleset["Istanbul"] == Schedule(0,    0,    0,    2000, 0,    0,    0,    0)
    ensures Ruleset["FrontierToHomesteadAt5"] == Schedule(5,    2000, 2000, 2000, 2000, 2000, 2000, 2000)
  {
  }

  lemma Rows4()
    ensures Ruleset["HomesteadToEIP150At5"] == Schedule(0,    5,    2000, 2000, 2000, 2000, 2000, 2000)
    ensures Ruleset["HomesteadToDaoAt5"] == Schedule(0,    2000, 2000, 5,    2000, 2000, 2000, 2000)
    ensures Ruleset["EIP158ToByzantiumAt5"] == Schedule(0,    0,    0,    2000, 5,    2000, 2000, 2000)
  {
  }

  lemma Rows5()
    ensures Ruleset["ByzantiumToConstantinopleAt5"] == Schedule(0,    0,    0,    2000, 0,    5,    2000, 2000)
    ensures Ruleset["ByzantiumToConstantinopleFixAt5"] == Schedule(0,    0,    0,    2000, 0,    5,    5,    2000)
    ensures Ruleset["ConstantinopleFixToIstanbulAt5"] == Schedule(0,    0,    0,    2000, 0,    0,    0,    5)
  {
  }

  // ---------------------------------------------------------------------------
  // Properties of the table

  /** Every entry sets exactly the eight fork keys, each to 0, 5 or 2000. */
  lemma EntriesAreComplete()
    ensures forall n :: n in Ruleset ==> Ruleset[n].Keys == ForkKeys
    ensures forall n :: n in Ruleset ==> Thresholds(Ruleset[n])
  {
    Rows1(); Rows2(); Rows3(); Rows4(); Rows5();
    forall a, b, c, d, e, f, g, h {
      ScheduleEntries(a, b, c, d, e, f, g, h);
    }
    forall a, b, c, d, e, f, g, h |
      a in {0, 5, 2000} && b in {0, 5, 2000} && c in {0, 5, 2000} && d in {0, 5, 2000} &&
      e in {0, 5, 2000} && f in {0, 5, 2000} && g in {0, 5, 2000} && h in {0, 5, 2000}
    {
      ScheduleThresholds(a, b, c, d, e, f, g, h);
    }
    forall n | n in Ruleset
      ensures Ruleset[n].Keys == ForkKeys && Thresholds(Ruleset[n])
    {
      RowNames(n);
    }
  }

  /** Thresholds never decrease along the fork order (the DAO block stands apart). */
  lemma ThresholdsAreOrdered()
    ensures forall n :: n in Ruleset ==> Ordered(Ruleset[n])
  {
    Rows1(); Rows2(); Rows3(); Rows4(); Rows5();
    forall a, b, c, d, e, f, g, h {
      ScheduleEntries(a, b, c, d, e, f, g, h);
    }
    forall n | n in Ruleset
      ensures Ordered(Ruleset[n])
    {
      RowNames(n);
      ChainIsOrdered(Ruleset[n]);
    }
  }

  /**
   * Each "XToYAt5" network is X with the forks that Y adds switched on at
   * block 5.
   */
  lemma EarlyTransitionsBlend()
    ensures Ruleset["FrontierToHomesteadAt5"] == Blend(Ruleset["Frontier"], Ruleset["Homestead"])
    ensures Ruleset["HomesteadToEIP150At5"] == Blend(Ruleset["Homestead"], Ruleset["EIP150"])
    ensures Ruleset["EIP158ToByzantiumAt5"] == Blend(Ruleset["EIP158"], Ruleset["Byzantium"])
  {
    Rows1(); Rows2(); Rows3(); Rows4();
    forall a, b, c, d, e, f, g, h, a', b', c', d', e', f', g', h' {
      BlendSchedules(a, b, c, d, e, f, g, h, a', b', c', d', e', f', g', h');
    }
  }

  /** The same for the transitions from Byzantium on. */
  lemma LateTransitionsBlend()
    ensures Ruleset["ByzantiumToConstantinopleAt5"] == Blend(Ruleset["Byzantium"], Ruleset["Constantinople"])
    ensures Ruleset["ByzantiumToConstantinopleFixAt5"] == Blend(Ruleset["Byzantium"], Ruleset["ConstantinopleFix"])
    ensures Ruleset["ConstantinopleFixToIstanbulAt5"] == Blend(Ruleset["ConstantinopleFix"], Ruleset["Istanbul"])
  {
    Rows2(); Rows3(); Rows5();
    forall a, b, c, d, e, f, g, h, a', b', c', d', e', f', g', h' {
      BlendSchedules(a, b, c, d, e, f, g, h, a', b', c', d', e', f', g', h');
    }
  }

  /** The DAO transition is Homestead with only the DAO block moved to block 5. */
  lemma DaoTransition()
    ensures Ruleset["HomesteadToDaoAt5"] == Ruleset["Homestead"][ForkDao := TransitionBlock]
  {
    Rows1(); Rows4();
    var x, y := Schedule(0, 2000, 2000, 2000, 2000, 2000, 2000, 2000)[ForkDao := TransitionBlock],
                Schedule(0, 2000, 2000, 5, 2000, 2000, 2000, 2000);
    ScheduleEntries(0, 2000, 2000, 2000, 2000, 2000, 2000, 2000);
    ScheduleEntries(0, 2000, 2000, 5, 2000, 2000, 2000, 2000);
    assert x.Keys == y.Keys;
    assert forall k :: k in ForkKeys ==> x[k] == y[k];
  }
}
