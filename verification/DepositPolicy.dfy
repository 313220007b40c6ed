/** Confirmation policies per currency and network, their overrides from the environment, and the checks the
    deposit watcher and the backfill scanner make against them. */
module DepositPolicy {
  import opened Wrappers
  import opened Text
  import Decimal

  datatype Policy = Policy(currency: string, network: string, detection: int, finality: int, tolerance: int)

  /** Known spellings of a network, brought to one; anything else is kept. */
  function Canonical(v: string): (name: string)
    ensures name != ""
  {
    if v == "" || v == "default" then "default"
    else if v == "btc" || v == "bitcoin" || v == "mainnet" || v == "bitcoin-mainnet" then "btc"
    else if v == "eth" || v == "ethereum" || v == "erc20" || v == "eth-mainnet" then "ethereum"
    else if v == "matic" || v == "polygon" || v == "polygon-pos" then "polygon"
    else if v == "bsc" || v == "bnb" || v == "bnb-smart-chain" || v == "binance-smart-chain" || v == "bep20" then "bsc"
    else v
  }

  function NetworkName(raw: string): (name: string)
    ensures name != ""
  {
    Canonical(Lower(Trim(raw)))
  }

  function CurrencyName(raw: string): string {
    Upper(Trim(raw))
  }

  function PolicyKey(currency: string, network: string): string {
    CurrencyName(currency) + ":" + NetworkName(network)
  }

  /** The policy as it is stored: at least one confirmation to detect, and no fewer to be final. */
  function Stored(p: Policy): Policy {
    var detection := if p.detection <= 0 then 1 else p.detection;
    Policy(CurrencyName(p.currency), NetworkName(p.network), detection,
           if p.finality < detection then detection else p.finality, p.tolerance)
  }

  function Put(m: map<string, Policy>, p: Policy): map<string, Policy> {
    if CurrencyName(p.currency) == "" then m
    else m[PolicyKey(CurrencyName(p.currency), NetworkName(p.network)) := Stored(p)]
  }

  /** The policy for a currency on a network, else the currency's default one. */
  function Resolve(m: map<string, Policy>, currency: string, network: string): Option<Policy> {
    var c, n := CurrencyName(currency), NetworkName(network);
    if PolicyKey(c, n) in m then Some(m[PolicyKey(c, n)])
    else if PolicyKey(c, "default") in m then Some(m[PolicyKey(c, "default")])
    else None
  }

  /** A count of confirmations from the environment; the fallback unless it is a positive number. */
  function EnvCount(env: map<string, string>, key: string, fallback: int): int {
    var raw := if key in env then Trim(env[key]) else "";
    if raw == "" then fallback
    else match Decimal.ParseInt64(raw)
      case Err(_) => fallback
      case Ok(v) => if v <= 0 then fallback else v
  }

  /** A tolerance from the environment; the fallback unless it is a number that is not negative. */
  function EnvTolerance(env: map<string, string>, key: string, fallback: int): int {
    var raw := if key in env then Trim(env[key]) else "";
    if raw == "" then fallback
    else match Decimal.ParseInt64(raw)
      case Err(_) => fallback
      case Ok(v) => if v < 0 then fallback else v
  }

  /** One line of the built-in table: a policy and the environment keys that override it. */
  datatype Line = Line(currency: string, network: string, finality: int, keys: string)

  const LINES: seq<Line> := [
    Line("BTC", "btc", 2, "BTC_DEPOSIT"),
    Line("USDC", "ethereum", 12, "USDC_ETH_DEPOSIT"),
    Line("USDC", "polygon", 64, "USDC_POLYGON_DEPOSIT"),
    Line("ETH", "ethereum", 12, "ETH_DEPOSIT"),
    Line("BNB", "bsc", 20, "BNB_BSC_DEPOSIT"),
    Line("USDT", "ethereum", 12, "USDT_ETH_DEPOSIT"),
    Line("USDT", "polygon", 64, "USDT_POLYGON_DEPOSIT")
  ]

  function Default(line: Line): Policy {
    Policy(line.currency, line.network, 1, line.finality, 0)
  }

  /** The policy found for a line, with whatever the environment sets in its place. */
  function Overridden(m: map<string, Policy>, env: map<string, string>, line: Line): Policy {
    var p := match Resolve(m, line.currency, line.network)
      case Some(q) => q
      case None => Policy(line.currency, line.network, 1, 1, 0);
    p.(detection := EnvCount(env, line.keys + "_DETECTION_CONFIRMATIONS", p.detection),
       finality := EnvCount(env, line.keys + "_FINALITY_CONFIRMATIONS", p.finality),
       tolerance := EnvTolerance(env, line.keys + "_AMOUNT_TOLERANCE_MINOR", p.tolerance))
  }

  function Defaults(n: nat): map<string, Policy>
    requires n <= |LINES|
  {
    if n == 0 then map[] else Put(Defaults(n - 1), Default(LINES[n - 1]))
  }

  function FromEnv(env: map<string, string>, n: nat): map<string, Policy>
    requires n <= |LINES|
  {
    if n == 0 then Defaults(|LINES|)
    else
      var m := FromEnv(env, n - 1);
      Put(m, Overridden(m, env, LINES[n - 1]))
  }

  predicate Sane(p: Policy) {
    1 <= p.detection <= p.finality && p.tolerance >= 0
  }

  predicate AllSane(m: map<string, Policy>) {
    forall k <- m :: Sane(m[k])
  }

  lemma PutKeepsSane(m: map<string, Policy>, p: Policy)
    requires AllSane(m) && p.tolerance >= 0
    ensures AllSane(Put(m, p))
  {
    hide CurrencyName, NetworkName, PolicyKey;
  }

  lemma {:induction false} DefaultsAreSane(n: nat)
    requires n <= |LINES|
    ensures AllSane(Defaults(n))
  {
    if n > 0 {
      DefaultsAreSane(n - 1);
      hide LINES;
      PutKeepsSane(Defaults(n - 1), Default(LINES[n - 1]));
    }
  }

  lemma OverriddenTolerance(m: map<string, Policy>, env: map<string, string>, line: Line)
    requires AllSane(m)
    ensures Overridden(m, env, line).tolerance >= 0
  {
    hide CurrencyName, NetworkName, PolicyKey, Trim, Decimal.ParseInt64;
  }

  lemma {:induction false} FromEnvIsSane(env: map<string, string>, n: nat)
    requires n <= |LINES|
    ensures AllSane(FromEnv(env, n))
  {
    hide LINES, AllSane, Put, Overridden;
    if n == 0 {
      DefaultsAreSane(|LINES|);
    } else {
      FromEnvIsSane(env, n - 1);
      var m := FromEnv(env, n - 1);
      OverriddenTolerance(m, env, LINES[n - 1]);
      PutKeepsSane(m, Overridden(m, env, LINES[n - 1]));
    }
  }

  // ------------------------------------------------------------------ which line an override reaches

  predicate AllUpper(s: string) {
    s != "" && forall c <- s :: IsUpper(c)
  }

  predicate AllLower(s: string) {
    s != "" && forall c <- s :: IsLower(c)
  }

  lemma UpperStays(s: string)
    requires AllUpper(s)
    ensures CurrencyName(s) == s
  {
    assert s[0] in s && s[|s| - 1] in s;
    assert TrimLeft(s) == s;
    assert TrimRight(s) == s;
    hide Trim, TrimLeft, TrimRight, IsSpace;
    forall i | 0 <= i < |s|
      ensures Upper(s)[i] == s[i]
    {
      assert s[i] in s;
    }
  }

  lemma LowerStays(s: string)
    requires AllLower(s)
    ensures Lower(Trim(s)) == s
  {
    assert s[0] in s && s[|s| - 1] in s;
    assert TrimLeft(s) == s;
    assert TrimRight(s) == s;
    hide Trim, TrimLeft, TrimRight, IsSpace;
    forall i | 0 <= i < |s|
      ensures Lower(s)[i] == s[i]
    {
      assert s[i] in s;
    }
  }

  const NETWORKS := {"btc", "ethereum", "polygon", "bsc"}

  lemma NetworksAreLower(n: string)
    requires n in NETWORKS
    ensures AllLower(n)
  {
  }

  lemma CanonicalStays(n: string)
    requires n in NETWORKS
    ensures Canonical(n) == n
  {
  }

  lemma StoredNetwork(n: string)
    requires n in NETWORKS
    ensures NetworkName(n) == n
  {
    hide Canonical, Lower, Trim, AllLower, NETWORKS;
    NetworksAreLower(n);
    LowerStays(n);
    CanonicalStays(n);
  }

  /** A line in the spelling policies are stored in. */
  predicate Spelled(line: Line) {
    CurrencyName(line.currency) == line.currency != "" && NetworkName(line.network) == line.network
  }

  lemma LineNames(i: nat)
    requires i < |LINES|
    ensures AllUpper(LINES[i].currency) && LINES[i].network in NETWORKS && LINES[i].finality >= 1
  {
  }

  lemma LineIsSpelled(i: nat)
    requires i < |LINES|
    ensures Spelled(LINES[i])
  {
    hide LINES, CurrencyName, NetworkName, NETWORKS;
    LineNames(i);
    UpperStays(LINES[i].currency);
    StoredNetwork(LINES[i].network);
  }

  function KeyOf(line: Line): string {
    PolicyKey(line.currency, line.network)
  }

  lemma SpelledKey(line: Line)
    requires Spelled(line)
    ensures KeyOf(line) == line.currency + ":" + line.network
    ensures PolicyKey(CurrencyName(line.currency), NetworkName(line.network)) == KeyOf(line)
  {
    hide CurrencyName, NetworkName;
  }

  lemma TextsDiffer(i: nat, j: nat)
    requires i < j < |LINES|
    ensures LINES[i].currency + ":" + LINES[i].network != LINES[j].currency + ":" + LINES[j].network
  {
    var a, b := LINES[i].currency + ":" + LINES[i].network, LINES[j].currency + ":" + LINES[j].network;
    assert |a| != |b| || a[0] != b[0] || a[2] != b[2] || a[3] != b[3];
  }

  lemma KeysDiffer(i: nat, j: nat)
    requires i < |LINES| && j < |LINES| && i != j
    ensures KeyOf(LINES[i]) != KeyOf(LINES[j])
  {
    hide LINES, PolicyKey, Spelled;
    LineIsSpelled(i);
    LineIsSpelled(j);
    SpelledKey(LINES[i]);
    SpelledKey(LINES[j]);
    if i < j {
      TextsDiffer(i, j);
    } else {
      TextsDiffer(j, i);
    }
  }

  // Putting a line's policy writes its own entry and no other line's.
  lemma PutAtLine(m: map<string, Policy>, p: Policy, i: nat, j: nat)
    requires i < |LINES| && j < |LINES| && p.currency == LINES[i].currency && p.network == LINES[i].network
    ensures KeyOf(LINES[j]) in Put(m, p) <==> i == j || KeyOf(LINES[j]) in m
    ensures i == j ==> Put(m, p)[KeyOf(LINES[j])] == Stored(p)
    ensures i != j && KeyOf(LINES[j]) in m ==> Put(m, p)[KeyOf(LINES[j])] == m[KeyOf(LINES[j])]
  {
    hide LINES, KeyOf, PolicyKey, CurrencyName, NetworkName, Stored;
    LineIsSpelled(i);
    SpelledKey(LINES[i]);
    if i != j {
      KeysDiffer(i, j);
    }
  }

  lemma StoredDefault(i: nat)
    requires i < |LINES|
    ensures Stored(Default(LINES[i])) == Default(LINES[i])
  {
    hide LINES, CurrencyName, NetworkName;
    LineIsSpelled(i);
    LineNames(i);
  }

  lemma {:induction false} DefaultAtLine(n: nat, j: nat)
    requires n <= |LINES| && j < |LINES|
    ensures KeyOf(LINES[j]) in Defaults(n) <==> j < n
    ensures j < n ==> Defaults(n)[KeyOf(LINES[j])] == Default(LINES[j])
  {
    hide LINES, KeyOf, Put, Stored, Spelled;
    if n > 0 {
      DefaultAtLine(n - 1, j);
      PutAtLine(Defaults(n - 1), Default(LINES[n - 1]), n - 1, j);
      StoredDefault(n - 1);
    }
  }

  /** What the environment makes of a line: its own three keys, over the built-in values. */
  function Configured(env: map<string, string>, line: Line): Policy {
    Policy(line.currency, line.network,
           EnvCount(env, line.keys + "_DETECTION_CONFIRMATIONS", 1),
           EnvCount(env, line.keys + "_FINALITY_CONFIRMATIONS", line.finality),
           EnvTolerance(env, line.keys + "_AMOUNT_TOLERANCE_MINOR", 0))
  }

  lemma ResolveAtLine(m: map<string, Policy>, i: nat)
    requires i < |LINES| && KeyOf(LINES[i]) in m
    ensures Resolve(m, LINES[i].currency, LINES[i].network) == Some(m[KeyOf(LINES[i])])
  {
    hide LINES, KeyOf, PolicyKey, CurrencyName, NetworkName, Spelled;
    LineIsSpelled(i);
    SpelledKey(LINES[i]);
  }

  // Applied to a line's built-in policy, the overrides give the configured one.
  lemma OverriddenDefault(m: map<string, Policy>, env: map<string, string>, line: Line)
    requires Resolve(m, line.currency, line.network) == Some(Default(line))
    ensures Overridden(m, env, line) == Configured(env, line)
  {
    hide EnvCount, EnvTolerance, Resolve;
  }

  lemma {:induction false} EnvAtLine(env: map<string, string>, n: nat, j: nat)
    requires n <= |LINES| && j < |LINES|
    ensures KeyOf(LINES[j]) in FromEnv(env, n)
    ensures FromEnv(env, n)[KeyOf(LINES[j])] == if j < n then Stored(Configured(env, LINES[j])) else Default(LINES[j])
  {
    hide LINES, KeyOf, Put, Stored, Overridden, Resolve, Default, EnvCount, EnvTolerance;
    if n == 0 {
      DefaultAtLine(|LINES|, j);
    } else {
      var i := n - 1;
      EnvAtLine(env, i, j);
      EnvAtLine(env, i, i);
      ResolveAtLine(FromEnv(env, i), i);
      OverriddenDefault(FromEnv(env, i), env, LINES[i]);
      PutAtLine(FromEnv(env, i), Configured(env, LINES[i]), i, j);
    }
  }

  /** The policy a line ends up with: finality raised to detection when it is set lower. */
  function Effective(p: Policy): Policy {
    p.(finality := if p.finality < p.detection then p.detection else p.finality)
  }

  lemma StoredConfigured(env: map<string, string>, line: Line)
    requires Spelled(line)
    ensures Stored(Configured(env, line)) == Effective(Configured(env, line))
  {
    hide CurrencyName, NetworkName, EnvTolerance, Trim, Decimal.ParseInt64;
  }

  /** Each configured currency and network resolves to its own line: the counts and the tolerance its own three
      environment keys set, built-in values where they set none, finality raised to detection if it is lower. */
  lemma {:induction false} LineResolves(env: map<string, string>, i: nat)
    requires i < |LINES|
    ensures Resolve(FromEnv(env, |LINES|), LINES[i].currency, LINES[i].network) == Some(Effective(Configured(env, LINES[i])))
  {
    hide LINES, KeyOf, FromEnv, Resolve, Stored, Configured, Effective, Spelled;
    EnvAtLine(env, |LINES|, i);
    ResolveAtLine(FromEnv(env, |LINES|), i);
    LineIsSpelled(i);
    StoredConfigured(env, LINES[i]);
  }

  // ------------------------------------------------------------------ where a deposit is expected

  predicate HasPrefix(s: string, prefix: string) {
    prefix <= s
  }

  function ColonAt(s: string): (k: nat)
    ensures k <= |s|
    ensures k < |s| ==> s[k] == ':'
  {
    if s == "" || s[0] == ':' then 0 else 1 + ColonAt(s[1..])
  }

  /** The network the environment sets for a stablecoin's deposits. */
  function StableNetwork(env: map<string, string>, currency: string): string {
    var key := currency + "_DEPOSIT_NETWORK";
    var network := NetworkName(if key in env then env[key] else "");
    if network == "default" then "ethereum" else network
  }

  /** Network and address of a deposit address: tagged with its network, or left to the currency's usual one, which for a
      stablecoin the environment may set. */
  function Expected(currency: string, address: string, env: map<string, string>): (string, string) {
    var t := Trim(address);
    var k := ColonAt(t);
    if HasPrefix(Lower(t), "sandbox://") then ("sandbox", t)
    else if k < |t| && Trim(t[k + 1..]) != "" then (NetworkName(t[..k]), Trim(t[k + 1..]))
    else
      var c := CurrencyName(currency);
      if c == "BTC" then ("btc", t)
      else if c == "ETH" then ("ethereum", t)
      else if c == "BNB" then ("bsc", t)
      else if c == "USDC" || c == "USDT" then
        (StableNetwork(env, c), t)
      else ("default", t)
  }

  /** The policy a worker applies; one confirmation and no tolerance when none is configured. */
  function Applied(m: map<string, Policy>, currency: string, network: string): Policy {
    match Resolve(m, currency, network)
    case Some(p) => p
    case None => Policy(CurrencyName(currency), network, 1, 1, 0)
  }

  lemma AppliedIsSane(m: map<string, Policy>, currency: string, network: string)
    requires AllSane(m)
    ensures Sane(Applied(m, currency, network))
  {
    hide CurrencyName, NetworkName, PolicyKey;
  }

  predicate OutsideTolerance(expected: int, observed: int, tolerance: int) {
    var delta := observed - expected;
    (if delta < 0 then -delta else delta) > tolerance
  }

  // ------------------------------------------------------------------ the policy set as the program fills it

  class PolicySet {
    var policies: map<string, Policy>

    /** The built-in table under the overrides of an environment. */
    constructor (env: map<string, string>)
      ensures policies == FromEnv(env, |LINES|)
      ensures AllSane(policies)
    {
      policies := map[];
      new;
      PutDefaults();
      Override(env, LINES[0]);
      Override(env, LINES[1]);
      Override(env, LINES[2]);
      Override(env, LINES[3]);
      Override(env, LINES[4]);
      Override(env, LINES[5]);
      Override(env, LINES[6]);
      EnvUnrolled(env);
      FromEnvIsSane(env, |LINES|);
    }

    method PutDefaults()
      requires policies == map[]
      modifies this
      ensures policies == Defaults(|LINES|)
    {
      PutPolicy(Default(LINES[0]));
      PutPolicy(Default(LINES[1]));
      PutPolicy(Default(LINES[2]));
      PutPolicy(Default(LINES[3]));
      PutPolicy(Default(LINES[4]));
      PutPolicy(Default(LINES[5]));
      PutPolicy(Default(LINES[6]));
      DefaultsUnrolled();
    }

    method PutPolicy(p: Policy)
      modifies this
      ensures policies == Put(old(policies), p)
    {
      hide CurrencyName, NetworkName, PolicyKey;
      var currency, network := CurrencyName(p.currency), NetworkName(p.network);
      if currency == "" || network == "" {
        return;
      }
      var q := p;
      if q.detection <= 0 {
        q := q.(detection := 1);
      }
      if q.finality < q.detection {
        q := q.(finality := q.detection);
      }
      q := q.(currency := currency, network := network);
      policies := policies[PolicyKey(currency, network) := q];
    }

    method Override(env: map<string, string>, line: Line)
      modifies this
      ensures policies == Put(old(policies), Overridden(old(policies), env, line))
    {
      PutPolicy(Overridden(policies, env, line));
    }
  }

  lemma DefaultsUnrolled()
    ensures Defaults(|LINES|)
         == Put(Put(Put(Put(Put(Put(Put(map[], Default(LINES[0])), Default(LINES[1])), Default(LINES[2])), Default(LINES[3])),
                Default(LINES[4])), Default(LINES[5])), Default(LINES[6]))
  {
    hide Put, Default;
    assert Defaults(0) == map[];
    assert Defaults(1) == Put(Defaults(0), Default(LINES[0]));
    assert Defaults(2) == Put(Defaults(1), Default(LINES[1]));
    assert Defaults(3) == Put(Defaults(2), Default(LINES[2]));
    assert Defaults(4) == Put(Defaults(3), Default(LINES[3]));
    assert Defaults(5) == Put(Defaults(4), Default(LINES[4]));
    assert Defaults(6) == Put(Defaults(5), Default(LINES[5]));
    assert Defaults(7) == Put(Defaults(6), Default(LINES[6]));
  }

  // A line of the table applied in the environment.
  function Apply(m: map<string, Policy>, env: map<string, string>, i: nat): map<string, Policy>
    requires i < |LINES|
  {
    Put(m, Overridden(m, env, LINES[i]))
  }

  lemma EnvUnrolled(env: map<string, string>)
    ensures FromEnv(env, |LINES|)
         == Apply(Apply(Apply(Apply(Apply(Apply(Apply(Defaults(|LINES|), env, 0), env, 1), env, 2), env, 3), env, 4), env, 5), env, 6)
  {
    hide Put, Overridden, Defaults;
    assert FromEnv(env, 0) == Defaults(|LINES|);
    assert FromEnv(env, 1) == Apply(FromEnv(env, 0), env, 0);
    assert FromEnv(env, 2) == Apply(FromEnv(env, 1), env, 1);
    assert FromEnv(env, 3) == Apply(FromEnv(env, 2), env, 2);
    assert FromEnv(env, 4) == Apply(FromEnv(env, 3), env, 3);
    assert FromEnv(env, 5) == Apply(FromEnv(env, 4), env, 4);
    assert FromEnv(env, 6) == Apply(FromEnv(env, 5), env, 5);
    assert FromEnv(env, 7) == Apply(FromEnv(env, 6), env, 6);
  }
}
