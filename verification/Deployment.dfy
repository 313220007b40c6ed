/** What the program configures the engine with: the places deposits are expected at, and the policies of the built-in
    table under an environment. */
module Deployment {
  import opened Wrappers
  import opened Text
  import opened Ledger
  import opened Store
  import opened Steps
  import opened Deposits
  import opened Causes
  import DepositPolicy
  import Decimal

  function Code(c: Currency): string {
    match c
    case BTC => "BTC"
    case ETH => "ETH"
    case USDC => "USDC"
    case USDT => "USDT"
    case NGN => "NGN"
    case USD => "USD"
  }

  /** The configuration of a deployment. */
  function Deployed(banks: map<string, string>, blocked: set<string>, env: map<string, string>): Config {
    Config(banks, blocked, id => UuidText(id),
           (c, address) => DepositPolicy.Expected(Code(c), address, env),
           name => DepositPolicy.NetworkName(name),
           (c, network) => DepositPolicy.Applied(DepositPolicy.FromEnv(env, |DepositPolicy.LINES|), Code(c), network))
  }

  /** Whatever the environment says, every policy a deployment applies asks for at least one confirmation, for no fewer
      to be final than to be detected, and tolerates no negative amount. */
  lemma DeployedIsSane(banks: map<string, string>, blocked: set<string>, env: map<string, string>)
    ensures SanePolicies(Deployed(banks, blocked, env))
  {
    hide Code, DepositPolicy.LINES, DepositPolicy.FromEnv, DepositPolicy.Applied, DepositPolicy.Sane, DepositPolicy.AllSane;
    var policies := DepositPolicy.FromEnv(env, |DepositPolicy.LINES|);
    DepositPolicy.FromEnvIsSane(env, |DepositPolicy.LINES|);
    forall c: Currency, network: string
      ensures DepositPolicy.Sane(DepositPolicy.Applied(policies, Code(c), network))
    {
      DepositPolicy.AppliedIsSane(policies, Code(c), network);
    }
  }

  lemma DeployedDrawsUuids(banks: map<string, string>, blocked: set<string>, env: map<string, string>)
    ensures Uuids(Deployed(banks, blocked, env))
  {
    hide UuidText;
  }

  /** So in every deployment, whatever its environment, a confirmed and never disputed trade had its deposit shown final
      by some step of the run. */
  lemma DeployedConfirmsOnProof(banks: map<string, string>, blocked: set<string>, env: map<string, string>, steps: seq<Step>, id: string)
    requires ConfirmedClean(Run(Deployed(banks, blocked, env), steps).db, id)
    ensures Proven(Deployed(banks, blocked, env), steps, id)
  {
    hide *;
    DeployedIsSane(banks, blocked, env);
    ConfirmedMeansProven(Deployed(banks, blocked, env), steps, id);
  }

  // ------------------------------------------------------------------ numbers in the environment

  /** A number the environment spells in digits is what it sets; as a count of confirmations it must not be zero. What is not
      set, or blank, leaves the fallback. */
  lemma EnvironmentSets(env: map<string, string>, key: string, n: nat, fallback: int)
    requires key in env && Trim(env[key]) == Decimal.Spell(n) && n <= Decimal.MAX_INT64
    ensures DepositPolicy.EnvTolerance(env, key, fallback) == n
    ensures DepositPolicy.EnvCount(env, key, fallback) == if n >= 1 then n else fallback
  {
    var s := Decimal.Spell(n);
    assert IsDigit(s[0]);
    hide Trim, Decimal.Spell, Decimal.Number;
    assert Decimal.ParseInt64(s) == Ok(n);
  }

  lemma EnvironmentLeaves(env: map<string, string>, key: string, fallback: int)
    requires key !in env || Trim(env[key]) == ""
    ensures DepositPolicy.EnvTolerance(env, key, fallback) == DepositPolicy.EnvCount(env, key, fallback) == fallback
  {
    hide Trim;
  }

  // ------------------------------------------------------------------ where nothing is configured

  predicate IsLine(key: string) {
    exists i :: 0 <= i < |DepositPolicy.LINES| && DepositPolicy.KeyOf(DepositPolicy.LINES[i]) == key
  }

  lemma PutLine(m: map<string, DepositPolicy.Policy>, p: DepositPolicy.Policy, i: nat, key: string)
    requires i < |DepositPolicy.LINES| && p.currency == DepositPolicy.LINES[i].currency && p.network == DepositPolicy.LINES[i].network
    ensures key in DepositPolicy.Put(m, p) ==> key in m || IsLine(key)
  {
    hide DepositPolicy.LINES, DepositPolicy.CurrencyName, DepositPolicy.NetworkName, DepositPolicy.PolicyKey, DepositPolicy.Stored;
    DepositPolicy.LineIsSpelled(i);
    DepositPolicy.SpelledKey(DepositPolicy.LINES[i]);
  }

  lemma {:induction false} DefaultsAreLines(n: nat, key: string)
    requires n <= |DepositPolicy.LINES|
    ensures key in DepositPolicy.Defaults(n) ==> IsLine(key)
  {
    hide DepositPolicy.LINES, DepositPolicy.Put, IsLine;
    if n > 0 {
      DefaultsAreLines(n - 1, key);
      PutLine(DepositPolicy.Defaults(n - 1), DepositPolicy.Default(DepositPolicy.LINES[n - 1]), n - 1, key);
    }
  }

  lemma OverriddenLine(m: map<string, DepositPolicy.Policy>, env: map<string, string>, i: nat)
    requires i < |DepositPolicy.LINES| && DepositPolicy.KeyOf(DepositPolicy.LINES[i]) in m
    requires m[DepositPolicy.KeyOf(DepositPolicy.LINES[i])].currency == DepositPolicy.LINES[i].currency
    requires m[DepositPolicy.KeyOf(DepositPolicy.LINES[i])].network == DepositPolicy.LINES[i].network
    ensures var p := DepositPolicy.Overridden(m, env, DepositPolicy.LINES[i]);
            p.currency == DepositPolicy.LINES[i].currency && p.network == DepositPolicy.LINES[i].network
  {
    hide DepositPolicy.LINES, DepositPolicy.EnvCount, DepositPolicy.EnvTolerance, DepositPolicy.KeyOf, DepositPolicy.Resolve;
    DepositPolicy.ResolveAtLine(m, i);
  }

  lemma {:induction false} ConfiguredAreLines(env: map<string, string>, n: nat, key: string)
    requires n <= |DepositPolicy.LINES|
    ensures key in DepositPolicy.FromEnv(env, n) ==> IsLine(key)
  {
    hide DepositPolicy.LINES, DepositPolicy.Put, IsLine, DepositPolicy.Overridden, DepositPolicy.KeyOf, DepositPolicy.Configured,
         DepositPolicy.Default;
    if n == 0 {
      DefaultsAreLines(|DepositPolicy.LINES|, key);
    } else {
      ConfiguredAreLines(env, n - 1, key);
      var m := DepositPolicy.FromEnv(env, n - 1);
      DepositPolicy.EnvAtLine(env, n - 1, n - 1);
      DefaultNames(DepositPolicy.LINES[n - 1]);
      OverriddenLine(m, env, n - 1);
      PutLine(m, DepositPolicy.Overridden(m, env, DepositPolicy.LINES[n - 1]), n - 1, key);
    }
  }

  lemma DefaultNames(line: DepositPolicy.Line)
    ensures DepositPolicy.Default(line).currency == line.currency && DepositPolicy.Default(line).network == line.network
  {
  }

  /** A currency on a network that is not in the table is detected and final by one confirmation, without tolerance. */
  lemma NothingConfiguredThere(env: map<string, string>, currency: string, network: string)
    requires !IsLine(DepositPolicy.PolicyKey(DepositPolicy.CurrencyName(currency), DepositPolicy.NetworkName(network)))
    requires !IsLine(DepositPolicy.PolicyKey(DepositPolicy.CurrencyName(currency), "default"))
    ensures DepositPolicy.Applied(DepositPolicy.FromEnv(env, |DepositPolicy.LINES|), currency, network)
         == DepositPolicy.Policy(DepositPolicy.CurrencyName(currency), network, 1, 1, 0)
  {
    var c, n := DepositPolicy.CurrencyName(currency), DepositPolicy.NetworkName(network);
    hide IsLine, DepositPolicy.LINES, DepositPolicy.FromEnv, DepositPolicy.CurrencyName, DepositPolicy.NetworkName, DepositPolicy.PolicyKey;
    ConfiguredAreLines(env, |DepositPolicy.LINES|, DepositPolicy.PolicyKey(c, n));
    ConfiguredAreLines(env, |DepositPolicy.LINES|, DepositPolicy.PolicyKey(c, "default"));
  }

  /** A policy put under a currency's default network applies on every network the currency has none of its own for. */
  lemma DefaultReaches(m: map<string, DepositPolicy.Policy>, p: DepositPolicy.Policy, currency: string, network: string)
    requires DepositPolicy.CurrencyName(p.currency) == DepositPolicy.CurrencyName(currency) != "" && DepositPolicy.NetworkName(p.network) == "default"
    requires DepositPolicy.PolicyKey(DepositPolicy.CurrencyName(currency), DepositPolicy.NetworkName(network)) !in m
    ensures DepositPolicy.Resolve(DepositPolicy.Put(m, p), currency, network) == Some(DepositPolicy.Stored(p))
  {
    hide DepositPolicy.CurrencyName, DepositPolicy.NetworkName, DepositPolicy.PolicyKey, DepositPolicy.Stored;
  }

  // ------------------------------------------------------------------ places and policies without an environment

  predicate Colonless(s: string) {
    forall i :: 0 <= i < |s| ==> s[i] != ':'
  }

  lemma ColonlessAt(s: string)
    requires Colonless(s)
    ensures DepositPolicy.ColonAt(s) == |s|
  {
  }

  lemma {:induction false} FirstColon(tag: string, rest: string)
    requires Colonless(tag)
    ensures DepositPolicy.ColonAt(tag + ":" + rest) == |tag|
  {
    var s := tag + ":" + rest;
    if tag != "" {
      assert s[0] == tag[0] && s[1..] == tag[1..] + ":" + rest;
      FirstColon(tag[1..], rest);
    }
  }

  // An address the sandbox would take starts with its tag.
  lemma SandboxTag(tag: string, rest: string)
    requires Colonless(tag) && DepositPolicy.HasPrefix(Lower(tag + ":" + rest), "sandbox://")
    ensures Lower(tag) == "sandbox"
  {
    var s, head := tag + ":" + rest, "sandbox://";
    assert Lower(s)[7] == head[7] == ':';
    assert s[7] == ':' && |tag| <= 7;
    assert s[|tag|] == ':' && Lower(s)[|tag|] == head[|tag|] == ':';
    assert Lower(tag) == Lower(s)[..7] == head[..7];
  }

  lemma BareIsNoSandbox(s: string)
    requires Colonless(s)
    ensures !DepositPolicy.HasPrefix(Lower(s), "sandbox://")
  {
    assert "sandbox://"[7] == ':';
    assert |s| > 7 ==> Lower(s)[7] == LowerChar(s[7]) != ':';
  }

  /** A deposit address tagged with its network is expected there, whatever its currency. */
  lemma TaggedPlace(c: Currency, address: string, tag: string, rest: string, env: map<string, string>)
    requires Trim(address) == tag + ":" + rest && Colonless(tag) && Lower(tag) != "sandbox" && Trim(rest) != ""
    ensures DepositPolicy.Expected(Code(c), address, env) == (DepositPolicy.NetworkName(tag), Trim(rest))
  {
    hide Trim, Lower, DepositPolicy.NetworkName, DepositPolicy.CurrencyName, DepositPolicy.HasPrefix, DepositPolicy.ColonAt;
    var t := Trim(address);
    FirstColon(tag, rest);
    if DepositPolicy.HasPrefix(Lower(t), "sandbox://") {
      SandboxTag(tag, rest);
      assert false;
    }
    assert t[..|tag|] == tag && t[|tag| + 1..] == rest;
  }

  /** The spellings of each network; any other name stands for itself. */
  lemma NetworkSpellings(raw: string, name: string)
    requires Lower(Trim(raw)) == name
    ensures DepositPolicy.NetworkName(raw) == "default" <==> name in {"", "default"}
    ensures DepositPolicy.NetworkName(raw) == "btc" <==> name in {"btc", "bitcoin", "mainnet", "bitcoin-mainnet"}
    ensures DepositPolicy.NetworkName(raw) == "ethereum" <==> name in {"eth", "ethereum", "erc20", "eth-mainnet"}
    ensures DepositPolicy.NetworkName(raw) == "polygon" <==> name in {"matic", "polygon", "polygon-pos"}
    ensures DepositPolicy.NetworkName(raw) == "bsc" <==> name in {"bsc", "bnb", "bnb-smart-chain", "binance-smart-chain", "bep20"}
    ensures DepositPolicy.NetworkName(raw) in {"default", "btc", "ethereum", "polygon", "bsc", name}
  {
    hide Lower, Trim;
  }

  lemma CodesAre(c: Currency)
    ensures DepositPolicy.CurrencyName(Code(c)) == Code(c)
  {
    assert Trim(Code(c)) == Code(c);
    assert Upper(Code(c)) == Code(c);
  }

  /** No two currencies share a code. */
  lemma CodesTell(c: Currency, d: Currency)
    requires Code(c) == Code(d)
    ensures c == d
  {
    assert |Code(c)| >= 3 && |Code(d)| >= 3;
  }

  /** An address of the sandbox, in whatever case its scheme is written, is expected there, whole. */
  lemma SandboxPlace(c: Currency, address: string, env: map<string, string>)
    requires |Trim(address)| >= 10 && Lower(Trim(address))[..10] == "sandbox://"
    ensures DepositPolicy.Expected(Code(c), address, env) == ("sandbox", Trim(address))
  {
    hide Trim, Lower, DepositPolicy.NetworkName, DepositPolicy.CurrencyName, DepositPolicy.ColonAt;
  }

  /** The network of an address without a tag: its currency's own, and for a stablecoin Ethereum, unless the environment
      names another. */
  predicate OwnNetwork(c: Currency, network: string, env: map<string, string>) {
    match c
    case BTC => network == "btc"
    case ETH => network == "ethereum"
    case USDC => "USDC_DEPOSIT_NETWORK" !in env ==> network == "ethereum"
    case USDT => "USDT_DEPOSIT_NETWORK" !in env ==> network == "ethereum"
    case _ => network == "default"
  }

  /** A deposit address without a tag is expected on its currency's own network. */
  lemma BarePlace(c: Currency, address: string, env: map<string, string>)
    requires Colonless(Trim(address))
    ensures DepositPolicy.Expected(Code(c), address, env).1 == Trim(address)
    ensures OwnNetwork(c, DepositPolicy.Expected(Code(c), address, env).0, env)
  {
    CodesAre(c);
    BareIsNoSandbox(Trim(address));
    ColonlessAt(Trim(address));
    StableNetworks(env);
    hide DepositPolicy.StableNetwork, Trim, Lower, DepositPolicy.NetworkName, DepositPolicy.CurrencyName, DepositPolicy.HasPrefix, DepositPolicy.ColonAt;
  }

  lemma StableNetworks(env: map<string, string>)
    ensures "USDC_DEPOSIT_NETWORK" !in env ==> DepositPolicy.StableNetwork(env, "USDC") == "ethereum"
    ensures "USDT_DEPOSIT_NETWORK" !in env ==> DepositPolicy.StableNetwork(env, "USDT") == "ethereum"
  {
    assert "USDC" + "_DEPOSIT_NETWORK" == "USDC_DEPOSIT_NETWORK" && "USDT" + "_DEPOSIT_NETWORK" == "USDT_DEPOSIT_NETWORK";
    assert DepositPolicy.NetworkName("") == "default";
    hide DepositPolicy.NetworkName;
  }

  /** The policies a deployment applies when its environment sets nothing: confirmations for finality by currency and
      network, one to detect, no tolerance. */
  predicate BuiltIn(currency: string, network: string, finality: int) {
    || (currency == "BTC" && network == "btc" && finality == 2)
    || (currency == "ETH" && network == "ethereum" && finality == 12)
    || (currency == "BNB" && network == "bsc" && finality == 20)
    || (currency in {"USDC", "USDT"} && network == "ethereum" && finality == 12)
    || (currency in {"USDC", "USDT"} && network == "polygon" && finality == 64)
  }

  lemma LineOf(currency: string, network: string, finality: int) returns (i: nat)
    requires BuiltIn(currency, network, finality)
    ensures i < |DepositPolicy.LINES| && DepositPolicy.LINES[i].currency == currency && DepositPolicy.LINES[i].network == network
    ensures DepositPolicy.LINES[i].finality == finality
  {
    i := if currency == "BTC" then 0 else if currency == "ETH" then 3 else if currency == "BNB" then 4
         else if currency == "USDC" then (if network == "ethereum" then 1 else 2)
         else if network == "ethereum" then 5 else 6;
  }

  lemma DefaultPolicies(currency: string, network: string, finality: int)
    requires BuiltIn(currency, network, finality)
    ensures DepositPolicy.Applied(DepositPolicy.FromEnv(map[], |DepositPolicy.LINES|), currency, network)
         == DepositPolicy.Policy(currency, network, 1, finality, 0)
  {
    var i := LineOf(currency, network, finality);
    NothingConfigured(DepositPolicy.LINES[i], finality);
    hide *;
    DepositPolicy.LineResolves(map[], i);
    AppliedIs(DepositPolicy.FromEnv(map[], |DepositPolicy.LINES|), currency, network,
              DepositPolicy.Effective(DepositPolicy.Configured(map[], DepositPolicy.LINES[i])));
  }

  lemma AppliedIs(m: map<string, DepositPolicy.Policy>, currency: string, network: string, p: DepositPolicy.Policy)
    requires DepositPolicy.Resolve(m, currency, network) == Some(p)
    ensures DepositPolicy.Applied(m, currency, network) == p
  {
    hide DepositPolicy.Resolve;
  }

  lemma NothingConfigured(line: DepositPolicy.Line, finality: int)
    requires line.finality == finality >= 1
    ensures DepositPolicy.Effective(DepositPolicy.Configured(map[], line))
         == DepositPolicy.Policy(line.currency, line.network, 1, finality, 0)
  {
    TrimNothing();
    hide Trim;
  }

  /** Confirmations a deposit of a currency needs at an untagged address when the environment sets nothing. */
  function Needed(c: Currency): int {
    match c
    case BTC => 2
    case _ => 12
  }

  /** Where the environment sets nothing, an asset that can be sold, sent to an untagged address, is detected by one
      confirmation and final by two (bitcoin) or twelve, and no other amount than the expected one is tolerated. */
  lemma UntaggedPolicy(banks: map<string, string>, blocked: set<string>, t: Trade)
    requires Colonless(Trim(t.address)) && t.from in {BTC, ETH, USDC, USDT}
    ensures var p := Policy(Deployed(banks, blocked, map[]), t); p.detection == 1 && p.finality == Needed(t.from) && p.tolerance == 0
  {
    BarePlace(t.from, t.address, map[]);
    hide Trim, DepositPolicy.Applied, DepositPolicy.FromEnv, DepositPolicy.LINES, DepositPolicy.Expected, UuidText;
    DefaultPolicies(Code(t.from), DepositPolicy.Expected(Code(t.from), t.address, map[]).0, Needed(t.from));
  }
}
