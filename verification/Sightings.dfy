/** What a faultless deposit is, in plain terms: the inequalities and the letters the deposit checks come down to. */
module Sightings {
  import opened Wrappers
  import opened Text
  import opened Store
  import opened Steps
  import DepositPolicy

  // ------------------------------------------------------------------ the single checks

  /** An amount is tolerated if and only if it lies between the expected one less and plus the tolerance. */
  lemma ToleratedIff(expected: int, observed: int, tolerance: int)
    ensures !DepositPolicy.OutsideTolerance(expected, observed, tolerance) <==> expected - tolerance <= observed <= expected + tolerance
  {
  }

  /** Two names that agree, one of them perhaps unsaid. */
  predicate NetworksAgree(observed: string, expected: string) {
    observed == expected || observed == "default" || expected == "default"
  }

  predicate AddressesAgree(observed: string, expected: string) {
    Trim(observed) == "" || Trim(expected) == "" || SameLetters(Trim(observed), Trim(expected))
  }

  /** The wallet the deposit was seen at, or the expected one when none was given. */
  function WalletOf(observed: string, expected: string): string {
    if Trim(observed) == "" then Trim(expected) else Trim(observed)
  }

  /** No blocked wallet is spelled like this one. */
  predicate Unlisted(cfg: Config, observed: string, expected: string) {
    forall listed <- cfg.blocked :: WalletOf(observed, expected) != "" ==> !Capitals(WalletOf(observed, expected), listed)
  }

  lemma ClashIff(observed: string, expected: string)
    ensures NetworksClash(observed, expected) <==> !NetworksAgree(observed, expected)
    ensures AddressesClash(observed, expected) <==> !AddressesAgree(observed, expected)
  {
    FoldIff(Trim(observed), Trim(expected));
    hide Trim, EqualFold, SameLetters;
  }

  lemma BlockedIff(cfg: Config, observed: string, expected: string)
    ensures Blocked(cfg, observed, expected) <==> !Unlisted(cfg, observed, expected)
  {
    hide Trim, Upper, Capitals;
    var wallet := WalletOf(observed, expected);
    CapitalsIff(wallet, Upper(wallet));
    forall listed | listed in cfg.blocked
      ensures Upper(wallet) == listed <==> Capitals(wallet, listed)
    {
      CapitalsIff(wallet, listed);
    }
  }

  // ------------------------------------------------------------------ the whole of them

  /** A deposit found, with no transaction named or with what the lookup of its hash answered. */
  predicate Answered(s: Store, seen: Sighting, holder: Option<string>) {
    seen.found && (Trim(seen.txHash) == "" || AnswersHash(s, seen.txHash, holder))
  }

  /** Nothing wrong with it: the transaction is on no other trade, network and address agree, the amount is tolerated, the
      transaction stands, and, where wallets are screened, the wallet is not listed. */
  predicate Faultless(cfg: Config, id: string, t: Trade, seen: Sighting, holder: Option<string>, screens: bool) {
    var place := cfg.place(t.from, t.address);
    var tolerance := cfg.policy(t.from, place.0).tolerance;
    && (Trim(seen.txHash) == "" || holder.None? || holder == Some(id))
    && NetworksAgree(cfg.network(seen.network), place.0) && AddressesAgree(seen.address, place.1)
    && (screens ==> Unlisted(cfg, seen.address, place.1))
    && t.fromAmount - tolerance <= seen.amount <= t.fromAmount + tolerance
    && !seen.reversed && !seen.replaced
  }

  /** The checks find no fault if and only if there is none. */
  lemma FaultlessIff(cfg: Config, id: string, t: Trade, seen: Sighting, holder: Option<string>, screens: bool)
    ensures FaultOf(cfg, id, t, seen, holder, screens).None? <==> Faultless(cfg, id, t, seen, holder, screens)
  {
    var place := cfg.place(t.from, t.address);
    ClashIff(cfg.network(seen.network), place.0);
    ClashIff(seen.address, place.1);
    BlockedIff(cfg, seen.address, place.1);
    ToleratedIff(t.fromAmount, seen.amount, PolicyFor(cfg, t).tolerance);
    hide Trim, NetworksClash, AddressesClash, Blocked, DepositPolicy.OutsideTolerance, NetworksAgree, AddressesAgree, Unlisted;
  }

  /** The trade a transaction is on, where several hold it, is one no other was touched after: so a trade is told to be a
      duplicate if another one holds the transaction and it does not, or was touched before. */
  lemma DuplicateWhen(cfg: Config, s: Store, id: string, t: Trade, other: string, u: Trade, seen: Sighting, holder: Option<string>, screens: bool)
    requires RowIs(s, id, t) && RowIs(s, other, u) && other != id && Trim(seen.txHash) != "" && Answered(s, seen, holder)
    requires SameLetters(TextOf(u.txHash), Trim(seen.txHash))
    requires !SameLetters(TextOf(t.txHash), Trim(seen.txHash)) || t.updatedAt < u.updatedAt
    ensures FaultOf(cfg, id, t, seen, holder, screens) == Some(DuplicateHash)
  {
    FoldIff(TextOf(u.txHash), Trim(seen.txHash));
    FoldIff(TextOf(t.txHash), Trim(seen.txHash));
    hide Trim, SameLetters, Lower, NetworksClash, AddressesClash, Blocked, PolicyFor;
    assert HoldsHash(u, seen.txHash);
  }

  /** And one nobody else holds, or that was touched after all others that do, is not. */
  lemma NoDuplicateWhen(cfg: Config, s: Store, id: string, t: Trade, seen: Sighting, holder: Option<string>, screens: bool)
    requires RowIs(s, id, t) && Answered(s, seen, holder)
    requires forall other <- s.trades :: other != id && SameLetters(TextOf(s.trades[other].txHash), Trim(seen.txHash)) ==>
               SameLetters(TextOf(t.txHash), Trim(seen.txHash)) && s.trades[other].updatedAt < t.updatedAt
    ensures FaultOf(cfg, id, t, seen, holder, screens) != Some(DuplicateHash)
  {
    hide Trim, NetworksClash, AddressesClash, Blocked, PolicyFor, Lower, SameLetters, DepositPolicy.OutsideTolerance;
    if Trim(seen.txHash) != "" && holder.Some? && holder.value != id {
      var u := s.trades[holder.value];
      FoldIff(TextOf(u.txHash), Trim(seen.txHash));
      FoldIff(TextOf(t.txHash), Trim(seen.txHash));
    }
  }
}
