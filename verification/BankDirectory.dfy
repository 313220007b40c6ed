/** Merging two bank directories: entries are gathered by code in a table, and the table's entries, met in no
    particular order, are sorted. */
module BankDirectory {
  import opened Wrappers
  import opened Text

  datatype Bank = Bank(
    bankId: string, providerId: string, code: string, name: string, slug: string, nip: string, short: string,
    country: string, currency: string, resolveCode: string)

  /** The fields that are filled from the first entry that has them. */
  datatype Field = BankId | ProviderId | Slug | Nip | Short | Country | CurrencyField

  function Get(b: Bank, f: Field): string {
    match f
    case BankId => b.bankId
    case ProviderId => b.providerId
    case Slug => b.slug
    case Nip => b.nip
    case Short => b.short
    case Country => b.country
    case CurrencyField => b.currency
  }

  // ------------------------------------------------------------------ names

  function WordEnd(s: string): (k: nat)
    ensures k <= |s|
    ensures s != "" && !IsSpace(s[0]) ==> k > 0
  {
    if s == "" || IsSpace(s[0]) then 0 else 1 + WordEnd(s[1..])
  }

  function Words(s: string): seq<string>
    decreases |s|
  {
    var t := TrimLeft(s);
    if t == "" then [] else [t[..WordEnd(t)]] + Words(t[WordEnd(t)..])
  }

  function Join(words: seq<string>): string {
    if words == [] then ""
    else if |words| == 1 then words[0]
    else words[0] + " " + Join(words[1..])
  }

  /** A name with its words set one blank apart. */
  function Tidy(name: string): string {
    Join(Words(name))
  }

  predicate Contains(s: string, part: string) {
    |part| <= |s| && (s[..|part|] == part || (s != "" && Contains(s[1..], part)))
  }

  /** Whether a later entry's name replaces the one held: it is fuller, or the one held is a placeholder. */
  predicate Overrides(held: string, incoming: string) {
    var h, n := Tidy(held), Tidy(incoming);
    if n == "" then false
    else if h == "" then true
    else if EqualFold(h, n) then false
    else if EqualFold(h, "Nigerian Bank") then true
    else |n| > |h| && Contains(Upper(n), Upper(h))
  }

  // ------------------------------------------------------------------ what names come to

  datatype Place = AtStart | InWord | InGap

  /** A name read once from left to right: visible characters are kept, and of the white space between two of them one
      blank. */
  function OnePass(s: string, at: Place): string {
    if s == "" then ""
    else if IsSpace(s[0]) then OnePass(s[1..], if at == AtStart then AtStart else InGap)
    else (if at == InGap then " " else "") + [s[0]] + OnePass(s[1..], InWord)
  }

  lemma {:induction false} PassSpaces(s: string, i: nat, at: Place)
    requires i <= |s| && at != InWord
    ensures OnePass(s[i..], at) == OnePass(s[FirstVisible(s, i)..], at)
    decreases |s| - i
  {
    if i < |s| && IsSpace(s[i]) {
      assert s[i..][0] == s[i] && s[i..][1..] == s[i + 1..];
      PassSpaces(s, i + 1, at);
    }
  }

  lemma {:induction false} PassWord(s: string)
    ensures OnePass(s, InWord) == s[..WordEnd(s)] + OnePass(s[WordEnd(s)..], InWord)
  {
    if s != "" && !IsSpace(s[0]) {
      PassWord(s[1..]);
      var k := WordEnd(s[1..]);
      assert s[1..][k..] == s[k + 1..];
      assert s[..k + 1] == [s[0]] + s[1..][..k];
    }
  }

  lemma {:induction false} WordEnds(s: string)
    ensures WordEnd(s) < |s| ==> IsSpace(s[WordEnd(s)])
  {
    if s != "" && !IsSpace(s[0]) {
      WordEnds(s[1..]);
    }
  }

  // After a word: nothing, or a blank and what follows.
  lemma PassGap(rest: string)
    requires rest == "" || IsSpace(rest[0])
    ensures OnePass(rest, InWord) == if TrimLeft(rest) == "" then "" else " " + OnePass(TrimLeft(rest), AtStart)
  {
    FirstVisibleIs(rest, 0);
    PassSpaces(rest, 0, InGap);
    assert rest[0..] == rest;
    assert OnePass(rest, InWord) == OnePass(rest, InGap) == OnePass(TrimLeft(rest), InGap);
  }

  lemma JoinMore(word: string, words: seq<string>)
    ensures Join([word] + words) == word + if words == [] then "" else " " + Join(words)
  {
    assert words != [] ==> ([word] + words)[1..] == words;
  }

  /** Setting a name's words one blank apart is reading it once. */
  lemma {:induction false} TidyIsOnePass(name: string)
    ensures Tidy(name) == OnePass(name, AtStart)
    decreases |name|
  {
    var t := TrimLeft(name);
    FirstVisibleIs(name, 0);
    PassSpaces(name, 0, AtStart);
    assert name[0..] == name;
    if t != "" {
      var word, rest := t[..WordEnd(t)], t[WordEnd(t)..];
      WordEnds(t);
      PassWord(t);
      assert OnePass(t, AtStart) == OnePass(t, InWord);
      PassGap(rest);
      TidyIsOnePass(rest);
      PassSpaces(rest, 0, AtStart);
      assert rest[0..] == rest;
      JoinMore(word, Words(rest));
    }
  }

  /** One name is in another, letters compared without case, and shorter. */
  ghost predicate Fuller(held: string, offered: string) {
    |held| < |offered| && exists k :: FoundAt(held, offered, k)
  }

  ghost predicate FoundAt(held: string, offered: string, k: int) {
    0 <= k <= |offered| - |held| && forall i :: 0 <= i < |held| ==> UpperChar(offered[k + i]) == UpperChar(held[i])
  }

  ghost predicate PartAt(s: string, part: string, k: int) {
    0 <= k <= |s| - |part| && s[k..k + |part|] == part
  }

  lemma {:induction false} ContainsIff(s: string, part: string)
    ensures Contains(s, part) <==> exists k :: PartAt(s, part, k)
  {
    if |part| <= |s| {
      if s[..|part|] == part {
        assert PartAt(s, part, 0);
      } else if s != "" {
        ContainsIff(s[1..], part);
        forall k
          ensures PartAt(s, part, k) <==> PartAt(s[1..], part, k - 1)
        {
          PartLater(s, part, k);
        }
        if k :| PartAt(s[1..], part, k) {
          assert PartAt(s, part, k + 1);
        }
      }
    }
  }

  lemma PartLater(s: string, part: string, k: int)
    requires s != "" && |part| <= |s| && s[..|part|] != part
    ensures PartAt(s, part, k) <==> PartAt(s[1..], part, k - 1)
  {
    if 1 <= k <= |s| - |part| {
      assert s[1..][k - 1..k - 1 + |part|] == s[k..k + |part|];
    }
  }

  /** A name that is offered replaces the one held if and only if it is not blank and the one held is blank, or spells another
      name and is the placeholder or contained in the longer new one. */
  lemma OverridesIff(held: string, offered: string, h: string, n: string)
    requires h == Tidy(held) && n == Tidy(offered)
    ensures Overrides(held, offered) <==>
              n != "" && (h == "" || (!SameLetters(h, n) && (SameLetters(h, "Nigerian Bank") || Fuller(h, n))))
  {
    FoldIff(h, n);
    FoldIff(h, "Nigerian Bank");
    FullerIff(h, n);
    hide Tidy, EqualFold, SameLetters, Contains, Fuller;
  }

  lemma FullerIff(h: string, n: string)
    ensures Fuller(h, n) <==> |n| > |h| && Contains(Upper(n), Upper(h))
  {
    ContainsIff(Upper(n), Upper(h));
    forall k
      ensures FoundAt(h, n, k) <==> PartAt(Upper(n), Upper(h), k)
    {
      FoundWhen(h, n, k);
    }
  }

  lemma FoundWhen(h: string, n: string, k: int)
    ensures FoundAt(h, n, k) <==> PartAt(Upper(n), Upper(h), k)
  {
    if PartAt(Upper(n), Upper(h), k) {
      forall i | 0 <= i < |h|
        ensures UpperChar(n[k + i]) == UpperChar(h[i])
      {
        assert Upper(n)[k..k + |h|][i] == Upper(h)[i];
      }
    }
  }

  // ------------------------------------------------------------------ merging

  function Fresh(e: Bank): Bank {
    var code := Trim(e.code);
    Bank(Trim(e.bankId), Trim(e.providerId), code, Tidy(e.name), Trim(e.slug), Trim(e.nip), Trim(e.short),
         Trim(e.country), Trim(e.currency), if Trim(e.resolveCode) != "" then Trim(e.resolveCode) else code)
  }

  function Fill(held: string, incoming: string): string {
    if held == "" then Trim(incoming) else held
  }

  function Filled(b: Bank, e: Bank, override: bool): Bank {
    var name := Tidy(e.name);
    Bank(Fill(b.bankId, e.bankId), Fill(b.providerId, e.providerId), b.code,
         if b.name == "" then name else if override && name != "" && Overrides(b.name, name) then name else b.name,
         Fill(b.slug, e.slug), Fill(b.nip, e.nip), Fill(b.short, e.short), Fill(b.country, e.country),
         Fill(b.currency, e.currency),
         if b.resolveCode == "" then Fresh(e).resolveCode else b.resolveCode)
  }

  /** One entry added to the table; a missing entry or one without a code is skipped. */
  function Upsert(m: map<string, Bank>, e: Option<Bank>, override: bool): map<string, Bank> {
    if e.None? || Trim(e.value.code) == "" then m
    else
      var code := Trim(e.value.code);
      m[code := if code in m then Filled(m[code], e.value, override) else Fresh(e.value)]
  }

  /** The first n of all entries, primary before secondary; only secondary ones may override names. */
  function Gathered(all: seq<Option<Bank>>, primary: nat, n: nat): map<string, Bank>
    requires n <= |all|
  {
    if n == 0 then map[] else Upsert(Gathered(all, primary, n - 1), all[n - 1], n > primary)
  }

  function Table(primary: seq<Option<Bank>>, secondary: seq<Option<Bank>>): map<string, Bank> {
    Gathered(primary + secondary, |primary|, |primary + secondary|)
  }

  predicate Carries(e: Option<Bank>, code: string)
    ensures Carries(e, code) ==> e.Some?
  {
    e.Some? && Trim(e.value.code) == code
  }

  /** The first value of a field that is not blank, among the first n entries with this code. */
  function FirstValue(all: seq<Option<Bank>>, n: nat, code: string, f: Field): string
    requires n <= |all|
  {
    if n == 0 then ""
    else
      var v := FirstValue(all, n - 1, code, f);
      if v == "" && Carries(all[n - 1], code) then Trim(Get(all[n - 1].value, f)) else v
  }

  /** Whether one of the first n entries has this code. */
  predicate Occurs(all: seq<Option<Bank>>, n: nat, code: string)
    requires n <= |all|
  {
    exists i :: 0 <= i < n && Carries(all[i], code)
  }

  lemma OccursStep(all: seq<Option<Bank>>, n: nat, code: string)
    requires 0 < n <= |all|
    ensures Occurs(all, n, code) <==> Occurs(all, n - 1, code) || Carries(all[n - 1], code)
  {
    hide Carries;
    if Occurs(all, n, code) {
      var i :| 0 <= i < n && Carries(all[i], code);
      assert i < n - 1 ==> Occurs(all, n - 1, code);
    }
  }

  /** m holds a code exactly when it occurs among the first n entries, under itself, with the field's first value
      that is not blank. */
  ghost predicate FieldRight(m: map<string, Bank>, all: seq<Option<Bank>>, n: nat, code: string, f: Field)
    requires n <= |all|
  {
    && (code in m <==> code != "" && Occurs(all, n, code))
    && (code in m ==> m[code].code == code && Get(m[code], f) == FirstValue(all, n, code, f))
    && (code !in m && code != "" ==> FirstValue(all, n, code, f) == "")
  }

  /** The table holds exactly the codes that occur, each under itself, and every field filled that way is the first
      value that is not blank in primary, then secondary order. */
  lemma {:induction false} GatheredFields(all: seq<Option<Bank>>, primary: nat, n: nat, code: string, f: Field)
    requires n <= |all|
    ensures FieldRight(Gathered(all, primary, n), all, n, code, f)
  {
    hide Upsert, Trim, Get, Carries;
    if n > 0 {
      var m := Gathered(all, primary, n - 1);
      hide FieldRight;
      GatheredFields(all, primary, n - 1, code, f);
      FieldRightStep(m, all, n, n > primary, code, f);
    }
  }

  lemma FieldRightStep(m: map<string, Bank>, all: seq<Option<Bank>>, n: nat, override: bool, code: string, f: Field)
    requires 0 < n <= |all| && FieldRight(m, all, n - 1, code, f)
    ensures FieldRight(Upsert(m, all[n - 1], override), all, n, code, f)
  {
    OccursStep(all, n, code);
    UpsertField(m, all[n - 1], override, code, f);
    FirstValueStep(all, n, code, f);
    hide Trim, Upsert, Get, Occurs, FirstValue, Carries;
  }

  lemma FirstValueStep(all: seq<Option<Bank>>, n: nat, code: string, f: Field)
    requires 0 < n <= |all|
    ensures Carries(all[n - 1], code)
            ==> FirstValue(all, n, code, f) == Fill(FirstValue(all, n - 1, code, f), Get(all[n - 1].value, f))
    ensures !Carries(all[n - 1], code) ==> FirstValue(all, n, code, f) == FirstValue(all, n - 1, code, f)
  {
    hide Trim, Get;
  }

  // The table after one entry, seen at one code.
  lemma UpsertAt(m: map<string, Bank>, e: Option<Bank>, override: bool, code: string)
    ensures var after := Upsert(m, e, override);
            if code != "" && Carries(e, code) then
              code in after && after[code] == if code in m then Filled(m[code], e.value, override) else Fresh(e.value)
            else (code in after <==> code in m) && (code in m ==> after[code] == m[code])
  {
    hide Trim, Fresh, Filled;
  }

  lemma UpsertField(m: map<string, Bank>, e: Option<Bank>, override: bool, code: string, f: Field)
    ensures var after := Upsert(m, e, override);
            if code != "" && Carries(e, code) then
              code in after
              && (code in m ==> after[code].code == m[code].code && Get(after[code], f) == Fill(Get(m[code], f), Get(e.value, f)))
              && (code !in m ==> after[code].code == code && Get(after[code], f) == Trim(Get(e.value, f)))
            else (code in after <==> code in m) && (code in m ==> after[code] == m[code])
  {
    UpsertAt(m, e, override, code);
    hide Fresh, Filled, Get, Fill, Upsert;
    if code != "" && Carries(e, code) {
      FieldOfFresh(e.value, f);
      if code in m {
        FieldOfFilled(m[code], e.value, override, f);
      }
    }
    hide Trim;
  }

  lemma FieldOfFresh(e: Bank, f: Field)
    ensures Get(Fresh(e), f) == Trim(Get(e, f)) && Fresh(e).code == Trim(e.code)
  {
    hide Trim, Tidy;
  }

  lemma FieldOfFilled(b: Bank, e: Bank, override: bool, f: Field)
    ensures Get(Filled(b, e, override), f) == Fill(Get(b, f), Get(e, f)) && Filled(b, e, override).code == b.code
  {
    hide Trim, Tidy, Overrides;
  }

  // ------------------------------------------------------------------ names and resolve codes

  /** Where a name comes from: it is blank when no entry with the code has one; otherwise it is the name of an entry
      that no later secondary entry overrides, and if that entry is a primary one, the first with a name at all. */
  ghost predicate NameRight(name: string, all: seq<Option<Bank>>, primary: nat, n: nat, code: string)
    requires n <= |all|
  {
    if name == "" then forall i :: 0 <= i < n && Carries(all[i], code) ==> Tidy(all[i].value.name) == ""
    else exists k :: 0 <= k < n && NamedBy(name, all, primary, n, code, k)
  }

  ghost predicate NamedBy(name: string, all: seq<Option<Bank>>, primary: nat, n: nat, code: string, k: nat)
    requires k < n <= |all|
  {
    && Carries(all[k], code) && Tidy(all[k].value.name) == name
    && (forall j :: k < j < n && primary <= j && Carries(all[j], code) ==> !(Tidy(all[j].value.name) != "" && Overrides(name, Tidy(all[j].value.name))))
    && (k < primary ==> forall i :: 0 <= i < k && Carries(all[i], code) ==> Tidy(all[i].value.name) == "")
  }

  // The name after one more entry with the code.
  function NextName(held: string, e: Bank, override: bool): string {
    var name := Tidy(e.name);
    if held == "" then name else if override && name != "" && Overrides(held, name) then name else held
  }

  lemma UpsertName(m: map<string, Bank>, e: Option<Bank>, override: bool, code: string)
    ensures var after := Upsert(m, e, override);
            if code != "" && Carries(e, code) then
              code in after && after[code].name == if code in m then NextName(m[code].name, e.value, override) else Tidy(e.value.name)
            else (code in after <==> code in m) && (code in m ==> after[code] == m[code])
  {
    UpsertAt(m, e, override, code);
    hide Trim, Tidy, Overrides, Upsert, Carries;
  }

  // An entry with another code, or none, changes nothing of where the name comes from.
  lemma NameSkips(name: string, all: seq<Option<Bank>>, primary: nat, n: nat, code: string)
    requires 0 < n <= |all| && NameRight(name, all, primary, n - 1, code) && !Carries(all[n - 1], code)
    ensures NameRight(name, all, primary, n, code)
  {
    hide Carries, Tidy, Overrides;
    if name != "" {
      var k :| 0 <= k < n - 1 && NamedBy(name, all, primary, n - 1, code, k);
      assert NamedBy(name, all, primary, n, code, k);
    }
  }

  lemma NameMoves(held: string, all: seq<Option<Bank>>, primary: nat, n: nat, code: string)
    requires 0 < n <= |all| && NameRight(held, all, primary, n - 1, code) && Carries(all[n - 1], code)
    ensures NameRight(NextName(held, all[n - 1].value, n > primary), all, primary, n, code)
  {
    hide Carries, Tidy, Overrides;
    var name, offered := NextName(held, all[n - 1].value, n > primary), Tidy(all[n - 1].value.name);
    if held != "" && !(n > primary && offered != "" && Overrides(held, offered)) {
      var k :| 0 <= k < n - 1 && NamedBy(held, all, primary, n - 1, code, k);
      assert NamedBy(name, all, primary, n, code, k);
    } else if name != "" {
      assert NamedBy(name, all, primary, n, code, n - 1);
    }
  }

  lemma NameStarts(all: seq<Option<Bank>>, primary: nat, n: nat, code: string)
    requires 0 < n <= |all| && Carries(all[n - 1], code) && !Occurs(all, n - 1, code)
    ensures NameRight(Tidy(all[n - 1].value.name), all, primary, n, code)
  {
    hide Carries, Tidy, Overrides;
    if Tidy(all[n - 1].value.name) != "" {
      assert NamedBy(Tidy(all[n - 1].value.name), all, primary, n, code, n - 1);
    }
  }

  lemma {:induction false} GatheredNames(all: seq<Option<Bank>>, primary: nat, n: nat, code: string)
    requires n <= |all|
    ensures code in Gathered(all, primary, n) ==> NameRight(Gathered(all, primary, n)[code].name, all, primary, n, code)
  {
    hide Upsert, Trim, Tidy, Carries, NameRight, Occurs, NextName;
    if n > 0 {
      var m := Gathered(all, primary, n - 1);
      GatheredNames(all, primary, n - 1, code);
      GatheredFields(all, primary, n - 1, code, BankId);
      UpsertName(m, all[n - 1], n > primary, code);
      if !Carries(all[n - 1], code) {
        if code in m {
          NameSkips(m[code].name, all, primary, n, code);
        }
      } else if code in m {
        NameMoves(m[code].name, all, primary, n, code);
      } else if code != "" {
        NameStarts(all, primary, n, code);
      }
    }
  }

  /** The first of the first n entries with this code; n when there is none. */
  function FirstWith(all: seq<Option<Bank>>, n: nat, code: string): (k: nat)
    requires n <= |all|
    ensures k <= n && (k < n ==> Carries(all[k], code)) && forall i :: 0 <= i < k ==> !Carries(all[i], code)
  {
    if n == 0 then 0
    else
      var k := FirstWith(all, n - 1, code);
      if k < n - 1 || Carries(all[n - 1], code) then k else n
  }

  lemma UpsertResolve(m: map<string, Bank>, e: Option<Bank>, override: bool, code: string)
    requires code in m ==> m[code].resolveCode != ""
    ensures var after := Upsert(m, e, override);
            if code != "" && Carries(e, code) then
              code in after && after[code].resolveCode == if code in m then m[code].resolveCode else Fresh(e.value).resolveCode
            else (code in after <==> code in m) && (code in m ==> after[code] == m[code])
  {
    UpsertAt(m, e, override, code);
    hide Trim, Tidy, Overrides, Upsert, Carries, Fresh;
  }

  /** A bank is resolved by what the very first entry with its code says, or by the code itself if that says nothing;
      no later entry changes it. */
  ghost predicate ResolveRight(m: map<string, Bank>, all: seq<Option<Bank>>, n: nat, code: string)
    requires n <= |all|
  {
    code in m ==>
      FirstWith(all, n, code) < n && m[code].resolveCode != ""
      && var e := all[FirstWith(all, n, code)].value;
         m[code].resolveCode == if Trim(e.resolveCode) != "" then Trim(e.resolveCode) else code
  }

  lemma FirstStays(all: seq<Option<Bank>>, n: nat, code: string)
    requires 0 < n <= |all|
    ensures FirstWith(all, n - 1, code) < n - 1 ==> FirstWith(all, n, code) == FirstWith(all, n - 1, code)
    ensures Carries(all[n - 1], code) && FirstWith(all, n - 1, code) == n - 1 ==> FirstWith(all, n, code) == n - 1
  {
    hide Carries;
  }

  lemma ResolveStep(m: map<string, Bank>, all: seq<Option<Bank>>, n: nat, override: bool, code: string)
    requires 0 < n <= |all| && ResolveRight(m, all, n - 1, code) && (code in m <==> code != "" && Occurs(all, n - 1, code))
    ensures ResolveRight(Upsert(m, all[n - 1], override), all, n, code)
  {
    hide Upsert, Trim, Tidy, Carries, Occurs, FirstWith, Fresh;
    FirstMeans(all, n - 1, code);
    FirstStays(all, n, code);
    UpsertResolve(m, all[n - 1], override, code);
    if Carries(all[n - 1], code) {
      CarriesCode(all[n - 1], code);
    }
  }

  lemma {:induction false} GatheredResolve(all: seq<Option<Bank>>, primary: nat, n: nat, code: string)
    requires n <= |all|
    ensures ResolveRight(Gathered(all, primary, n), all, n, code)
  {
    hide Upsert, Trim, Carries, FirstWith, Occurs;
    if n > 0 {
      hide ResolveRight;
      GatheredResolve(all, primary, n - 1, code);
      GatheredFields(all, primary, n - 1, code, BankId);
      ResolveStep(Gathered(all, primary, n - 1), all, n, n > primary, code);
    }
  }

  lemma CarriesCode(e: Option<Bank>, code: string)
    requires Carries(e, code)
    ensures code != "" ==> Fresh(e.value).resolveCode != ""
    ensures Fresh(e.value).resolveCode == if Trim(e.value.resolveCode) != "" then Trim(e.value.resolveCode) else code
  {
    hide Trim, Tidy;
  }

  lemma FirstMeans(all: seq<Option<Bank>>, n: nat, code: string)
    requires n <= |all|
    ensures FirstWith(all, n, code) < n <==> Occurs(all, n, code)
  {
    hide Carries;
  }

  /** First value over a whole merge: the bank id of each code is the first one that is not blank. */
  lemma MergedFields(primary: seq<Option<Bank>>, secondary: seq<Option<Bank>>, code: string, f: Field)
    ensures code in Table(primary, secondary)
       <==> code != "" && Occurs(primary + secondary, |primary + secondary|, code)
    ensures code in Table(primary, secondary)
            ==> Get(Table(primary, secondary)[code], f) == FirstValue(primary + secondary, |primary + secondary|, code, f)
  {
    GatheredFields(primary + secondary, |primary|, |primary + secondary|, code, f);
  }

  /** The same for the names and the resolve codes of a whole merge. */
  lemma MergedNames(primary: seq<Option<Bank>>, secondary: seq<Option<Bank>>, code: string)
    requires code in Table(primary, secondary)
    ensures var all := primary + secondary;
            && NameRight(Table(primary, secondary)[code].name, all, |primary|, |all|, code)
            && ResolveRight(Table(primary, secondary), all, |all|, code)
  {
    GatheredNames(primary + secondary, |primary|, |primary + secondary|, code);
    GatheredResolve(primary + secondary, |primary|, |primary + secondary|, code);
    hide Gathered, NameRight, ResolveRight;
  }

  predicate Coded(m: map<string, Bank>) {
    forall code <- m :: m[code].code == code
  }

  lemma TableIsCoded(primary: seq<Option<Bank>>, secondary: seq<Option<Bank>>)
    ensures Coded(Table(primary, secondary))
    ensures forall code <- Table(primary, secondary) :: Trim(code) == code
  {
    forall code | code in Table(primary, secondary)
      ensures Table(primary, secondary)[code].code == code && Trim(code) == code
    {
      GatheredFields(primary + secondary, |primary|, |primary + secondary|, code, BankId);
      var i :| 0 <= i < |primary + secondary| && Carries((primary + secondary)[i], code);
      TrimTwice((primary + secondary)[i].value.code);
    }
  }

  // ------------------------------------------------------------------ order

  function Rank(code: string): Option<nat> {
    if code == "058" then Some(0)
    else if code == "044" then Some(1)
    else if code == "033" then Some(2)
    else if code == "011" then Some(3)
    else if code == "057" then Some(4)
    else None
  }

  predicate TextBefore(a: string, b: string) {
    b != "" && (a == "" || a[0] < b[0] || (a[0] == b[0] && TextBefore(a[1..], b[1..])))
  }

  /** The comparison the sort is given: popular banks by rank and ahead of all others, which go by name, then code. */
  predicate Precedes(a: Bank, b: Bank) {
    var l, r := Trim(a.code), Trim(b.code);
    match (Rank(l), Rank(r))
    case (Some(i), Some(j)) => i < j
    case (Some(_), None) => true
    case (None, Some(_)) => false
    case (None, None) =>
      if Tidy(a.name) == Tidy(b.name) then TextBefore(l, r) else TextBefore(Tidy(a.name), Tidy(b.name))
  }

  lemma {:induction false} TextTotal(a: string, b: string)
    requires a != b
    ensures TextBefore(a, b) || TextBefore(b, a)
  {
    if a != "" && b != "" && a[0] == b[0] {
      assert a == [a[0]] + a[1..] && b == [b[0]] + b[1..];
      TextTotal(a[1..], b[1..]);
    }
  }

  lemma {:induction false} TextTransitive(a: string, b: string, c: string)
    requires TextBefore(a, b) && TextBefore(b, c)
    ensures TextBefore(a, c)
  {
    if a != "" && a[0] == b[0] == c[0] {
      TextTransitive(a[1..], b[1..], c[1..]);
    }
  }

  lemma {:induction false} TextIrreflexive(a: string)
    ensures !TextBefore(a, a)
  {
    if a != "" {
      TextIrreflexive(a[1..]);
    }
  }

  lemma RanksDiffer(a: string, b: string)
    requires Rank(a).Some? && Rank(a) == Rank(b)
    ensures a == b
  {
  }

  /** The comparison is irreflexive, and total on banks with different codes. */
  lemma PrecedesIsTotal(a: Bank, b: Bank)
    ensures !Precedes(a, a) && (Trim(a.code) != Trim(b.code) ==> Precedes(a, b) || Precedes(b, a))
  {
    var x, y, l, m := Trim(a.code), Trim(b.code), Tidy(a.name), Tidy(b.name);
    hide Trim, Tidy;
    TextIrreflexive(x);
    if x != y {
      TextTotal(x, y);
      if Rank(x).Some? && Rank(x) == Rank(y) {
        RanksDiffer(x, y);
      }
    }
    hide Rank;
    if l != m {
      TextTotal(l, m);
    }
  }

  /** It is transitive, and so a strict order. */
  lemma PrecedesIsTransitive(a: Bank, b: Bank, c: Bank)
    requires Precedes(a, b) && Precedes(b, c)
    ensures Precedes(a, c)
  {
    var x, y, z := Trim(a.code), Trim(b.code), Trim(c.code);
    var l, m, n := Tidy(a.name), Tidy(b.name), Tidy(c.name);
    hide Trim, Tidy, Rank;
    if TextBefore(x, y) && TextBefore(y, z) {
      TextTransitive(x, y, z);
    }
    if TextBefore(l, m) && TextBefore(m, n) {
      TextTransitive(l, m, n);
      TextIrreflexive(l);
    }
  }

  // ------------------------------------------------------------------ the result

  /** What a sort promises of its result. */
  ghost predicate Sorted(s: seq<Bank>) {
    forall i, j :: 0 <= i < j < |s| ==> !Precedes(s[j], s[i])
  }

  /** s lists the table: each entry once. */
  ghost predicate Lists(s: seq<Bank>, m: map<string, Bank>) {
    && (forall i :: 0 <= i < |s| ==> s[i].code in m && m[s[i].code] == s[i])
    && (forall i, j :: 0 <= i < j < |s| ==> s[i].code != s[j].code)
    && (forall code <- m :: m[code] in s)
  }

  ghost predicate Trimmed(s: seq<Bank>) {
    forall i :: 0 <= i < |s| ==> Trim(s[i].code) == s[i].code
  }

  ghost predicate Strictly(s: seq<Bank>) {
    forall i, j :: 0 <= i < j < |s| ==> Precedes(s[i], s[j])
  }

  lemma SortedIsStrict(s: seq<Bank>, m: map<string, Bank>)
    requires Sorted(s) && Lists(s, m) && Trimmed(s)
    ensures Strictly(s)
  {
    forall i, j | 0 <= i < j < |s|
      ensures Precedes(s[i], s[j])
    {
      assert Trim(s[i].code) == s[i].code && Trim(s[j].code) == s[j].code;
      PrecedesIsTotal(s[i], s[j]);
    }
  }

  // Two strictly ordered listings of the same banks are the same listing.
  lemma {:induction false} OneStrictListing(s: seq<Bank>, t: seq<Bank>)
    requires Strictly(s) && Strictly(t) && forall b :: b in s <==> b in t
    ensures s == t
  {
    hide Precedes;
    assert t != [] ==> t[0] in t;
    if s != [] {
      assert s[0] in t && t != [];
      assert t[0] in s;
      if s[0] != t[0] {
        var i :| 0 <= i < |s| && s[i] == t[0];
        var j :| 0 <= j < |t| && t[j] == s[0];
        assert Precedes(s[0], t[0]) && Precedes(t[0], s[0]);
        PrecedesIsTransitive(s[0], t[0], s[0]);
        PrecedesIsTotal(s[0], s[0]);
        assert false;
      }
      TailsAgree(s, t);
      OneStrictListing(s[1..], t[1..]);
      assert s == [s[0]] + s[1..] && t == [t[0]] + t[1..];
    }
  }

  lemma TailsAgree(s: seq<Bank>, t: seq<Bank>)
    requires Strictly(s) && Strictly(t) && (forall b :: b in s <==> b in t) && s != [] && t != [] && s[0] == t[0]
    ensures Strictly(s[1..]) && Strictly(t[1..]) && forall b :: b in s[1..] <==> b in t[1..]
  {
    hide Precedes;
    forall b
      ensures b in s[1..] <==> b in t[1..]
    {
      InTail(s, b);
      InTail(t, b);
    }
  }

  lemma InTail(s: seq<Bank>, b: Bank)
    requires Strictly(s) && s != []
    ensures b in s[1..] <==> b in s && b != s[0]
  {
    PrecedesIsTotal(s[0], s[0]);
    hide Precedes;
    if b in s[1..] {
      var i :| 0 <= i < |s[1..]| && s[1..][i] == b;
      assert s[i + 1] == b && Precedes(s[0], s[i + 1]);
    }
  }

  /** The merged directory does not depend on the order the table is walked in: any two sorted listings of it are
      the same sequence. */
  lemma MergeIsDeterministic(primary: seq<Option<Bank>>, secondary: seq<Option<Bank>>, s: seq<Bank>, t: seq<Bank>)
    requires Sorted(s) && Lists(s, Table(primary, secondary))
    requires Sorted(t) && Lists(t, Table(primary, secondary))
    ensures s == t
  {
    var m := Table(primary, secondary);
    TableIsCoded(primary, secondary);
    SortedIsStrict(s, m);
    SortedIsStrict(t, m);
    SameMembers(s, t, m);
    SameMembers(t, s, m);
    OneStrictListing(s, t);
  }

  lemma SameMembers(s: seq<Bank>, t: seq<Bank>, m: map<string, Bank>)
    requires Lists(s, m) && Lists(t, m)
    ensures forall b :: b in s ==> b in t
  {
    forall b | b in s
      ensures b in t
    {
      var i :| 0 <= i < |s| && s[i] == b;
      assert s[i].code in m && m[s[i].code] == b;
    }
  }

  // ------------------------------------------------------------------ what the order looks like

  /** Alphabetical order in the usual words: at the first place where two texts differ the earlier one has the smaller
      character, or has ended. */
  ghost predicate Alphabetical(a: string, b: string) {
    exists k :: DivideAt(a, b, k)
  }

  ghost predicate DivideAt(a: string, b: string, k: int) {
    && 0 <= k <= |a| && k < |b| && (forall i :: 0 <= i < k ==> a[i] == b[i])
    && (k == |a| || (a[k] as int) < (b[k] as int))
  }

  lemma {:induction false} TextBeforeIff(a: string, b: string)
    ensures TextBefore(a, b) <==> Alphabetical(a, b)
  {
    if b == "" {
    } else if a == "" || a[0] != b[0] {
      assert TextBefore(a, b) ==> DivideAt(a, b, 0);
    } else {
      TextBeforeIff(a[1..], b[1..]);
      if TextBefore(a, b) {
        var k :| DivideAt(a[1..], b[1..], k);
        assert forall i :: 1 <= i < k + 1 ==> a[i] == a[1..][i - 1] && b[i] == b[1..][i - 1];
        assert DivideAt(a, b, k + 1);
      }
      if Alphabetical(a, b) {
        var k :| DivideAt(a, b, k);
        assert DivideAt(a[1..], b[1..], k - 1);
      }
    }
  }

  // The popular banks: Guaranty Trust, Access, United Bank for Africa, First, Zenith.
  const POPULAR: seq<string> := ["058", "044", "033", "011", "057"]

  /** How two banks of the directory may stand, one before the other: a popular one only has more popular ones before
      it; the others go by tidied name, and by code where the names agree. */
  ghost predicate MayStand(a: Bank, b: Bank) {
    && (forall q :: 0 <= q < 5 && b.code == POPULAR[q] ==> a.code in POPULAR[..q])
    && (a.code !in POPULAR && b.code !in POPULAR
        ==> Alphabetical(Tidy(a.name), Tidy(b.name)) || (Tidy(a.name) == Tidy(b.name) && Alphabetical(a.code, b.code)))
  }

  lemma RankIsPlace(code: string)
    ensures match Rank(code) case None => code !in POPULAR case Some(q) => q < 5 && code == POPULAR[q]
    ensures forall q :: 0 <= q < 5 && code == POPULAR[q] ==> Rank(code) == Some(q)
  {
    assert POPULAR[0] == "058" && POPULAR[1] == "044" && POPULAR[2] == "033" && POPULAR[3] == "011" && POPULAR[4] == "057";
  }

  lemma PrecedesMeans(a: Bank, b: Bank)
    requires Precedes(a, b) && Trim(a.code) == a.code && Trim(b.code) == b.code
    ensures MayStand(a, b)
  {
    RankIsPlace(a.code);
    RankIsPlace(b.code);
    TextBeforeIff(a.code, b.code);
    TextBeforeIff(Tidy(a.name), Tidy(b.name));
    hide Trim, Tidy, Rank, TextBefore, Alphabetical;
    forall q | 0 <= q < 5 && b.code == POPULAR[q]
      ensures a.code in POPULAR[..q]
    {
      assert Rank(b.code) == Some(q);
      assert Rank(a.code).Some? && Rank(a.code).value < q;
      assert POPULAR[..q][Rank(a.code).value] == a.code;
    }
  }

  /** In a sorted listing of the merged directory every two banks stand in that order. */
  lemma DirectoryOrder(primary: seq<Option<Bank>>, secondary: seq<Option<Bank>>, s: seq<Bank>, i: nat, j: nat)
    requires Sorted(s) && Lists(s, Table(primary, secondary)) && i < j < |s|
    ensures MayStand(s[i], s[j])
  {
    TableIsCoded(primary, secondary);
    hide Table, Trim, Tidy, Rank, Precedes, MayStand;
    assert Trim(s[i].code) == s[i].code && Trim(s[j].code) == s[j].code;
    PrecedesIsTotal(s[i], s[j]);
    PrecedesMeans(s[i], s[j]);
  }

  // Every one of the places is listed, and only earlier places come before it.
  ghost predicate Led(s: seq<Bank>, places: seq<string>) {
    && (forall i, j :: 0 <= i < j < |s| ==> s[i].code != s[j].code)
    && (forall i, j, q :: 0 <= i < j < |s| && 0 <= q < |places| && s[j].code == places[q] ==> s[i].code in places[..q])
    && (forall q :: 0 <= q < |places| ==> Listed(s, places[q]))
  }

  ghost predicate Listed(s: seq<Bank>, code: string) {
    exists k :: 0 <= k < |s| && s[k].code == code
  }

  ghost predicate Distinct(places: seq<string>) {
    forall p, q :: 0 <= p < q < |places| ==> places[p] != places[q]
  }

  lemma EarlierPlace(s: seq<Bank>, places: seq<string>, i: nat, j: nat, q: nat) returns (p: nat)
    requires Led(s, places) && i < j < |s| && q < |places| && s[j].code == places[q]
    ensures p < q && s[i].code == places[p]
  {
    assert s[i].code in places[..q];
    p :| p < q && places[..q][p] == s[i].code;
  }

  lemma OnePlace(s: seq<Bank>, places: seq<string>, i: nat, j: nat)
    requires Led(s, places) && i < |s| && j < |s| && s[i].code == s[j].code
    ensures i == j
  {
  }

  lemma PlaceOf(s: seq<Bank>, places: seq<string>, q: nat) returns (k: nat)
    requires Led(s, places) && q < |places|
    ensures k < |s| && s[k].code == places[q]
  {
    assert Listed(s, places[q]);
    k :| k < |s| && s[k].code == places[q];
  }

  lemma {:induction false} PlacesLead(s: seq<Bank>, places: seq<string>, n: nat)
    requires Led(s, places) && n <= |places| && Distinct(places)
    ensures n <= |s| && forall p :: 0 <= p < n ==> s[p].code == places[p]
  {
    if n > 0 {
      hide Led;
      var q := n - 1;
      PlacesLead(s, places, q);
      var k := PlaceOf(s, places, q);
      if k > 0 {
        var p := EarlierPlace(s, places, k - 1, k, q);
        OnePlace(s, places, p, k - 1);
      }
    }
  }

  /** The popular banks come first in the merged directory, in their literal order, when all are in it, as they are in
      the directory the engine ships. */
  lemma PopularComeFirst(primary: seq<Option<Bank>>, secondary: seq<Option<Bank>>, s: seq<Bank>)
    requires Sorted(s) && Lists(s, Table(primary, secondary))
    requires forall code :: code in POPULAR ==> code in Table(primary, secondary)
    ensures |s| >= 5 && s[0].code == "058" && s[1].code == "044" && s[2].code == "033" && s[3].code == "011" && s[4].code == "057"
  {
    hide *;
    TableIsCoded(primary, secondary);
    PopularAre();
    PopularAreLed(primary, secondary, s, POPULAR);
    PlacesLead(s, POPULAR, 5);
  }

  lemma PopularAre()
    ensures |POPULAR| == 5 && Distinct(POPULAR) && POPULAR[0] == "058" && POPULAR[1] == "044" && POPULAR[2] == "033"
            && POPULAR[3] == "011" && POPULAR[4] == "057"
  {
  }

  lemma PopularAreLed(primary: seq<Option<Bank>>, secondary: seq<Option<Bank>>, s: seq<Bank>, places: seq<string>)
    requires Sorted(s) && Lists(s, Table(primary, secondary)) && Coded(Table(primary, secondary)) && places == POPULAR
    requires forall code :: code in places ==> code in Table(primary, secondary)
    ensures Led(s, places)
  {
    hide Table, Sorted, MayStand;
    forall i, j, q | 0 <= i < j < |s| && 0 <= q < |places| && s[j].code == places[q]
      ensures s[i].code in places[..q]
    {
      DirectoryOrder(primary, secondary, s, i, j);
      PopularBefore(s[i], s[j], q);
    }
    forall q | 0 <= q < |places|
      ensures Listed(s, places[q])
    {
      assert places[q] in places;
      var k :| 0 <= k < |s| && s[k] == Table(primary, secondary)[places[q]];
      assert s[k].code == places[q];
    }
  }

  lemma PopularBefore(a: Bank, b: Bank, q: nat)
    requires MayStand(a, b) && q < |POPULAR| && b.code == POPULAR[q]
    ensures a.code in POPULAR[..q]
  {
    hide Tidy, Alphabetical;
  }

  // ------------------------------------------------------------------ the merge as the program runs it

  method Insert(sorted: seq<Bank>, b: Bank) returns (after: seq<Bank>, ghost k: nat)
    requires Sorted(sorted)
    ensures k <= |sorted| && after == sorted[..k] + [b] + sorted[k..]
    ensures Sorted(after)
  {
    hide Precedes;
    var i := 0;
    while i < |sorted| && !Precedes(b, sorted[i])
      invariant 0 <= i <= |sorted|
      invariant forall j :: 0 <= j < i ==> !Precedes(b, sorted[j])
    {
      i := i + 1;
    }
    after := sorted[..i] + [b] + sorted[i..];
    k := i;
    InsertedIsSorted(sorted, b, i);
  }

  lemma InsertedIsSorted(s: seq<Bank>, b: Bank, k: nat)
    requires Sorted(s) && k <= |s|
    requires forall i :: 0 <= i < k ==> !Precedes(b, s[i])
    requires k < |s| ==> Precedes(b, s[k])
    ensures Sorted(s[..k] + [b] + s[k..])
  {
    hide Precedes;
    var t := s[..k] + [b] + s[k..];
    forall i, j | 0 <= i < j < |t|
      ensures !Precedes(t[j], t[i])
    {
      InsertedAt(s, b, k, i);
      InsertedAt(s, b, k, j);
      if i == k && Precedes(s[j - 1], b) {
        PrecedesIsTransitive(s[j - 1], b, s[k]);
        PrecedesIsTotal(s[k], s[k]);
      }
    }
  }

  lemma InsertedAt(s: seq<Bank>, b: Bank, k: nat, i: nat)
    requires k <= |s| && i <= |s|
    ensures (s[..k] + [b] + s[k..])[i] == if i < k then s[i] else if i == k then b else s[i - 1]
  {
  }

  lemma InsertedMembers(s: seq<Bank>, b: Bank, k: nat)
    requires k <= |s|
    ensures forall x :: x in s[..k] + [b] + s[k..] <==> x in s || x == b
  {
    assert s == s[..k] + s[k..];
  }

  method Gather(primary: seq<Option<Bank>>, secondary: seq<Option<Bank>>) returns (merged: map<string, Bank>)
    ensures merged == Table(primary, secondary)
  {
    hide Upsert;
    ghost var all := primary + secondary;
    merged := map[];
    for i := 0 to |primary|
      invariant merged == Gathered(all, |primary|, i)
    {
      merged := Upsert(merged, primary[i], false);
    }
    for i := 0 to |secondary|
      invariant merged == Gathered(all, |primary|, |primary| + i)
    {
      merged := Upsert(merged, secondary[i], true);
    }
  }

  // The part of a table that has been listed when the codes left are not.
  ghost predicate ListsSoFar(s: seq<Bank>, m: map<string, Bank>, left: set<string>) {
    && (forall i :: 0 <= i < |s| ==> s[i].code in m && s[i].code !in left && m[s[i].code] == s[i])
    && (forall i, j :: 0 <= i < j < |s| ==> s[i].code != s[j].code)
    && (forall code <- m :: code in left || m[code] in s)
  }

  lemma ListedOneMore(s: seq<Bank>, m: map<string, Bank>, left: set<string>, code: string, k: nat)
    requires ListsSoFar(s, m, left) && Coded(m) && code in left && code in m && k <= |s|
    ensures ListsSoFar(s[..k] + [m[code]] + s[k..], m, left - {code})
  {
    var t := s[..k] + [m[code]] + s[k..];
    InsertedMembers(s, m[code], k);
    forall i | 0 <= i < |t|
      ensures t[i].code in m && t[i].code !in left - {code} && m[t[i].code] == t[i]
    {
      InsertedAt(s, m[code], k, i);
    }
    forall i, j | 0 <= i < j < |t|
      ensures t[i].code != t[j].code
    {
      InsertedAt(s, m[code], k, i);
      InsertedAt(s, m[code], k, j);
    }
  }

  /** Gathers both directories and lists the table sorted, walking its keys in any order. */
  method Merge(primary: seq<Option<Bank>>, secondary: seq<Option<Bank>>) returns (results: seq<Bank>)
    ensures Sorted(results) && Lists(results, Table(primary, secondary))
  {
    var merged := Gather(primary, secondary);
    TableIsCoded(primary, secondary);
    hide *;
    results := [];
    NothingListed(merged);
    var left := merged.Keys;
    while left != {}
      invariant left <= merged.Keys
      invariant Sorted(results) && ListsSoFar(results, merged, left)
    {
      var code :| code in left;
      ghost var before := results;
      ghost var k: nat;
      results, k := Insert(results, merged[code]);
      ListedOneMore(before, merged, left, code, k);
      left := left - {code};
    }
    AllListed(results, merged);
  }

  lemma NothingListed(m: map<string, Bank>)
    ensures Sorted([]) && ListsSoFar([], m, m.Keys)
  {
  }

  lemma AllListed(s: seq<Bank>, m: map<string, Bank>)
    requires ListsSoFar(s, m, {})
    ensures Lists(s, m)
  {
  }
}
