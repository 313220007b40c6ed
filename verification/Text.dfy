/** ASCII text handling: trimming, case folding and the key normalisation the engine applies
    to every idempotency key. */
module Text {

  // Longest operation key that is kept; longer ones are cut.
  const MAX_KEY := 255

  predicate IsSpace(c: char) {
    c == ' ' || c == '\t' || c == '\n' || c == '\r' || c == '\U{0B}' || c == '\U{0C}'
  }

  predicate IsUpper(c: char) { 'A' <= c <= 'Z' }

  predicate IsLower(c: char) { 'a' <= c <= 'z' }

  predicate IsDigit(c: char) { '0' <= c <= '9' }

  function LowerChar(c: char): char {
    if IsUpper(c) then (c as int + 32) as char else c
  }

  function UpperChar(c: char): char {
    if IsLower(c) then (c as int - 32) as char else c
  }

  function Lower(s: string): (r: string)
    ensures |r| == |s|
  {
    seq(|s|, i requires 0 <= i < |s| => LowerChar(s[i]))
  }

  function Upper(s: string): (r: string)
    ensures |r| == |s|
  {
    seq(|s|, i requires 0 <= i < |s| => UpperChar(s[i]))
  }

  function SpacesToUnderscores(s: string): (r: string)
    ensures |r| == |s|
  {
    seq(|s|, i requires 0 <= i < |s| => if s[i] == ' ' then '_' else s[i])
  }

  // Index of the first visible character from i on.
  function FirstVisible(s: string, i: nat): (k: nat)
    requires i <= |s|
    ensures i <= k <= |s|
    decreases |s| - i
  {
    if i < |s| && IsSpace(s[i]) then FirstVisible(s, i + 1) else i
  }

  // Index just after the last visible character before n.
  function AfterVisible(s: string, n: nat): (k: nat)
    requires n <= |s|
    ensures k <= n
  {
    if n > 0 && IsSpace(s[n - 1]) then AfterVisible(s, n - 1) else n
  }

  function TrimLeft(s: string): string {
    s[FirstVisible(s, 0)..]
  }

  function TrimRight(s: string): string {
    s[..AfterVisible(s, |s|)]
  }

  function Trim(s: string): string {
    TrimRight(TrimLeft(s))
  }

  function Cut(s: string, n: nat): (r: string)
    ensures r <= s && |r| <= n
    ensures |s| <= n ==> r == s
  {
    if |s| <= n then s else s[..n]
  }

  /** The form every operation key and every ledger key is stored in. */
  function NormalizeKey(raw: string): (key: string)
    ensures |key| <= MAX_KEY
  {
    Cut(SpacesToUnderscores(Lower(Trim(raw))), MAX_KEY)
  }

  /** First text that is not blank, trimmed. */
  function FirstNonBlank(a: string, b: string): string {
    if Trim(a) != "" then Trim(a) else Trim(b)
  }

  predicate EqualFold(a: string, b: string) {
    Lower(a) == Lower(b)
  }

  /** The same letters, in whatever case. */
  predicate SameLetters(x: string, y: string) {
    |x| == |y| && forall i :: 0 <= i < |x| ==> LowerChar(x[i]) == LowerChar(y[i])
  }

  /** The second text spells the first one in capitals. */
  predicate Capitals(x: string, y: string) {
    |x| == |y| && forall i :: 0 <= i < |x| ==> UpperChar(x[i]) == y[i]
  }

  lemma FoldIff(x: string, y: string)
    ensures EqualFold(x, y) <==> SameLetters(x, y)
  {
    if EqualFold(x, y) {
      forall i | 0 <= i < |x|
        ensures LowerChar(x[i]) == LowerChar(y[i])
      {
        assert Lower(x)[i] == Lower(y)[i];
      }
    }
  }

  lemma CapitalsIff(x: string, y: string)
    ensures Upper(x) == y <==> Capitals(x, y)
  {
    if Upper(x) == y {
      forall i | 0 <= i < |x|
        ensures UpperChar(x[i]) == y[i]
      {
        assert Upper(x)[i] == y[i];
      }
    }
  }

  /** A character that normalisation leaves as it is. */
  predicate KeyChar(c: char) {
    !IsUpper(c) && c != ' '
  }

  predicate KeyText(s: string) {
    forall c <- s :: KeyChar(c)
  }

  lemma {:induction false} FirstVisibleIs(s: string, i: nat)
    requires i <= |s|
    ensures forall j :: i <= j < FirstVisible(s, i) ==> IsSpace(s[j])
    ensures FirstVisible(s, i) < |s| ==> !IsSpace(s[FirstVisible(s, i)])
    decreases |s| - i
  {
    if i < |s| && IsSpace(s[i]) {
      FirstVisibleIs(s, i + 1);
    }
  }

  lemma {:induction false} AfterVisibleIs(s: string, n: nat)
    requires n <= |s|
    ensures forall j :: AfterVisible(s, n) <= j < n ==> IsSpace(s[j])
    ensures AfterVisible(s, n) > 0 ==> !IsSpace(s[AfterVisible(s, n) - 1])
  {
    if n > 0 && IsSpace(s[n - 1]) {
      AfterVisibleIs(s, n - 1);
    }
  }

  /** Trimming on the right drops white space, up to the last visible character. */
  lemma TrimRightIs(s: string)
    ensures var r := TrimRight(s);
            && r <= s && (r != "" ==> !IsSpace(r[|r| - 1])) && forall i :: |r| <= i < |s| ==> IsSpace(s[i])
  {
    hide IsSpace;
    AfterVisibleIs(s, |s|);
  }

  /** What is left is no longer, and neither starts nor ends with white space. */
  lemma TrimIs(s: string)
    ensures |Trim(s)| <= |s| && (Trim(s) != "" ==> !IsSpace(Trim(s)[0]) && !IsSpace(Trim(s)[|Trim(s)| - 1]))
  {
    hide IsSpace;
    var t := TrimLeft(s);
    FirstVisibleIs(s, 0);
    AfterVisibleIs(t, |t|);
  }

  // Trimming on the right stops at the last visible character.
  lemma TrimRightStops(s: string, i: nat)
    requires i < |s| && !IsSpace(s[i])
    ensures |TrimRight(s)| > i
  {
    hide IsSpace;
    TrimRightIs(s);
  }

  // A stretch that starts and ends with a visible character survives trimming of anything after it.
  lemma TrimKeepsHead(head: string, tail: string)
    requires head != "" && !IsSpace(head[0]) && !IsSpace(head[|head| - 1])
    ensures head <= Trim(head + tail)
  {
    var s := head + tail;
    assert s[0] == head[0];
    TrimRightStops(s, |head| - 1);
    PrefixOfPrefix(head, TrimRight(s), s);
  }

  lemma PrefixOfPrefix(a: string, b: string, s: string)
    requires a <= s && b <= s && |a| <= |b|
    ensures a <= b
  {
  }

  lemma FoldKeepsHead(head: string, t: string)
    requires KeyText(head) && head <= t
    ensures head <= SpacesToUnderscores(Lower(t))
  {
    var u := SpacesToUnderscores(Lower(t));
    forall i | 0 <= i < |head|
      ensures u[i] == head[i]
    {
      assert KeyChar(head[i]) && t[i] == head[i];
    }
  }

  /** Normalisation keeps a key's head: a prefix of lower-case visible text is the prefix of the stored key. */
  lemma NormalizeKeepsHead(head: string, tail: string)
    requires head != "" && !IsSpace(head[0]) && !IsSpace(head[|head| - 1])
    requires KeyText(head) && |head| <= MAX_KEY
    ensures head <= NormalizeKey(head + tail)
  {
    TrimKeepsHead(head, tail);
    var t := Trim(head + tail);
    FoldKeepsHead(head, t);
    var u := SpacesToUnderscores(Lower(t));
    PrefixOfPrefix(head, Cut(u, MAX_KEY), u);
  }

  /** A stored key followed by a lower-case visible ending is only ever cut, never rewritten. */
  lemma NormalizeAppends(raw: string, ending: string)
    requires NormalizeKey(raw) != ""
    requires ending != "" && KeyText(ending) && !IsSpace(ending[|ending| - 1])
    ensures NormalizeKey(NormalizeKey(raw) + ending) == Cut(NormalizeKey(raw) + ending, 255)
  {
    var key := NormalizeKey(raw);
    NormalizedIsKeyText(raw);
    var s := key + ending;
    assert s[0] == key[0];
    assert TrimLeft(s) == s;
    assert s[|s| - 1] == ending[|ending| - 1];
    assert TrimRight(s) == s;
    forall i | 0 <= i < |s|
      ensures SpacesToUnderscores(Lower(s))[i] == s[i]
    {
      assert if i < |key| then s[i] == key[i] && key[i] in key else s[i] == ending[i - |key|] && ending[i - |key|] in ending;
    }
    assert SpacesToUnderscores(Lower(s)) == s;
  }

  // A stored key has no upper-case letter or blank in it, and does not start with white space.
  lemma NormalizedIsKeyText(raw: string)
    ensures KeyText(NormalizeKey(raw))
    ensures NormalizeKey(raw) != "" ==> !IsSpace(NormalizeKey(raw)[0])
  {
    var t := Trim(raw);
    TrimIs(raw);
    var u := SpacesToUnderscores(Lower(t));
    forall i | 0 <= i < |u|
      ensures KeyChar(u[i])
    {
      assert u[i] == if Lower(t)[i] == ' ' then '_' else Lower(t)[i];
    }
    forall c | c in NormalizeKey(raw)
      ensures KeyChar(c)
    {
      assert c in u;
    }
  }

  /** Normalising a stored key again only drops white space that a cut left at its end. */
  lemma NormalizeAgain(raw: string)
    ensures NormalizeKey(NormalizeKey(raw)) == TrimRight(NormalizeKey(raw))
  {
    var key := NormalizeKey(raw);
    NormalizedIsKeyText(raw);
    assert TrimLeft(key) == key;
    var t := TrimRight(key);
    forall i | 0 <= i < |t|
      ensures SpacesToUnderscores(Lower(t))[i] == t[i]
    {
      assert t[i] == key[i] && key[i] in key;
    }
    assert SpacesToUnderscores(Lower(t)) == t;
  }

  // A text with no white space at either end is trimmed.
  lemma TrimVisible(s: string)
    requires s != "" && !IsSpace(s[0]) && !IsSpace(s[|s| - 1])
    ensures Trim(s) == s
  {
    assert TrimLeft(s) == s;
    assert TrimRight(s) == s;
  }

  lemma TrimTwice(s: string)
    ensures Trim(Trim(s)) == Trim(s)
  {
    TrimIs(s);
    hide IsSpace, Trim;
    if Trim(s) != "" {
      TrimVisible(Trim(s));
    } else {
      TrimNothing();
    }
  }

  lemma TrimNothing()
    ensures Trim("") == ""
  {
  }
}
