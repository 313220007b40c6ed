/** Keys of ledger rows. A row key is the operation key, the kind and the direction, so a reserved operation key
    keeps every row key unique; the width of the key column is what can still refuse a posting. */
module LedgerKeys {
  import opened Wrappers
  import opened Text
  import opened Ledger
  import opened Store

  predicate Spelled(e: Entry, opKey: string) {
    e.key == opKey + e.kind.KeyText() + e.direction.KeyText()
  }

  /** The reservation that stands behind a posting of this kind under this operation key. */
  function Reservation(opKey: string, kind: Kind): OpKey {
    OpKey(StatusChange(Poster(kind)), TrimRight(opKey))
  }

  ghost predicate TracedRow(e: Entry, keys: map<OpKey, string>) {
    exists k: string :: Spelled(e, k) && Reservation(k, e.kind) in keys
  }

  /** Every row goes back to a reserved operation key. */
  ghost predicate Traced(rows: seq<Entry>, keys: map<OpKey, string>) {
    forall i :: 0 <= i < |rows| ==> TracedRow(rows[i], keys)
  }

  ghost predicate UniqueKeys(rows: seq<Entry>) {
    forall i, j :: 0 <= i < j < |rows| ==> rows[i].key != rows[j].key
  }

  /** The longer of a posting's two row keys does not fit the column. */
  predicate TooLong(opKey: string, kind: Kind) {
    |opKey| + |kind.KeyText()| + |Credit.KeyText()| > KEY_WIDTH
  }

  // While one transaction posts: rows are traced, or carry its own operation key and a kind already posted.
  ghost predicate Explained(rows: seq<Entry>, keys: map<OpKey, string>, opKey: string, kinds: set<Kind>) {
    forall i :: 0 <= i < |rows| ==> TracedRow(rows[i], keys) || (Spelled(rows[i], opKey) && rows[i].kind in kinds)
  }

  lemma RowKeyForm(opKey: string, kind: Kind, d: Direction)
    requires KeyForm(opKey)
    ensures RowKey(opKey, kind, d) == Cut(opKey + kind.KeyText() + d.KeyText(), MAX_KEY)
  {
    hide Kind.KeyText, Direction.KeyText, NormalizeKey, KeyText, IsSpace, Cut;
    var raw: string :| opKey == NormalizeKey(raw);
    var ending := kind.KeyText() + d.KeyText();
    assert opKey + kind.KeyText() + d.KeyText() == opKey + ending;
    Endings(kind, d);
    NormalizeAppends(raw, ending);
  }

  lemma Endings(kind: Kind, d: Direction)
    ensures KeyText(kind.KeyText() + d.KeyText())
    ensures kind.KeyText() + d.KeyText() != "" && !IsSpace((kind.KeyText() + d.KeyText())[|kind.KeyText() + d.KeyText()| - 1])
  {
    KindTag(kind);
    hide Kind.KeyText;
    assert KeyText(d.KeyText());
  }

  lemma RowKeyWidth(opKey: string, kind: Kind)
    requires KeyForm(opKey)
    ensures TooLong(opKey, kind) <==> |RowKey(opKey, kind, Debit)| > KEY_WIDTH || |RowKey(opKey, kind, Credit)| > KEY_WIDTH
    ensures !TooLong(opKey, kind) ==> forall d :: RowKey(opKey, kind, d) == opKey + kind.KeyText() + d.KeyText()
  {
    RowKeyForm(opKey, kind, Debit);
    RowKeyForm(opKey, kind, Credit);
    assert |Debit.KeyText()| == 6 && |Credit.KeyText()| == 7;
    hide RowKey, Kind.KeyText, Direction.KeyText;
    forall d | !TooLong(opKey, kind)
      ensures RowKey(opKey, kind, d) == opKey + kind.KeyText() + d.KeyText()
    {
      RowKeyForm(opKey, kind, d);
    }
  }

  /** Stored row keys tell rows apart: where they fit the column, equal ones come from the same operation key, kind and
      direction. */
  lemma RowKeysTell(k1: string, kind1: Kind, d1: Direction, k2: string, kind2: Kind, d2: Direction)
    requires KeyForm(k1) && KeyForm(k2) && !TooLong(k1, kind1) && !TooLong(k2, kind2)
    requires RowKey(k1, kind1, d1) == RowKey(k2, kind2, d2)
    ensures k1 == k2 && kind1 == kind2 && d1 == d2
  {
    hide KeyForm, TooLong, RowKey, Kind.KeyText, Direction.KeyText;
    RowKeyWidth(k1, kind1);
    RowKeyWidth(k2, kind2);
    RowKeysDiffer(k1, kind1, d1, k2, kind2, d2);
  }

  // A key of a fresh reservation and a kind not yet posted is on no row.
  lemma KeyNotUsed(rows: seq<Entry>, keys: map<OpKey, string>, opKey: string, kinds: set<Kind>, kind: Kind, d: Direction)
    requires Explained(rows, keys, opKey, kinds) && kind !in kinds && Reservation(opKey, kind) !in keys
    ensures !KeyUsed(rows, opKey + kind.KeyText() + d.KeyText())
  {
    var key := opKey + kind.KeyText() + d.KeyText();
    hide Kind.KeyText, Direction.KeyText, Reservation;
    forall i | 0 <= i < |rows|
      ensures rows[i].key != key
    {
      var e := rows[i];
      if e.key == key {
        if TracedRow(e, keys) {
          var k: string :| Spelled(e, k) && Reservation(k, e.kind) in keys;
          RowKeysDiffer(k, e.kind, e.direction, opKey, kind, d);
          assert false;
        } else {
          RowKeysDiffer(opKey, e.kind, e.direction, opKey, kind, d);
          assert false;
        }
      }
    }
  }

  lemma FitsUnlessTooLong(rows: seq<Entry>, keys: map<OpKey, string>, opKey: string, kinds: set<Kind>, kind: Kind)
    requires KeyForm(opKey) && Explained(rows, keys, opKey, kinds) && kind !in kinds && Reservation(opKey, kind) !in keys
    ensures Fits(rows, kind, opKey) == if TooLong(opKey, kind) then Some(KeyTooLong) else None
  {
    hide RowKey, Kind.KeyText, Direction.KeyText, Reservation, Explained, KeyUsed, KeyForm, TooLong;
    RowKeyWidth(opKey, kind);
    KeyNotUsed(rows, keys, opKey, kinds, kind, Debit);
    KeyNotUsed(rows, keys, opKey, kinds, kind, Credit);
    if RowKey(opKey, kind, Debit) == RowKey(opKey, kind, Credit) && !TooLong(opKey, kind) {
      RowKeysDiffer(opKey, kind, Debit, opKey, kind, Credit);
    }
  }

  lemma UniqueAppend(rows: seq<Entry>, d: Entry, c: Entry)
    requires UniqueKeys(rows) && !KeyUsed(rows, d.key) && !KeyUsed(rows, c.key) && d.key != c.key
    ensures UniqueKeys(rows + [d, c])
  {
  }

  lemma ExplainedAppend(rows: seq<Entry>, keys: map<OpKey, string>, opKey: string, kinds: set<Kind>, d: Entry, c: Entry)
    requires Explained(rows, keys, opKey, kinds) && Spelled(d, opKey) && Spelled(c, opKey) && d.kind == c.kind
    ensures Explained(rows + [d, c], keys, opKey, kinds + {d.kind})
  {
    hide Spelled, TracedRow;
  }

  lemma PostUnlessTooLong(rows: seq<Entry>, trade: string, p: Posting, opKey: string, tick: Tick, n: nat,
                          keys: map<OpKey, string>, kinds: set<Kind>)
    requires KeyForm(opKey) && Explained(rows, keys, opKey, kinds) && UniqueKeys(rows)
    requires p.kind !in kinds && Reservation(opKey, p.kind) !in keys
    ensures Post(rows, trade, p, opKey, tick, n).Err? <==> p.amount > 0 && TooLong(opKey, p.kind)
    ensures Post(rows, trade, p, opKey, tick, n).Err? ==> Post(rows, trade, p, opKey, tick, n).error == KeyTooLong
    ensures Post(rows, trade, p, opKey, tick, n).Ok? ==>
              Explained(Post(rows, trade, p, opKey, tick, n).value, keys, opKey, kinds + {p.kind})
              && UniqueKeys(Post(rows, trade, p, opKey, tick, n).value)
  {
    hide RowKey, Kind.KeyText, Direction.KeyText, Reservation, KeyForm, TooLong, UniqueKeys, Fits, DebitRow, CreditRow, Explained;
    FitsUnlessTooLong(rows, keys, opKey, kinds, p.kind);
    if p.amount > 0 && !TooLong(opKey, p.kind) {
      PairIsExplained(rows, trade, p, opKey, tick, n, keys, kinds);
    } else if p.amount <= 0 {
      MoreKinds(rows, keys, opKey, kinds, p.kind);
    }
  }

  lemma MoreKinds(rows: seq<Entry>, keys: map<OpKey, string>, opKey: string, kinds: set<Kind>, kind: Kind)
    requires Explained(rows, keys, opKey, kinds)
    ensures Explained(rows, keys, opKey, kinds + {kind})
  {
    hide Spelled, TracedRow;
  }

  lemma PairIsExplained(rows: seq<Entry>, trade: string, p: Posting, opKey: string, tick: Tick, n: nat,
                        keys: map<OpKey, string>, kinds: set<Kind>)
    requires KeyForm(opKey) && Explained(rows, keys, opKey, kinds) && UniqueKeys(rows)
    requires !TooLong(opKey, p.kind) && Fits(rows, p.kind, opKey).None?
    ensures var after := rows + [DebitRow(rows, trade, p, opKey, tick, n), CreditRow(rows, trade, p, opKey, tick, n)];
            Explained(after, keys, opKey, kinds + {p.kind}) && UniqueKeys(after)
  {
    hide RowKey, Kind.KeyText, Direction.KeyText, KeyForm, TooLong, KeyUsed, UniqueKeys, Explained, Fits, Balance;
    RowKeyWidth(opKey, p.kind);
    FitsMeansUnused(rows, p.kind, opKey);
    var d, c := DebitRow(rows, trade, p, opKey, tick, n), CreditRow(rows, trade, p, opKey, tick, n);
    UniqueAppend(rows, d, c);
    ExplainedAppend(rows, keys, opKey, kinds, d, c);
  }

  lemma FitsMeansUnused(rows: seq<Entry>, kind: Kind, opKey: string)
    requires Fits(rows, kind, opKey).None?
    ensures !KeyUsed(rows, RowKey(opKey, kind, Debit)) && !KeyUsed(rows, RowKey(opKey, kind, Credit))
    ensures RowKey(opKey, kind, Debit) != RowKey(opKey, kind, Credit)
  {
    hide RowKey, KeyUsed;
  }

  // ------------------------------------------------------------------ all postings of a transaction

  function KindsOf(ps: seq<Posting>): set<Kind> {
    if ps == [] then {} else KindsOf(ps[..|ps| - 1]) + {ps[|ps| - 1].kind}
  }

  predicate DistinctKinds(ps: seq<Posting>) {
    ps == [] || (ps[|ps| - 1].kind !in KindsOf(ps[..|ps| - 1]) && DistinctKinds(ps[..|ps| - 1]))
  }

  /** Some positive posting whose row keys are too long for the column. */
  predicate Overlong(ps: seq<Posting>, opKey: string) {
    exists i :: 0 <= i < |ps| && ps[i].amount > 0 && TooLong(opKey, ps[i].kind)
  }

  /** Under a fresh reservation, a transaction's postings are refused exactly when a positive one of them has row
      keys too long for the column; a row key never meets another. */
  lemma {:induction false} PostAllUnlessTooLong(rows: seq<Entry>, trade: string, ps: seq<Posting>, opKey: string, tick: Tick,
                                                keys: map<OpKey, string>)
    requires KeyForm(opKey) && Traced(rows, keys) && UniqueKeys(rows) && DistinctKinds(ps)
    requires forall kind <- KindsOf(ps) :: Reservation(opKey, kind) !in keys
    ensures PostAll(rows, trade, ps, opKey, tick).Err? <==> Overlong(ps, opKey)
    ensures PostAll(rows, trade, ps, opKey, tick).Err? ==> PostAll(rows, trade, ps, opKey, tick).error == KeyTooLong
    ensures PostAll(rows, trade, ps, opKey, tick).Ok? ==>
              Explained(PostAll(rows, trade, ps, opKey, tick).value, keys, opKey, KindsOf(ps))
              && UniqueKeys(PostAll(rows, trade, ps, opKey, tick).value)
  {
    hide TracedRow, Post, KeyForm, TooLong, Spelled, Reservation, UniqueKeys;
    if ps != [] {
      var n := |ps| - 1;
      PostAllUnlessTooLong(rows, trade, ps[..n], opKey, tick, keys);
      OverlongLast(ps, opKey);
      hide Overlong, Explained;
      var sofar := PostAll(rows, trade, ps[..n], opKey, tick);
      if sofar.Ok? {
        PostUnlessTooLong(sofar.value, trade, ps[n], opKey, tick, n, keys, KindsOf(ps[..n]));
      }
    }
  }

  lemma OverlongLast(ps: seq<Posting>, opKey: string)
    requires ps != []
    ensures Overlong(ps, opKey) <==> Overlong(ps[..|ps| - 1], opKey) || (ps[|ps| - 1].amount > 0 && TooLong(opKey, ps[|ps| - 1].kind))
  {
    hide TooLong;
    var n := |ps| - 1;
    if Overlong(ps[..n], opKey) {
      var i :| 0 <= i < n && ps[..n][i].amount > 0 && TooLong(opKey, ps[..n][i].kind);
      assert ps[i] == ps[..n][i];
    }
    if Overlong(ps, opKey) {
      var i :| 0 <= i < |ps| && ps[i].amount > 0 && TooLong(opKey, ps[i].kind);
      assert i < n ==> ps[..n][i] == ps[i];
    }
  }

  // Once the reservation is written, the rows posted under it are traced too.
  lemma ExplainedIsTraced(rows: seq<Entry>, keys: map<OpKey, string>, opKey: string, kinds: set<Kind>, k: OpKey, owner: string)
    requires Explained(rows, keys, opKey, kinds)
    requires forall kind <- kinds :: Reservation(opKey, kind) == k
    ensures Traced(rows, keys[k := owner])
  {
    hide Spelled, Reservation;
  }
}
