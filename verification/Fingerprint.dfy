// The fingerprint of a set of rack positions: sorted, printed field by field and hashed. The hash
// is taken as injective, so two fingerprints are compared by the text that goes into it.

module Fingerprint {

  const UUID_CHARS := "0123456789abcdef-"

  predicate IsUuid(s: string) {
    |s| == 36 && forall i :: 0 <= i < 36 ==> s[i] in UUID_CHARS
  }

  type Uuid = s: string | IsUuid(s) witness "00000000-0000-0000-0000-000000000000"

  datatype Row = Row(rack: Uuid, startU: int, endU: int, device: Uuid, heightU: int)

  // ----- the order of the rows -----

  predicate Less(a: string, b: string) {
    if b == "" then false
    else if a == "" then true
    else if a[0] != b[0] then a[0] < b[0]
    else Less(a[1..], b[1..])
  }

  /** The comparison that the sort is given; it leaves out the last U and the height. */
  predicate Before(x: Row, y: Row) {
    if x.rack != y.rack then Less(x.rack, y.rack)
    else if x.startU != y.startU then x.startU < y.startU
    else Less(x.device, y.device)
  }

  lemma {:induction false} LessTotal(a: string, b: string)
    ensures a == b || Less(a, b) || Less(b, a)
  {
    if a != "" && b != "" && a[0] == b[0] {
      LessTotal(a[1..], b[1..]);
      assert a == [a[0]] + a[1..] && b == [b[0]] + b[1..];
    }
  }

  lemma {:induction false} LessAsymmetric(a: string, b: string)
    ensures !(Less(a, b) && Less(b, a))
  {
    if a != "" && b != "" {
      LessAsymmetric(a[1..], b[1..]);
    }
  }

  ghost predicate Sorted(rows: seq<Row>) {
    forall i, j :: 0 <= i < j < |rows| ==> !Before(rows[j], rows[i])
  }

  ghost predicate IsSorting(all: seq<Row>, rows: seq<Row>) {
    Sorted(rows) && multiset(rows) == multiset(all)
  }

  /** Rows that the comparison cannot tell apart are the same: a device has one live position. */
  ghost predicate Distinguishable(rows: multiset<Row>) {
    forall x, y :: x in rows && y in rows && x.rack == y.rack && x.startU == y.startU && x.device == y.device ==> x == y
  }

  lemma HeadIsLeast(a: seq<Row>, y: Row)
    requires Sorted(a) && y in a
    ensures a != [] && (y == a[0] || !Before(y, a[0]))
  {
  }

  lemma SameHead(a: seq<Row>, b: seq<Row>)
    requires Sorted(a) && Sorted(b) && multiset(a) == multiset(b) && Distinguishable(multiset(a)) && a != [] && b != []
    ensures a[0] == b[0]
  {
    assert a[0] in multiset(a) && b[0] in multiset(b);
    HeadIsLeast(a, b[0]);
    HeadIsLeast(b, a[0]);
    LessTotal(a[0].rack, b[0].rack);
    LessTotal(a[0].device, b[0].device);
  }

  lemma TailSorted(a: seq<Row>)
    requires Sorted(a) && a != []
    ensures Sorted(a[1..])
  {
  }

  lemma FewerDistinguishable(rows: multiset<Row>, fewer: multiset<Row>)
    requires Distinguishable(rows) && fewer <= rows
    ensures Distinguishable(fewer)
  {
  }

  lemma TailMultiset(a: seq<Row>)
    requires a != []
    ensures multiset(a[1..]) == multiset(a) - multiset{a[0]} <= multiset(a)
  {
    assert a == [a[0]] + a[1..];
  }

  /** However the sort treats ties, it puts the same rows in the same order. */
  lemma {:induction false} SortingIsUnique(a: seq<Row>, b: seq<Row>)
    requires Sorted(a) && Sorted(b) && multiset(a) == multiset(b) && Distinguishable(multiset(a))
    ensures a == b
  {
    hide Sorted, Distinguishable;
    assert |multiset(a)| == |a| && |multiset(b)| == |b|;
    if a != [] {
      SameHead(a, b);
      TailMultiset(a);
      TailMultiset(b);
      TailSorted(a);
      TailSorted(b);
      FewerDistinguishable(multiset(a), multiset(a[1..]));
      SortingIsUnique(a[1..], b[1..]);
      assert a == [a[0]] + a[1..] && b == [b[0]] + b[1..];
    }
  }

  // ----- printing -----

  function Digit(d: nat): (c: char)
    requires d < 10
  {
    "0123456789"[d]
  }

  function Digits(n: nat): string {
    if n < 10 then [Digit(n)] else Digits(n / 10) + [Digit(n % 10)]
  }

  function Decimal(n: int): string {
    if n < 0 then "-" + Digits(-n) else Digits(n)
  }

  function RowText(r: Row): string {
    r.rack + ['|'] + (Decimal(r.startU) + ['|'] + (Decimal(r.endU) + ['|'] + (r.device + ['|'] + Decimal(r.heightU))))
  }

  function Text(rows: seq<Row>): string {
    if rows == [] then "" else RowText(rows[0]) + [';'] + Text(rows[1..])
  }

  lemma {:induction false} DigitsPlain(n: nat)
    ensures Digits(n) != [] && forall c | c in Digits(n) :: c in "0123456789"
  {
    if n >= 10 {
      DigitsPlain(n / 10);
    }
  }

  lemma DigitInjective(c: nat, d: nat)
    requires c < 10 && d < 10 && Digit(c) == Digit(d)
    ensures c == d
  {
  }

  lemma DigitsSplit(n: nat)
    ensures var s := Digits(n);
            && s != [] && s[|s| - 1] == Digit(n % 10)
            && if n < 10 then |s| == 1 else |s| > 1 && s[..|s| - 1] == Digits(n / 10)
  {
    DigitsPlain(n / 10);
  }

  lemma {:induction false} DigitsInjective(m: nat, n: nat)
    requires Digits(m) == Digits(n)
    ensures m == n
  {
    DigitsSplit(m);
    DigitsSplit(n);
    DigitInjective(m % 10, n % 10);
    hide Digits, Digit;
    if m >= 10 && n >= 10 {
      DigitsInjective(m / 10, n / 10);
    }
  }

  lemma DecimalPlain(n: int)
    ensures forall c | c in Decimal(n) :: c in UUID_CHARS
  {
    DigitsPlain(if n < 0 then -n else n);
    forall c | c in Decimal(n)
      ensures c in UUID_CHARS
    {
      assert forall i :: 0 <= i < 10 ==> "0123456789"[i] == UUID_CHARS[i];
      assert UUID_CHARS[16] == '-';
    }
  }

  lemma DecimalInjective(m: int, n: int)
    requires Decimal(m) == Decimal(n)
    ensures m == n
  {
    var s, t := if m < 0 then -m else m, if n < 0 then -n else n;
    DigitsPlain(s);
    DigitsPlain(t);
    assert Digits(s)[0] in "0123456789" && Digits(t)[0] in "0123456789";
    assert Digits(s) == if m < 0 then Decimal(m)[1..] else Decimal(m);
    assert Digits(t) == if n < 0 then Decimal(n)[1..] else Decimal(n);
    assert (m < 0) == (n < 0);
    DigitsInjective(s, t);
  }

  lemma FirstSeparator(c: char, a: string, b: string, s: string)
    requires c !in b && |a| < |s| && s[|a|] == c && b <= s
    ensures |b| <= |a|
  {
  }

  /** A field ends at the first separator. */
  lemma Split(c: char, a: string, x: string, b: string, y: string)
    requires c !in a && c !in b && a + [c] + x == b + [c] + y
    ensures a == b && x == y
  {
    var s := a + [c] + x;
    FirstSeparator(c, a, b, s);
    FirstSeparator(c, b, a, s);
    assert a == s[..|a|] && b == s[..|b|];
    assert x == s[|a| + 1..] && y == s[|b| + 1..];
  }

  lemma FieldsPlain(r: Row)
    ensures '|' !in r.rack && '|' !in r.device && ';' !in r.rack && ';' !in r.device
    ensures forall n: int :: '|' !in Decimal(n) && ';' !in Decimal(n)
  {
    forall n: int
      ensures '|' !in Decimal(n) && ';' !in Decimal(n)
    {
      DecimalPlain(n);
    }
  }

  lemma RowTextPlain(r: Row)
    ensures ';' !in RowText(r)
  {
    FieldsPlain(r);
  }

  lemma RowTextInjective(r: Row, q: Row)
    requires RowText(r) == RowText(q)
    ensures r == q
  {
    FieldsPlain(r);
    FieldsPlain(q);
    var r4, q4 := r.device + ['|'] + Decimal(r.heightU), q.device + ['|'] + Decimal(q.heightU);
    var r3, q3 := Decimal(r.endU) + ['|'] + r4, Decimal(q.endU) + ['|'] + q4;
    var r2, q2 := Decimal(r.startU) + ['|'] + r3, Decimal(q.startU) + ['|'] + q3;
    hide Decimal;
    Split('|', r.rack, r2, q.rack, q2);
    Split('|', Decimal(r.startU), r3, Decimal(q.startU), q3);
    Split('|', Decimal(r.endU), r4, Decimal(q.endU), q4);
    Split('|', r.device, Decimal(r.heightU), q.device, Decimal(q.heightU));
    DecimalInjective(r.startU, q.startU);
    DecimalInjective(r.endU, q.endU);
    DecimalInjective(r.heightU, q.heightU);
  }

  /** The text determines the rows. */
  lemma {:induction false} TextInjective(a: seq<Row>, b: seq<Row>)
    requires Text(a) == Text(b)
    ensures a == b
  {
    hide RowText;
    if a != [] && b != [] {
      RowTextPlain(a[0]);
      RowTextPlain(b[0]);
      Split(';', RowText(a[0]), Text(a[1..]), RowText(b[0]), Text(b[1..]));
      RowTextInjective(a[0], b[0]);
      TextInjective(a[1..], b[1..]);
      assert a == [a[0]] + a[1..] && b == [b[0]] + b[1..];
    }
  }

  /**
   * Two fingerprints agree exactly if they are of the same positions, in whatever order the database
   * returned them and the sort broke ties.
   */
  lemma SameTextIffSameRows(a: seq<Row>, b: seq<Row>, sortedA: seq<Row>, sortedB: seq<Row>)
    requires IsSorting(a, sortedA) && IsSorting(b, sortedB)
    requires Distinguishable(multiset(a)) && Distinguishable(multiset(b))
    ensures Text(sortedA) == Text(sortedB) <==> multiset(a) == multiset(b)
  {
    if Text(sortedA) == Text(sortedB) {
      TextInjective(sortedA, sortedB);
    } else if multiset(a) == multiset(b) {
      SortingIsUnique(sortedA, sortedB);
    }
  }

  // ----- the library's sort -----

  function Insert(r: Row, rows: seq<Row>): seq<Row> {
    if rows == [] || Before(r, rows[0]) then [r] + rows else [rows[0]] + Insert(r, rows[1..])
  }

  /** Some sort by the comparison above. */
  function Sort(rows: seq<Row>): seq<Row> {
    if rows == [] then [] else Insert(rows[0], Sort(rows[1..]))
  }

  lemma {:induction false} LessTransitive(a: string, b: string, c: string)
    ensures !Less(b, a) && !Less(c, b) ==> !Less(c, a)
  {
    if a != "" && b != "" && c != "" && a[0] == b[0] == c[0] {
      LessTransitive(a[1..], b[1..], c[1..]);
    }
  }

  lemma BeforeTransitive(x: Row, y: Row, z: Row)
    requires !Before(y, x) && !Before(z, y)
    ensures !Before(z, x)
  {
    hide Less;
    LessTotal(x.rack, y.rack);
    LessTotal(y.rack, z.rack);
    LessTotal(x.rack, z.rack);
    LessTransitive(x.rack, y.rack, z.rack);
    LessAsymmetric(x.rack, y.rack);
    LessAsymmetric(y.rack, z.rack);
    LessTransitive(x.device, y.device, z.device);
  }

  lemma SortedCons(x: Row, rest: seq<Row>)
    requires Sorted(rest) && forall y | y in rest :: !Before(y, x)
    ensures Sorted([x] + rest)
  {
  }

  lemma HeadLeast(rows: seq<Row>, y: Row)
    requires Sorted(rows) && y in rows
    ensures rows != [] && !Before(y, rows[0])
  {
    BeforeAsymmetric(rows[0], rows[0]);
  }

  lemma {:induction false} InsertSorts(r: Row, rows: seq<Row>)
    requires Sorted(rows)
    ensures IsSorting([r] + rows, Insert(r, rows))
  {
    hide Before, Sorted;
    if rows == [] {
      SortedCons(r, []);
    } else if Before(r, rows[0]) {
      BeforeAsymmetric(r, rows[0]);
      forall y | y in rows
        ensures !Before(y, r)
      {
        HeadLeast(rows, y);
        BeforeTransitive(r, rows[0], y);
      }
      SortedCons(r, rows);
    } else {
      TailSorted(rows);
      InsertSorts(r, rows[1..]);
      assert rows == [rows[0]] + rows[1..];
      forall y | y in Insert(r, rows[1..])
        ensures !Before(y, rows[0])
      {
        assert y in multiset([r] + rows[1..]);
        if y != r {
          HeadLeast(rows, y);
        }
      }
      SortedCons(rows[0], Insert(r, rows[1..]));
    }
  }

  lemma BeforeAsymmetric(x: Row, y: Row)
    ensures !(Before(x, y) && Before(y, x))
  {
    LessAsymmetric(x.rack, y.rack);
    LessAsymmetric(x.device, y.device);
  }

  lemma {:induction false} SortSorts(rows: seq<Row>)
    ensures IsSorting(rows, Sort(rows))
  {
    if rows != [] {
      SortSorts(rows[1..]);
      InsertSorts(rows[0], Sort(rows[1..]));
      assert rows == [rows[0]] + rows[1..];
    }
  }

  lemma {:induction false} TextAppend(rows: seq<Row>, r: Row)
    ensures Text(rows + [r]) == Text(rows) + RowText(r) + [';']
  {
    hide RowText;
    if rows != [] {
      assert (rows + [r])[1..] == rows[1..] + [r];
      TextAppend(rows[1..], r);
    }
  }

  lemma EmptyText()
    ensures Text([]) == ""
  {
  }

  /** Sorts the positions and prints them one after another. */
  method Compute(all: seq<Row>) returns (text: string)
    ensures text == Text(Sort(all))
  {
    hide Text, RowText, Sort;
    var rows := Sort(all);
    text := "";
    assert Text([]) == "" by {
      EmptyText();
    }
    assert rows[..0] == [];
    for i := 0 to |rows|
      invariant text == Text(rows[..i])
    {
      TextAppend(rows[..i], rows[i]);
      assert rows[..i + 1] == rows[..i] + [rows[i]];
      text := text + RowText(rows[i]) + [';'];
    }
    assert rows[..|rows|] == rows;
  }
}
