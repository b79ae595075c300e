/** The text an execution's identity is the digest of, when the request carries an idempotency key. */
module ChatIdentity {
  import opened Common

  function Digit(d: nat): (c: char)
    requires d < 10
    ensures c != ':'
  {
    ['0', '1', '2', '3', '4', '5', '6', '7', '8', '9'][d]
  }

  function Decimal(n: nat): string {
    if n < 10 then [Digit(n)] else Decimal(n / 10) + [Digit(n % 10)]
  }

  /** An absent record and record 0 both leave the last part empty. */
  function RecordPart(record: Option<nat>): string {
    if record.None? || record.value == 0 then "" else Decimal(record.value)
  }

  function Material(organization: nat, user: nat, key: string, record: Option<nat>): string {
    Decimal(organization) + ":" + (Decimal(user) + ":" + (key + ":" + RecordPart(record)))
  }

  predicate NoColon(s: string) {
    forall i | 0 <= i < |s| :: s[i] != ':'
  }

  lemma {:induction false} DecimalHasNoColon(n: nat)
    ensures Decimal(n) != "" && NoColon(Decimal(n))
  {
    if n >= 10 {
      DecimalHasNoColon(n / 10);
    }
  }

  lemma {:induction false} DecimalIsInjective(a: nat, b: nat)
    requires Decimal(a) == Decimal(b)
    ensures a == b
  {
    if a >= 10 && b >= 10 {
      var x, y := Decimal(a), Decimal(b);
      assert x[..|x| - 1] == Decimal(a / 10) && y[..|y| - 1] == Decimal(b / 10);
      assert x[|x| - 1] == Digit(a % 10) && y[|y| - 1] == Digit(b % 10);
      DecimalIsInjective(a / 10, b / 10);
    } else {
      DecimalHasNoColon(a / 10);
      DecimalHasNoColon(b / 10);
    }
  }

  /** The first colon splits. */
  lemma SplitAtFirst(a: string, x: string, b: string, y: string)
    requires NoColon(a) && NoColon(b) && a + ":" + x == b + ":" + y
    ensures a == b && x == y
  {
    var s, t := a + ":" + x, b + ":" + y;
    assert s[|a|] == ':' && t[|b|] == ':';
    assert forall i | 0 <= i < |a| :: s[i] == a[i];
    assert forall i | 0 <= i < |b| :: t[i] == b[i];
    assert |a| == |b|;
    assert a == s[..|a|] && b == t[..|b|];
    assert x == s[|a| + 1..] && y == t[|b| + 1..];
  }

  /** The last colon splits. */
  lemma SplitAtLast(a: string, x: string, b: string, y: string)
    requires NoColon(x) && NoColon(y) && a + ":" + x == b + ":" + y
    ensures a == b && x == y
  {
    var s, t := a + ":" + x, b + ":" + y;
    assert s[|a|] == ':' && t[|b|] == ':';
    assert forall i | |a| < i < |s| :: s[i] == x[i - |a| - 1];
    assert forall i | |b| < i < |t| :: t[i] == y[i - |b| - 1];
    assert |a| == |b|;
    assert a == s[..|a|] && b == t[..|b|];
    assert x == s[|a| + 1..] && y == t[|b| + 1..];
  }

  lemma RecordPartIs(r: Option<nat>, q: Option<nat>)
    ensures NoColon(RecordPart(r))
    ensures RecordPart(r) == RecordPart(q) <==> r == q || {r, q} == {None, Some(0)}
  {
    if r.Some? {
      DecimalHasNoColon(r.value);
    }
    if q.Some? {
      DecimalHasNoColon(q.value);
    }
    if RecordPart(r) == RecordPart(q) && RecordPart(r) != "" {
      DecimalIsInjective(r.value, q.value);
    }
  }

  /**
   Two requests have the same identity text exactly when tenant, key and record agree, whatever colons
   the keys contain, except that no record and record 0 are not told apart.
  */
  lemma MaterialIdentifies(o: nat, u: nat, k: string, r: Option<nat>, o': nat, u': nat, k': string, r': Option<nat>)
    ensures Material(o, u, k, r) == Material(o', u', k', r') <==>
              o == o' && u == u' && k == k' && (r == r' || {r, r'} == {None, Some(0)})
  {
    RecordPartIs(r, r');
    RecordPartIs(r', r);
    if Material(o, u, k, r) == Material(o', u', k', r') {
      DecimalHasNoColon(o);
      DecimalHasNoColon(o');
      DecimalHasNoColon(u);
      DecimalHasNoColon(u');
      var tail, tail' := k + ":" + RecordPart(r), k' + ":" + RecordPart(r');
      SplitAtFirst(Decimal(o), Decimal(u) + ":" + tail, Decimal(o'), Decimal(u') + ":" + tail');
      SplitAtFirst(Decimal(u), tail, Decimal(u'), tail');
      SplitAtLast(k, RecordPart(r), k', RecordPart(r'));
      DecimalIsInjective(o, o');
      DecimalIsInjective(u, u');
    }
  }
}
