/**
 Ordering keys shared by the paging adapters and the durable cursor.

 The collectors compare pairs of strings (timestamp text, provider identity) lexicographically, both
 when they cut a response into pages and when they compute the running maximum of a cursor.
 */
module Keys {

  datatype Option<+T> = None | Some(value: T)

  /** Python's `<` on strings. */
  predicate StrLt(a: string, b: string) {
    b != [] && (a == [] || a[0] < b[0] || (a[0] == b[0] && StrLt(a[1..], b[1..])))
  }

  datatype Key = Key(at: string, id: string)

  /** The least key: a missing `last_key` is read as `["", ""]`. */
  const BOTTOM := Key("", "")

  predicate KeyLt(a: Key, b: Key) {
    StrLt(a.at, b.at) || (a.at == b.at && StrLt(a.id, b.id))
  }

  predicate KeyLe(a: Key, b: Key) {
    a == b || KeyLt(a, b)
  }

  function KeyMax(a: Key, b: Key): (m: Key) {
    if KeyLt(a, b) then b else a
  }

  /** a is before b iff they part at a first position k, where a ends or has the smaller character. */
  lemma {:induction false} StrLtExact(a: string, b: string)
    ensures StrLt(a, b) <==>
            exists k :: 0 <= k <= |a| && k < |b| && a[..k] == b[..k] && (k == |a| || a[k] < b[k])
  {
    if a != [] && b != [] && a[0] == b[0] {
      StrLtExact(a[1..], b[1..]);
      forall k | 1 <= k <= |a| && k < |b| ensures a[..k] == b[..k] <==> a[1..][..k - 1] == b[1..][..k - 1] {
        assert a[..k] == [a[0]] + a[1..][..k - 1] && b[..k] == [b[0]] + b[1..][..k - 1];
      }
      if StrLt(a[1..], b[1..]) {
        var k :| 0 <= k <= |a[1..]| && k < |b[1..]| && a[1..][..k] == b[1..][..k] && (k == |a[1..]| || a[1..][k] < b[1..][k]);
        assert a[..k + 1] == b[..k + 1];
      }
      if k :| 0 <= k <= |a| && k < |b| && a[..k] == b[..k] && (k == |a| || a[k] < b[k]) {
        assert k > 0 && a[1..][..k - 1] == b[1..][..k - 1];
      }
    } else if StrLt(a, b) {
      assert a[..0] == b[..0];
    } else if k :| 0 < k <= |a| && k < |b| && a[..k] == b[..k] {
      assert a[..k][0] == b[..k][0];
    }
  }

  lemma {:induction false} StrIrreflexive(a: string)
    ensures !StrLt(a, a)
  {
    if a != [] { StrIrreflexive(a[1..]); }
  }

  lemma {:induction false} StrTransitive(a: string, b: string, c: string)
    requires StrLt(a, b) && StrLt(b, c)
    ensures StrLt(a, c)
  {
    if a != [] && a[0] == b[0] == c[0] { StrTransitive(a[1..], b[1..], c[1..]); }
  }

  lemma {:induction false} StrTotal(a: string, b: string)
    ensures StrLt(a, b) || a == b || StrLt(b, a)
  {
    if a != [] && b != [] && a[0] == b[0] {
      StrTotal(a[1..], b[1..]);
      if a[1..] == b[1..] { assert a == [a[0]] + a[1..] == b; }
    }
  }

  /** `StrLt` is a strict total order. */
  lemma StrOrder()
    ensures forall a: string :: !StrLt(a, a)
    ensures forall a: string, b: string, c: string {:trigger StrLt(a, b), StrLt(b, c)} ::
              StrLt(a, b) && StrLt(b, c) ==> StrLt(a, c)
    ensures forall a: string, b: string {:trigger StrLt(a, b)} :: StrLt(a, b) || a == b || StrLt(b, a)
  {
    forall a: string ensures !StrLt(a, a) { StrIrreflexive(a); }
    forall a: string, b: string, c: string | StrLt(a, b) && StrLt(b, c) ensures StrLt(a, c) { StrTransitive(a, b, c); }
    forall a: string, b: string ensures StrLt(a, b) || a == b || StrLt(b, a) { StrTotal(a, b); }
  }

  /** `KeyLt` is a strict total order. */
  lemma KeyOrder()
    ensures forall a: Key :: !KeyLt(a, a)
    ensures forall a: Key, b: Key, c: Key {:trigger KeyLt(a, b), KeyLt(b, c)} ::
              KeyLt(a, b) && KeyLt(b, c) ==> KeyLt(a, c)
    ensures forall a: Key, b: Key {:trigger KeyLt(a, b)} :: KeyLt(a, b) || a == b || KeyLt(b, a)
  {
    forall a: Key ensures !KeyLt(a, a) {
      StrIrreflexive(a.at);
      StrIrreflexive(a.id);
    }
    forall a: Key, b: Key, c: Key | KeyLt(a, b) && KeyLt(b, c) ensures KeyLt(a, c) {
      if StrLt(a.at, b.at) && StrLt(b.at, c.at) { StrTransitive(a.at, b.at, c.at); }
      if StrLt(a.id, b.id) && StrLt(b.id, c.id) { StrTransitive(a.id, b.id, c.id); }
    }
    forall a: Key, b: Key ensures KeyLt(a, b) || a == b || KeyLt(b, a) {
      StrTotal(a.at, b.at);
      StrTotal(a.id, b.id);
    }
  }
}
