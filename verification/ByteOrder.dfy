/** The byte order of database keys, and why keys with a common prefix are neighbours in it. */
module ByteOrder {
  import opened TssTypes

  /** Strictly smaller, as bytes.Compare orders keys. */
  predicate Less(a: Bytes, b: Bytes) {
    b != [] && (a == [] || a[0] < b[0] || (a[0] == b[0] && Less(a[1..], b[1..])))
  }

  /** A key is smaller if it is a proper prefix, or has the smaller byte where the two first differ. */
  lemma {:induction false} LessMeaning(a: Bytes, b: Bytes)
    ensures Less(a, b) <==>
      a < b || exists k :: 0 <= k < |a| && k < |b| && a[..k] == b[..k] && a[k] < b[k]
  {
    if a != [] && b != [] {
      assert a == [a[0]] + a[1..] && b == [b[0]] + b[1..];
      if a[0] == b[0] {
        LessMeaning(a[1..], b[1..]);
        SameFirst(a, b);
      } else {
        assert a[..0] == b[..0];
      }
    }
  }

  lemma SameFirst(a: Bytes, b: Bytes)
    requires a != [] && b != [] && a[0] == b[0]
    ensures a < b <==> a[1..] < b[1..]
    ensures (exists k :: 0 <= k < |a| && k < |b| && a[..k] == b[..k] && a[k] < b[k])
       <==> exists k :: 0 <= k < |a[1..]| && k < |b[1..]| && a[1..][..k] == b[1..][..k] && a[1..][k] < b[1..][k]
  {
    assert a == [a[0]] + a[1..] && b == [b[0]] + b[1..];
    if k :| 0 <= k < |a| && k < |b| && a[..k] == b[..k] && a[k] < b[k] {
      assert k > 0 && a[1..][..k - 1] == a[..k][1..] && b[1..][..k - 1] == b[..k][1..];
    }
    if k :| 0 <= k < |a[1..]| && k < |b[1..]| && a[1..][..k] == b[1..][..k] && a[1..][k] < b[1..][k] {
      assert a[..k + 1] == [a[0]] + a[1..][..k] && b[..k + 1] == [b[0]] + b[1..][..k];
    }
  }

  lemma {:induction false} LessTransitive(a: Bytes, b: Bytes, c: Bytes)
    requires Less(a, b) && Less(b, c)
    ensures Less(a, c)
  {
    if a != [] && a[0] == b[0] == c[0] {
      LessTransitive(a[1..], b[1..], c[1..]);
    }
  }

  lemma {:induction false} LessIrreflexive(a: Bytes)
    ensures !Less(a, a)
  {
    if a != [] {
      LessIrreflexive(a[1..]);
    }
  }

  lemma {:induction false} LessTotal(a: Bytes, b: Bytes)
    ensures a == b || Less(a, b) || Less(b, a)
  {
    if a != [] && b != [] && a[0] == b[0] {
      LessTotal(a[1..], b[1..]);
      assert a == [a[0]] + a[1..] && b == [b[0]] + b[1..];
    }
  }

  /** A key is never smaller than one of its own prefixes. */
  lemma {:induction false} PrefixNotAbove(p: Bytes, a: Bytes)
    requires p <= a
    ensures !Less(a, p)
  {
    if p != [] {
      assert p[1..] <= a[1..];
      PrefixNotAbove(p[1..], a[1..]);
    }
  }

  /** Once past the keys with prefix `p`, no later key has it. */
  lemma {:induction false} PrefixRunEnds(p: Bytes, a: Bytes, b: Bytes)
    requires !Less(a, p) && !(p <= a) && Less(a, b)
    ensures !(p <= b)
  {
    if p <= b {
      assert p != [];
      assert b[0] == p[0];
      if a == [] {
      } else if a[0] == p[0] {
        assert p[1..] <= b[1..];
        PrefixRunEnds(p[1..], a[1..], b[1..]);
      }
    }
  }
}
