/**
 Length-prefixed framing of byte fields, and the fingerprints computed over framed messages.
 HMAC-SHA-256 and SHA-256 are ideal: a digest is the term of its inputs, so two digests are equal
 exactly when their inputs are.
 */
module Framing {
  import opened Utf8

  const TWO_TO_64: nat := 0x1_0000_0000_0000_0000

  datatype Fingerprint =
    | Opaque(value: string)
    | Hmac(key: Bytes, authenticated: Bytes)
    | Sha(hashed: Bytes)

  /** Big-endian digits of `n` in base 256, cut to `width` bytes. */
  function BigEndian(n: nat, width: nat): (r: Bytes)
    ensures |r| == width
  {
    if width == 0 then [] else BigEndian(n / 256, width - 1) + [n % 256]
  }

  function BigEndianValue(b: Bytes): nat {
    if b == [] then 0 else 256 * BigEndianValue(b[..|b| - 1]) + b[|b| - 1]
  }

  function Power256(width: nat): nat {
    if width == 0 then 1 else 256 * Power256(width - 1)
  }

  lemma {:induction false} BigEndianRoundTrip(n: nat, width: nat)
    requires n < Power256(width)
    ensures BigEndianValue(BigEndian(n, width)) == n
  {
    if width > 0 {
      BigEndianRoundTrip(n / 256, width - 1);
      assert BigEndian(n, width)[..width - 1] == BigEndian(n / 256, width - 1);
    }
  }

  /** Unsigned 64-bit length, as Go's conversion to uint64 leaves it. */
  function LengthPrefix(field: Bytes): (r: Bytes)
    ensures |r| == 8
  {
    BigEndian(|field| % TWO_TO_64, 8)
  }

  lemma EightBytesHold64Bits()
    ensures Power256(8) == TWO_TO_64
  {
    assert Power256(1) == 0x100;
    assert Power256(2) == 0x1_0000;
    assert Power256(3) == 0x100_0000;
    assert Power256(4) == 0x1_0000_0000;
    assert Power256(5) == 0x100_0000_0000;
    assert Power256(6) == 0x1_0000_0000_0000;
    assert Power256(7) == 0x100_0000_0000_0000;
  }

  lemma PrefixValue(a: Bytes)
    requires |a| < TWO_TO_64
    ensures BigEndianValue(LengthPrefix(a)) == |a|
  {
    assert |a| % TWO_TO_64 == |a|;
    EightBytesHold64Bits();
    BigEndianRoundTrip(|a|, 8);
  }

  lemma LengthPrefixInjective(a: Bytes, b: Bytes)
    requires |a| < TWO_TO_64 && |b| < TWO_TO_64
    requires LengthPrefix(a) == LengthPrefix(b)
    ensures |a| == |b|
  {
    PrefixValue(a);
    PrefixValue(b);
  }

  function Frame(fields: seq<Bytes>): Bytes {
    if fields == [] then [] else LengthPrefix(fields[0]) + fields[0] + Frame(fields[1..])
  }

  predicate Fits(fields: seq<Bytes>) {
    forall i :: 0 <= i < |fields| ==> |fields[i]| < TWO_TO_64
  }

  /** Each field stands behind its length in eight big-endian bytes, and the next one follows. */
  lemma FrameLayout(fields: seq<Bytes>)
    requires fields != [] && Fits(fields)
    ensures var frame, n := Frame(fields), |fields[0]|;
            && |frame| >= 8 + n && BigEndianValue(frame[..8]) == n
            && frame[8..8 + n] == fields[0] && frame[8 + n..] == Frame(fields[1..])
  {
    PrefixValue(fields[0]);
    assert Frame(fields)[..8] == LengthPrefix(fields[0]);
  }

  /** Equal framings come from equal lists of fields, whatever their number. */
  lemma {:induction false} FrameInjective(a: seq<Bytes>, b: seq<Bytes>)
    requires Fits(a) && Fits(b)
    requires Frame(a) == Frame(b)
    ensures a == b
  {
    if a != [] && b != [] {
      var x, y := Frame(a), Frame(b);
      assert x[..8] == LengthPrefix(a[0]) && y[..8] == LengthPrefix(b[0]);
      LengthPrefixInjective(a[0], b[0]);
      assert x[8..8 + |a[0]|] == a[0] && y[8..8 + |b[0]|] == b[0];
      assert x[8 + |a[0]|..] == Frame(a[1..]) && y[8 + |b[0]|..] == Frame(b[1..]);
      FrameInjective(a[1..], b[1..]);
      assert a == [a[0]] + a[1..] && b == [b[0]] + b[1..];
    }
  }

  lemma FrameCons(field: Bytes, rest: seq<Bytes>)
    ensures Frame([field] + rest) == LengthPrefix(field) + field + Frame(rest)
  {
    assert ([field] + rest)[1..] == rest;
  }

  lemma FrameSingle(field: Bytes)
    ensures Frame([field]) == LengthPrefix(field) + field
  {
    assert [field][1..] == [];
  }

  lemma OverlongPrefix(field: Bytes)
    requires |field| == TWO_TO_64
    ensures LengthPrefix(field) == LengthPrefix([])
  {
  }

  /** The bound on lengths is needed: a field of 2^64 bytes frames like an empty field and its own content. */
  lemma FrameNotInjectiveBeyondBound(rest: seq<Bytes>)
    requires |Frame(rest)| == TWO_TO_64
    ensures Frame([Frame(rest)]) == Frame([[]] + rest)
  {
    FrameSingle(Frame(rest));
    FrameCons([], rest);
    OverlongPrefix(Frame(rest));
  }

  lemma RegroupFive(a: Bytes, b: Bytes, c: Bytes, d: Bytes, e: Bytes)
    ensures a + b + (c + d + e) == a + b + c + d + e
  {
  }

  lemma {:induction false} FrameSnoc(fields: seq<Bytes>, last: Bytes)
    ensures Frame(fields + [last]) == Frame(fields) + LengthPrefix(last) + last
  {
    var more := fields + [last];
    if fields == [] {
      assert more[1..] == [];
    } else {
      var first, rest := fields[0], fields[1..];
      FrameSnoc(rest, last);
      assert more[0] == first && more[1..] == rest + [last];
      RegroupFive(LengthPrefix(first), first, Frame(rest), LengthPrefix(last), last);
    }
  }

  lemma FrameUpTo(fields: seq<Bytes>, i: nat)
    requires i < |fields|
    ensures Frame(fields[..i + 1]) == Frame(fields[..i]) + LengthPrefix(fields[i]) + fields[i]
  {
    FrameSnoc(fields[..i], fields[i]);
    assert fields[..i + 1] == fields[..i] + [fields[i]];
  }

  lemma Regroup(a: Bytes, b: Bytes, c: Bytes, d: Bytes)
    ensures a + b + c + d == a + (b + c + d)
  {
  }

  /** The hashing loop: a running message receives each field's length and then the field. */
  method WriteFields(prefix: Bytes, fields: seq<Bytes>) returns (message: Bytes)
    ensures message == prefix + Frame(fields)
  {
    message := prefix;
    for i := 0 to |fields|
      invariant message == prefix + Frame(fields[..i])
    {
      FrameUpTo(fields, i);
      Regroup(prefix, Frame(fields[..i]), LengthPrefix(fields[i]), fields[i]);
      message := message + LengthPrefix(fields[i]);
      message := message + fields[i];
    }
    assert fields[..|fields|] == fields;
  }
}
