/**
 UTF-8 as sections 3 and 4 of RFC 3629 define it, and the two truncations that cut text to a byte limit:
 the rune-start scan of the agent run store and the back-off loop of the tool call result.
 */
module Utf8 {

  type Byte = b: int | 0 <= b < 256

  type Bytes = seq<Byte>

  function EncodeChar(c: char): (r: Bytes)
    ensures 1 <= |r| <= 4
  {
    var n := c as int;
    if n < 0x80 then [n]
    else if n < 0x800 then [0xC0 + n / 64, 0x80 + n % 64]
    else if n < 0x10000 then [0xE0 + n / 64 / 64, 0x80 + n / 64 % 64, 0x80 + n % 64]
    else [0xF0 + n / 64 / 64 / 64, 0x80 + n / 64 / 64 % 64, 0x80 + n / 64 % 64, 0x80 + n % 64]
  }

  function Encode(s: string): Bytes {
    if s == [] then [] else EncodeChar(s[0]) + Encode(s[1..])
  }

  predicate Tail(b: Byte) {
    0x80 <= b <= 0xBF
  }

  /** Length of the well-formed byte sequence `b` starts with (section 4 of RFC 3629), 0 when there is none. */
  function SequenceLength(b: Bytes): (n: nat)
    ensures n <= 4 && n <= |b|
  {
    if b == [] then 0
    else if b[0] < 0x80 then 1
    else if |b| >= 2 && 0xC2 <= b[0] <= 0xDF && Tail(b[1]) then 2
    else if |b| >= 3 && 0xE0 <= b[0] <= 0xEF && Tail(b[1]) && Tail(b[2])
            && (b[0] == 0xE0 ==> b[1] >= 0xA0) && (b[0] == 0xED ==> b[1] <= 0x9F) then 3
    else if |b| >= 4 && 0xF0 <= b[0] <= 0xF4 && Tail(b[1]) && Tail(b[2]) && Tail(b[3])
            && (b[0] == 0xF0 ==> b[1] >= 0x90) && (b[0] == 0xF4 ==> b[1] <= 0x8F) then 4
    else 0
  }

  predicate Valid(b: Bytes) {
    b == [] || (SequenceLength(b) > 0 && Valid(b[SequenceLength(b)..]))
  }

  /** The code point a sequence of the given bytes stands for. */
  function CodePoint(length: nat, b0: int, b1: int, b2: int, b3: int): int {
    match length
    case 1 => b0
    case 2 => (b0 - 0xC0) * 64 + (b1 - 0x80)
    case 3 => ((b0 - 0xE0) * 64 + (b1 - 0x80)) * 64 + (b2 - 0x80)
    case _ => (((b0 - 0xF0) * 64 + (b1 - 0x80)) * 64 + (b2 - 0x80)) * 64 + (b3 - 0x80)
  }

  function At(b: Bytes, i: nat): int {
    if i < |b| then b[i] else 0
  }

  function DecodeChar(b: Bytes): char
    requires SequenceLength(b) > 0
  {
    CodePoint(SequenceLength(b), At(b, 0), At(b, 1), At(b, 2), At(b, 3)) as char
  }

  function Decode(b: Bytes): string
    requires Valid(b)
  {
    if b == [] then [] else [DecodeChar(b)] + Decode(b[SequenceLength(b)..])
  }

  lemma EncodedCharIsSequence(c: char, rest: Bytes)
    ensures SequenceLength(EncodeChar(c) + rest) == |EncodeChar(c)|
    ensures DecodeChar(EncodeChar(c) + rest) == c
  {
    var e := EncodeChar(c);
    var b := e + rest;
    assert forall i :: 0 <= i < |e| ==> b[i] == e[i];
    assert SequenceLength(b) == |e|;
  }

  lemma SequenceIsEncodedChar(b: Bytes)
    requires SequenceLength(b) > 0
    ensures EncodeChar(DecodeChar(b)) == b[..SequenceLength(b)]
  {
    var n := DecodeChar(b) as int;
    match SequenceLength(b)
    case 1 =>
    case 2 => assert n / 64 == b[0] as int - 0xC0 && n % 64 == b[1] as int - 0x80;
    case 3 =>
      assert n / 64 == (b[0] as int - 0xE0) * 64 + (b[1] as int - 0x80);
    case _ =>
      assert n / 64 == ((b[0] as int - 0xF0) * 64 + (b[1] as int - 0x80)) * 64 + (b[2] as int - 0x80);
      assert n / 64 / 64 == (b[0] as int - 0xF0) * 64 + (b[1] as int - 0x80);
  }

  /** Decoding undoes encoding, so distinct strings have distinct encodings. */
  lemma {:induction false} DecodeUndoesEncode(s: string)
    ensures Valid(Encode(s)) && Decode(Encode(s)) == s
  {
    if s != [] {
      EncodedCharIsSequence(s[0], Encode(s[1..]));
      assert Encode(s)[|EncodeChar(s[0])|..] == Encode(s[1..]);
      DecodeUndoesEncode(s[1..]);
    }
  }

  lemma EncodeCons(c: char, s: string)
    ensures Encode([c] + s) == EncodeChar(c) + Encode(s)
  {
    assert ([c] + s)[1..] == s;
  }

  /** Encoding undoes decoding, so `Valid` is exactly the image of `Encode`. */
  lemma {:induction false} EncodeUndoesDecode(b: Bytes)
    requires Valid(b)
    ensures Encode(Decode(b)) == b
  {
    if b != [] {
      var n, c := SequenceLength(b), DecodeChar(b);
      EncodeUndoesDecode(b[n..]);
      var rest := Decode(b[n..]);
      assert EncodeChar(c) == b[..n] by { SequenceIsEncodedChar(b); }
      EncodeCons(c, rest);
      assert Decode(b) == [c] + rest;
    }
  }

  lemma EncodeInjective(s: string, t: string)
    requires Encode(s) == Encode(t)
    ensures s == t
  {
    DecodeUndoesEncode(s);
    DecodeUndoesEncode(t);
  }

  /** The step of Go's range loop over a string: a malformed byte counts as a rune one byte wide. */
  function RuneWidth(b: Bytes): (n: nat)
    requires b != []
    ensures 1 <= n <= 4 && n <= |b|
  {
    if SequenceLength(b) > 0 then SequenceLength(b) else 1
  }

  /** The last rune boundary at or below `limit`. */
  function PrefixLength(b: Bytes, limit: nat): (n: nat)
    ensures n <= limit && n <= |b|
  {
    if b == [] || RuneWidth(b) > limit then 0
    else RuneWidth(b) + PrefixLength(b[RuneWidth(b)..], limit - RuneWidth(b))
  }

  /** Where the scan ends if it goes on from `i`. */
  ghost function PrefixEnd(text: Bytes, i: nat, limit: nat): nat
    requires i <= limit && i <= |text|
  {
    i + PrefixLength(text[i..], limit - i)
  }

  /** Decode one rune; the scan ends here exactly when the rune would pass the limit. */
  method RuneWidthAt(text: Bytes, i: nat, ghost limit: nat) returns (width: nat)
    requires i < |text| && i <= limit
    ensures width == RuneWidth(text[i..]) && i + width <= |text|
    ensures PrefixEnd(text, i, limit) == if i + width > limit then i else PrefixEnd(text, i + width, limit)
  {
    width := RuneWidth(text[i..]);
    assert text[i..][width..] == text[i + width..];
  }

  /** The method safeUTF8PrefixLen. */
  method SafePrefixLength(text: Bytes, limit: int) returns (last: nat)
    ensures last <= |text|
    ensures limit <= 0 ==> last == 0
    ensures limit >= |text| && limit > 0 ==> last == |text|
    ensures 0 < limit < |text| ==> last == PrefixLength(text, limit)
  {
    if limit <= 0 { return 0; }
    if limit >= |text| { return |text|; }
    ghost var goal := PrefixLength(text, limit);
    last := 0;
    var i := 0;
    assert text[0..] == text;
    while i < |text|
      invariant 0 <= i <= |text|
      invariant i <= limit ==> goal == PrefixEnd(text, i, limit)
      invariant i > limit ==> last == goal
      decreases |text| - i
    {
      if i > limit { break; }
      last := i;
      var width := RuneWidthAt(text, i, limit);
      i := i + width;
    }
  }

  /** The method truncate of the run store: at most `limit` bytes, ended by three dots when there is room. */
  function Truncated(text: Bytes, limit: int): Bytes {
    if limit <= 0 || |text| <= limit then text
    else if limit <= 3 then text[..PrefixLength(text, limit)]
    else text[..PrefixLength(text, limit - 3)] + Encode("...")
  }

  method Truncate(text: Bytes, limit: int) returns (r: Bytes)
    ensures r == Truncated(text, limit)
  {
    if limit <= 0 || |text| <= limit { return text; }
    if limit <= 3 {
      var n := SafePrefixLength(text, limit);
      return text[..n];
    }
    var n := SafePrefixLength(text, limit - 3);
    return text[..n] + Encode("...");
  }

  /** The method truncateUTF8: back off one byte at a time until the prefix is well formed. */
  method BackOff(value: Bytes, limit: nat) returns (r: Bytes, cut: bool)
    ensures cut == (|value| > limit)
    ensures !cut ==> r == value
    ensures cut ==> r <= value && |r| <= limit && Valid(r)
    ensures cut ==> forall e :: |r| < e <= limit ==> !Valid(value[..e])
  {
    if |value| <= limit { return value, false; }
    var end: nat := limit;
    while end > 0 && !Valid(value[..end])
      invariant 0 <= end <= limit < |value|
      invariant forall e :: end < e <= limit ==> !Valid(value[..e])
    {
      end := end - 1;
    }
    return value[..end], true;
  }

  lemma {:induction false} ValidAppend(a: Bytes, b: Bytes)
    requires Valid(a)
    ensures Valid(a + b) <==> Valid(b)
  {
    if a == [] {
      assert a + b == b;
    } else {
      var n := SequenceLength(a);
      assert SequenceLength(a + b) == n;
      assert (a + b)[n..] == a[n..] + b;
      ValidAppend(a[n..], b);
    }
  }

  /** A prefix starts with the same sequence when it holds all of it, and with none otherwise. */
  lemma SequenceOfPrefix(b: Bytes, e: nat)
    requires b != [] && 0 < e <= |b|
    ensures SequenceLength(b) <= e ==> SequenceLength(b[..e]) == SequenceLength(b)
    ensures e < RuneWidth(b) ==> SequenceLength(b[..e]) == 0
    ensures e >= RuneWidth(b) ==> b[..e][RuneWidth(b)..] == b[RuneWidth(b)..][..e - RuneWidth(b)]
  {
  }

  lemma PrefixLengthUnfolds(b: Bytes, limit: nat)
    requires b != []
    ensures var w := RuneWidth(b);
            PrefixLength(b, limit) == if w > limit then 0 else w + PrefixLength(b[w..], limit - w)
  {
  }

  /** A prefix is well formed exactly if its first rune is and lies in it, and so is what follows that rune. */
  lemma ValidPrefixStep(b: Bytes, e: nat)
    requires b != [] && 0 < e <= |b|
    ensures Valid(b[..e]) <==>
              SequenceLength(b) > 0 && RuneWidth(b) <= e && Valid(b[RuneWidth(b)..][..e - RuneWidth(b)])
  {
    SequenceOfPrefix(b, e);
  }

  /** A prefix longer than the scanned one, within the limit, where the scanned one is well formed. */
  predicate BeyondTheScan(b: Bytes, limit: nat, e: nat) {
    limit < |b| && Valid(b[..PrefixLength(b, limit)]) && PrefixLength(b, limit) < e <= limit
  }

  lemma OneRuneLess(b: Bytes, limit: nat, e: nat)
    requires BeyondTheScan(b, limit, e)
    ensures var w := RuneWidth(b); if w <= limit then w < e && BeyondTheScan(b[w..], limit - w, e - w) else e < w
  {
    PrefixLengthUnfolds(b, limit);
    if RuneWidth(b) <= limit { ValidPrefixStep(b, PrefixLength(b, limit)); }
  }

  /** No longer prefix within the limit is well formed once the scanned prefix is. */
  lemma {:induction false} NoLongerValidPrefix(b: Bytes, limit: nat, e: nat)
    requires BeyondTheScan(b, limit, e)
    ensures !Valid(b[..e])
  {
    var w := RuneWidth(b);
    ValidPrefixStep(b, e);
    OneRuneLess(b, limit, e);
    if w <= limit { NoLongerValidPrefix(b[w..], limit - w, e - w); }
  }

  lemma {:induction false} ScannedPrefixOfValid(b: Bytes, limit: nat)
    requires Valid(b)
    ensures Valid(b[..PrefixLength(b, limit)])
    ensures limit < |b| ==> limit - PrefixLength(b, limit) <= 3
  {
    if b != [] && RuneWidth(b) <= limit {
      ScannedPrefixOfValid(b[RuneWidth(b)..], limit - RuneWidth(b));
      SequenceOfPrefix(b, PrefixLength(b, limit));
    }
  }

  /** What the back-off loop returns, by its contract. */
  ghost predicate LongestValidPrefix(b: Bytes, limit: nat, r: Bytes) {
    r <= b && |r| <= limit && Valid(r) && forall e :: |r| < e <= limit && e <= |b| ==> !Valid(b[..e])
  }

  /** On arbitrary bytes the two truncations agree exactly when the scanned prefix is well formed. */
  lemma TruncationsAgreeExactlyWhen(b: Bytes, limit: nat, r: Bytes)
    requires limit < |b| && LongestValidPrefix(b, limit, r)
    ensures r == b[..PrefixLength(b, limit)] <==> Valid(b[..PrefixLength(b, limit)])
  {
    var p := PrefixLength(b, limit);
    assert r == b[..|r|];
    if Valid(b[..p]) && p < |r| { NoLongerValidPrefix(b, limit, |r|); }
  }

  /** On valid UTF-8 they always agree, and the back-off takes at most three steps. */
  lemma TruncationsAgreeOnValid(b: Bytes, limit: nat, r: Bytes)
    requires Valid(b) && limit < |b| && LongestValidPrefix(b, limit, r)
    ensures r == b[..PrefixLength(b, limit)]
    ensures limit - |r| <= 3
  {
    ScannedPrefixOfValid(b, limit);
    TruncationsAgreeExactlyWhen(b, limit, r);
  }

  /** On malformed text they can differ: the scan keeps a stray continuation byte, the back-off drops it. */
  lemma TruncationsDifferOnMalformed()
    ensures var b: Bytes := [0x80, 0x41];
            LongestValidPrefix(b, 1, []) && b[..PrefixLength(b, 1)] != []
  {
    var b: Bytes := [0x80, 0x41];
    assert SequenceLength(b[..1]) == 0;
    assert forall e :: 0 < e <= 1 ==> b[..e] == b[..1];
    assert PrefixLength(b[1..], 0) == 0;
  }

  /** A limit above three bytes is never exceeded, on any bytes, and valid text stays valid. */
  lemma TruncateBounds(text: Bytes, limit: int)
    ensures limit > 0 ==> |Truncated(text, limit)| <= limit
    ensures Valid(text) ==> Valid(Truncated(text, limit))
    ensures |text| <= limit ==> Truncated(text, limit) == text
  {
    DecodeUndoesEncode("...");
    assert Encode("...") == [46] + Encode("..") && Encode("..") == [46] + Encode(".")
           && Encode(".") == [46] + Encode("");
    if limit > 0 && |text| > limit && Valid(text) {
      var keep := if limit <= 3 then limit else limit - 3;
      ScannedPrefixOfValid(text, keep);
      ValidAppend(text[..PrefixLength(text, keep)], Encode("..."));
    }
  }

  /** Cut valid text keeps as much as fits: no longer whole-character prefix would leave room for the dots. */
  lemma TruncateKeepsTheMost(text: Bytes, limit: int)
    requires Valid(text) && 0 < limit < |text|
    ensures var kept := if limit <= 3 then Truncated(text, limit) else text[..PrefixLength(text, limit - 3)];
            && LongestValidPrefix(text, if limit <= 3 then limit else limit - 3, kept)
            && (limit > 3 ==> Truncated(text, limit) == kept + Encode("..."))
  {
    var keep := if limit <= 3 then limit else limit - 3;
    ScannedPrefixOfValid(text, keep);
    forall e | PrefixLength(text, keep) < e <= keep ensures !Valid(text[..e]) {
      NoLongerValidPrefix(text, keep, e);
    }
  }

  /** How many characters of `s` fit in `limit` encoded bytes. */
  function CharsThatFit(s: string, limit: nat): (n: nat)
    ensures n <= |s|
  {
    if s == [] || |EncodeChar(s[0])| > limit then 0
    else 1 + CharsThatFit(s[1..], limit - |EncodeChar(s[0])|)
  }

  /** Truncation said on characters. */
  function TruncateText(s: string, limit: int): string {
    if limit <= 0 || |Encode(s)| <= limit then s
    else if limit <= 3 then s[..CharsThatFit(s, limit)]
    else s[..CharsThatFit(s, limit - 3)] + "..."
  }

  lemma {:induction false} EncodeAppend(s: string, t: string)
    ensures Encode(s + t) == Encode(s) + Encode(t)
  {
    if s == [] {
      assert s + t == t;
    } else {
      assert (s + t)[1..] == s[1..] + t;
      EncodeAppend(s[1..], t);
    }
  }

  lemma PrefixLengthStep(c: char, tail: Bytes, limit: nat)
    ensures var w := |EncodeChar(c)|;
            PrefixLength(EncodeChar(c) + tail, limit) == if w <= limit then w + PrefixLength(tail, limit - w) else 0
  {
    EncodedCharIsSequence(c, tail);
    assert (EncodeChar(c) + tail)[|EncodeChar(c)|..] == tail;
  }

  lemma TakeOfConcat(x: Bytes, tail: Bytes, n: nat)
    requires n <= |tail|
    ensures (x + tail)[..|x| + n] == x + tail[..n]
  {
  }

  lemma TakeOfCons(c: char, rest: string, n: nat)
    requires n <= |rest|
    ensures ([c] + rest)[..1 + n] == [c] + rest[..n]
  {
  }

  /** If `n` bytes are the first `kept` characters of the rest, one more character is kept with them. */
  lemma KeepOneMore(c: char, rest: string, kept: nat, n: nat)
    requires kept <= |rest| && n <= |Encode(rest)| && Encode(rest)[..n] == Encode(rest[..kept])
    ensures (EncodeChar(c) + Encode(rest))[..|EncodeChar(c)| + n] == Encode(([c] + rest)[..1 + kept])
  {
    TakeOfConcat(EncodeChar(c), Encode(rest), n);
    TakeOfCons(c, rest, kept);
    EncodeCons(c, rest[..kept]);
  }

  lemma CharsThatFitCons(c: char, rest: string, limit: nat)
    ensures CharsThatFit([c] + rest, limit) ==
            if |EncodeChar(c)| <= limit then 1 + CharsThatFit(rest, limit - |EncodeChar(c)|) else 0
  {
    assert ([c] + rest)[1..] == rest;
  }

  ghost predicate ScanKeeps(s: string, limit: nat) {
    Encode(s)[..PrefixLength(Encode(s), limit)] == Encode(s[..CharsThatFit(s, limit)])
  }

  lemma ScanKeepsCons(c: char, rest: string, limit: nat)
    requires |EncodeChar(c)| <= limit ==> ScanKeeps(rest, limit - |EncodeChar(c)|)
    ensures ScanKeeps([c] + rest, limit)
  {
    EncodeCons(c, rest);
    PrefixLengthStep(c, Encode(rest), limit);
    CharsThatFitCons(c, rest, limit);
    if |EncodeChar(c)| <= limit {
      var left := limit - |EncodeChar(c)|;
      KeepOneMore(c, rest, CharsThatFit(rest, left), PrefixLength(Encode(rest), left));
    }
  }

  lemma {:induction false} ScanKeepsWholeCharacters(s: string, limit: nat)
    ensures ScanKeeps(s, limit)
  {
    if s != [] {
      if |EncodeChar(s[0])| <= limit { ScanKeepsWholeCharacters(s[1..], limit - |EncodeChar(s[0])|); }
      ScanKeepsCons(s[0], s[1..], limit);
      assert s == [s[0]] + s[1..];
    }
  }

  /** The byte-level truncation refines the character-level one. */
  lemma TruncateRefinesText(s: string, limit: int)
    ensures Truncated(Encode(s), limit) == Encode(TruncateText(s, limit))
  {
    if limit > 0 && |Encode(s)| > limit {
      var keep := if limit <= 3 then limit else limit - 3;
      ScanKeepsWholeCharacters(s, keep);
      EncodeAppend(s[..CharsThatFit(s, keep)], "...");
    }
  }
}
