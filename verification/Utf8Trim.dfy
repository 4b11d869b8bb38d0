/**
 Cutting UTF-8 text at a byte limit (desktop/app.go:5998-6009, 10116-10130), over the well-formedness
 rules of section 4 of RFC 3629.
 */
module Utf8Trim {

  type Byte = b: int | 0 <= b < 256

  const UTF_MAX := 4

  /** Length of the encoding that a first byte announces; 0 when no encoding starts with it. */
  function EncodedLength(b: Byte): nat {
    if b < 0x80 then 1
    else if 0xC2 <= b <= 0xDF then 2
    else if 0xE0 <= b <= 0xEF then 3
    else if 0xF0 <= b <= 0xF4 then 4
    else 0
  }

  predicate Continuation(b: Byte) { 0x80 <= b <= 0xBF }

  /** The second byte is narrowed after E0, ED, F0 and F4. */
  predicate SecondByte(first: Byte, b: Byte) {
    if first == 0xE0 then 0xA0 <= b <= 0xBF
    else if first == 0xED then 0x80 <= b <= 0x9F
    else if first == 0xF0 then 0x90 <= b <= 0xBF
    else if first == 0xF4 then 0x80 <= b <= 0x8F
    else Continuation(b)
  }

  /** data begins with one complete well-formed encoding. */
  predicate StartsWithRune(data: seq<Byte>) {
    && data != []
    && var n := EncodedLength(data[0]);
    && 1 <= n <= |data|
    && (n >= 2 ==> SecondByte(data[0], data[1]))
    && (n >= 3 ==> Continuation(data[2]))
    && (n >= 4 ==> Continuation(data[3]))
  }

  predicate Valid(data: seq<Byte>) {
    data == [] || (StartsWithRune(data) && Valid(data[EncodedLength(data[0])..]))
  }

  predicate RuneStart(b: Byte) { !Continuation(b) }

  /** data begins with a full encoding, or with bytes that no encoding can begin with. */
  predicate FullRune(data: seq<Byte>) {
    && data != []
    && (|| |data| >= EncodedLength(data[0])
        || (|data| > 1 && !SecondByte(data[0], data[1]))
        || (|data| > 2 && !Continuation(data[2])))
  }

  /** A proper beginning of some encoding: what a cut can leave behind. */
  predicate Partial(data: seq<Byte>) { data != [] && !FullRune(data) }

  lemma {:induction false} ValidConcat(v: seq<Byte>, w: seq<Byte>)
    requires Valid(v)
    ensures Valid(v + w) <==> Valid(w)
  {
    if v == [] {
      assert v + w == w;
    } else {
      var n := EncodedLength(v[0]);
      assert (v + w)[n..] == v[n..] + w;
      ValidConcat(v[n..], w);
    }
  }

  /** A partial encoding is a rune start followed by at most two continuation bytes, and is never valid. */
  lemma PartialShape(q: seq<Byte>, k: nat)
    requires Partial(q) && k < |q|
    ensures |q| <= 3 && !Valid(q[..k + 1])
    ensures RuneStart(q[k]) <==> k == 0
  {
  }

  /** r is data without the partial encoding at its end, if data is a valid prefix followed by one. */
  ghost predicate Trimmed(data: seq<Byte>, r: seq<Byte>) {
    && r <= data
    && (r == data || (Valid(r) && Partial(data[|r|..])))
    && (forall k :: 0 <= k < |data| && Valid(data[..k]) && Partial(data[k..]) ==> r == data[..k])
  }

  method TrimPartialSuffix(data: seq<Byte>) returns (r: seq<Byte>)
    ensures Trimmed(data, r)
  {
    if Valid(data) {
      ValidHasNoPartialEnd(data);
      return data;
    }
    var i := |data| - 1;
    while i >= 0 && |data| - i <= UTF_MAX
      invariant -1 <= i < |data|
      invariant forall j :: i < j < |data| ==> !RuneStart(data[j])
    {
      if !RuneStart(data[i]) {
        i := i - 1;
        continue;
      }
      PartialAtLastStart(data, i);
      if !Valid(data[..i]) || FullRune(data[i..]) {
        return data;
      }
      return data[..i];
    }
    PartialIsShort(data);
    return data;
  }

  lemma ValidHasNoPartialEnd(data: seq<Byte>)
    requires Valid(data)
    ensures forall k :: 0 <= k < |data| && Valid(data[..k]) ==> !Partial(data[k..])
  {
    forall k | 0 <= k < |data| && Valid(data[..k])
      ensures !Partial(data[k..])
    {
      assert data == data[..k] + data[k..];
      ValidConcat(data[..k], data[k..]);
    }
  }

  lemma PartialIsShort(data: seq<Byte>)
    ensures forall k :: 0 <= k < |data| && Partial(data[k..]) ==> |data| - k <= 3 && RuneStart(data[k])
  {
    forall k | 0 <= k < |data| && Partial(data[k..])
      ensures |data| - k <= 3 && RuneStart(data[k])
    {
      PartialShape(data[k..], 0);
      assert data[k..][0] == data[k];
    }
  }

  lemma PartialAtLastStart(data: seq<Byte>, i: nat)
    requires i < |data| && RuneStart(data[i]) && forall j :: i < j < |data| ==> !RuneStart(data[j])
    ensures forall k :: 0 <= k < |data| && Partial(data[k..]) ==> k == i
  {
    PartialIsShort(data);
    forall k | 0 <= k < |data| && Partial(data[k..])
      ensures k == i
    {
      forall j | k < j < |data|
        ensures !RuneStart(data[j])
      {
        assert data[k..][j - k] == data[j];
        PartialShape(data[k..], j - k);
      }
    }
  }

  lemma RunePrefix(text: seq<Byte>)
    requires StartsWithRune(text)
    ensures Valid(text[..EncodedLength(text[0])])
  {
    var n := EncodedLength(text[0]);
    assert text[..n][0] == text[0] && text[..n][n..] == [];
  }

  lemma Slices(s: seq<Byte>, n: nat, j: nat, k: nat)
    requires n <= n + j <= n + k <= |s|
    ensures s[..n + j] == s[..n] + s[n..][..j] && s[n..][j..k] == s[n + j..n + k]
  {
  }

  /** Every cut of valid text is a valid prefix followed by nothing or by a partial encoding. */
  lemma {:induction false} CutShape(text: seq<Byte>, cut: nat) returns (k: nat)
    requires Valid(text) && cut <= |text|
    ensures k <= cut && Valid(text[..k]) && cut - k <= 3
    ensures k == cut || Partial(text[k..cut])
  {
    if cut == 0 {
      k := 0;
    } else {
      var n := EncodedLength(text[0]);
      if cut < n {
        k := 0;
        assert text[0..cut][0] == text[0];
      } else {
        var j := CutShape(text[n..], cut - n);
        k := n + j;
        RunePrefix(text);
        Slices(text, n, j, cut - n);
        ValidConcat(text[..n], text[n..][..j]);
      }
    }
  }

  /** No valid prefix of a cut reaches into its partial encoding. */
  lemma NoLongerValidPrefix(data: seq<Byte>, k: nat, longer: nat)
    requires k < longer <= |data| && Valid(data[..k]) && Partial(data[k..])
    ensures !Valid(data[..longer])
  {
    assert data[..longer] == data[..k] + data[k..][..longer - k];
    ValidConcat(data[..k], data[k..][..longer - k]);
    PartialShape(data[k..], longer - k - 1);
  }

  /** On any cut of valid text the trimmed result is its longest valid prefix and loses at most three bytes. */
  lemma TrimOfCut(text: seq<Byte>, cut: nat, r: seq<Byte>)
    requires Valid(text) && cut <= |text|
    requires Trimmed(text[..cut], r)
    ensures Valid(r) && r <= text[..cut] && cut - |r| <= 3
    ensures forall k :: |r| < k <= cut ==> !Valid(text[..k])
  {
    var data := text[..cut];
    var k := CutShape(text, cut);
    assert data[..k] == text[..k] && data[k..] == text[k..cut];
    if k < cut {
      forall longer | k < longer <= cut
        ensures !Valid(text[..longer])
      {
        assert data[..longer] == text[..longer];
        NoLongerValidPrefix(data, k, longer);
      }
    } else {
      ValidHasNoPartialEnd(data);
      assert data[..|r|] == r;
    }
  }

  /** In valid text, the valid prefixes end exactly where the next byte starts an encoding. */
  lemma {:induction false} BoundaryIsRuneStart(text: seq<Byte>, k: nat)
    requires Valid(text) && k < |text|
    ensures Valid(text[..k]) <==> RuneStart(text[k])
  {
    if k > 0 {
      var n := EncodedLength(text[0]);
      if k < n {
        assert text[..k][0] == text[0];
      } else {
        BoundaryIsRuneStart(text[n..], k - n);
        RunePrefix(text);
        Slices(text, n, k - n, k - n);
        ValidConcat(text[..n], text[n..][..k - n]);
      }
    }
  }

  /** Clips to a byte limit; valid text keeps its longest valid prefix within the limit. */
  method ClipStringBytes(text: seq<Byte>, max: int) returns (r: seq<Byte>)
    ensures r <= text && (|r| <= max || r == [])
    ensures |text| <= max ==> r == text
    ensures Valid(text) ==> Valid(r) && forall k :: |r| < k <= |text| && k <= max ==> !Valid(text[..k])
  {
    if max <= 0 {
      return [];
    }
    if |text| <= max {
      return text;
    }
    var end := max;
    while end > 0 && !RuneStart(text[end])
      invariant 0 <= end <= max
      invariant forall j :: end < j <= max ==> !RuneStart(text[j])
    {
      end := end - 1;
    }
    if Valid(text) {
      forall k | 0 <= k <= max
        ensures Valid(text[..k]) <==> RuneStart(text[k])
      {
        BoundaryIsRuneStart(text, k);
      }
      assert text[..0] == [];
    }
    return text[..end];
  }
}
