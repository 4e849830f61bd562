// Byte strings, the non-deterministic value encryption and the bucket serialisation.
module Values {
  type byte = x: int | 0 <= x < 256
  type Bytes = seq<byte>

  // ---- encryption_engine ----

  const HASH: byte := 35
  const NUL: byte := 0
  const ALPHANUM_SIZE := 62

  // What the store holds: a ciphertext. The cipher is an abstract invertible function, so a
  // ciphertext is identified with the text sealed in it.
  datatype Cell = Sealed(text: Bytes)

  // The characters gen_random draws from: digits, capitals, small letters.
  function Alphanum(i: nat): byte
    requires i < ALPHANUM_SIZE
  {
    if i < 10 then 48 + i else if i < 36 then 65 + (i - 10) else 97 + (i - 36)
  }

  predicate IsAlphanum(b: byte) {
    48 <= b < 58 || 65 <= b < 91 || 97 <= b < 123
  }

  predicate Alphanumeric(s: Bytes) {
    forall i :: 0 <= i < |s| ==> IsAlphanum(s[i])
  }

  // They are the letters and digits, each of them drawn for one number only.
  lemma AlphanumIs(b: byte)
    ensures IsAlphanum(b) <==>
              ('0' <= b as int as char <= '9' || 'A' <= b as int as char <= 'Z' || 'a' <= b as int as char <= 'z')
    ensures IsAlphanum(b) <==> exists i: nat :: i < ALPHANUM_SIZE && Alphanum(i) == b
    ensures forall i: nat, j: nat :: i < j < ALPHANUM_SIZE ==> Alphanum(i) != Alphanum(j)
    ensures HASH as int as char == '#'
  {
    if IsAlphanum(b) {
      var i: nat := if b < 58 then b - 48 else if b < 91 then b - 55 else b - 61;
      assert Alphanum(i) == b;
    }
  }

  // gen_random; the draw of rand() is arbitrary.
  method GenRandom(len: nat) returns (s: Bytes)
    ensures |s| == len && Alphanumeric(s)
  {
    s := [];
    for i := 0 to len
      invariant |s| == i && Alphanumeric(s)
    {
      var draw: nat :| draw < ALPHANUM_SIZE;
      s := s + [Alphanum(draw)];
    }
  }

  // Everything before the last '#', or nothing when there is none.
  function ExtractKey(t: Bytes): Bytes {
    if t == [] then []
    else if t[|t| - 1] == HASH then t[..|t| - 1]
    else ExtractKey(t[..|t| - 1])
  }

  // Everything before the last hash sign; nothing when there is none.
  lemma {:induction false} ExtractKeyIs(a: Bytes, b: Bytes)
    requires HASH !in b
    ensures ExtractKey(a + [HASH] + b) == a && ExtractKey(b) == []
  {
    var t := a + [HASH] + b;
    if b == [] {
      assert t[..|t| - 1] == a;
    } else {
      var shorter := b[..|b| - 1];
      assert b == shorter + [b[|b| - 1]];
      assert t[..|t| - 1] == a + [HASH] + shorter && t[|t| - 1] == b[|b| - 1];
      ExtractKeyIs(a, shorter);
    }
  }

  method ExtractKeyByScan(t: Bytes) returns (r: Bytes)
    ensures r == ExtractKey(t)
  {
    var i := |t| - 1;
    assert t[..i + 1] == t;
    while i >= 0
      invariant -1 <= i < |t|
      invariant ExtractKey(t) == ExtractKey(t[..i + 1])
    {
      assert t[..i + 1][..i] == t[..i];
      if t[i] == HASH {
        return t[..i];
      }
      i := i - 1;
    }
    return [];
  }

  // std::string(text, std::find(text, text + len, '\0')).
  function BeforeNul(t: Bytes): Bytes {
    if t == [] || t[0] == NUL then [] else [t[0]] + BeforeNul(t[1..])
  }

  // The text encryptNonDeterministic seals: the value, a '#', a random suffix.
  predicate Wraps(c: Cell, v: Bytes) {
    |v| < |c.text| && c.text[..|v|] == v && c.text[|v|] == HASH && Alphanumeric(c.text[|v| + 1..])
  }

  // One such ciphertext, with an empty suffix.
  function Seal(v: Bytes): (c: Cell)
    ensures Wraps(c, v)
  {
    Sealed(v + [HASH])
  }

  method EncryptNonDeterministic(v: Bytes) returns (c: Cell)
    ensures Wraps(c, v) && |c.text| <= |v| + 10
  {
    var len: nat :| len < 10;
    var suffix := GenRandom(len);
    c := Sealed(v + [HASH] + suffix);
    assert c.text[..|v|] == v && c.text[|v| + 1..] == suffix;
  }

  function DecryptNonDeterministic(c: Cell): Bytes {
    ExtractKey(BeforeNul(c.text))
  }

  predicate NulFree(v: Bytes) {
    NUL !in v
  }

  lemma {:induction false} BeforeNulPrefix(t: Bytes, n: nat)
    requires n <= |t| && (forall i :: 0 <= i < n ==> t[i] != NUL) && (n < |t| ==> t[n] == NUL)
    ensures BeforeNul(t) == t[..n]
  {
    if t != [] && n > 0 {
      BeforeNulPrefix(t[1..], n - 1);
      assert [t[0]] + t[1..][..n - 1] == t[..n];
    }
  }

  lemma {:induction false} ExtractKeyShrinks(t: Bytes)
    ensures |ExtractKey(t)| <= |t| && (t != [] ==> |ExtractKey(t)| < |t|)
  {
    if t != [] {
      ExtractKeyShrinks(t[..|t| - 1]);
    }
  }

  lemma {:induction false} ExtractKeyOfWrapped(v: Bytes, suffix: Bytes)
    requires Alphanumeric(suffix)
    ensures ExtractKey(v + [HASH] + suffix) == v
  {
    var t := v + [HASH] + suffix;
    if suffix == [] {
      assert t[..|t| - 1] == v;
    } else {
      var shorter := suffix[..|suffix| - 1];
      assert t[..|t| - 1] == v + [HASH] + shorter;
      assert t[|t| - 1] == suffix[|suffix| - 1];
      ExtractKeyOfWrapped(v, shorter);
    }
  }

  lemma {:induction false} FirstNul(v: Bytes) returns (n: nat)
    requires !NulFree(v)
    ensures n < |v| && v[n] == NUL && forall i :: 0 <= i < n ==> v[i] != NUL
  {
    if v[0] == NUL {
      n := 0;
    } else {
      assert v == [v[0]] + v[1..];
      var m := FirstNul(v[1..]);
      n := m + 1;
    }
  }

  // Decrypting an encryption gives the value back, '#' bytes and all, exactly when no byte of it is NUL.
  lemma DecryptEncrypt(c: Cell, v: Bytes)
    requires Wraps(c, v)
    ensures DecryptNonDeterministic(c) == v <==> NulFree(v)
  {
    var suffix := c.text[|v| + 1..];
    assert c.text == v + [HASH] + suffix;
    if NulFree(v) {
      assert forall i :: 0 <= i < |suffix| ==> IsAlphanum(suffix[i]);
      BeforeNulPrefix(c.text, |c.text|);
      assert c.text[..|c.text|] == c.text;
      ExtractKeyOfWrapped(v, suffix);
    } else {
      var n := FirstNul(v);
      BeforeNulPrefix(c.text, n);
      ExtractKeyShrinks(c.text[..n]);
    }
  }

  // ---- BinarySerializer ----

  type Word = x: int | -0x8000_0000 <= x < 0x8000_0000

  // The four bytes of an int in memory, least significant first, in two's complement.
  function WordBytes(w: Word): (b: Bytes)
    ensures |b| == 4
  {
    var u := if w < 0 then w + 0x1_0000_0000 else w;
    var h := u / 256;
    var g := h / 256;
    [u % 256, h % 256, g % 256, g / 256]
  }

  function BytesWord(b0: byte, b1: byte, b2: byte, b3: byte): Word {
    var u := b0 + 256 * b1 + 65536 * b2 + 16777216 * b3;
    if u >= 0x8000_0000 then u - 0x1_0000_0000 else u
  }

  function SerializeInts(ws: seq<Word>): (b: Bytes)
    ensures |b| == 4 * |ws|
  {
    if ws == [] then [] else SerializeInts(ws[..|ws| - 1]) + WordBytes(ws[|ws| - 1])
  }

  // The i-th whole word of a byte string.
  function WordAt(b: Bytes, i: nat): Word
    requires 4 * i + 4 <= |b|
  {
    BytesWord(b[4 * i], b[4 * i + 1], b[4 * i + 2], b[4 * i + 3])
  }

  function DeserializeInts(b: Bytes): (ws: seq<Word>)
    ensures |ws| == |b| / 4
  {
    seq(|b| / 4, i requires 0 <= i < |b| / 4 => WordAt(b, i))
  }

  // serialize<int>: the words are copied into a buffer of their size.
  method SerializeIntsByCopy(ws: seq<Word>) returns (b: Bytes)
    ensures b == SerializeInts(ws)
  {
    var raw := new byte[4 * |ws|](_ => 0);
    for i := 0 to |ws|
      invariant raw[..4 * i] == SerializeInts(ws[..i])
    {
      var w := WordBytes(ws[i]);
      raw[4 * i], raw[4 * i + 1], raw[4 * i + 2], raw[4 * i + 3] := w[0], w[1], w[2], w[3];
      assert ws[..i + 1][..i] == ws[..i];
      assert raw[..4 * (i + 1)] == SerializeInts(ws[..i]) + w;
    }
    assert ws[..|ws|] == ws;
    b := raw[..];
  }

  // deserialize<int>: one word more than needed is allocated, the bytes are copied over it, and the
  // last word, which holds what is left of an incomplete one, is dropped.
  method DeserializeIntsByCopy(b: Bytes) returns (ws: seq<Word>)
    ensures ws == DeserializeInts(b)
  {
    var n := |b| / 4 + 1;
    var raw := new byte[4 * n](_ => 0);
    for i := 0 to |b|
      invariant raw[..i] == b[..i]
    {
      raw[i] := b[i];
    }
    ws := [];
    for i := 0 to n
      invariant |ws| == i
      invariant raw[..|b|] == b
      invariant forall j :: 0 <= j < i && j < n - 1 ==> ws[j] == WordAt(b, j)
    {
      if i < n - 1 {
        assert forall j :: 4 * i <= j < 4 * i + 4 ==> raw[j] == raw[..|b|][j];
      }
      ws := ws + [BytesWord(raw[4 * i], raw[4 * i + 1], raw[4 * i + 2], raw[4 * i + 3])];
    }
    ws := ws[..n - 1];
  }

  lemma BytesWordBytes(w: Word)
    ensures var b := WordBytes(w); BytesWord(b[0], b[1], b[2], b[3]) == w
  {
  }

  // The bytes are the digits of the int to the base 256, the least significant one first, two's complement below zero.
  lemma WordValue(w: Word)
    ensures var b := WordBytes(w);
            (b[0] as int) + 0x100 * (b[1] as int) + 0x1_0000 * (b[2] as int) + 0x100_0000 * (b[3] as int)
            == (if w < 0 then w + 0x1_0000_0000 else w)
  {
    var u: int := if w < 0 then w + 0x1_0000_0000 else w;
    var h: int := u / 256;
    var g: int := h / 256;
    assert u == 256 * h + u % 256 && h == 256 * g + h % 256 && g == 256 * (g / 256) + g % 256;
  }

  lemma WordBytesWord(b0: byte, b1: byte, b2: byte, b3: byte)
    ensures WordBytes(BytesWord(b0, b1, b2, b3)) == [b0, b1, b2, b3]
  {
    var h := b1 + 256 * b2 + 65536 * b3;
    var g := b2 + 256 * b3;
    var u := b0 + 256 * h;
    assert u % 256 == b0 && u / 256 == h;
    assert h % 256 == b1 && h / 256 == g;
    assert g % 256 == b2 && g / 256 == b3;
  }

  lemma WordBytesAt(b: Bytes, i: nat)
    requires 4 * i + 4 <= |b|
    ensures WordBytes(WordAt(b, i)) == b[4 * i..4 * i + 4]
  {
    WordBytesWord(b[4 * i], b[4 * i + 1], b[4 * i + 2], b[4 * i + 3]);
  }

  lemma SerializeSnoc(ws: seq<Word>, w: Word)
    ensures SerializeInts(ws + [w]) == SerializeInts(ws) + WordBytes(w)
  {
    assert (ws + [w])[..|ws|] == ws;
  }

  // Every int vector survives serialisation, the empty one included.
  lemma {:induction false} DeserializeSerialize(ws: seq<Word>)
    ensures DeserializeInts(SerializeInts(ws)) == ws
  {
    if ws != [] {
      var n := |ws| - 1;
      DeserializeSerialize(ws[..n]);
      var front, b := SerializeInts(ws[..n]), SerializeInts(ws);
      BytesWordBytes(ws[n]);
      assert WordAt(b, n) == ws[n];
      forall i | 0 <= i < n ensures DeserializeInts(b)[i] == ws[i] {
        assert WordAt(b, i) == WordAt(front, i) == DeserializeInts(front)[i];
      }
      assert DeserializeInts(b) == ws;
    }
  }

  // Reserialising what was read from any byte string gives its longest prefix of whole words.
  lemma SerializeDeserialize(b: Bytes)
    ensures SerializeInts(DeserializeInts(b)) == b[..4 * (|b| / 4)]
  {
    SerializeWords(b, |b| / 4);
    assert DeserializeInts(b)[..|b| / 4] == DeserializeInts(b);
  }

  lemma {:induction false} SerializeWords(b: Bytes, n: nat)
    requires n <= |b| / 4
    ensures SerializeInts(DeserializeInts(b)[..n]) == b[..4 * n]
  {
    if n > 0 {
      var ws := DeserializeInts(b);
      SerializeWords(b, n - 1);
      assert ws[..n] == ws[..n - 1] + [WordAt(b, n - 1)];
      SerializeSnoc(ws[..n - 1], WordAt(b, n - 1));
      WordBytesAt(b, n - 1);
      assert b[..4 * n] == b[..4 * (n - 1)] + b[4 * (n - 1)..4 * n];
    }
  }

  function SerializedBools(vs: seq<bool>): Bytes {
    seq(|vs|, i requires 0 <= i < |vs| => if vs[i] then 1 else 0)
  }

  method SerializeBools(vs: seq<bool>) returns (b: Bytes)
    ensures b == SerializedBools(vs) && DeserializeBools(b) == vs
  {
    b := [];
    for i := 0 to |vs|
      invariant b == SerializedBools(vs)[..i]
    {
      b := b + [if vs[i] then 1 else 0];
    }
  }

  method DeserializeBoolsByLoop(b: Bytes) returns (vs: seq<bool>)
    ensures vs == DeserializeBools(b)
  {
    vs := [];
    for i := 0 to |b|
      invariant vs == DeserializeBools(b)[..i]
    {
      vs := vs + [b[i] != 0];
    }
  }

  function DeserializeBools(b: Bytes): seq<bool> {
    seq(|b|, i requires 0 <= i < |b| => b[i] != 0)
  }

  // ---- what survives the store ----

  predicate NoZeroByte(w: Word) {
    NulFree(WordBytes(w))
  }

  lemma {:induction false} NulFreeInts(ws: seq<Word>)
    ensures NulFree(SerializeInts(ws)) <==> forall i :: 0 <= i < |ws| ==> NoZeroByte(ws[i])
  {
    hide WordBytes, NulFree;
    if ws == [] {
      NulFreeEmpty();
    } else {
      var n := |ws| - 1;
      NulFreeInts(ws[..n]);
      NulFreeConcat(SerializeInts(ws[..n]), WordBytes(ws[n]));
      if NulFree(SerializeInts(ws)) {
        forall i | 0 <= i < |ws| ensures NoZeroByte(ws[i]) {
          assert i < n ==> NoZeroByte(ws[..n][i]);
        }
      }
    }
  }

  lemma NulFreeEmpty()
    ensures NulFree([])
  {
  }

  lemma NulFreeConcat(a: Bytes, b: Bytes)
    ensures NulFree(a + b) <==> NulFree(a) && NulFree(b)
  {
  }

  lemma {:induction false} BeforeNulShrinks(t: Bytes, n: nat)
    requires n < |t| && t[n] == NUL
    ensures |BeforeNul(t)| <= n
  {
    if n > 0 {
      BeforeNulShrinks(t[1..], n - 1);
    }
  }

  // A value with a NUL byte comes back shorter than it was.
  lemma DecryptShrinks(c: Cell, v: Bytes)
    requires Wraps(c, v) && !NulFree(v)
    ensures |DecryptNonDeterministic(c)| < |v|
  {
    var n := FirstNul(v);
    assert c.text[..|v|][n] == c.text[n];
    BeforeNulShrinks(c.text, n);
    ExtractKeyShrinks(BeforeNul(c.text));
  }

  lemma FewerWords(bytes: nat, words: nat)
    requires bytes < 4 * words
    ensures bytes / 4 < words
  {
  }

  // An int vector survives the store exactly when none of its words has a zero byte.
  lemma IntsSurvive(c: Cell, ws: seq<Word>)
    requires Wraps(c, SerializeInts(ws))
    ensures DeserializeInts(DecryptNonDeterministic(c)) == ws <==> forall i :: 0 <= i < |ws| ==> NoZeroByte(ws[i])
  {
    hide Wraps, DecryptNonDeterministic, DeserializeInts, SerializeInts, NulFree, NoZeroByte;
    var v := SerializeInts(ws);
    NulFreeInts(ws);
    DecryptEncrypt(c, v);
    DeserializeSerialize(ws);
    if !NulFree(v) {
      DecryptShrinks(c, v);
      FewerWords(|DecryptNonDeterministic(c)|, |ws|);
    }
  }

  // A bool vector survives it exactly when every element is true.
  lemma BoolsSurvive(c: Cell, vs: seq<bool>)
    requires Wraps(c, SerializedBools(vs))
    ensures DeserializeBools(DecryptNonDeterministic(c)) == vs <==> forall i :: 0 <= i < |vs| ==> vs[i]
  {
    hide Wraps, DecryptNonDeterministic;
    var v := SerializedBools(vs);
    DecryptEncrypt(c, v);
    if i :| 0 <= i < |vs| && !vs[i] {
      assert v[i] == NUL && v[i] in v;
      DecryptShrinks(c, v);
    } else {
      assert NulFree(v);
      assert DeserializeBools(v) == vs;
    }
  }

  // The vector of the single int 1 is read back as the empty vector.
  lemma OneIsLost(c: Cell)
    requires Wraps(c, SerializeInts([1]))
    ensures DeserializeInts(DecryptNonDeterministic(c)) == []
  {
    assert SerializeInts([1]) == SerializeInts([]) + WordBytes(1) by {
      assert [1][..0] == [];
    }
    assert WordBytes(1)[1] == NUL && SerializeInts([1])[1] == NUL;
    assert !NulFree(SerializeInts([1]));
    DecryptShrinks(c, SerializeInts([1]));
  }

  // ---- what a GET adds up ----

  function SumInts(ws: seq<Word>): int {
    if ws == [] then 0 else SumInts(ws[..|ws| - 1]) + ws[|ws| - 1]
  }

  function CountTrue(vs: seq<bool>): nat {
    if vs == [] then 0 else CountTrue(vs[..|vs| - 1]) + (if vs[|vs| - 1] then 1 else 0)
  }

  lemma {:induction false} SumIntsConcat(a: seq<Word>, b: seq<Word>)
    ensures SumInts(a + b) == SumInts(a) + SumInts(b)
  {
    if b == [] {
      assert a + b == a;
    } else {
      SumIntsConcat(a, b[..|b| - 1]);
      assert (a + b)[..|a + b| - 1] == a + b[..|b| - 1];
    }
  }

  lemma SumOfOneInt(w: Word)
    ensures SumInts([w]) == w && SumInts([]) == 0
  {
    assert [w][..0] == [];
  }

  lemma {:induction false} CountTrueConcat(a: seq<bool>, b: seq<bool>)
    ensures CountTrue(a + b) == CountTrue(a) + CountTrue(b)
  {
    if b == [] {
      assert a + b == a;
    } else {
      CountTrueConcat(a, b[..|b| - 1]);
      assert (a + b)[..|a + b| - 1] == a + b[..|b| - 1];
    }
  }

  lemma CountOfOneBool(v: bool)
    ensures CountTrue([v]) == (if v then 1 else 0) && CountTrue([]) == 0
  {
    assert [v][..0] == [];
  }

  method AddInts(total: int, b: Bytes) returns (t: int)
    ensures t == total + SumInts(DeserializeInts(b))
  {
    var ws := DeserializeIntsByCopy(b);
    t := total;
    for i := 0 to |ws|
      invariant t == total + SumInts(ws[..i])
    {
      assert ws[..i + 1][..i] == ws[..i];
      t := t + ws[i];
    }
    assert ws[..|ws|] == ws;
  }

  method AddBools(total: int, b: Bytes) returns (t: int)
    ensures t == total + CountTrue(DeserializeBools(b))
  {
    var vs := DeserializeBoolsByLoop(b);
    t := total;
    for i := 0 to |vs|
      invariant t == total + CountTrue(vs[..i])
    {
      assert vs[..i + 1][..i] == vs[..i];
      t := t + (if vs[i] then 1 else 0);
    }
    assert vs[..|vs|] == vs;
  }
}
