/** The helpers of helpers.go: an optional uint32, C-string normalisation of
    names, the name-list utilities used to check layer and extension support,
    uint32 clamping, and the little-endian decoding of shader code into words. */
module Helpers {

  /** Go's uint32. */
  type uint32 = x: int | 0 <= x < 0x1_0000_0000

  /** Go's byte. */
  type byte = x: int | 0 <= x < 0x100

  /** vk.MaxUint32, the largest uint32. */
  const Uint32Max: uint32 := 0xFFFF_FFFF

  /** The terminator of a C string. Go strings are byte strings; a `char`
      here stands for one byte of the name. */
  const Nul: char := '\0'

  datatype Option<T> = None | Some(value: T)

  datatype Result<T, E> = Ok(value: T) | Err(error: E)

  /** The outcome of a check: `Fail` stands for the panic of the source. */
  datatype Outcome<E> = Pass | Fail(error: E)

  // ---------------------------------------------------------------------
  // Optional uint32
  // ---------------------------------------------------------------------

  /** An optional uint32 that is set in place. */
  class OptionUint32 {
    var v: uint32
    var isSet: bool

    /** The zero value of the struct: unset. */
    constructor ()
      ensures !IsSet() && v == 0
    {
      v := 0;
      isSet := false;
    }

    method Set(x: uint32)
      modifies this
      ensures IsSet() && Val() == x
    {
      v := x;
      isSet := true;
    }

    predicate IsSet()
      reads this
      ensures IsSet() <==> View().Some?
    {
      isSet
    }

    /** Reading an unset option panics in the source; here it cannot be called. */
    function Val(): (r: uint32)
      reads this
      requires IsSet()
      ensures View() == Some(r)
    {
      v
    }

    /** The option as a value, for specifications. */
    function View(): Option<uint32>
      reads this
    {
      if isSet then Some(v) else None
    }
  }

  // ---------------------------------------------------------------------
  // C strings
  // ---------------------------------------------------------------------

  predicate IsCString(s: string) {
    |s| > 0 && s[|s| - 1] == Nul
  }

  /** Terminates a name with NUL unless it already is terminated. */
  function ToCString(input: string): (r: string)
    ensures IsCString(r)
    ensures IsCString(input) ==> r == input
    ensures !IsCString(input) ==> r == input + [Nul]
  {
    var l := |input|;
    if l == 0 then [Nul]
    else if input[l - 1] != Nul then input + [Nul]
    else input
  }

  lemma ToCStringIdempotent(s: string)
    ensures ToCString(ToCString(s)) == ToCString(s)
  {
  }

  /** Converts every name of a list into a C string. */
  method ToCStrings(input: seq<string>) returns (a: seq<string>)
    ensures |a| == |input|
    ensures forall k :: 0 <= k < |a| ==> a[k] == ToCString(input[k])
    ensures forall k :: 0 <= k < |a| ==> IsCString(a[k]) && ToCString(a[k]) == a[k]
  {
    var out := new string[|input|];
    var k := 0;
    while k < |input|
      invariant 0 <= k <= |input|
      invariant forall j :: 0 <= j < k ==> out[j] == ToCString(input[j])
    {
      out[k] := ToCString(input[k]);
      k := k + 1;
    }
    a := out[..];
  }

  // ---------------------------------------------------------------------
  // Name sets
  // ---------------------------------------------------------------------

  /** The normalised forms of a list of names. */
  function NormalizedSet(names: seq<string>): set<string> {
    set n | n in names :: ToCString(n)
  }

  /** The map SliceToMap builds: every normalised name maps to true. */
  function NameMap(names: seq<string>): map<string, bool> {
    map n | n in NormalizedSet(names) :: true
  }

  /** Go's `m[k]` on a map[string]bool: false for a missing key. */
  predicate MapGet(m: map<string, bool>, k: string) {
    k in m && m[k]
  }

  lemma NormalizedSetSnoc(names: seq<string>, x: string)
    ensures NormalizedSet(names + [x]) == NormalizedSet(names) + {ToCString(x)}
  {
    var l, r := NormalizedSet(names + [x]), NormalizedSet(names) + {ToCString(x)};
    forall y | y in l ensures y in r {
      var n :| n in names + [x] && y == ToCString(n);
      if n != x { assert n in names; }
    }
    forall y | y in r ensures y in l {
      if y != ToCString(x) {
        var n :| n in names && y == ToCString(n);
        assert n in names + [x];
      } else {
        assert x in names + [x];
      }
    }
  }

  lemma NameMapLookup(names: seq<string>, k: string)
    ensures MapGet(NameMap(names), k) <==> k in NormalizedSet(names)
  {
  }

  /** Builds the set of the normalised names as a map to true. */
  method SliceToMap(keys: seq<string>) returns (output: map<string, bool>)
    ensures output.Keys == NormalizedSet(keys)
    ensures forall k :: k in output ==> output[k]
    ensures output == NameMap(keys)
  {
    output := map[];
    var i := 0;
    while i < |keys|
      invariant 0 <= i <= |keys|
      invariant output.Keys == NormalizedSet(keys[..i])
      invariant forall k :: k in output ==> output[k]
    {
      assert keys[..i + 1] == keys[..i] + [keys[i]];
      NormalizedSetSnoc(keys[..i], keys[i]);
      output := output[ToCString(keys[i]) := true];
      i := i + 1;
    }
    assert keys[..|keys|] == keys;
  }

  // ---------------------------------------------------------------------
  // Subsequences
  // ---------------------------------------------------------------------

  /** `idx` picks, in increasing order, the positions of `t` that spell `s`. */
  ghost predicate IsEmbedding<T>(idx: seq<nat>, s: seq<T>, t: seq<T>) {
    && |idx| == |s|
    && (forall k :: 0 <= k < |idx| ==> idx[k] < |t| && s[k] == t[idx[k]])
    && (forall i, j :: 0 <= i < j < |idx| ==> idx[i] < idx[j])
  }

  /** `s` is `t` with some elements left out, the rest in their order. */
  ghost predicate IsSubsequence<T>(s: seq<T>, t: seq<T>) {
    exists idx: seq<nat> :: IsEmbedding(idx, s, t)
  }

  lemma SubsequenceEmpty<T>(t: seq<T>)
    ensures IsSubsequence([], t)
  {
    assert IsEmbedding([], [], t);
  }

  /** Appending one element to the end of the longer sequence, and
      optionally to the shorter one too, keeps the relation. */
  lemma SubsequenceSnoc<T>(s: seq<T>, t: seq<T>, x: T)
    requires IsSubsequence(s, t)
    ensures IsSubsequence(s, t + [x])
    ensures IsSubsequence(s + [x], t + [x])
  {
    var idx: seq<nat> :| IsEmbedding(idx, s, t);
    assert IsEmbedding(idx, s, t + [x]);
    assert IsEmbedding(idx + [|t|], s + [x], t + [x]);
  }

  // ---------------------------------------------------------------------
  // Set subtraction
  // ---------------------------------------------------------------------

  /** The elements of `a`, in order and with repetitions, whose normalised
      form `b` does not map to true. */
  function Subtract(a: seq<string>, b: map<string, bool>): seq<string>
    decreases |a|
  {
    if a == [] then []
    else
      var p := Subtract(a[..|a| - 1], b);
      if MapGet(b, ToCString(a[|a| - 1])) then p else p + [a[|a| - 1]]
  }

  lemma {:induction false} SubtractIsSubsequence(a: seq<string>, b: map<string, bool>)
    ensures IsSubsequence(Subtract(a, b), a)
    decreases |a|
  {
    if a == [] {
      SubsequenceEmpty(a);
    } else {
      var init, last := a[..|a| - 1], a[|a| - 1];
      assert a == init + [last];
      SubtractIsSubsequence(init, b);
      SubsequenceSnoc(Subtract(init, b), init, last);
    }
  }

  /** Every element of `a` is kept exactly as often as it occurs, or dropped
      entirely, according to its normalised form. */
  lemma {:induction false} SubtractCounts(a: seq<string>, b: map<string, bool>, v: string)
    ensures multiset(Subtract(a, b))[v] == if MapGet(b, ToCString(v)) then 0 else multiset(a)[v]
    decreases |a|
  {
    if a != [] {
      var init, last := a[..|a| - 1], a[|a| - 1];
      assert a == init + [last];
      SubtractCounts(init, b, v);
    }
  }

  lemma SubtractMembership(a: seq<string>, b: map<string, bool>)
    ensures forall v :: v in Subtract(a, b) <==> v in a && !MapGet(b, ToCString(v))
  {
    forall v ensures v in Subtract(a, b) <==> v in a && !MapGet(b, ToCString(v)) {
      SubtractCounts(a, b, v);
      assert v in Subtract(a, b) <==> multiset(Subtract(a, b))[v] > 0;
      assert v in a <==> multiset(a)[v] > 0;
    }
  }

  lemma SubtractEmpty(a: seq<string>, b: map<string, bool>)
    ensures Subtract(a, b) == [] <==> forall v :: v in a ==> MapGet(b, ToCString(v))
  {
    SubtractMembership(a, b);
    if Subtract(a, b) != [] {
      assert Subtract(a, b)[0] in Subtract(a, b);
    }
  }

  /** Keeps, in order, the elements of `a` that `b` does not hold. */
  method SetSubtraction(a: seq<string>, b: map<string, bool>) returns (output: seq<string>)
    ensures output == Subtract(a, b)
    ensures forall v :: v in output <==> v in a && !MapGet(b, ToCString(v))
  {
    output := [];
    var i := 0;
    while i < |a|
      invariant 0 <= i <= |a|
      invariant output == Subtract(a[..i], b)
    {
      var v := a[i];
      assert a[..i + 1][..i] == a[..i];
      if !MapGet(b, ToCString(v)) {
        output := output + [v];
      }
      i := i + 1;
    }
    assert a[..|a|] == a;
    SubtractMembership(a, b);
  }

  // ---------------------------------------------------------------------
  // De-duplication
  // ---------------------------------------------------------------------

  /** The first occurrence of each normalised name, in input order. */
  function Dedupe(a: seq<string>): seq<string>
    decreases |a|
  {
    if a == [] then []
    else
      var p := Dedupe(a[..|a| - 1]);
      if ToCString(a[|a| - 1]) in NormalizedSet(p) then p else p + [a[|a| - 1]]
  }

  /** No name of `a` at an earlier position shares the normalised form of `a[k]`. */
  predicate IsFirstOccurrence(a: seq<string>, k: nat)
    requires k < |a|
  {
    forall m :: 0 <= m < k ==> ToCString(a[m]) != ToCString(a[k])
  }

  lemma {:induction false} DedupeIsSubsequence(a: seq<string>)
    ensures IsSubsequence(Dedupe(a), a)
    decreases |a|
  {
    if a == [] {
      SubsequenceEmpty(a);
    } else {
      var init, last := a[..|a| - 1], a[|a| - 1];
      assert a == init + [last];
      DedupeIsSubsequence(init);
      SubsequenceSnoc(Dedupe(init), init, last);
    }
  }

  /** The output holds exactly the normalised forms of the input ... */
  lemma {:induction false} DedupeCovers(a: seq<string>)
    ensures NormalizedSet(Dedupe(a)) == NormalizedSet(a)
    decreases |a|
  {
    if a != [] {
      var init, last := a[..|a| - 1], a[|a| - 1];
      assert a == init + [last];
      DedupeCovers(init);
      NormalizedSetSnoc(init, last);
      NormalizedSetSnoc(Dedupe(init), last);
    } else {
      assert NormalizedSet(a) == {};
    }
  }

  /** ... each of them once. */
  lemma {:induction false} DedupeDistinct(a: seq<string>)
    ensures forall i, j :: 0 <= i < j < |Dedupe(a)| ==> ToCString(Dedupe(a)[i]) != ToCString(Dedupe(a)[j])
    decreases |a|
  {
    if a != [] {
      var init, last := a[..|a| - 1], a[|a| - 1];
      DedupeDistinct(init);
      var p := Dedupe(init);
      if ToCString(last) !in NormalizedSet(p) {
        var r := p + [last];
        forall i, j | 0 <= i < j < |r| ensures ToCString(r[i]) != ToCString(r[j]) {
          if j == |p| {
            assert r[i] in p;
          }
        }
      }
    }
  }

  /** The output keeps every first occurrence, and only first occurrences. */
  lemma {:induction false} DedupeKeepsFirstOccurrences(a: seq<string>)
    ensures forall k :: 0 <= k < |a| && IsFirstOccurrence(a, k) ==> a[k] in Dedupe(a)
    ensures forall x :: x in Dedupe(a) ==> exists k :: 0 <= k < |a| && a[k] == x && IsFirstOccurrence(a, k)
    decreases |a|
  {
    if a != [] {
      var init, last := a[..|a| - 1], a[|a| - 1];
      assert a == init + [last];
      DedupeKeepsFirstOccurrences(init);
      DedupeCovers(init);
      var p := Dedupe(init);
      forall k | 0 <= k < |a| && IsFirstOccurrence(a, k) ensures a[k] in Dedupe(a) {
        if k < |init| {
          assert IsFirstOccurrence(init, k);
        }
      }
      forall x | x in Dedupe(a) ensures exists k :: 0 <= k < |a| && a[k] == x && IsFirstOccurrence(a, k) {
        if x in p {
          var k :| 0 <= k < |init| && init[k] == x && IsFirstOccurrence(init, k);
          assert a[k] == x && IsFirstOccurrence(a, k);
        } else {
          assert x == last && ToCString(last) !in NormalizedSet(init);
          forall m | 0 <= m < |init| ensures ToCString(a[m]) != ToCString(last) {
            assert init[m] in init;
          }
          assert IsFirstOccurrence(a, |init|);
        }
      }
    }
  }

  /** Drops every name whose normalised form occurred earlier. */
  method DedupeSlice(a: seq<string>) returns (output: seq<string>)
    ensures output == Dedupe(a)
  {
    var idx: map<string, bool> := map[];
    output := [];
    var i := 0;
    while i < |a|
      invariant 0 <= i <= |a|
      invariant output == Dedupe(a[..i])
      invariant idx.Keys == NormalizedSet(output)
      invariant forall k :: k in idx ==> idx[k]
    {
      var v := a[i];
      assert a[..i + 1][..i] == a[..i];
      if !MapGet(idx, ToCString(v)) {
        NormalizedSetSnoc(output, v);
        output := output + [v];
        idx := idx[ToCString(v) := true];
      }
      i := i + 1;
    }
    assert a[..|a|] == a;
  }

  // ---------------------------------------------------------------------
  // Support check
  // ---------------------------------------------------------------------

  /** Fails, carrying the missing names, exactly when some required name is
      not among the available ones once both are normalised. */
  method MustSupport(available: seq<string>, required: seq<string>) returns (o: Outcome<seq<string>>)
    ensures o.Fail? <==> exists r :: r in required && ToCString(r) !in NormalizedSet(available)
    ensures o.Fail? ==> o.error == Subtract(required, NameMap(available)) && o.error != []
  {
    var availableMap := SliceToMap(available);
    var missing := SetSubtraction(required, availableMap);
    SubtractEmpty(required, availableMap);
    forall r ensures MapGet(availableMap, ToCString(r)) <==> ToCString(r) in NormalizedSet(available) {
      NameMapLookup(available, ToCString(r));
    }
    if |missing| > 0 {
      o := Fail(missing);
    } else {
      o := Pass;
    }
  }

  // ---------------------------------------------------------------------
  // uint32 arithmetic
  // ---------------------------------------------------------------------

  function MaxUint32(x: uint32, y: uint32): (r: uint32)
    ensures r >= x && r >= y
    ensures r == x || r == y
  {
    if x < y then y else x
  }

  function MinUint32(x: uint32, y: uint32): (r: uint32)
    ensures r <= x && r <= y
    ensures r == x || r == y
  {
    if x > y then y else x
  }

  /** The maximum is taken last, so an empty range yields its lower end. */
  function ClampUint32(v: uint32, smallest: uint32, largest: uint32): (r: uint32)
    ensures smallest <= v <= largest ==> r == v
    ensures smallest <= largest ==> smallest <= r <= largest
    ensures smallest <= largest && v < smallest ==> r == smallest
    ensures smallest <= largest && v > largest ==> r == largest
    ensures smallest > largest ==> r == smallest
  {
    MaxUint32(smallest, MinUint32(v, largest))
  }

  // ---------------------------------------------------------------------
  // 32-bit words
  // ---------------------------------------------------------------------

  /** The uint32 whose little-endian bytes are b0, b1, b2, b3. */
  function LittleEndianWord(b0: byte, b1: byte, b2: byte, b3: byte): uint32 {
    b0 + 0x100 * b1 + 0x1_0000 * b2 + 0x100_0000 * b3
  }

  /** The little-endian bytes of a uint32. */
  function WordBytes(w: uint32): (b: seq<byte>)
    ensures |b| == 4
  {
    [w % 0x100, (w / 0x100) % 0x100, (w / 0x1_0000) % 0x100, w / 0x100_0000]
  }

  lemma WordBytesRoundTrip(w: uint32)
    ensures var b := WordBytes(w); LittleEndianWord(b[0], b[1], b[2], b[3]) == w
  {
  }

  lemma LittleEndianWordRoundTrip(b0: byte, b1: byte, b2: byte, b3: byte)
    ensures WordBytes(LittleEndianWord(b0, b1, b2, b3)) == [b0, b1, b2, b3]
  {
    var w := LittleEndianWord(b0, b1, b2, b3);
    assert w == b0 + 0x100 * (b1 + 0x100 * (b2 + 0x100 * b3));
    assert w % 0x100 == b0 && w / 0x100 == b1 + 0x100 * (b2 + 0x100 * b3);
    assert w / 0x1_0000 == (w / 0x100) / 0x100;
    assert w / 0x100_0000 == (w / 0x1_0000) / 0x100;
  }

  /** Word i of a byte string: its bytes 4i .. 4i+3. */
  function WordAt(b: seq<byte>, i: nat): uint32
    requires 4 * i + 3 < |b|
  {
    LittleEndianWord(b[4 * i], b[4 * i + 1], b[4 * i + 2], b[4 * i + 3])
  }

  /** The words of a byte string; trailing bytes short of a word are ignored. */
  function DecodeWords(b: seq<byte>): (w: seq<uint32>)
    ensures |w| == |b| / 4
  {
    seq(|b| / 4, i requires 0 <= i < |b| / 4 => WordAt(b, i))
  }

  /** The little-endian byte string of a list of words. */
  function EncodeWords(ws: seq<uint32>): (b: seq<byte>)
    ensures |b| == 4 * |ws|
  {
    if ws == [] then [] else WordBytes(ws[0]) + EncodeWords(ws[1..])
  }

  lemma {:induction false} EncodeWordsAt(ws: seq<uint32>, i: nat, j: nat)
    requires i < |ws| && j < 4
    ensures EncodeWords(ws)[4 * i + j] == WordBytes(ws[i])[j]
    decreases i
  {
    if i > 0 {
      EncodeWordsAt(ws[1..], i - 1, j);
    }
  }

  lemma DecodeEncode(ws: seq<uint32>)
    ensures DecodeWords(EncodeWords(ws)) == ws
  {
    var b := EncodeWords(ws);
    forall i | 0 <= i < |ws| ensures DecodeWords(b)[i] == ws[i] {
      EncodeWordsAt(ws, i, 0);
      EncodeWordsAt(ws, i, 1);
      EncodeWordsAt(ws, i, 2);
      EncodeWordsAt(ws, i, 3);
      WordBytesRoundTrip(ws[i]);
    }
  }

  lemma EncodeDecode(b: seq<byte>)
    ensures EncodeWords(DecodeWords(b)) == b[..4 * (|b| / 4)]
  {
    var ws := DecodeWords(b);
    var e := EncodeWords(ws);
    forall k | 0 <= k < 4 * (|b| / 4) ensures e[k] == b[k] {
      var i, j := k / 4, k % 4;
      assert k == 4 * i + j;
      EncodeWordsAt(ws, i, j);
      LittleEndianWordRoundTrip(b[4 * i], b[4 * i + 1], b[4 * i + 2], b[4 * i + 3]);
    }
  }

  /** Reads the bytes as little-endian uint32 words into a slice of
      len(b) / 4 words. */
  method NewWordsUint32(b: seq<byte>) returns (words: seq<uint32>)
    ensures words == DecodeWords(b)
    ensures forall i :: 0 <= i < |words| ==> words[i] == WordAt(b, i)
  {
    var out := new uint32[|b| / 4];
    var i := 0;
    while i < out.Length
      invariant 0 <= i <= out.Length
      invariant forall j :: 0 <= j < i ==> out[j] == WordAt(b, j)
    {
      out[i] := WordAt(b, i);
      i := i + 1;
    }
    words := out[..];
  }

  /** The size in bytes of the words. */
  function Sizeof(words: seq<uint32>): (n: nat)
    ensures n == |EncodeWords(words)|
  {
    |words| * 4
  }

  /** The code size handed on covers every whole word of the file. */
  lemma SizeofDecoded(b: seq<byte>)
    ensures Sizeof(DecodeWords(b)) == |b| - |b| % 4
    ensures Sizeof(DecodeWords(b)) <= |b| < Sizeof(DecodeWords(b)) + 4
  {
  }
}
