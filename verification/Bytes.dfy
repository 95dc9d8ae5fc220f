/** Byte strings, the optional value, and the big-endian length fields that every layer writes. */
module Bytes {

  datatype Option<+T> = None | Some(value: T)

  type Byte = b: int | 0 <= b < 256

  /** A buffer, as handed from one layer to the next. */
  type Chunk = seq<Byte>

  function Flatten<T>(parts: seq<seq<T>>): (r: seq<T>)
  {
    if parts == [] then [] else parts[0] + Flatten(parts[1..])
  }

  lemma {:induction false} FlattenAppend<T>(a: seq<seq<T>>, b: seq<seq<T>>)
    ensures Flatten(a + b) == Flatten(a) + Flatten(b)
  {
    if a == [] {
      assert a + b == b;
    } else {
      FlattenAppend(a[1..], b);
      assert (a + b)[0] == a[0] && (a + b)[1..] == a[1..] + b;
      Assoc(a[0], Flatten(a[1..]), Flatten(b));
    }
  }

  lemma Assoc<T>(a: seq<T>, b: seq<T>, c: seq<T>)
    ensures a + b + c == a + (b + c)
  {
  }

  lemma FlattenOne<T>(part: seq<T>)
    ensures Flatten([part]) == part
  {
    assert Flatten([part]) == part + Flatten([]);
  }

  lemma FlattenSnoc<T>(a: seq<seq<T>>, part: seq<T>)
    ensures Flatten(a + [part]) == Flatten(a) + part
  {
    FlattenAppend(a, [part]);
    FlattenOne(part);
  }

  function U16(n: nat): (r: Chunk)
    requires n < 0x1_0000
    ensures |r| == 2 && FromU16(r) == n
  {
    [n / 256, n % 256]
  }

  function FromU16(s: Chunk): nat
    requires |s| >= 2
  {
    (s[0] as int) * 256 + s[1] as int
  }

  function U32(n: nat): (r: Chunk)
    requires n < 0x1_0000_0000
    ensures |r| == 4 && FromU32(r) == n
  {
    U16(n / 0x1_0000) + U16(n % 0x1_0000)
  }

  function FromU32(s: Chunk): nat
    requires |s| >= 4
  {
    FromU16(s) * 0x1_0000 + FromU16(s[2..])
  }

  /** The number that bytes spell, most significant byte first. */
  function Value(bytes: Chunk): nat {
    if bytes == [] then 0 else Value(bytes[..|bytes| - 1]) * 256 + bytes[|bytes| - 1] as int
  }

  lemma ValueSnoc(bytes: Chunk, last: Byte)
    ensures Value(bytes + [last]) == Value(bytes) * 256 + last as int
  {
    assert (bytes + [last])[..|bytes|] == bytes;
  }

  /** Both length fields are big-endian. */
  lemma LengthFieldsAreBigEndian(n: nat)
    ensures n < 0x1_0000 ==> Value(U16(n)) == n
    ensures n < 0x1_0000_0000 ==> Value(U32(n)) == n
  {
    if n < 0x1_0000 {
      PairSpells(n / 256, n % 256);
    }
    if n < 0x1_0000_0000 {
      var bytes := U32(n);
      PairSpells(bytes[0], bytes[1]);
      ValueSnoc([bytes[0], bytes[1]], bytes[2]);
      ValueSnoc([bytes[0], bytes[1], bytes[2]], bytes[3]);
      assert bytes == [bytes[0], bytes[1], bytes[2]] + [bytes[3]];
      assert [bytes[0], bytes[1]] + [bytes[2]] == [bytes[0], bytes[1], bytes[2]];
    }
  }

  lemma PairSpells(high: Byte, low: Byte)
    ensures Value([high, low]) == high as int * 256 + low as int
  {
    ValueSnoc([], high);
    ValueSnoc([high], low);
    assert [] + [high] == [high] && [high] + [low] == [high, low];
  }

  /** Only the first four bytes of a buffer are its length field. */
  lemma FromU32Prefix(s: Chunk, more: Chunk)
    requires |s| >= 4
    ensures FromU32(s + more) == FromU32(s)
  {
  }
}

/** Authenticated encryption seen from outside: a nonce and a plain buffer give a sealed one that
    is 28 bytes longer (12 of nonce, 16 of tag) and opens to the same plain buffer. */
module Sealing {
  import opened Bytes

  const OVERHEAD: nat := 28

  datatype Pair = Pair(seal: (nat, Chunk) -> Chunk, open: Chunk -> Option<Chunk>)

  ghost predicate Inverse(p: Pair)
  {
    forall nonce, plain :: |p.seal(nonce, plain)| == |plain| + OVERHEAD && p.open(p.seal(nonce, plain)) == Some(plain)
  }

  function Prefixed(nonce: nat, plain: Chunk): (r: Chunk)
    ensures |r| == |plain| + OVERHEAD && Stripped(r) == Some(plain)
  {
    seq(OVERHEAD, _ => nonce % 256) + plain
  }

  function Stripped(sealed: Chunk): Option<Chunk>
  {
    if |sealed| < OVERHEAD then None else Some(sealed[OVERHEAD..])
  }

  type Cipher = p: Pair | Inverse(p) witness Pair(Prefixed, Stripped)
}
