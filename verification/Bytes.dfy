/** Machine integers and big-endian 16-bit fields. */
module Bytes {
  type byte = x: int | 0 <= x < 256
  type u16 = x: int | 0 <= x < 65536
  type u32 = x: int | 0 <= x < 0x1_0000_0000

  function ReadU16(s: seq<byte>, at: nat): (r: u16)
    requires at + 2 <= |s|
  {
    (s[at] as int) * 256 + s[at + 1] as int
  }

  function WriteU16(n: u16): (s: seq<byte>)
    ensures |s| == 2 && ReadU16(s, 0) == n
  {
    [n / 256, n % 256]
  }

  lemma WriteWhatWasRead(s: seq<byte>, at: nat)
    requires at + 2 <= |s|
    ensures WriteU16(ReadU16(s, at)) == s[at..at + 2]
  {
    assert ReadU16(s, at) == s[at] as int * 256 + s[at + 1];
    assert ReadU16(s, at) / 256 == s[at] && ReadU16(s, at) % 256 == s[at + 1];
  }

  /** `wrapping_add(1)` on a 16-bit integer. */
  function WrappingIncrement(n: u16): u16 {
    (n + 1) % 65536
  }

  lemma Associates<T>(a: seq<T>, b: seq<T>, c: seq<T>)
    ensures a + b + c == a + (b + c)
  {
  }

  lemma DropAppend<T>(a: seq<T>, b: seq<T>, n: nat)
    requires n <= |a|
    ensures (a + b)[n..] == a[n..] + b
  {
  }

  lemma DropDrop<T>(a: seq<T>, n: nat, i: nat)
    requires n <= i <= |a|
    ensures a[n..][i - n..] == a[i..]
  {
  }

  function Flatten<T>(chunks: seq<seq<T>>): seq<T> {
    if chunks == [] then [] else chunks[0] + Flatten(chunks[1..])
  }

  lemma {:induction false} FlattenAppend<T>(a: seq<seq<T>>, b: seq<seq<T>>)
    ensures Flatten(a + b) == Flatten(a) + Flatten(b)
  {
    if a == [] {
      assert a + b == b;
    } else {
      assert (a + b)[1..] == a[1..] + b;
      FlattenAppend(a[1..], b);
    }
  }

  lemma FlattenSnoc<T>(chunks: seq<seq<T>>, i: nat)
    requires i < |chunks|
    ensures Flatten(chunks[..i + 1]) == Flatten(chunks[..i]) + chunks[i]
  {
    assert chunks[..i + 1] == chunks[..i] + [chunks[i]];
    FlattenAppend(chunks[..i], [chunks[i]]);
    assert Flatten([chunks[i]]) == chunks[i] + Flatten([chunks[i]][1..]) == chunks[i];
  }
}
