/** Small vocabulary shared by every component of the model. */
module Common {
  datatype Option<+T> = None | Some(value: T)

  newtype Byte = x: int | 0 <= x < 256

  function Max(a: int, b: int): int { if a < b then b else a }

  function Min(a: int, b: int): int { if a < b then a else b }

  // -------------------------------------------------------- little endian

  function Pow256(n: nat): nat { if n == 0 then 1 else 256 * Pow256(n - 1) }

  lemma PowersOf256()
    ensures Pow256(4) == 0x1_0000_0000 && Pow256(8) == 0x1_0000_0000_0000_0000
  {
    assert Pow256(2) == 65536 && Pow256(4) == 65536 * 65536 && Pow256(6) == 65536 * Pow256(4);
  }

  /** The number a run of bytes stands for, least significant first. */
  function Little(bytes: seq<Byte>): (r: nat) {
    if bytes == [] then 0 else bytes[0] as int + 256 * Little(bytes[1..])
  }

  /** The `n` low bytes of `v`, least significant first. */
  function Bytes(v: nat, n: nat): (r: seq<Byte>)
    ensures |r| == n
    decreases n
  {
    if n == 0 then [] else [(v % 256) as Byte] + Bytes(v / 256, n - 1)
  }

  lemma {:induction false} LittleBound(bytes: seq<Byte>)
    ensures Little(bytes) < Pow256(|bytes|)
    decreases |bytes|
  {
    if bytes != [] {
      LittleBound(bytes[1..]);
    }
  }

  lemma {:induction false} LittleBytes(v: nat, n: nat)
    requires v < Pow256(n)
    ensures Little(Bytes(v, n)) == v
    decreases n
  {
    if n != 0 {
      LittleBytes(v / 256, n - 1);
      assert Bytes(v, n)[1..] == Bytes(v / 256, n - 1);
    }
  }

  lemma {:induction false} BytesLittle(bytes: seq<Byte>)
    ensures Bytes(Little(bytes), |bytes|) == bytes
    decreases |bytes|
  {
    if bytes != [] {
      BytesLittle(bytes[1..]);
      var low, rest := bytes[0] as int, Little(bytes[1..]);
      assert (low + 256 * rest) % 256 == low && (low + 256 * rest) / 256 == rest;
    }
  }

  // ------------------------------------------------------------- division

  lemma Multiple(d: int, b: nat)
    requires 0 < b
    ensures d >= 0 ==> d * b >= 0
    ensures d >= 1 ==> d * b >= b
    ensures d <= -1 ==> d * b + b <= 0
  {
    if d >= 1 {
      assert (d - 1) * b >= 0;
    } else if d <= -1 {
      assert (d + 1) * b <= 0;
    }
  }

  lemma DivUnique(n: nat, b: nat, q: nat, r: nat)
    requires r < b && n == q * b + r
    ensures n / b == q && n % b == r
  {
    var q', r' := n / b, n % b;
    assert (q' - q) * b == q' * b - q * b == r - r';
    Multiple(q' - q, b);
  }

  // ----------------------------------------------------------- ring buffers

  function Wrapped(i: nat, size: nat): nat { if i < size then i else if i < 2 * size then i - size else 0 }

  /** The items of a ring of slots, from `head` on. */
  function Ring<T>(slots: seq<T>, head: nat, count: nat): (r: seq<T>)
    requires head < |slots| && count <= |slots|
    ensures |r| == count
  {
    seq(count, i requires 0 <= i < count => slots[Wrapped(head + i, |slots|)])
  }

  lemma RingPop<T>(slots: seq<T>, head: nat, count: nat)
    requires head < |slots| && 0 < count <= |slots|
    ensures Ring(slots, Wrapped(head + 1, |slots|), count - 1) == Ring(slots, head, count)[1..]
    ensures Ring(slots, head, count)[0] == slots[head]
  {
    var r, next := Ring(slots, head, count), Wrapped(head + 1, |slots|);
    var popped := Ring(slots, next, count - 1);
    assert r[0] == slots[Wrapped(head + 0, |slots|)];
    forall i | 0 <= i < count - 1 ensures popped[i] == r[1..][i] {
      assert Wrapped(next + i, |slots|) == Wrapped(head + (i + 1), |slots|);
    }
  }

  lemma RingPush<T>(slots: seq<T>, head: nat, count: nat, x: T)
    requires head < |slots| && count < |slots|
    ensures Ring(slots[Wrapped(head + count, |slots|) := x], head, count + 1) == Ring(slots, head, count) + [x]
  {
    var at := Wrapped(head + count, |slots|);
    var r, pushed := Ring(slots, head, count), Ring(slots[at := x], head, count + 1);
    forall i | 0 <= i < count + 1 ensures pushed[i] == (r + [x])[i] {
      assert pushed[i] == slots[at := x][Wrapped(head + i, |slots|)];
    }
  }
}
