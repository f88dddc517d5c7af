/** The nonces of the dnsdist console protocol: 24 bytes, of which the first four count messages. */
module Nonces {

  type Byte = b: int | 0 <= b < 256

  const NONCE_LEN := 24
  const HALF_NONCE := 12
  const UINT32: nat := 0x1_0000_0000

  type Nonce = n: seq<Byte> | |n| == NONCE_LEN witness seq(NONCE_LEN, _ => 0)

  /** `binary.BigEndian.Uint32` and `PutUint32`, the latter with Go's conversion to 32 bits. */
  function Uint32(b: seq<Byte>): (v: nat)
    requires |b| == 4
    ensures v < UINT32
  {
    var b0: int, b1: int, b2: int, b3: int := b[0], b[1], b[2], b[3];
    b0 * 0x100_0000 + b1 * 0x1_0000 + b2 * 0x100 + b3
  }

  function PutUint32(v: nat): (b: seq<Byte>)
    ensures |b| == 4
  {
    [v / 0x100_0000 % 256, v / 0x1_0000 % 256, v / 0x100 % 256, v % 256]
  }

  /** Reading back what was put gives the number modulo 2^32. */
  lemma PutThenGet(v: nat)
    ensures Uint32(PutUint32(v)) == v % UINT32
  {
    var v1, v2, v3 := v / 0x100, v / 0x1_0000, v / 0x100_0000;
    assert v2 == v1 / 256 && v3 == v2 / 256;
    var v4 := v3 / 256;
    assert v == v4 * UINT32 + (v3 % 256 * 0x100_0000 + v2 % 256 * 0x1_0000 + v1 % 256 * 0x100 + v % 256);
  }

  lemma GetThenPut(b: seq<Byte>)
    requires |b| == 4
    ensures PutUint32(Uint32(b)) == b
  {
    var v: int := Uint32(b);
    var b0: int, b1: int, b2: int, b3: int := b[0], b[1], b[2], b[3];
    assert v / 0x100 == b0 * 0x1_0000 + b1 * 0x100 + b2;
    assert v / 0x1_0000 == b0 * 0x100 + b1;
    assert v / 0x100_0000 == b0;
  }

  // ---------- Counting ----------

  function Counter(n: Nonce): (v: nat)
    ensures v < UINT32
  {
    Uint32(n[..4])
  }

  /** The value of a nonce after one `incrementNonce`, and after `k` of them. */
  function Incremented(n: Nonce): Nonce {
    PutUint32((Counter(n) + 1) % UINT32) + n[4..]
  }

  function After(n: Nonce, k: nat): Nonce {
    if k == 0 then n else Incremented(After(n, k - 1))
  }

  /** Incrementing, byte by byte: the last of the first four bytes that is not 255 goes up by one, and those of the
      four behind it become 0; all four become 0 when all are 255. No other byte changes. */
  lemma IncrementCarries(n: Nonce, k: nat)
    requires k <= 4 && (k > 0 ==> n[k - 1] < 255) && forall i :: k <= i < 4 ==> n[i] == 255
    ensures forall i :: 0 <= i < 24 ==>
                          Incremented(n)[i] == if k <= i < 4 then 0 else if i == k - 1 then n[i] + 1 else n[i]
  {
    var b: seq<Byte> :=
      seq(4, i requires 0 <= i < 4 => if k <= i < 4 then 0 else if i == k - 1 then n[i] + 1 else n[i]);
    assert n[..4][0] == n[0] && n[..4][1] == n[1] && n[..4][2] == n[2] && n[..4][3] == n[3];
    assert Uint32(b) == (Counter(n) + 1) % UINT32;
    GetThenPut(b);
    hide Uint32, PutUint32, Counter;
    assert Incremented(n) == b + n[4..];
  }

  method IncrementNonce(nonce: array<Byte>)
    requires nonce.Length == NONCE_LEN
    modifies nonce
    ensures nonce[..] == Incremented(old(nonce[..]))
  {
    var value := Uint32(nonce[..4]);
    assert nonce[..4] == nonce[..][..4];
    value := (value + 1) % UINT32;
    var bytes := PutUint32(value);
    nonce[0], nonce[1], nonce[2], nonce[3] := bytes[0], bytes[1], bytes[2], bytes[3];
    assert nonce[..] == bytes + old(nonce[..])[4..];
  }

  lemma IncrementCounts(n: Nonce)
    ensures Counter(Incremented(n)) == (Counter(n) + 1) % UINT32
    ensures Incremented(n)[4..] == n[4..]
  {
    var v := (Counter(n) + 1) % UINT32;
    PutThenGet(v);
    assert Incremented(n)[..4] == PutUint32(v);
  }

  lemma ResidueOfNext(a: nat)
    ensures (a % UINT32 + 1) % UINT32 == (a + 1) % UINT32
  {
  }

  lemma {:induction false} AfterCounts(n: Nonce, k: nat)
    ensures Counter(After(n, k)) == (Counter(n) + k) % UINT32
    ensures After(n, k)[4..] == n[4..]
  {
    hide Counter, Incremented;
    if k > 0 {
      AfterCounts(n, k - 1);
      IncrementCounts(After(n, k - 1));
      ResidueOfNext(Counter(n) + k - 1);
    }
  }

  lemma NonceIsCounterAndRest(a: Nonce, b: Nonce)
    ensures a == b <==> Counter(a) == Counter(b) && a[4..] == b[4..]
  {
    if Counter(a) == Counter(b) && a[4..] == b[4..] {
      GetThenPut(a[..4]);
      GetThenPut(b[..4]);
      assert a == a[..4] + a[4..] && b == b[..4] + b[4..];
    }
  }

  /** A direction repeats a nonce exactly when a multiple of 2^32 messages lie between. */
  lemma NonceRepeatsIff(n: Nonce, i: nat, j: nat)
    requires i <= j
    ensures After(n, i) == After(n, j) <==> (j - i) % UINT32 == 0
  {
    hide Counter;
    AfterCounts(n, i);
    AfterCounts(n, j);
    NonceIsCounterAndRest(After(n, i), After(n, j));
    EqualResidues(Counter(n) + i, Counter(n) + j);
  }

  lemma EqualResidues(a: nat, b: nat)
    requires a <= b
    ensures a % UINT32 == b % UINT32 <==> (b - a) % UINT32 == 0
  {
    var q, r := a / UINT32, b / UINT32;
    assert b - a == (r - q) * UINT32 + (b % UINT32 - a % UINT32);
  }

  // ---------- The two directions of a session ----------

  /** The nonces set up from what client and server presented. */
  function Halves(first: Nonce, second: Nonce): Nonce {
    first[..HALF_NONCE] + second[HALF_NONCE..]
  }

  function ToServer(cNonce: Nonce, sNonce: Nonce): Nonce {
    Halves(sNonce, cNonce)
  }

  function ToClient(cNonce: Nonce, sNonce: Nonce): Nonce {
    Halves(cNonce, sNonce)
  }

  lemma RestsAgreeIff(cNonce: Nonce, sNonce: Nonce)
    ensures ToServer(cNonce, sNonce)[4..] == ToClient(cNonce, sNonce)[4..] <==> cNonce[4..] == sNonce[4..]
  {
    var up, down := ToServer(cNonce, sNonce), ToClient(cNonce, sNonce);
    assert forall k :: 4 <= k < NONCE_LEN ==> up[k] == if k < HALF_NONCE then sNonce[k] else cNonce[k];
    assert forall k :: 4 <= k < NONCE_LEN ==> down[k] == if k < HALF_NONCE then cNonce[k] else sNonce[k];
    if up[4..] == down[4..] {
      forall k | 4 <= k < NONCE_LEN ensures cNonce[k] == sNonce[k] {
        assert up[4..][k - 4] == down[4..][k - 4];
      }
    }
    if cNonce[4..] == sNonce[4..] {
      forall k | 4 <= k < NONCE_LEN ensures up[k] == down[k] {
        assert cNonce[4..][k - 4] == sNonce[4..][k - 4];
      }
    }
  }

  /** How many messages take one counter to another. */
  lemma CounterReaches(a: nat, b: nat) returns (i: nat)
    requires a < UINT32 && b < UINT32
    ensures (a + i) % UINT32 == b
  {
    i := if a <= b then b - a else b + UINT32 - a;
  }

  /** The two directions, which share a key, ever use a common nonce exactly when client and server
      presented nonces that agree behind the counter. */
  lemma DirectionsMeetIff(cNonce: Nonce, sNonce: Nonce)
    ensures (exists i: nat, j: nat :: After(ToServer(cNonce, sNonce), i) == After(ToClient(cNonce, sNonce), j))
       <==> cNonce[4..] == sNonce[4..]
  {
    var up, down := ToServer(cNonce, sNonce), ToClient(cNonce, sNonce);
    RestsAgreeIff(cNonce, sNonce);
    hide Counter, Incremented, ToServer, ToClient;
    if cNonce[4..] == sNonce[4..] {
      var i := CounterReaches(Counter(up), Counter(down));
      AfterCounts(up, i);
      AfterCounts(down, 0);
      NonceIsCounterAndRest(After(up, i), After(down, 0));
    } else {
      forall i: nat, j: nat ensures After(up, i) != After(down, j) {
        AfterCounts(up, i);
        AfterCounts(down, j);
      }
    }
  }

  /** In a session of `n` commands, each direction seals `n + 1` messages. No nonce repeats within a direction
      exactly when there are at most 2^32 of them, and none is common to both when client and server
      presented nonces that differ behind the counter. */
  lemma SessionNonces(cNonce: Nonce, sNonce: Nonce, n: nat)
    ensures var up, down := ToServer(cNonce, sNonce), ToClient(cNonce, sNonce);
            && ((forall i: nat, j: nat :: i < j <= n ==> After(up, i) != After(up, j)) <==> n < UINT32)
            && ((forall i: nat, j: nat :: i < j <= n ==> After(down, i) != After(down, j)) <==> n < UINT32)
            && (cNonce[4..] != sNonce[4..] ==> forall i: nat, j: nat :: After(up, i) != After(down, j))
  {
    var up, down := ToServer(cNonce, sNonce), ToClient(cNonce, sNonce);
    hide ToServer, ToClient, After;
    NoRepetitionIff(up, n);
    NoRepetitionIff(down, n);
    DirectionsMeetIff(cNonce, sNonce);
  }

  lemma NoRepetitionIff(first: Nonce, n: nat)
    ensures (forall i: nat, j: nat :: i < j <= n ==> After(first, i) != After(first, j)) <==> n < UINT32
  {
    hide After;
    if n < UINT32 {
      forall i: nat, j: nat | i < j <= n ensures After(first, i) != After(first, j) {
        NonceRepeatsIff(first, i, j);
      }
    } else {
      NonceRepeatsIff(first, 0, UINT32);
    }
  }
}
