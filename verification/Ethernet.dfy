/** Scatter and gather between pbuf chains and the DMA descriptor ring (drv_eth.c). */
module Ethernet {
  type Byte = b: int | 0 <= b < 256
  type Bytes = seq<Byte>

  /** ETH_TX_BUF_SIZE and ETH_RX_BUF_SIZE: ETH_MAX_PACKET_SIZE. */
  const BUF_SIZE := 1524

  function Flatten(chain: seq<Bytes>): Bytes {
    if chain == [] then [] else Flatten(chain[..|chain| - 1]) + chain[|chain| - 1]
  }

  lemma {:induction false} FlattenPrefix(chain: seq<Bytes>, q: nat)
    requires q <= |chain|
    ensures |Flatten(chain[..q])| <= |Flatten(chain)|
  {
    if q < |chain| {
      FlattenPrefix(chain[..|chain| - 1], q);
      assert chain[..|chain| - 1][..q] == chain[..q];
    } else {
      assert chain[..q] == chain;
    }
  }

  function Sum(lens: seq<nat>): nat {
    if lens == [] then 0 else Sum(lens[..|lens| - 1]) + lens[|lens| - 1]
  }

  /** The descriptor behind `d` in a ring of `n`. */
  function Next(n: nat, d: nat): nat { if d + 1 >= n then 0 else d + 1 }

  /** The k-th descriptor from `first`. */
  function At(n: nat, first: nat, k: nat): (d: nat)
    requires first < n
    ensures d < n
  {
    if k == 0 then first else Next(n, At(n, first, k - 1))
  }

  lemma {:induction false} AtIs(n: nat, first: nat, k: nat)
    requires first < n && k < n
    ensures At(n, first, k) == if first + k < n then first + k else first + k - n
  {
    if k > 0 { AtIs(n, first, k - 1); }
  }

  /** Within one turn of the ring all descriptors are different. */
  lemma AtApart(n: nat, first: nat, i: nat, j: nat)
    requires first < n && i < j < n
    ensures At(n, first, i) != At(n, first, j)
  {
    AtIs(n, first, i);
    AtIs(n, first, j);
  }

  /** Every buffer has BUF_SIZE bytes. */
  ghost predicate Sized(bufs: seq<Bytes>) {
    forall i :: 0 <= i < |bufs| ==> |bufs[i]| == BUF_SIZE
  }

  /** The bytes of the first `k` buffers from `first`. */
  ghost function Full(bufs: seq<Bytes>, first: nat, k: nat): (s: Bytes)
    requires first < |bufs| && Sized(bufs)
    ensures |s| == k * BUF_SIZE
  {
    if k == 0 then [] else Full(bufs, first, k - 1) + bufs[At(|bufs|, first, k - 1)]
  }

  /** ... followed by `off` bytes of the next one. */
  ghost function Stream(bufs: seq<Bytes>, first: nat, k: nat, off: nat): (s: Bytes)
    requires first < |bufs| && Sized(bufs) && off <= BUF_SIZE
    ensures |s| == k * BUF_SIZE + off
  {
    Full(bufs, first, k) + bufs[At(|bufs|, first, k)][..off]
  }

  /** Writing one buffer leaves the buffers before it alone, as long as the ring has not come round. */
  lemma {:induction false} FullKept(bufs: seq<Bytes>, first: nat, k: nat, j: nat, b: Bytes)
    requires first < |bufs| && Sized(bufs) && k <= j < |bufs| && |b| == BUF_SIZE
    ensures Full(bufs[At(|bufs|, first, j) := b], first, k) == Full(bufs, first, k)
  {
    if k > 0 {
      FullKept(bufs, first, k - 1, j, b);
      AtApart(|bufs|, first, k - 1, j);
    }
  }

  lemma StreamExtend(bufs: seq<Bytes>, first: nat, k: nat, off: nat, m: nat)
    requires first < |bufs| && Sized(bufs) && off + m <= BUF_SIZE
    ensures Stream(bufs, first, k, off + m) == Stream(bufs, first, k, off) + bufs[At(|bufs|, first, k)][off..off + m]
  {
    var b := bufs[At(|bufs|, first, k)];
    assert b[..off + m] == b[..off] + b[off..off + m];
  }

  /** SMEMCPY into a buffer. */
  function Put(buf: Bytes, off: nat, data: Bytes): (r: Bytes)
    requires off + |data| <= |buf|
    ensures |r| == |buf| && r[..off + |data|] == buf[..off] + data
  {
    buf[..off] + data + buf[off + |data|..]
  }

  /** A stream is determined by its length, however the boundary is counted. */
  lemma StreamByLength(bufs: seq<Bytes>, first: nat, k: nat, off: nat, k': nat, off': nat)
    requires first < |bufs| && Sized(bufs) && off <= BUF_SIZE && off' <= BUF_SIZE
    requires k * BUF_SIZE + off == k' * BUF_SIZE + off'
    ensures Stream(bufs, first, k, off) == Stream(bufs, first, k', off')
  {
    if k < k' {
      assert k' == k + 1 && off == BUF_SIZE && off' == 0;
      assert bufs[At(|bufs|, first, k)][..off] == bufs[At(|bufs|, first, k)];
    } else if k' < k {
      assert k == k' + 1 && off' == BUF_SIZE && off == 0;
      assert bufs[At(|bufs|, first, k')][..off'] == bufs[At(|bufs|, first, k')];
    }
  }

  class Ring {
    const n: nat
    const bufs: array<Bytes>
    const own: array<bool>       // ETH_DMATXDESC_OWN: the descriptor belongs to the DMA

    ghost predicate Valid()
      reads this, bufs
    {
      n > 0 && bufs.Length == own.Length == n && Sized(bufs[..])
    }

    constructor (n: nat)
      requires n > 0
      ensures Valid() && fresh(bufs) && fresh(own) && this.n == n
    {
      this.n := n;
      bufs := new Bytes[n](_ => seq(BUF_SIZE, _ => 0));
      own := new bool[n](_ => false);
    }

    /** Copy into the descriptor `d`, the k-th from `first`. */
    method CopyIn(d: nat, off: nat, data: Bytes, ghost first: nat, ghost k: nat)
      requires Valid() && d < n && off + |data| <= BUF_SIZE && first < n
      modifies bufs
      ensures Valid()
      ensures k < n && d == At(n, first, k) ==>
                Stream(bufs[..], first, k, off + |data|) == old(Stream(bufs[..], first, k, off)) + data
    {
      ghost var b := bufs[..];
      bufs[d] := Put(bufs[d], off, data);
      assert bufs[..] == b[d := Put(b[d], off, data)];
      if k < n && d == At(n, first, k) { FullKept(b, first, k, k, Put(b[d], off, data)); }
    }

    /** What has been written so far: `data`, ending `off` bytes into the k-th descriptor. */
    ghost predicate Written(first: nat, k: nat, d: nat, off: nat, data: Bytes)
      reads this, bufs
    {
      && Valid() && first < n && d == At(n, first, k) && off <= BUF_SIZE
      && |data| == k * BUF_SIZE + off
      && (k < n ==> Stream(bufs[..], first, k, off) == data)
    }

    /** The descriptors up to the k-th from `first` are ours. */
    ghost predicate Mine(first: nat, k: nat)
      requires first < n == own.Length
      reads own
    {
      forall j :: 0 <= j <= k ==> !own[At(n, first, j)]
    }

    /** The descriptors a chain needs: the first for any chain, the others for its bytes. */
    ghost predicate Clear(chain: seq<Bytes>, first: nat)
      requires first < n == own.Length
      reads own
    {
      forall j: nat :: (j == 0 && chain != []) || j * BUF_SIZE < |Flatten(chain)| ==> !own[At(n, first, j)]
    }

    method Append(d: nat, off: nat, chunk: Bytes, ghost first: nat, ghost k: nat, ghost data: Bytes)
      requires Written(first, k, d, off, data) && off + |chunk| <= BUF_SIZE
      modifies bufs
      ensures Written(first, k, d, off + |chunk|, data + chunk)
    {
      CopyIn(d, off, chunk, first, k);
    }

    method CopyPart(payload: Bytes, from: nat, size: nat, d: nat, off: nat, ghost first: nat, ghost k: nat, ghost data: Bytes)
      requires from + size <= |payload| && off + size <= BUF_SIZE
      requires Written(first, k, d, off, data + payload[..from])
      modifies bufs
      ensures Written(first, k, d, off + size, data + payload[..from + size])
    {
      ghost var now := data + payload[..from];
      Append(d, off, payload[from..from + size], first, k, now);
      assert now + payload[from..from + size] == data + payload[..from + size];
    }

    /** The buffer is full: go on to the next descriptor, if it is ours. */
    method Advance(d: nat, ghost first: nat, ghost k: nat, ghost data: Bytes) returns (ok: bool, d': nat)
      requires Written(first, k, d, BUF_SIZE, data) && Mine(first, k)
      ensures ok ==> Written(first, k + 1, d', 0, data) && Mine(first, k + 1)
      ensures !ok ==> own[At(n, first, k + 1)]
    {
      d' := Next(n, d);
      ok := !own[d'];
      if k + 1 < n { StreamByLength(bufs[..], first, k, BUF_SIZE, k + 1, 0); }
    }

    /** The inner loop of `rt_stm32_eth_tx` and the copy behind it: one pbuf into the ring. */
    method CopyPbuf(payload: Bytes, d0: nat, off0: nat, ghost first: nat, ghost k0: nat, ghost data: Bytes)
      returns (ok: bool, d: nat, off: nat, copied: nat, ghost k: nat)
      requires Written(first, k0, d0, off0, data) && Mine(first, k0)
      modifies bufs
      ensures Valid()
      ensures ok ==> Written(first, k, d, off, data + payload) && copied == |payload| && Mine(first, k)
      ensures ok ==> k0 <= k && if k == k0 then off >= off0 else off > 0
      ensures !ok ==> own[At(n, first, k + 1)] && (k + 1) * BUF_SIZE < |data| + |payload|
    {
      var left: nat, from: nat := |payload|, 0;
      d, off, k, copied := d0, off0, k0, 0;
      assert data + payload[..0] == data;
      while left + off > BUF_SIZE
        invariant left + from == |payload| && copied == from && k0 <= k
        invariant Written(first, k, d, off, data + payload[..from]) && Mine(first, k)
        invariant if k == k0 then off == off0 else left > 0
        decreases left, off
      {
        var room := BUF_SIZE - off;
        CopyPart(payload, from, room, d, off, first, k, data);
        ok, d := Advance(d, first, k, data + payload[..from + room]);
        if !ok {
          return;
        }
        left := left - room;
        from := from + room;
        copied := copied + room;
        off := 0;
        k := k + 1;
      }
      CopyPart(payload, from, left, d, off, first, k, data);
      assert payload[..from + left] == payload;
      off := off + left;
      copied := copied + left;
      ok := true;
    }

    /** The copy loops of `rt_stm32_eth_tx`, from descriptor `first`. If the frame fits the ring, the
        descriptor buffers hold the bytes of the chain, in order. It fails if and only if a descriptor it
        needs belongs to the DMA. */
    method Transmit(chain: seq<Bytes>, first: nat) returns (ok: bool, framelength: nat, ghost k: nat, ghost off: nat)
      requires Valid() && first < n
      modifies bufs
      ensures Valid()
      ensures ok <==> Clear(chain, first)
      ensures ok ==> framelength == |Flatten(chain)| == k * BUF_SIZE + off && off <= BUF_SIZE
      ensures ok && |Flatten(chain)| <= n * BUF_SIZE ==> k < n && Stream(bufs[..], first, k, off) == Flatten(chain)
    {
      var d, bufferoffset, q := first, 0, 0;
      framelength, k := 0, 0;
      off := 0;
      while q < |chain|
        invariant 0 <= q <= |chain|
        invariant Written(first, k, d, bufferoffset, Flatten(chain[..q]))
        invariant framelength == |Flatten(chain[..q])| && (k == 0 || bufferoffset > 0)
        invariant q > 0 ==> Mine(first, k)
      {
        if own[d] {
          ok := false;
          return;
        }
        assert chain[..q + 1][..q] == chain[..q];
        var copied;
        ok, d, bufferoffset, copied, k := CopyPbuf(chain[q], d, bufferoffset, first, k, Flatten(chain[..q]));
        if !ok {
          FlattenPrefix(chain, q + 1);
          return;
        }
        framelength := framelength + copied;
        q := q + 1;
      }
      assert chain[..q] == chain;
      off := bufferoffset;
      ok := true;
    }

    /** What has been read so far: `data`, ending `off` bytes into the k-th descriptor. */
    ghost predicate Read(first: nat, k: nat, d: nat, off: nat, data: Bytes)
      reads this, bufs
    {
      && Valid() && first < n && d == At(n, first, k) && off <= BUF_SIZE
      && data == Stream(bufs[..], first, k, off)
    }

    /** The inner loop of `rt_stm32_eth_rx` and the copy behind it: fill one pbuf of `len` bytes. */
    method FillPbuf(len: nat, d0: nat, off0: nat, ghost first: nat, ghost k0: nat, ghost data: Bytes)
      returns (payload: Bytes, d: nat, off: nat, ghost k: nat)
      requires Read(first, k0, d0, off0, data)
      ensures Read(first, k, d, off, data + payload) && |payload| == len
    {
      var left: nat := len;
      payload, d, off, k := [], d0, off0, k0;
      while left + off > BUF_SIZE
        invariant left + |payload| == len
        invariant Read(first, k, d, off, data + payload)
        decreases left, off
      {
        var room := BUF_SIZE - off;
        StreamExtend(bufs[..], first, k, off, room);
        assert data + (payload + bufs[d][off..off + room]) == data + payload + bufs[d][off..off + room];
        payload := payload + bufs[d][off..off + room];
        StreamByLength(bufs[..], first, k, BUF_SIZE, k + 1, 0);
        d := Next(n, d);
        left := left - room;
        off := 0;
        k := k + 1;
      }
      StreamExtend(bufs[..], first, k, off, left);
      assert data + (payload + bufs[d][off..off + left]) == data + payload + bufs[d][off..off + left];
      payload := payload + bufs[d][off..off + left];
      off := off + left;
    }

    /** The copy loops of `rt_stm32_eth_rx` into a pbuf chain with the lengths `lens`: the chain receives
        the buffers' bytes in order. */
    method Receive(lens: seq<nat>, first: nat) returns (chain: seq<Bytes>, ghost k: nat, ghost off: nat)
      requires Valid() && first < n
      ensures |chain| == |lens| && forall i :: 0 <= i < |lens| ==> |chain[i]| == lens[i]
      ensures Sum(lens) == k * BUF_SIZE + off && off <= BUF_SIZE
      ensures Valid() && Flatten(chain) == Stream(bufs[..], first, k, off)
    {
      var d, bufferoffset, q := first, 0, 0;
      chain, k := [], 0;
      while q < |lens|
        invariant 0 <= q <= |lens| && |chain| == q && forall i :: 0 <= i < q ==> |chain[i]| == lens[i]
        invariant Read(first, k, d, bufferoffset, Flatten(chain))
        invariant Sum(lens[..q]) == |Flatten(chain)|
      {
        assert lens[..q + 1][..q] == lens[..q];
        ghost var before := chain;
        var payload;
        payload, d, bufferoffset, k := FillPbuf(lens[q], d, bufferoffset, first, k, Flatten(chain));
        chain := chain + [payload];
        assert chain[..|chain| - 1] == before;
        q := q + 1;
      }
      assert lens[..q] == lens;
      off := bufferoffset;
    }

    /** Give the descriptors of the received frame back to the DMA. */
    method ReleaseSegments(first: nat, count: nat)
      requires Valid() && first < n && count <= n
      modifies own
      ensures forall k :: 0 <= k < count ==> own[At(n, first, k)]
      ensures forall d :: 0 <= d < n && (forall k :: 0 <= k < count ==> d != At(n, first, k)) ==> own[d] == old(own[d])
    {
      var d, i := first, 0;
      while i < count
        invariant 0 <= i <= count && d == At(n, first, i)
        invariant forall k :: 0 <= k < i ==> own[At(n, first, k)]
        invariant forall d' :: 0 <= d' < n && (forall k :: 0 <= k < i ==> d' != At(n, first, k)) ==> own[d'] == old(own[d'])
      {
        own[d] := true;
        d := Next(n, d);
        i := i + 1;
      }
    }
  }

  /** Receiving what was transmitted, into any chain of the same total length, returns the same bytes. */
  method Loopback(r: Ring, chain: seq<Bytes>, first: nat, lens: seq<nat>) returns (ok: bool, back: seq<Bytes>)
    requires r.Valid() && first < r.n
    requires Sum(lens) == |Flatten(chain)| <= r.n * BUF_SIZE
    modifies r.bufs
    ensures ok ==> |back| == |lens| && Flatten(back) == Flatten(chain)
    ensures ok <==> r.Clear(chain, first)
  {
    var framelength;
    ghost var k, off;
    ok, framelength, k, off := r.Transmit(chain, first);
    back := [];
    if ok {
      ghost var k', off';
      back, k', off' := r.Receive(lens, first);
      StreamByLength(r.bufs[..], first, k, off, k', off');
    }
  }
}
