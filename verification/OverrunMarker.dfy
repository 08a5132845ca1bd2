/** The overrun detector of the checking hooks: a chain of distance bytes that leads from the last
    usable byte of a block back to a magic byte right behind the bytes the client asked for. */
module OverrunMarker {
  import opened Sizes
  import opened IntMalloc

  // Offsets are counted from the start of the user memory. The last usable byte of a chunk of
  // size bytes: a mapped chunk has no next chunk whose prev_size it could use.
  function LastByte(g: int, size: int, mapped: bool): int { if mapped then size - (2 * (g / 2) + 1) else size - (g / 2 + 1) }

  // User memory starts after two words of the chunk. The byte after the last is in the size word of the next
  // chunk, or behind the mapping.
  lemma LastByteIs(g: int, size: int)
    requires IsGrain(g)
    ensures 2 * (g / 2) + LastByte(g, size, false) + 1 == size + g / 2
    ensures 2 * (g / 2) + LastByte(g, size, true) + 1 == size
  {
  }

  // The chunk that malloc_check asks for, one byte more than the client, has room for the marker.
  lemma RoomForMarker(g: int, sz: int, size: int)
    requires IsGrain(g) && sz >= 0 && size >= Bytes(g, Request(g, sz + 1))
    ensures 0 <= sz <= LastByte(g, size, false)
    ensures 0 <= sz <= LastByte(g, size + g / 2, true)
  {
    RequestIs(g, sz + 1);
  }

  // The chain from offset i to the magic byte at sz.
  ghost predicate Chain(m: seq<int>, i: int, sz: int, magic: int)
    requires 0 <= sz <= i < |m|
    decreases i
  {
    if i == sz then m[i] == magic
    else if i - sz < 0x100 then m[i] == i - sz && m[sz] == magic
    else m[i] == 0xFF && Chain(m, i - 0xFF, sz, magic)
  }

  // The links from i down to but not including j are written.
  ghost predicate Links(m: seq<int>, i: int, j: int, sz: int)
    requires 0 <= sz <= j <= i < |m|
    decreases i
  { i == j || (i - sz >= 0x100 && i - 0xFF >= j && m[i] == 0xFF && Links(m, i - 0xFF, j, sz)) }

  lemma {:induction false} LinksMore(m: seq<int>, n: seq<int>, i: int, j: int, sz: int)
    requires 0 <= sz <= j <= i < |m| && Links(m, i, j, sz) && j - sz >= 0x100 && n == m[j := 0xFF]
    ensures Links(n, i, j - 0xFF, sz)
    decreases i
  {
    if i > j { LinksMore(m, n, i - 0xFF, j, sz); }
  }

  lemma {:induction false} LinksChain(m: seq<int>, i: int, j: int, sz: int, magic: int)
    requires 0 <= sz <= j <= i < |m| && Links(m, i, j, sz) && Chain(m, j, sz, magic)
    ensures Chain(m, i, sz, magic)
    decreases i
  {
    if i > j { LinksChain(m, i - 0xFF, j, sz, magic); }
  }

  lemma {:induction false} LinksFrame(m: seq<int>, n: seq<int>, i: int, j: int, sz: int)
    requires 0 <= sz <= j <= i < |m| && |n| == |m| && Links(m, i, j, sz) && forall k :: j < k <= i ==> n[k] == m[k]
    ensures Links(n, i, j, sz)
    decreases i
  {
    if i > j { LinksFrame(m, n, i - 0xFF, j, sz); }
  }

  // mem2mem_check
  method Mark(m: array<int>, last: int, sz: int, magic: int)
    requires 0 <= sz <= last < m.Length
    modifies m
    ensures Chain(m[..], last, sz, magic)
    ensures forall k :: 0 <= k < m.Length && (k < sz || k > last) ==> m[k] == old(m[k])
  {
    var i := last;
    var done := false;
    while i > sz && !done
      invariant sz <= i <= last && Links(m[..], last, i, sz)
      invariant done ==> 0 < i - sz < 0x100 && m[i] == i - sz
      invariant forall k :: 0 <= k < m.Length && (k <= sz || k > last) ==> m[k] == old(m[k])
      decreases i, !done
    {
      ghost var was := m[..];
      if i - sz < 0x100 {
        m[i] := i - sz;
        LinksFrame(was, m[..], last, i, sz);
        done := true;
      } else {
        m[i] := 0xFF;
        LinksMore(was, m[..], last, i, sz);
        i := i - 0xFF;
      }
    }
    ghost var was := m[..];
    m[sz] := magic;
    LinksFrame(was, m[..], last, i, sz);
    LinksChain(m[..], last, i, sz, magic);
  }

  // Where the walk back over the chain meets the magic byte first.
  function StopAt(i: int, sz: int, magic: int): (at: int)
    requires 0 <= sz <= i
    ensures sz <= at <= i
    decreases i
  {
    if i == sz then sz
    else if i - sz < 0x100 then (if magic == i - sz then i else sz)
    else if magic == 0xFF then i
    else StopAt(i - 0xFF, sz, magic)
  }

  function Flipped(c: int): int
    requires 0 <= c <= 0xFF
  { ((c as bv8) ^ 0xFF) as int }

  lemma ChainValue(m: seq<int>, i: int, sz: int, magic: int)
    requires 0 <= sz < i < |m| && Chain(m, i, sz, magic)
    ensures 0 < m[i] <= 0xFF && m[i] <= i - sz && Chain(m, i - m[i], sz, magic)
    ensures m[i] != magic ==> StopAt(i, sz, magic) == StopAt(i - m[i], sz, magic)
    ensures m[i] == magic ==> StopAt(i, sz, magic) == i
  {
  }

  // Where the walk of mem2chunk_check ends, over any bytes: at the magic byte, or nowhere, for -1.
  function Walk(m: seq<int>, i: int, magic: int): (at: int)
    requires 0 <= i < |m|
    ensures at == -1 || (0 <= at <= i && m[at] == magic)
    decreases i
  { if m[i] == magic then i else if m[i] <= 0 || i < m[i] then -1 else Walk(m, i - m[i], magic) }

  // Over a chain it ends, and accepts.
  lemma {:induction false} WalkIs(m: seq<int>, i: int, sz: int, magic: int)
    requires 0 <= sz <= i < |m| && Chain(m, i, sz, magic)
    ensures Walk(m, i, magic) == StopAt(i, sz, magic)
    decreases i
  {
    if i > sz {
      ChainValue(m, i, sz, magic);
      if m[i] != magic { WalkIs(m, i - m[i], sz, magic); }
    }
  }

  lemma {:induction false} WalkTo(m: seq<int>, i: int, sz: int, magic: int, v: int)
    requires 0 <= sz <= i < |m| && Chain(m, i, sz, magic) && StopAt(i, sz, magic) == sz
    ensures Walk(m[sz := v], i, magic) == Walk(m[sz := v], sz, magic)
    decreases i
  {
    if i > sz {
      ChainValue(m, i, sz, magic);
      WalkTo(m, i - m[i], sz, magic, v);
    }
  }

  // The byte behind the client's data has been overwritten: this is found out exactly if the walk that goes on
  // from there through the client's own bytes meets no magic byte, so always if the byte is 0 or more than sz.
  lemma OverrunFound(m: seq<int>, i: int, sz: int, magic: int, v: int)
    requires 0 <= sz <= i < |m| && Chain(m, i, sz, magic) && StopAt(i, sz, magic) == sz && v != magic
    ensures Walk(m[sz := v], i, magic) == -1 <==> v <= 0 || v > sz || Walk(m, sz - v, magic) == -1
  {
    WalkTo(m, i, sz, magic, v);
    if 0 < v <= sz { WalkBelow(m, sz - v, sz, magic, v); }
  }

  lemma {:induction false} WalkBelow(m: seq<int>, i: int, sz: int, magic: int, v: int)
    requires 0 <= i < sz < |m|
    ensures Walk(m[sz := v], i, magic) == Walk(m, i, magic)
    decreases i
  {
    if m[i] != magic && 0 < m[i] <= i { WalkBelow(m, i - m[i], sz, magic, v); }
  }

  // mem2chunk_check, after the tests on the chunk itself: walk the chain and flip what it ends at.
  // The result is the offset of that byte, or -1 for an invalid pointer.
  method Unmark(m: array<int>, last: int, magic: int) returns (at: int)
    requires 0 <= last < m.Length && 0 <= magic <= 0xFF
    modifies m
    ensures at == Walk(old(m[..]), last, magic)
    ensures m[..] == if at == -1 then old(m[..]) else old(m[..])[at := Flipped(magic)]
  {
    at := last;
    while m[at] != magic
      invariant 0 <= at <= last && m[..] == old(m[..]) && Walk(m[..], last, magic) == Walk(m[..], at, magic)
      decreases at
    {
      var c := m[at];
      if c <= 0 || at < c { return -1; }
      at := at - c;
    }
    m[at] := Flipped(m[at]);
  }

  // The byte flipped is the one at the requested size exactly when the magic byte is neither the
  // last distance of the chain nor, if there is more than one, the distance 0xFF.
  lemma {:induction false} FlipsRequested(i: int, sz: int, magic: int)
    requires 0 <= sz <= i
    ensures StopAt(i, sz, magic) == sz <==> i == sz || (magic != (i - sz - 1) % 0xFF + 1 && (i - sz > 0xFF ==> magic != 0xFF))
    decreases i
  {
    if i - sz >= 0x100 {
      FlipsRequested(i - 0xFF, sz, magic);
      assert (i - 0xFF - sz - 1) % 0xFF == (i - sz - 1) % 0xFF;
      if magic == 0xFF { assert StopAt(i, sz, magic) == i; }
    }
  }

  // The marker round trip: whatever the chunk and the size asked for, the walk accepts, and
  // nothing but one byte behind the client's data changes.
  method RoundTrip(m: array<int>, g: int, size: int, mapped: bool, sz: int, magic: int) returns (at: int)
    requires IsGrain(g) && m.Length == LastByte(g, size, mapped) + 1 && 0 <= sz < m.Length && 0 <= magic <= 0xFF
    modifies m
    ensures sz <= at < m.Length && forall k :: 0 <= k < sz ==> m[k] == old(m[k])
    ensures at == sz <==>
      || LastByte(g, size, mapped) == sz
      || (magic != (LastByte(g, size, mapped) - sz - 1) % 0xFF + 1 && (LastByte(g, size, mapped) - sz > 0xFF ==> magic != 0xFF))
  {
    var last := LastByte(g, size, mapped);
    Mark(m, last, sz, magic);
    WalkIs(m[..], last, sz, magic);
    at := Unmark(m, last, magic);
    FlipsRequested(last, sz, magic);
  }
}
