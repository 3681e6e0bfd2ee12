/**
 How a file is cut into blocks for a vectored read (iouring/liburing.c), what the kernel
 leaves in them, and what the Go callback puts together again (iouring/liburing.go).
 */
module Blocks {
  import opened Streams

  const INITIAL_NUM_BLOCKS := 7

  /** The number of blocks, as it is computed again when the request is popped. */
  function PopCount(size: nat): nat {
    var initial := size / INITIAL_NUM_BLOCKS;
    var total := if initial == 0 then 0 else INITIAL_NUM_BLOCKS;
    if size - initial * total > 0 then total + 1 else total
  }

  /**
   A layout covers the file with nonempty blocks, each a seventh of it except for the last:
   seven if that comes out even, one more for the rest if not, and one for a file of less
   than seven bytes.
   */
  predicate Layout(lens: seq<nat>, size: nat) {
    && Sum(lens) == size
    && |lens| == (if size == 0 then 0 else if size < 7 then 1 else if size % 7 == 0 then 7 else 8)
    && (forall i :: 0 <= i < |lens| ==> 0 < lens[i])
    && (forall i :: 0 <= i < |lens| - 1 ==> lens[i] == size / 7)
  }

  lemma {:induction false} SumConstant(lens: seq<nat>, k: nat)
    requires forall i :: 0 <= i < |lens| ==> lens[i] == k
    ensures Sum(lens) == |lens| * k
  {
    if lens != [] { SumConstant(lens[..|lens| - 1], k); }
  }

  /** The lengths a push gives the blocks. */
  function PushLens(size: nat): seq<nat> {
    var initial := size / INITIAL_NUM_BLOCKS;
    var equal := seq(if initial == 0 then 0 else INITIAL_NUM_BLOCKS, _ => initial);
    var rest := size - initial * |equal|;
    if rest > 0 then equal + [rest] else equal
  }

  /** They are a layout of the file, of as many blocks as popping counts. */
  lemma PushPopAgree(size: nat)
    ensures Layout(PushLens(size), size) && |PushLens(size)| == PopCount(size)
  {
    var initial := size / INITIAL_NUM_BLOCKS;
    assert size - INITIAL_NUM_BLOCKS < initial * INITIAL_NUM_BLOCKS <= size;
    var equal := seq(if initial == 0 then 0 else INITIAL_NUM_BLOCKS, _ => initial);
    var rest := size - initial * |equal|;
    SumConstant(equal, initial);
    hide Sum;
    if rest > 0 {
      SumAppend(equal, rest);
      assert PushLens(size) == equal + [rest];
    } else {
      assert PushLens(size) == equal;
    }
  }

  /** The loop of `push_read_request` that fills in the lengths of the vector. */
  method PushLengths(size: nat) returns (lens: array<nat>)
    ensures fresh(lens) && lens[..] == PushLens(size) && lens.Length == PopCount(size) && Layout(lens[..], size)
  {
    var total := INITIAL_NUM_BLOCKS;
    var initial := size / total;
    var last := initial;
    if initial == 0 {
      total := 0;
    }
    if size - initial * total > 0 {
      last := size - initial * total;
      total := total + 1;
    }
    lens := new nat[total];
    for i := 0 to total
      invariant forall j :: 0 <= j < i ==> lens[j] == if j == total - 1 then last else initial
    {
      var current := initial;
      if i == total - 1 {
        current := last;
      }
      lens[i] := current;
    }
    assert lens[..] == PushLens(size);
    PushPopAgree(size);
  }

  /** The recomputation in `pop_request`. */
  method PopBlocks(size: nat) returns (total: nat)
    ensures total == PopCount(size)
    ensures total == if size == 0 then 0 else if size < 7 then 1 else if size % 7 == 0 then 7 else 8
  {
    total := INITIAL_NUM_BLOCKS;
    var initial := size / total;
    if initial == 0 {
      total := 0;
    }
    if size - initial * total > 0 {
      total := total + 1;
    }
  }

  // ---------------------------------------------------------------- reading into the blocks

  function Concat(bs: seq<seq<byte>>): seq<byte> {
    if bs == [] then [] else Concat(bs[..|bs| - 1]) + bs[|bs| - 1]
  }

  function Lengths(bs: seq<seq<byte>>): seq<nat> {
    seq(|bs|, i requires 0 <= i < |bs| => |bs[i]|)
  }

  /** What a vectored read of `data` leaves in blocks that held `bs`. */
  function Scatter(bs: seq<seq<byte>>, data: seq<byte>): seq<seq<byte>> {
    if bs == [] then []
    else if |data| <= |bs[0]| then [data + bs[0][|data|..]] + bs[1..]
    else [data[..|bs[0]|]] + Scatter(bs[1..], data[|bs[0]|..])
  }

  lemma {:induction false} ConcatFirst(bs: seq<seq<byte>>)
    requires bs != []
    ensures Concat(bs) == bs[0] + Concat(bs[1..])
  {
    if |bs| > 1 {
      ConcatFirst(bs[..|bs| - 1]);
      assert bs[1..][..|bs| - 2] == bs[..|bs| - 1][1..];
    }
  }

  lemma {:induction false} ConcatSize(bs: seq<seq<byte>>)
    ensures |Concat(bs)| == Sum(Lengths(bs))
  {
    if bs != [] {
      ConcatSize(bs[..|bs| - 1]);
      assert Lengths(bs)[..|bs| - 1] == Lengths(bs[..|bs| - 1]);
    }
  }

  lemma {:induction false} ScatterLengths(bs: seq<seq<byte>>, data: seq<byte>)
    ensures Lengths(Scatter(bs, data)) == Lengths(bs)
  {
    if bs != [] {
      assert Lengths(bs) == [|bs[0]|] + Lengths(bs[1..]);
      if |data| > |bs[0]| {
        var rest := Scatter(bs[1..], data[|bs[0]|..]);
        ScatterLengths(bs[1..], data[|bs[0]|..]);
        assert Lengths([data[..|bs[0]|]] + rest) == [|bs[0]|] + Lengths(rest);
      }
    }
  }

  /** Overwriting the beginning of two pieces, within the first or beyond it. */
  lemma Overwrite(data: seq<byte>, first: seq<byte>, rest: seq<byte>)
    ensures |data| <= |first| ==> (data + first[|data|..]) + rest == data + (first + rest)[|data|..]
    ensures |first| < |data| <= |first| + |rest| ==>
              data[..|first|] + (data[|first|..] + rest[|data| - |first|..]) == data + (first + rest)[|data|..]
  {
  }

  /** A read keeps the blocks' lengths and puts the data, in order, in front of what they held. */
  lemma {:induction false} ScatterHolds(bs: seq<seq<byte>>, data: seq<byte>)
    requires |data| <= |Concat(bs)|
    ensures Lengths(Scatter(bs, data)) == Lengths(bs)
    ensures Concat(Scatter(bs, data)) == data + Concat(bs)[|data|..]
  {
    ScatterLengths(bs, data);
    assert |Scatter(bs, data)| == |Lengths(bs)|;
    if bs != [] {
      ConcatFirst(bs);
      ConcatFirst(Scatter(bs, data));
      Overwrite(data, bs[0], Concat(bs[1..]));
      if |data| <= |bs[0]| {
        assert Scatter(bs, data)[1..] == bs[1..];
      } else {
        assert Scatter(bs, data)[1..] == Scatter(bs[1..], data[|bs[0]|..]);
        hide Concat, Lengths;
        ScatterHolds(bs[1..], data[|bs[0]|..]);
      }
    }
  }

  // ---------------------------------------------------------------- fresh blocks

  predicate Fits(bs: seq<seq<byte>>, lens: seq<nat>) { Lengths(bs) == lens }

  /** Memory cut into blocks of the given lengths. */
  function Cut(memory: seq<byte>, lens: seq<nat>): seq<seq<byte>>
    requires Sum(lens) == |memory|
    decreases |lens|
  {
    if lens == [] then [] else
      var k := Sum(lens[..|lens| - 1]);
      Cut(memory[..k], lens[..|lens| - 1]) + [memory[k..]]
  }

  lemma {:induction false} CutFits(memory: seq<byte>, lens: seq<nat>)
    requires Sum(lens) == |memory|
    ensures Fits(Cut(memory, lens), lens) && Concat(Cut(memory, lens)) == memory
    decreases |lens|
  {
    if lens != [] {
      var k := Sum(lens[..|lens| - 1]);
      CutFits(memory[..k], lens[..|lens| - 1]);
      var bs := Cut(memory, lens);
      assert bs[..|bs| - 1] == Cut(memory[..k], lens[..|lens| - 1]);
      assert Lengths(bs) == Lengths(bs[..|bs| - 1]) + [|memory| - k];
      assert memory == memory[..k] + memory[k..];
    }
  }

  /** The same loop's allocations: one block of fresh memory after the other. */
  method AllocateBlocks(memory: seq<byte>) returns (blocks: seq<seq<byte>>)
    ensures Sum(PushLens(|memory|)) == |memory| && blocks == Cut(memory, PushLens(|memory|))
  {
    hide Cut, Sum, PushLens, Layout, PopCount;
    var lens := PushLengths(|memory|);
    ghost var all := lens[..];
    PushSum(|memory|);
    CutNone(memory, all);
    blocks := [];
    var offset := 0;
    for i := 0 to lens.Length
      invariant lens[..] == all && offset == Sum(all[..i]) <= |memory|
      invariant blocks == Cut(memory[..offset], all[..i])
    {
      assert all[..i + 1] == all[..i] + [lens[i]];
      SumAppend(all[..i], lens[i]);
      SumPrefix(all, i + 1);
      CutNext(memory, all, i);
      blocks := blocks + [memory[offset..offset + lens[i]]];
      offset := offset + lens[i];
    }
    assert all[..lens.Length] == all && memory[..offset] == memory;
  }

  lemma PushSum(size: nat)
    ensures Sum(PushLens(size)) == size
  {
    PushPopAgree(size);
  }

  lemma CutNone(memory: seq<byte>, lens: seq<nat>)
    ensures Sum(lens[..0]) == 0 && Cut(memory[..0], lens[..0]) == []
  {
  }

  lemma {:induction false} SumPrefix(lens: seq<nat>, k: nat)
    requires k <= |lens|
    ensures Sum(lens[..k]) <= Sum(lens)
    decreases |lens|
  {
    if k < |lens| {
      assert lens[..|lens| - 1][..k] == lens[..k];
      SumPrefix(lens[..|lens| - 1], k);
    } else {
      assert lens[..k] == lens;
    }
  }

  lemma CutNext(memory: seq<byte>, lens: seq<nat>, i: nat)
    requires i < |lens| && Sum(lens[..i + 1]) <= |memory| && Sum(lens[..i + 1]) == Sum(lens[..i]) + lens[i]
    ensures var a, b := Sum(lens[..i]), Sum(lens[..i + 1]);
            Cut(memory[..b], lens[..i + 1]) == Cut(memory[..a], lens[..i]) + [memory[a..b]]
  {
    var a, b := Sum(lens[..i]), Sum(lens[..i + 1]);
    assert lens[..i + 1][..i] == lens[..i];
    assert memory[..b][..a] == memory[..a] && memory[..b][a..] == memory[a..b];
  }

  /** The loop of `read_callback`. */
  method Gather(bs: seq<seq<byte>>) returns (buf: seq<byte>)
    ensures buf == Concat(bs)
  {
    buf := [];
    for i := 0 to |bs|
      invariant buf == Concat(bs[..i])
    {
      buf := buf + bs[i];
      assert bs[..i + 1][..i] == bs[..i];
    }
    assert bs[..|bs|] == bs;
  }

  /** The caller gets what was read, followed by whatever the fresh blocks held. */
  lemma ReadDelivers(lens: seq<nat>, bs: seq<seq<byte>>, contents: seq<byte>, res: nat)
    requires Layout(lens, |contents|) && Lengths(bs) == lens && res <= |contents|
    ensures |Concat(bs)| == |contents|
    ensures Concat(Scatter(bs, contents[..res])) == contents[..res] + Concat(bs)[res..]
    ensures |Concat(Scatter(bs, contents[..res]))| == |contents|
  {
    ConcatSize(bs);
    ScatterHolds(bs, contents[..res]);
  }

  /** The contents reach the caller, whatever memory held before, exactly when the read was a full one. */
  lemma DeliversExactly(lens: seq<nat>, contents: seq<byte>, res: nat)
    requires Layout(lens, |contents|) && res <= |contents|
    ensures (forall memory: seq<byte> :: |memory| == |contents| ==>
               Concat(Scatter(Cut(memory, lens), contents[..res])) == contents) <==> res == |contents|
  {
    assert Sum(lens) == |contents|;
    hide Layout, Sum;
    if res == |contents| {
      forall memory: seq<byte> | |memory| == |contents|
        ensures Concat(Scatter(Cut(memory, lens), contents[..res])) == contents
      {
        CutFits(memory, lens);
        ReadDelivers(lens, Cut(memory, lens), contents, res);
      }
    } else {
      var b: byte := if contents[res] == 0 then 1 else 0;
      var memory := seq(|contents|, _ => b);
      CutFits(memory, lens);
      ReadDelivers(lens, Cut(memory, lens), contents, res);
      assert Concat(Scatter(Cut(memory, lens), contents[..res]))[res] == b;
    }
  }
}
