/** The bounded window over a command's output: the first and the last `keep` bytes, held
    as the chunks they arrived in. The source's `keep` is 512 KiB and its limit twice that. */
module OutputWindows {

  type byte = b: int | 0 <= b < 256

  function Flat(chunks: seq<seq<byte>>): seq<byte> {
    if chunks == [] then [] else chunks[0] + Flat(chunks[1..])
  }

  lemma {:induction false} FlatAppend(a: seq<seq<byte>>, b: seq<seq<byte>>)
    ensures Flat(a + b) == Flat(a) + Flat(b)
  {
    if a == [] {
      assert a + b == b;
    } else {
      assert (a + b)[0] == a[0] && (a + b)[1..] == a[1..] + b;
      FlatAppend(a[1..], b);
      assert (a[0] + Flat(a[1..])) + Flat(b) == a[0] + (Flat(a[1..]) + Flat(b));
    }
  }

  lemma FlatPair(a: seq<byte>, b: seq<byte>)
    ensures Flat([a, b]) == a + b
  {
    assert Flat([b]) == b;
    assert [a, b][1..] == [b];
  }

  lemma FlatPrefix(chunks: seq<seq<byte>>, i: nat)
    requires i < |chunks|
    ensures Flat(chunks[..i + 1]) == Flat(chunks[..i]) + chunks[i]
  {
    assert chunks[..i + 1] == chunks[..i] + [chunks[i]];
    FlatAppend(chunks[..i], [chunks[i]]);
  }

  lemma PrefixFits(chunks: seq<seq<byte>>, i: nat)
    requires i <= |chunks|
    ensures |Flat(chunks[..i])| <= |Flat(chunks)|
  {
    assert chunks == chunks[..i] + chunks[i..];
    FlatAppend(chunks[..i], chunks[i..]);
  }

  function Smaller(a: nat, b: nat): nat { if a <= b then a else b }

  function First(s: seq<byte>, n: nat): seq<byte> { s[..Smaller(n, |s|)] }

  function Last(s: seq<byte>, n: nat): seq<byte> { s[|s| - Smaller(n, |s|)..] }

  /** Merges chunks into one buffer, each copied at the running offset. */
  method ConcatChunks(chunks: seq<seq<byte>>) returns (merged: array<byte>)
    ensures fresh(merged) && merged[..] == Flat(chunks)
  {
    var total := 0;
    for i := 0 to |chunks|
      invariant total == |Flat(chunks[..i])|
    {
      FlatPrefix(chunks, i);
      total := total + |chunks[i]|;
    }
    assert chunks[..|chunks|] == chunks;
    merged := new byte[total];
    var offset := 0;
    for i := 0 to |chunks|
      invariant offset == |Flat(chunks[..i])| <= merged.Length
      invariant merged[..offset] == Flat(chunks[..i])
    {
      FlatPrefix(chunks, i);
      PrefixFits(chunks, i + 1);
      CopyAt(merged, chunks[i], offset);
      offset := offset + |chunks[i]|;
    }
  }

  /** `merged.set(chunk, offset)`. */
  method CopyAt(merged: array<byte>, chunk: seq<byte>, offset: nat)
    requires offset + |chunk| <= merged.Length
    modifies merged
    ensures merged[..offset + |chunk|] == old(merged[..offset]) + chunk
    ensures merged[offset + |chunk|..] == old(merged[offset + |chunk|..])
  {
    for j := 0 to |chunk|
      invariant merged[..offset + j] == old(merged[..offset]) + chunk[..j]
      invariant merged[offset + j..] == old(merged[offset + j..])
    {
      assert merged[offset + j..][1..] == merged[offset + j + 1..];
      merged[offset + j] := chunk[j];
    }
  }

  /** What the window reports: everything, or its two ends and the number of bytes between. */
  datatype Report = Whole(output: seq<byte>) | Cut(head: seq<byte>, omitted: nat, tail: seq<byte>)

  /** The report a reader wants, straight from everything ever written. */
  function Reported(written: seq<byte>, keep: nat): Report {
    if |written| <= 2 * keep then Whole(written)
    else Cut(First(written, keep), |written| - 2 * keep, Last(written, keep))
  }

  /** The bytes kept at both ends of what was written: the tail ends it, and falls short of
      the head only once it holds `keep` bytes. */
  predicate Kept(written: seq<byte>, head: seq<byte>, tail: seq<byte>, keep: nat) {
    && head == First(written, keep)
    && |head| + |tail| <= |written|
    && tail == written[|written| - |tail|..]
    && (|head| + |tail| < |written| ==> |tail| >= keep)
  }

  lemma FirstChunksFillTheHead(w: seq<byte>, h: seq<byte>, t: seq<byte>, chunk: seq<byte>, keep: nat)
    requires Kept(w, h, t, keep) && |h| < keep
    ensures t == []
    ensures var take := Smaller(keep - |h|, |chunk|);
            Kept(w + chunk, h + chunk[..take], chunk[take..], keep)
  {
    var take := Smaller(keep - |h|, |chunk|);
    var rest, now := chunk[take..], w + chunk;
    assert w == h;
    assert h + chunk[..take] == First(now, keep);
    assert rest == now[|now| - |rest|..];
  }

  lemma LaterChunksGrowTheTail(w: seq<byte>, h: seq<byte>, t: seq<byte>, chunk: seq<byte>, keep: nat)
    requires Kept(w, h, t, keep) && |h| == keep
    ensures Kept(w + chunk, h, t + chunk, keep)
  {
    var now := w + chunk;
    assert now[|now| - |t + chunk|..] == t + chunk;
    assert First(now, keep) == h;
  }

  lemma ShiftingKeepsEnough(w: seq<byte>, h: seq<byte>, first: seq<byte>, t: seq<byte>, keep: nat)
    requires Kept(w, h, first + t, keep) && |t| >= keep
    ensures Kept(w, h, t, keep)
  {
    assert (first + t)[|first|..] == t;
  }

  /** The report made of both ends of what was written. */
  function ReportOf(h: seq<byte>, t: seq<byte>, total: nat, keep: nat): Report
    requires total > 2 * keep ==> |t| >= keep
  {
    if total <= 2 * keep then Whole(h + t) else Cut(h, total - 2 * keep, t[|t| - keep..])
  }

  lemma KeptDecidesTheReport(w: seq<byte>, h: seq<byte>, t: seq<byte>, keep: nat)
    requires Kept(w, h, t, keep)
    ensures |w| > 2 * keep ==> |t| >= keep
    ensures Reported(w, keep) == ReportOf(h, t, |w|, keep)
  {
    if |w| <= 2 * keep {
      assert h + t == w;
    } else {
      assert t[|t| - keep..] == Last(w, keep);
    }
  }

  /** Makes the report from the two buffers. */
  method Assemble(first: seq<byte>, last: seq<byte>, total: nat, keep: nat) returns (report: Report)
    requires total > 2 * keep ==> |last| >= keep
    ensures report == ReportOf(first, last, total, keep)
  {
    if total <= keep * 2 {
      FlatPair(first, last);
      var all := ConcatChunks([first, last]);
      report := Whole(all[..]);
    } else {
      var omitted := total - keep * 2;
      report := Cut(first, omitted, last[|last| - keep..]);
    }
  }

  class OutputWindow {
    const keep: nat
    var head: seq<seq<byte>>
    var headBytes: nat
    var tail: seq<seq<byte>>
    var tailBytes: nat
    var total: nat
    ghost var written: seq<byte>

    ghost predicate Counted()
      reads this
    {
      total == |written| && headBytes == |Flat(head)| && tailBytes == |Flat(tail)|
    }

    ghost predicate Valid()
      reads this
    {
      && Counted() && Kept(written, Flat(head), Flat(tail), keep)
      && (tail != [] ==> tailBytes < keep + |tail[0]|)
    }

    constructor (keep: nat)
      ensures Valid() && written == [] && this.keep == keep
    {
      this.keep := keep;
      head, headBytes, tail, tailBytes, total := [], 0, [], 0, 0;
      written := [];
    }

    method Push(chunk: seq<byte>)
      requires Valid()
      modifies this
      ensures Valid() && written == old(written) + chunk
      ensures headBytes <= keep && (tail == [] || tailBytes - |tail[0]| < keep)
    {
      total := total + |chunk|;
      var rest := FillHead(chunk);
      written := written + chunk;
      if rest == [] {
        return;
      }
      PushTail(rest);
    }

    /** Tops up the head and returns what does not fit in it. */
    method FillHead(chunk: seq<byte>) returns (rest: seq<byte>)
      requires headBytes == |Flat(head)| && Kept(written, Flat(head), Flat(tail), keep)
      modifies this`head, this`headBytes
      ensures headBytes == |Flat(head)|
      ensures rest == [] ==> Kept(written + chunk, Flat(head), Flat(tail), keep)
      ensures rest != [] ==> Kept(written + chunk, Flat(head), Flat(tail) + rest, keep)
    {
      rest := chunk;
      if headBytes < keep {
        FirstChunksFillTheHead(written, Flat(head), Flat(tail), chunk, keep);
        var take := Smaller(keep - headBytes, |rest|);
        FlatAppend(head, [rest[..take]]);
        head := head + [rest[..take]];
        headBytes := headBytes + take;
        rest := rest[take..];
        assert Flat(tail) + rest == rest;
      } else {
        LaterChunksGrowTheTail(written, Flat(head), Flat(tail), chunk, keep);
        assert chunk == [] ==> Flat(tail) + chunk == Flat(tail);
      }
    }

    /** Appends to the tail and shifts chunks off its front while `keep` bytes stay behind. */
    method PushTail(rest: seq<byte>)
      requires Counted() && Kept(written, Flat(head), Flat(tail) + rest, keep)
      modifies this`tail, this`tailBytes
      ensures Valid()
    {
      FlatAppend(tail, [rest]);
      assert Flat([rest]) == rest;
      tail := tail + [rest];
      tailBytes := tailBytes + |rest|;
      while tail != [] && tailBytes - |tail[0]| >= keep
        invariant Counted() && Kept(written, Flat(head), Flat(tail), keep)
        decreases |tail|
      {
        var first := tail[0];
        ShiftingKeepsEnough(written, Flat(head), first, Flat(tail[1..]), keep);
        tail := tail[1..];
        tailBytes := tailBytes - |first|;
      }
    }

    /** The report depends only on what was written, never on how it was cut into chunks. */
    method Finish() returns (report: Report)
      requires Valid()
      ensures report == Reported(written, keep)
    {
      var headBuffer := ConcatChunks(head);
      var tailBuffer := ConcatChunks(tail);
      KeptDecidesTheReport(written, Flat(head), Flat(tail), keep);
      report := Assemble(headBuffer[..], tailBuffer[..], total, keep);
    }
  }

  /** Runs a whole stream, however chunked, through a window. */
  method Capture(chunks: seq<seq<byte>>, keep: nat) returns (report: Report)
    ensures report == Reported(Flat(chunks), keep)
  {
    var window := new OutputWindow(keep);
    for i := 0 to |chunks|
      invariant fresh(window) && window.Valid() && window.keep == keep
      invariant window.written == Flat(chunks[..i])
    {
      FlatPrefix(chunks, i);
      window.Push(chunks[i]);
    }
    assert chunks[..|chunks|] == chunks;
    report := window.Finish();
  }

  /** Nothing is invented or reordered: a cut report is the output with its middle left out. */
  lemma ReportAccountsForEveryByte(written: seq<byte>, keep: nat)
    ensures var r := Reported(written, keep);
            && (r.Whole? ==> r.output == written)
            && (r.Cut? ==> |r.head| == keep == |r.tail| && r.omitted > 0
                           && exists middle | |middle| == r.omitted :: r.head + middle + r.tail == written)
  {
    var r := Reported(written, keep);
    if r.Cut? {
      var middle := written[keep..|written| - keep];
      assert r.head + middle + r.tail == written;
    }
  }
}
