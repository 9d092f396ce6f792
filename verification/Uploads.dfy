/** Chunked uploads: the part and complete routes of control-plane/src/public-api.ts, recordUploadPart
    in repo.ts, the local store of filestore.ts, and the client of python-client/devproof/resources.py. */
module Uploads {
  import opened Wrappers

  newtype byte = x: int | 0 <= x < 256
  type Bytes = seq<byte>

  /** SHA-256 as hex, of bytes and of text. */
  datatype Hash = Hash(ofBytes: Bytes -> string, ofText: string -> string)

  const DIGEST_LENGTH: nat := 64
  const MAX_PART: int := 10000

  ghost predicate Collisionless(h: Hash) {
    && (forall a, b :: h.ofBytes(a) == h.ofBytes(b) ==> a == b)
    && (forall a, b :: h.ofText(a) == h.ofText(b) ==> a == b)
    && (forall a :: |h.ofBytes(a)| == DIGEST_LENGTH)
  }

  // ---------------------------------------------------------------------------------------
  // Parts as recorded

  datatype PartRow = PartRow(n: int, sha: string, size: nat)

  predicate DistinctNumbers(parts: seq<PartRow>) {
    forall i, j :: 0 <= i < j < |parts| ==> parts[i].n != parts[j].n
  }

  function Numbers(parts: seq<PartRow>): set<int> { set p | p in parts :: p.n }

  function Without(parts: seq<PartRow>, n: int): (out: seq<PartRow>)
    ensures forall p :: p in out <==> p in parts && p.n != n
    ensures DistinctNumbers(parts) ==> DistinctNumbers(out)
  {
    if parts == [] then [] else Without(parts[..|parts|-1], n) + if parts[|parts|-1].n == n then [] else [parts[|parts|-1]]
  }

  /** Replaces the row of a part that is uploaded again. */
  function Recorded(parts: seq<PartRow>, p: PartRow): (out: seq<PartRow>)
    ensures forall q :: q in out <==> q == p || (q in parts && q.n != p.n)
    ensures DistinctNumbers(parts) ==> DistinctNumbers(out)
  {
    Without(parts, p.n) + [p]
  }

  predicate Sorted(parts: seq<PartRow>) { forall i, j :: 0 <= i < j < |parts| ==> parts[i].n < parts[j].n }

  function Inserted(parts: seq<PartRow>, p: PartRow): (out: seq<PartRow>)
    requires Sorted(parts) && forall q <- parts :: q.n != p.n
    ensures Sorted(out) && forall q :: q in out <==> q == p || q in parts
  {
    if parts == [] || parts[|parts|-1].n < p.n then parts + [p]
    else
      var rest := Inserted(parts[..|parts|-1], p);
      assert forall i :: 0 <= i < |rest| ==> rest[i] in rest;
      rest + [parts[|parts|-1]]
  }

  function SortedByNumber(parts: seq<PartRow>): (out: seq<PartRow>)
    requires DistinctNumbers(parts)
    ensures Sorted(out) && forall q :: q in out <==> q in parts
  {
    if parts == [] then [] else Inserted(SortedByNumber(parts[..|parts|-1]), parts[|parts|-1])
  }

  predicate Contiguous(sorted: seq<PartRow>) {
    sorted != [] && forall i :: 0 <= i < |sorted| ==> sorted[i].n == i + 1
  }

  function FirstParts(k: int): set<int> {
    if k <= 0 then {} else FirstParts(k - 1) + {k}
  }

  lemma {:induction false} FirstPartsAre(k: int)
    ensures forall n :: n in FirstParts(k) <==> 1 <= n <= k
  {
    if k > 0 { FirstPartsAre(k - 1); }
  }

  predicate NumberedTo(parts: seq<PartRow>, k: int) { k >= 1 && Numbers(parts) == FirstParts(k) }

  /** The route's test, said of the set of part numbers: they are 1..k for some k. */
  lemma ContiguousIff(parts: seq<PartRow>)
    requires DistinctNumbers(parts)
    ensures Contiguous(SortedByNumber(parts)) <==> NumberedTo(parts, |parts|)
    ensures forall k :: NumberedTo(parts, k) ==> k == |parts|
  {
    SortedKeepsCount(parts);
    var sorted := SortedByNumber(parts);
    assert Numbers(parts) == Numbers(sorted);
    if Contiguous(sorted) {
      NumbersOfContiguous(sorted);
    }
    forall k | NumberedTo(parts, k) ensures k == |parts| && Contiguous(sorted) {
      SortedRange(sorted, k);
    }
  }

  lemma NumbersOfContiguous(sorted: seq<PartRow>)
    requires Contiguous(sorted)
    ensures Numbers(sorted) == FirstParts(|sorted|)
  {
    FirstPartsAre(|sorted|);
    forall n | 1 <= n <= |sorted| ensures n in Numbers(sorted) {
      assert sorted[n-1] in sorted;
    }
  }

  lemma {:induction false} SortedRange(sorted: seq<PartRow>, k: int)
    requires Sorted(sorted) && Numbers(sorted) == FirstParts(k) && k >= 0
    ensures |sorted| == k && forall i :: 0 <= i < |sorted| ==> sorted[i].n == i + 1
    decreases k
  {
    hide Numbers, FirstParts;
    if k == 0 {
      SomeNumber(sorted);
      NoFirstParts();
    } else {
      LastOfRange(sorted, k);
      SortedRange(sorted[..|sorted|-1], k - 1);
    }
  }

  lemma NoFirstParts()
    ensures FirstParts(0) == {}
  {
  }

  lemma SomeNumber(parts: seq<PartRow>)
    ensures parts != [] ==> Numbers(parts) != {}
  {
    if parts != [] { assert parts[0].n in Numbers(parts); }
  }

  lemma LastOfRange(sorted: seq<PartRow>, k: int)
    requires Sorted(sorted) && Numbers(sorted) == FirstParts(k) && k >= 1
    ensures sorted != [] && sorted[|sorted|-1].n == k && Numbers(sorted[..|sorted|-1]) == FirstParts(k - 1)
  {
    FirstPartsAre(k);
    FirstPartsAre(k - 1);
    var p :| p in sorted && p.n == k;
    var rest, last := sorted[..|sorted|-1], sorted[|sorted|-1];
    assert sorted == rest + [last] && last in sorted;
    assert last.n in Numbers(sorted);
    forall q <- rest ensures q.n < last.n && q.n in Numbers(sorted) {
      var i :| 0 <= i < |rest| && rest[i] == q;
      assert sorted[i] == q && q in sorted;
    }
    forall n | n in FirstParts(k - 1) ensures n in Numbers(rest) {
      assert n in Numbers(sorted);
      var q :| q in sorted && q.n == n;
      assert q in rest;
    }
  }

  // ---------------------------------------------------------------------------------------
  // History: the parts written, and whether the row for each was

  /** A write whose request died before its row was recorded is not `recorded`. */
  datatype Write = Write(n: int, data: Bytes, recorded: bool)

  function LastData(writes: seq<Write>, n: int): Option<Bytes> {
    if writes == [] then None
    else if writes[|writes|-1].n == n then Some(writes[|writes|-1].data)
    else LastData(writes[..|writes|-1], n)
  }

  function LastRecorded(writes: seq<Write>, n: int): Option<Bytes> {
    if writes == [] then None
    else if writes[|writes|-1].n == n && writes[|writes|-1].recorded then Some(writes[|writes|-1].data)
    else LastRecorded(writes[..|writes|-1], n)
  }

  lemma {:induction false} RecordedIsWritten(writes: seq<Write>, n: int)
    ensures LastRecorded(writes, n).Some? ==> LastData(writes, n).Some?
  {
    if writes != [] { RecordedIsWritten(writes[..|writes|-1], n); }
  }

  /** The concatenation of the last data written to parts 1..k. */
  function Content(writes: seq<Write>, k: nat): Bytes {
    if k == 0 then []
    else Content(writes, k - 1) + match LastData(writes, k) case Some(data) => data case None => []
  }

  function Sizes(parts: seq<PartRow>): nat {
    if parts == [] then 0 else Sizes(parts[..|parts|-1]) + parts[|parts|-1].size
  }

  function Digests(parts: seq<PartRow>): string {
    if parts == [] then "" else Digests(parts[..|parts|-1]) + parts[|parts|-1].sha
  }

  function Digested(h: Hash, chunks: seq<Bytes>): string {
    if chunks == [] then "" else Digested(h, chunks[..|chunks|-1]) + h.ofBytes(chunks[|chunks|-1])
  }

  /** The hash over the parts' hashes. */
  function Composite(h: Hash, chunks: seq<Bytes>): string { h.ofText(Digested(h, chunks)) }

  lemma {:induction false} DigestedLength(h: Hash, chunks: seq<Bytes>)
    requires Collisionless(h)
    ensures |Digested(h, chunks)| == DIGEST_LENGTH * |chunks|
  {
    if chunks != [] { DigestedLength(h, chunks[..|chunks|-1]); }
  }

  /** Two uploads with one composite hash have the same parts. */
  lemma {:induction false} CompositeDetects(h: Hash, a: seq<Bytes>, b: seq<Bytes>)
    requires Collisionless(h) && Digested(h, a) == Digested(h, b)
    ensures a == b
  {
    DigestedLength(h, a);
    DigestedLength(h, b);
    if a != [] {
      var restA, restB := a[..|a|-1], b[..|b|-1];
      DigestedLength(h, restA);
      DigestedLength(h, restB);
      var cut := DIGEST_LENGTH * |restA|;
      assert Digested(h, a)[..cut] == Digested(h, restA) && Digested(h, b)[..cut] == Digested(h, restB);
      assert Digested(h, a)[cut..] == h.ofBytes(a[|a|-1]) && Digested(h, b)[cut..] == h.ofBytes(b[|b|-1]);
      CompositeDetects(h, restA, restB);
      assert a == restA + [a[|a|-1]] && b == restB + [b[|b|-1]];
    }
  }

  // ---------------------------------------------------------------------------------------
  // The server

  datatype Record = Record(size: nat, sha: string)

  /** The last recorded data of parts 1..k. */
  function RecordedParts(writes: seq<Write>, k: nat): (chunks: seq<Bytes>)
    ensures |chunks| == k
  {
    if k == 0 then []
    else RecordedParts(writes, k - 1) + [match LastRecorded(writes, k) case Some(data) => data case None => []]
  }

  function TotalSize(chunks: seq<Bytes>): nat {
    if chunks == [] then 0 else TotalSize(chunks[..|chunks|-1]) + |chunks[|chunks|-1]|
  }

  /** Row `p` is that of the last data recorded for its part. */
  ghost predicate RowOf(h: Hash, writes: seq<Write>, p: PartRow) {
    1 <= p.n <= MAX_PART
    && match LastRecorded(writes, p.n)
       case None => false
       case Some(data) => p.sha == h.ofBytes(data) && p.size == |data|
  }

  ghost predicate FilesHold(partFiles: map<int, Bytes>, writes: seq<Write>) {
    && (forall n :: n in partFiles <==> LastData(writes, n).Some?)
    && (forall n <- partFiles :: Some(partFiles[n]) == LastData(writes, n))
  }

  ghost predicate RowsHold(h: Hash, parts: seq<PartRow>, writes: seq<Write>) {
    && DistinctNumbers(parts)
    && (forall n :: n in Numbers(parts) <==> LastRecorded(writes, n).Some?)
    && (forall p <- parts :: RowOf(h, writes, p))
  }

  /** An open upload holds the last data written to each part, and a row for each part whose write was
      recorded. */
  ghost predicate Consistent(h: Hash, parts: seq<PartRow>, partFiles: map<int, Bytes>, writes: seq<Write>) {
    FilesHold(partFiles, writes) && RowsHold(h, parts, writes)
  }

  lemma StoreKeepsFiles(partFiles: map<int, Bytes>, writes: seq<Write>, w: Write)
    requires FilesHold(partFiles, writes)
    ensures FilesHold(partFiles[w.n := w.data], writes + [w])
  {
    LastOfSnoc(writes, w);
    hide LastData;
  }

  lemma DeathKeepsRows(h: Hash, parts: seq<PartRow>, writes: seq<Write>, w: Write)
    requires RowsHold(h, parts, writes) && !w.recorded
    ensures RowsHold(h, parts, writes + [w])
  {
    LastOfSnoc(writes, w);
    hide LastRecorded, Numbers, DistinctNumbers;
  }

  lemma RecordKeepsRows(h: Hash, parts: seq<PartRow>, writes: seq<Write>, w: Write)
    requires RowsHold(h, parts, writes) && w.recorded && 1 <= w.n <= MAX_PART
    ensures RowsHold(h, Recorded(parts, PartRow(w.n, h.ofBytes(w.data), |w.data|)), writes + [w])
  {
    LastOfSnoc(writes, w);
    RecordedNumbers(parts, PartRow(w.n, h.ofBytes(w.data), |w.data|));
    hide LastRecorded, Numbers, DistinctNumbers;
  }

  class UploadServer {
    const h: Hash
    var open: bool
    var parts: seq<PartRow>
    var partFiles: map<int, Bytes>
    var object_: Option<Bytes>
    var record: Option<Record>
    ghost var writes: seq<Write>

    ghost predicate Valid()
      reads this
    {
      open ==> Consistent(h, parts, partFiles, writes)
    }

    constructor (h: Hash)
      ensures Valid() && this.h == h && open && writes == [] && parts == [] && object_ == None && record == None
    {
      this.h := h;
      open, parts, partFiles, object_, record, writes := true, [], map[], None, None, [];
    }

    /** Stores the part's data and then its row; `dies` cuts the request off between the two. */
    method PostPart(n: int, data: Bytes, dies: bool) returns (status: int)
      requires Valid()
      modifies this`parts, this`partFiles, this`writes
      ensures Valid()
      ensures status == if !open then 404 else if n < 1 || n > 10000 then 400 else if dies then 500 else 200
      ensures writes == if status == 404 || status == 400 then old(writes) else old(writes) + [Write(n, data, !dies)]
      ensures Numbers(parts) == Numbers(old(parts)) + if status == 200 then {n} else {}
    {
      if !open {
        return 404;
      }
      if n < 1 || n > MAX_PART {
        return 400;
      }
      hide LastData, LastRecorded, Recorded, Numbers, FilesHold, RowsHold;
      ghost var w := Write(n, data, !dies);
      StoreKeepsFiles(partFiles, writes, w);
      partFiles := partFiles[n := data];
      if dies {
        DeathKeepsRows(h, parts, writes, w);
      } else {
        RecordKeepsRows(h, parts, writes, w);
        RecordedNumbers(parts, PartRow(n, h.ofBytes(data), |data|));
        parts := Recorded(parts, PartRow(n, h.ofBytes(data), |data|));
      }
      writes := writes + [w];
      status := if dies then 500 else 200;
    }

    /** Concatenates the stored parts in order. */
    method Assemble(sorted: seq<PartRow>) returns (content: Bytes)
      requires Consistent(h, parts, partFiles, writes) && Contiguous(sorted) && forall p <- sorted :: p in parts
      ensures content == Content(writes, |sorted|)
    {
      hide LastData, LastRecorded;
      content := [];
      for i := 0 to |sorted|
        invariant content == Content(writes, i)
      {
        assert sorted[i] in parts && sorted[i].n in Numbers(parts);
        RecordedIsWritten(writes, i + 1);
        content := content + partFiles[sorted[i].n];
      }
    }

    /** Succeeds exactly when the recorded part numbers are 1..k; the object is then the concatenation
        of the last data written to each part, and the record is that of the last data recorded. */
    method Complete() returns (status: int)
      requires Valid()
      modifies this
      ensures Valid()
      ensures status == 404 <==> !old(open)
      ensures status == 201 <==> old(open) && NumberedTo(old(parts), |old(parts)|)
      ensures status == 201 ==>
                var k := |old(parts)|;
                && !open && partFiles == old(partFiles) - FirstParts(k)
                && object_ == Some(Content(old(writes), k))
                && record == Some(Record(TotalSize(RecordedParts(old(writes), k)), Composite(h, RecordedParts(old(writes), k))))
      ensures status != 201 ==>
                status in {400, 404} && open == old(open) && parts == old(parts) && partFiles == old(partFiles)
                && writes == old(writes) && object_ == old(object_) && record == old(record)
    {
      hide Consistent, DistinctNumbers, NumberedTo, Numbers, FirstParts, Contiguous, SortedByNumber;
      hide Content, RecordedParts, Composite, Digests, Sizes, TotalSize;
      if !open {
        return 404;
      }
      CompleteFacts(h, parts, partFiles, writes);
      var sorted := SortedByNumber(parts);
      if !Contiguous(sorted) {
        return 400;
      }
      var content := Assemble(sorted);
      object_ := Some(content);
      record := Some(Record(Sizes(sorted), h.ofText(Digests(sorted))));
      partFiles := partFiles - Numbers(sorted);
      open := false;
      status := 201;
    }

    method Abort() returns (status: int)
      requires Valid()
      modifies this
      ensures Valid() && status == (if old(open) then 204 else 404)
      ensures !open && object_ == old(object_) && record == old(record)
      ensures old(open) ==> partFiles == map[]
    {
      if !open {
        return 404;
      }
      open, partFiles := false, map[];
      status := 204;
    }
  }

  /** What the route's test and its sums come to. */
  lemma CompleteFacts(h: Hash, parts: seq<PartRow>, partFiles: map<int, Bytes>, writes: seq<Write>)
    requires Consistent(h, parts, partFiles, writes)
    ensures DistinctNumbers(parts)
    ensures Contiguous(SortedByNumber(parts)) <==> NumberedTo(parts, |parts|)
    ensures Contiguous(SortedByNumber(parts)) ==>
              var sorted, k := SortedByNumber(parts), |parts|;
              && |sorted| == k && Numbers(sorted) == FirstParts(k) && (forall p <- sorted :: p in parts)
              && Sizes(sorted) == TotalSize(RecordedParts(writes, k))
              && h.ofText(Digests(sorted)) == Composite(h, RecordedParts(writes, k))
  {
    hide FilesHold, RowOf, Composite, Digests, Sizes, TotalSize, RecordedParts, LastRecorded;
    var sorted := SortedByNumber(parts);
    ContiguousIff(parts);
    SortedKeepsCount(parts);
    SameNumbers(parts, sorted);
    if Contiguous(sorted) {
      RowsTell(h, sorted, writes);
    }
  }

  lemma SameNumbers(a: seq<PartRow>, b: seq<PartRow>)
    requires forall p :: p in a <==> p in b
    ensures Numbers(a) == Numbers(b)
  {
  }

  lemma {:induction false} SortedKeepsCount(parts: seq<PartRow>)
    requires DistinctNumbers(parts)
    ensures |SortedByNumber(parts)| == |parts|
  {
    if parts != [] {
      SortedKeepsCount(parts[..|parts|-1]);
      InsertedCount(SortedByNumber(parts[..|parts|-1]), parts[|parts|-1]);
    }
  }

  lemma {:induction false} InsertedCount(parts: seq<PartRow>, p: PartRow)
    requires Sorted(parts) && forall q <- parts :: q.n != p.n
    ensures |Inserted(parts, p)| == |parts| + 1
  {
    if parts != [] && parts[|parts|-1].n >= p.n { InsertedCount(parts[..|parts|-1], p); }
  }

  /** The rows in order carry the sizes and hashes of the last data recorded. */
  lemma RowsTell(h: Hash, sorted: seq<PartRow>, writes: seq<Write>)
    requires Contiguous(sorted) && forall p <- sorted :: RowOf(h, writes, p)
    ensures Sizes(sorted) == TotalSize(RecordedParts(writes, |sorted|))
    ensures h.ofText(Digests(sorted)) == Composite(h, RecordedParts(writes, |sorted|))
  {
    RowsTellUpTo(h, sorted, writes, |sorted|);
    assert sorted[..|sorted|] == sorted;
  }

  lemma {:induction false} RowsTellUpTo(h: Hash, sorted: seq<PartRow>, writes: seq<Write>, k: nat)
    requires Contiguous(sorted) && (forall p <- sorted :: RowOf(h, writes, p)) && k <= |sorted|
    ensures Sizes(sorted[..k]) == TotalSize(RecordedParts(writes, k))
    ensures Digests(sorted[..k]) == Digested(h, RecordedParts(writes, k))
  {
    if k > 0 {
      RowsTellUpTo(h, sorted, writes, k - 1);
      assert sorted[..k][..k-1] == sorted[..k-1] && sorted[..k][k-1] == sorted[k-1];
      assert sorted[k-1] in sorted;
      var chunks := RecordedParts(writes, k);
      assert chunks[..k-1] == RecordedParts(writes, k - 1);
    }
  }

  lemma LastOfSnoc(writes: seq<Write>, w: Write)
    ensures forall n :: LastData(writes + [w], n) == if n == w.n then Some(w.data) else LastData(writes, n)
    ensures forall n :: LastRecorded(writes + [w], n) == if n == w.n && w.recorded then Some(w.data) else LastRecorded(writes, n)
  {
    assert (writes + [w])[..|writes|] == writes;
  }

  lemma RecordedNumbers(parts: seq<PartRow>, p: PartRow)
    ensures Numbers(Recorded(parts, p)) == Numbers(parts) + {p.n}
  {
    forall n | n in Numbers(parts) ensures n in Numbers(Recorded(parts, p)) {
      var q :| q in parts && q.n == n;
      if n == p.n {
        assert p in Recorded(parts, p);
      } else {
        assert q in Recorded(parts, p);
      }
    }
    assert p in Recorded(parts, p);
  }

  // ---------------------------------------------------------------------------------------
  // A crash between a part's data and its row

  /** The last data written to parts 1..k; their concatenation is the object. */
  function LastParts(writes: seq<Write>, k: nat): (chunks: seq<Bytes>)
    ensures |chunks| == k
  {
    if k == 0 then []
    else LastParts(writes, k - 1) + [match LastData(writes, k) case Some(data) => data case None => []]
  }

  function Concat(chunks: seq<Bytes>): Bytes {
    if chunks == [] then [] else Concat(chunks[..|chunks|-1]) + chunks[|chunks|-1]
  }

  lemma {:induction false} ContentIsConcat(writes: seq<Write>, k: nat)
    ensures Content(writes, k) == Concat(LastParts(writes, k))
  {
    if k > 0 {
      ContentIsConcat(writes, k - 1);
      var chunks := LastParts(writes, k);
      assert chunks[..k-1] == LastParts(writes, k - 1);
      assert Concat(chunks) == Concat(chunks[..k-1]) + chunks[k-1];
    }
  }

  lemma {:induction false} PartsAt(writes: seq<Write>, k: nat, n: nat)
    requires 1 <= n <= k && LastRecorded(writes, n).Some?
    ensures Some(LastParts(writes, k)[n-1]) == LastData(writes, n) && Some(RecordedParts(writes, k)[n-1]) == LastRecorded(writes, n)
  {
    RecordedIsWritten(writes, n);
    if n < k { PartsAt(writes, k - 1, n); }
  }

  function LastWrite(writes: seq<Write>, n: int): Option<Write> {
    if writes == [] then None
    else if writes[|writes|-1].n == n then Some(writes[|writes|-1])
    else LastWrite(writes[..|writes|-1], n)
  }

  /** No write of part `n` died last, or it carried the bytes its row already stood for. */
  predicate Settled(writes: seq<Write>, n: int) {
    match LastWrite(writes, n)
    case None => true
    case Some(w) => w.recorded || LastRecorded(writes, n) == Some(w.data)
  }

  predicate AllSettled(writes: seq<Write>, k: nat) { forall n :: 1 <= n <= k ==> Settled(writes, n) }

  lemma {:induction false} LastWriteIs(writes: seq<Write>, n: int)
    ensures LastWrite(writes, n).None? <==> LastData(writes, n).None?
    ensures LastWrite(writes, n).Some? ==> LastData(writes, n) == Some(LastWrite(writes, n).value.data)
    ensures LastWrite(writes, n).Some? && LastWrite(writes, n).value.recorded ==> LastRecorded(writes, n) == LastData(writes, n)
  {
    if writes != [] { LastWriteIs(writes[..|writes|-1], n); }
  }

  lemma SettledIff(writes: seq<Write>, n: int)
    requires LastRecorded(writes, n).Some?
    ensures Settled(writes, n) <==> LastRecorded(writes, n) == LastData(writes, n)
  {
    LastWriteIs(writes, n);
    RecordedIsWritten(writes, n);
  }

  lemma RecordedPartsAreLast(writes: seq<Write>, k: nat)
    requires forall n :: 1 <= n <= k ==> LastRecorded(writes, n).Some?
    ensures AllSettled(writes, k) <==> RecordedParts(writes, k) == LastParts(writes, k)
  {
    hide LastData, LastRecorded, LastWrite, Settled;
    var recorded, last := RecordedParts(writes, k), LastParts(writes, k);
    if AllSettled(writes, k) {
      forall i | 0 <= i < k ensures recorded[i] == last[i] {
        PartsAt(writes, k, i + 1);
        SettledIff(writes, i + 1);
      }
      assert recorded == last;
    } else {
      var n :| 1 <= n <= k && !Settled(writes, n);
      PartsAt(writes, k, n);
      SettledIff(writes, n);
    }
  }

  /** The record's hash is the object's composite exactly when each part's last write was recorded or
      carried the bytes last recorded; then the size is right as well. */
  lemma RecordMatchesIff(h: Hash, writes: seq<Write>, k: nat)
    requires Collisionless(h) && forall n :: 1 <= n <= k ==> LastRecorded(writes, n).Some?
    ensures Composite(h, RecordedParts(writes, k)) == Composite(h, LastParts(writes, k)) <==> AllSettled(writes, k)
    ensures AllSettled(writes, k) ==> TotalSize(RecordedParts(writes, k)) == |Content(writes, k)|
  {
    RecordedPartsAreLast(writes, k);
    hide AllSettled, LastRecorded;
    if Composite(h, RecordedParts(writes, k)) == Composite(h, LastParts(writes, k)) {
      CompositeDetects(h, RecordedParts(writes, k), LastParts(writes, k));
    }
    SizeIsLength(LastParts(writes, k));
    ContentIsConcat(writes, k);
  }

  /** Part 1 recorded with `a`, sent again with `b` by a request that dies before the row, completed:
      the object is `b`, and its record has the size and the hash of `a`. */
  method DeadRetry(h: Hash, a: Bytes, b: Bytes) returns (server: UploadServer)
    requires Collisionless(h) && a != b
    ensures server.object_ == Some(b) && server.record == Some(Record(|a|, Composite(h, [a])))
    ensures server.record.value.sha != Composite(h, [b])
  {
    hide Content, RecordedParts, Composite, Consistent, Numbers, FirstParts, NumberedTo, TotalSize;
    server := new UploadServer(h);
    NothingSent(h, 1);
    var _ := server.PostPart(1, a, false);
    var _ := server.PostPart(1, b, true);
    OnePart();
    assert {} + {1} + {} == {1} == {} + {1};
    CountOf(h, server.parts, server.partFiles, server.writes, 1);
    assert server.writes == [Write(1, a, true), Write(1, b, false)];
    var _ := server.Complete();
    DeadRetryMisleads(h, a, b);
  }

  lemma OnePart()
    ensures FirstParts(1) == {} + {1} && FirstParts(0) == {}
  {
  }

  lemma TwoWrites(a: Bytes, b: Bytes)
    ensures var writes := [Write(1, a, true), Write(1, b, false)];
            LastData(writes, 1) == Some(b) && LastRecorded(writes, 1) == Some(a)
  {
    var writes := [Write(1, a, true), Write(1, b, false)];
    assert writes[..1] == [Write(1, a, true)];
  }

  lemma OneChunk(h: Hash, a: Bytes)
    ensures TotalSize([a]) == |a| && Digested(h, [a]) == h.ofBytes(a)
  {
    assert [a][..0] == [];
    assert "" + h.ofBytes(a) == h.ofBytes(a);
  }

  lemma DeadRetryMisleads(h: Hash, a: Bytes, b: Bytes)
    requires Collisionless(h) && a != b
    ensures var writes := [Write(1, a, true), Write(1, b, false)];
            && Content(writes, 1) == b && RecordedParts(writes, 1) == [a] && TotalSize([a]) == |a|
            && Composite(h, [a]) != Composite(h, [b])
  {
    hide LastData, LastRecorded, Digested, TotalSize;
    var writes := [Write(1, a, true), Write(1, b, false)];
    TwoWrites(a, b);
    assert Content(writes, 0) + b == b && RecordedParts(writes, 0) + [a] == [a];
    OneChunk(h, a);
    OneChunk(h, b);
  }

  lemma {:induction false} SizeIsLength(chunks: seq<Bytes>)
    ensures TotalSize(chunks) == |Concat(chunks)|
  {
    if chunks != [] { SizeIsLength(chunks[..|chunks|-1]); }
  }

  // ---------------------------------------------------------------------------------------
  // The client

  function Min(a: nat, b: nat): nat { if a <= b then a else b }

  /** The file in pieces of the part size, the last one what is left. */
  function Chunks(data: Bytes, partSize: nat): seq<Bytes>
    requires partSize > 0
  {
    if data == [] then []
    else [data[..Min(partSize, |data|)]] + Chunks(data[Min(partSize, |data|)..], partSize)
  }

  function SentData(chunks: seq<Bytes>, n: int): Option<Bytes> {
    if 1 <= n <= |chunks| then Some(chunks[n-1]) else None
  }

  /** Parts 1, 2, … hold these chunks, whatever attempts died on the way; the part after them may have
      been begun, but has no row. */
  ghost predicate Begun(writes: seq<Write>, chunks: seq<Bytes>) {
    && (forall n :: n != |chunks| + 1 ==> LastData(writes, n) == SentData(chunks, n) && LastRecorded(writes, n) == SentData(chunks, n))
    && LastRecorded(writes, |chunks| + 1) == None
  }

  ghost predicate Sent(writes: seq<Write>, chunks: seq<Bytes>) {
    Begun(writes, chunks) && LastData(writes, |chunks| + 1) == None
  }

  lemma DiedOnTheWay(writes: seq<Write>, chunks: seq<Bytes>, chunk: Bytes)
    requires Begun(writes, chunks)
    ensures Begun(writes + [Write(|chunks| + 1, chunk, false)], chunks)
  {
    LastOfSnoc(writes, Write(|chunks| + 1, chunk, false));
    hide LastData, LastRecorded;
  }

  lemma WentThrough(writes: seq<Write>, chunks: seq<Bytes>, chunk: Bytes)
    requires Begun(writes, chunks)
    ensures Sent(writes + [Write(|chunks| + 1, chunk, true)], chunks + [chunk])
  {
    var longer := writes + [Write(|chunks| + 1, chunk, true)];
    LastOfSnoc(writes, Write(|chunks| + 1, chunk, true));
    hide LastData, LastRecorded;
    forall n ensures LastData(longer, n) == SentData(chunks + [chunk], n) && LastRecorded(longer, n) == SentData(chunks + [chunk], n) {
    }
  }

  lemma {:induction false} SentParts(writes: seq<Write>, chunks: seq<Bytes>, k: nat)
    requires Sent(writes, chunks) && k <= |chunks|
    ensures LastParts(writes, k) == chunks[..k] && RecordedParts(writes, k) == chunks[..k]
  {
    hide LastData, LastRecorded;
    if k > 0 {
      SentParts(writes, chunks, k - 1);
      assert LastData(writes, k) == SentData(chunks, k) && LastRecorded(writes, k) == SentData(chunks, k);
    }
  }

  /** What completing the upload of `chunks` comes to. */
  lemma ChunksRoundTrip(writes: seq<Write>, chunks: seq<Bytes>)
    requires Sent(writes, chunks)
    ensures var k := |chunks|;
            Content(writes, k) == Concat(chunks) && RecordedParts(writes, k) == chunks && TotalSize(chunks) == |Concat(chunks)|
  {
    hide Sent;
    SentParts(writes, chunks, |chunks|);
    assert chunks[..|chunks|] == chunks;
    ContentIsConcat(writes, |chunks|);
    SizeIsLength(chunks);
  }

  lemma NothingSent(h: Hash, partSize: nat)
    requires partSize > 0
    ensures Chunks([], partSize) == [] && Sent([], [])
    ensures Concat([]) == [] && Digested(h, []) == "" && Numbers([]) == FirstParts(0)
  {
  }

  lemma OneMoreSent(h: Hash, sent: seq<Bytes>, chunk: Bytes)
    ensures Concat(sent + [chunk]) == Concat(sent) + chunk
    ensures Digested(h, sent + [chunk]) == Digested(h, sent) + h.ofBytes(chunk)
    ensures FirstParts(|sent| + 1) == FirstParts(|sent|) + {|sent| + 1}
  {
    assert (sent + [chunk])[..|sent|] == sent;
  }

  lemma NextChunk(data: Bytes, partSize: nat, offset: nat)
    requires offset < |data| && partSize > 0
    ensures var next := Min(offset + partSize, |data|);
            && Chunks(data[offset..], partSize) == [data[offset..next]] + Chunks(data[next..], partSize)
            && data[..next] == data[..offset] + data[offset..next]
  {
    var next, rest := Min(offset + partSize, |data|), data[offset..];
    assert rest[..Min(partSize, |rest|)] == data[offset..next] && rest[Min(partSize, |rest|)..] == data[next..];
  }

  lemma CountOf(h: Hash, parts: seq<PartRow>, partFiles: map<int, Bytes>, writes: seq<Write>, n: nat)
    requires Consistent(h, parts, partFiles, writes) && Numbers(parts) == FirstParts(n)
    ensures |parts| == n && (NumberedTo(parts, |parts|) <==> n >= 1)
  {
    hide FilesHold;
    ContiguousIff(parts);
    if n >= 1 {
      assert NumberedTo(parts, n);
    } else {
      SomeNumber(parts);
    }
  }

  /** Sends one part: `deaths` attempts die on the server between data and row and are sent again;
      `lost` says whether the sending fails in the end. */
  method SendPart(server: UploadServer, n: nat, chunk: Bytes, deaths: nat, lost: bool, ghost sent: seq<Bytes>) returns (status: int)
    requires server.Valid() && server.open && Sent(server.writes, sent) && n == |sent| + 1
    modifies server`parts, server`partFiles, server`writes
    ensures server.Valid()
    ensures status == 200 <==> n <= MAX_PART && !lost
    ensures status == 200 ==> Sent(server.writes, sent + [chunk]) && Numbers(server.parts) == Numbers(old(server.parts)) + {n}
  {
    hide Begun, Consistent, Numbers;
    if n > MAX_PART {
      status := server.PostPart(n, chunk, false);
      return;
    }
    SentIsBegun(server.writes, sent);
    for i := 0 to deaths
      invariant server.Valid() && server.open && Begun(server.writes, sent)
      invariant Numbers(server.parts) == Numbers(old(server.parts))
    {
      DiedOnTheWay(server.writes, sent, chunk);
      var _ := server.PostPart(n, chunk, true);
      assert Numbers(server.parts) + {} == Numbers(server.parts);
    }
    if lost {
      return 500;
    }
    WentThrough(server.writes, sent, chunk);
    status := server.PostPart(n, chunk, false);
  }

  lemma SentIsBegun(writes: seq<Write>, chunks: seq<Bytes>)
    requires Sent(writes, chunks)
    ensures Begun(writes, chunks)
  {
  }

  datatype Upload = Done(record: Record) | Aborted | Mismatch

  /** Uploads a file part by part, completes it, and compares the server's hash with its own.  It
      succeeds exactly when the file is not empty, has no more than 10000 parts and no part is lost,
      however many attempts died on the way; the object is then the file and the record has its size.
      The comparison never fails.  Otherwise the upload is aborted. */
  method UploadChunked(server: UploadServer, data: Bytes, partSize: nat, deaths: nat -> nat, lost: nat -> bool) returns (result: Upload)
    requires server.Valid() && server.open && server.writes == [] && server.parts == [] && partSize > 0
    modifies server
    ensures result.Done? <==> 1 <= |Chunks(data, partSize)| <= 10000 && forall n :: 1 <= n <= |Chunks(data, partSize)| ==> !lost(n)
    ensures result.Done? ==>
              && server.object_ == Some(data) && server.record == Some(result.record)
              && result.record == Record(|data|, Composite(server.h, Chunks(data, partSize)))
    ensures !result.Done? ==>
              && result == Aborted && server.object_ == old(server.object_) && server.record == old(server.record)
              && server.partFiles == map[]
    ensures !server.open
  {
    hide Content, RecordedParts, LastData, LastRecorded, Consistent, TotalSize, Digested, Numbers, FirstParts, NumberedTo, Concat, Chunks, Sent;
    var offset, n := 0, 0;
    var digests := "";
    ghost var sent: seq<Bytes> := [];
    NothingSent(server.h, partSize);
    while offset < |data|
      invariant 0 <= offset <= |data| && n == |sent| <= MAX_PART && forall m :: 1 <= m <= n ==> !lost(m)
      invariant server.Valid() && server.open && server.object_ == old(server.object_) && server.record == old(server.record)
      invariant Sent(server.writes, sent) && Numbers(server.parts) == FirstParts(n)
      invariant Concat(sent) == data[..offset] && Chunks(data, partSize) == sent + Chunks(data[offset..], partSize)
      invariant digests == Digested(server.h, sent)
    {
      var chunk := data[offset..Min(offset + partSize, |data|)];
      NextChunk(data, partSize, offset);
      n := n + 1;
      var status := SendPart(server, n, chunk, deaths(n), lost(n), sent);
      if status != 200 {
        var _ := server.Abort();
        return Aborted;
      }
      OneMoreSent(server.h, sent, chunk);
      digests := digests + server.h.ofBytes(chunk);
      sent := sent + [chunk];
      offset := offset + |chunk|;
    }
    assert data[..|data|] == data && data[|data|..] == [] && sent + [] == sent;
    CountOf(server.h, server.parts, server.partFiles, server.writes, n);
    ChunksRoundTrip(server.writes, sent);
    var status := server.Complete();
    if status != 201 {
      var _ := server.Abort();
      return Aborted;
    }
    result := if server.record.value.sha == server.h.ofText(digests) then Done(server.record.value) else Mismatch;
  }
}
