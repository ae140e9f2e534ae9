/** The chunked search for terminal error frames in a forwarded SSE stream. */
module SseScanner {
  type Bytes = string

  const MARKERS: seq<Bytes> := [
    "event: error\ndata: {\"type\":\"error\"",
    "event: error\ndata: {\"error\""
  ]

  /** The length of the longest marker, as the scanner computes it. */
  function Longest(markers: seq<Bytes>): (l: nat)
    ensures forall m :: m in markers ==> |m| <= l
    ensures l == 0 || exists m :: m in markers && |m| == l
  {
    if markers == [] then 0
    else
      var rest := Longest(markers[1..]);
      if |markers[0]| > rest then |markers[0]| else rest
  }

  predicate OccursAt(marker: Bytes, text: Bytes, i: int) {
    0 <= i <= |text| - |marker| && text[i..i + |marker|] == marker
  }

  /** Some marker starts at position `from` or later. */
  predicate OccursFrom(markers: seq<Bytes>, text: Bytes, from: nat) {
    exists k, i :: 0 <= k < |markers| && from <= i <= |text| - |markers[k]| && OccursAt(markers[k], text, i)
  }

  /** Whole-stream search. */
  predicate Occurs(markers: seq<Bytes>, text: Bytes) { OccursFrom(markers, text, 0) }

  lemma DropShifts(marker: Bytes, text: Bytes, d: nat, i: int)
    requires d <= |text| && 0 <= i
    ensures OccursAt(marker, text[d..], i) <==> OccursAt(marker, text, i + d)
  {
    if i + |marker| <= |text| - d {
      assert text[d..][i..i + |marker|] == text[i + d..i + d + |marker|];
    }
  }

  /** Searching a suffix is searching the text from where the suffix starts. */
  lemma SuffixSearch(markers: seq<Bytes>, text: Bytes, d: nat)
    requires d <= |text|
    ensures Occurs(markers, text[d..]) <==> OccursFrom(markers, text, d)
  {
    if Occurs(markers, text[d..]) {
      var k, i :| 0 <= k < |markers| && 0 <= i <= |text[d..]| - |markers[k]| && OccursAt(markers[k], text[d..], i);
      DropShifts(markers[k], text, d, i);
      assert OccursAt(markers[k], text, i + d);
    }
    if OccursFrom(markers, text, d) {
      var k, i :| 0 <= k < |markers| && d <= i <= |text| - |markers[k]| && OccursAt(markers[k], text, i);
      DropShifts(markers[k], text, d, i - d);
      assert OccursAt(markers[k], text[d..], i - d);
    }
  }

  lemma PrefixKeeps(marker: Bytes, text: Bytes, more: Bytes, i: int)
    requires 0 <= i <= |text| - |marker|
    ensures OccursAt(marker, text + more, i) <==> OccursAt(marker, text, i)
  {
    assert (text + more)[i..i + |marker|] == text[i..i + |marker|];
  }

  /** With the last Longest-1 bytes kept, a marker that ends in the new chunk is
      found there, and one that ended earlier had been found earlier. */
  lemma ChunkSearch(markers: seq<Bytes>, before: Bytes, chunk: Bytes, from: nat)
    requires from <= |before|
    requires from == 0 || |before| - from == Longest(markers) - 1
    ensures Occurs(markers, before + chunk) <==> Occurs(markers, before) || OccursFrom(markers, before + chunk, from)
  {
    var text := before + chunk;
    if Occurs(markers, text) {
      var k, i :| 0 <= k < |markers| && 0 <= i <= |text| - |markers[k]| && OccursAt(markers[k], text, i);
      if i < from {
        assert |markers[k]| <= Longest(markers) by { assert markers[k] in markers; }
        PrefixKeeps(markers[k], before, chunk, i);
        assert OccursAt(markers[k], before, i);
      }
    }
    if Occurs(markers, before) {
      var k, i :| 0 <= k < |markers| && 0 <= i <= |before| - |markers[k]| && OccursAt(markers[k], before, i);
      PrefixKeeps(markers[k], before, chunk, i);
      assert OccursAt(markers[k], text, i);
    }
  }

  class SseErrorEventScanner {
    const markers: seq<Bytes>
    var carry: Bytes
    ghost var stream: Bytes  // everything scanned so far

    /** The carry is the last Longest-1 bytes of the stream, or all of a shorter one. */
    ghost predicate Valid()
      reads this
    {
      && Longest(markers) > 0
      && carry == stream[CarryStart()..]
    }

    ghost function CarryStart(): (d: nat)
      reads this
      requires Longest(markers) > 0
      ensures d <= |stream|
    {
      if |stream| < Longest(markers) then 0 else |stream| - (Longest(markers) - 1)
    }

    constructor (markers: seq<Bytes>)
      requires Longest(markers) > 0
      ensures Valid() && stream == [] && this.markers == markers
    {
      this.markers := markers;
      carry, stream := [], [];
    }

    /** One call: true exactly when a marker starts in the carried bytes or
        later; with the earlier calls it decides the search of all that was
        scanned. */
    method Scan(chunk: Bytes) returns (found: bool)
      requires Valid()
      modifies this
      ensures Valid() && stream == old(stream) + chunk
      ensures found <==> OccursFrom(markers, stream, old(CarryStart()))
      ensures Occurs(markers, stream) <==> Occurs(markers, old(stream)) || found
    {
      ghost var d := CarryStart();
      var buf := carry + chunk;
      found := Occurs(markers, buf);
      SuffixSearch(markers, stream + chunk, d);
      assert buf == (stream + chunk)[d..];
      var keep := Longest(markers) - 1;
      if keep > |buf| {
        keep := |buf|;
      }
      ChunkSearch(markers, stream, chunk, d);
      stream := stream + chunk;
      carry := buf[|buf| - keep..];
    }
  }

  function Concat(chunks: seq<Bytes>): Bytes {
    if chunks == [] then [] else Concat(chunks[..|chunks| - 1]) + chunks[|chunks| - 1]
  }

  /** Markers a scanner can be built for: `windows` refuses an empty one. */
  predicate Searchable(markers: seq<Bytes>) {
    markers != [] && forall k :: 0 <= k < |markers| ==> markers[k] != []
  }

  lemma SearchableLongest(markers: seq<Bytes>)
    requires Searchable(markers)
    ensures Longest(markers) > 0 && !Occurs(markers, [])
  {
    assert markers[0] in markers;
  }

  lemma ShippedMarkersSearchable()
    ensures Searchable(MARKERS)
  {
  }

  /** Whole-stream search in the first k chunks taken together. */
  predicate FoundWithin(markers: seq<Bytes>, chunks: seq<Bytes>, k: nat)
    requires k <= |chunks|
  {
    Occurs(markers, Concat(chunks[..k]))
  }

  /** One of the first k calls raised the alarm. */
  predicate AlarmedWithin(alarms: seq<bool>, k: nat)
    requires k <= |alarms|
  {
    exists j :: 0 <= j < k && alarms[j]
  }

  ghost predicate Agree(markers: seq<Bytes>, chunks: seq<Bytes>, alarms: seq<bool>)
    requires |alarms| <= |chunks|
  {
    forall k :: 0 <= k <= |alarms| ==> (AlarmedWithin(alarms, k) <==> FoundWithin(markers, chunks, k))
  }

  lemma ConcatSnoc(chunks: seq<Bytes>, i: nat)
    requires i < |chunks|
    ensures Concat(chunks[..i + 1]) == Concat(chunks[..i]) + chunks[i]
  {
    assert chunks[..i + 1][..i] == chunks[..i];
  }

  lemma AgreeSnoc(markers: seq<Bytes>, chunks: seq<Bytes>, alarms: seq<bool>, found: bool)
    requires |alarms| < |chunks| && Agree(markers, chunks, alarms)
    requires FoundWithin(markers, chunks, |alarms| + 1) <==> FoundWithin(markers, chunks, |alarms|) || found
    ensures Agree(markers, chunks, alarms + [found])
  {
    var after := alarms + [found];
    forall k | 0 <= k <= |after|
      ensures AlarmedWithin(after, k) <==> FoundWithin(markers, chunks, k)
    {
      var earlier := if k <= |alarms| then k else |alarms|;
      assert forall j :: 0 <= j < earlier ==> after[j] == alarms[j];
      assert AlarmedWithin(after, earlier) <==> AlarmedWithin(alarms, earlier);
      assert AlarmedWithin(alarms, earlier) <==> FoundWithin(markers, chunks, earlier);
      if k == |after| {
        assert after[|alarms|] == found;
        assert AlarmedWithin(after, k) <==> AlarmedWithin(after, earlier) || found;
      }
    }
  }

  /** A whole forwarded stream, in any chunking: the first k calls have raised
      the alarm exactly when a marker occurs in the first k chunks taken
      together. So the first alarm is raised on the chunk in which the
      earliest-ending marker ends, and one is raised at all exactly when
      whole-stream search succeeds. */
  method ScanStream(markers: seq<Bytes>, chunks: seq<Bytes>) returns (alarms: seq<bool>)
    requires Searchable(markers)
    ensures |alarms| == |chunks|
    ensures forall k :: 0 <= k <= |chunks| ==> (AlarmedWithin(alarms, k) <==> FoundWithin(markers, chunks, k))
  {
    SearchableLongest(markers);
    var scanner := new SseErrorEventScanner(markers);
    alarms := [];
    for i := 0 to |chunks|
      invariant scanner.Valid() && scanner.markers == markers && fresh(scanner)
      invariant |alarms| == i && scanner.stream == Concat(chunks[..i])
      invariant Agree(markers, chunks, alarms)
    {
      ConcatSnoc(chunks, i);
      var found := scanner.Scan(chunks[i]);
      AgreeSnoc(markers, chunks, alarms, found);
      alarms := alarms + [found];
    }
  }
}
