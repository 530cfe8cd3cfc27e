/** Byte ranges: the Range header as the media endpoint reads it, and the loop that streams a range. */
module MediaRange {
  import opened Wrappers

  type Byte = bv8

  const CHUNK_SIZE: int := 1024 * 1024

  // s.replace(what, "").
  function Without(s: string, what: string): string
    requires what != ""
    decreases |s|
  {
    if |s| < |what| then s
    else if s[..|what|] == what then Without(s[|what|..], what)
    else [s[0]] + Without(s[1..], what)
  }

  function Split(s: string, at: char): (parts: seq<string>)
    ensures |parts| >= 1
    ensures at in s ==> |parts| >= 2
    decreases |s|
  {
    if s == "" then [""]
    else
      var rest := Split(s[1..], at);
      if s[0] == at then [""] + rest else [[s[0]] + rest[0]] + rest[1..]
  }

  datatype Span = Span(start: int, end: int)

  // A part that is empty takes the default; `toInt` is int(), which refuses some texts.
  function Bound(part: string, default: int, toInt: string -> Option<int>): Option<int> {
    if part == "" then Some(default) else toInt(part)
  }

  function ParseRange(header: Option<string>, size: int, toInt: string -> Option<int>): Span {
    var whole := Span(0, size - 1);
    if header.None? || header.value == "" then whole
    else
      var spec := Without(header.value, "bytes=");
      if '-' !in spec then whole
      else
        var parts := Split(spec, '-');
        var first, last := Bound(parts[0], 0, toInt), Bound(parts[1], size - 1, toInt);
        if first.None? || last.None? then whole
        else
          var start, end := Max(0, first.value), Min(last.value, size - 1);
          if start > end then whole else Span(start, end)
  }

  // Whatever the header says, the range lies in the file.
  lemma RangeIsWithinTheFile(header: Option<string>, size: int, toInt: string -> Option<int>)
    requires size >= 1
    ensures var r := ParseRange(header, size, toInt); 0 <= r.start <= r.end < size
  {
  }

  // A header that names a satisfiable range gets that range, cut at the end of the file.
  lemma SatisfiableRangeIsServed(first: string, last: string, size: int, toInt: string -> Option<int>)
    requires first != "" && '-' !in first && '-' !in last && Without(first + "-" + last, "bytes=") == first + "-" + last
    requires toInt(first).Some? && 0 <= toInt(first).value < size
    requires last != "" ==> toInt(last).Some? && toInt(first).value <= toInt(last).value
    ensures ParseRange(Some("bytes=" + (first + "-" + last)), size, toInt)
            == Span(toInt(first).value, if last == "" then size - 1 else Min(toInt(last).value, size - 1))
  {
    HeaderParts(first, last);
  }

  lemma {:induction false} NoDashAppears(s: string, what: string)
    requires what != "" && '-' !in s
    ensures '-' !in Without(s, what)
    decreases |s|
  {
    if |s| >= |what| {
      if s[..|what|] == what { NoDashAppears(s[|what|..], what); } else { NoDashAppears(s[1..], what); }
    }
  }

  // A request without a range, or with one that cannot be read, gets the whole file.
  lemma NoReadableRangeIsWhole(header: Option<string>, size: int, toInt: string -> Option<int>)
    requires header.Some? ==> '-' !in header.value
    ensures ParseRange(header, size, toInt) == Span(0, size - 1)
  {
    if header.Some? { NoDashAppears(header.value, "bytes="); }
  }

  lemma UnreadableBoundIsWhole(first: string, last: string, size: int, toInt: string -> Option<int>)
    requires '-' !in first && '-' !in last && Without(first + "-" + last, "bytes=") == first + "-" + last
    requires (first != "" && toInt(first).None?) || (last != "" && toInt(last).None?)
    ensures ParseRange(Some("bytes=" + (first + "-" + last)), size, toInt) == Span(0, size - 1)
  {
    HeaderParts(first, last);
  }

  // So does one whose start lies behind its end or behind the file.
  lemma EmptyRangeIsWhole(first: string, last: string, size: int, toInt: string -> Option<int>)
    requires '-' !in first && '-' !in last && Without(first + "-" + last, "bytes=") == first + "-" + last
    requires first != "" && toInt(first).Some? && (last != "" ==> toInt(last).Some?)
    requires toInt(first).value >= size || (last != "" && toInt(last).value < Max(0, toInt(first).value))
    requires size >= 1
    ensures ParseRange(Some("bytes=" + (first + "-" + last)), size, toInt) == Span(0, size - 1)
  {
    HeaderParts(first, last);
  }

  lemma HeaderParts(first: string, last: string)
    requires '-' !in first && '-' !in last && Without(first + "-" + last, "bytes=") == first + "-" + last
    ensures var spec := Without("bytes=" + (first + "-" + last), "bytes=");
            '-' in spec && Split(spec, '-') == [first, last]
  {
    var spec := first + "-" + last;
    var header := "bytes=" + spec;
    assert header[..6] == "bytes=" && header[6..] == spec;
    assert Without(header, "bytes=") == spec;
    assert spec[|first|] == '-';
    SplitOnce(first, last, '-');
  }

  lemma {:induction false} SplitNone(s: string, at: char)
    requires at !in s
    ensures Split(s, at) == [s]
    decreases |s|
  {
    if s != "" {
      SplitNone(s[1..], at);
      assert [s[0]] + s[1..] == s;
    }
  }

  lemma {:induction false} SplitOnce(first: string, last: string, at: char)
    requires at !in first && at !in last
    ensures Split(first + [at] + last, at) == [first, last]
    decreases |first|
  {
    var s := first + [at] + last;
    if first == "" {
      assert s[1..] == last;
      SplitNone(last, at);
    } else {
      assert s[1..] == first[1..] + [at] + last;
      SplitOnce(first[1..], last, at);
      assert [first[0]] + first[1..] == first;
    }
  }

  // ---------------------------------------------------------------- streaming

  function Joined(chunks: seq<seq<Byte>>): seq<Byte> {
    if chunks == [] then [] else Joined(chunks[..|chunks| - 1]) + chunks[|chunks| - 1]
  }

  function From(data: seq<Byte>, at: nat): seq<Byte> {
    if at < |data| then data[at..] else []
  }

  // f.read(n): all the rest for a negative n.
  function ReadAt(data: seq<Byte>, at: nat, n: int): seq<Byte> {
    var rest := From(data, at);
    if n < 0 || n >= |rest| then rest else rest[..n]
  }

  // What the loop is meant to send: everything from `start`, or a counted stretch when `end` is
  // given and not 0.
  function Streamed(data: seq<Byte>, start: nat, end: Option<int>): seq<Byte> {
    if end.None? || end.value == 0 then From(data, start) else ReadAt(data, start, end.value - start + 1)
  }

  // What the loop still has to send.
  function ToSend(data: seq<Byte>, at: nat, remaining: Option<int>): seq<Byte> {
    if remaining.None? then From(data, at) else ReadAt(data, at, remaining.value)
  }

  function ChunkSize(remaining: Option<int>): int {
    if remaining.Some? then Min(CHUNK_SIZE, remaining.value) else CHUNK_SIZE
  }

  function AfterChunk(remaining: Option<int>, n: nat): Option<int> {
    if remaining.Some? then Some(remaining.value - n) else None
  }

  predicate Over(chunk: seq<Byte>, remaining: Option<int>) {
    chunk == [] || (remaining.Some? && remaining.value <= 0)
  }

  lemma OneChunk(data: seq<Byte>, at: nat, remaining: Option<int>)
    ensures var chunk := ReadAt(data, at, ChunkSize(remaining));
            var left := AfterChunk(remaining, |chunk|);
            && ToSend(data, at, remaining) == chunk
                + (if Over(chunk, left) then [] else ToSend(data, at + |chunk|, left))
            && (chunk != [] ==> at + |chunk| <= |data|)
  {
    var chunk := ReadAt(data, at, ChunkSize(remaining));
    assert at < |data| ==> data[at..][|chunk|..] == data[at + |chunk|..];
  }

  datatype Loop = Loop(chunks: seq<seq<Byte>>, at: nat, remaining: Option<int>, done: bool)

  function Read(data: seq<Byte>, l: Loop): seq<Byte> {
    ReadAt(data, l.at, ChunkSize(l.remaining))
  }

  function Yield(l: Loop, chunk: seq<Byte>): Loop {
    var left := AfterChunk(l.remaining, |chunk|);
    Loop(if chunk == [] then l.chunks else l.chunks + [chunk], l.at + |chunk|, left, Over(chunk, left))
  }

  // What was sent so far followed by what is still to send.
  function Outlook(data: seq<Byte>, l: Loop): seq<Byte> {
    Joined(l.chunks) + if l.done then [] else ToSend(data, l.at, l.remaining)
  }

  function Begin(start: nat, end: Option<int>): Loop {
    Loop([], start, if end.Some? && end.value != 0 then Some(end.value - start + 1) else None, false)
  }

  lemma BeginOutlook(data: seq<Byte>, start: nat, end: Option<int>)
    ensures Outlook(data, Begin(start, end)) == Streamed(data, start, end)
  {
  }

  function Room(data: seq<Byte>, l: Loop): nat {
    if l.done then 0 else 1 + if l.at < |data| then |data| - l.at else 0
  }

  lemma YieldOutlook(data: seq<Byte>, l: Loop)
    requires !l.done
    ensures Outlook(data, Yield(l, Read(data, l))) == Outlook(data, l)
    ensures Room(data, Yield(l, Read(data, l))) < Room(data, l)
  {
    var chunk := Read(data, l);
    OneChunk(data, l.at, l.remaining);
    assert (l.chunks + [chunk])[..|l.chunks|] == l.chunks;
  }

  lemma DoneOutlook(data: seq<Byte>, l: Loop)
    requires l.done
    ensures Outlook(data, l) == Joined(l.chunks)
  {
  }

  // One pass through the loop.
  method ReadOn(data: seq<Byte>, l: Loop) returns (next: Loop)
    requires !l.done
    ensures next == Yield(l, Read(data, l))
  {
    var chunkSize := CHUNK_SIZE;
    if l.remaining.Some? {
      chunkSize := Min(chunkSize, l.remaining.value);
    }
    var chunk := ReadAt(data, l.at, chunkSize);
    if chunk == [] {
      return l.(done := true);
    }
    next := l.(chunks := l.chunks + [chunk], at := l.at + |chunk|);
    if l.remaining.Some? {
      var remaining := l.remaining.value - |chunk|;
      next := next.(remaining := Some(remaining), done := remaining <= 0);
    }
  }

  method StreamChunks(data: seq<Byte>, start: nat, end: Option<int>) returns (chunks: seq<seq<Byte>>)
    ensures Joined(chunks) == Streamed(data, start, end)
  {
    var l := Begin(start, end);
    BeginOutlook(data, start, end);
    while !l.done
      invariant Outlook(data, l) == Streamed(data, start, end)
      decreases Room(data, l)
    {
      YieldOutlook(data, l);
      l := ReadOn(data, l);
    }
    DoneOutlook(data, l);
    chunks := l.chunks;
  }

  // For every header and file: the bytes sent are exactly start..end, as many as declared, unless
  // end is 0 in a file of more than one byte; then the whole file is sent.
  lemma ServedRangeIsExactIff(data: seq<Byte>, header: Option<string>, toInt: string -> Option<int>)
    ensures var r := ParseRange(header, |data|, toInt);
            var sent := Streamed(data, r.start, Some(r.end));
            && (|sent| == r.end - r.start + 1 <==> !(r.end == 0 && |data| > 1))
            && (!(r.end == 0 && |data| > 1) ==> sent == data[r.start..r.end + 1])
            && (r.end == 0 ==> sent == data)
  {
  }
}
