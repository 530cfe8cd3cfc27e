/** The media cache service and the endpoint in front of it, updating the cache directory in place. */
module MediaService {
  import opened MediaCache
  import opened MediaRange
  import opened Wrappers

  datatype FileInfo = FileInfo(size: nat, cached: bool)

  datatype Reply = NotFound | Served(span: Span, length: int, body: seq<Byte>)

  function ExpiredIn(files: Dir, listing: seq<Path>, now: int): nat
    requires forall p | p in listing :: p in files
  {
    if listing == [] then 0
    else
      Prefix(listing);
      ExpiredIn(files, listing[..|listing| - 1], now) + if ExpiredAt(files, listing[|listing| - 1], now) then 1 else 0
  }

  lemma Prefix(listing: seq<Path>)
    requires listing != []
    ensures forall p | p in listing[..|listing| - 1] :: p in listing
  {
  }

  function Gone(paths: seq<Path>, stuck: set<Path>): set<Path> {
    (set p | p in paths) - stuck
  }

  ghost predicate Agrees(files: Dir, path: Path, bytes: seq<Byte>) {
    path in files ==> files[path].bytes == bytes
  }

  // As many bytes as announced exactly unless end is 0 in a longer file, and then the right ones.
  predicate Exact(bytes: seq<Byte>, span: Span, body: seq<Byte>) {
    && (|body| == span.end - span.start + 1 <==> !(span.end == 0 && |bytes| > 1))
    && (|body| == span.end - span.start + 1 ==>
          0 <= span.start <= span.end + 1 <= |bytes| && body == bytes[span.start..span.end + 1])
  }

  lemma RangeIsExact(bytes: seq<Byte>, header: Option<string>, toInt: string -> Option<int>)
    ensures var span := ParseRange(header, |bytes|, toInt);
            && span.start >= 0
            && (bytes != [] ==> span.start <= span.end < |bytes|)
            && Exact(bytes, span, Streamed(bytes, span.start, Some(span.end)))
  {
  }

  lemma AgreesAfterGet(files: Dir, path: Path, bytes: seq<Byte>, found: Option<seq<Byte>>, now: int, w: Weather)
    requires Agrees(files, path, bytes) && (found.Some? ==> found.value == bytes)
    ensures Agrees(AfterGet(files, path, found, now, w), path, bytes)
    ensures w.storeUp && found.Some? ==> path in AfterGet(files, path, found, now, w)
  {
  }

  class Service {
    const prefix: string
    var now: int
    var files: Dir

    constructor (prefix: string, now: int)
      ensures this.prefix == prefix && this.now == now && files == map[]
    {
      this.prefix, this.now, files := prefix, now, map[];
    }

    method DeleteCacheFile(path: Path, works: bool)
      modifies this`files
      ensures files == if works then old(files) - {path} else old(files)
    {
      if works {
        files := files - {path};
      }
    }

    method Wait(ms: nat)
      modifies this`now
      ensures now == old(now) + ms
    {
      now := now + ms;
    }

    method GetFileInfo(u: Upload, found: Option<seq<Byte>>, w: Weather) returns (info: Option<FileInfo>)
      modifies this`files
      ensures files == DropStale(old(files), PathOf(prefix, u), now, w.deletable)
      ensures info == if FreshAt(old(files), PathOf(prefix, u), now) then
                        Some(FileInfo(|old(files)[PathOf(prefix, u)].bytes|, true))
                      else if w.storeUp && found.Some? then Some(FileInfo(|found.value|, false))
                      else None
    {
      var path := PathOf(prefix, u);
      if path in files {
        if now - files[path].mtime < CACHE_TTL {
          return Some(FileInfo(|files[path].bytes|, true));
        }
        DeleteCacheFile(path, w.deletable);
      }
      if !w.storeUp || found.None? {
        return None;
      }
      info := Some(FileInfo(|found.value|, false));
    }

    method GetOrDownload(u: Upload, found: Option<seq<Byte>>, w: Weather) returns (got: Option<Path>)
      modifies this`files
      ensures files == AfterGet(old(files), PathOf(prefix, u), found, now, w)
      ensures got.Some? <==> FreshAt(old(files), PathOf(prefix, u), now) || (w.storeUp && found.Some?)
      ensures got.Some? ==> got.value == PathOf(prefix, u) && FreshAt(files, got.value, now)
    {
      var path := PathOf(prefix, u);
      if path in files {
        if now - files[path].mtime < CACHE_TTL {
          files := files[path := files[path].(mtime := now)];
          return Some(path);
        }
        DeleteCacheFile(path, w.deletable);
      }
      if !w.storeUp || found.None? {
        return None;
      }
      files := files[path := File(found.value, now)];
      got := Some(path);
      assert files == old(files)[path := File(found.value, now)];
    }

    method StreamFile(u: Upload, start: nat, end: Option<int>, found: Option<seq<Byte>>, w: Weather)
      returns (chunks: seq<seq<Byte>>)
      modifies this`files
      ensures files == AfterGet(old(files), PathOf(prefix, u), found, now, w)
      ensures Joined(chunks) == if FreshAt(old(files), PathOf(prefix, u), now) || (w.storeUp && found.Some?)
                                then Streamed(files[PathOf(prefix, u)].bytes, start, end) else []
    {
      var got := GetOrDownload(u, found, w);
      if got.None? {
        return [];
      }
      chunks := StreamChunks(files[got.value].bytes, start, end);
    }

    // The endpoint, for an object whose bytes never change and a cache that agrees with it: from a
    // file still fresh when streaming starts, or after a download, the body is exactly the announced
    // range, except for end 0 in a longer file, where the whole file is sent; otherwise the announced
    // length is followed by nothing.
    method StreamMedia(u: Upload, header: Option<string>, toInt: string -> Option<int>, ghost bytes: seq<Byte>,
                       found: Option<seq<Byte>>, first: Weather, lag: nat, second: Weather) returns (reply: Reply)
      requires Agrees(files, PathOf(prefix, u), bytes) && (found.Some? ==> found.value == bytes)
      modifies this
      ensures Agrees(files, PathOf(prefix, u), bytes)
      ensures reply.NotFound? <==> !FreshAt(old(files), PathOf(prefix, u), old(now)) && !(first.storeUp && found.Some?)
      ensures var kept := DropStale(old(files), PathOf(prefix, u), old(now), first.deletable);
              files == if reply.NotFound? then kept else AfterGet(kept, PathOf(prefix, u), found, now, second)
      ensures reply.Served? ==>
                && reply.span == ParseRange(header, |bytes|, toInt)
                && reply.length == reply.span.end - reply.span.start + 1
                && (bytes != [] ==> 0 <= reply.span.start <= reply.span.end < |bytes|)
                && if FreshAt(old(files), PathOf(prefix, u), old(now) + lag) || (second.storeUp && found.Some?)
                   then Exact(bytes, reply.span, reply.body) else reply.body == []
    {
      var info := GetFileInfo(u, found, first);
      if info.None? {
        return NotFound;
      }
      var span := ParseRange(header, info.value.size, toInt);
      RangeIsExact(bytes, header, toInt);
      Wait(lag);
      AgreesAfterGet(files, PathOf(prefix, u), bytes, found, now, second);
      var chunks := StreamFile(u, span.start, Some(span.end), found, second);
      reply := Served(span, span.end - span.start + 1, Joined(chunks));
    }

    method CleanupIfNeeded(listing: seq<Path>, stuck: set<Path>, running: bool)
      requires IsListing(files, listing)
      modifies this`files
      ensures files == if running then old(files) else AfterCleanup(old(files), listing, stuck)
    {
      if running {
        return;
      }
      var was, total := files, 0;
      for i := 0 to |listing|
        invariant files == was && (forall p | p in listing[..i] :: p in was) && total == Size(was, listing[..i])
      {
        assert forall p | p in listing[..i] + [listing[i]] :: p in listing;
        SizeOfParts(was, listing[..i], [listing[i]]);
        assert listing[..i + 1] == listing[..i] + [listing[i]];
        total := total + |was[listing[i]].bytes|;
      }
      assert listing[..|listing|] == listing;
      if total <= MAX_SIZE {
        assert Victims(was, listing) == [] && (set p | p in Victims(was, listing)) - stuck == {};
        return;
      }
      Evict(ByAge(was, listing), total, stuck);
    }

    // The eviction loop; sizes were read before it began.
    method Evict(sorted: seq<Path>, total: int, stuck: set<Path>)
      requires forall p | p in sorted :: p in files
      modifies this`files
      ensures Evictions(old(files), sorted, total) <= |sorted|
      ensures files == old(files) - Gone(sorted[..Evictions(old(files), sorted, total)], stuck)
    {
      var was, left := files, total;
      ghost var n := Evictions(was, sorted, total);
      EvictionsFit(was, sorted, total);
      var i := 0;
      assert sorted[0..] == sorted && was - Gone(sorted[..0], stuck) == was;
      while i < |sorted| && !SmallEnough(left)
        invariant 0 <= i <= n
        invariant i + Evictions(was, sorted[i..], left) == n
        invariant files == was - Gone(sorted[..i], stuck)
      {
        DeleteCacheFile(sorted[i], sorted[i] !in stuck);
        GoneMore(was, sorted, i, stuck);
        left := left - |was[sorted[i]].bytes|;
        assert sorted[i..][1..] == sorted[i + 1..];
        i := i + 1;
      }
    }

    method CleanupExpired(listing: seq<Path>, stuck: set<Path>) returns (deleted: nat)
      requires IsListing(files, listing)
      modifies this`files
      ensures files == AfterExpiry(old(files), listing, now, stuck)
      ensures deleted == ExpiredIn(old(files), listing, now)
    {
      var was := files;
      deleted := 0;
      assert Expired(was, listing[..0], now) == {};
      for i := 0 to |listing|
        invariant (forall p | p in listing[..i] :: p in was) && deleted == ExpiredIn(was, listing[..i], now)
        invariant files == was - (Expired(was, listing[..i], now) - stuck)
      {
        ExpiredMore(was, listing, i, now, stuck);
        if now - was[listing[i]].mtime > CACHE_TTL {
          DeleteCacheFile(listing[i], listing[i] !in stuck);
          deleted := deleted + 1;
        }
      }
      assert listing[..|listing|] == listing;
    }
  }

  lemma ExpiredMore(was: Dir, listing: seq<Path>, i: nat, now: int, stuck: set<Path>)
    requires i < |listing| && forall p | p in listing :: p in was
    ensures (forall p | p in listing[..i] :: p in was) && (forall p | p in listing[..i + 1] :: p in was)
    ensures var expired := ExpiredAt(was, listing[i], now);
            && ExpiredIn(was, listing[..i + 1], now) == ExpiredIn(was, listing[..i], now) + (if expired then 1 else 0)
            && Expired(was, listing[..i + 1], now) == Expired(was, listing[..i], now)
                + (if expired then {listing[i]} else {})
            && var before := was - (Expired(was, listing[..i], now) - stuck);
               was - (Expired(was, listing[..i + 1], now) - stuck)
               == if expired && listing[i] !in stuck then before - {listing[i]} else before
  {
    assert listing[..i + 1][..i] == listing[..i];
    assert forall p :: p in listing[..i + 1] <==> p in listing[..i] || p == listing[i];
  }

  lemma GoneMore(was: Dir, sorted: seq<Path>, i: nat, stuck: set<Path>)
    requires i < |sorted|
    ensures var before := was - Gone(sorted[..i], stuck);
            was - Gone(sorted[..i + 1], stuck) == if sorted[i] in stuck then before else before - {sorted[i]}
  {
  }

  // If every file can be deleted, an expiry pass returns the number of files it removed.
  lemma {:induction false} ExpiryCountsRemovals(files: Dir, listing: seq<Path>, now: int)
    requires (forall p | p in listing :: p in files) && forall i, j | 0 <= i < j < |listing| :: listing[i] != listing[j]
    ensures |Expired(files, listing, now)| == ExpiredIn(files, listing, now)
  {
    if listing == [] {
      assert Expired(files, listing, now) == {};
    } else {
      var n := |listing| - 1;
      ExpiredMore(files, listing, n, now, {});
      assert listing[..n + 1] == listing && listing[n] !in listing[..n];
      ExpiryCountsRemovals(files, listing[..n], now);
    }
  }
}
