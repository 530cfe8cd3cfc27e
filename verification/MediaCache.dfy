/**
  The local cache of media objects: one directory of flat files, filled from the object store,
  refreshed by reading, emptied by age and by size. Times are in milliseconds.
*/
module MediaCache {
  import opened MediaRange
  import opened Wrappers

  const CACHE_TTL: int := 3 * 3600 * 1000
  const MAX_SIZE: int := 10 * 1024 * 1024 * 1024

  type Path = string

  // An uploaded object is stored under prefix/<32 hex digits><extension of the file name>.
  datatype Upload = Upload(uuid: string, ext: string)

  predicate IsHex(s: string) {
    forall i | 0 <= i < |s| :: '0' <= s[i] <= '9' || 'a' <= s[i] <= 'f'
  }

  predicate WellFormed(u: Upload) {
    |u.uuid| == 32 && IsHex(u.uuid)
  }

  function ObjectKey(prefix: string, u: Upload): string {
    prefix + "/" + u.uuid + u.ext
  }

  function FlatChar(c: char): char {
    if c == '/' || c == '\\' then '_' else c
  }

  function Flatten(key: string): Path {
    seq(|key|, i requires 0 <= i < |key| => FlatChar(key[i]))
  }

  function PathOf(prefix: string, u: Upload): Path {
    Flatten(ObjectKey(prefix, u))
  }

  // Two keys share a cache file exactly if they differ in nothing but which separators they use.
  lemma FlattenCollidesIff(a: string, b: string)
    ensures Flatten(a) == Flatten(b) <==>
            |a| == |b| && forall i | 0 <= i < |a| :: a[i] == b[i] || (a[i] in "/\\_" && b[i] in "/\\_")
  {
    if Flatten(a) == Flatten(b) {
      assert |a| == |Flatten(a)| == |b|;
      forall i | 0 <= i < |a|
        ensures a[i] == b[i] || (a[i] in "/\\_" && b[i] in "/\\_")
      {
        assert FlatChar(a[i]) == Flatten(a)[i] == Flatten(b)[i] == FlatChar(b[i]);
      }
    }
  }

  // Keys of two uploads never do: their digits differ somewhere.
  lemma UploadsAreKeptApart(prefix: string, a: Upload, b: Upload)
    requires WellFormed(a) && WellFormed(b) && a.uuid != b.uuid
    ensures PathOf(prefix, a) != PathOf(prefix, b)
  {
    var i :| 0 <= i < 32 && a.uuid[i] != b.uuid[i];
    var at := |prefix| + 1 + i;
    assert ObjectKey(prefix, a)[at] == a.uuid[i] && ObjectKey(prefix, b)[at] == b.uuid[i];
    assert PathOf(prefix, a)[at] == a.uuid[i] && PathOf(prefix, b)[at] == b.uuid[i];
  }

  // ---------------------------------------------------------------- files

  datatype File = File(bytes: seq<Byte>, mtime: int)

  type Dir = map<Path, File>

  predicate FreshAt(files: Dir, path: Path, now: int) {
    path in files && now - files[path].mtime < 3 * 3600 * 1000
  }

  // What the object store answers to a stat or a download, and whether a file can be deleted.
  datatype Weather = Weather(storeUp: bool, deletable: bool)

  function DropStale(files: Dir, path: Path, now: int, deletable: bool): Dir {
    if path in files && !FreshAt(files, path, now) && deletable then files - {path} else files
  }

  function AfterGet(files: Dir, path: Path, found: Option<seq<Byte>>, now: int, w: Weather): Dir {
    if FreshAt(files, path, now) then files[path := files[path].(mtime := now)]
    else if w.storeUp && found.Some? then files[path := File(found.value, now)]
    else DropStale(files, path, now, w.deletable)
  }

  function Size(files: Dir, listing: seq<Path>): nat
    requires forall p | p in listing :: p in files
  {
    if listing == [] then 0 else |files[listing[0]].bytes| + Size(files, listing[1..])
  }

  // path.suffix in (".tmp", ".meta"), of a name that has a stem.
  predicate Skipped(path: Path) {
    (|path| > 4 && path[|path| - 4..] == ".tmp") || (|path| > 5 && path[|path| - 5..] == ".meta")
  }

  // iterdir(): every cache file once, in any order.
  ghost predicate IsListing(files: Dir, listing: seq<Path>) {
    && (forall p | p in listing :: p in files && !Skipped(p))
    && (forall p | p in files && !Skipped(p) :: p in listing)
    && (forall i, j | 0 <= i < j < |listing| :: listing[i] != listing[j])
  }

  function InsertByAge(files: Dir, p: Path, sorted: seq<Path>): seq<Path>
    requires p in files && forall q | q in sorted :: q in files
  {
    if sorted == [] || files[p].mtime <= files[sorted[0]].mtime then [p] + sorted
    else [sorted[0]] + InsertByAge(files, p, sorted[1..])
  }

  // files.sort(key=mtime), a stable sort.
  function ByAge(files: Dir, listing: seq<Path>): (sorted: seq<Path>)
    requires forall p | p in listing :: p in files
    ensures multiset(sorted) == multiset(listing)
    ensures forall p :: p in sorted <==> p in listing
  {
    if listing == [] then []
    else
      var rest := ByAge(files, listing[1..]);
      InsertKeepsAll(files, listing[0], rest);
      assert listing == [listing[0]] + listing[1..];
      InsertByAge(files, listing[0], rest)
  }

  lemma {:induction false} InsertKeepsAll(files: Dir, p: Path, sorted: seq<Path>)
    requires p in files && forall q | q in sorted :: q in files
    ensures multiset(InsertByAge(files, p, sorted)) == multiset(sorted) + multiset{p}
    ensures forall q :: q in InsertByAge(files, p, sorted) <==> q == p || q in sorted
  {
    if sorted != [] && files[p].mtime > files[sorted[0]].mtime {
      InsertKeepsAll(files, p, sorted[1..]);
      assert sorted == [sorted[0]] + sorted[1..];
    }
  }

  ghost predicate OldestFirst(files: Dir, sorted: seq<Path>) {
    && (forall p | p in sorted :: p in files)
    && forall i, j | 0 <= i < j < |sorted| :: files[sorted[i]].mtime <= files[sorted[j]].mtime
  }

  lemma {:induction false} InsertKeepsOrder(files: Dir, p: Path, sorted: seq<Path>)
    requires p in files && OldestFirst(files, sorted)
    ensures (forall q | q in InsertByAge(files, p, sorted) :: q in files)
        && OldestFirst(files, InsertByAge(files, p, sorted))
  {
    InsertKeepsAll(files, p, sorted);
    if sorted != [] && files[p].mtime > files[sorted[0]].mtime {
      assert OldestFirst(files, sorted[1..]);
      InsertKeepsOrder(files, p, sorted[1..]);
      InsertKeepsAll(files, p, sorted[1..]);
      assert forall q | q in sorted[1..] :: files[sorted[0]].mtime <= files[q].mtime;
      PrependKeepsOrder(files, sorted[0], InsertByAge(files, p, sorted[1..]));
    } else {
      assert forall q | q in sorted :: files[p].mtime <= files[q].mtime;
      PrependKeepsOrder(files, p, sorted);
    }
  }

  lemma PrependKeepsOrder(files: Dir, p: Path, sorted: seq<Path>)
    requires p in files && OldestFirst(files, sorted) && forall q | q in sorted :: files[p].mtime <= files[q].mtime
    ensures OldestFirst(files, [p] + sorted)
  {
  }

  lemma {:induction false} ByAgeIsOldestFirst(files: Dir, listing: seq<Path>)
    requires forall p | p in listing :: p in files
    ensures OldestFirst(files, ByAge(files, listing))
  {
    if listing != [] {
      ByAgeIsOldestFirst(files, listing[1..]);
      InsertKeepsOrder(files, listing[0], ByAge(files, listing[1..]));
    }
  }

  // total_size <= max_size * 0.8.
  predicate SmallEnough(total: int) {
    5 * total <= 4 * MAX_SIZE
  }

  // How many of the sorted files the eviction loop goes through.
  function Evictions(files: Dir, sorted: seq<Path>, total: int): nat
    requires forall p | p in sorted :: p in files
  {
    if sorted == [] || SmallEnough(total) then 0
    else 1 + Evictions(files, sorted[1..], total - |files[sorted[0]].bytes|)
  }

  function Victims(files: Dir, listing: seq<Path>): seq<Path>
    requires forall p | p in listing :: p in files
  {
    var total := Size(files, listing);
    if total <= MAX_SIZE then []
    else
      var sorted := ByAge(files, listing);
      EvictionsFit(files, sorted, total);
      sorted[..Evictions(files, sorted, total)]
  }

  // A file that cannot be deleted is counted as gone all the same.
  function AfterCleanup(files: Dir, listing: seq<Path>, stuck: set<Path>): Dir
    requires forall p | p in listing :: p in files
  {
    files - ((set p | p in Victims(files, listing)) - stuck)
  }

  lemma {:induction false} EvictionsFit(files: Dir, sorted: seq<Path>, total: int)
    requires forall p | p in sorted :: p in files
    ensures Evictions(files, sorted, total) <= |sorted|
  {
    if sorted != [] && !SmallEnough(total) {
      EvictionsFit(files, sorted[1..], total - |files[sorted[0]].bytes|);
    }
  }

  // The loop stops at the first point where at most 80% of the limit is left, not before.
  lemma {:induction false} EvictionStopsAtTheMark(files: Dir, sorted: seq<Path>, total: int, k: nat)
    requires forall p | p in sorted :: p in files
    requires k <= Evictions(files, sorted, total) <= |sorted|
    ensures SmallEnough(total - Size(files, sorted[..k])) || k == |sorted| <==> k == Evictions(files, sorted, total)
  {
    if sorted != [] && !SmallEnough(total) && k > 0 {
      EvictionsFit(files, sorted[1..], total - |files[sorted[0]].bytes|);
      EvictionStopsAtTheMark(files, sorted[1..], total - |files[sorted[0]].bytes|, k - 1);
      assert sorted[..k][1..] == sorted[1..][..k - 1];
    }
  }

  lemma {:induction false} SizeOfParts(files: Dir, a: seq<Path>, b: seq<Path>)
    requires forall p | p in a + b :: p in files
    ensures (forall p | p in a :: p in a + b) && (forall p | p in b :: p in a + b)
    ensures Size(files, a + b) == Size(files, a) + Size(files, b)
  {
    assert forall p | p in a :: p in a + b;
    assert forall p | p in b :: p in a + b;
    if a == [] {
      assert a + b == b;
    } else {
      assert (a + b)[1..] == a[1..] + b;
      SizeOfParts(files, a[1..], b);
    }
  }

  lemma {:induction false} SizeIgnoresInsertion(files: Dir, p: Path, sorted: seq<Path>)
    requires p in files && forall q | q in sorted :: q in files
    ensures (forall q | q in InsertByAge(files, p, sorted) :: q in files)
    ensures Size(files, InsertByAge(files, p, sorted)) == |files[p].bytes| + Size(files, sorted)
  {
    InsertKeepsAll(files, p, sorted);
    if sorted != [] && files[p].mtime > files[sorted[0]].mtime {
      SizeIgnoresInsertion(files, p, sorted[1..]);
    }
  }

  lemma {:induction false} SizeIgnoresOrder(files: Dir, listing: seq<Path>)
    requires forall p | p in listing :: p in files
    ensures Size(files, ByAge(files, listing)) == Size(files, listing)
  {
    if listing != [] {
      SizeIgnoresOrder(files, listing[1..]);
      SizeIgnoresInsertion(files, listing[0], ByAge(files, listing[1..]));
    }
  }

  // The eviction loop over sorted files that exceed the limit takes the fewest that leave at most
  // 80% of it.
  lemma EvictionsReachTheMark(files: Dir, sorted: seq<Path>)
    requires (forall p | p in sorted :: p in files) && Size(files, sorted) > MAX_SIZE
    ensures var n := Evictions(files, sorted, Size(files, sorted));
            && 0 < n <= |sorted|
            && SmallEnough(Size(files, sorted[n..]))
            && !SmallEnough(Size(files, sorted[n - 1..]))
  {
    var total := Size(files, sorted);
    var n := Evictions(files, sorted, total);
    EvictionsFit(files, sorted, total);
    assert n > 0;
    EvictionStopsAtTheMark(files, sorted, total, n);
    EvictionStopsAtTheMark(files, sorted, total, n - 1);
    assert sorted == sorted[..n] + sorted[n..] && sorted == sorted[..n - 1] + sorted[n - 1..];
    SizeOfParts(files, sorted[..n], sorted[n..]);
    SizeOfParts(files, sorted[..n - 1], sorted[n - 1..]);
    if n == |sorted| { assert Size(files, sorted[n..]) == 0; }
  }

  // One cleanup: nothing goes unless the files together exceed the limit; the victims are the
  // oldest, exactly as many as it takes to leave at most 80% of the limit.
  lemma CleanupEvictsOldestToTheMark(files: Dir, listing: seq<Path>)
    requires forall p | p in listing :: p in files
    ensures var sorted, n := ByAge(files, listing), |Victims(files, listing)|;
            && OldestFirst(files, sorted) && multiset(sorted) == multiset(listing)
            && n <= |sorted| && Victims(files, listing) == sorted[..n]
            && (n == 0 <==> Size(files, listing) <= 10 * 1024 * 1024 * 1024)
            && (n > 0 ==>
                  5 * Size(files, sorted[n..]) <= 4 * 10 * 1024 * 1024 * 1024 < 5 * Size(files, sorted[n - 1..]))
  {
    var sorted := ByAge(files, listing);
    ByAgeIsOldestFirst(files, listing);
    SizeIgnoresOrder(files, listing);
    EvictionsFit(files, sorted, Size(files, sorted));
    if Size(files, listing) > MAX_SIZE { EvictionsReachTheMark(files, sorted); }
  }

  predicate ExpiredAt(files: Dir, path: Path, now: int)
    requires path in files
  {
    now - files[path].mtime > 3 * 3600 * 1000
  }

  function Expired(files: Dir, listing: seq<Path>, now: int): set<Path>
    requires forall p | p in listing :: p in files
  {
    set p | p in listing && ExpiredAt(files, p, now)
  }

  function AfterExpiry(files: Dir, listing: seq<Path>, now: int, stuck: set<Path>): Dir
    requires forall p | p in listing :: p in files
  {
    files - (Expired(files, listing, now) - stuck)
  }

  // ---------------------------------------------------------------- every sequence of requests

  // `objects` are all uploads ever made; `present` are those the store still has.
  datatype World = World(prefix: string, now: int, objects: map<Upload, seq<Byte>>, present: set<Upload>, files: Dir)

  datatype Op =
    | Tick(ms: nat)
    | Put(u: Upload, bytes: seq<Byte>)
    | Remove(u: Upload)
    | Info(u: Upload, w: Weather)
    | Get(u: Upload, w: Weather)
    | Cleanup(listing: seq<Path>, stuck: set<Path>)
    | Expire(listing: seq<Path>, stuck: set<Path>)

  function Stored(w: World, u: Upload): Option<seq<Byte>> {
    if u in w.present && u in w.objects then Some(w.objects[u]) else None
  }

  function Step(w: World, op: Op): World {
    match op
    case Tick(ms) => w.(now := w.now + ms)
    case Put(u, bytes) =>
      if !WellFormed(u) || exists other :: other in w.objects && other.uuid == u.uuid then w
      else w.(objects := w.objects[u := bytes], present := w.present + {u})
    case Remove(u) => w.(present := w.present - {u})
    case Info(u, m) => w.(files := DropStale(w.files, PathOf(w.prefix, u), w.now, m.deletable))
    case Get(u, m) => w.(files := AfterGet(w.files, PathOf(w.prefix, u), Stored(w, u), w.now, m))
    case Cleanup(listing, stuck) =>
      if exists p :: p in listing && p !in w.files then w else w.(files := AfterCleanup(w.files, listing, stuck))
    case Expire(listing, stuck) =>
      if exists p :: p in listing && p !in w.files then w else w.(files := AfterExpiry(w.files, listing, w.now, stuck))
  }

  function Play(w: World, ops: seq<Op>): World
    decreases |ops|
  {
    if ops == [] then w else Play(Step(w, ops[0]), ops[1..])
  }

  ghost predicate Owned(w: World, p: Path) {
    p in w.files ==> exists u :: u in w.objects && p == PathOf(w.prefix, u) && w.files[p].bytes == w.objects[u]
  }

  ghost predicate Faithful(w: World) {
    && (forall u | u in w.objects :: WellFormed(u))
    && (forall a, b | a in w.objects && b in w.objects && a.uuid == b.uuid :: a == b)
    && (forall p | p in w.files :: Owned(w, p))
  }

  lemma ObjectsStay(w: World, op: Op)
    ensures Step(w, op).prefix == w.prefix
    ensures forall u | u in w.objects :: u in Step(w, op).objects && Step(w, op).objects[u] == w.objects[u]
  {
  }

  // A file kept, or touched, by a step stays its object's.
  lemma OwnedStays(w: World, w': World, p: Path)
    requires p in w.files && Owned(w, p) && p in w'.files && w'.files[p].bytes == w.files[p].bytes
    requires w'.prefix == w.prefix && forall u | u in w.objects :: u in w'.objects && w'.objects[u] == w.objects[u]
    ensures Owned(w', p)
  {
  }

  lemma OnlyDownloadsWrite(w: World, op: Op, p: Path)
    requires p in Step(w, op).files && !(p in w.files && Step(w, op).files[p].bytes == w.files[p].bytes)
    ensures op.Get? && op.u in w.objects && p == PathOf(w.prefix, op.u) && Step(w, op).files[p].bytes == w.objects[op.u]
    ensures Step(w, op).objects == w.objects && Step(w, op).prefix == w.prefix
  {
  }

  lemma UploadsStayDistinct(w: World, op: Op)
    requires forall u | u in w.objects :: WellFormed(u)
    requires forall a, b | a in w.objects && b in w.objects && a.uuid == b.uuid :: a == b
    ensures forall u | u in Step(w, op).objects :: WellFormed(u)
    ensures forall a, b | a in Step(w, op).objects && b in Step(w, op).objects && a.uuid == b.uuid :: a == b
  {
  }

  lemma StepKeepsFaithful(w: World, op: Op)
    requires Faithful(w)
    ensures Faithful(Step(w, op))
  {
    var w' := Step(w, op);
    ObjectsStay(w, op);
    UploadsStayDistinct(w, op);
    forall p | p in w'.files
      ensures Owned(w', p)
    {
      if p in w.files && w'.files[p].bytes == w.files[p].bytes {
        OwnedStays(w, w', p);
      } else {
        OnlyDownloadsWrite(w, op, p);
      }
    }
  }

  lemma {:induction false} FaithfulForever(w: World, ops: seq<Op>)
    requires Faithful(w)
    ensures Faithful(Play(w, ops))
    decreases |ops|
  {
    if ops != [] {
      StepKeepsFaithful(w, ops[0]);
      FaithfulForever(Step(w, ops[0]), ops[1..]);
    }
  }

  lemma OwnFile(w: World, u: Upload)
    requires Faithful(w) && u in w.objects && PathOf(w.prefix, u) in w.files
    ensures w.files[PathOf(w.prefix, u)].bytes == w.objects[u]
  {
    assert Owned(w, PathOf(w.prefix, u));
    var other :| other in w.objects && PathOf(w.prefix, u) == PathOf(w.prefix, other)
                 && w.files[PathOf(w.prefix, u)].bytes == w.objects[other];
    if other.uuid != u.uuid { UploadsAreKeptApart(w.prefix, other, u); }
  }

  // After any uploads, removals, requests, expiries and evictions, a cached file holds its own
  // object's bytes.
  lemma CacheAgreesWithTheStore(prefix: string, ops: seq<Op>, u: Upload)
    requires var w := Play(World(prefix, 0, map[], {}, map[]), ops); u in w.objects && PathOf(prefix, u) in w.files
    ensures var w := Play(World(prefix, 0, map[], {}, map[]), ops);
            w.prefix == prefix && w.files[PathOf(prefix, u)].bytes == w.objects[u]
  {
    var start := World(prefix, 0, map[], {}, map[]);
    FaithfulForever(start, ops);
    PrefixStays(start, ops);
    OwnFile(Play(start, ops), u);
  }

  lemma {:induction false} PrefixStays(w: World, ops: seq<Op>)
    ensures Play(w, ops).prefix == w.prefix
    decreases |ops|
  {
    if ops != [] { PrefixStays(Step(w, ops[0]), ops[1..]); }
  }
}
