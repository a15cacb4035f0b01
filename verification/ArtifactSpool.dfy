/**
 The artifact spool (packages/bridge-simulator/src/artifacts.ts).  The file system is a map
 from paths to bytes; SHA-256 of some bytes is the bytes; base64 data is the bytes it encodes.
 A file name carries its text, its lower-case form and whether it passes the name rules.
 */
module ArtifactSpools {
  import opened Wrappers
  import opened Framing

  const MAX_CHUNK_BYTES := 1_048_576
  const MAX_TOTAL_BYTES := 33_554_432
  const MAX_ARTIFACTS := 16
  const MAX_CONTENT_TYPE := 4096

  datatype FileName = FileName(text: string, folded: string, safe: bool)

  datatype Directory = Directory(rsid: string, invocationId: string)

  datatype Member = Numbered(index: nat, name: FileName) | ResultJson

  datatype Path = Path(directory: Directory, file: Member)

  datatype Input = Input(name: FileName, contentType: string, bytes: Bytes)

  datatype Stream = ResultStream | ArtifactStream(artifactId: string)

  datatype Chunk = Chunk(
    invocationId: string, stream: Stream, artifact: Option<(string, nat)>, index: nat, contentType: string, data: Bytes)

  datatype Descriptor = Descriptor(
    artifactId: string, artifactIndex: nat, stream: Stream, name: FileName, contentType: string,
    totalChunks: nat, totalSize: nat, sha256: Bytes)

  datatype Carrier =
    | Artifacts(rsid: string, invocationId: string, references: seq<(string, nat)>, partials: seq<Chunk>,
                descriptors: seq<Descriptor>, chunkBytes: nat, directory: Directory, files: seq<Path>)
    | ChunkedResult(rsid: string, invocationId: string, partials: seq<Chunk>, chunkBytes: nat, directory: Directory,
                    files: seq<Path>, contentType: string, totalChunks: nat, totalSize: nat, sha256: Bytes)

  predicate SafeSegment(s: string) {
    && 1 <= |s| <= 128 && s != "." && s != ".."
    && forall i :: 0 <= i < |s| ==> s[i] != '/' && s[i] != '\\' && ' ' <= s[i] && s[i] != '\U{7F}'
  }

  predicate SafeContentType(s: string) {
    1 <= |s| <= MAX_CONTENT_TYPE
  }

  // ----- The chunk plan -----

  function Min(a: nat, b: nat): (m: nat) {
    if a <= b then a else b
  }

  /** The pieces of `bytes` from `offset` on. */
  function Pieces(bytes: Bytes, size: nat, offset: nat): (pieces: seq<Bytes>)
    requires size > 0 && offset <= |bytes|
    ensures forall p :: p in pieces ==> 0 < |p| <= size
    decreases |bytes| - offset
  {
    if offset == |bytes| then []
    else
      var end := Min(offset + size, |bytes|);
      [bytes[offset..end]] + Pieces(bytes, size, end)
  }

  lemma {:induction false} PiecesJoin(bytes: Bytes, size: nat, offset: nat)
    requires size > 0 && offset <= |bytes|
    ensures Concat(Pieces(bytes, size, offset)) == bytes[offset..]
    decreases |bytes| - offset
  {
    if offset < |bytes| {
      var end := Min(offset + size, |bytes|);
      PiecesJoin(bytes, size, end);
      ConcatFirst(bytes[offset..end], Pieces(bytes, size, end));
      assert bytes[offset..end] + bytes[end..] == bytes[offset..];
    }
  }

  lemma {:induction false} ConcatFirst(first: Bytes, rest: seq<Bytes>)
    ensures Concat([first] + rest) == first + Concat(rest)
    decreases |rest|
  {
    if rest == [] {
      assert ([first] + rest)[..0] == [];
    } else {
      var n := |rest| - 1;
      ConcatFirst(first, rest[..n]);
      assert ([first] + rest)[..n + 1] == [first] + rest[..n];
    }
  }

  /** ceil(n / size) pieces. */
  lemma {:induction false} PiecesCount(bytes: Bytes, size: nat, offset: nat)
    requires size > 0 && offset <= |bytes|
    ensures |Pieces(bytes, size, offset)| == (|bytes| - offset + size - 1) / size
    decreases |bytes| - offset
  {
    var left := |bytes| - offset;
    if left > size {
      PiecesCount(bytes, size, offset + size);
      DivideStep(left - 1, size);
    } else if left > 0 {
      assert Pieces(bytes, size, |bytes|) == [];
      DivideStep(left - 1, size);
      DivideSmall(left - 1, size);
    } else {
      DivideSmall(size - 1, size);
    }
  }

  lemma DivideSmall(n: nat, size: nat)
    requires n < size
    ensures n / size == 0
  {
  }

  lemma DivideStep(n: nat, size: nat)
    requires size > 0
    ensures (n + size) / size == n / size + 1
  {
    var q, r := n / size, n % size;
    assert n + size == (q + 1) * size + r;
    QuotientIs(n + size, size, q + 1, r);
  }

  lemma MultipleAtLeast(d: int, size: nat)
    requires d >= 1
    ensures d * size >= size
  {
  }

  lemma NoMultipleBetween(d: int, size: nat, x: int)
    requires d * size == x && -(size as int) < x < size
    ensures d == 0
  {
    if d >= 1 { MultipleAtLeast(d, size); } else if d <= -1 { MultipleAtLeast(-d, size); }
  }

  lemma QuotientIs(n: nat, size: nat, q: nat, r: nat)
    requires n == q * size + r && r < size
    ensures n / size == q
  {
    assert n / size * size + n % size == n;
    NoMultipleBetween(n / size - q, size, r - n % size);
  }

  /** The chunks from `offset` on, numbered from `i`, with the other fields of `shape`. */
  function ChunksFrom(shape: Chunk, bytes: Bytes, size: nat, offset: nat, i: nat): (chunks: seq<Chunk>)
    requires size > 0 && offset <= |bytes|
    decreases |bytes| - offset
  {
    if offset == |bytes| then []
    else
      var end := Min(offset + size, |bytes|);
      [shape.(index := i, data := bytes[offset..end])] + ChunksFrom(shape, bytes, size, end, i + 1)
  }

  lemma {:induction false} ChunksArePieces(shape: Chunk, bytes: Bytes, size: nat, offset: nat, i: nat, j: nat)
    requires size > 0 && offset <= |bytes|
    ensures |ChunksFrom(shape, bytes, size, offset, i)| == |Pieces(bytes, size, offset)|
    ensures j < |Pieces(bytes, size, offset)| ==>
      ChunksFrom(shape, bytes, size, offset, i)[j] == shape.(index := i + j, data := Pieces(bytes, size, offset)[j])
    decreases |bytes| - offset
  {
    if offset < |bytes| {
      ChunksArePieces(shape, bytes, size, Min(offset + size, |bytes|), i + 1, if j == 0 then 0 else j - 1);
    }
  }

  /** The chunks of one stream, in order, numbered from zero. */
  function ChunksOf(invocationId: string, stream: Stream, artifact: Option<(string, nat)>, contentType: string,
                    bytes: Bytes, size: nat): (chunks: seq<Chunk>)
    requires size > 0
  {
    ChunksFrom(Chunk(invocationId, stream, artifact, 0, contentType, []), bytes, size, 0, 0)
  }

  lemma Regroup<T>(done: seq<T>, next: T, rest: seq<T>)
    ensures done + ([next] + rest) == done + [next] + rest
  {
  }

  /** The loop both `retain` and `rehydrate` run over one file. */
  method CutIntoChunks(invocationId: string, stream: Stream, artifact: Option<(string, nat)>, contentType: string,
                       bytes: Bytes, size: nat) returns (chunks: seq<Chunk>)
    requires size > 0
    ensures chunks == ChunksOf(invocationId, stream, artifact, contentType, bytes, size)
  {
    chunks := [];
    var offset := 0;
    ghost var shape := Chunk(invocationId, stream, artifact, 0, contentType, []);
    ghost var all := ChunksFrom(shape, bytes, size, 0, 0);
    while offset < |bytes|
      invariant all == chunks + ChunksFrom(shape, bytes, size, Min(offset, |bytes|), |chunks|)
    {
      var piece := bytes[offset..Min(offset + size, |bytes|)];
      var chunk := Chunk(invocationId, stream, artifact, |chunks|, contentType, piece);
      Regroup(chunks, chunk, ChunksFrom(shape, bytes, size, Min(offset + size, |bytes|), |chunks| + 1));
      chunks := chunks + [chunk];
      offset := offset + size;
    }
  }

  // ----- Retaining -----

  function ArtifactChunks(invocationId: string, input: Input, id: string, index: nat, size: nat): (chunks: seq<Chunk>)
    requires size > 0
  {
    ChunksOf(invocationId, ArtifactStream(id), Some((id, index)), input.contentType, input.bytes, size)
  }

  function DescriptorOf(invocationId: string, input: Input, id: string, index: nat, size: nat): (d: Descriptor)
    requires size > 0
  {
    Descriptor(id, index, ArtifactStream(id), input.name, input.contentType,
               |ArtifactChunks(invocationId, input, id, index, size)|, |input.bytes|, input.bytes)
  }

  function MemberPath(d: Directory, inputs: seq<Input>, i: nat): (p: Path)
    requires i < |inputs|
  {
    Path(d, Numbered(i, inputs[i].name))
  }

  function WithFiles(files: map<Path, Bytes>, d: Directory, inputs: seq<Input>, n: nat): (next: map<Path, Bytes>)
    requires n <= |inputs|
  {
    if n == 0 then files else WithFiles(files, d, inputs, n - 1)[MemberPath(d, inputs, n - 1) := inputs[n - 1].bytes]
  }

  /** The lists `retain` grows, after its first `n` inputs. */
  datatype Progress = Progress(
    references: seq<(string, nat)>, partials: seq<Chunk>, descriptors: seq<Descriptor>, paths: seq<Path>)

  function ProgressAt(d: Directory, inputs: seq<Input>, ids: seq<string>, size: nat, n: nat): (p: Progress)
    requires size > 0 && n <= |inputs| == |ids|
    ensures |p.references| == |p.descriptors| == |p.paths| == n
  {
    if n == 0 then Progress([], [], [], [])
    else
      var p, i := ProgressAt(d, inputs, ids, size, n - 1), n - 1;
      Progress(p.references + [(ids[i], i)],
               p.partials + ArtifactChunks(d.invocationId, inputs[i], ids[i], i, size),
               p.descriptors + [DescriptorOf(d.invocationId, inputs[i], ids[i], i, size)],
               p.paths + [MemberPath(d, inputs, i)])
  }

  function RetainedCarrier(d: Directory, inputs: seq<Input>, ids: seq<string>, size: nat): (c: Carrier)
    requires size > 0 && |inputs| == |ids|
  {
    var p := ProgressAt(d, inputs, ids, size, |inputs|);
    Artifacts(d.rsid, d.invocationId, p.references, p.partials, p.descriptors, size, d, p.paths)
  }

  lemma {:induction false} ProgressIs(d: Directory, inputs: seq<Input>, ids: seq<string>, size: nat, n: nat, i: nat)
    requires size > 0 && i < n <= |inputs| == |ids|
    ensures var p := ProgressAt(d, inputs, ids, size, n);
            && p.references[i] == (ids[i], i) && p.paths[i] == MemberPath(d, inputs, i)
            && p.descriptors[i] == DescriptorOf(d.invocationId, inputs[i], ids[i], i, size)
  {
    if i < n - 1 { ProgressIs(d, inputs, ids, size, n - 1, i); }
  }

  function TotalBytes(inputs: seq<Input>): (n: nat) {
    if inputs == [] then 0 else TotalBytes(inputs[..|inputs| - 1]) + |inputs[|inputs| - 1].bytes|
  }

  predicate Retainable(rsid: string, invocationId: string, inputs: seq<Input>, size: nat) {
    && 1 <= size <= MAX_CHUNK_BYTES && 1 <= |inputs| <= MAX_ARTIFACTS && TotalBytes(inputs) <= MAX_TOTAL_BYTES
    && (forall i :: 0 <= i < |inputs| ==> inputs[i].name.safe && SafeContentType(inputs[i].contentType))
    && (forall i, j :: 0 <= i < j < |inputs| ==> inputs[i].name.folded != inputs[j].name.folded)
    && SafeSegment(rsid) && SafeSegment(invocationId)
  }

  function WithPartials(c: Carrier, chunks: seq<Chunk>): (next: Carrier) {
    c.(partials := chunks)
  }

  /** One round of `retain`: the lists after one more input with its chunks. */
  function Grow(p: Progress, input: Input, id: string, i: nat, chunks: seq<Chunk>, path: Path): (next: Progress) {
    Progress(p.references + [(id, i)], p.partials + chunks,
             p.descriptors + [Descriptor(id, i, ArtifactStream(id), input.name, input.contentType, |chunks|, |input.bytes|, input.bytes)],
             p.paths + [path])
  }

  /** The compact form that survives a restart. */
  function Compact(c: Carrier): (compact: Carrier) {
    WithPartials(c, [])
  }

  // ----- Rehydrating -----

  predicate ShapeOk(c: Carrier) {
    && 1 <= c.chunkBytes <= MAX_CHUNK_BYTES
    && SafeSegment(c.rsid) && SafeSegment(c.invocationId) && c.directory == Directory(c.rsid, c.invocationId)
    && match c
       case Artifacts(_, _, references, _, descriptors, _, _, files) =>
         && |references| == |descriptors| == |files|
         && forall i :: 0 <= i < |descriptors| ==> descriptors[i].name.safe && SafeContentType(descriptors[i].contentType)
       case ChunkedResult(_, _, _, _, _, files, contentType, _, _, _) => |files| == 1 && SafeContentType(contentType)
  }

  predicate MemberNamed(c: Carrier, i: nat)
    requires c.Artifacts? && i < |c.descriptors| && |c.references| == |c.descriptors| == |c.files|
  {
    var d := c.descriptors[i];
    && d.artifactIndex == i && c.references[i] == (d.artifactId, i) && d.stream == ArtifactStream(d.artifactId)
    && c.files[i].directory == c.directory
  }

  predicate FileMatches(files: map<Path, Bytes>, p: Path, size: nat, sha: Bytes) {
    p in files && |files[p]| == size && files[p] == sha
  }

  function MemberChunks(files: map<Path, Bytes>, c: Carrier, i: nat): (chunks: Result<seq<Chunk>>)
    requires c.Artifacts? && c.chunkBytes > 0 && i < |c.descriptors| && |c.references| == |c.descriptors| == |c.files|
  {
    var d := c.descriptors[i];
    if !MemberNamed(c, i) || !FileMatches(files, c.files[i], d.totalSize, d.sha256) then Throw
    else
      var chunks := ChunksOf(c.invocationId, d.stream, Some((d.artifactId, d.artifactIndex)), d.contentType, files[c.files[i]], c.chunkBytes);
      if |chunks| != d.totalChunks then Throw else Success(chunks)
  }

  function RebuiltChunks(files: map<Path, Bytes>, c: Carrier, n: nat): (chunks: Result<seq<Chunk>>)
    requires c.Artifacts? && c.chunkBytes > 0 && n <= |c.descriptors| && |c.references| == |c.descriptors| == |c.files|
  {
    if n == 0 then Success([])
    else
      var prev :- RebuiltChunks(files, c, n - 1);
      var next :- MemberChunks(files, c, n - 1);
      Success(prev + next)
  }

  function Rehydrated(files: map<Path, Bytes>, c: Carrier): (r: Result<Carrier>) {
    if !ShapeOk(c) then Throw
    else match c
      case Artifacts(_, _, _, _, descriptors, _, _, _) =>
        var chunks :- RebuiltChunks(files, c, |descriptors|);
        Success(WithPartials(c, chunks))
      case ChunkedResult(_, invocationId, _, size, directory, paths, contentType, totalChunks, totalSize, sha) =>
        if paths[0].directory != directory || !FileMatches(files, paths[0], totalSize, sha) then Throw
        else
          var chunks := ChunksOf(invocationId, ResultStream, None, contentType, files[paths[0]], size);
          if |chunks| != totalChunks then Throw else Success(WithPartials(c, chunks))
  }

  // ----- The spool -----

  class ArtifactSpool {
    var files: map<Path, Bytes>
    var directories: set<Directory>

    /** Everything in the spool lies in a directory made for one invocation. */
    ghost predicate Valid()
      reads this
    {
      forall p :: p in files ==> p.directory in directories
    }

    constructor ()
      ensures Valid() && files == map[] && directories == {}
    {
      files, directories := map[], {};
    }

    method Retain(rsid: string, invocationId: string, inputs: seq<Input>, chunkBytes: nat, ids: seq<string>)
      returns (carrier: Result<Carrier>)
      requires Valid() && |ids| == |inputs|
      modifies this
      ensures Valid()
      ensures carrier.Success? <==>
        Retainable(rsid, invocationId, inputs, chunkBytes) && Directory(rsid, invocationId) !in old(directories)
      ensures carrier.Throw? ==> files == old(files) && directories == old(directories)
      ensures carrier.Success? ==>
        && carrier.value == RetainedCarrier(Directory(rsid, invocationId), inputs, ids, chunkBytes)
        && files == WithFiles(old(files), Directory(rsid, invocationId), inputs, |inputs|)
        && directories == old(directories) + {Directory(rsid, invocationId)}
    {
      var d := Directory(rsid, invocationId);
      if !Retainable(rsid, invocationId, inputs, chunkBytes) || d in directories { return Throw; }
      directories := directories + {d};
      var p := Progress([], [], [], []);
      var i := 0;
      while i < |inputs|
        invariant i <= |inputs| && directories == old(directories) + {d} && Valid()
        invariant files == WithFiles(old(files), d, inputs, i)
        invariant p == ProgressAt(d, inputs, ids, chunkBytes, i)
      {
        files := files[MemberPath(d, inputs, i) := inputs[i].bytes];
        var chunks := CutIntoChunks(invocationId, ArtifactStream(ids[i]), Some((ids[i], i)), inputs[i].contentType,
                                    inputs[i].bytes, chunkBytes);
        p := Grow(p, inputs[i], ids[i], i, chunks, MemberPath(d, inputs, i));
        i := i + 1;
      }
      carrier := Success(Artifacts(rsid, invocationId, p.references, p.partials, p.descriptors, chunkBytes, d, p.paths));
    }

    method RetainChunkedResult(rsid: string, invocationId: string, bytes: Bytes, chunkBytes: nat, contentType: string)
      returns (carrier: Result<Carrier>)
      requires Valid()
      modifies this
      ensures Valid()
      ensures carrier.Success? <==>
        && 1 <= chunkBytes <= MAX_CHUNK_BYTES && 1 <= |bytes| <= MAX_TOTAL_BYTES && SafeContentType(contentType)
        && SafeSegment(rsid) && SafeSegment(invocationId) && Directory(rsid, invocationId) !in old(directories)
      ensures carrier.Throw? ==> files == old(files) && directories == old(directories)
      ensures carrier.Success? ==>
        && carrier.value == ResultCarrier(rsid, invocationId, bytes, chunkBytes, contentType)
        && files == old(files)[Path(Directory(rsid, invocationId), ResultJson) := bytes]
        && directories == old(directories) + {Directory(rsid, invocationId)}
    {
      var d := Directory(rsid, invocationId);
      if !(1 <= chunkBytes <= MAX_CHUNK_BYTES) || !(1 <= |bytes| <= MAX_TOTAL_BYTES) || !SafeContentType(contentType)
         || !SafeSegment(rsid) || !SafeSegment(invocationId) || d in directories {
        return Throw;
      }
      directories := directories + {d};
      files := files[Path(d, ResultJson) := bytes];
      var partials := CutIntoChunks(invocationId, ResultStream, None, contentType, bytes, chunkBytes);
      carrier := Success(ChunkedResult(rsid, invocationId, partials, chunkBytes, d, [Path(d, ResultJson)], contentType,
                                       |partials|, |bytes|, bytes));
    }

    method RehydrateMember(c: Carrier, i: nat) returns (r: Result<seq<Chunk>>)
      requires c.Artifacts? && c.chunkBytes > 0 && i < |c.descriptors| && |c.references| == |c.descriptors| == |c.files|
      ensures r == MemberChunks(files, c, i)
    {
      var d := c.descriptors[i];
      if !MemberNamed(c, i) || !FileMatches(files, c.files[i], d.totalSize, d.sha256) { return Throw; }
      var chunks := CutIntoChunks(c.invocationId, d.stream, Some((d.artifactId, d.artifactIndex)), d.contentType,
                                  files[c.files[i]], c.chunkBytes);
      return if |chunks| != d.totalChunks then Throw else Success(chunks);
    }

    method RehydrateMembers(c: Carrier) returns (r: Result<seq<Chunk>>)
      requires c.Artifacts? && c.chunkBytes > 0 && |c.references| == |c.descriptors| == |c.files|
      ensures r == RebuiltChunks(files, c, |c.descriptors|)
    {
      var partials: seq<Chunk> := [];
      var i := 0;
      while i < |c.descriptors|
        invariant i <= |c.descriptors| && RebuiltChunks(files, c, i) == Success(partials)
      {
        var chunks := RehydrateMember(c, i);
        if chunks.Throw? {
          RebuiltStops(files, c, i + 1, |c.descriptors|);
          return Throw;
        }
        partials := partials + chunks.value;
        i := i + 1;
      }
      return Success(partials);
    }

    /** Rebuilds the chunks of a compact carrier from the files, or refuses. */
    method Rehydrate(c: Carrier) returns (r: Result<Carrier>)
      ensures r == Rehydrated(files, c)
    {
      if !ShapeOk(c) { return Throw; }
      if c.Artifacts? {
        var chunks := RehydrateMembers(c);
        return if chunks.Success? then Success(WithPartials(c, chunks.value)) else Throw;
      }
      if c.files[0].directory != c.directory || !FileMatches(files, c.files[0], c.totalSize, c.sha256) { return Throw; }
      var chunks := CutIntoChunks(c.invocationId, ResultStream, None, c.contentType, files[c.files[0]], c.chunkBytes);
      return if |chunks| != c.totalChunks then Throw else Success(WithPartials(c, chunks));
    }
  }

  function ResultCarrier(rsid: string, invocationId: string, bytes: Bytes, size: nat, contentType: string): (c: Carrier)
    requires size > 0
  {
    var d := Directory(rsid, invocationId);
    var chunks := ChunksOf(invocationId, ResultStream, None, contentType, bytes, size);
    ChunkedResult(rsid, invocationId, chunks, size, d, [Path(d, ResultJson)], contentType, |chunks|, |bytes|, bytes)
  }

  lemma {:induction false} RebuiltStops(files: map<Path, Bytes>, c: Carrier, n: nat, m: nat)
    requires c.Artifacts? && c.chunkBytes > 0 && n <= m <= |c.descriptors| && |c.references| == |c.descriptors| == |c.files|
    requires RebuiltChunks(files, c, n).Throw?
    ensures RebuiltChunks(files, c, m).Throw?
  {
    if n < m { RebuiltStops(files, c, n, m - 1); }
  }

  // ----- Theorems -----

  /** The retained files still hold what was written. */
  ghost predicate Unchanged(files: map<Path, Bytes>, d: Directory, inputs: seq<Input>) {
    forall i :: 0 <= i < |inputs| ==> MemberPath(d, inputs, i) in files && files[MemberPath(d, inputs, i)] == inputs[i].bytes
  }

  lemma MemberIs(files: map<Path, Bytes>, d: Directory, inputs: seq<Input>, ids: seq<string>, size: nat, i: nat)
    requires size > 0 && i < |inputs| == |ids|
    ensures var p := MemberPath(d, inputs, i);
            MemberChunks(files, Compact(RetainedCarrier(d, inputs, ids, size)), i) ==
              if p in files && files[p] == inputs[i].bytes
              then Success(ArtifactChunks(d.invocationId, inputs[i], ids[i], i, size)) else Throw
  {
    ProgressIs(d, inputs, ids, size, |inputs|, i);
  }

  lemma {:induction false} RebuiltIs(files: map<Path, Bytes>, d: Directory, inputs: seq<Input>, ids: seq<string>, size: nat, n: nat)
    requires size > 0 && n <= |inputs| == |ids|
    ensures RebuiltChunks(files, Compact(RetainedCarrier(d, inputs, ids, size)), n) ==
              if Unchanged(files, d, inputs[..n]) then Success(ProgressAt(d, inputs, ids, size, n).partials) else Throw
  {
    if n > 0 {
      RebuiltIs(files, d, inputs, ids, size, n - 1);
      UnchangedStep(files, d, inputs, n);
      MemberIs(files, d, inputs, ids, size, n - 1);
    }
  }

  lemma UnchangedStep(files: map<Path, Bytes>, d: Directory, inputs: seq<Input>, n: nat)
    requires 0 < n <= |inputs|
    ensures Unchanged(files, d, inputs[..n]) <==>
      && Unchanged(files, d, inputs[..n - 1])
      && MemberPath(d, inputs, n - 1) in files && files[MemberPath(d, inputs, n - 1)] == inputs[n - 1].bytes
  {
    forall i | 0 <= i < n ensures MemberPath(d, inputs[..n], i) == MemberPath(d, inputs, i) && inputs[..n][i] == inputs[i] {}
    forall i | 0 <= i < n - 1
      ensures MemberPath(d, inputs[..n - 1], i) == MemberPath(d, inputs, i) && inputs[..n - 1][i] == inputs[i] {}
  }

  /** Rehydrating the compact carrier gives the carrier back exactly while its files are unchanged. */
  lemma RehydrateRestores(files: map<Path, Bytes>, d: Directory, inputs: seq<Input>, ids: seq<string>, size: nat)
    requires Retainable(d.rsid, d.invocationId, inputs, size) && |ids| == |inputs|
    ensures var c := RetainedCarrier(d, inputs, ids, size);
            Rehydrated(files, Compact(c)) == if Unchanged(files, d, inputs) then Success(c) else Throw
  {
    var c := Compact(RetainedCarrier(d, inputs, ids, size));
    forall i | 0 <= i < |inputs| ensures c.descriptors[i].name.safe && SafeContentType(c.descriptors[i].contentType) {
      ProgressIs(d, inputs, ids, size, |inputs|, i);
    }
    assert inputs[..|inputs|] == inputs;
    RebuiltIs(files, d, inputs, ids, size, |inputs|);
  }

  lemma RehydrateRestoresResult(files: map<Path, Bytes>, rsid: string, invocationId: string, bytes: Bytes, size: nat, contentType: string)
    requires 1 <= size <= MAX_CHUNK_BYTES && SafeContentType(contentType) && SafeSegment(rsid) && SafeSegment(invocationId)
    ensures var c := ResultCarrier(rsid, invocationId, bytes, size, contentType);
            var p := Path(Directory(rsid, invocationId), ResultJson);
            Rehydrated(files, Compact(c)) == if p in files && files[p] == bytes then Success(c) else Throw
  {
  }

  lemma {:induction false} WrittenFiles(files: map<Path, Bytes>, d: Directory, inputs: seq<Input>, n: nat, p: Path)
    requires n <= |inputs|
    ensures forall i :: 0 <= i < n ==>
      MemberPath(d, inputs, i) in WithFiles(files, d, inputs, n) && WithFiles(files, d, inputs, n)[MemberPath(d, inputs, i)] == inputs[i].bytes
    ensures p.directory != d ==>
      (p in WithFiles(files, d, inputs, n) <==> p in files) && (p in files ==> WithFiles(files, d, inputs, n)[p] == files[p])
  {
    if n > 0 { WrittenFiles(files, d, inputs, n - 1, p); }
  }

  /** Right after retaining, the files are what the carrier says. */
  lemma RetainedIsUnchanged(files: map<Path, Bytes>, d: Directory, inputs: seq<Input>)
    ensures Unchanged(WithFiles(files, d, inputs, |inputs|), d, inputs)
  {
    WrittenFiles(files, d, inputs, |inputs|, Path(d, ResultJson));
  }

  function DataOf(chunks: seq<Chunk>): (data: seq<Bytes>)
    ensures |data| == |chunks| && forall i :: 0 <= i < |chunks| ==> data[i] == chunks[i].data
  {
    seq(|chunks|, i requires 0 <= i < |chunks| => chunks[i].data)
  }

  /** The chunks of a stream make up its bytes: none empty, none too long, ceil(n / size) of them. */
  lemma ChunksMakeUpBytes(invocationId: string, stream: Stream, artifact: Option<(string, nat)>, contentType: string, bytes: Bytes, size: nat)
    requires size > 0
    ensures var chunks := ChunksOf(invocationId, stream, artifact, contentType, bytes, size);
            && Concat(DataOf(chunks)) == bytes
            && |chunks| == (|bytes| + size - 1) / size
            && forall i :: 0 <= i < |chunks| ==> chunks[i].index == i && 0 < |chunks[i].data| <= size
  {
    var chunks := ChunksOf(invocationId, stream, artifact, contentType, bytes, size);
    PiecesJoin(bytes, size, 0);
    PiecesCount(bytes, size, 0);
    var shape := Chunk(invocationId, stream, artifact, 0, contentType, []);
    ChunksArePieces(shape, bytes, size, 0, 0, 0);
    forall i | 0 <= i < |chunks| ensures chunks[i].index == i && chunks[i].data == Pieces(bytes, size, 0)[i] {
      ChunksArePieces(shape, bytes, size, 0, 0, i);
    }
    assert DataOf(chunks) == Pieces(bytes, size, 0);
    assert bytes[0..] == bytes;
    forall i | 0 <= i < |chunks| ensures 0 < |chunks[i].data| <= size { assert chunks[i].data in Pieces(bytes, size, 0); }
  }
}
