/** Uploads in chunks: the browser slices a file and posts the slices, the backend stores each under
    its index and joins them. */
module ChunkedUpload {
  import opened Text

  type Byte = bv8

  const UPLOAD_CHUNK_SIZE: nat := 800 * 1024

  /** `Math.max(1, Math.ceil(size / UPLOAD_CHUNK_SIZE))` */
  function TotalChunks(size: nat): (n: nat)
    ensures n >= 1 && size <= n * (800 * 1024)
    ensures n > 1 ==> (n - 1) * (800 * 1024) < size
  {
    if size == 0 then 1 else (size + UPLOAD_CHUNK_SIZE - 1) / UPLOAD_CHUNK_SIZE
  }

  /** `file.slice(start, end)` of the i-th chunk. */
  function Chunk(file: seq<Byte>, i: nat): seq<Byte>
    requires i < TotalChunks(|file|)
  {
    var start := i * UPLOAD_CHUNK_SIZE;
    var end := if start + UPLOAD_CHUNK_SIZE < |file| then start + UPLOAD_CHUNK_SIZE else |file|;
    if start <= end then file[start..end] else []
  }

  /** `<index>.part` */
  function PartName(index: string): string {
    index + ".part"
  }

  predicate IsValidChunkIndex(index: string) {
    index != "" && forall c :: c in index ==> '0' <= c <= '9'
  }

  // ------------------------------------------------------------- the server

  datatype Assembly = Assembled(bytes: seq<Byte>) | NoSession | Missing(chunk: nat)

  /** One upload session on disk: meta.json and the parts. */
  class Session {
    var totalChunks: Option<nat>
    var parts: map<string, seq<Byte>>

    /** initChunkedUpload */
    constructor (totalChunks: int)
      ensures parts == map[] && this.totalChunks == if totalChunks >= 1 then Some(totalChunks) else None
    {
      this.totalChunks := if totalChunks >= 1 then Some(totalChunks) else None;
      parts := map[];
    }

    /** One posted chunk; the index comes as text. */
    method Store(index: string, chunk: seq<Byte>) returns (ok: bool)
      modifies this`parts
      ensures ok == IsValidChunkIndex(index)
      ensures parts == if ok then old(parts)[PartName(index) := chunk] else old(parts)
    {
      ok := IsValidChunkIndex(index);
      if ok {
        parts := parts[PartName(index) := chunk];
      }
    }

    /** assembleChunkedUpload: first every part is looked for, then they are concatenated in order. */
    method Assemble() returns (r: Assembly)
      ensures totalChunks.None? <==> r.NoSession?
      ensures r.Missing? ==> totalChunks.Some? && r.chunk < totalChunks.value && PartName(Decimal(r.chunk)) !in parts
      ensures r.Missing? ==> HasAll(parts, r.chunk)
      ensures totalChunks.Some? ==> (r.Assembled? <==> HasAll(parts, totalChunks.value))
      ensures r.Assembled? ==> r.bytes == Joined(parts, totalChunks.value)
    {
      if totalChunks.None? { return NoSession; }
      var n := totalChunks.value;
      for i := 0 to n
        invariant forall k :: 0 <= k < i ==> PartName(Decimal(k)) in parts
      {
        if PartName(Decimal(i)) !in parts { return Missing(i); }
      }
      var out: seq<Byte> := [];
      for i := 0 to n
        invariant out == Joined(parts, i)
      {
        out := out + parts[PartName(Decimal(i))];
      }
      r := Assembled(out);
    }
  }

  predicate HasAll(parts: map<string, seq<Byte>>, n: nat) {
    forall i :: 0 <= i < n ==> PartName(Decimal(i)) in parts
  }

  function Joined(parts: map<string, seq<Byte>>, n: nat): seq<Byte>
    requires HasAll(parts, n)
  {
    if n == 0 then [] else Joined(parts, n - 1) + parts[PartName(Decimal(n - 1))]
  }

  // ------------------------------------------------------------- round trip

  /** Two indexes never share a part. */
  lemma PartsDistinct(i: nat, j: nat)
    requires PartName(Decimal(i)) == PartName(Decimal(j))
    ensures i == j
  {
    assert PartName(Decimal(i))[..|Decimal(i)|] == Decimal(i);
    assert PartName(Decimal(j))[..|Decimal(j)|] == Decimal(j);
    DecimalInjective(i, j);
  }

  /** A part is this file's chunk wherever it holds something. */
  predicate Holds(parts: map<string, seq<Byte>>, file: seq<Byte>) {
    forall i :: 0 <= i < TotalChunks(|file|) && PartName(Decimal(i)) in parts ==> parts[PartName(Decimal(i))] == Chunk(file, i)
  }

  /** Joining the chunks of a file gives back the file: any size, the empty file included. */
  lemma {:induction false} JoinedIsPrefix(parts: map<string, seq<Byte>>, file: seq<Byte>, n: nat)
    requires n <= TotalChunks(|file|) && HasAll(parts, n) && Holds(parts, file)
    ensures Joined(parts, n) == file[..Covered(|file|, n)]
  {
    if n > 0 {
      JoinedIsPrefix(parts, file, n - 1);
      assert parts[PartName(Decimal(n - 1))] == Chunk(file, n - 1);
      ChunkExtends(file, n - 1);
    }
  }

  /** Bytes in the first n chunks. */
  function Covered(size: nat, n: nat): (c: nat)
    ensures c <= size
  {
    if n * UPLOAD_CHUNK_SIZE < size then n * UPLOAD_CHUNK_SIZE else size
  }

  lemma ChunkExtends(file: seq<Byte>, i: nat)
    requires i < TotalChunks(|file|)
    ensures file[..Covered(|file|, i)] + Chunk(file, i) == file[..Covered(|file|, i + 1)]
  {
  }

  /** uploadFileInChunks with chunks arriving in any order, any number of times: the server assembles
      exactly the file, as soon as every index has arrived at least once. */
  method Upload(file: seq<Byte>, arrivals: seq<nat>) returns (session: Session, r: Assembly)
    requires forall k :: 0 <= k < |arrivals| ==> arrivals[k] < TotalChunks(|file|)
    ensures r.Assembled? ==> r.bytes == file
    ensures r.Assembled? <==> forall i :: 0 <= i < TotalChunks(|file|) ==> i in arrivals
  {
    var n := TotalChunks(|file|);
    session := new Session(n);
    for k := 0 to |arrivals|
      invariant session.totalChunks == Some(n) && Holds(session.parts, file)
      invariant forall i: nat :: PartName(Decimal(i)) in session.parts <==> i in arrivals[..k]
    {
      var i := arrivals[k];
      ghost var before := session.parts;
      var _ := session.Store(Decimal(i), Chunk(file, i));
      assert arrivals[..k + 1] == arrivals[..k] + [i];
      forall j: nat | PartName(Decimal(j)) == PartName(Decimal(i)) ensures j == i {
        PartsDistinct(j, i);
      }
    }
    assert arrivals[..|arrivals|] == arrivals;
    r := session.Assemble();
    if r.Assembled? {
      JoinedIsPrefix(session.parts, file, n);
      assert file[..|file|] == file;
    }
  }

  /** The client's own order: every index once, each chunk at most 800 KB, and the progress ends at
      the size of the file. */
  method UploadFileInChunks(file: seq<Byte>) returns (r: Assembly, uploadedBefore: nat)
    ensures r == Assembled(file) && uploadedBefore == |file|
  {
    var n := TotalChunks(|file|);
    var session := new Session(n);
    uploadedBefore := 0;
    for i := 0 to n
      invariant session.totalChunks == Some(n) && Holds(session.parts, file)
      invariant forall j: nat :: PartName(Decimal(j)) in session.parts <==> j < i
      invariant uploadedBefore == Covered(|file|, i)
    {
      var chunk := Chunk(file, i);
      ChunkExtends(file, i);
      assert |chunk| <= UPLOAD_CHUNK_SIZE;
      var _ := session.Store(Decimal(i), chunk);
      forall j: nat | PartName(Decimal(j)) == PartName(Decimal(i)) ensures j == i {
        PartsDistinct(j, i);
      }
      uploadedBefore := uploadedBefore + |chunk|;
    }
    r := session.Assemble();
    JoinedIsPrefix(session.parts, file, n);
    assert file[..|file|] == file;
  }
}
