/**
 * The transfer session the FTP file handle talks to: retrieve-from-offset,
 * store-from-offset, size and modification-time queries.  The remote side is
 * a value (`Remote`); `Session` is the shared, mutable connection object that
 * handles hold a reference to, and it records every call made on it in a
 * ghost log, so that a handle's contract can say which remote calls it made
 * and in which order.
 */
module FtpSession {
  import opened Wrappers
  import opened Errors
  import opened GoInt

  type byte = b: int | 0 <= b < 256

  /** The content of a remote object; its size must be representable as an int64 (Go's `FileSize` result). */
  type Content = s: seq<byte> | |s| <= MaxInt64

  /** A session operation that the remote side can be set up to fail with a transport error. */
  datatype Fault = RetrieveFault | ReadFault | StoreFault | SizeFault

  /** One call on the session, as it would be seen by a mock of it. */
  datatype Call =
    | RetrCall(path: string, offset: uint64)
    | StorCall(path: string, data: seq<byte>, offset: uint64)
    | SizeCall(path: string)
    | TimeCall(path: string)

  /**
   * The remote side: the objects by path, their modification times, the remote
   * clock (the time a store stamps on an object) and the operations that fail.
   */
  datatype Remote = Remote(
    files: map<string, Content>,
    mtimes: map<string, int>,
    clock: int,
    failing: set<Fault>)

  /** The data connection opened by a retrieve: the bytes from the requested offset on, and whether reading it fails. */
  datatype Stream = Stream(rest: seq<byte>, broken: bool)

  /** The outcome of one `Read` on a stream: the bytes delivered and the error returned with them. */
  datatype ReadResult = ReadResult(bytes: seq<byte>, err: Option<Error>)

  /** The bytes of `c` from offset `off` on; nothing when `off` lies past the end. */
  function Tail(c: seq<byte>, off: nat): (t: seq<byte>)
    ensures off <= |c| ==> t == c[off..]
    ensures off > |c| ==> t == []
  {
    if off <= |c| then c[off..] else []
  }

  /** RetrFrom(path, offset): opens a data connection that delivers the object from `offset` on. */
  function Retrieve(r: Remote, path: string, offset: uint64): (res: Result<Stream, Error>)
    ensures res.Ok? <==> RetrieveFault !in r.failing && path in r.files
    ensures res.Ok? ==> res.value == Stream(Tail(r.files[path], offset), ReadFault in r.failing)
    ensures RetrieveFault !in r.failing && path !in r.files ==> res == Err(NotFound)
  {
    if RetrieveFault in r.failing then Err(Transport)
    else if path !in r.files then Err(NotFound)
    else Ok(Stream(Tail(r.files[path], offset), ReadFault in r.failing))
  }

  /**
   * One `Read` of at most `cap` bytes from a stream.  A stream that has fewer
   * than `cap` bytes left delivers them together with io.EOF (the mocked
   * response in the tests answers a 1024-byte read with `(10, io.EOF)`).
   */
  function ReadStream(s: Stream, cap: nat): (res: ReadResult)
    ensures |res.bytes| <= cap && res.bytes <= s.rest
    ensures res.err == None <==> !s.broken && cap <= |s.rest|
    ensures s.broken ==> res == ReadResult([], Some(Transport))
    ensures !s.broken ==> |res.bytes| == Min(cap, |s.rest|)
    ensures !s.broken && cap > |s.rest| ==> res.err == Some(EndOfFile)
  {
    if s.broken then ReadResult([], Some(Transport))
    else if cap <= |s.rest| then ReadResult(s.rest[..cap], None)
    else ReadResult(s.rest, Some(EndOfFile))
  }

  /** A retrieve at `off` followed by one read of `cap` bytes; a failed retrieve delivers nothing. */
  function ReadFrom(r: Remote, path: string, off: uint64, cap: nat): (res: ReadResult)
    ensures |res.bytes| <= cap
    ensures res.err == None <==>
      RetrieveFault !in r.failing && ReadFault !in r.failing && path in r.files &&
      (cap == 0 || off + cap <= |r.files[path]|)
    ensures RetrieveFault in r.failing || ReadFault in r.failing || path !in r.files ==> res.bytes == []
    ensures RetrieveFault !in r.failing && ReadFault !in r.failing && path in r.files ==>
      var c := r.files[path];
      res.bytes == c[Min(off, |c|)..Min(off + cap, |c|)] &&
      (cap > 0 && off + cap > |c| ==> res.err == Some(EndOfFile))
  {
    match Retrieve(r, path, off)
    case Err(e) => ReadResult([], Some(e))
    case Ok(s) => ReadStream(s, cap)
  }

  /** The object after `data` is written over it from `offset` on (the bytes beyond the written range are kept). */
  function Overwrite(c: seq<byte>, offset: nat, data: seq<byte>): (r: seq<byte>)
    requires offset <= |c|
    ensures |r| == if offset + |data| <= |c| then |c| else offset + |data|
    ensures r[..offset] == c[..offset]
    ensures r[offset..offset + |data|] == data
    ensures offset + |data| <= |c| ==> r[offset + |data|..] == c[offset + |data|..]
  {
    c[..offset] + data + if offset + |data| <= |c| then c[offset + |data|..] else []
  }

  /**
   * StorFrom(path, data, offset).  The remote side refuses (with a transport
   * error) a store that would leave a gap or grow the object past the int64
   * range; a successful store stamps the object with the remote clock.
   */
  function Store(r: Remote, path: string, data: seq<byte>, offset: uint64): (res: Result<Remote, Error>)
    ensures StoreFault !in r.failing && path !in r.files ==> res == Err(NotFound)
    ensures res.Ok? <==>
      StoreFault !in r.failing && path in r.files &&
      offset <= |r.files[path]| && offset + |data| <= MaxInt64
    ensures res.Ok? ==>
      && res.value.files.Keys == r.files.Keys
      && res.value.files[path] == Overwrite(r.files[path], offset, data)
      && (forall q :: q in r.files && q != path ==> res.value.files[q] == r.files[q])
      && res.value.mtimes == r.mtimes[path := r.clock]
      && res.value.clock == r.clock && res.value.failing == r.failing
  {
    if StoreFault in r.failing then Err(Transport)
    else if path !in r.files then Err(NotFound)
    else if offset > |r.files[path]| || offset + |data| > MaxInt64 then Err(Transport)
    else
      var c: Content := Overwrite(r.files[path], offset, data);
      Ok(r.(files := r.files[path := c], mtimes := r.mtimes[path := r.clock]))
  }

  /** FileSize(path): the object's current size. */
  function Size(r: Remote, path: string): (res: Result<int64, Error>)
    ensures res.Ok? <==> SizeFault !in r.failing && path in r.files
    ensures res.Ok? ==> res.value == |r.files[path]| && res.value >= 0
    ensures SizeFault !in r.failing && path !in r.files ==> res == Err(NotFound)
  {
    if SizeFault in r.failing then Err(Transport)
    else if path !in r.files then Err(NotFound)
    else Ok(|r.files[path]|)
  }

  /** GetTime(path): the object's modification time (0 for an object never stamped). */
  function ModTime(r: Remote, path: string): int
  {
    if path in r.mtimes then r.mtimes[path] else 0
  }

  /** A successful store stamps the object with the remote clock and leaves every other modification time as it was. */
  lemma StoreStampsModTime(r: Remote, path: string, data: seq<byte>, off: uint64)
    requires Store(r, path, data, off).Ok?
    ensures ModTime(Store(r, path, data, off).value, path) == r.clock
    ensures forall q :: q != path ==> ModTime(Store(r, path, data, off).value, q) == ModTime(r, q)
  {
  }

  /** Writing `data` at `off` and then reading `|data|` bytes back at `off` gives exactly `data`. */
  lemma StoreThenRead(r: Remote, path: string, data: seq<byte>, off: uint64)
    requires Store(r, path, data, off).Ok?
    requires RetrieveFault !in r.failing && ReadFault !in r.failing
    ensures ReadFrom(Store(r, path, data, off).value, path, off, |data|) == ReadResult(data, None)
  {
    var r' := Store(r, path, data, off).value;
    var c := r'.files[path];
    assert off + |data| <= |c|;
    assert c[off..off + |data|] == data;
  }

  /**
   * Two stores that follow each other (the second at the offset where the first
   * ended, as two `Write`s on one handle do) leave the concatenation on the remote side.
   */
  lemma StoreSequential(r: Remote, path: string, a: seq<byte>, b: seq<byte>, off: uint64)
    requires Store(r, path, a, off).Ok?
    requires off + |a| < TwoTo64
    requires Store(Store(r, path, a, off).value, path, b, off + |a|).Ok?
    ensures var r'' := Store(Store(r, path, a, off).value, path, b, off + |a|).value;
      off + |a| + |b| <= |r''.files[path]| && r''.files[path][off..off + |a| + |b|] == a + b
  {
    var r' := Store(r, path, a, off).value;
    var r'' := Store(r', path, b, off + |a|).value;
    var c', c'' := r'.files[path], r''.files[path];
    assert c''[..off + |a|] == c'[..off + |a|];
    assert c'[off..off + |a|] == a;
    assert c''[off..off + |a|] == a by {
      assert c''[off..off + |a|] == c''[..off + |a|][off..];
      assert c'[off..off + |a|] == c'[..off + |a|][off..];
    }
    assert c''[off + |a|..off + |a| + |b|] == b;
    assert c''[off..off + |a| + |b|] == c''[off..off + |a|] + c''[off + |a|..off + |a| + |b|];
  }

  /** The shared connection: the remote side it reaches, and the calls made on it so far. */
  class Session {
    var remote: Remote
    ghost var log: seq<Call>

    constructor (remote: Remote)
      ensures this.remote == remote && log == []
    {
      this.remote := remote;
      log := [];
    }

    method RetrFrom(path: string, offset: uint64) returns (s: Result<Stream, Error>)
      modifies this`log
      ensures s == Retrieve(remote, path, offset)
      ensures log == old(log) + [RetrCall(path, offset)]
    {
      s := Retrieve(remote, path, offset);
      log := log + [RetrCall(path, offset)];
    }

    method StorFrom(path: string, data: seq<byte>, offset: uint64) returns (err: Option<Error>)
      modifies this
      ensures match Store(old(remote), path, data, offset)
        case Ok(r') => err == None && remote == r'
        case Err(e) => err == Some(e) && remote == old(remote)
      ensures log == old(log) + [StorCall(path, data, offset)]
    {
      log := log + [StorCall(path, data, offset)];
      match Store(remote, path, data, offset)
      case Ok(r') =>
        remote := r';
        err := None;
      case Err(e) =>
        err := Some(e);
    }

    method FileSize(path: string) returns (size: int64, err: Option<Error>)
      modifies this`log
      ensures match Size(remote, path)
        case Ok(n) => size == n && err == None
        case Err(e) => size == 0 && err == Some(e)
      ensures log == old(log) + [SizeCall(path)]
    {
      log := log + [SizeCall(path)];
      match Size(remote, path)
      case Ok(n) =>
        size, err := n, None;
      case Err(e) =>
        size, err := 0, Some(e);
    }

    method GetTime(path: string) returns (t: int)
      modifies this`log
      ensures t == ModTime(remote, path)
      ensures log == old(log) + [TimeCall(path)]
    {
      t := ModTime(remote, path);
      log := log + [TimeCall(path)];
    }
  }
}
