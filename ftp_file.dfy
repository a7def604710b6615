/**
 * The FTP remote file handle: a path, a mutable logical offset and a
 * reference to the shared transfer session.  Every call is a fresh round
 * trip on the session; the handle keeps no stream and no cached size.
 */
module FtpFile {
  import opened Wrappers
  import opened Errors
  import opened GoInt
  import opened FtpSession

  /** Go's io.SeekStart, io.SeekCurrent and io.SeekEnd. */
  const SeekStart: int := 0
  const SeekCurrent: int := 1
  const SeekEnd: int := 2

  predicate IsWhence(whence: int) {
    whence == SeekStart || whence == SeekCurrent || whence == SeekEnd
  }

  /** The position a recognised whence measures from: 0, the stored offset, or the remote size. */
  function Base(whence: int, offset: int, size: int): int
    requires IsWhence(whence)
  {
    if whence == SeekStart then 0 else if whence == SeekCurrent then offset else size
  }

  /** Accepts a target only inside [0, size]; nothing is clamped. */
  function InBounds(target: int64, size: int64): Result<int64, Error>
  {
    if target < 0 || target > size then Err(OutOfRange) else Ok(target)
  }

  /**
   * The target Seek computes from the freshly queried size and the stored
   * offset, with Go's wrapping int64 addition, and its validation.  For a
   * handle in its valid state the wrap-around never lets a target through:
   * the result is exactly the mathematical `base + requested` when that lies
   * in [0, size], and OutOfRange otherwise.
   */
  function SeekTarget(size: int64, offset: int64, requested: int64, whence: int): (r: Result<int64, Error>)
    ensures !IsWhence(whence) ==> r == Err(Invalid)
    ensures r.Ok? ==> 0 <= r.value <= size
    ensures r.Err? ==> r.error == Invalid || r.error == OutOfRange
    ensures 0 <= offset && 0 <= size && IsWhence(whence) ==>
      var target := Base(whence, offset, size) + requested;
      r == if 0 <= target <= size then Ok(target) else Err(OutOfRange)
  {
    if whence == SeekStart then InBounds(requested, size)
    else if whence == SeekCurrent then InBounds(AddInt64(offset, requested), size)
    else if whence == SeekEnd then InBounds(AddInt64(size, requested), size)
    else Err(Invalid)
  }

  /** The rows of the Seek test table: remote size 10, stored offset 5 before every call. */
  lemma SeekTable()
    ensures SeekTarget(10, 5, 5, SeekStart) == Ok(5)
    ensures SeekTarget(10, 5, -3, SeekEnd) == Ok(7)
    ensures SeekTarget(10, 5, 2, SeekCurrent) == Ok(7)
    ensures SeekTarget(10, 5, -5, SeekCurrent) == Ok(0)
    ensures SeekTarget(10, 5, -3, SeekStart) == Err(OutOfRange)
    ensures SeekTarget(10, 5, 15, SeekStart) == Err(OutOfRange)
    ensures SeekTarget(10, 5, 3, SeekEnd) == Err(OutOfRange)
    ensures SeekTarget(10, 5, 10, SeekCurrent) == Err(OutOfRange)
    ensures SeekTarget(10, 5, 0, 123) == Err(Invalid)
  {
  }

  /**
   * A successful seek is idempotent: seeking again from Start to the
   * position it returned, or by 0 from Current, lands on the same position
   * (as long as the remote size has not shrunk below it).
   */
  lemma {:induction false} SeekAgainStaysPut(size: int64, offset: int64, requested: int64, whence: int, size': int64)
    requires 0 <= offset && 0 <= size
    requires SeekTarget(size, offset, requested, whence).Ok?
    requires SeekTarget(size, offset, requested, whence).value <= size'
    ensures var t := SeekTarget(size, offset, requested, whence).value;
      SeekTarget(size', t, t, SeekStart) == Ok(t) && SeekTarget(size', t, 0, SeekCurrent) == Ok(t)
  {
    var t := SeekTarget(size, offset, requested, whence).value;
    assert 0 <= t;
    assert InBounds(t, size') == Ok(t);
    assert AddInt64(t, 0) == t;
  }

  class File {
    const path: string
    const conn: Session
    var offset: int64
    var modTime: int

    /** The stored offset is never negative. */
    ghost predicate Valid()
      reads this
    {
      0 <= offset
    }

    /** A handle as `Open`/`Create` hands it out: offset 0. */
    constructor (path: string, conn: Session)
      ensures Valid()
      ensures this.path == path && this.conn == conn && offset == 0 && modTime == 0
    {
      this.path := path;
      this.conn := conn;
      offset := 0;
      modTime := 0;
    }

    /**
     * Retrieves from the stored offset and reads up to `buf.Length` bytes into
     * `buf`.  The offset advances by the number of bytes delivered, also when
     * io.EOF comes with them, so that the next Read starts after them.  A
     * retrieve failure, a read failure and io.EOF all surface as an error.
     */
    method Read(buf: array<byte>) returns (n: int, err: Option<Error>)
      requires Valid()
      modifies this`offset, conn`log, buf
      ensures Valid()
      ensures conn.remote == old(conn.remote)
      ensures conn.log == old(conn.log) + [RetrCall(path, ToUint64(old(offset)))]
      ensures var res := ReadFrom(conn.remote, path, ToUint64(old(offset)), buf.Length);
        && n == |res.bytes| && err == res.err
        && buf[..n] == res.bytes && buf[n..] == old(buf[n..])
      ensures offset == old(offset) + n
    {
      var s := conn.RetrFrom(path, ToUint64(offset));
      match s
      case Err(e) =>
        n, err := 0, Some(e);
      case Ok(stream) =>
        var res := ReadStream(stream, buf.Length);
        n := |res.bytes|;
        forall i | 0 <= i < n {
          buf[i] := res.bytes[i];
        }
        assert n == 0 || offset + n <= |conn.remote.files[path]|;
        offset := offset + n;
        err := res.err;
    }

    /** Retrieves from the explicit offset `off` (converted as Go's `uint64(off)`) and leaves the stored offset alone. */
    method ReadAt(buf: array<byte>, off: int64) returns (n: int, err: Option<Error>)
      modifies conn`log, buf
      ensures conn.remote == old(conn.remote)
      ensures conn.log == old(conn.log) + [RetrCall(path, ToUint64(off))]
      ensures var res := ReadFrom(conn.remote, path, ToUint64(off), buf.Length);
        && n == |res.bytes| && err == res.err
        && buf[..n] == res.bytes && buf[n..] == old(buf[n..])
    {
      var s := conn.RetrFrom(path, ToUint64(off));
      match s
      case Err(e) =>
        n, err := 0, Some(e);
      case Ok(stream) =>
        var res := ReadStream(stream, buf.Length);
        n := |res.bytes|;
        forall i | 0 <= i < n {
          buf[i] := res.bytes[i];
        }
        err := res.err;
    }

    /**
     * Stores `p` at the stored offset.  Only a successful store advances the
     * offset by `|p|` and refreshes the modification time with a GetTime call;
     * a store error is returned as it is, with no GetTime call.
     */
    method Write(p: seq<byte>) returns (n: int, err: Option<Error>)
      requires Valid()
      modifies this`offset, this`modTime, conn
      ensures Valid()
      ensures match Store(old(conn.remote), path, p, ToUint64(old(offset)))
        case Err(e) =>
          && n == 0 && err == Some(e)
          && offset == old(offset) && modTime == old(modTime)
          && conn.remote == old(conn.remote)
          && conn.log == old(conn.log) + [StorCall(path, p, ToUint64(old(offset)))]
        case Ok(r') =>
          && n == |p| && err == None
          && offset == old(offset) + |p|
          && conn.remote == r' && modTime == old(conn.remote).clock
          && conn.log == old(conn.log) + [StorCall(path, p, ToUint64(old(offset))), TimeCall(path)]
    {
      var e := conn.StorFrom(path, p, ToUint64(offset));
      if e.Some? {
        n, err := 0, e;
        return;
      }
      modTime := conn.GetTime(path);
      offset := offset + |p|;
      n, err := |p|, None;
    }

    /** Stores `p` at the explicit offset `off`; the stored offset is left alone. */
    method WriteAt(p: seq<byte>, off: int64) returns (n: int, err: Option<Error>)
      modifies this`modTime, conn
      ensures match Store(old(conn.remote), path, p, ToUint64(off))
        case Err(e) =>
          && n == 0 && err == Some(e) && modTime == old(modTime)
          && conn.remote == old(conn.remote)
          && conn.log == old(conn.log) + [StorCall(path, p, ToUint64(off))]
        case Ok(r') =>
          && n == |p| && err == None
          && conn.remote == r' && modTime == old(conn.remote).clock
          && conn.log == old(conn.log) + [StorCall(path, p, ToUint64(off)), TimeCall(path)]
    {
      var e := conn.StorFrom(path, p, ToUint64(off));
      if e.Some? {
        n, err := 0, e;
        return;
      }
      modTime := conn.GetTime(path);
      n, err := |p|, None;
    }

    /**
     * Queries the remote size afresh (on every call, also for an unrecognised
     * whence), then computes and validates the target.  Success stores and
     * returns the target; any failure returns position 0 with the error and
     * leaves the stored offset as it was.
     */
    method Seek(requested: int64, whence: int) returns (pos: int64, err: Option<Error>)
      requires Valid()
      modifies this`offset, conn`log
      ensures Valid()
      ensures conn.remote == old(conn.remote)
      ensures conn.log == old(conn.log) + [SizeCall(path)]
      ensures match Size(conn.remote, path)
        case Err(e) => pos == 0 && err == Some(e)
        case Ok(size) =>
          match SeekTarget(size, old(offset), requested, whence)
          case Ok(t) => pos == t && err == None
          case Err(e) => pos == 0 && err == Some(e)
      ensures err == None ==> offset == pos
      ensures err != None ==> pos == 0 && offset == old(offset)
    {
      var size, sizeErr := conn.FileSize(path);
      if sizeErr.Some? {
        pos, err := 0, sizeErr;
        return;
      }
      match SeekTarget(size, offset, requested, whence)
      case Ok(t) =>
        offset := t;
        pos, err := t, None;
      case Err(e) =>
        pos, err := 0, Some(e);
    }
  }

  /** A session whose remote side holds one object of ten bytes, 0 to 9, at `path`. */
  method TenByteSession(path: string) returns (conn: Session)
    ensures fresh(conn) && conn.log == []
    ensures conn.remote == Remote(map[path := [0, 1, 2, 3, 4, 5, 6, 7, 8, 9]], map[], 42, {})
  {
    conn := new Session(Remote(map[path := [0, 1, 2, 3, 4, 5, 6, 7, 8, 9]], map[], 42, {}));
  }

  /** The handle's seek scenario: out-of-range and invalid seeks keep offset 5; a seek from End lands on 7. */
  method SeekScenario()
  {
    var conn := TenByteSession("/ftp/one/testfile2.txt");
    var f := new File("/ftp/one/testfile2.txt", conn);
    var pos, err := f.Seek(5, SeekStart);
    assert pos == 5 && err == None && f.offset == 5;
    pos, err := f.Seek(15, SeekStart);
    assert pos == 0 && err == Some(OutOfRange) && f.offset == 5;
    pos, err := f.Seek(0, 123);
    assert pos == 0 && err == Some(Invalid) && f.offset == 5;
    pos, err := f.Seek(-3, SeekEnd);
    assert pos == 7 && err == None && f.offset == 7;
    assert conn.log == [SizeCall(f.path), SizeCall(f.path), SizeCall(f.path), SizeCall(f.path)];
  }

  /** A Read after a successful Seek starts at the byte the Seek returned. */
  method SeekThenReadScenario()
  {
    var conn := TenByteSession("/ftp/one/testfile2.txt");
    var f := new File("/ftp/one/testfile2.txt", conn);
    var pos, err := f.Seek(-3, SeekEnd);
    assert pos == 7;
    var buf := new byte[3];
    var n, rerr := f.Read(buf);
    assert n == 3 && rerr == None && buf[..] == [7, 8, 9] && f.offset == 10;
  }

  /** A read into a buffer larger than what is left delivers the rest together with io.EOF, as the mocked 1024-byte reads do. */
  method ReadAtEofScenario()
  {
    var conn := TenByteSession("/ftp/one/testfile2.txt");
    var f := new File("/ftp/one/testfile2.txt", conn);
    var big := new byte[1024];
    var n, rerr := f.ReadAt(big, 3);
    assert n == 7 && rerr == Some(EndOfFile);
  }

  /** On a missing path a write fails without a GetTime call and keeps offset 0; a read fails too. */
  method MissingPathScenario()
  {
    var conn := TenByteSession("/ftp/one/testfile2.txt");
    var g := new File("/ftp/one/nonexistent.txt", conn);
    var w, werr := g.Write([1, 2]);
    assert werr == Some(NotFound) && w == 0 && g.offset == 0;
    assert conn.log == [StorCall(g.path, [1, 2], 0)];
    var buf := new byte[4];
    var n, rerr := g.Read(buf);
    assert rerr == Some(NotFound) && n == 0;
  }

  /** Bytes written through one handle are read back through another at the same offset. */
  method WriteThenReadScenario()
  {
    var conn := TenByteSession("/ftp/one/testfile.txt");
    var w := new File("/ftp/one/testfile.txt", conn);
    ghost var before := conn.remote;
    var n, err := w.WriteAt([65, 66, 67], 3);
    assert Store(before, w.path, [65, 66, 67], 3).Ok?;
    assert n == 3 && err == None && w.modTime == 42;
    StoreThenRead(before, w.path, [65, 66, 67], 3);
    var r := new File("/ftp/one/testfile.txt", conn);
    var buf := new byte[3];
    var m, rerr := r.ReadAt(buf, 3);
    assert m == 3 && rerr == None && buf[..] == [65, 66, 67];
  }
}
