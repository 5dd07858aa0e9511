/** The file helpers of the libc shim (hypervisor/ulib/libax/src/cbindings/file.rs):
    translating `open` flags, decoding `lseek`'s `whence`, filling a `struct
    stat`, and copying the current directory into a caller's buffer. The file
    system, the descriptor table and the environment are parameters. Error
    returns are `Err(errno)`; the conversion of an error into a negative C
    return value happens in the `ax_call_body!` macro, which is not part of
    this model. */
module FileShim {
  import opened Common

  datatype Errno = EFAULT | EINVAL | ERANGE | OtherErrno(code: nat)

  /** Open flags, as the C library's `fcntl.h` defines them. */
  const O_RDONLY: bv32 := 0
  const O_WRONLY: bv32 := 1
  const O_CREAT: bv32 := 0x40
  const O_TRUNC: bv32 := 0x200
  const O_APPEND: bv32 := 0x400
  const O_EXEC: bv32 := 0x20_0000

  datatype OpenOptions = OpenOptions(
    read: bool, write: bool, append: bool, truncate: bool, create: bool, createNew: bool)

  /** `OpenOptions::new()`: nothing requested. */
  const NO_OPTIONS := OpenOptions(false, false, false, false, false, false)

  /** `flags as u32`: the bits of a C `int`. */
  function FlagBits(flags: int32): bv32 {
    ((flags as int) % 0x1_0000_0000) as bv32
  }

  /** `flags_to_options`: the access mode comes from the two low bits, and
      each of O_APPEND, O_TRUNC, O_CREAT and O_EXEC turns on one further
      option by itself. `mode` plays no part. */
  method FlagsToOptions(flags: int32, mode: uint32) returns (options: OpenOptions)
    ensures options.read <==> FlagBits(flags) & 3 != O_WRONLY
    ensures options.write <==> FlagBits(flags) & 3 != O_RDONLY
    ensures options.append <==> FlagBits(flags) & O_APPEND != 0
    ensures options.truncate <==> FlagBits(flags) & O_TRUNC != 0
    ensures options.create <==> FlagBits(flags) & O_CREAT != 0
    ensures options.createNew <==> FlagBits(flags) & O_EXEC != 0
  {
    var f := FlagBits(flags);
    options := NO_OPTIONS;
    var access := f & 3;
    if access == O_RDONLY {
      options := options.(read := true);
    } else if access == O_WRONLY {
      options := options.(write := true);
    } else {
      options := options.(read := true).(write := true);
    }
    if f & O_APPEND != 0 {
      options := options.(append := true);
    }
    if f & O_TRUNC != 0 {
      options := options.(truncate := true);
    }
    if f & O_CREAT != 0 {
      options := options.(create := true);
    }
    if f & O_EXEC != 0 {
      options := options.(createNew := true);
    }
  }

  datatype SeekFrom = Start(pos: uint64) | Current(delta: int64) | End(delta: int64)

  /** The `whence` match of `ax_lseek`. */
  function DecodeWhence(whence: int32, offset: int64): (r: Result<SeekFrom, Errno>)
    ensures whence == 0 <==> r == Ok(Start(AsUsize(offset)))
    ensures whence == 1 <==> r == Ok(Current(offset))
    ensures whence == 2 <==> r == Ok(End(offset))
    ensures r.Err? <==> !(0 <= whence <= 2)
    ensures r.Err? ==> r.error == EINVAL
  {
    match whence
    case 0 => Ok(Start(AsUsize(offset)))
    case 1 => Ok(Current(offset))
    case 2 => Ok(End(offset))
    case _ => Err(EINVAL)
  }

  /** `ax_lseek`: decode `whence`, then look up `fd` and seek. `seek` stands
      for the descriptor table (`Filelike::from_fd`, `into_file`) and the
      file's `seek`. An invalid `whence` fails before `fd` is looked up, so
      the result depends neither on `fd` nor on the table. */
  function Lseek(fd: int32, offset: int64, whence: int32,
                 seek: (int32, SeekFrom) -> Result<uint64, Errno>): (r: Result<uint64, Errno>)
    ensures !(0 <= whence <= 2) ==> r == Err(EINVAL)
    ensures 0 <= whence <= 2 ==> r == seek(fd, DecodeWhence(whence, offset).value)
  {
    match DecodeWhence(whence, offset)
    case Err(e) => Err(e)
    case Ok(pos) => seek(fd, pos)
  }

  /** The metadata of a file, as `raw_metadata` reports it. */
  datatype FileMeta = FileMeta(fileType: uint8, perm: bv32, size: uint64, blocks: uint64)

  datatype Stat = Stat(
    ino: int, nlink: int, mode: bv32, uid: int, gid: int,
    size: int64, blocks: int64, blksize: int)

  /** `ctypes::stat::default()` as far as the modelled fields go. */
  const ZERO_STAT := Stat(0, 0, 0, 0, 0, 0, 0, 0)

  /** `st_mode` of `stat_file`: the file type in bits 12 and up, OR-ed with the
      permission bits. */
  function StatMode(fileType: uint8, perm: bv32): (mode: bv32)
    ensures mode & 0xfff == perm & 0xfff
    ensures perm < 0x1000 ==> mode >> 12 == fileType as bv32
  {
    ((fileType as bv32) << 12) | perm
  }

  /** `stat_file`: fixed inode, link count, owner and block size, the size and
      block count of the file, and the packed mode. A failure to read the
      metadata is passed on. */
  function StatFile(meta: Result<FileMeta, Errno>): (r: Result<Stat, Errno>)
    ensures meta.Err? <==> r.Err?
    ensures meta.Err? ==> r.error == meta.error
    ensures meta.Ok? ==> r.value.ino == 1 && r.value.nlink == 1
    ensures meta.Ok? ==> r.value.uid == 1000 && r.value.gid == 1000 && r.value.blksize == 512
    ensures meta.Ok? ==> r.value.size == AsSigned(meta.value.size) && r.value.blocks == AsSigned(meta.value.blocks)
    ensures meta.Ok? && meta.value.perm < 0x1000 ==>
              r.value.mode >> 12 == meta.value.fileType as bv32 && r.value.mode & 0xfff == meta.value.perm
  {
    match meta
    case Err(e) => Err(e)
    case Ok(m) =>
      Ok(Stat(1, 1, StatMode(m.fileType, m.perm), 1000, 1000, AsSigned(m.size), AsSigned(m.blocks), 512))
  }

  /** The caller's `struct stat` buffer. */
  class StatBuf {
    var st: Stat
    constructor ()
      ensures st == ZERO_STAT
    {
      st := ZERO_STAT;
    }
  }

  /** `ax_stat`. `path` is the result of converting the C string; `lookup`
      stands for `File::open` followed by reading the metadata. A null buffer
      fails with EFAULT before the path is even looked at, and a failure
      leaves the buffer as it was. */
  method AxStat(path: Result<string, Errno>, buf: StatBuf?,
                lookup: string -> Result<FileMeta, Errno>) returns (r: Result<int, Errno>)
    modifies buf
    ensures buf == null ==> r == Err(EFAULT)
    ensures buf != null && path.Err? ==> r == Err(path.error)
    ensures buf != null && path.Ok? ==> r.Ok? == lookup(path.value).Ok?
    ensures buf != null && path.Ok? && lookup(path.value).Err? ==> r == Err(lookup(path.value).error)
    ensures r.Ok? ==> r.value == 0 && buf != null && path.Ok? && buf.st == StatFile(lookup(path.value)).value
    ensures r.Err? && buf != null ==> buf.st == old(buf.st)
  {
    if buf == null {
      return Err(EFAULT);
    }
    if path.Err? {
      return Err(path.error);
    }
    var st := StatFile(lookup(path.value));
    if st.Err? {
      return Err(st.error);
    }
    buf.st := st.value;
    r := Ok(0);
  }

  /** `ax_lstat`: reports a zeroed `stat` for every non-null buffer, whatever
      the path. */
  method AxLstat(path: Result<string, Errno>, buf: StatBuf?) returns (r: Result<int, Errno>)
    modifies buf
    ensures buf == null <==> r == Err(EFAULT)
    ensures buf != null ==> r == Ok(0) && buf.st == ZERO_STAT
  {
    if buf == null {
      return Err(EFAULT);
    }
    buf.st := ZERO_STAT;
    r := Ok(0);
  }

  /** The pointer that `ax_getcwd` returns on success. */
  datatype CharPtr = NullPtr | BufPtr

  /** `ax_getcwd`: with a null buffer, return null and write nothing.
      Otherwise, when the path and its terminating NUL fit in `size` bytes,
      copy them to the front of the buffer and return it; when they do not,
      fail with ERANGE and leave the buffer alone. `cwd` is the result of
      `env::current_dir`. */
  method AxGetcwd(buf: array?<uint8>, size: uint64, cwd: Result<seq<uint8>, Errno>)
    returns (r: Result<CharPtr, Errno>)
    requires buf != null ==> size <= buf.Length
    modifies buf
    ensures buf == null ==> r == Ok(NullPtr)
    ensures buf != null && cwd.Err? ==> r == Err(cwd.error)
    ensures buf != null && cwd.Ok? && |cwd.value| < size ==>
              r == Ok(BufPtr)
              && buf[..|cwd.value|] == cwd.value && buf[|cwd.value|] == 0
              && buf[|cwd.value| + 1..] == old(buf[|cwd.value| + 1..])
    ensures buf != null && cwd.Ok? && |cwd.value| >= size ==> r == Err(ERANGE)
    ensures buf != null && r.Err? ==> buf[..] == old(buf[..])
  {
    if buf == null {
      return Ok(NullPtr);
    }
    if cwd.Err? {
      return Err(cwd.error);
    }
    var path := cwd.value;
    if |path| < size {
      for i := 0 to |path|
        invariant buf[..i] == path[..i]
        invariant forall j :: i <= j < buf.Length ==> buf[j] == old(buf[j])
      {
        buf[i] := path[i];
        assert buf[..i + 1] == path[..i + 1];
      }
      buf[|path|] := 0;
      assert buf[..|path|] == path;
      r := Ok(BufPtr);
    } else {
      r := Err(ERANGE);
    }
  }
}
