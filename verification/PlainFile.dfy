// What a plain immutable file with a cursor does: the specification the cache must look like.
module PlainFile {
  type Byte = x: int | 0 <= x < 256
  type Bytes = seq<Byte>
  type Path = string

  // What a call returns: failure, the bytes read, the new position of a seek, or success without a value.
  datatype Ret = Fail | Data(bytes: Bytes) | Pos(pos: int) | Done

  const SEEK_SET := 0
  const SEEK_CUR := 1
  const SEEK_END := 2

  // The bytes from position at, count of them or those up to the end; nothing at or beyond the end.
  function Slice(file: Bytes, at: nat, count: nat): (r: Bytes)
    ensures |r| == if at >= |file| then 0 else if count <= |file| - at then count else |file| - at
    ensures forall i :: 0 <= i < |r| ==> r[i] == file[at + i]
  {
    if at >= |file| then []
    else if at + count <= |file| then file[at..at + count]
    else file[at..]
  }

  function Pread(file: Bytes, count: nat, offset: int): Ret {
    if offset < 0 then Fail else Data(Slice(file, offset, count))
  }

  function Read(file: Bytes, cursor: nat, count: nat): Ret {
    Data(Slice(file, cursor, count))
  }

  function AfterRead(file: Bytes, cursor: nat, count: nat): nat {
    cursor + |Slice(file, cursor, count)|
  }

  // The position a seek asks for; negative when the seek is invalid.
  function SeekTarget(file: Bytes, cursor: nat, offset: int, whence: int): int {
    if whence == SEEK_SET then offset
    else if whence == SEEK_CUR then cursor + offset
    else if whence == SEEK_END then |file| + offset
    else -1
  }

  function AfterSeek(file: Bytes, cursor: nat, offset: int, whence: int): nat {
    var target := SeekTarget(file, cursor, offset, whence);
    if target < 0 then cursor else target
  }

  function Seek(file: Bytes, cursor: nat, offset: int, whence: int): Ret {
    var target := SeekTarget(file, cursor, offset, whence);
    Pos(if target < 0 then -1 else target)
  }

  // Conversion of a wider integer to int32_t.
  function Int32(x: int): (r: int)
    ensures -0x8000_0000 <= r < 0x8000_0000 && (x - r) % 0x1_0000_0000 == 0
    ensures -0x8000_0000 <= x < 0x8000_0000 ==> r == x
  {
    var low := x % 0x1_0000_0000;
    if low < 0x8000_0000 then low else low - 0x1_0000_0000
  }

  // ---------------------------------------------------------------- path names

  predicate NoSlash(s: string) {
    '/' !in s
  }

  // The part after the last slash.
  function BaseName(p: Path): (r: string)
    ensures NoSlash(r)
    decreases |p|
  {
    if p == [] then ""
    else if p[|p| - 1] == '/' then ""
    else BaseName(p[..|p| - 1]) + [p[|p| - 1]]
  }

  // The whole path, or what follows its last slash.
  lemma {:induction false} BaseNameMeans(p: Path)
    ensures var base := BaseName(p);
            && '/' !in base && |base| <= |p| && p[|p| - |base|..] == base
            && (|base| < |p| ==> p[|p| - |base| - 1] == '/')
    decreases |p|
  {
    if p != [] && p[|p| - 1] != '/' {
      var init, base := p[..|p| - 1], BaseName(p[..|p| - 1]);
      BaseNameMeans(init);
      assert p[|p| - |base| - 1..] == init[|init| - |base|..] + [p[|p| - 1]];
    }
  }

  // The part before the last slash.
  function DirName(p: Path): string
    decreases |p|
  {
    if p == [] then ""
    else if p[|p| - 1] == '/' then p[..|p| - 1]
    else DirName(p[..|p| - 1])
  }

  lemma {:induction false} DirNameOfJoin(dir: string, base: string)
    requires NoSlash(base)
    ensures DirName(dir + "/" + base) == dir
    decreases |base|
  {
    var joined := dir + "/" + base;
    if base == "" {
      assert joined == dir + "/" && joined[..|joined| - 1] == dir;
    } else {
      var init := base[..|base| - 1];
      assert joined[..|joined| - 1] == dir + "/" + init;
      assert joined[|joined| - 1] == base[|base| - 1];
      DirNameOfJoin(dir, init);
    }
  }
}
