/**
 * The lseek shim (images/seekfix.c) as a class: over any sequence of calls it
 * never holds a wrong belief about the server, and whenever it holds one its
 * answers agree with Linux, whether or not the server swaps the two requests.
 */
module SeekFix {
  datatype Whence = Set | Cur | End | Data | Hole | Else

  datatype Errno = EINVAL | ENXIO | ESTAT

  datatype Seek = At(pos: nat) | Fails(errno: Errno)

  /** What the process knows of its server (-1, 0 and 1). */
  datatype Known = Open | Right | Swaps

  /** The first byte from i on that is data (or a hole), or the end. */
  function FirstFrom(bytes: seq<bool>, i: nat, data: bool): (k: nat)
    requires i <= |bytes|
    ensures i <= k <= |bytes| && (k < |bytes| ==> bytes[k] == data)
    ensures forall j :: i <= j < k ==> bytes[j] != data
    decreases |bytes| - i
  {
    if i == |bytes| || bytes[i] == data then i else FirstFrom(bytes, i + 1, data)
  }

  function To(pos: int): Seek {
    if pos < 0 then Fails(EINVAL) else At(pos)
  }

  /** What Linux means: the next data at or after the offset, or the next hole, the end counting as one; neither past the end. */
  function Linux(bytes: seq<bool>, pos: nat, offset: int, whence: Whence): Seek {
    match whence
    case Set => To(offset)
    case Cur => To(pos + offset)
    case End => To(|bytes| + offset)
    case Data =>
      if offset < 0 || offset >= |bytes| || FirstFrom(bytes, offset, true) == |bytes| then Fails(ENXIO)
      else At(FirstFrom(bytes, offset, true))
    case Hole =>
      if offset < 0 || offset >= |bytes| then Fails(ENXIO) else At(FirstFrom(bytes, offset, false))
    case Else => Fails(EINVAL)
  }

  function Other(whence: Whence): Whence {
    match whence
    case Data => Hole
    case Hole => Data
    case _ => whence
  }

  /** An open file: its bytes, data or hole, whether it is a FUSE mount's and a regular file, whether its status can be read, and its offset. */
  class File {
    const bytes: seq<bool>
    const fuse: bool
    const regular: bool
    const statfs: bool
    const stat: bool
    var pos: nat

    constructor (bytes: seq<bool>, fuse: bool, regular: bool, statfs: bool, stat: bool)
      ensures this.bytes == bytes && this.fuse == fuse && this.regular == regular && this.statfs == statfs && this.stat == stat
      ensures pos == 0
    {
      this.bytes, this.fuse, this.regular, this.statfs, this.stat, pos := bytes, fuse, regular, statfs, stat, 0;
    }

    /** Whether a file can settle the question: both probes tell data from hole only when it has no hole. */
    predicate Tells() {
      statfs && fuse && stat && regular && |bytes| > 0 && forall b :: b in bytes ==> b
    }
  }

  class Process {
    /** Whether the mounts' server takes data for hole: always, or never. */
    const swaps: bool
    var swapped: Known
    var errno: Errno

    /** The shim has not been led astray: what it took the server for is what it is. */
    predicate Valid()
      reads this
    {
      (swapped.Swaps? ==> swaps) && (swapped.Right? ==> !swaps)
    }

    constructor (swaps: bool)
      ensures Valid() && swapped.Open? && this.swaps == swaps
    {
      this.swaps, swapped, errno := swaps, Open, EINVAL;
    }

    /** The file's own answer: a mount's server may swap the two. */
    function Served(f: File, pos: nat, offset: int, whence: Whence): Seek {
      Linux(f.bytes, pos, offset, if f.fuse && swaps then Other(whence) else whence)
    }

    method Real(f: File, offset: int, whence: Whence) returns (r: Seek)
      modifies f`pos, this`errno
      ensures r == Served(f, old(f.pos), offset, whence)
      ensures f.pos == if r.At? then r.pos else old(f.pos)
      ensures errno == if r.Fails? then r.errno else old(errno)
    {
      r := Served(f, f.pos, offset, whence);
      if r.At? { f.pos := r.pos; } else { errno := r.errno; }
    }

    /** Both asked from the start of the file, its offset and errno put back. */
    method Probe(f: File)
      requires Valid() && swapped.Open? && f.fuse && |f.bytes| > 0
      modifies f`pos, this`errno, this`swapped
      ensures Valid() && f.pos == old(f.pos) && errno == old(errno)
      ensures swapped == if forall b :: b in f.bytes ==> b then (if swaps then Swaps else Right) else Open
    {
      var saved := errno;
      var at := Real(f, 0, Cur);
      var data := Real(f, 0, Data);
      var hole := Real(f, 0, Hole);
      NoHoleIsTold(f.bytes);
      if data == At(|f.bytes|) && hole == At(0) {
        swapped := Swaps;
      } else if data == At(0) && hole == At(|f.bytes|) {
        swapped := Right;
      }
      var _ := Real(f, at.pos, Set);
      errno := saved;
    }

    /**
     * A seek through the shim. It learns the server on the first data or hole
     * asked of a file that tells, and never wrongly; once it knows, or off the
     * mounts, the answer is what Linux means; and the offset and errno are
     * those of this seek alone.
     */
    method Fixed(f: File, offset: int, whence: Whence) returns (r: Seek)
      requires Valid()
      modifies f`pos, this`errno, this`swapped
      ensures Valid()
      ensures swapped == if old(swapped).Open? && (whence.Data? || whence.Hole?) && f.Tells()
                         then (if swaps then Swaps else Right) else old(swapped)
      ensures !f.fuse || !(whence.Data? || whence.Hole?) || (f.statfs && !swapped.Open?) ==>
                r == Linux(f.bytes, old(f.pos), offset, whence)
      ensures r == Linux(f.bytes, old(f.pos), offset, whence) || r == Linux(f.bytes, old(f.pos), offset, Other(whence))
      ensures f.pos == if r.At? then r.pos else old(f.pos)
      ensures r.Fails? ==> errno == r.errno
      ensures r.At? && f.statfs && f.stat ==> errno == old(errno)
    {
      if whence != Data && whence != Hole {
        r := Real(f, offset, whence);
        return;
      }
      if !f.statfs { errno := ESTAT; }
      if !f.statfs || !f.fuse {
        r := Real(f, offset, whence);
        return;
      }
      if swapped.Open? {
        if !f.stat { errno := ESTAT; }
        if !f.stat || !f.regular || |f.bytes| <= 0 {
          r := Real(f, offset, whence);
          return;
        }
        Probe(f);
      }
      r := Real(f, offset, if swapped.Swaps? then Other(whence) else whence);
    }
  }

  /** The pair of answers at offset 0 identifies files that are all data, and no file gives the pair reversed. */
  lemma NoHoleIsTold(bytes: seq<bool>)
    requires |bytes| > 0
    ensures (Linux(bytes, 0, 0, Data) == At(0) && Linux(bytes, 0, 0, Hole) == At(|bytes|)) <==> forall b :: b in bytes ==> b
    ensures Linux(bytes, 0, 0, Data) != At(|bytes|)
  {
    if FirstFrom(bytes, 0, false) == |bytes| {
      forall b | b in bytes ensures b {
        var i :| 0 <= i < |bytes| && bytes[i] == b;
      }
    } else {
      assert bytes[FirstFrom(bytes, 0, false)] in bytes;
    }
  }

  /** While a swapping server is not known, its answers to the two are wrong at every offset in the file, and only there. */
  lemma UnknownIsWrong(bytes: seq<bool>, pos: nat, offset: int, whence: Whence)
    requires whence.Data? || whence.Hole?
    ensures Linux(bytes, pos, offset, Other(whence)) == Linux(bytes, pos, offset, whence) <==> offset < 0 || offset >= |bytes|
  {
  }
}
