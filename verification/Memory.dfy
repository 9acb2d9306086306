/** Typed buffers: `tpalloc`, `tprealloc`, `tpfree` and `tptypes`, with their guards before and after the data. */
module Memory {
  import opened Sequences
  import opened Wire

  const MAGIC := 0xfee1_900d
  /** The complement of MAGIC, which marks memory that has been given back. */
  const SPOILT := 0x011e_6ff2
  const TPEINVAL := 4
  const TPEOS := 7

  /** Size of a guard, largest long and largest size_t. */
  datatype Model = Model(unit: nat, longMax: nat, sizeMax: nat)

  const ILP32 := Model(16, 0x7fff_ffff, 0xffff_ffff)
  const LP64 := Model(32, 0x7fff_ffff_ffff_ffff, 0xffff_ffff_ffff_ffff)

  /** ALLOC_UNITS: how many guard-sized units hold `len` bytes and two guards. */
  function AllocUnits(m: Model, len: nat): nat
    requires m.unit > 0
  {
    (len + m.unit - 1) / m.unit + 2
  }

  /** The bytes between the guards. */
  function BodySize(m: Model, len: nat): nat
    requires m.unit > 0
  {
    (AllocUnits(m, len) - 2) * m.unit
  }

  /** The data fits between the guards with less than a unit to spare, and no step of the computation wraps around. */
  lemma UnitsFit(m: Model, len: nat)
    requires (m == ILP32 || m == LP64) && len <= m.longMax
    ensures len <= BodySize(m, len) < len + m.unit
    ensures len + m.unit - 1 <= m.sizeMax && AllocUnits(m, len) * m.unit <= m.sizeMax
  {
    if m == ILP32 {
      assert BodySize(m, len) == (len + 15) / 16 * 16;
    } else {
      assert BodySize(m, len) == (len + 31) / 32 * 32;
    }
  }

  datatype Guard = Guard(kind: string, subtype: string, len: nat, magic: int)

  /** A block: the guard that the pointer follows, the bytes after it, and the guard found from the first one's length. */
  datatype Block = Block(header: Guard, body: seq<byte>, trailer: Guard)

  predicate IsMagic(b: Block) {
    b.header.magic == MAGIC
  }

  /** The trailer is where the header's length puts it, and agrees with it in every field. */
  predicate Intact(m: Model, b: Block)
    requires m.unit > 0
  {
    IsMagic(b) && |b.body| == BodySize(m, b.header.len) && b.header == b.trailer && b.header.len <= m.longMax
    && b.header.kind == "" && b.header.subtype == ""
  }

  /** Both guards say that the block has been given back. */
  predicate Spoilt(b: Block) {
    b.header.magic == SPOILT && b.trailer.magic == SPOILT
  }

  /** What the caller sees of a block. */
  function Data(b: Block): (d: seq<byte>)
    requires b.header.len <= |b.body|
    ensures |d| == b.header.len
  {
    b.body[..b.header.len]
  }

  function Stored(d: seq<byte>, i: nat, x: byte): (r: seq<byte>)
    requires i < |d|
    ensures |r| == |d| && r[i] == x && forall j :: 0 <= j < |d| && j != i ==> r[j] == d[j]
  {
    d[..i] + [x] + d[i + 1..]
  }

  function Smaller(a: nat, b: nat): nat {
    if a < b then a else b
  }

  class Arena {
    const m: Model
    var blocks: map<nat, Block>     // by pointer; those given back have spoilt guards
    var next: nat
    var tperrno: int

    ghost predicate Valid()
      reads this
    {
      && (m == ILP32 || m == LP64)
      && (forall p :: p in blocks ==> if IsMagic(blocks[p]) then Intact(m, blocks[p]) else Spoilt(blocks[p]))
      && (forall p :: p in blocks ==> p < next)
    }

    /** IS_MAGIC: `p` points at a buffer that has not been given back. */
    predicate Live(p: nat)
      reads this
    {
      p in blocks && IsMagic(blocks[p])
    }

    /** The contents of all live buffers. */
    ghost function Contents(): (c: map<nat, seq<byte>>)
      requires Valid()
      reads this
      ensures (forall p :: p in c <==> Live(p)) && forall p :: p in c ==> |c[p]| == blocks[p].header.len
    {
      map p | p in blocks && IsMagic(blocks[p]) :: Visible(m, blocks[p])
    }

    constructor (m: Model)
      requires m == ILP32 || m == LP64
      ensures Valid() && Contents() == map[] && this.m == m
    {
      this.m := m;
      blocks, next, tperrno := map[], 0, 0;
    }

    /** `fill` is what the new memory happens to hold; `full` says that there is none. */
    method TpAlloc(size: int, fill: seq<byte>, full: bool) returns (p: Option<nat>)
      requires Valid() && size <= m.longMax && (0 <= size ==> |fill| == BodySize(m, size))
      modifies this
      ensures Valid() && (p.None? <==> size < 0 || full)
      ensures p.None? ==> Contents() == old(Contents()) && tperrno == (if size < 0 then TPEINVAL else TPEOS)
      ensures p.Some? ==> p.value !in old(blocks) && Live(p.value) && Contents() == old(Contents())[p.value := Contents()[p.value]] && |Contents()[p.value]| == size
    {
      hide Visible;
      if size < 0 {
        tperrno := TPEINVAL;
        return None;
      }
      if full {
        tperrno := TPEOS;
        return None;
      }
      var g := Guard("", "", size, MAGIC);
      blocks := blocks[next := Block(g, fill, g)];
      p := Some(next);
      next := next + 1;
    }

    /** The assertions that every use of a buffer makes of its two guards. */
    method CheckGuards(p: nat)
      requires Valid() && Live(p)
    {
      var b := blocks[p];
      assert |b.body| == BodySize(m, b.header.len);
      assert b.header.len == b.trailer.len;
      assert b.header.magic == b.trailer.magic;
      assert b.header.kind == b.trailer.kind;
      assert b.header.subtype == b.trailer.subtype;
    }

    /** The block stays or moves, as `moved` says; the trailer is written again at its new place. */
    method TpRealloc(p: nat, size: int, fill: seq<byte>, moved: bool, full: bool) returns (q: Option<nat>)
      requires Valid() && size <= m.longMax && (0 <= size ==> |fill| == BodySize(m, size))
      modifies this
      ensures Valid() && (q.Some? <==> old(Live(p)) && 0 <= size && !full)
      ensures q.None? ==> Contents() == old(Contents()) && tperrno == (if old(Live(p)) && 0 <= size then TPEOS else TPEINVAL)
      ensures q.Some? ==> Live(q.value) && (if moved then q.value !in old(blocks) else q.value == p)
      ensures q.Some? ==> Contents() == (old(Contents()) - {p})[q.value := Contents()[q.value]] && |Contents()[q.value]| == size
      ensures q.Some? ==> var n := Smaller(size, |old(Contents())[p]|); Contents()[q.value][..n] == old(Contents())[p][..n]
    {
      hide Visible;
      if !Live(p) || size < 0 {
        tperrno := TPEINVAL;
        return None;
      }
      CheckGuards(p);
      if full {
        tperrno := TPEOS;
        return None;
      }
      var b := blocks[p];
      var kept := Smaller(|b.body|, |fill|);
      var g := b.header.(len := size);
      var b' := Block(g, b.body[..kept] + fill[kept..], g);
      PrefixKept(m, b, b', kept, size);
      var at := Relocate(p, b', moved);
      q := Some(at);
    }

    /** The block `b` takes the place of the one at `p`, there or elsewhere. */
    method Relocate(p: nat, b: Block, moved: bool) returns (q: nat)
      requires Valid() && Live(p) && Intact(m, b)
      modifies this
      ensures Valid() && (if moved then q !in old(blocks) else q == p)
      ensures Contents() == (old(Contents()) - {p})[q := Visible(m, b)]
    {
      hide Visible;
      q := if moved then next else p;
      blocks := (blocks - {p})[q := b];
      next := if moved then next + 1 else next;
    }

    /** Gives a buffer back, with both guards spoilt, so that doing it again is caught: the program stops. */
    method TpFree(p: nat) returns (stops: bool)
      requires Valid()
      modifies this
      ensures Valid() && (stops <==> !old(Live(p)))
      ensures stops ==> blocks == old(blocks)
      ensures !stops ==> p in blocks && Spoilt(blocks[p]) && !Live(p) && Contents() == old(Contents()) - {p}
    {
      if !Live(p) {
        return true;
      }
      CheckGuards(p);
      var b := blocks[p];
      blocks := blocks[p := Block(b.header.(magic := SPOILT), b.body, b.trailer.(magic := SPOILT))];
      stops := false;
    }

    /** The size last asked for, or -1 for a pointer that is not a buffer; the type is never the one asked for. */
    method TpTypes(p: nat) returns (len: int, kind: string, subtype: string)
      requires Valid()
      modifies this`tperrno
      ensures Valid() && Contents() == old(Contents())
      ensures len == if p in Contents() then |Contents()[p]| else -1
      ensures kind == "" && subtype == "" && (p !in Contents() ==> tperrno == TPEINVAL)
    {
      if Live(p) {
        CheckGuards(p);
        return blocks[p].header.len, blocks[p].header.kind, blocks[p].header.subtype;
      }
      tperrno := TPEINVAL;
      len, kind, subtype := -1, "", "";
    }

    /** The caller stores a byte within the size it asked for. */
    method Poke(p: nat, i: nat, x: byte)
      requires Valid() && Live(p) && i < |Contents()[p]|
      modifies this
      ensures Valid() && Contents() == old(Contents())[p := Stored(old(Contents())[p], i, x)]
    {
      hide Visible;
      var b := blocks[p];
      UnitsFit(m, b.header.len);
      StoreSeen(m, b, i, x);
      blocks := blocks[p := b.(body := Stored(b.body, i, x))];
    }
  }

  /** The data of an intact block. */
  function Visible(m: Model, b: Block): (d: seq<byte>)
    requires (m == ILP32 || m == LP64) && Intact(m, b)
    ensures |d| == b.header.len
  {
    UnitsFit(m, b.header.len);
    Data(b)
  }

  lemma StoreSeen(m: Model, b: Block, i: nat, x: byte)
    requires (m == ILP32 || m == LP64) && Intact(m, b) && i < b.header.len <= |b.body|
    ensures Intact(m, b.(body := Stored(b.body, i, x)))
    ensures Visible(m, b.(body := Stored(b.body, i, x))) == Stored(Visible(m, b), i, x)
  {
    var b' := b.(body := Stored(b.body, i, x));
    assert Visible(m, b') == Stored(b.body, i, x)[..b.header.len];
    assert Stored(b.body, i, x)[..b.header.len] == Stored(b.body[..b.header.len], i, x);
  }

  lemma PrefixKept(m: Model, b: Block, b': Block, kept: nat, size: nat)
    requires (m == ILP32 || m == LP64) && Intact(m, b) && Intact(m, b') && b'.header.len == size
    requires kept == Smaller(|b.body|, |b'.body|) && b'.body[..kept] == b.body[..kept]
    ensures var n := Smaller(size, |Visible(m, b)|); Visible(m, b')[..n] == Visible(m, b)[..n]
  {
    UnitsFit(m, b.header.len);
    UnitsFit(m, size);
    var n := Smaller(size, b.header.len);
    assert b'.body[..n] == b'.body[..kept][..n] && b.body[..n] == b.body[..kept][..n];
  }
}
