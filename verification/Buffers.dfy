/** The buffers behind the wire format: one that grows as values are written, and one that values are read from. */
module Buffers {
  import opened Codec

  const RPC_HEADER_SZ := 24
  const DEFAULT_RPC_SZ := 1024

  /** The header of a request; each field is a 32-bit integer. */
  datatype ReqHeader = ReqHeader(xid: int, proc: int, cltNonce: int, srvNonce: int, xidRep: int)

  datatype ReplyHeader = ReplyHeader(xid: int, ret: int)

  predicate Int32(n: int) {
    InRange(4, true, n)
  }

  predicate UInt32(n: int) {
    InRange(4, false, n)
  }

  predicate ReqFits(h: ReqHeader) {
    Int32(h.xid) && Int32(h.proc) && UInt32(h.cltNonce) && UInt32(h.srvNonce) && Int32(h.xidRep)
  }

  predicate ReplyFits(h: ReplyHeader) {
    Int32(h.xid) && Int32(h.ret)
  }

  function Word(n: int): (bs: seq<byte>)
    requires Int32(n) || UInt32(n)
    ensures |bs| == 4
  {
    Bytes(4, if n < 0 then n + Pow(4) else n)
  }

  lemma WordBack(signed: bool, n: int, rest: seq<byte>, ok: bool)
    requires InRange(4, signed, n) && (Int32(n) || UInt32(n))
    ensures Signed(4, signed, Number(4, In(Word(n) + rest, ok)).0) == n
  {
    NumberTrip(4, Unsigned(4, signed, n), rest, ok);
  }

  function ReqBytes(h: ReqHeader): seq<byte>
    requires ReqFits(h)
  {
    Word(h.xid) + Word(h.proc) + Word(h.cltNonce) + Word(h.srvNonce) + Word(h.xidRep)
  }

  function ReplyBytes(h: ReplyHeader): seq<byte>
    requires ReplyFits(h)
  {
    Word(h.xid) + Word(h.ret)
  }

  /** The lowest byte of a number in two parts. */
  lemma LowByte(hi: nat, k: nat, lo: nat)
    requires k > 0
    ensures (hi * Pow(k) + lo) / 256 == hi * Pow(k - 1) + lo / 256 && (hi * Pow(k) + lo) % 256 == lo % 256
  {
    var t := hi * Pow(k - 1);
    assert hi * Pow(k) == 256 * t;
  }

  lemma {:induction false} BytesJoin(w: nat, k: nat, hi: nat, lo: nat)
    requires lo < Pow(k)
    ensures Bytes(w + k, hi * Pow(k) + lo) == Bytes(w, hi) + Bytes(k, lo)
  {
    if k > 0 {
      LowByte(hi, k, lo);
      BytesJoin(w, k - 1, hi, lo / 256);
    }
  }

  class Marshall {
    var buf: array<byte>
    var ind: nat

    ghost predicate Valid()
      reads this, buf
    {
      0 < buf.Length && ind <= buf.Length
    }

    /** The bytes written after the header. */
    ghost function Body(): seq<byte>
      requires Valid()
      reads this, buf
    {
      if ind <= RPC_HEADER_SZ then [] else buf[RPC_HEADER_SZ..ind]
    }

    constructor ()
      ensures Valid() && fresh(buf) && buf.Length == DEFAULT_RPC_SZ && ind == RPC_HEADER_SZ && Body() == []
    {
      buf := new byte[DEFAULT_RPC_SZ];
      ind := RPC_HEADER_SZ;
    }

    /** `realloc`: a buffer of the new capacity with the old contents in front. */
    method Grow(capa: nat)
      requires capa >= buf.Length
      modifies this`buf
      ensures fresh(buf) && buf.Length == capa && buf[..old(buf.Length)] == old(buf[..])
    {
      var b := new byte[capa];
      for k := 0 to buf.Length
        modifies b
        invariant b[..k] == buf[..k]
      {
        b[k] := buf[k];
      }
      assert buf[..buf.Length] == buf[..];
      buf := b;
    }

    method RawByte(x: byte)
      requires Valid()
      modifies this, buf
      ensures Valid() && (buf == old(buf) || fresh(buf)) && (old(ind) < old(buf.Length) ==> buf == old(buf))
      ensures buf.Length == if old(ind) < old(buf.Length) then old(buf.Length) else 2 * old(buf.Length)
      ensures ind == old(ind) + 1 && buf[..ind] == old(buf[..ind]) + [x]
      ensures forall k :: ind <= k < old(buf.Length) ==> buf[k] == old(buf[k])
    {
      ghost var was := buf[..];
      if ind >= buf.Length { Grow(2 * buf.Length); }
      assert buf[..ind] == was[..ind];
      buf[ind] := x;
      ind := ind + 1;
    }

    /** `memcpy` to the write position. */
    method CopyIn(p: seq<byte>)
      requires ind + |p| <= buf.Length
      modifies buf
      ensures buf[..ind + |p|] == old(buf[..ind]) + p
    {
      for k := 0 to |p|
        invariant buf[..ind + k] == old(buf[..ind]) + p[..k]
      {
        buf[ind + k] := p[k];
        assert buf[..ind + k + 1] == buf[..ind + k] + [p[k]];
      }
      assert p[..|p|] == p;
    }

    method RawBytes(p: seq<byte>)
      requires Valid()
      modifies this, buf
      ensures Valid() && (buf == old(buf) || fresh(buf))
      ensures buf.Length ==
        if old(ind) + |p| <= old(buf.Length) then old(buf.Length)
        else if |p| < old(buf.Length) then 2 * old(buf.Length)
        else old(buf.Length) + |p|
      ensures ind == old(ind) + |p| && buf[..ind] == old(buf[..ind]) + p
    {
      ghost var was := buf[..];
      var n := |p|;
      if ind + n > buf.Length { Grow(if buf.Length > n then 2 * buf.Length else buf.Length + n); }
      assert buf[..ind] == was[..ind];
      CopyIn(p);
      ind := ind + n;
    }

    /** `pack`, and `operator<<` for unsigned int. */
    method Write32(x: nat)
      requires Valid() && x < Pow(4)
      modifies this, buf
      ensures Valid() && (buf == old(buf) || fresh(buf))
      ensures buf.Length >= old(buf.Length) && (old(ind) + 4 <= old(buf.Length) ==> buf == old(buf))
      ensures ind == old(ind) + 4 && buf[..ind] == old(buf[..ind]) + Bytes(4, x)
      ensures forall k :: ind <= k < old(buf.Length) ==> buf[k] == old(buf[k])
    {
      FourBytes(x);
      RawByte(x / 0x1000000 % 256);
      RawByte(x / 0x10000 % 256);
      RawByte(x / 0x100 % 256);
      RawByte(x % 256);
    }

    /** `operator<<` for the other integers. */
    method WriteNum(w: nat, x: nat)
      requires Valid() && (w == 1 || w == 2 || w == 4 || w == 8) && x < Pow(w)
      modifies this, buf
      ensures Valid() && (buf == old(buf) || fresh(buf)) && buf.Length >= old(buf.Length)
      ensures ind == old(ind) + w && buf[..ind] == old(buf[..ind]) + Bytes(w, x)
    {
      Powers();
      if w == 1 {
        assert Bytes(1, x) == [] + [x % 256];
        RawByte(x % 256);
      } else if w == 2 {
        assert Bytes(2, x) == [x / 256 % 256, x % 256];
        RawByte(x / 256 % 256);
        RawByte(x % 256);
      } else if w == 4 {
        Write32(x);
      } else {
        BytesJoin(4, 4, x / 0x1_0000_0000, x % 0x1_0000_0000);
        Write32(x / 0x1_0000_0000);
        Write32(x % 0x1_0000_0000);
      }
    }

    method WriteString(s: seq<byte>)
      requires Valid() && |s| < Pow(4)
      modifies this, buf
      ensures Valid() && (buf == old(buf) || fresh(buf)) && buf.Length >= old(buf.Length)
      ensures ind == old(ind) + 4 + |s| && buf[..ind] == old(buf[..ind]) + (Bytes(4, |s|) + s)
    {
      Write32(|s|);
      RawBytes(s);
    }

    /** `operator<<` for any type. */
    method Write(ty: Ty, v: Val)
      requires Valid() && Fits(ty, v)
      modifies this, buf
      ensures Valid() && (buf == old(buf) || fresh(buf)) && buf.Length >= old(buf.Length)
      ensures ind == old(ind) + |Enc(ty, v)| && buf[..ind] == old(buf[..ind]) + Enc(ty, v)
      decreases ty, 1
    {
      match ty
      case Bool => RawByte(if v.b then 1 else 0);
      case Num(w, signed) => WriteNum(w, Unsigned(w, signed, v.n));
      case Str => WriteString(v.s);
      case Vec(_) => WriteVector(ty, v.vs);
      case Map(_, _) => WriteMap(ty, v.ps);
    }

    method WriteVector(ty: Ty, vs: seq<Val>)
      requires Valid() && ty.Vec? && |vs| < Pow(4) && forall i :: 0 <= i < |vs| ==> Fits(ty.e, vs[i])
      modifies this, buf
      ensures Valid() && (buf == old(buf) || fresh(buf)) && buf.Length >= old(buf.Length)
      ensures ind == old(ind) + 4 + |EncAll(ty, vs)|
      ensures buf[..ind] == old(buf[..ind]) + (Bytes(4, |vs|) + EncAll(ty, vs))
      decreases ty, 0
    {
      ghost var was := buf[..ind];
      Write32(|vs|);
      assert vs[0..] == vs;
      for k := 0 to |vs|
        invariant Valid() && (buf == old(buf) || fresh(buf)) && buf.Length >= old(buf.Length)
        invariant buf[..ind] + EncAll(ty, vs[k..]) == was + (Bytes(4, |vs|) + EncAll(ty, vs))
      {
        ghost var mid := buf[..ind];
        Write(ty.e, vs[k]);
        assert vs[k..][1..] == vs[k + 1..];
        Split(mid, Enc(ty.e, vs[k]), EncAll(ty, vs[k + 1..]));
      }
      assert buf[..ind] == was + (Bytes(4, |vs|) + EncAll(ty, vs));
    }

    method WritePair(ty: Ty, p: (Val, Val))
      requires Valid() && ty.Map? && Fits(ty.k, p.0) && Fits(ty.v, p.1)
      modifies this, buf
      ensures Valid() && (buf == old(buf) || fresh(buf)) && buf.Length >= old(buf.Length)
      ensures buf[..ind] == old(buf[..ind]) + (Enc(ty.k, p.0) + Enc(ty.v, p.1))
      decreases ty, 0, 0
    {
      Write(ty.k, p.0);
      Write(ty.v, p.1);
    }

    method WriteMap(ty: Ty, ps: seq<(Val, Val)>)
      requires Valid() && ty.Map? && |ps| < Pow(4)
      requires forall i :: 0 <= i < |ps| ==> Fits(ty.k, ps[i].0) && Fits(ty.v, ps[i].1)
      modifies this, buf
      ensures Valid() && (buf == old(buf) || fresh(buf)) && buf.Length >= old(buf.Length)
      ensures ind == old(ind) + 4 + |EncPairs(ty, ps)|
      ensures buf[..ind] == old(buf[..ind]) + (Bytes(4, |ps|) + EncPairs(ty, ps))
      decreases ty, 0, 1
    {
      ghost var was := buf[..ind];
      Write32(|ps|);
      assert ps[0..] == ps;
      for k := 0 to |ps|
        invariant Valid() && (buf == old(buf) || fresh(buf)) && buf.Length >= old(buf.Length)
        invariant buf[..ind] + EncPairs(ty, ps[k..]) == was + (Bytes(4, |ps|) + EncPairs(ty, ps))
      {
        ghost var mid := buf[..ind];
        WritePair(ty, ps[k]);
        assert ps[k..][1..] == ps[k + 1..];
        Split(mid, Enc(ty.k, ps[k].0) + Enc(ty.v, ps[k].1), EncPairs(ty, ps[k + 1..]));
      }
      assert buf[..ind] == was + (Bytes(4, |ps|) + EncPairs(ty, ps));
    }

    /** `pack` of a signed or unsigned field, inside the header. */
    method Pack(n: int)
      requires Valid() && (Int32(n) || UInt32(n)) && ind + 4 <= buf.Length
      modifies this, buf
      ensures Valid() && buf == old(buf) && ind == old(ind) + 4 && buf[..ind] == old(buf[..ind]) + Word(n)
      ensures forall k :: ind <= k < buf.Length ==> buf[k] == old(buf[k])
    {
      Powers();
      Write32(if n < 0 then n + 0x1_0000_0000 else n);
    }

    /** The header goes in front of a finished body, which stays as it is; the first word is left to the channel. */
    method PackReqHeader(h: ReqHeader)
      requires Valid() && ReqFits(h) && RPC_HEADER_SZ <= ind
      modifies this, buf
      ensures Valid() && buf == old(buf) && ind == old(ind) && Body() == old(Body())
      ensures buf[4..RPC_HEADER_SZ] == ReqBytes(h) && buf[..4] == old(buf[..4])
    {
      var saved := ind;
      ghost var was := buf[..];
      ind := 4;
      assert buf[..4] == was[..4];
      Pack(h.xid);
      Pack(h.proc);
      Pack(h.cltNonce);
      Pack(h.srvNonce);
      Pack(h.xidRep);
      assert buf[..RPC_HEADER_SZ] == was[..4] + ReqBytes(h);
      assert buf[4..RPC_HEADER_SZ] == buf[..RPC_HEADER_SZ][4..] && buf[..4] == buf[..RPC_HEADER_SZ][..4];
      ind := saved;
    }

    method PackReplyHeader(h: ReplyHeader)
      requires Valid() && ReplyFits(h) && RPC_HEADER_SZ <= ind
      modifies this, buf
      ensures Valid() && buf == old(buf) && ind == old(ind) && Body() == old(Body())
      ensures buf[4..12] == ReplyBytes(h) && buf[..4] == old(buf[..4])
      ensures buf[12..RPC_HEADER_SZ] == old(buf[12..RPC_HEADER_SZ])
    {
      var saved := ind;
      ghost var was := buf[..];
      ind := 4;
      assert buf[..4] == was[..4];
      Pack(h.xid);
      Pack(h.ret);
      assert buf[..12] == was[..4] + ReplyBytes(h);
      assert buf[4..12] == buf[..12][4..] && buf[..4] == buf[..12][..4];
      ind := saved;
    }
  }

  lemma ReqFields(buf: seq<byte>, h: ReqHeader)
    requires |buf| >= RPC_HEADER_SZ && ReqFits(h) && buf[4..RPC_HEADER_SZ] == ReqBytes(h)
    ensures buf[4..8] == Word(h.xid) && buf[8..12] == Word(h.proc) && buf[12..16] == Word(h.cltNonce)
    ensures buf[16..20] == Word(h.srvNonce) && buf[20..24] == Word(h.xidRep)
  {
    var f := buf[4..RPC_HEADER_SZ];
    assert forall k :: 0 <= k < 20 ==> f[k] == buf[4 + k];
    assert buf[4..8] == f[..4];
    assert buf[8..12] == f[4..8];
    assert buf[12..16] == f[8..12];
    assert buf[16..20] == f[12..16];
    assert buf[20..24] == f[16..];
  }

  lemma ReplyFields(buf: seq<byte>, h: ReplyHeader)
    requires |buf| >= 12 && ReplyFits(h) && buf[4..12] == ReplyBytes(h)
    ensures buf[4..8] == Word(h.xid) && buf[8..12] == Word(h.ret)
  {
    assert buf[4..12][..4] == buf[4..8] && buf[4..12][4..] == buf[8..12];
  }

  class Unmarshall {
    var buf: seq<byte>
    var ind: nat
    var ok: bool

    /** What is left to read. */
    ghost function Left(): In
      reads this
    {
      In(if ind <= |buf| then buf[ind..] else [], ok)
    }

    constructor (b: seq<byte>)
      ensures buf == b && ind == 0 && ok
    {
      buf, ind, ok := b, 0, true;
    }

    /** `take_in`: the buffer of a whole message, header included. */
    method TakeIn(b: seq<byte>)
      modifies this
      ensures buf == b && ind == RPC_HEADER_SZ && ok == (|b| >= RPC_HEADER_SZ)
    {
      buf, ind := b, RPC_HEADER_SZ;
      ok := |b| >= RPC_HEADER_SZ;
    }

    method OkDone() returns (r: bool)
      ensures r ==> Left() == In([], true)
      ensures ind <= |buf| && Left() == In([], true) ==> r
    {
      r := ok && ind == |buf|;
    }

    method ReadByte() returns (c: byte)
      modifies this`ind, this`ok
      ensures (c, Left()) == RawByte(old(Left()))
      ensures ok ==> ind <= |buf|
      ensures ind == if old(ind) < |buf| then old(ind) + 1 else old(ind)
    {
      c := 0;
      if ind >= |buf| {
        ok := false;
      } else {
        c := buf[ind];
        ind := ind + 1;
      }
    }

    /** Past the end of a message too short for its header, even an empty string is out of reach. */
    method ReadBytes(n: nat) returns (s: seq<byte>)
      modifies this`ind, this`ok
      ensures old(ind) <= |buf| ==> (s, Left()) == RawBytes(n, old(Left()))
      ensures old(ind) > |buf| ==> s == [] && Left() == In([], false) && ind == old(ind)
    {
      s := [];
      if ind + n > |buf| {
        ok := false;
      } else {
        s := buf[ind..ind + n];
        assert buf[ind..][..n] == s && buf[ind..][n..] == buf[ind + n..];
        ind := ind + n;
      }
    }

    method ReadNum(w: nat) returns (x: nat)
      modifies this`ind, this`ok
      ensures (x, Left()) == Number(w, old(Left()))
      ensures old(ind) + w <= |buf| ==> ind == old(ind) + w && ok == old(ok)
      ensures old(ind) + w > |buf| && w > 0 ==> !ok
    {
      ghost var start := Left();
      x := 0;
      for k := 0 to w
        invariant (x, Left()) == Number(k, start)
        invariant old(ind) <= |buf| ==> ind <= |buf|
      {
        var c := ReadByte();
        x := x * 256 + c;
      }
      if w <= |start.rest| { NumberTakes(w, start); } else { NumberShort(w, start); }
    }

    /** `operator>>` for any type. */
    method Read(ty: Ty) returns (v: Val)
      modifies this`ind, this`ok
      ensures (v, Left()) == Dec(ty, old(Left()))
      decreases ty, 1
    {
      match ty
      case Bool =>
        var b := ReadByte();
        v := B(b != 0);
      case Num(w, signed) =>
        var u := ReadNum(w);
        v := N(Signed(w, signed, u));
      case Str =>
        var n := ReadNum(4);
        v := S([]);
        if ok {
          var s := ReadBytes(n);
          v := S(s);
        }
      case Vec(_) =>
        var vs := ReadVector(ty);
        v := V(vs);
      case Map(_, _) =>
        var ps := ReadMap(ty);
        v := M(ps);
    }

    method ReadVector(ty: Ty) returns (vs: seq<Val>)
      requires ty.Vec?
      modifies this`ind, this`ok
      ensures (V(vs), Left()) == Dec(ty, old(Left()))
      decreases ty, 0
    {
      vs := [];
      var n := ReadNum(4);
      ghost var all := DecAll(ty, n, Left());
      for k := 0 to n
        invariant all.0 == vs + DecAll(ty, n - k, Left()).0 && all.1 == DecAll(ty, n - k, Left()).1
      {
        var z := Read(ty.e);
        Split(vs, [z], DecAll(ty, n - k - 1, Left()).0);
        vs := vs + [z];
      }
      assert DecAll(ty, 0, Left()) == ([], Left());
      assert all.0 == vs;
    }

    method ReadMap(ty: Ty) returns (d: seq<(Val, Val)>)
      requires ty.Map?
      modifies this`ind, this`ok
      ensures (M(d), Left()) == Dec(ty, old(Left()))
      decreases ty, 0
    {
      var n := ReadNum(4);
      d := [];
      ghost var all := DecPairs(ty, n, [], Left());
      for k := 0 to n
        invariant all == DecPairs(ty, n - k, d, Left())
      {
        ghost var i := Left();
        var a := Read(ty.k);
        var b := Read(ty.v);
        assert DecPairs(ty, n - k, d, i) == DecPairs(ty, n - k - 1, Insert(d, a, b), Left());
        d := Insert(d, a, b);
      }
    }

    /** Reads one field of the header. */
    method Unpack(signed: bool, ghost n: int) returns (x: int)
      modifies this`ind, this`ok
      ensures old(ind) + 4 <= |buf| ==> ind == old(ind) + 4 && ok == old(ok)
      ensures old(ind) + 4 <= |buf| && InRange(4, signed, n) && buf[old(ind)..old(ind) + 4] == Word(n) ==> x == n
      ensures old(ind) + 4 > |buf| ==> !ok
    {
      ghost var i := Left();
      var u := ReadNum(4);
      x := Signed(4, signed, u);
      if old(ind) + 4 <= |buf| && InRange(4, signed, n) && buf[old(ind)..old(ind) + 4] == Word(n) {
        WordBack(signed, n, buf[ind..], old(ok));
        assert i.rest == Word(n) + buf[ind..];
      }
    }

    /** A header that was packed is read back; a message too short for one is noticed. */
    method UnpackReqHeader(ghost h0: ReqHeader) returns (h: ReqHeader)
      modifies this`ind, this`ok
      ensures ind == RPC_HEADER_SZ && (if |buf| < RPC_HEADER_SZ then !ok else ok == old(ok))
      ensures |buf| >= RPC_HEADER_SZ && ReqFits(h0) && buf[4..RPC_HEADER_SZ] == ReqBytes(h0) ==> h == h0
    {
      if |buf| >= RPC_HEADER_SZ && ReqFits(h0) && buf[4..RPC_HEADER_SZ] == ReqBytes(h0) { ReqFields(buf, h0); }
      ind := 4;
      var xid := Unpack(true, h0.xid);
      var proc := Unpack(true, h0.proc);
      var cltNonce := Unpack(false, h0.cltNonce);
      var srvNonce := Unpack(false, h0.srvNonce);
      var xidRep := Unpack(true, h0.xidRep);
      h := ReqHeader(xid, proc, cltNonce, srvNonce, xidRep);
      ind := RPC_HEADER_SZ;
    }

    method UnpackReplyHeader(ghost h0: ReplyHeader) returns (h: ReplyHeader)
      modifies this`ind, this`ok
      ensures ind == RPC_HEADER_SZ && (if |buf| < 12 then !ok else ok == old(ok))
      ensures |buf| >= 12 && ReplyFits(h0) && buf[4..12] == ReplyBytes(h0) ==> h == h0
    {
      if |buf| >= 12 && ReplyFits(h0) && buf[4..12] == ReplyBytes(h0) { ReplyFields(buf, h0); }
      ind := 4;
      var xid := Unpack(true, h0.xid);
      var ret := Unpack(true, h0.ret);
      h := ReplyHeader(xid, ret);
      ind := RPC_HEADER_SZ;
    }
  }
}
