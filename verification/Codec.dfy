/** The wire format of RPC arguments and results: values of nested types as bytes, and bytes as values. */
module Codec {
  import opened Arithmetic

  type byte = x: int | 0 <= x < 256

  /** Integers have 1, 2, 4 or 8 bytes. */
  datatype Ty = Bool | Num(w: nat, signed: bool) | Str | Vec(e: Ty) | Map(k: Ty, v: Ty)

  /** A map is the list of its pairs in the order of its keys. */
  datatype Val = B(b: bool) | N(n: int) | S(s: seq<byte>) | V(vs: seq<Val>) | M(ps: seq<(Val, Val)>)

  /** What is left to decode, and whether all went well. */
  datatype In = In(rest: seq<byte>, ok: bool)

  function Pow(w: nat): (p: nat)
    ensures p > 0
  {
    if w == 0 then 1 else 256 * Pow(w - 1)
  }

  // ----- writing

  /** The `w` low bytes of `n`, the most significant first. */
  function Bytes(w: nat, n: nat): (bs: seq<byte>)
    ensures |bs| == w
  {
    if w == 0 then [] else Bytes(w - 1, n / 256) + [n % 256]
  }

  predicate InRange(w: nat, signed: bool, n: int) {
    if signed then 0 <= 2 * n + Pow(w) < 2 * Pow(w) else 0 <= n < Pow(w)
  }

  /** A negative number is written as its two's complement. */
  function Unsigned(w: nat, signed: bool, n: int): (u: nat)
    requires InRange(w, signed, n)
    ensures u < Pow(w) && Signed(w, signed, u) == n
  {
    if n < 0 then n + Pow(w) else n
  }

  function Signed(w: nat, signed: bool, u: nat): int {
    if signed && 2 * u >= Pow(w) then u - Pow(w) else u
  }

  predicate DistinctKeys(ps: seq<(Val, Val)>) {
    forall i, j :: 0 <= i < j < |ps| ==> ps[i].0 != ps[j].0
  }

  /** Values of a type, with sizes that fit the length field. */
  ghost predicate Fits(ty: Ty, v: Val) {
    match ty
    case Bool => v.B?
    case Num(w, signed) => v.N? && (w == 1 || w == 2 || w == 4 || w == 8) && InRange(w, signed, v.n)
    case Str => v.S? && |v.s| < Pow(4)
    case Vec(e) => v.V? && |v.vs| < Pow(4) && forall i :: 0 <= i < |v.vs| ==> Fits(e, v.vs[i])
    case Map(k, w) =>
      && v.M? && |v.ps| < Pow(4) && DistinctKeys(v.ps)
      && forall i :: 0 <= i < |v.ps| ==> Fits(k, v.ps[i].0) && Fits(w, v.ps[i].1)
  }

  function Enc(ty: Ty, v: Val): (bs: seq<byte>)
    requires Fits(ty, v)
    ensures bs != []
    decreases ty, 1, 0
  {
    match ty
    case Bool => [if v.b then 1 else 0]
    case Num(w, signed) => Bytes(w, Unsigned(w, signed, v.n))
    case Str => Bytes(4, |v.s|) + v.s
    case Vec(_) => Bytes(4, |v.vs|) + EncAll(ty, v.vs)
    case Map(_, _) => Bytes(4, |v.ps|) + EncPairs(ty, v.ps)
  }

  function EncAll(ty: Ty, vs: seq<Val>): seq<byte>
    requires ty.Vec? && forall i :: 0 <= i < |vs| ==> Fits(ty.e, vs[i])
    decreases ty, 0, |vs|
  {
    if vs == [] then [] else Enc(ty.e, vs[0]) + EncAll(ty, vs[1..])
  }

  function EncPairs(ty: Ty, ps: seq<(Val, Val)>): seq<byte>
    requires ty.Map? && forall i :: 0 <= i < |ps| ==> Fits(ty.k, ps[i].0) && Fits(ty.v, ps[i].1)
    decreases ty, 0, |ps|
  {
    if ps == [] then [] else Enc(ty.k, ps[0].0) + Enc(ty.v, ps[0].1) + EncPairs(ty, ps[1..])
  }

  // ----- reading

  /** Past the end a byte reads as zero, and `ok` is lost for good. */
  function RawByte(i: In): (byte, In) {
    if i.rest == [] then (0, i.(ok := false)) else (i.rest[0], i.(rest := i.rest[1..]))
  }

  function Number(w: nat, i: In): (r: (nat, In))
    ensures !i.ok ==> !r.1.ok
  {
    if w == 0 then (0, i)
    else
      var (hi, i1) := Number(w - 1, i);
      var (lo, i2) := RawByte(i1);
      (hi * 256 + lo, i2)
  }

  /** `n` bytes as a string; if there are fewer, the string stays as it was. */
  function RawBytes(n: nat, i: In): (seq<byte>, In) {
    if n > |i.rest| then ([], i.(ok := false)) else (i.rest[..n], i.(rest := i.rest[n..]))
  }

  /** A key that is present already gets the new value. */
  function Insert(d: seq<(Val, Val)>, k: Val, v: Val): seq<(Val, Val)> {
    if d == [] then [(k, v)] else if d[0].0 == k then [(k, v)] + d[1..] else [d[0]] + Insert(d[1..], k, v)
  }

  function Dec(ty: Ty, i: In): (r: (Val, In))
    ensures !i.ok ==> !r.1.ok
    decreases ty, 1, 0
  {
    match ty
    case Bool => var (b, i1) := RawByte(i); (B(b != 0), i1)
    case Num(w, signed) => var (u, i1) := Number(w, i); (N(Signed(w, signed, u)), i1)
    case Str =>
      var (n, i1) := Number(4, i);
      if !i1.ok then (S([]), i1) else var (s, i2) := RawBytes(n, i1); (S(s), i2)
    case Vec(_) =>
      var (n, i1) := Number(4, i);
      var (vs, i2) := DecAll(ty, n, i1);
      (V(vs), i2)
    case Map(_, _) =>
      var (n, i1) := Number(4, i);
      var (ps, i2) := DecPairs(ty, n, [], i1);
      (M(ps), i2)
  }

  function DecAll(ty: Ty, n: nat, i: In): (r: (seq<Val>, In))
    requires ty.Vec?
    ensures !i.ok ==> !r.1.ok
    decreases ty, 0, n
  {
    if n == 0 then ([], i)
    else
      var (z, i1) := Dec(ty.e, i);
      var (zs, i2) := DecAll(ty, n - 1, i1);
      ([z] + zs, i2)
  }

  function DecPairs(ty: Ty, n: nat, d: seq<(Val, Val)>, i: In): (r: (seq<(Val, Val)>, In))
    requires ty.Map?
    ensures !i.ok ==> !r.1.ok
    decreases ty, 0, n
  {
    if n == 0 then (d, i)
    else
      var (a, i1) := Dec(ty.k, i);
      var (b, i2) := Dec(ty.v, i1);
      DecPairs(ty, n - 1, Insert(d, a, b), i2)
  }

  // ----- reading back what was written

  lemma {:induction false} NumberTrip(w: nat, n: nat, rest: seq<byte>, ok: bool)
    requires n < Pow(w)
    ensures Number(w, In(Bytes(w, n) + rest, ok)) == (n, In(rest, ok))
  {
    if w == 0 {
      assert Bytes(w, n) + rest == rest;
    } else {
      var tail := [n % 256] + rest;
      NumberTrip(w - 1, n / 256, tail, ok);
      assert Bytes(w, n) + rest == Bytes(w - 1, n / 256) + tail;
      assert tail[1..] == rest;
    }
  }

  lemma {:induction false} InsertNew(d: seq<(Val, Val)>, k: Val, v: Val)
    requires forall i :: 0 <= i < |d| ==> d[i].0 != k
    ensures Insert(d, k, v) == d + [(k, v)]
  {
    if d != [] {
      InsertNew(d[1..], k, v);
      assert d == [d[0]] + d[1..];
    }
  }

  lemma Split<T>(a: seq<T>, b: seq<T>, c: seq<T>)
    ensures a + b + c == a + (b + c)
  {
  }

  /** Decoding an encoding followed by anything gives back the value and leaves the rest. */
  lemma {:induction false} RoundTrip(ty: Ty, v: Val, rest: seq<byte>)
    requires Fits(ty, v)
    ensures Dec(ty, In(Enc(ty, v) + rest, true)) == (v, In(rest, true))
    decreases ty, 1, 0
  {
    match ty
    case Bool => assert (Enc(ty, v) + rest)[1..] == rest;
    case Num(w, signed) => NumberTrip(w, Unsigned(w, signed, v.n), rest, true);
    case Str =>
      NumberTrip(4, |v.s|, v.s + rest, true);
      Split(Bytes(4, |v.s|), v.s, rest);
      assert (v.s + rest)[..|v.s|] == v.s && (v.s + rest)[|v.s|..] == rest;
    case Vec(_) =>
      NumberTrip(4, |v.vs|, EncAll(ty, v.vs) + rest, true);
      Split(Bytes(4, |v.vs|), EncAll(ty, v.vs), rest);
      AllTrip(ty, v.vs, rest);
    case Map(_, _) =>
      NumberTrip(4, |v.ps|, EncPairs(ty, v.ps) + rest, true);
      Split(Bytes(4, |v.ps|), EncPairs(ty, v.ps), rest);
      PairsTrip(ty, [], v.ps, rest);
      assert [] + v.ps == v.ps;
  }

  lemma {:induction false} AllTrip(ty: Ty, vs: seq<Val>, rest: seq<byte>)
    requires ty.Vec? && forall i :: 0 <= i < |vs| ==> Fits(ty.e, vs[i])
    ensures DecAll(ty, |vs|, In(EncAll(ty, vs) + rest, true)) == (vs, In(rest, true))
    decreases ty, 0, |vs|
  {
    if vs == [] {
      assert EncAll(ty, vs) + rest == rest;
    } else {
      Split(Enc(ty.e, vs[0]), EncAll(ty, vs[1..]), rest);
      RoundTrip(ty.e, vs[0], EncAll(ty, vs[1..]) + rest);
      AllTrip(ty, vs[1..], rest);
      assert vs == [vs[0]] + vs[1..];
    }
  }

  lemma {:induction false} PairsTrip(ty: Ty, d: seq<(Val, Val)>, ps: seq<(Val, Val)>, rest: seq<byte>)
    requires ty.Map? && forall i :: 0 <= i < |ps| ==> Fits(ty.k, ps[i].0) && Fits(ty.v, ps[i].1)
    requires DistinctKeys(d + ps)
    ensures DecPairs(ty, |ps|, d, In(EncPairs(ty, ps) + rest, true)) == (d + ps, In(rest, true))
    decreases ty, 0, |ps|
  {
    if ps == [] {
      assert EncPairs(ty, ps) + rest == rest && d + ps == d;
    } else {
      var a, b, more := Enc(ty.k, ps[0].0), Enc(ty.v, ps[0].1), EncPairs(ty, ps[1..]);
      assert EncPairs(ty, ps) + rest == a + (b + (more + rest));
      RoundTrip(ty.k, ps[0].0, b + (more + rest));
      RoundTrip(ty.v, ps[0].1, more + rest);
      var d' := d + [ps[0]];
      assert d' + ps[1..] == d + ps;
      forall i | 0 <= i < |d| ensures d[i].0 != ps[0].0 { assert (d + ps)[i] == d[i] && (d + ps)[|d|] == ps[0]; }
      InsertNew(d, ps[0].0, ps[0].1);
      PairsTrip(ty, d', ps[1..], rest);
    }
  }

  // ----- odd input

  /** Past the end numbers read as zero. */
  lemma {:induction false} NumberOfNothing(w: nat, ok: bool)
    requires w > 0
    ensures Number(w, In([], ok)) == (0, In([], false))
  {
    if w > 1 { NumberOfNothing(w - 1, ok); }
  }

  /** A string that is cut short is not read at all. */
  lemma StringCutShort(n: nat, p: seq<byte>)
    requires |p| < n < Pow(4)
    ensures Dec(Str, In(Bytes(4, n) + p, true)) == (S([]), In(p, false))
  {
    NumberTrip(4, n, p, true);
  }

  /** Of several pairs with one key the last one counts, in the place of the first. */
  lemma {:induction false} LastPairWins(d: seq<(Val, Val)>, k: Val, v: Val, i: nat)
    requires i < |d| && d[i].0 == k && forall j :: 0 <= j < i ==> d[j].0 != k
    ensures Insert(d, k, v) == d[i := (k, v)]
  {
    if i > 0 {
      LastPairWins(d[1..], k, v, i - 1);
      assert d == [d[0]] + d[1..];
    }
  }

  // ----- the bytes themselves

  /** Numbers go out with the most significant byte first. */
  lemma {:induction false} BytesAt(w: nat, n: nat, i: nat)
    requires i < w
    ensures Bytes(w, n)[w - 1 - i] == n / Pow(i) % 256
  {
    if i > 0 {
      BytesAt(w - 1, n / 256, i - 1);
      DivideTwice(n, 256, Pow(i - 1));
    }
  }

  /** Integers are their bytes, negative ones in two's complement; a bool is one byte, and any but zero is true. */
  lemma ScalarsOnTheWire(w: nat, signed: bool, n: int, c: byte, rest: seq<byte>)
    requires (w == 1 || w == 2 || w == 4 || w == 8) && InRange(w, signed, n)
    ensures |Enc(Num(w, signed), N(n))| == w
    ensures forall i :: 0 <= i < w ==> Enc(Num(w, signed), N(n))[w - 1 - i] == (n + Pow(w)) / Pow(i) % 256
    ensures Enc(Bool, B(true)) == [1] && Enc(Bool, B(false)) == [0]
    ensures Dec(Bool, In([c] + rest, true)) == (B(c != 0), In(rest, true))
  {
    forall i | 0 <= i < w ensures Enc(Num(w, signed), N(n))[w - 1 - i] == (n + Pow(w)) / Pow(i) % 256 {
      BytesAt(w, Unsigned(w, signed, n), i);
      BytesAt(w, n + Pow(w), i);
      if n >= 0 { BytesWrap(w, n); }
    }
    assert ([c] + rest)[1..] == rest;
  }

  /** Only the low bytes of a number are written. */
  lemma {:induction false} BytesWrap(w: nat, n: nat)
    ensures Bytes(w, n + Pow(w)) == Bytes(w, n)
  {
    if w > 0 {
      assert (n + Pow(w)) / 256 == n / 256 + Pow(w - 1) && (n + Pow(w)) % 256 == n % 256;
      BytesWrap(w - 1, n / 256);
    }
  }

  lemma {:induction false} AllSnoc(ty: Ty, vs: seq<Val>, x: Val)
    requires ty.Vec? && Fits(ty.e, x) && forall i :: 0 <= i < |vs| ==> Fits(ty.e, vs[i])
    ensures EncAll(ty, vs + [x]) == EncAll(ty, vs) + Enc(ty.e, x)
  {
    if vs == [] {
      assert [x][1..] == [] && Enc(ty.e, x) + [] == Enc(ty.e, x);
    } else {
      assert (vs + [x])[1..] == vs[1..] + [x];
      AllSnoc(ty, vs[1..], x);
      Split(Enc(ty.e, vs[0]), EncAll(ty, vs[1..]), Enc(ty.e, x));
    }
  }

  lemma {:induction false} PairsSnoc(ty: Ty, ps: seq<(Val, Val)>, p: (Val, Val))
    requires ty.Map? && Fits(ty.k, p.0) && Fits(ty.v, p.1)
    requires forall i :: 0 <= i < |ps| ==> Fits(ty.k, ps[i].0) && Fits(ty.v, ps[i].1)
    ensures EncPairs(ty, ps + [p]) == EncPairs(ty, ps) + (Enc(ty.k, p.0) + Enc(ty.v, p.1))
  {
    if ps == [] {
      assert [p][1..] == [];
    } else {
      assert (ps + [p])[1..] == ps[1..] + [p];
      PairsSnoc(ty, ps[1..], p);
      Split(Enc(ty.k, ps[0].0) + Enc(ty.v, ps[0].1), EncPairs(ty, ps[1..]), Enc(ty.k, p.0) + Enc(ty.v, p.1));
    }
  }

  /** A string is its length and its characters. */
  lemma StringOnTheWire(s: seq<byte>, i: nat)
    requires Fits(Str, S(s)) && i < 4
    ensures |Enc(Str, S(s))| == 4 + |s| && Enc(Str, S(s))[4..] == s && Enc(Str, S(s))[3 - i] == |s| / Pow(i) % 256
  {
    BytesAt(4, |s|, i);
  }

  /** A vector is its length and its elements, one after the other. */
  lemma VectorOnTheWire(e: Ty, vs: seq<Val>, x: Val)
    requires Fits(Vec(e), V(vs + [x]))
    ensures Fits(Vec(e), V(vs)) && Fits(e, x) && Enc(Vec(e), V([])) == Bytes(4, 0)
    ensures Enc(Vec(e), V(vs + [x])) == Bytes(4, |vs| + 1) + Enc(Vec(e), V(vs))[4..] + Enc(e, x)
  {
    assert (vs + [x])[|vs|] == x && forall i :: 0 <= i < |vs| ==> (vs + [x])[i] == vs[i];
    AllSnoc(Vec(e), vs, x);
    assert Enc(Vec(e), V(vs))[4..] == EncAll(Vec(e), vs);
    Split(Bytes(4, |vs| + 1), EncAll(Vec(e), vs), Enc(e, x));
  }

  /** A map is its size and its pairs, one after the other, the key before the value. */
  lemma MapOnTheWire(k: Ty, w: Ty, ps: seq<(Val, Val)>, p: (Val, Val))
    requires Fits(Map(k, w), M(ps + [p]))
    ensures Fits(Map(k, w), M(ps)) && Fits(k, p.0) && Fits(w, p.1) && Enc(Map(k, w), M([])) == Bytes(4, 0)
    ensures Enc(Map(k, w), M(ps + [p])) == Bytes(4, |ps| + 1) + Enc(Map(k, w), M(ps))[4..] + (Enc(k, p.0) + Enc(w, p.1))
  {
    assert (ps + [p])[|ps|] == p && forall i :: 0 <= i < |ps| ==> (ps + [p])[i] == ps[i];
    PairsSnoc(Map(k, w), ps, p);
    assert Enc(Map(k, w), M(ps))[4..] == EncPairs(Map(k, w), ps);
    Split(Bytes(4, |ps| + 1), EncPairs(Map(k, w), ps), Enc(k, p.0) + Enc(w, p.1));
  }

  lemma Powers()
    ensures Pow(1) == 256 && Pow(2) == 65536 && Pow(4) == 0x1_0000_0000 && Pow(8) == 0x1_0000_0000_0000_0000
  {
    assert Pow(2) == 256 * Pow(1) && Pow(3) == 256 * Pow(2) && Pow(4) == 256 * Pow(3);
    assert Pow(5) == 256 * Pow(4) && Pow(6) == 256 * Pow(5) && Pow(7) == 256 * Pow(6);
  }

  lemma FourBytes(n: nat)
    ensures Bytes(4, n) == [n / 0x1000000 % 256, n / 0x10000 % 256, n / 0x100 % 256, n % 256]
  {
    assert Bytes(1, n / 256 / 256 / 256) == [] + [n / 256 / 256 / 256 % 256];
    assert Bytes(2, n / 256 / 256) == [n / 256 / 256 / 256 % 256, n / 256 / 256 % 256];
    assert Bytes(3, n / 256) == [n / 256 / 256 / 256 % 256, n / 256 / 256 % 256, n / 256 % 256];
  }

  // ----- an encoding cut short

  lemma {:induction false} NumberShort(w: nat, i: In)
    requires |i.rest| < w
    ensures !Number(w, i).1.ok && Number(w, i).1.rest == []
  {
    if |i.rest| < w - 1 { NumberShort(w - 1, i); } else { NumberTakes(w - 1, i); }
  }

  lemma {:induction false} NumberTakes(w: nat, i: In)
    requires w <= |i.rest|
    ensures Number(w, i).1 == In(i.rest[w..], i.ok)
  {
    if w > 0 { NumberTakes(w - 1, i); }
  }

  /** A proper prefix of `a + b` ends in `a`, or is `a` and a proper prefix of `b`. */
  lemma Cut(p: seq<byte>, a: seq<byte>, b: seq<byte>)
    requires p < a + b
    ensures if |p| < |a| then p < a else p == a + p[|a|..] && p[|a|..] < b
  {
  }

  /** After a length field, the items decide. */
  lemma CutLength(p: seq<byte>, n: nat, b: seq<byte>)
    requires p < Bytes(4, n) + b && n < Pow(4)
    ensures |p| < 4 ==> !Number(4, In(p, true)).1.ok
    ensures |p| >= 4 ==> p[4..] < b && Number(4, In(p, true)) == (n, In(p[4..], true))
  {
    Cut(p, Bytes(4, n), b);
    if |p| < 4 { NumberShort(4, In(p, true)); } else { NumberTrip(4, n, p[4..], true); }
  }

  /** Every proper prefix of an encoding leaves `ok` false. */
  lemma {:induction false} CutIsNoticed(ty: Ty, v: Val, p: seq<byte>)
    requires Fits(ty, v) && p < Enc(ty, v)
    ensures !Dec(ty, In(p, true)).1.ok
    decreases ty, 1, 0
  {
    match ty
    case Bool =>
    case Num(w, signed) => NumberShort(w, In(p, true));
    case Str => CutLength(p, |v.s|, v.s);
    case Vec(_) =>
      CutLength(p, |v.vs|, EncAll(ty, v.vs));
      if |p| >= 4 { CutAll(ty, v.vs, p[4..]); }
    case Map(_, _) =>
      CutLength(p, |v.ps|, EncPairs(ty, v.ps));
      if |p| >= 4 { CutPairs(ty, [], v.ps, p[4..]); }
  }

  lemma {:induction false} CutAll(ty: Ty, vs: seq<Val>, p: seq<byte>)
    requires ty.Vec? && (forall i :: 0 <= i < |vs| ==> Fits(ty.e, vs[i])) && p < EncAll(ty, vs)
    ensures !DecAll(ty, |vs|, In(p, true)).1.ok
    decreases ty, 0, |vs|
  {
    var a := Enc(ty.e, vs[0]);
    Cut(p, a, EncAll(ty, vs[1..]));
    if |p| < |a| {
      CutIsNoticed(ty.e, vs[0], p);
    } else {
      RoundTrip(ty.e, vs[0], p[|a|..]);
      CutAll(ty, vs[1..], p[|a|..]);
    }
  }

  lemma {:induction false} CutPairs(ty: Ty, d: seq<(Val, Val)>, ps: seq<(Val, Val)>, p: seq<byte>)
    requires ty.Map? && (forall i :: 0 <= i < |ps| ==> Fits(ty.k, ps[i].0) && Fits(ty.v, ps[i].1))
    requires p < EncPairs(ty, ps)
    ensures !DecPairs(ty, |ps|, d, In(p, true)).1.ok
    decreases ty, 0, |ps|
  {
    var a, b, more := Enc(ty.k, ps[0].0), Enc(ty.v, ps[0].1), EncPairs(ty, ps[1..]);
    Split(a, b, more);
    Cut(p, a, b + more);
    if |p| < |a| {
      CutIsNoticed(ty.k, ps[0].0, p);
    } else {
      var q := p[|a|..];
      RoundTrip(ty.k, ps[0].0, q);
      Cut(q, b, more);
      if |q| < |b| {
        CutIsNoticed(ty.v, ps[0].1, q);
      } else {
        RoundTrip(ty.v, ps[0].1, q[|b|..]);
        CutPairs(ty, Insert(d, ps[0].0, ps[0].1), ps[1..], q[|b|..]);
      }
    }
  }
}
