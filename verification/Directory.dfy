/** Directories: the text of an extent that lists `name:inum|` entries, and the operations on it. */
module Directory {
  import opened Arithmetic
  import opened Options
  import opened Splitting
  import opened Sequences

  datatype Entry = Entry(name: string, inum: nat)

  datatype Status = OK | NOENT | EXIST | NOSYS

  // ----- inode numbers in decimal

  function Digit(d: nat): char
    requires d < 10
  {
    '0' + d as char
  }

  predicate IsDigit(c: char) {
    '0' <= c <= '9'
  }

  function Decimal(n: nat): (s: string)
    ensures s != "" && forall i :: 0 <= i < |s| ==> IsDigit(s[i])
  {
    if n < 10 then [Digit(n)] else Decimal(n / 10) + [Digit(n % 10)]
  }

  /** The number a stream reads: the digits in front; zero if there are none. */
  function Parse(s: string, sofar: nat): nat {
    if s == "" || !IsDigit(s[0]) then sofar else Parse(s[1..], 10 * sofar + (s[0] - '0') as nat)
  }

  lemma {:induction false} ParseSnoc(s: string, d: nat, sofar: nat)
    requires d < 10 && forall i :: 0 <= i < |s| ==> IsDigit(s[i])
    ensures Parse(s + [Digit(d)], sofar) == 10 * Parse(s, sofar) + d
  {
    if s != "" {
      ParseSnoc(s[1..], d, 10 * sofar + (s[0] - '0') as nat);
      assert (s + [Digit(d)])[1..] == s[1..] + [Digit(d)];
    }
  }

  /** Reading stops at the first character that is not a digit. */
  lemma {:induction false} ParseStops(s: string, rest: string, sofar: nat)
    requires (forall i :: 0 <= i < |s| ==> IsDigit(s[i])) && (rest != "" ==> !IsDigit(rest[0]))
    ensures Parse(s + rest, sofar) == Parse(s, sofar)
  {
    if s == "" {
      assert s + rest == rest;
    } else {
      ParseStops(s[1..], rest, 10 * sofar + (s[0] - '0') as nat);
      assert (s + rest)[1..] == s[1..] + rest;
    }
  }

  lemma {:induction false} ParseDecimal(n: nat)
    ensures Parse(Decimal(n), 0) == n
  {
    if n < 10 {
      assert Decimal(n)[1..] == "";
    } else {
      ParseDecimal(n / 10);
      ParseSnoc(Decimal(n / 10), n % 10, 0);
    }
  }

  function Tens(i: nat): (t: nat)
    ensures t > 0
  {
    if i == 0 then 1 else 10 * Tens(i - 1)
  }

  /** Counted from the end, each digit of a number stands for its power of ten; there are no leading zeros. */
  lemma {:induction false} DigitsOf(n: nat, i: nat)
    requires i < |Decimal(n)|
    ensures Decimal(n)[|Decimal(n)| - 1 - i] == '0' + (n / Tens(i) % 10) as char
    ensures Decimal(n)[0] == '0' ==> n == 0
  {
    if n >= 10 {
      if i > 0 {
        DigitsOf(n / 10, i - 1);
        DivideTwice(n, 10, Tens(i - 1));
      } else {
        DigitsOf(n / 10, 0);
      }
    }
  }

  // ----- what the text says

  function Pieces(text: string): seq<string> {
    SplitOf(text, "|", true, true)
  }

  function Fields(piece: string): seq<string> {
    SplitOf(piece, ":", true, true)
  }

  /** The entry of a piece with exactly two fields. */
  function EntryOf(piece: string): Option<Entry> {
    var f := Fields(piece);
    if |f| == 2 then Some(Entry(f[0], Parse(f[1], 0))) else None
  }

  function Listing(pieces: seq<string>): seq<Entry> {
    if pieces == [] then []
    else (if EntryOf(pieces[0]).Some? then [EntryOf(pieces[0]).value] else []) + Listing(pieces[1..])
  }

  function Entries(text: string): seq<Entry> {
    Listing(Pieces(text))
  }

  /** The inode number of the first entry with this name. */
  function InumOf(es: seq<Entry>, name: string): Option<nat> {
    if es == [] then None else if es[0].name == name then Some(es[0].inum) else InumOf(es[1..], name)
  }

  /** The text of the pieces that are entries with another name. */
  function Others(pieces: seq<string>, name: string): string {
    if pieces == [] then ""
    else
      (if EntryOf(pieces[0]).Some? && EntryOf(pieces[0]).value.name != name then pieces[0] + "|" else "")
      + Others(pieces[1..], name)
  }

  lemma Assoc<T>(a: seq<T>, b: seq<T>, c: seq<T>)
    ensures a + (b + c) == (a + b) + c
    ensures a + ([] + c) == a + c
  {
  }

  lemma ListingAt(ps: seq<string>, i: nat)
    requires i < |ps|
    ensures Listing(ps[i..]) == (if EntryOf(ps[i]).Some? then [EntryOf(ps[i]).value] else []) + Listing(ps[i + 1..])
  {
  }

  lemma OthersAt(ps: seq<string>, i: nat, name: string)
    requires i < |ps|
    ensures Others(ps[i..], name) ==
      (if EntryOf(ps[i]).Some? && EntryOf(ps[i]).value.name != name then ps[i] + "|" else "")
      + Others(ps[i + 1..], name)
  {
  }

  function Line(e: Entry): string {
    e.name + ":" + Decimal(e.inum)
  }

  // ----- the text of a list of entries

  predicate Lacks(s: string, c: char) {
    forall i :: 0 <= i < |s| ==> s[i] != c
  }

  predicate GoodName(n: string) {
    n != "" && Lacks(n, ':') && Lacks(n, '|')
  }

  predicate Good(es: seq<Entry>) {
    forall i :: 0 <= i < |es| ==> GoodName(es[i].name)
  }

  function Text(es: seq<Entry>): string {
    if es == [] then "" else Line(es[0]) + "|" + Text(es[1..])
  }

  lemma {:induction false} FirstOf(t: string, c: char, rest: string)
    requires Lacks(t, c)
    ensures First(t + [c] + rest, [c], true) == Some(|t|) && First(t, [c], true) == None
  {
    var s := t + [c] + rest;
    if t == "" {
      assert [c] <= s;
    } else {
      FirstOf(t[1..], c, rest);
      assert s[1..] == t[1..] + [c] + rest && s[0] == t[0];
      assert !([c] <= s) && !([c] <= t);
    }
  }

  /** A token in front of a delimiter it does not contain. */
  lemma TokenThen(t: string, c: char, rest: string)
    requires Lacks(t, c)
    ensures Tokens(t + [c] + rest, [c], true) == [t] + Tokens(rest, [c], true)
    ensures Tokens(t, [c], true) == [t]
  {
    FirstOf(t, c, rest);
    var s := t + [c] + rest;
    assert s[..|t|] == t && s[|t| + 1..] == rest;
  }

  lemma EntryOfLine(e: Entry)
    requires GoodName(e.name)
    ensures EntryOf(Line(e)) == Some(e) && Lacks(Line(e), '|') && Line(e) != ""
  {
    var d := Decimal(e.inum);
    assert Line(e) == e.name + [':'] + d;
    TokenThen(e.name, ':', d);
    TokenThen(d, ':', "");
    assert Tokens(Line(e), ":", true) == [e.name] + [d];
    assert NonEmpty([e.name, d][1..]) == [d] + NonEmpty([d][1..]);
    ParseDecimal(e.inum);
  }

  lemma PiecesCons(e: Entry, text: string)
    requires GoodName(e.name)
    ensures Pieces(Line(e) + "|" + text) == [Line(e)] + Pieces(text)
  {
    EntryOfLine(e);
    TokenThen(Line(e), '|', text);
    KeptCons([], Line(e), Tokens(text, "|", true), true);
  }

  /** The directory lists what was written into it, in the same order. */
  lemma {:induction false} ReadBack(es: seq<Entry>)
    requires Good(es)
    ensures Entries(Text(es)) == es
  {
    if es == [] {
      NoPieces();
    } else {
      ReadBack(es[1..]);
      PiecesCons(es[0], Text(es[1..]));
      EntryOfLine(es[0]);
      var ps := [Line(es[0])] + Pieces(Text(es[1..]));
      assert ps[1..] == Pieces(Text(es[1..]));
      assert es == [es[0]] + es[1..];
    }
  }

  function Without(es: seq<Entry>, name: string): seq<Entry> {
    if es == [] then [] else (if es[0].name == name then [] else [es[0]]) + Without(es[1..], name)
  }

  lemma TextCons(e: Entry, es: seq<Entry>)
    ensures Text([e] + es) == Line(e) + "|" + Text(es)
  {
  }

  lemma OthersCons(e: Entry, text: string, name: string)
    requires GoodName(e.name)
    ensures Others(Pieces(Line(e) + "|" + text), name) ==
      (if e.name == name then "" else Line(e) + "|") + Others(Pieces(text), name)
  {
    PiecesCons(e, text);
    EntryOfLine(e);
    var ps := [Line(e)] + Pieces(text);
    OthersAt(ps, 0, name);
    assert ps[0..] == ps && ps[1..] == Pieces(text);
  }

  lemma NoPieces()
    ensures Pieces("") == []
  {
  }

  lemma {:induction false} OthersText(es: seq<Entry>, name: string)
    requires Good(es)
    ensures Others(Pieces(Text(es)), name) == Text(Without(es, name)) && Good(Without(es, name))
  {
    if es == [] {
      NoPieces();
    } else {
      var rest := Without(es[1..], name);
      OthersText(es[1..], name);
      OthersCons(es[0], Text(es[1..]), name);
      TextCons(es[0], rest);
      assert "" + Text(rest) == Text(rest) && [] + rest == rest;
    }
  }

  lemma {:induction false} TextSnoc(es: seq<Entry>, e: Entry)
    ensures Text(es + [e]) == Text(es) + Line(e) + "|" == Text(es) + (e.name + ":" + Decimal(e.inum)) + "|"
  {
    if es == [] {
      assert [e][1..] == [];
    } else {
      TextSnoc(es[1..], e);
      assert (es + [e])[1..] == es[1..] + [e];
      Assoc(Line(es[0]) + "|", Text(es[1..]) + Line(e), "|");
      Assoc(Line(es[0]) + "|", Text(es[1..]), Line(e));
    }
  }

  // ----- which pieces are entries

  lemma {:induction false} FieldsBack(fs: seq<string>)
    requires fs != [] && forall i :: 0 <= i < |fs| ==> fs[i] != "" && Lacks(fs[i], ':')
    ensures Tokens(JoinWith(":", fs), ":", true) == fs && NonEmpty(fs) == fs
  {
    if |fs| == 1 {
      TokenThen(fs[0], ':', "");
      assert fs == [fs[0]] && NonEmpty(fs[1..]) == [];
    } else {
      FieldsBack(fs[1..]);
      TokenThen(fs[0], ':', JoinWith(":", fs[1..]));
      assert fs == [fs[0]] + fs[1..];
    }
  }

  lemma {:induction false} JoinLacks(fs: seq<string>, c: char)
    requires c != ':' && forall i :: 0 <= i < |fs| ==> Lacks(fs[i], c)
    ensures Lacks(JoinWith(":", fs), c)
  {
    if |fs| > 1 { JoinLacks(fs[1..], c); }
  }

  lemma OnePiece(piece: string)
    requires piece != "" && Lacks(piece, '|')
    ensures Pieces(piece + "|") == [piece]
  {
    assert piece + "|" == piece + ['|'] + "";
    TokenThen(piece, '|', "");
    KeptCons([], piece, Tokens("", "|", true), true);
    NoPieces();
  }

  lemma OneListed(piece: string)
    ensures Listing([piece]) == if EntryOf(piece).Some? then [EntryOf(piece).value] else []
  {
    assert [piece][1..] == [];
  }

  /** A piece is an entry exactly if it has two fields: the name and the number. */
  lemma TwoFieldsAreAnEntry(fs: seq<string>)
    requires fs != [] && forall i :: 0 <= i < |fs| ==> fs[i] != "" && Lacks(fs[i], ':') && Lacks(fs[i], '|')
    ensures Entries(JoinWith(":", fs) + "|") == if |fs| == 2 then [Entry(fs[0], Parse(fs[1], 0))] else []
  {
    var piece := JoinWith(":", fs);
    FieldsBack(fs);
    JoinLacks(fs, '|');
    assert piece != "" by { assert fs[0] != ""; }
    OnePiece(piece);
    OneListed(piece);
  }

  // ----- any text

  /** Of several entries with one name the first one is found. */
  lemma {:induction false} FirstIsFound(es: seq<Entry>, fs: seq<Entry>, name: string)
    ensures InumOf(es + fs, name) == if InumOf(es, name).Some? then InumOf(es, name) else InumOf(fs, name)
  {
    if es == [] {
      assert es + fs == fs;
    } else {
      FirstIsFound(es[1..], fs, name);
      assert (es + fs)[1..] == es[1..] + fs;
    }
  }

  predicate Piece(p: string) {
    p != "" && Lacks(p, '|')
  }

  /** The pieces that are entries with another name. */
  function Staying(ps: seq<string>, name: string): seq<string> {
    if ps == [] then []
    else
      var stays := EntryOf(ps[0]).Some? && EntryOf(ps[0]).value.name != name;
      (if stays then [ps[0]] else []) + Staying(ps[1..], name)
  }

  lemma PieceThen(p: string, text: string)
    requires Piece(p)
    ensures Pieces(p + "|" + text) == [p] + Pieces(text)
  {
    TokenThen(p, '|', text);
    KeptCons([], p, Tokens(text, "|", true), true);
  }

  lemma {:induction false} OthersPieces(ps: seq<string>, name: string)
    requires forall i :: 0 <= i < |ps| ==> Piece(ps[i])
    ensures Pieces(Others(ps, name)) == Staying(ps, name)
  {
    if ps == [] {
      NoPieces();
    } else {
      var rest := Others(ps[1..], name);
      OthersPieces(ps[1..], name);
      PieceThen(ps[0], rest);
      assert "" + rest == rest && [] + Staying(ps[1..], name) == Staying(ps[1..], name);
    }
  }

  lemma {:induction false} StayingListed(ps: seq<string>, name: string)
    ensures Listing(Staying(ps, name)) == Without(Listing(ps), name)
    ensures forall p :: p in Staying(ps, name) ==> EntryOf(p).Some?
  {
    if ps != [] {
      var rest := Staying(ps[1..], name);
      StayingListed(ps[1..], name);
      assert ([ps[0]] + rest)[1..] == rest && [] + rest == rest;
      if EntryOf(ps[0]).Some? {
        var e, es := EntryOf(ps[0]).value, Listing(ps[1..]);
        assert ([e] + es)[1..] == es;
      } else {
        assert [] + Listing(ps[1..]) == Listing(ps[1..]);
      }
    }
  }

  /** Whatever the text, unlinking leaves exactly the entries with other names, and nothing that is no entry. */
  lemma UnlinkAnyText(text: string, name: string)
    ensures Entries(Others(Pieces(text), name)) == Without(Entries(text), name)
    ensures forall p :: p in Pieces(Others(Pieces(text), name)) ==> EntryOf(p).Some?
  {
    TokensLack(text, '|', '|');
    NonEmptyOf(Tokens(text, "|", true));
    OthersPieces(Pieces(text), name);
    StayingListed(Pieces(text), name);
  }

  // ----- which names can be used

  lemma {:induction false} TokensLack(s: string, c: char, b: char)
    ensures forall i :: 0 <= i < |Tokens(s, [c], true)| ==> Lacks(Tokens(s, [c], true)[i], c)
    ensures Lacks(s, b) ==> forall i :: 0 <= i < |Tokens(s, [c], true)| ==> Lacks(Tokens(s, [c], true)[i], b)
    decreases |s|
  {
    var r := First(s, [c], true);
    FirstLacks(s, c);
    if r.Some? { TokensLack(s[r.value + 1..], c, b); }
  }

  lemma {:induction false} FirstLacks(s: string, c: char)
    ensures var r := First(s, [c], true); Lacks(if r.Some? then s[..r.value] else s, c)
  {
    if s != "" && s[0] != c {
      FirstLacks(s[1..], c);
      var r := First(s[1..], [c], true);
      assert !([c] <= s);
      if r.Some? { assert s[..r.value + 1] == [s[0]] + s[1..][..r.value]; }
    } else if s != "" {
      assert [c] <= s;
    }
  }

  lemma {:induction false} NonEmptyOf(ts: seq<string>)
    ensures forall i :: 0 <= i < |NonEmpty(ts)| ==> NonEmpty(ts)[i] != "" && NonEmpty(ts)[i] in ts
  {
    if ts != [] { NonEmptyOf(ts[1..]); }
  }

  lemma {:induction false} ListingGood(pieces: seq<string>)
    requires forall i :: 0 <= i < |pieces| ==> Lacks(pieces[i], '|')
    ensures Good(Listing(pieces))
  {
    if pieces != [] {
      ListingGood(pieces[1..]);
      TokensLack(pieces[0], ':', '|');
      NonEmptyOf(Tokens(pieces[0], ":", true));
    }
  }

  /** Whatever the text, the names it lists are non-empty and contain no delimiter. */
  lemma EntriesGood(text: string)
    ensures Good(Entries(text))
  {
    TokensLack(text, '|', '|');
    NonEmptyOf(Tokens(text, "|", true));
    ListingGood(Pieces(text));
  }

  /** A new entry is listed after the others exactly when its name is non-empty and contains no delimiter. */
  lemma AddedIsListed(es: seq<Entry>, e: Entry)
    requires Good(es)
    ensures Entries(Text(es) + Line(e) + "|") == es + [e] <==> GoodName(e.name)
  {
    if GoodName(e.name) {
      TextSnoc(es, e);
      ReadBack(es + [e]);
    } else {
      EntriesGood(Text(es) + Line(e) + "|");
      assert (es + [e])[|es|] == e;
    }
  }

  // ----- runs of checked operations

  /** Creating looks the name up first; so does unlinking, which removes files only. */
  datatype Op = Create(name: string, inum: nat) | Remove(name: string)

  predicate IsFile(inum: nat) {
    inum / 0x8000_0000 % 2 == 1
  }

  /** Bit 31 of the number tells files from directories; it survives the number's reduction to 32 bits. */
  lemma FileBit(n: nat, k: nat)
    requires k < 0x8000_0000
    ensures IsFile(n) <==> n % 0x1_0000_0000 >= 0x8000_0000
    ensures !IsFile(k) && IsFile(k + 0x8000_0000)
  {
  }

  function Do(text: string, op: Op): (string, Status) {
    match op
    case Create(name, inum) =>
      if InumOf(Entries(text), name).Some? then (text, EXIST) else (text + Line(Entry(name, inum)) + "|", OK)
    case Remove(name) =>
      var found := InumOf(Entries(text), name);
      if found == None then (text, NOENT)
      else if !IsFile(found.value) then (text, NOSYS)
      else (Others(Pieces(text), name), OK)
  }

  /** The same with the extents of the directory and of the files it lists. */
  function DoFiles(ext: map<nat, string>, dir: nat, op: Op): (map<nat, string>, Status)
    requires dir in ext
  {
    var (text, st) := Do(ext[dir], op);
    if st != OK then (ext, st)
    else match op
      case Create(_, inum) => (ext[dir := text][inum := ""], OK)
      case Remove(name) => (ext[dir := text] - {InumOf(Entries(ext[dir]), name).value}, OK)
  }

  // ----- the client

  /** One pair of a directory; only pairs of exactly two fields are entries. */
  method ReadPair(pair: string) returns (e: Option<Entry>)
    ensures e == EntryOf(pair)
  {
    var aPair := Split(pair, ":", true, true);
    return if |aPair| == 2 then Some(Entry(aPair[0], Parse(aPair[1], 0))) else None;
  }

  /** `extents` is what the client gets and puts while it holds the locks of the extents it touches. */
  class YfsClient {
    var extents: map<nat, string>

    constructor (extents: map<nat, string>)
      ensures this.extents == extents
    {
      this.extents := extents;
    }

    method Lookup(parent: nat, name: string) returns (r: Status, found: bool, child: nat)
      ensures parent !in extents ==> r == NOENT && !found
      ensures parent in extents ==>
        r == OK && (if found then Some(child) else None) == InumOf(Entries(extents[parent]), name)
    {
      if parent !in extents { return NOENT, false, 0; }
      var pairs := Split(extents[parent], "|", true, true);
      assert pairs[0..] == pairs;
      for i := 0 to |pairs|
        invariant InumOf(Listing(pairs), name) == InumOf(Listing(pairs[i..]), name)
      {
        var e := ReadPair(pairs[i]);
        ListingAt(pairs, i);
        assert [] + Listing(pairs[i + 1..]) == Listing(pairs[i + 1..]);
        if e.Some? {
          assert ([e.value] + Listing(pairs[i + 1..]))[1..] == Listing(pairs[i + 1..]);
          if name == e.value.name { return OK, true, e.value.inum; }
        }
      }
      return OK, false, 0;
    }

    /** The new file starts as an empty extent. */
    method AddDirent(dir: nat, file: nat, name: string) returns (r: Status)
      modifies this
      ensures dir !in old(extents) ==> r == NOENT && extents == old(extents)
      ensures dir in old(extents) ==>
        r == OK && extents == old(extents)[dir := old(extents)[dir] + Line(Entry(name, file)) + "|"][file := ""]
    {
      if dir !in extents { return NOENT; }
      extents := extents[dir := extents[dir] + (name + ":" + Decimal(file)) + "|"];
      extents := extents[file := ""];
      return OK;
    }

    /** The pairs of a directory that are entries with another name, written back. */
    method Rest(text: string, name: string) returns (rest: string)
      ensures rest == Others(Pieces(text), name)
    {
      rest := "";
      var pairs := Split(text, "|", true, true);
      assert pairs[0..] == pairs;
      for i := 0 to |pairs|
        invariant Others(pairs, name) == rest + Others(pairs[i..], name)
      {
        var e := ReadPair(pairs[i]);
        OthersAt(pairs, i, name);
        Assoc(rest, pairs[i] + "|", Others(pairs[i + 1..], name));
        if e.Some? && name != e.value.name { rest := rest + (pairs[i] + "|"); }
      }
      assert rest + Others(pairs[|pairs|..], name) == rest;
    }

    method Unlink(dir: nat, file: nat, name: string) returns (r: Status)
      modifies this
      ensures dir !in old(extents) ==> r == NOENT && extents == old(extents)
      ensures dir in old(extents) ==>
        r == OK && extents == old(extents)[dir := Others(Pieces(old(extents)[dir]), name)] - {file}
    {
      if dir !in extents { return NOENT; }
      var text := Rest(extents[dir], name);
      extents := extents[dir := text];
      extents := extents - {file};
      return OK;
    }

    method ReadDir(dir: nat) returns (r: Status, dirents: seq<Entry>)
      ensures r == (if dir in extents then OK else NOENT)
      ensures dirents == if dir in extents then Entries(extents[dir]) else []
    {
      dirents := [];
      if dir !in extents { return NOENT, dirents; }
      var pairs := Split(extents[dir], "|", true, true);
      assert pairs[0..] == pairs;
      for i := 0 to |pairs|
        invariant Listing(pairs) == dirents + Listing(pairs[i..])
      {
        var e := ReadPair(pairs[i]);
        ListingAt(pairs, i);
        Assoc(dirents, if e.Some? then [e.value] else [], Listing(pairs[i + 1..]));
        if e.Some? { dirents := dirents + [e.value]; }
      }
      return OK, dirents;
    }

    /** Creating a file: the name is looked up first, under the lock of the directory. */
    method CreateFile(dir: nat, name: string, inum: nat) returns (r: Status)
      modifies this
      ensures dir !in old(extents) ==> r == NOENT && extents == old(extents)
      ensures dir in old(extents) ==> (extents, r) == DoFiles(old(extents), dir, Create(name, inum))
    {
      var st, found, _ := Lookup(dir, name);
      if st != OK { return st; }
      if found { return EXIST; }
      r := AddDirent(dir, inum, name);
    }

    /** Removing a file: only names that are found and are not directories. */
    method RemoveFile(dir: nat, name: string) returns (r: Status)
      modifies this
      ensures dir !in old(extents) ==> r == NOSYS && extents == old(extents)
      ensures dir in old(extents) ==> (extents, r) == DoFiles(old(extents), dir, Remove(name))
    {
      var st, found, inum := Lookup(dir, name);
      if st != OK { return NOSYS; }
      if !found { return NOENT; }
      if !IsFile(inum) { return NOSYS; }
      r := Unlink(dir, inum, name);
    }
  }

  // ----- the directory as a map

  /** The same on a map from names to inode numbers, with the names in the order they were added. */
  datatype Dir = Dir(order: seq<string>, inums: map<string, nat>)

  function Dropped(order: seq<string>, name: string): seq<string> {
    if order == [] then [] else (if order[0] == name then [] else [order[0]]) + Dropped(order[1..], name)
  }

  function DoMap(d: Dir, op: Op): (Dir, Status) {
    match op
    case Create(name, inum) =>
      if name in d.inums then (d, EXIST) else (Dir(d.order + [name], d.inums[name := inum]), OK)
    case Remove(name) =>
      if name !in d.inums then (d, NOENT)
      else if !IsFile(d.inums[name]) then (d, NOSYS)
      else (Dir(Dropped(d.order, name), d.inums - {name}), OK)
  }

  function RunText(ops: seq<Op>): (string, seq<Status>) {
    if ops == [] then ("", [])
    else
      var (text, sts) := RunText(ops[..|ops| - 1]);
      var (text', st) := Do(text, ops[|ops| - 1]);
      (text', sts + [st])
  }

  function RunMap(ops: seq<Op>): (Dir, seq<Status>) {
    if ops == [] then (Dir([], map[]), [])
    else
      var (d, sts) := RunMap(ops[..|ops| - 1]);
      var (d', st) := DoMap(d, ops[|ops| - 1]);
      (d', sts + [st])
  }

  predicate GoodOps(ops: seq<Op>) {
    forall i :: 0 <= i < |ops| && ops[i].Create? ==> GoodName(ops[i].name)
  }

  /** The entries of a map in order. */
  function Listed(d: Dir): seq<Entry>
    requires forall n :: n in d.order ==> n in d.inums
  {
    seq(|d.order|, i requires 0 <= i < |d.order| => Entry(d.order[i], d.inums[d.order[i]]))
  }

  ghost predicate Sound(d: Dir) {
    NoRepeats(d.order) && (forall n :: n in d.order <==> n in d.inums) && forall n :: n in d.order ==> GoodName(n)
  }

  lemma {:induction false} InumListed(es: seq<Entry>, name: string)
    ensures InumOf(es, name).Some? ==> exists i :: 0 <= i < |es| && es[i] == Entry(name, InumOf(es, name).value)
    ensures InumOf(es, name) == None ==> forall i :: 0 <= i < |es| ==> es[i].name != name
  {
    if es != [] {
      InumListed(es[1..], name);
      if es[0].name == name { assert es[0] == Entry(name, es[0].inum); }
      else if InumOf(es[1..], name).Some? {
        var i :| 0 <= i < |es[1..]| && es[1..][i] == Entry(name, InumOf(es[1..], name).value);
        assert es[i + 1] == es[1..][i];
      }
    }
  }

  /** Looking a name up in the list is looking it up in the map. */
  lemma LookupAgrees(d: Dir, name: string)
    requires Sound(d)
    ensures InumOf(Listed(d), name) == if name in d.inums then Some(d.inums[name]) else None
  {
    var es := Listed(d);
    InumListed(es, name);
    if name in d.inums {
      var i :| 0 <= i < |d.order| && d.order[i] == name;
      assert es[i].name == name;
    }
  }

  lemma {:induction false} DroppedIs(order: seq<string>, name: string)
    ensures forall n :: n in Dropped(order, name) <==> n in order && n != name
    ensures NoRepeats(order) ==> NoRepeats(Dropped(order, name))
  {
    if order != [] {
      var t := order[1..];
      DroppedIs(t, name);
      assert order == [order[0]] + t;
      assert forall i :: 0 <= i < |t| ==> t[i] == order[i + 1];
      assert NoRepeats(order) ==> NoRepeats(t) && order[0] !in t;
    }
  }

  lemma ListedCons(n: string, order: seq<string>, inums: map<string, nat>)
    requires n in inums && forall m :: m in order ==> m in inums
    ensures Listed(Dir([n] + order, inums)) == [Entry(n, inums[n])] + Listed(Dir(order, inums))
  {
  }

  lemma {:induction false} WithoutListed(order: seq<string>, inums: map<string, nat>, name: string)
    requires forall n :: n in order ==> n in inums
    ensures forall n :: n in Dropped(order, name) ==> n in inums && n != name
    ensures Without(Listed(Dir(order, inums)), name) == Listed(Dir(Dropped(order, name), inums - {name}))
  {
    DroppedIs(order, name);
    if order != [] {
      var n, t := order[0], order[1..];
      WithoutListed(t, inums, name);
      assert order == [n] + t;
      ListedCons(n, t, inums);
      assert ([Entry(n, inums[n])] + Listed(Dir(t, inums)))[1..] == Listed(Dir(t, inums));
      if n != name { ListedCons(n, Dropped(t, name), inums - {name}); }
    }
  }

  lemma CreateRefines(d: Dir, name: string, inum: nat)
    requires Sound(d) && GoodName(name)
    ensures var (d', st) := DoMap(d, Create(name, inum));
      Sound(d') && Do(Text(Listed(d)), Create(name, inum)) == (Text(Listed(d')), st)
  {
    var es, d' := Listed(d), DoMap(d, Create(name, inum)).0;
    ReadBack(es);
    LookupAgrees(d, name);
    if name !in d.inums {
      TextSnoc(es, Entry(name, inum));
      assert Listed(d') == es + [Entry(name, inum)];
    }
  }

  lemma RemoveRefines(d: Dir, name: string)
    requires Sound(d)
    ensures var (d', st) := DoMap(d, Remove(name));
      Sound(d') && Do(Text(Listed(d)), Remove(name)) == (Text(Listed(d')), st)
  {
    ReadBack(Listed(d));
    LookupAgrees(d, name);
    OthersText(Listed(d), name);
    WithoutListed(d.order, d.inums, name);
    DroppedIs(d.order, name);
  }

  /**
   * After any run of creates and unlinks with usable names, the text lists exactly the entries of the map, in
   * the order they were added and without repeats; every operation answered as the map does.
   */
  lemma {:induction false} RunRefinesMap(ops: seq<Op>, name: string)
    requires GoodOps(ops)
    ensures Sound(RunMap(ops).0)
    ensures RunText(ops).1 == RunMap(ops).1 && RunText(ops).0 == Text(Listed(RunMap(ops).0))
    ensures Entries(RunText(ops).0) == Listed(RunMap(ops).0)
    ensures InumOf(Entries(RunText(ops).0), name) ==
      if name in RunMap(ops).0.inums then Some(RunMap(ops).0.inums[name]) else None
  {
    if ops != [] {
      var pre := ops[..|ops| - 1];
      RunRefinesMap(pre, name);
      match ops[|ops| - 1]
      case Create(n, inum) => CreateRefines(RunMap(pre).0, n, inum);
      case Remove(n) => RemoveRefines(RunMap(pre).0, n);
    }
    ReadBack(Listed(RunMap(ops).0));
    LookupAgrees(RunMap(ops).0, name);
  }

  lemma RemoveNew(es: seq<Entry>, e: Entry)
    requires Good(es) && GoodName(e.name) && InumOf(es, e.name) == None
    ensures Do(Text(es), Create(e.name, e.inum)) == (Text(es + [e]), OK)
    ensures Do(Text(es + [e]), Remove(e.name)) == if IsFile(e.inum) then (Text(es), OK) else (Text(es + [e]), NOSYS)
  {
    ReadBack(es);
    ReadBack(es + [e]);
    TextSnoc(es, e);
    InumSnoc(es, e);
    OthersText(es + [e], e.name);
    WithoutNew(es, e);
  }

  /** After any run, a new name can be created, and removed again exactly if bit 31 of its number is set. */
  lemma RemovableIffFile(ops: seq<Op>, name: string, inum: nat)
    requires GoodOps(ops) && GoodName(name) && InumOf(Entries(RunText(ops).0), name) == None
    ensures var (text, st) := Do(RunText(ops).0, Create(name, inum));
      && st == OK
      && Do(text, Remove(name)) ==
           if inum % 0x1_0000_0000 >= 0x8000_0000 then (RunText(ops).0, OK) else (text, NOSYS)
  {
    RunRefinesMap(ops, name);
    RemoveNew(Listed(RunMap(ops).0), Entry(name, inum));
    FileBit(inum, 0);
  }

  lemma {:induction false} InumSnoc(es: seq<Entry>, e: Entry)
    requires InumOf(es, e.name) == None
    ensures InumOf(es + [e], e.name) == Some(e.inum)
  {
    if es != [] {
      InumSnoc(es[1..], e);
      assert (es + [e])[1..] == es[1..] + [e];
    }
  }

  lemma {:induction false} WithoutNew(es: seq<Entry>, e: Entry)
    requires InumOf(es, e.name) == None
    ensures Without(es + [e], e.name) == es
  {
    if es == [] {
      assert ([] + [e])[1..] == [];
    } else {
      WithoutNew(es[1..], e);
      assert (es + [e])[1..] == es[1..] + [e] && es == [es[0]] + es[1..];
    }
  }

  // ----- the files behind the entries

  predicate Apart(e: Entry, es: seq<Entry>) {
    forall f :: f in es ==> f.name != e.name && f.inum != e.inum
  }

  /** No two entries share a name or a number. */
  predicate Separate(es: seq<Entry>) {
    es == [] || (Apart(es[0], es[1..]) && Separate(es[1..]))
  }

  /** A directory whose entries have their own extents. */
  ghost predicate Filed(ext: map<nat, string>, dir: nat, es: seq<Entry>) {
    && dir in ext && ext[dir] == Text(es) && Good(es) && Separate(es)
    && forall e :: e in es ==> e.inum != dir && e.inum in ext
  }

  /** All extents but two are as they were. */
  predicate Untouched(ext: map<nat, string>, ext': map<nat, string>, dir: nat, file: nat) {
    ext' - {dir, file} == ext - {dir, file}
  }

  lemma {:induction false} SeparateSnoc(es: seq<Entry>, e: Entry)
    ensures Separate(es + [e]) <==> Separate(es) && Apart(e, es)
  {
    if es != [] {
      SeparateSnoc(es[1..], e);
      assert (es + [e])[1..] == es[1..] + [e] && es == [es[0]] + es[1..];
    }
  }

  lemma {:induction false} NotFound(es: seq<Entry>, name: string, f: Entry)
    requires InumOf(es, name) == None && f in es
    ensures f.name != name
  {
    if f in es[1..] { NotFound(es[1..], name, f); }
  }

  lemma {:induction false} Found(es: seq<Entry>, name: string)
    requires InumOf(es, name).Some?
    ensures Entry(name, InumOf(es, name).value) in es
  {
    if es[0].name != name { Found(es[1..], name); }
  }

  lemma CreateDoes(ext: map<nat, string>, dir: nat, es: seq<Entry>, e: Entry)
    requires dir in ext && ext[dir] == Text(es) && Good(es) && InumOf(es, e.name) == None
    ensures DoFiles(ext, dir, Create(e.name, e.inum)) == (ext[dir := Text(es + [e])][e.inum := ""], OK)
  {
    ReadBack(es);
    TextSnoc(es, e);
  }

  lemma FiledSnoc(ext: map<nat, string>, dir: nat, es: seq<Entry>, e: Entry)
    requires Filed(ext, dir, es) && GoodName(e.name) && forall f :: f in es ==> f.name != e.name
    ensures Filed(ext[dir := Text(es + [e])][e.inum := ""], dir, es + [e])
      <==> e.inum != dir && forall f :: f in es ==> f.inum != e.inum
  {
    SeparateSnoc(es, e);
    assert e in es + [e] && forall f :: f in es ==> f in es + [e];
    assert Text(es + [e]) != "" by { TextSnoc(es, e); }
  }

  /** A new file leaves the others alone exactly when its number is neither the directory's nor in use there. */
  lemma CreateKeepsFiles(ext: map<nat, string>, dir: nat, es: seq<Entry>, e: Entry)
    requires Filed(ext, dir, es) && GoodName(e.name) && InumOf(es, e.name) == None
    ensures var (ext', st) := DoFiles(ext, dir, Create(e.name, e.inum));
      && st == OK && Untouched(ext, ext', dir, e.inum)
      && (Filed(ext', dir, es + [e]) <==> e.inum != dir && forall f :: f in es ==> f.inum != e.inum)
  {
    CreateDoes(ext, dir, es, e);
    forall f | f in es ensures f.name != e.name { NotFound(es, e.name, f); }
    FiledSnoc(ext, dir, es, e);
  }

  lemma {:induction false} WithoutIs(es: seq<Entry>, name: string)
    ensures forall e :: e in Without(es, name) <==> e in es && e.name != name
  {
    if es != [] {
      WithoutIs(es[1..], name);
      assert es == [es[0]] + es[1..];
    }
  }

  lemma {:induction false} WithoutSeparate(es: seq<Entry>, name: string)
    requires Separate(es)
    ensures Separate(Without(es, name))
  {
    if es != [] {
      var t := Without(es[1..], name);
      WithoutSeparate(es[1..], name);
      WithoutIs(es[1..], name);
      if es[0].name == name {
        assert Without(es, name) == t;
      } else {
        assert Without(es, name) == [es[0]] + t && ([es[0]] + t)[1..] == t;
      }
    }
  }

  lemma {:induction false} OneOwner(es: seq<Entry>, e: Entry, f: Entry)
    requires Separate(es) && e in es && f in es && e.inum == f.inum
    ensures e == f
  {
    if e in es[1..] && f in es[1..] { OneOwner(es[1..], e, f); }
  }

  lemma RemoveDoes(ext: map<nat, string>, dir: nat, es: seq<Entry>, name: string)
    requires dir in ext && ext[dir] == Text(es) && Good(es) && InumOf(es, name).Some? && IsFile(InumOf(es, name).value)
    ensures DoFiles(ext, dir, Remove(name)) == (ext[dir := Text(Without(es, name))] - {InumOf(es, name).value}, OK)
    ensures Good(Without(es, name))
  {
    ReadBack(es);
    OthersText(es, name);
  }

  /** Removing a file takes its entry and its extent away, and leaves all others as they are. */
  lemma RemoveKeepsFiles(ext: map<nat, string>, dir: nat, es: seq<Entry>, name: string)
    requires Filed(ext, dir, es) && InumOf(es, name).Some? && IsFile(InumOf(es, name).value)
    ensures var (ext', st) := DoFiles(ext, dir, Remove(name));
      && st == OK && Filed(ext', dir, Without(es, name))
      && InumOf(es, name).value !in ext' && Untouched(ext, ext', dir, InumOf(es, name).value)
  {
    RemoveDoes(ext, dir, es, name);
    WithoutIs(es, name);
    WithoutSeparate(es, name);
    Found(es, name);
    var k := InumOf(es, name).value;
    forall f | f in Without(es, name) ensures f in es && f.inum != k {
      if f.inum == k { OneOwner(es, f, Entry(name, k)); }
    }
  }

  /** The name can be used, and the number is neither the directory's nor one of those listed. */
  predicate Fresh(ext: map<nat, string>, dir: nat, op: Op)
    requires dir in ext
  {
    op.Create? ==> GoodName(op.name) && op.inum != dir && forall f :: f in Entries(ext[dir]) ==> f.inum != op.inum
  }

  lemma StepKeepsFiles(ext: map<nat, string>, dir: nat, op: Op)
    requires dir in ext && Filed(ext, dir, Entries(ext[dir])) && Fresh(ext, dir, op)
    ensures var ext' := DoFiles(ext, dir, op).0; dir in ext' && Filed(ext', dir, Entries(ext'[dir]))
  {
    var es := Entries(ext[dir]);
    ReadBack(es);
    if DoFiles(ext, dir, op).1 == OK {
      if op.Create? {
        CreateKeepsFiles(ext, dir, es, Entry(op.name, op.inum));
        ReadBack(es + [Entry(op.name, op.inum)]);
      } else {
        RemoveKeepsFiles(ext, dir, es, op.name);
        ReadBack(Without(es, op.name));
      }
    }
  }

  /** Operations one after the other, each with a fresh number. */
  ghost predicate FreshRun(ext: map<nat, string>, dir: nat, ops: seq<Op>)
    requires dir in ext
    decreases |ops|
  {
    ops == [] ||
    (var ext' := DoFiles(ext, dir, ops[0]).0;
     Fresh(ext, dir, ops[0]) && dir in ext' && FreshRun(ext', dir, ops[1..]))
  }

  function RunFiles(ext: map<nat, string>, dir: nat, ops: seq<Op>): map<nat, string>
    requires dir in ext
    decreases |ops|
  {
    if ops == [] then ext
    else
      var ext' := DoFiles(ext, dir, ops[0]).0;
      if dir in ext' then RunFiles(ext', dir, ops[1..]) else ext'
  }

  /** After any run with fresh numbers, every entry of the directory has an extent of its own. */
  lemma {:induction false} RunKeepsFiles(ext: map<nat, string>, dir: nat, ops: seq<Op>)
    requires dir in ext && Filed(ext, dir, Entries(ext[dir])) && FreshRun(ext, dir, ops)
    ensures var ext' := RunFiles(ext, dir, ops); dir in ext' && Filed(ext', dir, Entries(ext'[dir]))
    decreases |ops|
  {
    if ops != [] {
      StepKeepsFiles(ext, dir, ops[0]);
      RunKeepsFiles(DoFiles(ext, dir, ops[0]).0, dir, ops[1..]);
    }
  }
}
