/** Splitting a string at a delimiter, and joining it again. */
module Splitting {
  import opened Options

  /** The delimiter starts here: all of it, or any one of its characters. */
  predicate Here(s: string, delim: string, full: bool) {
    if full then delim <= s else s != "" && s[0] in delim
  }

  function Skip(delim: string, full: bool): nat {
    if full then |delim| else 1
  }

  function Later(r: Option<nat>, n: nat): Option<nat> {
    if r.Some? then Some(r.value + n) else None
  }

  /** Where the delimiter is first found; an empty one is not looked for. */
  function First(s: string, delim: string, full: bool): (r: Option<nat>)
    ensures r.Some? ==> 0 < Skip(delim, full) && r.value + Skip(delim, full) <= |s|
  {
    if delim == "" || s == "" then None
    else if Here(s, delim, full) then Some(0)
    else Later(First(s[1..], delim, full), 1)
  }

  lemma {:induction false} FirstIsDelim(s: string, delim: string)
    ensures var r := First(s, delim, true); r.Some? ==> s[r.value..r.value + |delim|] == delim
  {
    if s != "" && delim != "" && !(delim <= s) {
      FirstIsDelim(s[1..], delim);
      var r := First(s[1..], delim, true);
      if r.Some? { assert s[1..][r.value..r.value + |delim|] == s[r.value + 1..r.value + 1 + |delim|]; }
    }
  }

  /** The tokens between delimiters, empty ones included. */
  function Tokens(s: string, delim: string, full: bool): (ts: seq<string>)
    ensures ts != []
    decreases |s|
  {
    var r := First(s, delim, full);
    if r == None then [s] else [s[..r.value]] + Tokens(s[r.value + Skip(delim, full)..], delim, full)
  }

  function NonEmpty(ts: seq<string>): seq<string> {
    if ts == [] then [] else (if ts[0] == "" then [] else [ts[0]]) + NonEmpty(ts[1..])
  }

  function Kept(ts: seq<string>, removeEmpty: bool): seq<string> {
    if removeEmpty then NonEmpty(ts) else ts
  }

  function SplitOf(s: string, delim: string, removeEmpty: bool, full: bool): seq<string> {
    Kept(Tokens(s, delim, full), removeEmpty)
  }

  // ----- the loop

  /** `find` and `find_first_of`, from `start` on. */
  method Find(s: string, delim: string, full: bool, start: nat) returns (end: Option<nat>)
    requires start <= |s| && delim != ""
    ensures end == Later(First(s[start..], delim, full), start)
  {
    var i := start;
    while i < |s|
      invariant start <= i <= |s|
      invariant First(s[start..], delim, full) == Later(First(s[i..], delim, full), i - start)
    {
      if Here(s[i..], delim, full) { return Some(i); }
      assert s[i..][1..] == s[i + 1..];
      i := i + 1;
    }
    return None;
  }

  lemma KeptCons(before: seq<string>, token: string, rest: seq<string>, removeEmpty: bool)
    ensures before + Kept([token] + rest, removeEmpty) ==
      (if removeEmpty && token == "" then before else before + [token]) + Kept(rest, removeEmpty)
  {
    assert ([token] + rest)[1..] == rest;
  }

  lemma TokensFrom(s: string, delim: string, full: bool, at: nat, e: nat)
    requires at <= |s| && First(s[at..], delim, full) == Some(e)
    ensures Tokens(s[at..], delim, full) == [s[at..at + e]] + Tokens(s[at + e + Skip(delim, full)..], delim, full)
  {
    assert s[at..][..e] == s[at..at + e];
    assert s[at..][e + Skip(delim, full)..] == s[at + e + Skip(delim, full)..];
  }

  /** The token that starts at `at`, and where the next one starts. */
  method Token(s: string, delim: string, full: bool, at: nat) returns (token: string, next: Option<nat>)
    requires at <= |s|
    ensures next.Some? ==>
      at < next.value <= |s| && Tokens(s[at..], delim, full) == [token] + Tokens(s[next.value..], delim, full)
    ensures next == None ==> Tokens(s[at..], delim, full) == [token]
  {
    var end := None;
    if delim != "" { end := Find(s, delim, full, at); }
    if end == None { return s[at..], None; }
    TokensFrom(s, delim, full, at, end.value - at);
    return s[at..end.value], Some(end.value + Skip(delim, full));
  }

  method Split(s: string, delim: string, removeEmpty: bool, full: bool) returns (result: seq<string>)
    ensures result == SplitOf(s, delim, removeEmpty, full)
  {
    result := [];
    var start := Some(0);
    ghost var todo := Tokens(s, delim, full);
    assert s[0..] == s;
    while start.Some?
      invariant todo == if start.Some? && start.value <= |s| then Tokens(s[start.value..], delim, full) else []
      invariant start.Some? ==> start.value <= |s|
      invariant SplitOf(s, delim, removeEmpty, full) == result + Kept(todo, removeEmpty)
      decreases if start.Some? then |s| - start.value + 1 else 0
    {
      var token, next := Token(s, delim, full, start.value);
      todo := if next.Some? then Tokens(s[next.value..], delim, full) else [];
      KeptCons(result, token, todo, removeEmpty);
      assert [token] + [] == [token];
      if !(removeEmpty && token == "") { result := result + [token]; }
      start := next;
    }
  }

  // ----- joining

  function JoinWith(delim: string, ts: seq<string>): string {
    if ts == [] then "" else if |ts| == 1 then ts[0] else ts[0] + delim + JoinWith(delim, ts[1..])
  }

  /** Joining the tokens of a string with the delimiter gives the string again. */
  lemma {:induction false} JoinInvertsSplit(s: string, delim: string)
    ensures JoinWith(delim, Tokens(s, delim, true)) == s
    decreases |s|
  {
    var r := First(s, delim, true);
    if r.Some? {
      var e, rest := r.value, s[r.value + |delim|..];
      JoinInvertsSplit(rest, delim);
      FirstIsDelim(s, delim);
      assert ([s[..e]] + Tokens(rest, delim, true))[1..] == Tokens(rest, delim, true);
      assert s == s[..e] + s[e..e + |delim|] + rest;
    }
  }

  /** The first delimiter after a token is the one put there, and there is none in the last token. */
  predicate Separable(delim: string, ts: seq<string>) {
    if |ts| == 0 then false
    else if |ts| == 1 then First(ts[0], delim, true) == None
    else First(ts[0] + delim, delim, true) == Some(|ts[0]|) && Separable(delim, ts[1..])
  }

  /** Whether a delimiter is the first one does not depend on what follows it. */
  lemma {:induction false} FirstInFront(t: string, delim: string, rest: string)
    requires delim != ""
    ensures First(t + delim + rest, delim, true) == Some(|t|) <==> First(t + delim, delim, true) == Some(|t|)
  {
    var a, b := t + delim + rest, t + delim;
    if t == "" {
      assert b == delim && delim <= a;
    } else {
      assert delim <= a <==> delim <= b by { assert a[..|delim|] == b[..|delim|]; }
      FirstInFront(t[1..], delim, rest);
      assert a[1..] == t[1..] + delim + rest && b[1..] == t[1..] + delim;
    }
  }

  /** Splitting a joined list gives the list again, exactly when the delimiters can be told from the tokens. */
  lemma {:induction false} SplitInvertsJoin(delim: string, ts: seq<string>)
    requires delim != "" && ts != []
    ensures Tokens(JoinWith(delim, ts), delim, true) == ts <==> Separable(delim, ts)
  {
    if |ts| == 1 {
      assert ts == [ts[0]];
      OneToken(ts[0], delim);
    } else {
      var t, rest := ts[0], JoinWith(delim, ts[1..]);
      SplitInvertsJoin(delim, ts[1..]);
      FirstInFront(t, delim, rest);
      TwoTokens(t, delim, rest, ts[1..]);
      assert ts == [t] + ts[1..];
    }
  }

  lemma OneToken(s: string, delim: string)
    requires delim != ""
    ensures Tokens(s, delim, true) == [s] <==> First(s, delim, true) == None
  {
  }

  lemma TwoTokens(t: string, delim: string, rest: string, ts: seq<string>)
    requires delim != "" && ts != []
    ensures Tokens(t + delim + rest, delim, true) == [t] + ts <==>
      First(t + delim + rest, delim, true) == Some(|t|) && Tokens(rest, delim, true) == ts
  {
    var s := t + delim + rest;
    var r := First(s, delim, true);
    if r == None {
      assert |Tokens(s, delim, true)| == 1;
    } else {
      var us := Tokens(s[r.value + |delim|..], delim, true);
      assert Tokens(s, delim, true) == [s[..r.value]] + us && ([s[..r.value]] + us)[1..] == us && ([t] + ts)[1..] == ts;
      assert |s[..r.value]| == r.value;
      if r.value == |t| { assert s[..|t|] == t && s[|t| + |delim|..] == rest; }
    }
  }

  // ----- any one character as a delimiter

  predicate Free(t: string, delim: string) {
    forall i :: 0 <= i < |t| ==> t[i] !in delim
  }

  /** The characters of `s` that are delimiters. */
  function Delims(s: string, delim: string): string {
    if s == "" then "" else (if s[0] in delim then [s[0]] else "") + Delims(s[1..], delim)
  }

  /** Tokens with one delimiter character between each two. */
  function Weave(ts: seq<string>, ds: string): string
    requires |ts| == |ds| + 1
  {
    if ds == "" then ts[0] else ts[0] + [ds[0]] + Weave(ts[1..], ds[1..])
  }

  lemma {:induction false} FirstAny(s: string, delim: string)
    requires delim != ""
    ensures var r := First(s, delim, false);
      && (r == None ==> Free(s, delim) && Delims(s, delim) == "")
      && (r.Some? ==>
            && Free(s[..r.value], delim) && s[r.value] in delim
            && Delims(s, delim) == [s[r.value]] + Delims(s[r.value + 1..], delim))
  {
    if s != "" && s[0] !in delim {
      FirstAny(s[1..], delim);
      var r := First(s[1..], delim, false);
      assert Delims(s, delim) == Delims(s[1..], delim);
      if r.Some? {
        assert s[..r.value + 1] == [s[0]] + s[1..][..r.value];
        assert s[1..][r.value + 1..] == s[r.value + 2..];
      }
    } else if s != "" {
      assert s[..0] == "";
    }
  }

  /** Split at any one of several characters, the tokens contain none of them, and weave back into the string. */
  lemma {:induction false} SplitAtAny(s: string, delim: string)
    requires delim != ""
    ensures var ts := Tokens(s, delim, false);
      && |ts| == |Delims(s, delim)| + 1 && Weave(ts, Delims(s, delim)) == s
      && forall i :: 0 <= i < |ts| ==> Free(ts[i], delim)
    decreases |s|
  {
    FirstAny(s, delim);
    var r := First(s, delim, false);
    if r.Some? {
      var e, rest := r.value, s[r.value + 1..];
      SplitAtAny(rest, delim);
      var us, ds := Tokens(rest, delim, false), Delims(rest, delim);
      assert ([s[..e]] + us)[1..] == us && ([s[e]] + ds)[1..] == ds;
      assert s == s[..e] + [s[e]] + rest;
    }
  }

  /** An empty delimiter is never found: the string is its own and only token. */
  lemma NoDelimiter(s: string, full: bool, removeEmpty: bool)
    ensures Tokens(s, "", full) == [s] && (s != "" ==> SplitOf(s, "", removeEmpty, full) == [s])
  {
    KeptCons([], s, [], removeEmpty);
    assert [s] + [] == [s] && [] + [s] + [] == [s];
  }

  /** Removing empty tokens keeps exactly the others, in their order. */
  lemma {:induction false} NonEmptyAppend(a: seq<string>, b: seq<string>)
    ensures NonEmpty(a + b) == NonEmpty(a) + NonEmpty(b)
  {
    if a == [] {
      assert a + b == b;
    } else {
      NonEmptyAppend(a[1..], b);
      assert (a + b)[1..] == a[1..] + b;
      var kept := if a[0] == "" then [] else [a[0]];
      Regroup(kept, NonEmpty(a[1..]), NonEmpty(b));
    }
  }

  lemma Regroup(a: seq<string>, b: seq<string>, c: seq<string>)
    ensures a + (b + c) == a + b + c
  {
  }

  lemma {:induction false} NonEmptyIs(a: seq<string>, t: string)
    ensures t in NonEmpty(a) <==> t in a && t != ""
  {
    if a != [] {
      NonEmptyIs(a[1..], t);
      assert a == [a[0]] + a[1..];
    }
  }
}
