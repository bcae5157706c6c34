/** The few Python value-level behaviours the daemon relies on: optional
    values, the exceptions it lets escape, and the string operations
    `str.isspace`, `str.strip`, `str.split`, `str.join` and `str(int)`. */
module Py {

  datatype Option<+T> = None | Some(value: T)

  /** Exceptions raised by the modelled code and not caught by it
      (`JsonDecodeError` is the one the legacy variant lets escape). */
  datatype PyError =
    | KeyError
    | TypeError
    | AttributeError
    | IndexError
    | DataError
    | JsonDecodeError

  /** A computation that either yields a value or raises. */
  datatype Result<+T> = Ok(value: T) | Err(error: PyError) {
    predicate IsFailure() { Err? }

    function PropagateFailure<U>(): Result<U>
      requires Err?
    {
      Err(error)
    }

    function Extract(): T
      requires Ok?
    {
      value
    }
  }

  function Max(a: int, b: int): int { if a >= b then a else b }

  function Min(a: int, b: int): int { if a <= b then a else b }

  /** `c.isspace()`: the 29 characters Python classifies as whitespace. */
  predicate IsSpace(c: char) {
    || ('\t' <= c <= '\r')
    || ('\U{001C}' <= c <= ' ')
    || c == '\U{0085}' || c == '\U{00A0}' || c == '\U{1680}'
    || ('\U{2000}' <= c <= '\U{200A}')
    || c == '\U{2028}' || c == '\U{2029}' || c == '\U{202F}'
    || c == '\U{205F}' || c == '\U{3000}'
  }

  /** `s.lstrip()` */
  function TrimLeft(s: string): (r: string)
    ensures |r| <= |s|
  {
    if s != [] && IsSpace(s[0]) then TrimLeft(s[1..]) else s
  }

  /** `s.rstrip()` */
  function TrimRight(s: string): (r: string)
    ensures |r| <= |s|
  {
    if s != [] && IsSpace(s[|s| - 1]) then TrimRight(s[..|s| - 1]) else s
  }

  /** `s.strip()`: whitespace only, at both ends. The result is a slice of
      `s` that neither starts nor ends with whitespace, and only whitespace
      lies outside it. */
  function Strip(s: string): (r: string)
    ensures |r| <= |TrimLeft(s)| <= |s|
    ensures r == s[|s| - |TrimLeft(s)|..|s| - |TrimLeft(s)| + |r|]
    ensures r != [] ==> !IsSpace(r[0]) && !IsSpace(r[|r| - 1])
    ensures forall i :: 0 <= i < |s| - |TrimLeft(s)| ==> IsSpace(s[i])
    ensures forall i :: |s| - |TrimLeft(s)| + |r| <= i < |s| ==> IsSpace(s[i])
  {
    TrimLeftSpec(s);
    TrimRightSpec(TrimLeft(s));
    var t := TrimLeft(s);
    var r := TrimRight(t);
    assert forall i :: |r| <= i < |t| ==> s[|s| - |t| + i] == t[i];
    r
  }

  /** `lstrip` removes a run of whitespace from the front and nothing else. */
  lemma {:induction false} TrimLeftSpec(s: string)
    ensures |TrimLeft(s)| <= |s| && TrimLeft(s) == s[|s| - |TrimLeft(s)|..]
    ensures TrimLeft(s) != [] ==> !IsSpace(TrimLeft(s)[0])
    ensures forall i :: 0 <= i < |s| - |TrimLeft(s)| ==> IsSpace(s[i])
    decreases |s|
  {
    if s != [] && IsSpace(s[0]) {
      TrimLeftSpec(s[1..]);
      assert forall i :: 1 <= i < |s| ==> s[i] == s[1..][i - 1];
    }
  }

  /** `rstrip` removes a run of whitespace from the back and nothing else. */
  lemma {:induction false} TrimRightSpec(s: string)
    ensures |TrimRight(s)| <= |s| && TrimRight(s) == s[..|TrimRight(s)|]
    ensures TrimRight(s) != [] ==> !IsSpace(TrimRight(s)[|TrimRight(s)| - 1])
    ensures forall i :: |TrimRight(s)| <= i < |s| ==> IsSpace(s[i])
    decreases |s|
  {
    if s != [] && IsSpace(s[|s| - 1]) {
      TrimRightSpec(s[..|s| - 1]);
    }
  }

  /** Leading whitespace is removed only from the part before the first
      non-whitespace character. */
  lemma {:induction false} TrimLeftBeforeText(t: string, rest: string)
    requires rest != [] && !IsSpace(rest[0])
    ensures TrimLeft(t + rest) == TrimLeft(t) + rest
    decreases |t|
  {
    if t != [] {
      assert (t + rest)[0] == t[0];
      if IsSpace(t[0]) {
        assert (t + rest)[1..] == t[1..] + rest;
        TrimLeftBeforeText(t[1..], rest);
      }
    }
  }

  /** `strip()` of a text whose tail starts and ends with non-whitespace only
      trims the front of the head. */
  lemma StripBeforeText(t: string, rest: string)
    requires rest != [] && !IsSpace(rest[0]) && !IsSpace(rest[|rest| - 1])
    ensures Strip(t + rest) == TrimLeft(t) + rest
  {
    TrimLeftBeforeText(t, rest);
    var u := TrimLeft(t) + rest;
    assert u[|u| - 1] == rest[|rest| - 1];
  }

  /** `sep.join(parts)` */
  function Join(parts: seq<string>, sep: string): string
    decreases |parts|
  {
    if parts == [] then ""
    else if |parts| == 1 then parts[0]
    else parts[0] + sep + Join(parts[1..], sep)
  }

  /** The first piece opens a join and the last piece closes it; the join of
      one piece is that piece. */
  lemma {:induction false} JoinEnds(parts: seq<string>, sep: string)
    requires parts != []
    ensures |parts| == 1 ==> Join(parts, sep) == parts[0]
    ensures |parts[0]| <= |Join(parts, sep)| && Join(parts, sep)[..|parts[0]|] == parts[0]
    ensures var last := parts[|parts| - 1];
      |last| <= |Join(parts, sep)| && Join(parts, sep)[|Join(parts, sep)| - |last|..] == last
    decreases |parts|
  {
    if |parts| > 1 {
      var tail := parts[1..];
      JoinEnds(tail, sep);
      var j := Join(parts, sep);
      var rest := Join(tail, sep);
      assert j == parts[0] + sep + rest;
      assert j[..|parts[0]|] == parts[0];
      assert tail[|tail| - 1] == parts[|parts| - 1];
      assert j[|j| - |parts[|parts| - 1]|..] == rest[|rest| - |parts[|parts| - 1]|..];
    }
  }

  /** `sep` occurs in `s` starting at index `i`. */
  predicate OccursAt(s: string, sep: string, i: int) {
    0 <= i && i + |sep| <= |s| && s[i..i + |sep|] == sep
  }

  predicate Contains(s: string, sep: string) {
    exists i | 0 <= i <= |s| :: OccursAt(s, sep, i)
  }

  /** `s.find(sep, from)` restricted to a result, if any. */
  function FindFrom(s: string, sep: string, from: nat): (r: Option<nat>)
    decreases |s| - from
    ensures r.Some? ==> from <= r.value && OccursAt(s, sep, r.value)
    ensures r.Some? ==> forall j :: from <= j < r.value ==> !OccursAt(s, sep, j)
    ensures r.None? ==> forall j :: from <= j ==> !OccursAt(s, sep, j)
  {
    if from + |sep| > |s| then None
    else if s[from..from + |sep|] == sep then Some(from)
    else FindFrom(s, sep, from + 1)
  }

  /** Index of the first occurrence of `sep` in `s`, if there is one. */
  function Find(s: string, sep: string): (r: Option<nat>)
    ensures r.Some? ==> OccursAt(s, sep, r.value) && forall j :: 0 <= j < r.value ==> !OccursAt(s, sep, j)
    ensures r.None? ==> forall j :: 0 <= j ==> !OccursAt(s, sep, j)
  {
    FindFrom(s, sep, 0)
  }

  /** `find` fails exactly when the separator does not occur. */
  lemma FindNone(s: string, sep: string)
    ensures Find(s, sep).None? <==> !Contains(s, sep)
  {
    if Find(s, sep).Some? {
      assert OccursAt(s, sep, Find(s, sep).value);
    }
  }

  /** `s.split(sep)` for a non-empty separator: cut at every occurrence,
      scanning from the left, never overlapping. */
  function Split(s: string, sep: string): (parts: seq<string>)
    requires |sep| > 0
    decreases |s|
    ensures |parts| >= 1
    ensures Find(s, sep).None? ==> parts == [s]
    ensures Find(s, sep).Some? ==> |parts| >= 2 && parts[0] == s[..Find(s, sep).value]
  {
    match Find(s, sep)
    case None => [s]
    case Some(i) => [s[..i]] + Split(s[i + |sep|..], sep)
  }

  /** Joining the pieces with the separator gives the string back. */
  lemma {:induction false} JoinSplit(s: string, sep: string)
    requires |sep| > 0
    ensures Join(Split(s, sep), sep) == s
    decreases |s|
  {
    match Find(s, sep)
    case None =>
    case Some(i) =>
      var rest := s[i + |sep|..];
      var tail := Split(rest, sep);
      JoinSplit(rest, sep);
      var parts := [s[..i]] + tail;
      assert Split(s, sep) == parts;
      assert |parts| > 1 && parts[0] == s[..i] && parts[1..] == tail;
      assert Join(parts, sep) == s[..i] + sep + Join(tail, sep);
      assert s == s[..i] + s[i..i + |sep|] + rest;
  }

  /** No piece of a split contains the separator. */
  lemma {:induction false} SplitPiecesFree(s: string, sep: string)
    requires |sep| > 0
    ensures forall p :: p in Split(s, sep) ==> !Contains(p, sep)
    decreases |s|
  {
    match Find(s, sep)
    case None =>
    case Some(i) =>
      var rest := s[i + |sep|..];
      SplitPiecesFree(rest, sep);
      PrefixBeforeFirstFree(s, sep, i);
      var tail := Split(rest, sep);
      assert Split(s, sep) == [s[..i]] + tail;
      assert forall p :: p in [s[..i]] + tail ==> p == s[..i] || p in tail;
  }

  /** The text before the first occurrence of `sep` does not contain it. */
  lemma PrefixBeforeFirstFree(s: string, sep: string, i: nat)
    requires |sep| > 0 && i <= |s|
    requires forall j :: 0 <= j < i ==> !OccursAt(s, sep, j)
    ensures !Contains(s[..i], sep)
  {
    var head := s[..i];
    forall j | OccursAt(head, sep, j) ensures false {
      assert s[j..j + |sep|] == head[j..j + |sep|];
      assert OccursAt(s, sep, j);
    }
  }

  /** A split yields a single piece iff `find` finds no separator. */
  lemma SplitOne(s: string, sep: string)
    requires |sep| > 0
    ensures |Split(s, sep)| == 1 <==> Find(s, sep).None?
  {
    match Find(s, sep)
    case None =>
    case Some(i) =>
      assert Split(s, sep) == [s[..i]] + Split(s[i + |sep|..], sep);
  }

  /** A split yields a single piece iff the separator does not occur. */
  lemma SplitSingle(s: string, sep: string)
    requires |sep| > 0
    ensures |Split(s, sep)| == 1 <==> !Contains(s, sep)
  {
    SplitOne(s, sep);
    FindNone(s, sep);
  }

  /** A split yields two pieces exactly when the separator occurs once: the
      text before it and the text after it. */
  lemma SplitInTwo(s: string, sep: string)
    requires |sep| > 0
    ensures |Split(s, sep)| == 2 ==>
      Find(s, sep).Some? && Split(s, sep) == [s[..Find(s, sep).value], s[Find(s, sep).value + |sep|..]]
  {
    match Find(s, sep)
    case None =>
      assert Split(s, sep) == [s];
    case Some(i) =>
      var rest := s[i + |sep|..];
      assert Split(s, sep) == [s[..i]] + Split(rest, sep);
      if |Split(rest, sep)| == 1 {
        SplitSingle(rest, sep);
        assert Split(rest, sep) == [rest];
      }
  }

  /** Longest prefix of `s` without whitespace. */
  function Word(s: string): (w: string)
    ensures |w| <= |s| && w == s[..|w|]
    ensures forall i :: 0 <= i < |w| ==> !IsSpace(w[i])
    ensures |w| < |s| ==> IsSpace(s[|w|])
  {
    if s == [] || IsSpace(s[0]) then [] else [s[0]] + Word(s[1..])
  }

  /** A non-empty run of non-whitespace. */
  predicate IsWord(w: string) {
    w != [] && forall i :: 0 <= i < |w| ==> !IsSpace(w[i])
  }

  /** `s.split()` without a separator: the maximal runs of non-whitespace.
      Every token is a word, and a string without whitespace is one token. */
  function Tokens(s: string): (r: seq<string>)
    ensures forall k :: 0 <= k < |r| ==> IsWord(r[k])
    ensures IsWord(s) ==> r == [s]
    decreases |s|
  {
    if s == [] then []
    else if IsSpace(s[0]) then Tokens(s[1..])
    else
      var w := Word(s);
      assert IsWord(s) ==> |w| == |s| && w == s && s[|w|..] == [];
      [w] + Tokens(s[|w|..])
  }

  /** `s.split()` is empty exactly for a blank string, and otherwise its first
      token is the first run of non-whitespace after the leading whitespace. */
  lemma {:induction false} FirstToken(s: string)
    ensures Tokens(s) == [] <==> forall i :: 0 <= i < |s| ==> IsSpace(s[i])
    ensures Tokens(s) != [] ==> Tokens(s)[0] == Word(TrimLeft(s)) && Tokens(s)[0] != []
    decreases |s|
  {
    if s != [] && IsSpace(s[0]) {
      FirstToken(s[1..]);
      assert forall i :: 1 <= i < |s| ==> s[i] == s[1..][i - 1];
    }
  }

  /** Decimal digits of a natural number. */
  function Digits(n: nat): (r: string)
    ensures |r| >= 1
    ensures forall i :: 0 <= i < |r| ==> '0' <= r[i] <= '9'
  {
    var d := [(('0' as int) + n % 10) as char];
    if n < 10 then d else Digits(n / 10) + d
  }

  /** `str(n)` for a Python int. */
  function IntToString(n: int): string {
    if n < 0 then "-" + Digits(-n) else Digits(n)
  }
}
