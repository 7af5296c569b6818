/**
 * The JavaScript string operations the core relies on, over `string` (a sequence of Unicode
 * scalar values; JavaScript counts UTF-16 code units instead): `trim`, `startsWith`, `includes`, `substring`,
 * `split` on a non-empty separator, `join`, a global regular-expression replace, and number
 * formatting for template strings.
 */
module Text {
  import opened Wrappers

  /** The characters `String.prototype.trim` removes (white space and line terminators). */
  predicate IsSpace(c: char) {
    || c == ' ' || c == '\t' || c == '\n' || c == '\r' || c == '\U{000B}' || c == '\U{000C}'
    || c == '\U{00A0}' || c == '\U{1680}' || ('\U{2000}' <= c <= '\U{200A}')
    || c == '\U{2028}' || c == '\U{2029}' || c == '\U{202F}' || c == '\U{205F}' || c == '\U{3000}'
    || c == '\U{FEFF}'
  }

  predicate AllSpace(s: string) {
    forall i :: 0 <= i < |s| ==> IsSpace(s[i])
  }

  /** `s.trimStart()`: drops the leading white space (see `TrimStartSpec`). */
  function TrimStart(s: string): string {
    if s != [] && IsSpace(s[0]) then TrimStart(s[1..]) else s
  }

  /** `s.trimEnd()`: drops the trailing white space (see `TrimEndSpec`). */
  function TrimEnd(s: string): string {
    if s != [] && IsSpace(s[|s| - 1]) then TrimEnd(s[..|s| - 1]) else s
  }

  /** `trimStart` keeps a suffix, drops only white space, and leaves none in front. */
  lemma {:induction false} TrimStartSpec(s: string)
    ensures |TrimStart(s)| <= |s| && TrimStart(s) == s[|s| - |TrimStart(s)|..]
    ensures AllSpace(s[..|s| - |TrimStart(s)|])
    ensures TrimStart(s) != [] ==> !IsSpace(TrimStart(s)[0])
    decreases |s|
  {
    if s != [] && IsSpace(s[0]) {
      var t := s[1..];
      TrimStartSpec(t);
      var r := TrimStart(t);
      assert TrimStart(s) == r;
      var k := |t| - |r|;
      assert r == s[k + 1..] by {
        assert t[k..] == s[k + 1..];
      }
      var dropped := s[..k + 1];
      forall i | 0 <= i < |dropped| ensures IsSpace(dropped[i]) {
        if i > 0 {
          assert dropped[i] == t[..k][i - 1];
        }
      }
    }
  }

  /** `trimEnd` keeps a prefix, drops only white space, and leaves none at the end. */
  lemma {:induction false} TrimEndSpec(s: string)
    ensures |TrimEnd(s)| <= |s| && TrimEnd(s) == s[..|TrimEnd(s)|]
    ensures AllSpace(s[|TrimEnd(s)|..])
    ensures TrimEnd(s) != [] ==> !IsSpace(TrimEnd(s)[|TrimEnd(s)| - 1])
    decreases |s|
  {
    if s != [] && IsSpace(s[|s| - 1]) {
      var t := s[..|s| - 1];
      TrimEndSpec(t);
      var r := TrimEnd(t);
      assert TrimEnd(s) == r;
      assert t[..|r|] == s[..|r|];
      var dropped := s[|r|..];
      forall i | 0 <= i < |dropped| ensures IsSpace(dropped[i]) {
        if i < |s| - 1 - |r| {
          assert dropped[i] == t[|r|..][i];
        }
      }
    }
  }

  /** `s.trim()`: drops the leading and the trailing white space. */
  function Trim(s: string): (r: string)
    ensures |r| <= |s|
    ensures r != [] ==> !IsSpace(r[0]) && !IsSpace(r[|r| - 1])
    ensures (s != [] && !IsSpace(s[0]) && !IsSpace(s[|s| - 1])) ==> r == s
  {
    TrimStartSpec(s);
    TrimEndSpec(TrimStart(s));
    TrimEnd(TrimStart(s))
  }

  lemma {:induction false} TrimStartEmptyIff(s: string)
    ensures TrimStart(s) == [] <==> AllSpace(s)
    decreases |s|
  {
    if s == [] {
    } else if IsSpace(s[0]) {
      TrimStartEmptyIff(s[1..]);
      assert TrimStart(s) == TrimStart(s[1..]);
      if AllSpace(s[1..]) {
        forall i | 0 <= i < |s| ensures IsSpace(s[i]) {
          if i > 0 { assert s[i] == s[1..][i - 1]; }
        }
      } else {
        var i :| 0 <= i < |s| - 1 && !IsSpace(s[1..][i]);
        assert s[1..][i] == s[i + 1];
      }
    } else {
      assert TrimStart(s) == s;
    }
  }

  /** A string trims to the empty string exactly when every character of it is white space. */
  lemma TrimEmptyIffAllSpace(s: string)
    ensures Trim(s) == [] <==> AllSpace(s)
  {
    TrimStartEmptyIff(s);
    TrimStartSpec(s);
    TrimEndSpec(TrimStart(s));
  }

  /** Trimming only removes characters. */
  lemma TrimKeepsCharacters(s: string)
    ensures forall c :: c in Trim(s) ==> c in s
  {
    var t := TrimStart(s);
    TrimStartSpec(s);
    TrimEndSpec(t);
    assert forall c :: c in t ==> c in s;
    assert forall c :: c in TrimEnd(t) ==> c in t;
  }

  /** Trimming twice is trimming once. */
  lemma TrimIdempotent(s: string)
    ensures Trim(Trim(s)) == Trim(s)
  {
  }

  /** `s.startsWith(p)` */
  predicate StartsWith(s: string, p: string) {
    p <= s
  }

  /** `s` has an occurrence of `p` beginning at index `i`. */
  predicate OccursAt(s: string, p: string, i: int) {
    0 <= i <= |s| - |p| && s[i..i + |p|] == p
  }

  /** `s.indexOf(p)`: the first index at which `p` occurs in `s`, if any. */
  function IndexOf(s: string, p: string): (r: Option<nat>)
    ensures r.Some? ==> OccursAt(s, p, r.value)
                        && forall j :: 0 <= j < r.value ==> !OccursAt(s, p, j)
    ensures r.None? ==> forall j :: !OccursAt(s, p, j)
  {
    IndexFrom(s, p, 0)
  }

  function IndexFrom(s: string, p: string, i: nat): (r: Option<nat>)
    requires i <= |s| + 1
    ensures r.Some? ==> i <= r.value && OccursAt(s, p, r.value)
                        && forall j :: i <= j < r.value ==> !OccursAt(s, p, j)
    ensures r.None? ==> forall j :: i <= j ==> !OccursAt(s, p, j)
    decreases |s| + 1 - i
  {
    if i + |p| > |s| then None
    else if s[i..i + |p|] == p then Some(i)
    else IndexFrom(s, p, i + 1)
  }

  /** `s.includes(p)`: `p` occurs somewhere in `s`. */
  predicate Contains(s: string, p: string) {
    exists i :: 0 <= i <= |s| - |p| && OccursAt(s, p, i)
  }

  /** `s.includes(p)` holds exactly when `s.indexOf(p)` finds an index. */
  lemma ContainsIff(s: string, p: string)
    ensures Contains(s, p) <==> IndexOf(s, p).Some?
  {
    if Contains(s, p) {
      var i :| 0 <= i <= |s| - |p| && OccursAt(s, p, i);
      assert IndexOf(s, p).Some?;
    }
  }

  /** A text that lacks the first character of `p` does not contain `p`. */
  lemma LacksFirstChar(s: string, p: string)
    requires |p| > 0 && p[0] !in s
    ensures !Contains(s, p)
  {
  }

  /** An occurrence in the middle of a concatenation is found. */
  lemma ContainsMiddle(a: string, p: string, b: string)
    ensures Contains(a + p + b, p)
  {
    assert OccursAt(a + p + b, p, |a|) by {
      assert (a + p + b)[|a|..|a| + |p|] == p;
    }
  }

  /** An occurrence inside an occurrence is an occurrence. */
  lemma ContainsTransitive(s: string, t: string, u: string)
    requires Contains(s, t) && Contains(t, u)
    ensures Contains(s, u)
  {
    var i :| 0 <= i <= |s| - |t| && OccursAt(s, t, i);
    var j :| 0 <= j <= |t| - |u| && OccursAt(t, u, j);
    var w := s[i + j..i + j + |u|];
    forall m | 0 <= m < |u| ensures w[m] == u[m] {
      assert w[m] == s[i..i + |t|][j + m];
      assert u[m] == t[j..j + |u|][m];
    }
    assert w == u;
    assert OccursAt(s, u, i + j);
  }

  /** An occurrence in a suffix is an occurrence in the whole string. */
  lemma ContainsInSuffix(pre: string, rest: string, p: string)
    requires Contains(rest, p)
    ensures Contains(pre + rest, p)
  {
    var i :| 0 <= i <= |rest| - |p| && OccursAt(rest, p, i);
    assert (pre + rest)[|pre| + i..|pre| + i + |p|] == rest[i..i + |p|];
    assert OccursAt(pre + rest, p, |pre| + i);
  }

  /** `parts.join(sep)` holds every one of its parts. */
  lemma {:induction false} JoinHasPart(parts: seq<string>, sep: string, k: nat)
    requires k < |parts|
    ensures Contains(Join(parts, sep), parts[k])
  {
    var joined := Join(parts, sep);
    if |parts| == 1 {
      assert joined[0..|parts[0]|] == parts[0];
      assert OccursAt(joined, parts[0], 0);
    } else if k == 0 {
      var tail := sep + Join(parts[1..], sep);
      assert joined == parts[0] + tail;
      assert joined[0..|parts[0]|] == parts[0];
      assert OccursAt(joined, parts[0], 0);
    } else {
      JoinHasPart(parts[1..], sep, k - 1);
      assert parts[1..][k - 1] == parts[k];
      ContainsInSuffix(parts[0] + sep, Join(parts[1..], sep), parts[k]);
      assert joined == parts[0] + sep + Join(parts[1..], sep);
    }
  }

  /** `parts.join(sep)` holds all of its parts. */
  lemma JoinHasParts(parts: seq<string>, sep: string)
    ensures forall k :: 0 <= k < |parts| ==> Contains(Join(parts, sep), parts[k])
  {
    forall k | 0 <= k < |parts| ensures Contains(Join(parts, sep), parts[k]) {
      JoinHasPart(parts, sep, k);
    }
  }

  /** The pieces of a template literal: `fixed[0]`, `values[0]`, `fixed[1]`, and so on, ending
   *  with the last fixed text. */
  function Interleave(fixed: seq<string>, values: seq<string>): (r: seq<string>)
    requires |fixed| == |values| + 1
    ensures |r| == 2 * |values| + 1
    decreases |values|
  {
    if values == [] then [fixed[0]] else [fixed[0], values[0]] + Interleave(fixed[1..], values[1..])
  }

  /** The interpolated values sit at the odd positions of a template's pieces. */
  lemma {:induction false} InterleaveOdd(fixed: seq<string>, values: seq<string>, k: nat)
    requires |fixed| == |values| + 1 && k < |values|
    ensures Interleave(fixed, values)[2 * k + 1] == values[k]
    decreases |values|
  {
    if k > 0 {
      InterleaveOdd(fixed[1..], values[1..], k - 1);
      assert Interleave(fixed, values) == [fixed[0], values[0]] + Interleave(fixed[1..], values[1..]);
    }
  }

  /** A template literal: its fixed texts with the values interpolated between them. */
  function Template(fixed: seq<string>, values: seq<string>): string
    requires |fixed| == |values| + 1
  {
    Join(Interleave(fixed, values), "")
  }

  /** A template literal holds every value interpolated into it. */
  lemma TemplateHasValue(fixed: seq<string>, values: seq<string>, k: nat)
    requires |fixed| == |values| + 1 && k < |values|
    ensures Contains(Template(fixed, values), values[k])
  {
    InterleaveOdd(fixed, values, k);
    JoinHasPart(Interleave(fixed, values), "", 2 * k + 1);
  }

  /** `s.substring(0, n)` for `n >= 0`: the first `n` characters, or all of `s`. */
  function Take(s: string, n: nat): (r: string)
    ensures |r| == if |s| <= n then |s| else n
    ensures r <= s
  {
    if |s| <= n then s else s[..n]
  }

  /** `parts.join(sep)` */
  function Join(parts: seq<string>, sep: string): string {
    if parts == [] then ""
    else if |parts| == 1 then parts[0]
    else parts[0] + sep + Join(parts[1..], sep)
  }

  /** `s.split(sep)` for a non-empty separator: the pieces between successive non-overlapping
   *  occurrences of `sep`, found from left to right. */
  function Split(s: string, sep: string): (r: seq<string>)
    requires sep != []
    ensures |r| >= 1
    decreases |s|
  {
    match IndexOf(s, sep)
    case None => [s]
    case Some(i) => [s[..i]] + Split(s[i + |sep|..], sep)
  }

  /** The first piece of a split is the text before the first occurrence of the separator. */
  lemma SplitHead(s: string, sep: string)
    requires sep != []
    ensures IndexOf(s, sep).None? ==> Split(s, sep)[0] == s
    ensures IndexOf(s, sep).Some? ==> Split(s, sep)[0] == s[..IndexOf(s, sep).value]
  {
  }

  lemma JoinCons(head: string, rest: seq<string>, sep: string)
    requires rest != []
    ensures Join([head] + rest, sep) == head + sep + Join(rest, sep)
  {
    assert ([head] + rest)[1..] == rest;
  }

  lemma Reassemble(s: string, i: nat, sep: string)
    requires OccursAt(s, sep, i)
    ensures s == s[..i] + sep + s[i + |sep|..]
  {
    assert s == s[..i] + s[i..i + |sep|] + s[i + |sep|..];
  }

  /** Joining the pieces of a split with the same separator gives back the string. */
  lemma {:induction false} JoinSplit(s: string, sep: string)
    requires sep != []
    ensures Join(Split(s, sep), sep) == s
    decreases |s|
  {
    var found := IndexOf(s, sep);
    if found.Some? {
      var i := found.value;
      var rest := s[i + |sep|..];
      var pieces := Split(rest, sep);
      assert Split(s, sep) == [s[..i]] + pieces;
      JoinSplit(rest, sep);
      JoinCons(s[..i], pieces, sep);
      Reassemble(s, i, sep);
    } else {
      assert Split(s, sep) == [s];
    }
  }

  /** A slice of a prefix is the same slice of the whole string. */
  lemma SliceOfPrefix(s: string, i: nat, j: nat, n: nat)
    requires j + n <= i <= |s|
    ensures s[..i][j..j + n] == s[j..j + n]
  {
    var a := s[..i][j..j + n];
    var b := s[j..j + n];
    forall m | 0 <= m < n ensures a[m] == b[m] {
      assert a[m] == s[..i][j + m];
    }
  }

  /** No piece of a split holds the separator. */
  lemma {:induction false} SplitPiecesFree(s: string, sep: string, k: nat)
    requires sep != [] && k < |Split(s, sep)|
    ensures !Contains(Split(s, sep)[k], sep)
    decreases |s|
  {
    match IndexOf(s, sep)
    case None =>
      assert Split(s, sep) == [s];
    case Some(i) =>
      var rest := s[i + |sep|..];
      assert Split(s, sep) == [s[..i]] + Split(rest, sep);
      if k == 0 {
        var piece := s[..i];
        forall j | 0 <= j <= |piece| - |sep| ensures !OccursAt(piece, sep, j) {
          SliceOfPrefix(s, i, j, |sep|);
          assert !OccursAt(s, sep, j);
        }
      } else {
        SplitPiecesFree(rest, sep, k - 1);
        assert Split(s, sep)[k] == Split(rest, sep)[k - 1];
      }
  }

  /** A regular-expression atom: a literal character, or `.` (any character but a line
   *  terminator). */
  datatype Atom = Lit(c: char) | AnyChar

  predicate IsLineTerminator(c: char) {
    c == '\n' || c == '\r' || c == '\U{2028}' || c == '\U{2029}'
  }

  predicate AtomMatches(a: Atom, c: char) {
    match a
    case Lit(d) => c == d
    case AnyChar => !IsLineTerminator(c)
  }

  predicate MatchesAt(s: string, pat: seq<Atom>, i: nat) {
    i + |pat| <= |s| && forall j :: 0 <= j < |pat| ==> AtomMatches(pat[j], s[i + j])
  }

  /** `s.replace(/pat/g, '')`: removes every match, scanning from the left, without overlap. */
  function RemoveAll(s: string, pat: seq<Atom>): (r: string)
    requires pat != []
    ensures |r| <= |s|
    ensures (forall i :: 0 <= i <= |s| ==> !MatchesAt(s, pat, i)) ==> r == s
    decreases |s|
  {
    if s == [] then []
    else if MatchesAt(s, pat, 0) then RemoveAll(s[|pat|..], pat)
    else
      assert forall i :: 0 <= i <= |s| - 1 ==> MatchesAt(s[1..], pat, i) ==> MatchesAt(s, pat, i + 1);
      [s[0]] + RemoveAll(s[1..], pat)
  }

  /** A literal pattern, every character of which is matched exactly (no `.`). */
  function Literal(p: string): (r: seq<Atom>)
    ensures |r| == |p|
  {
    seq(|p|, i requires 0 <= i < |p| => Lit(p[i]))
  }

  /** The decimal digits of a natural number, as `${n}` prints them. */
  function NatToString(n: nat): (r: string)
    ensures |r| >= 1
    ensures forall i :: 0 <= i < |r| ==> '0' <= r[i] <= '9'
    decreases n
  {
    var d := [('0' as int + n % 10) as char];
    if n < 10 then d else NatToString(n / 10) + d
  }

  /** `${n}` for an integer. */
  function IntToString(n: int): string {
    if n < 0 then "-" + NatToString(-n) else NatToString(n)
  }
}
