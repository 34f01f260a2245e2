/** JavaScript values and string operations that the plugin relies on. */
module Js {

  datatype Option<T> = None | Some(value: T)

  /** A property of a JavaScript object: absent (`undefined`), `null`, or a value. */
  datatype Slot<T> = Undefined | Null | Has(value: T) {
    /** What `??` and `??=` test for. */
    predicate Nullish() { Undefined? || Null? }
  }

  /** `slot ??= d`: a nullish slot receives `d`, any other value is kept. */
  function OrDefault<T>(s: Slot<T>, d: T): Slot<T>
  {
    if s.Nullish() then Has(d) else s
  }

  predicate StartsWith(s: string, p: string)
  {
    |p| <= |s| && s[..|p|] == p
  }

  predicate OccursAt(s: string, p: string, k: nat)
  {
    k + |p| <= |s| && s[k..k + |p|] == p
  }

  /** `s.indexOf(p, from)`: the first position at or after `from` where `p` occurs. */
  function IndexOfFrom(s: string, p: string, from: nat): (r: Option<nat>)
    decreases |s| - from
    ensures r.Some? ==> from <= r.value && OccursAt(s, p, r.value)
    ensures r.Some? ==> forall k :: from <= k < r.value ==> !OccursAt(s, p, k)
    ensures r.None? ==> forall k :: from <= k ==> !OccursAt(s, p, k)
  {
    if from + |p| > |s| then None
    else if s[from..from + |p|] == p then Some(from)
    else IndexOfFrom(s, p, from + 1)
  }

  /** `s.replace(p, r)` with a string pattern: only the first occurrence is replaced. */
  function ReplaceFirst(s: string, p: string, r: string): string
  {
    match IndexOfFrom(s, p, 0)
    case None => s
    case Some(i) => s[..i] + r + s[i + |p|..]
  }

  /** Replacing a pattern that the string begins with swaps exactly that prefix. */
  lemma ReplaceFirstAtStart(p: string, t: string, r: string)
    ensures ReplaceFirst(p + t, p, r) == r + t
  {
    assert OccursAt(p + t, p, 0);
    assert (p + t)[|p|..] == t;
  }

  /** A string in which the pattern does not occur is left as it is. */
  lemma ReplaceFirstAbsent(s: string, p: string, r: string)
    requires forall k :: !OccursAt(s, p, k)
    ensures ReplaceFirst(s, p, r) == s
  {
  }

  /** WhiteSpace and LineTerminator of ECMAScript: what `String.prototype.trim` and `\s` match. */
  predicate IsWhitespace(c: char)
  {
    c == '\t' || c == '\n' || c == '\U{000B}' || c == '\U{000C}' || c == '\r' || c == ' '
    || c == '\U{00A0}' || c == '\U{1680}' || ('\U{2000}' <= c <= '\U{200A}')
    || c == '\U{2028}' || c == '\U{2029}' || c == '\U{202F}' || c == '\U{205F}'
    || c == '\U{3000}' || c == '\U{FEFF}'
  }

  predicate AllWhitespace(s: string)
  {
    forall i :: 0 <= i < |s| ==> IsWhitespace(s[i])
  }

  function TrimStart(s: string): (r: string)
    ensures |r| <= |s| && r == s[|s| - |r|..]
    ensures r == [] || !IsWhitespace(r[0])
    ensures AllWhitespace(s[..|s| - |r|])
  {
    if |s| > 0 && IsWhitespace(s[0]) then
      var r := TrimStart(s[1..]);
      assert s[..|s| - |r|] == [s[0]] + s[1..][..|s| - 1 - |r|];
      r
    else s
  }

  function TrimEnd(s: string): (r: string)
    ensures |r| <= |s| && r == s[..|r|]
    ensures r == [] || !IsWhitespace(r[|r| - 1])
    ensures AllWhitespace(s[|r|..])
  {
    if |s| > 0 && IsWhitespace(s[|s| - 1]) then
      var r := TrimEnd(s[..|s| - 1]);
      assert s[|r|..] == s[..|s| - 1][|r|..] + [s[|s| - 1]];
      r
    else s
  }

  /** `s.trim()`. */
  function Trim(s: string): string
  {
    TrimEnd(TrimStart(s))
  }

  lemma {:induction false} TrimStartOf(w: string, s: string)
    requires AllWhitespace(w)
    requires s == [] || !IsWhitespace(s[0])
    ensures TrimStart(w + s) == s
  {
    if w != [] {
      assert (w + s)[1..] == w[1..] + s;
      TrimStartOf(w[1..], s);
    } else {
      assert w + s == s;
    }
  }

  lemma {:induction false} TrimEndOf(s: string, w: string)
    requires AllWhitespace(w)
    requires s == [] || !IsWhitespace(s[|s| - 1])
    ensures TrimEnd(s + w) == s
  {
    if w != [] {
      assert (s + w)[..|s + w| - 1] == s + w[..|w| - 1];
      TrimEndOf(s, w[..|w| - 1]);
    } else {
      assert s + w == s;
    }
  }

  /** Trailing whitespace is taken off the last part only, once that part has something else in it. */
  lemma TrimEndAppend(a: string, b: string)
    requires TrimEnd(b) != []
    ensures TrimEnd(a + b) == a + TrimEnd(b)
  {
    var t := TrimEnd(b);
    assert b == t + b[|t|..];
    assert a + b == (a + t) + b[|t|..];
    TrimEndOf(a + t, b[|t|..]);
  }

  /** Whitespace added at the end is trimmed away again, once there is something else before it. */
  lemma TrimEndExtra(x: string, w: string)
    requires AllWhitespace(w) && TrimEnd(x) != []
    ensures TrimEnd(x + w) == TrimEnd(x)
  {
    var t := TrimEnd(x);
    var rest := x[|t|..] + w;
    assert x + w == t + rest;
    assert AllWhitespace(rest) by {
      forall i | 0 <= i < |rest| ensures IsWhitespace(rest[i]) {
        if i < |x| - |t| {
          assert rest[i] == x[|t|..][i];
        } else {
          assert rest[i] == w[i - (|x| - |t|)];
        }
      }
    }
    TrimEndOf(t, rest);
  }

  /** A string with a visible character in it does not trim to nothing. */
  lemma TrimKeepsVisible(s: string, i: nat)
    requires i < |s| && !IsWhitespace(s[i])
    ensures Trim(s) != []
  {
    var t := TrimStart(s);
    var k := |s| - |t|;
    assert t[i - k] == s[i];
  }

  /** Trimming text framed by whitespace that itself starts and ends with something else gives the text back. */
  lemma TrimFramed(w1: string, s: string, w2: string)
    requires AllWhitespace(w1) && AllWhitespace(w2)
    requires s != [] && !IsWhitespace(s[0]) && !IsWhitespace(s[|s| - 1])
    ensures Trim(w1 + s + w2) == s
  {
    assert w1 + s + w2 == w1 + (s + w2);
    TrimStartOf(w1, s + w2);
    TrimEndOf(s, w2);
  }

  /**
   * Trimming a template that opens with whitespace, a visible line, a separator, a text and
   * closing whitespace removes the framing and the text's own trailing whitespace.
   */
  lemma TrimTemplate(lf: string, prelude: string, exports: string, w: string)
    requires AllWhitespace(lf) && AllWhitespace(w)
    requires prelude != [] && !IsWhitespace(prelude[0])
    requires TrimEnd(exports) != []
    ensures Trim(lf + prelude + lf + exports + w) == prelude + lf + TrimEnd(exports)
  {
    Regroup(lf, prelude, lf, exports, w);
    TrimEndExtra(exports, w);
    TrimAround(lf, prelude + lf, exports + w);
  }

  lemma Regroup(a: string, b: string, c: string, d: string, e: string)
    ensures a + b + c + d + e == a + ((b + c) + (d + e))
  {
  }

  lemma TrimAround(w: string, head: string, tail: string)
    requires AllWhitespace(w) && head != [] && !IsWhitespace(head[0])
    requires TrimEnd(tail) != []
    ensures Trim(w + (head + tail)) == head + TrimEnd(tail)
  {
    assert (head + tail)[0] == head[0];
    TrimStartOf(w, head + tail);
    TrimEndAppend(head, tail);
  }

  /** `parts.join(sep)`. */
  function Join(parts: seq<string>, sep: string): string
  {
    if |parts| == 0 then ""
    else if |parts| == 1 then parts[0]
    else parts[0] + sep + Join(parts[1..], sep)
  }

  /** A join starts with its first part. */
  lemma JoinHead(parts: seq<string>, sep: string)
    requires |parts| > 0
    ensures |Join(parts, sep)| >= |parts[0]| && Join(parts, sep)[..|parts[0]|] == parts[0]
  {
  }

  /** Joining two non-empty runs of parts puts one separator between them. */
  lemma {:induction false} JoinAppend(a: seq<string>, b: seq<string>, sep: string)
    requires |a| >= 1 && |b| >= 1
    ensures Join(a + b, sep) == Join(a, sep) + sep + Join(b, sep)
  {
    if |a| > 1 {
      assert (a + b)[1..] == a[1..] + b;
      JoinAppend(a[1..], b, sep);
    } else {
      assert (a + b)[1..] == b;
    }
  }

  /** A non-empty join ends where its last part ends. */
  lemma {:induction false} JoinEndsWithLast(parts: seq<string>, sep: string)
    requires |parts| > 0 && parts[|parts| - 1] != []
    ensures var j := Join(parts, sep); |j| > 0 && j[|j| - 1] == parts[|parts| - 1][|parts[|parts| - 1]| - 1]
  {
    if |parts| > 1 {
      JoinEndsWithLast(parts[1..], sep);
    }
  }

  predicate NoNewline(s: string)
  {
    forall i :: 0 <= i < |s| ==> s[i] != '\n'
  }

  /** Position of the first line feed. */
  function FirstNewline(s: string): (r: Option<nat>)
    ensures r.Some? ==> r.value < |s| && s[r.value] == '\n' && NoNewline(s[..r.value])
    ensures r.None? ==> NoNewline(s)
  {
    if |s| == 0 then None
    else if s[0] == '\n' then Some(0)
    else match FirstNewline(s[1..])
      case None => None
      case Some(i) =>
        assert s[..i + 1] == [s[0]] + s[1..][..i];
        Some(i + 1)
  }

  /** `s.split('\n')`: the lines of a text. */
  function Lines(s: string): (r: seq<string>)
    ensures |r| >= 1
    ensures forall i :: 0 <= i < |r| ==> NoNewline(r[i])
    decreases |s|
  {
    match FirstNewline(s)
    case None => [s]
    case Some(i) => [s[..i]] + Lines(s[i + 1..])
  }

  /** A line with no line feed in it, a line feed, then more text: that line comes first. */
  lemma LinesCons(a: string, b: string)
    requires NoNewline(a)
    ensures Lines(a + "\n" + b) == [a] + Lines(b)
  {
    var s := a + "\n" + b;
    FirstNewlineAt(a, b);
    assert s[..|a|] == a;
    assert s[|a| + 1..] == b;
  }

  lemma {:induction false} FirstNewlineAt(a: string, b: string)
    requires NoNewline(a)
    ensures FirstNewline(a + "\n" + b) == Some(|a|)
    decreases |a|
  {
    if a != [] {
      assert (a + "\n" + b)[1..] == a[1..] + "\n" + b;
      FirstNewlineAt(a[1..], b);
    }
  }

  /** Splitting a join of lines on line feeds gives the lines back. */
  lemma {:induction false} LinesJoin(parts: seq<string>)
    requires |parts| >= 1
    requires forall i :: 0 <= i < |parts| ==> NoNewline(parts[i])
    ensures Lines(Join(parts, "\n")) == parts
  {
    if |parts| == 1 {
      assert FirstNewline(parts[0]).None?;
    } else {
      LinesCons(parts[0], Join(parts[1..], "\n"));
      LinesJoin(parts[1..]);
    }
  }

  function DigitChar(d: nat): char
    requires d < 10
  {
    "0123456789"[d]
  }

  /** Decimal notation of a natural number, as JavaScript's `${n}` writes it. */
  function NatToString(n: nat): (r: string)
    ensures |r| >= 1
    ensures n >= 10 ==> |r| >= 2
    decreases n
  {
    if n < 10 then [DigitChar(n)] else NatToString(n / 10) + [DigitChar(n % 10)]
  }

  /** Distinct numbers are written differently. */
  lemma {:induction false} NatToStringInjective(n: nat, m: nat)
    requires NatToString(n) == NatToString(m)
    ensures n == m
    decreases n
  {
    var sn, sm := NatToString(n), NatToString(m);
    if n < 10 && m < 10 {
      assert "0123456789"[n] == sn[0] == sm[0] == "0123456789"[m];
    } else if n >= 10 && m >= 10 {
      assert sn[|sn| - 1] == sm[|sm| - 1];
      assert DigitChar(n % 10) == DigitChar(m % 10);
      assert n % 10 == m % 10;
      assert sn[..|sn| - 1] == NatToString(n / 10);
      assert sm[..|sm| - 1] == NatToString(m / 10);
      NatToStringInjective(n / 10, m / 10);
    }
  }

  /** `path.join(a, b)` on already normalised segments. */
  function PathJoin(a: string, b: string): string
  {
    a + "/" + b
  }
}
