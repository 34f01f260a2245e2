/**
 * The two head-tag regular expressions the plugins run over `index.html`:
 * `/(<\s*?head\s*?>)/` (src/cjs-shim.ts) and `/(<\/[\s]*?head[\s]*?>)/` (index.js).
 * Each is modelled by the set of strings it matches; `String.prototype.replace` with such a
 * non-global expression rewrites the leftmost match only.
 */
module Html {
  import opened Js

  /** The first position at or after `j` that does not hold whitespace. */
  function SkipWhitespace(s: string, j: nat): (k: nat)
    requires j <= |s|
    ensures j <= k <= |s|
    ensures forall p :: j <= p < k ==> IsWhitespace(s[p])
    ensures k == |s| || !IsWhitespace(s[k])
    decreases |s| - j
  {
    if j < |s| && IsWhitespace(s[j]) then SkipWhitespace(s, j + 1) else j
  }

  /** The word `head` starts at `a`. */
  predicate HeadAt(s: string, a: nat)
  {
    a + 4 <= |s| && s[a] == 'h' && s[a + 1] == 'e' && s[a + 2] == 'a' && s[a + 3] == 'd'
  }

  /**
   * The end of the head tag that starts at `i`: `<`, whitespace, `head`, whitespace, `>`, with a
   * `/` after the `<` for the closing tag. The lazy quantifiers of the expressions cannot stop
   * earlier than here, because neither `h` nor `>` is whitespace.
   */
  function TagAt(s: string, i: nat, closing: bool): Option<nat>
    requires i <= |s|
  {
    if !(i < |s| && s[i] == '<') then None
    else if closing && !(i + 1 < |s| && s[i + 1] == '/') then None
    else
      var a := SkipWhitespace(s, if closing then i + 2 else i + 1);
      if HeadAt(s, a) then
        var b := SkipWhitespace(s, a + 4);
        if b < |s| && s[b] == '>' then Some(b + 1) else None
      else None
  }

  /** A head tag ends with its only `>`. */
  lemma TagShape(s: string, i: nat, closing: bool)
    requires i <= |s| && TagAt(s, i, closing).Some?
    ensures var e := TagAt(s, i, closing).value;
      i < e <= |s| && s[e - 1] == '>' && forall p :: i <= p < e - 1 ==> s[p] != '>'
  {
    var a := SkipWhitespace(s, if closing then i + 2 else i + 1);
    assert HeadAt(s, a);
  }

  /** Skipping whitespace looks only at the characters it passes and the one it stops at. */
  lemma {:induction false} SkipWhitespaceLocal(s: string, t: string, j: nat)
    requires j <= |s| && SkipWhitespace(s, j) < |s| && SkipWhitespace(s, j) < |t|
    requires forall p :: j <= p <= SkipWhitespace(s, j) ==> s[p] == t[p]
    ensures SkipWhitespace(t, j) == SkipWhitespace(s, j)
    decreases |s| - j
  {
    if j < SkipWhitespace(s, j) {
      SkipWhitespaceLocal(s, t, j + 1);
    }
  }

  /** Whether a head tag starts at `i` depends only on the characters of that tag. */
  lemma TagLocal(s: string, t: string, i: nat, closing: bool)
    requires i <= |s| && TagAt(s, i, closing).Some? && TagAt(s, i, closing).value <= |t|
    requires forall p :: i <= p < TagAt(s, i, closing).value ==> s[p] == t[p]
    ensures TagAt(t, i, closing) == TagAt(s, i, closing)
  {
    var j := if closing then i + 2 else i + 1;
    var a := SkipWhitespace(s, j);
    SkipWhitespaceLocal(s, t, j);
    SkipWhitespaceLocal(s, t, a + 4);
  }

  /** The leftmost head tag starting at or after `from`: its start and its end. */
  function FindTag(s: string, from: nat, closing: bool): (r: Option<(nat, nat)>)
    requires from <= |s|
    ensures r.Some? ==> from <= r.value.0 <= |s| && TagAt(s, r.value.0, closing) == Some(r.value.1)
    ensures r.Some? ==> forall k :: from <= k < r.value.0 ==> TagAt(s, k, closing).None?
    ensures r.None? ==> forall k :: from <= k <= |s| ==> TagAt(s, k, closing).None?
    decreases |s| - from
  {
    match TagAt(s, from, closing)
    case Some(e) => Some((from, e))
    case None => if from == |s| then None else FindTag(s, from + 1, closing)
  }

  /** `html.replace(/(<\s*?head\s*?>)/, '$1' + text)`: `text` right after the first opening head tag. */
  function InsertAfterHead(html: string, text: string): (r: string)
    ensures FindTag(html, 0, false).None? ==> r == html
    ensures FindTag(html, 0, false).Some? ==> var e := FindTag(html, 0, false).value.1;
      |r| == |html| + |text| && r[..e] == html[..e] && r[e..e + |text|] == text && r[e + |text|..] == html[e..]
  {
    match FindTag(html, 0, false)
    case None => html
    case Some((_, e)) => html[..e] + text + html[e..]
  }

  /** `html.replace(/(<\/[\s]*?head[\s]*?>)/, text + '$1')`: `text` right before the first closing head tag. */
  function InsertBeforeClosingHead(html: string, text: string): (r: string)
    ensures FindTag(html, 0, true).None? ==> r == html
    ensures FindTag(html, 0, true).Some? ==> var i := FindTag(html, 0, true).value.0;
      |r| == |html| + |text| && r[..i] == html[..i] && r[i..i + |text|] == text && r[i + |text|..] == html[i..]
  {
    match FindTag(html, 0, true)
    case None => html
    case Some((i, _)) => html[..i] + text + html[i..]
  }

  /** A tag with no tag before it is the one `FindTag` finds. */
  lemma FindTagLeftmost(s: string, i: nat, e: nat, closing: bool)
    requires i <= |s| && TagAt(s, i, closing) == Some(e)
    requires forall k :: 0 <= k < i ==> TagAt(s, k, closing).None?
    ensures FindTag(s, 0, closing) == Some((i, e))
  {
  }

  /**
   * A string that agrees with `s` up to the end `e` of a tag at `i` has no tag before `i` where `s`
   * has none: such a tag would end at or before the `>` at `e - 1`, inside the common prefix.
   */
  lemma NoEarlierTag(s: string, t: string, i: nat, e: nat, k: nat)
    requires k < i < e <= |s| && e <= |t| && s[e - 1] == '>' && forall p :: i <= p < e - 1 ==> s[p] != '>'
    requires forall p :: 0 <= p < e ==> t[p] == s[p]
    requires TagAt(s, k, false).None?
    ensures TagAt(t, k, false).None?
  {
    if TagAt(t, k, false).Some? {
      var e' := TagAt(t, k, false).value;
      TagShape(t, k, false);
      assert t[e - 1] == '>';
      TagLocal(t, s, k, false);
    }
  }

  /** Text inserted right after the first opening head tag leaves that tag the first one. */
  lemma FirstHeadStable(html: string, text: string)
    requires FindTag(html, 0, false).Some?
    ensures var e := FindTag(html, 0, false).value.1;
      FindTag(html[..e] + text + html[e..], 0, false) == FindTag(html, 0, false)
  {
    var (i, e) := FindTag(html, 0, false).value;
    var t := html[..e] + text + html[e..];
    TagShape(html, i, false);
    assert forall p :: 0 <= p < e ==> t[p] == html[p];
    TagLocal(html, t, i, false);
    forall k | 0 <= k < i ensures TagAt(t, k, false).None? {
      NoEarlierTag(html, t, i, e, k);
    }
    FindTagLeftmost(t, i, e, false);
  }

  /** Splicing at the same place twice puts the second text before the first. */
  lemma SpliceTwice(s: string, e: nat, first: string, second: string)
    requires e <= |s|
    ensures var h := s[..e] + first + s[e..];
      e <= |h| && h[..e] + second + h[e..] == s[..e] + second + first + s[e..]
  {
    var h := s[..e] + first + s[e..];
    assert h[..e] == s[..e];
    assert h[e..] == first + s[e..];
  }

  /** Two insertions after the first opening head tag: the later one ends up first. */
  lemma InsertAfterHeadTwice(html: string, first: string, second: string)
    requires FindTag(html, 0, false).Some?
    ensures var e := FindTag(html, 0, false).value.1;
      InsertAfterHead(InsertAfterHead(html, first), second) == html[..e] + second + first + html[e..]
  {
    var e := FindTag(html, 0, false).value.1;
    var h1 := html[..e] + first + html[e..];
    assert InsertAfterHead(html, first) == h1;
    FirstHeadStable(html, first);
    assert InsertAfterHead(h1, second) == h1[..e] + second + h1[e..];
    SpliceTwice(html, e, first, second);
  }
}
