/**
 * The string operations that clean an extractor's reply: removing code
 * fences, `String.prototype.trim`, the greedy bracket span that
 * `text.match(/\{[\s\S]*\}|\[[\s\S]*\]/)` finds, and the `split` calls the
 * handlers use on URLs and mimetypes.
 */
module Text {
  import opened Results

  predicate StartsWith(s: string, p: string) {
    |p| <= |s| && s[..|p|] == p
  }

  /** The characters `trim` removes: ECMAScript WhiteSpace and LineTerminator. */
  predicate IsSpace(c: char) {
    c == '\t' || c == '\n' || c == '\U{B}' || c == '\U{C}' || c == '\r' || c == ' '
    || c == '\U{A0}' || c == '\U{1680}' || ('\U{2000}' <= c <= '\U{200A}')
    || c == '\U{2028}' || c == '\U{2029}' || c == '\U{202F}' || c == '\U{205F}'
    || c == '\U{3000}' || c == '\U{FEFF}'
  }

  predicate AllSpace(s: string) {
    forall i :: 0 <= i < |s| ==> IsSpace(s[i])
  }

  /** The first position at or after i that does not hold white space (|s| when there is none). */
  function SkipSpace(s: string, i: nat): (n: nat)
    requires i <= |s|
    ensures i <= n <= |s|
    ensures forall j :: i <= j < n ==> IsSpace(s[j])
    ensures n == |s| || !IsSpace(s[n])
    decreases |s| - i
  {
    if i < |s| && IsSpace(s[i]) then SkipSpace(s, i + 1) else i
  }

  /** The position right after the last non-space before i (0 when there is none). */
  function SkipSpaceBack(s: string, i: nat): (n: nat)
    requires i <= |s|
    ensures n <= i
    ensures forall j :: n <= j < i ==> IsSpace(s[j])
    ensures n == 0 || !IsSpace(s[n - 1])
  {
    if i > 0 && IsSpace(s[i - 1]) then SkipSpaceBack(s, i - 1) else i
  }

  /** Leading white space removed: r is the suffix of s that starts at its first non-space. */
  function TrimStart(s: string): (r: string)
    ensures |r| <= |s| && r == s[|s| - |r|..]
    ensures AllSpace(s[..|s| - |r|])
    ensures r == [] || !IsSpace(r[0])
  {
    s[SkipSpace(s, 0)..]
  }

  /** Trailing white space removed: r is the prefix of s that ends at its last non-space. */
  function TrimEnd(s: string): (r: string)
    ensures |r| <= |s| && r == s[..|r|]
    ensures AllSpace(s[|r|..])
    ensures r == [] || !IsSpace(r[|r| - 1])
  {
    s[..SkipSpaceBack(s, |s|)]
  }

  /** The leading white space of s is exactly its first n characters. */
  lemma TrimStartAt(s: string, n: nat)
    requires n <= |s| && (forall j :: 0 <= j < n ==> IsSpace(s[j])) && (n == |s| || !IsSpace(s[n]))
    ensures TrimStart(s) == s[n..]
  {
    var m := SkipSpace(s, 0);
    assert m <= n by {
      assert m == |s| || !IsSpace(s[m]);
    }
    assert n <= m by {
      assert n == |s| || !IsSpace(s[n]);
    }
  }

  /** The trailing white space of s is exactly what follows position n. */
  lemma TrimEndAt(s: string, n: nat)
    requires n <= |s| && (forall j :: n <= j < |s| ==> IsSpace(s[j])) && (n == 0 || !IsSpace(s[n - 1]))
    ensures TrimEnd(s) == s[..n]
  {
    var m := SkipSpaceBack(s, |s|);
    assert m <= n by {
      assert m == 0 || !IsSpace(s[m - 1]);
    }
    assert n <= m by {
      assert n == 0 || !IsSpace(s[n - 1]);
    }
  }

  function Trim(s: string): string {
    TrimEnd(TrimStart(s))
  }

  /** Trimming removes exactly the white space around s: what is left neither starts nor ends with it. */
  lemma TrimShape(s: string)
    ensures var r := Trim(s);
      exists i :: 0 <= i <= i + |r| <= |s| && r == s[i..i + |r|]
        && AllSpace(s[..i]) && AllSpace(s[i + |r|..])
        && (r == [] || (!IsSpace(r[0]) && !IsSpace(r[|r| - 1])))
  {
    var i := |s| - |TrimStart(s)|;
    TrimShapeAt(s, i);
  }

  lemma TrimShapeAt(s: string, i: nat)
    requires i == |s| - |TrimStart(s)|
    ensures var r := Trim(s);
      i + |r| <= |s| && r == s[i..i + |r|] && AllSpace(s[..i]) && AllSpace(s[i + |r|..])
      && (r == [] || (!IsSpace(r[0]) && !IsSpace(r[|r| - 1])))
  {
    TrimSlice(s, i);
    TrimTail(s, i);
    TrimEnds(s);
  }

  lemma TrimSlice(s: string, i: nat)
    requires i == |s| - |TrimStart(s)|
    ensures i + |Trim(s)| <= |s| && Trim(s) == s[i..i + |Trim(s)|]
  {
    var t := TrimStart(s);
    var r := TrimEnd(t);
    assert t == s[i..];
    assert r == t[..|r|];
  }

  lemma TrimTail(s: string, i: nat)
    requires i == |s| - |TrimStart(s)| && i + |Trim(s)| <= |s|
    ensures AllSpace(s[i + |Trim(s)|..])
  {
    var t := TrimStart(s);
    var r := TrimEnd(t);
    assert t == s[i..];
    assert s[i + |r|..] == t[|r|..];
  }

  lemma TrimEnds(s: string)
    ensures var r := Trim(s); r == [] || (!IsSpace(r[0]) && !IsSpace(r[|r| - 1]))
  {
    var t := TrimStart(s);
    var r := TrimEnd(t);
    if r != [] {
      assert r[0] == t[0];
    }
  }

  lemma TrimStartNoLead(s: string)
    requires s == [] || !IsSpace(s[0])
    ensures TrimStart(s) == s
  {
    TrimStartAt(s, 0);
  }

  /** A text with no space at either end is its own trim. */
  lemma TrimOfUnpadded(s: string)
    requires |s| >= 1 && !IsSpace(s[0]) && !IsSpace(s[|s| - 1])
    ensures Trim(s) == s
  {
    TrimStartNoLead(s);
  }

  /** Trimming twice is trimming once. */
  lemma TrimIdempotent(s: string)
    ensures Trim(Trim(s)) == Trim(s)
  {
    var r := Trim(s);
    var t := TrimStart(s);
    if r != [] {
      assert r[0] == t[0];
    }
    assert TrimStart(r) == r;
  }

  /** White space added after a text does not survive trimming. */
  lemma TrimEndPadded(s: string, pad: string)
    requires AllSpace(pad)
    ensures TrimEnd(s + pad) == TrimEnd(s)
  {
    var n := SkipSpaceBack(s, |s|);
    assert forall j :: n <= j < |s + pad| ==> IsSpace((s + pad)[j]) by {
      forall j | n <= j < |s + pad|
        ensures IsSpace((s + pad)[j])
      {
        if j >= |s| {
          assert (s + pad)[j] == pad[j - |s|];
        }
      }
    }
    TrimEndAt(s + pad, n);
    assert (s + pad)[..n] == s[..n];
  }

  /** White space put before a text does not survive trimming. */
  lemma TrimStartPadded(s: string, pad: string)
    requires AllSpace(pad)
    ensures TrimStart(pad + s) == TrimStart(s)
  {
    var n := |pad| + SkipSpace(s, 0);
    assert forall j :: 0 <= j < n ==> IsSpace((pad + s)[j]) by {
      forall j | 0 <= j < n
        ensures IsSpace((pad + s)[j])
      {
        if j >= |pad| {
          assert (pad + s)[j] == s[j - |pad|];
        }
      }
    }
    TrimStartAt(pad + s, n);
    assert (pad + s)[n..] == s[SkipSpace(s, 0)..];
  }

  /**
   * `s.replace(/<fence>\n?/g, '')`: every occurrence of the fence, found left
   * to right, is removed together with one line feed right after it.
   */
  function RemoveFence(s: string, fence: string): (r: string)
    requires fence != []
    ensures |r| <= |s|
    decreases |s|
  {
    if StartsWith(s, fence) then
      var rest := s[|fence|..];
      RemoveFence(if rest != [] && rest[0] == '\n' then rest[1..] else rest, fence)
    else if s == [] then []
    else [s[0]] + RemoveFence(s[1..], fence)
  }

  /** `.replace(/```json\n?/g, '').replace(/```\n?/g, '')` */
  function StripFences(s: string): string {
    RemoveFence(RemoveFence(s, "```json"), "```")
  }

  /** Text before the first back-quote is kept as it is. */
  lemma {:induction false} RemoveFenceKeepsPlain(a: string, b: string, fence: string)
    requires fence != [] && fence[0] == '`' && '`' !in a
    ensures RemoveFence(a + b, fence) == a + RemoveFence(b, fence)
    decreases |a|
  {
    if a != [] {
      assert a[0] in a;
      assert (a + b)[0] == a[0] != fence[0];
      assert !StartsWith(a + b, fence);
      assert (a + b)[1..] == a[1..] + b;
      assert '`' !in a[1..];
      RemoveFenceKeepsPlain(a[1..], b, fence);
      assert a == [a[0]] + a[1..];
    } else {
      assert a + b == b;
    }
  }

  /** Text without back-quotes has no fence to remove. */
  lemma StripFencesPlain(s: string)
    requires '`' !in s
    ensures StripFences(s) == s
  {
    RemoveFenceKeepsPlain(s, [], "```json");
    RemoveFenceKeepsPlain(s, [], "```");
    assert s + [] == s;
  }

  lemma OpeningFenceRemoved(x: string)
    ensures RemoveFence("```json\n" + x, "```json") == RemoveFence(x, "```json")
  {
    var s := "```json\n" + x;
    assert s[..7] == "```json";
    assert s[7..][1..] == x;
  }

  lemma ClosingFenceKept()
    ensures RemoveFence("\n```", "```json") == "\n```"
  {
    assert "\n```"[1..] == "```";
    assert "```"[1..] == "``";
    assert "``"[1..] == "`";
    assert "`"[1..] == [];
  }

  lemma ClosingFenceRemoved()
    ensures RemoveFence("\n```", "```") == "\n"
  {
    var t := "\n```";
    assert t[..3][0] == '\n';
    assert t[1..] == "```";
    assert "```"[..3] == "```";
    assert "```"[3..] == [];
  }

  /** The usual wrapped reply: "```json\n" + body + "\n```" cleans down to the trimmed body. */
  lemma StripFencedBlock(body: string)
    requires '`' !in body
    ensures Trim(StripFences("```json\n" + body + "\n```")) == Trim(body)
  {
    assert "```json\n" + body + "\n```" == "```json\n" + (body + "\n```");
    OpeningFenceRemoved(body + "\n```");
    ClosingFenceKept();
    RemoveFenceKeepsPlain(body, "\n```", "```json");
    RemoveFenceKeepsPlain(body, "\n```", "```");
    ClosingFenceRemoved();
    assert StripFences("```json\n" + body + "\n```") == body + "\n";
    TrimOfLineEnd(body);
  }

  /** Three back-quotes in a row start at position i of s. */
  predicate TripleAt(s: string, i: nat)
    requires i + 3 <= |s|
  {
    s[i] == '`' && s[i + 1] == '`' && s[i + 2] == '`'
  }

  /** Nowhere in s do three back-quotes follow each other, so no fence can match. */
  predicate NoFence(s: string) {
    forall i :: 0 <= i && i + 3 <= |s| ==> !TripleAt(s, i)
  }

  lemma NoFenceSlice(s: string, a: nat, b: nat)
    requires a <= b <= |s| && NoFence(s)
    ensures NoFence(s[a..b])
  {
    forall i | 0 <= i && i + 3 <= b - a
      ensures !TripleAt(s[a..b], i)
    {
      assert !TripleAt(s, a + i);
    }
  }

  lemma NoFenceCons(x: char, t: string)
    requires NoFence(t) && !(x == '`' && |t| >= 2 && t[0] == '`' && t[1] == '`')
    ensures NoFence([x] + t)
  {
    var s := [x] + t;
    forall i | 0 <= i && i + 3 <= |s|
      ensures !TripleAt(s, i)
    {
      if i > 0 {
        assert !TripleAt(t, i - 1);
      }
    }
  }

  /** A text that does not start with a back-quote keeps its first character. */
  lemma RemoveFenceHead(t: string)
    requires t != [] && t[0] != '`'
    ensures RemoveFence(t, "```") == [t[0]] + RemoveFence(t[1..], "```")
  {
    assert !StartsWith(t, "```") by {
      if |t| >= 3 {
        assert t[..3][0] == t[0];
      }
    }
  }

  /**
   * After `replace(/```\n?/g, '')` no three back-quotes follow each other:
   * a back-quote that is kept is never followed by two more that are kept.
   */
  lemma {:induction false} RemovedFencesGone(s: string)
    ensures NoFence(RemoveFence(s, "```"))
    decreases |s|
  {
    if StartsWith(s, "```") {
      var rest := s[3..];
      RemovedFencesGone(if rest != [] && rest[0] == '\n' then rest[1..] else rest);
    } else if s != [] {
      var tail := RemoveFence(s[1..], "```");
      RemovedFencesGone(s[1..]);
      assert RemoveFence(s, "```") == [s[0]] + tail;
      if s[0] == '`' && |s| >= 2 {
        if s[1] != '`' {
          RemoveFenceHead(s[1..]);
        } else {
          assert |s| == 2 || s[2] != '`' by {
            if |s| >= 3 {
              assert s[..3] == [s[0], s[1], s[2]];
            }
          }
          assert !StartsWith(s[1..], "```");
          assert tail == [s[1]] + RemoveFence(s[2..], "```");
          if |s| > 2 {
            RemoveFenceHead(s[2..]);
          } else {
            assert s[2..] == [];
          }
        }
      } else if s[0] == '`' {
        assert s[1..] == [];
      }
      NoFenceCons(s[0], tail);
    }
  }

  /** A text without three back-quotes in a row passes a fence removal unchanged. */
  lemma {:induction false} RemoveFenceNoFence(s: string, fence: string)
    requires |fence| >= 3 && fence[0] == '`' && fence[1] == '`' && fence[2] == '`' && NoFence(s)
    ensures RemoveFence(s, fence) == s
    decreases |s|
  {
    if s != [] {
      if |s| >= 3 {
        assert !TripleAt(s, 0);
      }
      assert !StartsWith(s, fence) by {
        if |fence| <= |s| {
          assert s[..|fence|][0] == s[0] && s[..|fence|][1] == s[1] && s[..|fence|][2] == s[2];
        }
      }
      NoFenceSlice(s, 1, |s|);
      assert s[1..|s|] == s[1..];
      RemoveFenceNoFence(s[1..], fence);
      assert s == [s[0]] + s[1..];
    }
  }

  lemma NoFenceTrim(s: string)
    requires NoFence(s)
    ensures NoFence(Trim(s))
  {
    var i := |s| - |TrimStart(s)|;
    TrimShapeAt(s, i);
    NoFenceSlice(s, i, i + |Trim(s)|);
  }

  lemma NoFenceSpan(t: string, arrays: bool)
    requires NoFence(t)
    ensures NoFence(ExtractSpan(t, arrays))
  {
    if FirstOpen(t, 0, arrays).Some? {
      var p := FirstOpen(t, 0, arrays).value;
      NoFenceSlice(t, p, SpanEnd(t, p, arrays) + 1);
    }
  }

  /** The fence removal leaves no fence behind, and a second removal changes nothing. */
  lemma StripFencesTwice(s: string)
    ensures NoFence(StripFences(s))
    ensures StripFences(StripFences(s)) == StripFences(s)
  {
    var t := StripFences(s);
    RemovedFencesGone(RemoveFence(s, "```json"));
    RemoveFenceNoFence(t, "```json");
    RemoveFenceNoFence(t, "```");
  }

  lemma TrimOfLineEnd(body: string)
    ensures Trim(body + "\n") == Trim(body)
  {
    if AllSpace(body) {
      AllSpaceTrimsToEmpty(body + "\n");
      AllSpaceTrimsToEmpty(body);
    } else {
      TrimStartAppend(body, "\n");
      TrimEndPadded(TrimStart(body), "\n");
    }
  }

  lemma AllSpaceTrimsToEmpty(s: string)
    requires AllSpace(s)
    ensures Trim(s) == []
  {
    TrimStartAt(s, |s|);
  }

  /** Once a non-space has been met, what follows is kept as it is. */
  lemma TrimStartAppend(s: string, t: string)
    requires !AllSpace(s)
    ensures TrimStart(s + t) == TrimStart(s) + t
  {
    var n := SkipSpace(s, 0);
    assert (s + t)[n] == s[n];
    TrimStartAt(s + t, n);
    assert (s + t)[n..] == s[n..] + t;
  }

  /** Some position after p holds c. */
  predicate HasAfter(s: string, p: nat, c: char) {
    exists q :: p < q < |s| && s[q] == c
  }

  /**
   * A match of `\{[\s\S]*\}` can start at p, or, when arrays are searched
   * too, a match of `\[[\s\S]*\]`.
   */
  predicate OpensSpan(s: string, p: nat, arrays: bool)
    requires p < |s|
  {
    (s[p] == '{' && HasAfter(s, p, '}')) || (arrays && s[p] == '[' && HasAfter(s, p, ']'))
  }

  function CloserOf(c: char): char {
    if c == '{' then '}' else ']'
  }

  /** The last position of s holding c, or -1. */
  function LastIndex(s: string, c: char): (r: int)
    ensures -1 <= r < |s|
    ensures r >= 0 ==> s[r] == c
    ensures forall q :: r < q < |s| ==> s[q] != c
  {
    if s == [] then -1
    else if s[|s| - 1] == c then |s| - 1
    else LastIndex(s[..|s| - 1], c)
  }

  /** The leftmost position, from `from` on, where a match can start. */
  function FirstOpen(s: string, from: nat, arrays: bool): (r: Option<nat>)
    requires from <= |s|
    ensures r.None? ==> forall p :: from <= p < |s| ==> !OpensSpan(s, p, arrays)
    ensures r.Some? ==> from <= r.value < |s| && OpensSpan(s, r.value, arrays)
    ensures r.Some? ==> forall p :: from <= p < r.value ==> !OpensSpan(s, p, arrays)
    decreases |s| - from
  {
    if from == |s| then None
    else if OpensSpan(s, from, arrays) then Some(from)
    else FirstOpen(s, from + 1, arrays)
  }

  /** Where the greedy match that starts at an opening bracket p ends: the last matching closer. */
  function SpanEnd(s: string, p: nat, arrays: bool): (q: nat)
    requires p < |s| && OpensSpan(s, p, arrays)
    ensures p < q < |s| && s[q] == CloserOf(s[p])
    ensures forall k :: q < k < |s| ==> s[k] != CloserOf(s[p])
  {
    var c := CloserOf(s[p]);
    assert HasAfter(s, p, c);
    var w :| p < w < |s| && s[w] == c;
    LastIndex(s, c)
  }

  /**
   * `const m = text.match(re); if (m) text = m[0]`: the leftmost, greedy
   * bracket span, or the text unchanged when there is none.
   */
  function ExtractSpan(s: string, arrays: bool): (r: string)
    ensures FirstOpen(s, 0, arrays).None? ==> r == s
    ensures FirstOpen(s, 0, arrays).Some? ==>
      var p := FirstOpen(s, 0, arrays).value;
      r == s[p..SpanEnd(s, p, arrays) + 1]
  {
    match FirstOpen(s, 0, arrays)
    case None => s
    case Some(p) => s[p..SpanEnd(s, p, arrays) + 1]
  }

  /** A span that was found starts with an opening bracket and ends with a closing one. */
  lemma SpanBrackets(s: string, arrays: bool)
    requires FirstOpen(s, 0, arrays).Some?
    ensures var r := ExtractSpan(s, arrays);
      |r| >= 2 && (r[0] == '{' || r[0] == '[') && (r[|r| - 1] == '}' || r[|r| - 1] == ']')
  {
    var p := FirstOpen(s, 0, arrays).value;
    var q := SpanEnd(s, p, arrays);
    var r := s[p..q + 1];
    assert r[0] == s[p];
    assert r[|r| - 1] == s[q];
  }

  /** When no bracket opens a span, the text is unchanged. */
  lemma SpanAbsent(s: string, arrays: bool)
    requires forall p :: 0 <= p < |s| ==> !OpensSpan(s, p, arrays)
    ensures ExtractSpan(s, arrays) == s
  {
  }

  /**
   * When some bracket opens a span, the result starts at the leftmost such
   * bracket, ends at the last matching closer of the text, and is at least
   * the two brackets long.
   */
  lemma SpanShape(s: string, arrays: bool, p0: nat)
    requires p0 < |s| && OpensSpan(s, p0, arrays)
    ensures var r := ExtractSpan(s, arrays);
      exists p, q :: 0 <= p <= p0 && p < q < |s| && r == s[p..q + 1]
        && OpensSpan(s, p, arrays) && s[q] == CloserOf(s[p])
        && (forall k :: 0 <= k < p ==> !OpensSpan(s, k, arrays))
        && (forall k :: q < k < |s| ==> s[k] != s[q])
  {
    var p := FirstOpen(s, 0, arrays).value;
    var q := SpanEnd(s, p, arrays);
    assert ExtractSpan(s, arrays) == s[p..q + 1];
  }

  /** A text that already is one bracketed span is returned whole. */
  lemma SpanOfBracketed(t: string, arrays: bool)
    requires |t| >= 2
    requires (t[0] == '{' && t[|t| - 1] == '}') || (arrays && t[0] == '[' && t[|t| - 1] == ']')
    ensures ExtractSpan(t, arrays) == t
  {
    assert OpensSpan(t, 0, arrays) by {
      assert t[|t| - 1] == CloserOf(t[0]);
    }
    assert FirstOpen(t, 0, arrays) == Some(0);
    var q := SpanEnd(t, 0, arrays);
    assert q == |t| - 1;
    assert t[0..|t|] == t;
  }

  /** Extracting the span a second time changes nothing. */
  lemma SpanIdempotent(s: string, arrays: bool)
    ensures ExtractSpan(ExtractSpan(s, arrays), arrays) == ExtractSpan(s, arrays)
  {
    if FirstOpen(s, 0, arrays).Some? {
      var p := FirstOpen(s, 0, arrays).value;
      var q := SpanEnd(s, p, arrays);
      var t := s[p..q + 1];
      assert t[0] == s[p] && t[|t| - 1] == s[q];
      SpanOfBracketed(t, arrays);
    }
  }

  /** Without arrays, a text that changes is cut down to an object span. */
  lemma SpanObjectsOnly(s: string)
    ensures var r := ExtractSpan(s, false);
      r == s || (|r| >= 2 && r[0] == '{' && r[|r| - 1] == '}')
  {
  }

  /** `s.split(c)[0]`: the text before the first c, or all of s. */
  function BeforeFirst(s: string, c: char): (r: string)
    ensures |r| <= |s| && r == s[..|r|] && c !in r
    ensures |r| < |s| ==> s[|r|] == c
  {
    if s == [] || s[0] == c then [] else [s[0]] + BeforeFirst(s[1..], c)
  }

  /** The text after the first c, when s holds one. */
  function AfterFirst(s: string, c: char): (r: Option<string>)
    ensures r.None? <==> c !in s
    ensures r.Some? ==> s == BeforeFirst(s, c) + [c] + r.value
  {
    var head := BeforeFirst(s, c);
    if |head| == |s| then None
    else
      assert s == head + [c] + s[|head| + 1..];
      Some(s[|head| + 1..])
  }

  /** `s.split(c)[1]`: the text between the first and the second c, or undefined (None). */
  function SecondField(s: string, c: char): (r: Option<string>)
    ensures r.None? <==> c !in s
    ensures r.Some? ==> c !in r.value && StartsWith(s, BeforeFirst(s, c) + [c] + r.value)
    ensures r.Some? ==>
      var n := |BeforeFirst(s, c)| + 1 + |r.value|;
      n == |s| || (n < |s| && s[n] == c)
  {
    match AfterFirst(s, c)
    case None => None
    case Some(t) =>
      var f := BeforeFirst(t, c);
      assert s == BeforeFirst(s, c) + [c] + t;
      assert (BeforeFirst(s, c) + [c] + f) == s[..|BeforeFirst(s, c)| + 1 + |f|];
      assert |f| < |t| ==> s[|BeforeFirst(s, c)| + 1 + |f|] == t[|f|];
      Some(f)
  }
}
