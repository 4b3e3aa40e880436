/**
 * How the chat handler turns a message into a prompt (src/index.ts):
 * `message.content.replace(/<@!?\d+>/, '').trim()`.
 */
module Prompt {
  import opened Wrappers

  predicate IsDigit(c: char)
  {
    '0' <= c <= '9'
  }

  /** A whole match of the pattern `<@!?\d+>`: a user mention token. */
  predicate IsMention(t: string)
  {
    |t| >= 4 && t[0] == '<' && t[1] == '@' && t[|t| - 1] == '>' &&
    var digits := if t[2] == '!' then t[3..|t| - 1] else t[2..|t| - 1];
    |digits| > 0 && forall j :: 0 <= j < |digits| ==> IsDigit(digits[j])
  }

  /** The end of the run of digits that starts at `i`. */
  function DigitRunEnd(s: string, i: nat): (k: nat)
    requires i <= |s|
    ensures i <= k <= |s|
    ensures forall j :: i <= j < k ==> IsDigit(s[j])
    ensures k < |s| ==> !IsDigit(s[k])
    decreases |s| - i
  {
    if i < |s| && IsDigit(s[i]) then DigitRunEnd(s, i + 1) else i
  }

  /**
   * The end of the match of `<@!?\d+>` that starts at `i`, if there is one. The
   * match is unique: `\d+` is greedy and a digit is never `>`.
   */
  function MentionAt(s: string, i: nat): (m: Option<nat>)
    requires i <= |s|
    ensures m.Some? ==> i < m.value <= |s| && IsMention(s[i..m.value])
  {
    if i + 1 < |s| && s[i] == '<' && s[i + 1] == '@' then
      var start := if i + 2 < |s| && s[i + 2] == '!' then i + 3 else i + 2;
      var k := DigitRunEnd(s, start);
      if start < k < |s| && s[k] == '>' then
        MentionAtSound(s, i, start, k);
        Some(k + 1)
      else None
    else None
  }

  lemma MentionAtSound(s: string, i: nat, start: nat, k: nat)
    requires i + 1 < |s| && s[i] == '<' && s[i + 1] == '@'
    requires start == if i + 2 < |s| && s[i + 2] == '!' then i + 3 else i + 2
    requires start < k < |s| && s[k] == '>'
    requires forall j :: start <= j < k ==> IsDigit(s[j])
    ensures IsMention(s[i..k + 1])
  {
    var t := s[i..k + 1];
    assert t[2] == s[i + 2];
    var digits := if t[2] == '!' then t[3..|t| - 1] else t[2..|t| - 1];
    assert |digits| == k - start;
    forall p | 0 <= p < |digits|
      ensures IsDigit(digits[p])
    {
      assert digits[p] == s[start + p];
    }
  }

  /** Every match of the pattern at `i` is the one MentionAt finds. */
  lemma MentionAtComplete(s: string, i: nat, j: nat)
    requires i <= j <= |s|
    requires IsMention(s[i..j])
    ensures MentionAt(s, i) == Some(j)
  {
    var t := s[i..j];
    assert t[2] == s[i + 2];
    var start := if s[i + 2] == '!' then i + 3 else i + 2;
    var digits := if t[2] == '!' then t[3..|t| - 1] else t[2..|t| - 1];
    assert |digits| == j - 1 - start;
    forall p | start <= p < j - 1
      ensures IsDigit(s[p])
    {
      assert digits[p - start] == t[p - i] == s[p];
    }
    var k := DigitRunEnd(s, start);
    assert s[j - 1] == t[|t| - 1];
    assert k == j - 1;
  }

  /** The leftmost match at or after `i`, as (start, end). */
  function FirstMention(s: string, i: nat): (m: Option<(nat, nat)>)
    requires i <= |s|
    ensures m.Some? ==> i <= m.value.0 <= |s| && MentionAt(s, m.value.0) == Some(m.value.1)
    ensures m.Some? ==> forall k :: i <= k < m.value.0 ==> MentionAt(s, k).None?
    ensures m.None? ==> forall k :: i <= k <= |s| ==> MentionAt(s, k).None?
    decreases |s| - i
  {
    if i == |s| then None
    else
      match MentionAt(s, i)
      case Some(e) => Some((i, e))
      case None => FirstMention(s, i + 1)
  }

  /**
   * `replace(/<@!?\d+>/, '')`: the pattern has no `g` flag, so only the leftmost
   * match goes. The text changes exactly when it holds a match, and then it
   * loses at least the four characters of the shortest token.
   */
  function StripFirstMention(s: string): (r: string)
    ensures r == s <==> FirstMention(s, 0).None?
    ensures r != s ==> |r| <= |s| - 4
  {
    match FirstMention(s, 0)
    case Some((a, b)) => s[..a] + s[b..]
    case None => s
  }

  /** The characters `String.prototype.trim` removes: ECMAScript WhiteSpace and LineTerminator. */
  predicate IsSpace(c: char)
  {
    c == '\t' || c == '\n' || c == '\U{000B}' || c == '\U{000C}' || c == '\r' || c == ' '
    || c == '\U{00A0}' || c == '\U{1680}' || ('\U{2000}' <= c <= '\U{200A}')
    || c == '\U{2028}' || c == '\U{2029}' || c == '\U{202F}' || c == '\U{205F}'
    || c == '\U{3000}' || c == '\U{FEFF}'
  }

  function LeadingSpaces(s: string): (n: nat)
    ensures n <= |s|
    ensures forall j :: 0 <= j < n ==> IsSpace(s[j])
    ensures n < |s| ==> !IsSpace(s[n])
  {
    if s != [] && IsSpace(s[0]) then 1 + LeadingSpaces(s[1..]) else 0
  }

  function TrailingSpaces(s: string): (n: nat)
    ensures n <= |s|
    ensures forall j :: |s| - n <= j < |s| ==> IsSpace(s[j])
    ensures n < |s| ==> !IsSpace(s[|s| - 1 - n])
  {
    if s != [] && IsSpace(s[|s| - 1]) then 1 + TrailingSpaces(s[..|s| - 1]) else 0
  }

  /**
   * `trim()`: what is left once the leading and the trailing spaces are cut; it
   * is empty exactly when every character is a space.
   */
  function Trim(s: string): (r: string)
    ensures r == [] <==> forall j :: 0 <= j < |s| ==> IsSpace(s[j])
    ensures r != [] ==> !IsSpace(r[0]) && !IsSpace(r[|r| - 1])
    ensures LeadingSpaces(s) + |r| <= |s| && r == s[LeadingSpaces(s)..LeadingSpaces(s) + |r|]
    ensures forall j :: LeadingSpaces(s) + |r| <= j < |s| ==> IsSpace(s[j])
  {
    var a, e := LeadingSpaces(s), |s| - TrailingSpaces(s);
    if a < e then s[a..e] else []
  }

  /** A slice that ends in a non-space cannot reach into a run of trailing spaces. */
  lemma EndsBeforeSpaces(s: string, a: nat, n: nat, m: nat)
    requires a + n <= |s| && a + m <= |s|
    requires forall j :: a + n <= j < |s| ==> IsSpace(s[j])
    requires m > 0 ==> !IsSpace(s[a + m - 1])
    ensures m <= n
  {
  }

  /**
   * Trim's contract leaves no choice: the slice after the leading spaces that
   * ends in a non-space and leaves only spaces behind it is `trim()`'s result.
   */
  lemma TrimDetermined(s: string, n: nat)
    requires LeadingSpaces(s) + n <= |s|
    requires forall j :: LeadingSpaces(s) + n <= j < |s| ==> IsSpace(s[j])
    requires n > 0 ==> !IsSpace(s[LeadingSpaces(s) + n - 1])
    ensures n == |Trim(s)| && s[LeadingSpaces(s)..LeadingSpaces(s) + n] == Trim(s)
  {
    var a, r := LeadingSpaces(s), Trim(s);
    assert |r| > 0 ==> !IsSpace(s[a + |r| - 1]) by {
      assert |r| > 0 ==> r[|r| - 1] == s[a + |r| - 1];
    }
    EndsBeforeSpaces(s, a, |r|, n);
    EndsBeforeSpaces(s, a, n, |r|);
  }

  /**
   * The prompt the handler works with: the message without its first mention
   * token, with the whitespace around it cut, and empty exactly when nothing
   * but whitespace is left.
   */
  function ExtractPrompt(content: string): (r: string)
    ensures var m := StripFirstMention(content);
      LeadingSpaces(m) + |r| <= |m| && r == m[LeadingSpaces(m)..LeadingSpaces(m) + |r|]
    ensures var m := StripFirstMention(content); forall j :: LeadingSpaces(m) + |r| <= j < |m| ==> IsSpace(m[j])
    ensures var m := StripFirstMention(content); r == [] <==> forall j :: 0 <= j < |m| ==> IsSpace(m[j])
    ensures r != [] ==> !IsSpace(r[0]) && !IsSpace(r[|r| - 1])
  {
    var m := StripFirstMention(content);
    Trim(m)
  }

  /** A message with a match loses exactly the leftmost match, and nothing else. */
  lemma StripRemovesLeftmost(s: string, a: nat, b: nat)
    requires a <= b <= |s| && IsMention(s[a..b])
    requires forall k, j :: 0 <= k < a && k <= j <= |s| ==> !IsMention(s[k..j])
    ensures StripFirstMention(s) == s[..a] + s[b..]
  {
    MentionAtComplete(s, a, b);
    var m := FirstMention(s, 0);
    assert m.Some? && m.value.0 <= a;
    var e := MentionAt(s, m.value.0).value;
    assert IsMention(s[m.value.0..e]);
    assert m.value == (a, b);
  }

  /** A message without a match is left as it is. */
  lemma StripWithoutMention(s: string)
    requires forall k, j :: 0 <= k <= j <= |s| ==> !IsMention(s[k..j])
    ensures StripFirstMention(s) == s
  {
  }
}
