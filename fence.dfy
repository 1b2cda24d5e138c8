/**
 * Removal of a Markdown code fence around the JSON text returned by the
 * language model, as `parse_currency_query` does it (eraXchange.py:129-132).
 *
 * Python's `str.strip(chars)` removes every leading and every trailing
 * character that belongs to the SET `chars`; it does not remove a literal
 * prefix or suffix. `Strip` below models exactly that, and `StripFence`
 * composes it the way the source does.
 */
module FenceStrip {

  /** The characters for which Python's `str.isspace()` holds; `str.strip()`
      with no argument removes these. */
  const Whitespace: set<char> := {
    '\t', '\n', '\U{000B}', '\U{000C}', '\r',
    '\U{001C}', '\U{001D}', '\U{001E}', '\U{001F}', ' ',
    '\U{0085}', '\U{00A0}', '\U{1680}',
    '\U{2000}', '\U{2001}', '\U{2002}', '\U{2003}', '\U{2004}', '\U{2005}',
    '\U{2006}', '\U{2007}', '\U{2008}', '\U{2009}', '\U{200A}',
    '\U{2028}', '\U{2029}', '\U{202F}', '\U{205F}', '\U{3000}'
  }

  /** The character set of the argument '```json'. */
  const FenceChars: set<char> := {'`', 'j', 's', 'o', 'n'}

  /** The character set of the argument '```'. */
  const Backticks: set<char> := {'`'}

  const OpeningFence: string := "```json"
  const ClosingFence: string := "```"

  predicate StartsWith(s: string, prefix: string) {
    prefix <= s
  }

  predicate EndsWith(s: string, suffix: string) {
    |suffix| <= |s| && s[|s| - |suffix|..] == suffix
  }

  /** Where `s.strip(cs)` starts: the index of the first character of `s`
      outside `cs`, or `|s|` when there is none. */
  function KeptStart(s: string, cs: set<char>, i: nat := 0): (start: nat)
    requires i <= |s|
    requires forall k :: 0 <= k < i ==> s[k] in cs
    ensures i <= start <= |s|
    ensures forall k :: 0 <= k < start ==> s[k] in cs
    ensures start < |s| ==> s[start] !in cs
    decreases |s| - i
  {
    if i < |s| && s[i] in cs then KeptStart(s, cs, i + 1) else i
  }

  /** Where `s.strip(cs)` ends, scanning back from `j` no further than `lo`:
      one past the last character of `s[lo..j]` outside `cs`, or `lo`. */
  function KeptEnd(s: string, cs: set<char>, lo: nat, j: nat): (end: nat)
    requires lo <= j <= |s|
    requires forall k :: j <= k < |s| ==> s[k] in cs
    ensures lo <= end <= j
    ensures forall k :: end <= k < |s| ==> s[k] in cs
    ensures lo < end ==> s[end - 1] !in cs
    decreases j
  {
    if lo < j && s[j - 1] in cs then KeptEnd(s, cs, lo, j - 1) else j
  }

  /** `s.strip(cs)`. */
  function Strip(s: string, cs: set<char>): (r: string)
    ensures |r| <= |s|
    ensures r == [] || (r[0] !in cs && r[|r| - 1] !in cs)
  {
    var start := KeptStart(s, cs);
    s[start..KeptEnd(s, cs, start, |s|)]
  }

  /** Reference description of stripping: `s[i..j]` is what is left when
      everything before `i` and from `j` on belongs to `cs`, and the slice
      neither starts nor ends with a character of `cs`. */
  ghost predicate IsStripped(s: string, cs: set<char>, i: int, j: int) {
    && 0 <= i <= j <= |s|
    && (forall k :: 0 <= k < i ==> s[k] in cs)
    && (forall k :: j <= k < |s| ==> s[k] in cs)
    && (i < j ==> s[i] !in cs && s[j - 1] !in cs)
  }

  /** `Strip` is a slice of its input that meets the reference description. */
  lemma StripIsSlice(s: string, cs: set<char>)
    ensures var i := KeptStart(s, cs);
            var j := KeptEnd(s, cs, i, |s|);
            IsStripped(s, cs, i, j) && Strip(s, cs) == s[i..j]
  {
  }

  /** The reference description determines the result: whatever slice meets
      it is exactly what `Strip` returns. */
  lemma StripExact(s: string, cs: set<char>, i: int, j: int)
    requires IsStripped(s, cs, i, j)
    ensures Strip(s, cs) == s[i..j]
  {
  }

  /** Stripping with a subset of the characters already stripped changes
      nothing. In the source, `.strip('```')` after `.strip('```json')` is
      therefore a no-op. */
  lemma StripSubsetIdle(s: string, cs: set<char>, ds: set<char>)
    requires ds <= cs
    ensures Strip(Strip(s, cs), ds) == Strip(s, cs)
  {
  }

  predicate IsFenced(t: string) {
    StartsWith(t, OpeningFence) && EndsWith(t, ClosingFence)
  }

  /** `json_data` at eraXchange.py:134: the model's reply trimmed, and, when
      it is fenced, stripped of the fence characters and trimmed again. */
  function StripFence(text: string): (r: string)
    ensures r == [] || (r[0] !in Whitespace && r[|r| - 1] !in Whitespace)
    ensures !IsFenced(Strip(text, Whitespace)) ==> r == Strip(text, Whitespace)
  {
    var t := Strip(text, Whitespace);
    if IsFenced(t) then Strip(Strip(Strip(t, FenceChars), Backticks), Whitespace) else t
  }

  /** On a fenced reply the backtick pass is redundant: the result is the
      whitespace-trimmed text with the fence characters stripped, then
      trimmed again. */
  lemma FencedIsTwoPasses(text: string)
    requires IsFenced(Strip(text, Whitespace))
    ensures StripFence(text) == Strip(Strip(Strip(text, Whitespace), FenceChars), Whitespace)
  {
    StripSubsetIdle(Strip(text, Whitespace), FenceChars, Backticks);
  }

  /** Stripping the fence letters from a fenced text removes the fence
      together with whatever the same strip removes from the text between
      the fences, and nothing else. */
  lemma FenceLettersStrip(m: string, i: int, j: int)
    requires IsStripped(m, FenceChars, i, j)
    ensures Strip(OpeningFence + m + ClosingFence, FenceChars) == m[i..j]
  {
    var t := OpeningFence + m + ClosingFence;
    forall k | 0 <= k < 7 + i ensures t[k] in FenceChars {
      if k < 7 { assert t[k] == OpeningFence[k]; } else { assert t[k] == m[k - 7]; }
    }
    forall k | 7 + j <= k < |t| ensures t[k] in FenceChars {
      if k < 7 + |m| { assert t[k] == m[k - 7]; }
      else { assert t[k] == ClosingFence[k - 7 - |m|]; }
    }
    assert t[7 + i..7 + j] == m[i..j];
    StripExact(t, FenceChars, 7 + i, 7 + j);
  }

  /** The same, for a text given as fence, fence letters, body, fence
      letters, fence. */
  lemma FenceLettersAround(lead: string, body: string, trail: string)
    requires forall k :: 0 <= k < |lead| ==> lead[k] in FenceChars
    requires forall k :: 0 <= k < |trail| ==> trail[k] in FenceChars
    requires body == [] || (body[0] !in FenceChars && body[|body| - 1] !in FenceChars)
    ensures Strip(OpeningFence + lead + body + trail + ClosingFence, FenceChars) == body
  {
    var m := lead + body + trail;
    assert OpeningFence + lead + body + trail + ClosingFence == OpeningFence + m + ClosingFence;
    forall k | 0 <= k < |lead| ensures m[k] in FenceChars {
      assert m[k] == lead[k];
    }
    forall k | |lead| + |body| <= k < |m| ensures m[k] in FenceChars {
      assert m[k] == trail[k - |lead| - |body|];
    }
    assert m[|lead|..|lead| + |body|] == body;
    FenceLettersStrip(m, |lead|, |lead| + |body|);
  }

  /** What a fenced reply comes out as. Fence letters that touch the body
      (`lead`, `trail`) go with the fence, because a character set is
      stripped rather than the literal fence: "```jsonnull```" comes out as
      `ull`. When the body is set off from the fence by whitespace, or is a
      JSON object (it starts with `{` and ends with `}`), `lead` and `trail`
      are empty and the body only loses its surrounding whitespace. */
  lemma FencedBody(text: string, lead: string, body: string, trail: string)
    requires Strip(text, Whitespace) == OpeningFence + lead + body + trail + ClosingFence
    requires forall k :: 0 <= k < |lead| ==> lead[k] in FenceChars
    requires forall k :: 0 <= k < |trail| ==> trail[k] in FenceChars
    requires body == [] || (body[0] !in FenceChars && body[|body| - 1] !in FenceChars)
    ensures StripFence(text) == Strip(body, Whitespace)
  {
    var t := OpeningFence + lead + body + trail + ClosingFence;
    assert IsFenced(t) by {
      assert t[..7] == OpeningFence;
      assert t[|t| - 3..] == ClosingFence;
    }
    FenceLettersAround(lead, body, trail);
    assert Strip(body, Backticks) == body by {
      StripExact(body, Backticks, 0, |body|);
    }
  }

  /** A fenced text is at least ten characters long, since the closing
      fence cannot overlap the letters of the opening one, and it is the
      opening fence, the text between the fences, and the closing fence. */
  lemma FencedFrame(t: string)
    requires IsFenced(t)
    ensures |t| >= 10
    ensures t == OpeningFence + t[7..|t| - 3] + ClosingFence
  {
    assert t[6] == 'n' by {
      assert t[..7][6] == OpeningFence[6];
    }
    assert forall k :: |t| - 3 <= k < |t| ==> t[k] == '`' by {
      forall k | |t| - 3 <= k < |t| ensures t[k] == '`' {
        assert t[k] == t[|t| - 3..][k - (|t| - 3)];
      }
    }
    assert t == t[..7] + t[7..|t| - 3] + t[|t| - 3..];
  }

  /** The result for every fenced reply: the text between the fences,
      stripped of fence letters, then trimmed. */
  lemma FencedResult(text: string)
    requires IsFenced(Strip(text, Whitespace))
    ensures var t := Strip(text, Whitespace);
            |t| >= 10 && StripFence(text) == Strip(Strip(t[7..|t| - 3], FenceChars), Whitespace)
  {
    var t := Strip(text, Whitespace);
    FencedIsTwoPasses(text);
    FencedFrame(t);
    var m := t[7..|t| - 3];
    StripIsSlice(m, FenceChars);
    var i := KeptStart(m, FenceChars);
    FenceLettersStrip(m, i, KeptEnd(m, FenceChars, i, |m|));
  }
}
