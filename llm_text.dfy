/** The clean-up every LLM response goes through before `json.loads`
    (agent/hypothesis/generator.py, agent/hypothesis/ranker.py,
    agent/reporting/rca.py): surrounding whitespace is stripped, and a reply
    wrapped in a Markdown code fence loses its first line and everything
    from the last fence on. */
module LlmText {
  import opened Common

  /** `str.isspace()` for one character: the ASCII whitespace and
      separators, NEL, NO-BREAK SPACE and the Unicode space separators. */
  predicate IsSpace(c: char) {
    var n := c as int;
    || n == 32 || 9 <= n <= 13 || 28 <= n <= 31 || n == 0x85 || n == 0xA0
    || n == 0x1680 || 0x2000 <= n <= 0x200A || n == 0x2028 || n == 0x2029
    || n == 0x202F || n == 0x205F || n == 0x3000
  }

  /** `str.lstrip()`: drops the leading whitespace. */
  function TrimStart(s: string): (r: string)
    ensures |r| <= |s| && r == s[|s| - |r|..]
    ensures forall i :: 0 <= i < |s| - |r| ==> IsSpace(s[i])
    ensures r != [] ==> !IsSpace(r[0])
  {
    if s != [] && IsSpace(s[0]) then TrimStart(s[1..]) else s
  }

  /** `str.rstrip()`: drops the trailing whitespace. */
  function TrimEnd(s: string): (r: string)
    ensures |r| <= |s| && r == s[..|r|]
    ensures forall i :: |r| <= i < |s| ==> IsSpace(s[i])
    ensures r != [] ==> !IsSpace(r[|r| - 1])
  {
    if s != [] && IsSpace(s[|s| - 1]) then TrimEnd(s[..|s| - 1]) else s
  }

  /** `str.strip()`: `s` is some whitespace, the result, and some more
      whitespace; the result neither starts nor ends with whitespace. */
  function Strip(s: string): (r: string)
    ensures exists i, j :: 0 <= i <= j <= |s| && r == s[i..j]
                           && (forall k :: 0 <= k < i ==> IsSpace(s[k]))
                           && (forall k :: j <= k < |s| ==> IsSpace(s[k]))
    ensures r != [] ==> !IsSpace(r[0]) && !IsSpace(r[|r| - 1])
  {
    var t := TrimStart(s);
    var r := TrimEnd(t);
    StripShape(s, t, r);
    r
  }

  /** Trimming the front and then the back of `s` leaves the slice between
      its leading and its trailing whitespace. */
  lemma StripShape(s: string, t: string, r: string)
    requires |t| <= |s| && t == s[|s| - |t|..]
    requires forall k :: 0 <= k < |s| - |t| ==> IsSpace(s[k])
    requires t != [] ==> !IsSpace(t[0])
    requires |r| <= |t| && r == t[..|r|]
    requires forall k :: |r| <= k < |t| ==> IsSpace(t[k])
    requires r != [] ==> !IsSpace(r[|r| - 1])
    ensures exists i, j :: 0 <= i <= j <= |s| && r == s[i..j]
                           && (forall k :: 0 <= k < i ==> IsSpace(s[k]))
                           && (forall k :: j <= k < |s| ==> IsSpace(s[k]))
    ensures r != [] ==> !IsSpace(r[0]) && !IsSpace(r[|r| - 1])
  {
    var i, j := |s| - |t|, |s| - |t| + |r|;
    forall k | j <= k < |s| ensures IsSpace(s[k]) {
      assert s[k] == t[k - i];
    }
    assert r == s[i..j];
    if r != [] {
      assert r[0] == t[0];
    }
  }

  /** A string that already has no whitespace at either end is its own
      strip; in particular stripping twice is stripping once. */
  lemma StripKeeps(s: string)
    requires s != [] ==> !IsSpace(s[0]) && !IsSpace(s[|s| - 1])
    ensures Strip(s) == s
  {
    if s != [] {
      assert TrimStart(s) == s;
      assert TrimEnd(s) == s;
    }
  }

  lemma StripIdempotent(s: string)
    ensures Strip(Strip(s)) == Strip(s)
  {
    StripKeeps(Strip(s));
  }

  /** The position of the first `c` in `s`, if any (`str.find`). */
  function FindChar(s: string, c: char): (r: Option<nat>)
    ensures r.None? <==> c !in s
    ensures r.Some? ==> r.value < |s| && s[r.value] == c && c !in s[..r.value]
  {
    if s == [] then None
    else if s[0] == c then Some(0)
    else
      var rest := FindChar(s[1..], c);
      assert s == [s[0]] + s[1..];
      if rest.None? then None
      else
        assert s[..rest.value + 1] == [s[0]] + s[1..][..rest.value];
        Some(rest.value + 1)
  }

  /** The start of the last occurrence of `pat` in `s`, if any (`str.rfind`). */
  function FindLast(s: string, pat: string): (r: Option<nat>)
    ensures r.None? <==> forall k :: 0 <= k <= |s| ==> !OccursAt(s, pat, k)
    ensures r.Some? ==> OccursAt(s, pat, r.value)
                        && forall k :: r.value < k <= |s| ==> !OccursAt(s, pat, k)
  {
    FindLastBelow(s, pat, |s|)
  }

  /** The largest `k <= hi` at which `pat` occurs in `s`. */
  function FindLastBelow(s: string, pat: string, hi: nat): (r: Option<nat>)
    requires hi <= |s|
    ensures r.None? <==> forall k :: 0 <= k <= hi ==> !OccursAt(s, pat, k)
    ensures r.Some? ==> r.value <= hi && OccursAt(s, pat, r.value)
                        && forall k :: r.value < k <= hi ==> !OccursAt(s, pat, k)
    decreases hi
  {
    if OccursAt(s, pat, hi) then Some(hi)
    else if hi == 0 then None
    else FindLastBelow(s, pat, hi - 1)
  }

  const Fence: string := "```"

  /** The fence-stripping rule: the reply is stripped; when it then starts
      with a fence, everything up to and including the first newline is
      dropped (no newline makes `split(...)[1]` raise IndexError), and so is
      everything from the last fence of the remainder on. */
  function StripFences(content: string): (r: Result<string>)
    ensures !StartsWith(Strip(content), Fence) ==> r == Success(Strip(content))
    ensures r.Failure? <==> StartsWith(Strip(content), Fence) && '\n' !in Strip(content)
    ensures r.Success? ==> |r.value| <= |content|
  {
    Unfence(Strip(content))
  }

  /** The fence rule on an already stripped reply. */
  function Unfence(raw: string): (r: Result<string>)
    ensures !StartsWith(raw, Fence) ==> r == Success(raw)
    ensures r.Failure? <==> StartsWith(raw, Fence) && '\n' !in raw
    ensures r.Success? ==> |r.value| <= |raw|
  {
    if !StartsWith(raw, Fence) then Success(raw)
    else
      var nl := FindChar(raw, '\n');
      if nl.None? then Failure("IndexError: list index out of range")
      else
        var rest := raw[nl.value + 1..];
        var last := FindLast(rest, Fence);
        Success(if last.Some? then rest[..last.value] else rest)
  }

  /** The first `c` of `p + q` is the first of `q` when `p` has none. */
  lemma FindCharAfter(p: string, q: string, c: char)
    requires c !in p && q != [] && q[0] == c
    ensures FindChar(p + q, c) == Some(|p|)
  {
    assert (p + q)[|p|] == c;
  }

  /** A string ending in `pat` has its last occurrence of `pat` at the end. */
  lemma FindLastAtEnd(body: string, pat: string)
    ensures FindLast(body + pat, pat) == Some(|body|)
  {
    var s := body + pat;
    assert s[|body|..|body| + |pat|] == pat;
    assert OccursAt(s, pat, |body|);
  }

  /** A body wrapped in a fence, with any language tag on the fence line,
      comes back unchanged. */
  lemma FenceRoundTrip(tag: string, body: string)
    requires '\n' !in tag
    ensures StripFences(Fence + tag + "\n" + body + Fence) == Success(body)
  {
    FencedStripped(tag, body);
    FencedNewline(tag, body);
    FencedRest(tag, body);
    FencedReply(Fence + tag + "\n" + body + Fence, |Fence + tag|, |body|);
  }

  /** A fenced reply is already stripped and starts with a fence. */
  lemma FencedStripped(tag: string, body: string)
    requires '\n' !in tag
    ensures var content := Fence + tag + "\n" + body + Fence;
      Strip(content) == content && StartsWith(content, Fence)
  {
    FencedShape(tag, body);
    StripKeeps(Fence + tag + "\n" + body + Fence);
  }

  /** The first newline of a fenced reply ends its fence line. */
  lemma FencedNewline(tag: string, body: string)
    requires '\n' !in tag
    ensures FindChar(Fence + tag + "\n" + body + Fence, '\n') == Some(|Fence + tag|)
  {
    var head, tail := Fence + tag, "\n" + body + Fence;
    FencedShape(tag, body);
    FindCharAfter(head, tail, '\n');
  }

  /** After the fence line comes the body and the closing fence. */
  lemma FencedRest(tag: string, body: string)
    ensures var rest := (Fence + tag + "\n" + body + Fence)[|Fence + tag| + 1..];
      FindLast(rest, Fence) == Some(|body|) && rest[..|body|] == body
  {
    var head := Fence + tag;
    var rest := (Fence + tag + "\n" + body + Fence)[|head| + 1..];
    assert rest == body + Fence;
    FindLastAtEnd(body, Fence);
  }

  /** A stripped fenced reply whose first newline is at `nl` and whose
      remainder has its last fence at `last` yields the text between. */
  lemma FencedReply(content: string, nl: nat, last: nat)
    requires Strip(content) == content && StartsWith(content, Fence)
    requires FindChar(content, '\n') == Some(nl)
    requires FindLast(content[nl + 1..], Fence) == Some(last)
    ensures StripFences(content) == Success(content[nl + 1..][..last])
  {
    assert Unfence(content) == Success(content[nl + 1..][..last]);
  }

  /** The layout of a fenced reply: it starts and ends with a fence, and the
      fence line holds no newline. */
  lemma FencedShape(tag: string, body: string)
    requires '\n' !in tag
    ensures var head, tail := Fence + tag, "\n" + body + Fence;
      && head + tail == Fence + tag + "\n" + body + Fence
      && (head + tail)[0] == '`' && (head + tail)[|head + tail| - 1] == '`'
      && StartsWith(head + tail, Fence)
      && '\n' !in head && tail[0] == '\n'
  {
    var head, tail := Fence + tag, "\n" + body + Fence;
    assert (head + tail)[..3] == Fence;
    assert forall k :: 0 <= k < |head| ==> head[k] == if k < 3 then Fence[k] else tag[k - 3];
  }

  /** A reply that is not fenced is only stripped. */
  lemma UnfencedOnlyStripped(content: string)
    requires content != [] && content[0] == '{'
    ensures StripFences(content) == Success(Strip(content))
  {
    StripKeepsFirst(content);
  }

  /** When `s` starts with a non-space character, so does its strip. */
  lemma StripKeepsFirst(s: string)
    requires s != [] && !IsSpace(s[0])
    ensures Strip(s) != [] && Strip(s)[0] == s[0]
  {
    assert TrimStart(s) == s;
  }
}
