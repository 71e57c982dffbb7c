/** String clean-up applied to the language model's reply before it is
    decoded as JSON: `trim()` followed by two global regular-expression
    replacements that delete markdown code fences. */
module Text {

  /** JavaScript's WhiteSpace and LineTerminator code points: the characters
      `String.prototype.trim` removes. */
  predicate IsSpace(c: char) {
    var n := c as int;
    n == 0x09 || n == 0x0A || n == 0x0B || n == 0x0C || n == 0x0D || n == 0x20 ||
    n == 0xA0 || n == 0x1680 || (0x2000 <= n <= 0x200A) || n == 0x2028 || n == 0x2029 ||
    n == 0x202F || n == 0x205F || n == 0x3000 || n == 0xFEFF
  }

  predicate StartsWith(s: string, p: string) {
    |p| <= |s| && s[..|p|] == p
  }

  /** `s` has `p` as a contiguous substring. */
  predicate Contains(s: string, p: string)
    decreases |s|
  {
    StartsWith(s, p) || (|s| > 0 && Contains(s[1..], p))
  }

  /** Number of whitespace characters at the front of `s`. */
  function LeadingSpace(s: string): (n: nat)
    ensures n <= |s|
    ensures forall i :: 0 <= i < n ==> IsSpace(s[i])
    ensures n < |s| ==> !IsSpace(s[n])
  {
    if |s| > 0 && IsSpace(s[0]) then 1 + LeadingSpace(s[1..]) else 0
  }

  /** Number of whitespace characters at the back of `s`. */
  function TrailingSpace(s: string): (n: nat)
    ensures n <= |s|
    ensures forall i :: |s| - n <= i < |s| ==> IsSpace(s[i])
    ensures n < |s| ==> !IsSpace(s[|s| - 1 - n])
  {
    if |s| > 0 && IsSpace(s[|s| - 1]) then 1 + TrailingSpace(s[..|s| - 1]) else 0
  }

  /** The slice `s[lo..hi]` that `trim()` keeps: everything outside it is
      whitespace, and it neither starts nor ends with whitespace. */
  function TrimBounds(s: string): (b: (nat, nat))
    ensures b.0 <= b.1 <= |s|
    ensures forall k :: 0 <= k < b.0 ==> IsSpace(s[k])
    ensures forall k :: b.1 <= k < |s| ==> IsSpace(s[k])
    ensures b.0 < b.1 ==> !IsSpace(s[b.0]) && !IsSpace(s[b.1 - 1])
  {
    var lo := LeadingSpace(s);
    var t := s[lo..];
    var n := TrailingSpace(t);
    assert lo < |s| ==> !IsSpace(t[0]) && n < |t|;
    (lo, |s| - n)
  }

  /** `String.prototype.trim` */
  function Trim(s: string): (r: string)
    ensures |r| <= |s|
    ensures |r| > 0 ==> !IsSpace(r[0]) && !IsSpace(r[|r| - 1])
    ensures forall c :: c in r ==> c in s
  {
    var b := TrimBounds(s);
    s[b.0..b.1]
  }

  /** `s.replace(/<tok>\n?/g, '')` for a token made of ordinary characters:
      scanning left to right, every occurrence of `tok` is deleted together
      with one newline right after it, if there is one. */
  function RemoveToken(s: string, tok: string): (r: string)
    requires tok != []
    ensures |r| <= |s|
    ensures forall c :: c in r ==> c in s
    ensures !StartsWith(s, tok) && |s| > 0 ==> |r| > 0 && r[0] == s[0]
    decreases |s|
  {
    if |s| == 0 then []
    else if StartsWith(s, tok) then
      var rest := s[|tok|..];
      if |rest| > 0 && rest[0] == '\n' then RemoveToken(rest[1..], tok) else RemoveToken(rest, tok)
    else [s[0]] + RemoveToken(s[1..], tok)
  }

  const JsonFence: string := "```json"
  const Fence: string := "```"

  /** The clean-up of the model's reply in app/api/audit/route.ts. */
  function StripFences(reply: string): (r: string)
    ensures |r| <= |reply|
    ensures forall c :: c in r ==> c in reply
    ensures !Contains(r, Fence)
  {
    var cleaned := RemoveToken(RemoveToken(Trim(reply), JsonFence), Fence);
    RemoveFenceLeavesNone(RemoveToken(Trim(reply), JsonFence));
    cleaned
  }

  /** `trim()` is idempotent. */
  lemma TrimIdempotent(s: string)
    ensures Trim(Trim(s)) == Trim(s)
  {
    var t := Trim(s);
    if |t| > 0 {
      assert LeadingSpace(t) == 0;
      assert TrailingSpace(t) == 0;
    }
  }

  /** Text without surrounding whitespace is left alone by `trim()`. */
  lemma TrimKeepsTrimmed(s: string)
    requires |s| > 0 ==> !IsSpace(s[0]) && !IsSpace(s[|s| - 1])
    ensures Trim(s) == s
  {
    if |s| > 0 {
      assert LeadingSpace(s) == 0;
      assert TrailingSpace(s) == 0;
    }
  }

  /** A token that starts with a backtick can only be found where there is
      a backtick, so text without backticks passes through unchanged. */
  lemma {:induction false} RemoveTokenWithoutBacktick(s: string, tok: string)
    requires tok != [] && tok[0] == '`'
    requires '`' !in s
    ensures RemoveToken(s, tok) == s
  {
    if |s| > 0 {
      assert s[0] != '`';
      assert !StartsWith(s, tok);
      assert '`' !in s[1..] by {
        forall i | 0 <= i < |s[1..]| ensures s[1..][i] != '`' { assert s[1..][i] == s[i + 1]; }
      }
      RemoveTokenWithoutBacktick(s[1..], tok);
    }
  }

  /** After the fence pass, a leading backtick (pair) of the result was a
      leading backtick (pair) of the input. */
  lemma RemoveFenceHead(t: string)
    ensures StartsWith(RemoveToken(t, Fence), "`") ==> StartsWith(t, "`")
    ensures StartsWith(RemoveToken(t, Fence), "``") ==> StartsWith(t, "``")
  {
    if |t| > 0 && !StartsWith(t, Fence) {
      var r := RemoveToken(t, Fence);
      assert r == [t[0]] + RemoveToken(t[1..], Fence);
      if StartsWith(r, "``") {
        assert r[1..][..1] == r[..2][1..];
        assert StartsWith(RemoveToken(t[1..], Fence), "`");
        RemoveFenceHead(t[1..]);
        assert t[..2] == [t[0]] + t[1..][..1];
      }
    }
  }

  /** Deleting every "```" cannot splice together a new "```": the fence
      pass leaves no fence behind. */
  lemma {:induction false} RemoveFenceLeavesNone(t: string)
    ensures !Contains(RemoveToken(t, Fence), Fence)
    decreases |t|
  {
    var r := RemoveToken(t, Fence);
    if |t| == 0 {
      assert r == [];
    } else if StartsWith(t, Fence) {
      var rest := t[|Fence|..];
      if |rest| > 0 && rest[0] == '\n' {
        RemoveFenceLeavesNone(rest[1..]);
      } else {
        RemoveFenceLeavesNone(rest);
      }
    } else {
      var tail := RemoveToken(t[1..], Fence);
      assert r == [t[0]] + tail;
      RemoveFenceLeavesNone(t[1..]);
      assert r[1..] == tail;
      RemoveFenceHead(t[1..]);
      if t[0] == '`' {
        assert !StartsWith(t[1..], "``") by {
          if |t| >= 3 { assert t[..3] == [t[0]] + t[1..][..2]; }
        }
        assert !StartsWith(tail, "``");
        assert |r| >= 3 ==> r[..3] == [t[0]] + tail[..2];
      }
      assert !StartsWith(r, Fence);
    }
  }

  /** A reply without any backtick comes back merely trimmed. */
  lemma StripFencesPlainText(reply: string)
    requires '`' !in reply
    ensures StripFences(reply) == Trim(reply)
  {
    var b := TrimBounds(reply);
    var t := Trim(reply);
    assert '`' !in t by {
      forall i | 0 <= i < |t| ensures t[i] != '`' { assert t[i] == reply[b.0 + i]; }
    }
    RemoveTokenWithoutBacktick(t, JsonFence);
    RemoveTokenWithoutBacktick(t, Fence);
  }
}
