/**
 * SecurityMiddleware: a case-insensitive substring blocklist over the
 * rendered request message.
 */
module Security {
  import opened Wrappers
  import opened Mcp

  /** `suspicious_patterns`, all written in lower case. */
  const SuspiciousPatterns: seq<string> :=
    ["script", "javascript", "eval", "exec", "system", "rm -rf", "drop table", "union select"]

  /** The message of the ToolError raised for a blocked request. */
  const BlockedMessage := "Request blocked due to security concerns"

  function LowerChar(c: char): char {
    if 'A' <= c <= 'Z' then (c as int + 32) as char else c
  }

  /** `str.lower()` on ASCII letters. */
  function Lower(s: string): string {
    seq(|s|, i requires 0 <= i < |s| => LowerChar(s[i]))
  }

  /** `p` occurs in `s` starting at index `i`. */
  ghost predicate OccursAt(p: string, s: string, i: int) {
    0 <= i && i + |p| <= |s| && s[i..i + |p|] == p
  }

  /** Python's `p in s` on strings, stated by position. */
  ghost predicate Occurs(p: string, s: string) {
    exists i :: OccursAt(p, s, i)
  }

  /** An occurrence is at the front, or somewhere in the tail. */
  lemma OccursStep(p: string, s: string)
    requires s != []
    ensures Occurs(p, s) <==> p <= s || Occurs(p, s[1..])
  {
    if Occurs(p, s) {
      var i :| OccursAt(p, s, i);
      if i == 0 {
        assert s[..|p|] == p;
      } else {
        assert s[1..][i - 1..i - 1 + |p|] == s[i..i + |p|];
        assert OccursAt(p, s[1..], i - 1);
      }
    }
    if p <= s {
      assert s[0..|p|] == p;
      assert OccursAt(p, s, 0);
    }
    if Occurs(p, s[1..]) {
      var j :| OccursAt(p, s[1..], j);
      assert s[j + 1..j + 1 + |p|] == s[1..][j..j + |p|];
      assert OccursAt(p, s, j + 1);
    }
  }

  /** A left-to-right substring scan. */
  function Contains(s: string, p: string): bool
    decreases |s|
  {
    if p <= s then true
    else if s == [] then false
    else Contains(s[1..], p)
  }

  /** The scan finds `p` exactly when `p` occurs somewhere in `s`. */
  lemma {:induction false} ContainsSpec(s: string, p: string)
    ensures Contains(s, p) <==> Occurs(p, s)
    decreases |s|
  {
    if p <= s {
      assert s[0..|p|] == p;
      assert OccursAt(p, s, 0);
    } else if s != [] {
      OccursStep(p, s);
      ContainsSpec(s[1..], p);
    }
  }

  /** `any(pattern in text for pattern in patterns)` */
  function AnyOccurs(patterns: seq<string>, text: string): bool {
    if patterns == [] then false
    else Contains(text, patterns[0]) || AnyOccurs(patterns[1..], text)
  }

  /** The scan over the blocklist holds exactly when one of the patterns occurs in the text. */
  lemma {:induction false} AnyOccursSpec(patterns: seq<string>, text: string)
    ensures AnyOccurs(patterns, text) <==> exists p :: p in patterns && Occurs(p, text)
  {
    if patterns != [] {
      ContainsSpec(text, patterns[0]);
      AnyOccursSpec(patterns[1..], text);
      assert forall p :: p in patterns <==> p == patterns[0] || p in patterns[1..];
    }
  }

  /** `_is_suspicious`: some blocklist pattern occurs in the lower-cased message. */
  function IsSuspicious(message: string): bool {
    AnyOccurs(SuspiciousPatterns, Lower(message))
  }

  /** A message is suspicious exactly when some blocklist pattern occurs in its lower-cased form. */
  lemma IsSuspiciousSpec(message: string)
    ensures IsSuspicious(message) <==> exists p :: p in SuspiciousPatterns && Occurs(p, Lower(message))
  {
    AnyOccursSpec(SuspiciousPatterns, Lower(message));
  }

  /** Lower-casing twice changes nothing more. */
  lemma LowerIdempotent(s: string)
    ensures Lower(Lower(s)) == Lower(s)
  {
  }

  /** The verdict ignores letter case. */
  lemma SuspicionIgnoresCase(s: string, t: string)
    requires Lower(s) == Lower(t)
    ensures IsSuspicious(s) == IsSuspicious(t)
  {
  }

  /** Every blocklist pattern is already lower case, so it can match a lower-cased message. */
  lemma PatternsAreLowerCase()
    ensures forall p :: p in SuspiciousPatterns ==> Lower(p) == p
  {
  }

  /** "DROP TABLE users" and "drop table users" are both suspicious. */
  lemma DropTableIsSuspicious()
    ensures IsSuspicious("DROP TABLE users") && IsSuspicious("drop table users")
  {
    var text := "drop table users";
    assert Lower("DROP TABLE users") == text;
    assert Lower(text) == text;
    assert text[0..10] == "drop table";
    assert OccursAt("drop table", text, 0);
    assert "drop table" in SuspiciousPatterns;
    IsSuspiciousSpec("DROP TABLE users");
    IsSuspiciousSpec(text);
  }

  /**
   * on_request up to `call_next`: the ToolError raised for a suspicious
   * request when blocking is on, or None when it goes on to `call_next`.
   */
  function Screen(blockSuspicious: bool, req: Request): (rejection: Option<Error>)
    ensures rejection.Some? <==> blockSuspicious && IsSuspicious(req.message)
    ensures rejection.Some? ==> rejection.value == Error(ToolError, BlockedMessage)
  {
    if IsSuspicious(req.message) && blockSuspicious then Some(Error(ToolError, BlockedMessage)) else None
  }
}
