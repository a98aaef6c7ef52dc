/**
What a standing rule can let through at all (`src/contract/index.ts`, `src/agent-console/core/index.ts`):
the characters a shell reads as separators, redirections and substitutions are only ever covered by
themselves.
*/
module ShellCharacters {
  import opened StandingRules

  /** The characters no `*` may cross, in the order in which they occur. */
  function Shell(s: string): string {
    if s == "" then "" else ShellOf(s[0]) + Shell(s[1..])
  }

  function ShellOf(c: char): string {
    if c in ";&|<>`$\r\n" then [c] else ""
  }

  lemma {:induction false} FreeSkipped(t: string, k: nat)
    requires k <= |t| && Free(t[..k])
    ensures Shell(t[k..]) == Shell(t)
    decreases k
  {
    if k == 0 {
      assert t[0..] == t;
    } else {
      FreeCons(t, k - 1);
      FreeSkipped(t[1..], k - 1);
      assert t[1..][k - 1..] == t[k..];
    }
  }

  lemma {:induction false} GlobShell(p: string, t: string)
    requires Glob(p, t)
    ensures Shell(t) == Shell(p)
    decreases |p|
  {
    if p != "" {
      if p[0] == '*' {
        var k :| 0 <= k <= |t| && Free(t[..k]) && Glob(p[1..], t[k..]);
        GlobShell(p[1..], t[k..]);
        FreeSkipped(t, k);
      } else {
        hide ShellOf;
        GlobShell(p[1..], t[1..]);
      }
    }
  }

  /** No rule lets a command through that its pattern does not spell out: whatever target a
      pattern covers has exactly the pattern's own separators, redirections, substitutions and
      line breaks, in the same order. */
  lemma NothingSmuggled(p: string, t: string)
    requires Accepts(p, t) || Glob(p, t)
    ensures Shell(t) == Shell(p)
  {
    if Accepts(p, t) { GreedySound(p, t); }
    GlobShell(p, t);
  }

  /** And these are the only characters that a `*` does not match. */
  lemma StarMatchesOthers(c: char)
    ensures Glob("*", [c]) <==> Shell([c]) == ""
    ensures Accepts("*", [c]) <==> Shell([c]) == ""
  {
    assert "*"[1..] == "" && [c][1..] == "" && [c][..1] == [c];
    if Accepts("*", [c]) { GreedySound("*", [c]); }
    if Glob("*", [c]) { GlobShell("*", [c]); }
    if !Forbidden(c) {
      assert Free([c][..1]) && Glob("*"[1..], [c][1..]);
      GreedyComplete("*", [c]);
    }
  }

  const UPPER := {
    'A', 'B', 'C', 'D', 'E', 'F', 'G', 'H', 'I', 'J', 'K', 'L', 'M',
    'N', 'O', 'P', 'Q', 'R', 'S', 'T', 'U', 'V', 'W', 'X', 'Y', 'Z'}
  const LOWER := {
    'a', 'b', 'c', 'd', 'e', 'f', 'g', 'h', 'i', 'j', 'k', 'l', 'm',
    'n', 'o', 'p', 'q', 'r', 's', 't', 'u', 'v', 'w', 'x', 'y', 'z'}
  const DIGIT := {'0', '1', '2', '3', '4', '5', '6', '7', '8', '9'}

  lemma UpperCase(c: char)
    ensures 'A' <= c <= 'Z' <==> c in UPPER
  {
  }

  lemma LowerCase(c: char)
    ensures 'a' <= c <= 'z' <==> c in LOWER
  {
  }

  lemma Digits(c: char)
    ensures '0' <= c <= '9' <==> c in DIGIT
  {
  }

  /** The characters of a tool's name, one by one. */
  lemma NameCharacters(c: char)
    ensures NameChar(c) <==> c in UPPER || c in LOWER || c in DIGIT || c == '_'
  {
    UpperCase(c);
    LowerCase(c);
    Digits(c);
    hide UPPER, LOWER, DIGIT;
  }
}
