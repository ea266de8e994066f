/**
 * The descriptor name derived from a Terraform address: `.` and `[` become `-`, `]` is
 * dropped, by three successive whole-string replacements.
 */
module Names {

  /** `s.replace(from, to)` for a one-character pattern: every occurrence is replaced. */
  function ReplaceChar(s: string, from: char, to: string): (r: string)
    ensures forall ch :: ch in r ==> (ch in s && ch != from) || ch in to
  {
    if s == [] then []
    else (if s[0] == from then to else [s[0]]) + ReplaceChar(s[1..], from, to)
  }

  /** `address.replace(".", "-").replace("[", "-").replace("]", "")` */
  function SanitizeName(address: string): (name: string)
    ensures '.' !in name && '[' !in name && ']' !in name
  {
    ReplaceChar(ReplaceChar(ReplaceChar(address, '.', "-"), '[', "-"), ']', "")
  }

  /** What a single address character becomes in the name. */
  function SanitizeChar(ch: char): string {
    if ch == '.' || ch == '[' then "-" else if ch == ']' then "" else [ch]
  }

  /** A one-pass, character-by-character reference for the name. */
  function SanitizeEach(s: string): string {
    if s == [] then [] else SanitizeChar(s[0]) + SanitizeEach(s[1..])
  }

  /** Number of occurrences of `ch` in `s`. */
  function Count(s: string, ch: char): nat {
    if s == [] then 0 else (if s[0] == ch then 1 else 0) + Count(s[1..], ch)
  }

  /** Replacing a character distributes over concatenation. */
  lemma {:induction false} ReplaceCharAppend(a: string, b: string, from: char, to: string)
    ensures ReplaceChar(a + b, from, to) == ReplaceChar(a, from, to) + ReplaceChar(b, from, to)
  {
    if a == [] {
      assert a + b == b;
    } else {
      assert (a + b)[0] == a[0];
      assert (a + b)[1..] == a[1..] + b;
      ReplaceCharAppend(a[1..], b, from, to);
    }
  }

  /**
   * The three chained replacements act on each character independently and keep the order
   * of the characters: the name is the concatenation of the per-character images.
   */
  lemma {:induction false} SanitizeNameCharwise(s: string)
    ensures SanitizeName(s) == SanitizeEach(s)
  {
    if s != [] {
      var c, t := [s[0]], s[1..];
      assert s == c + t;
      ReplaceCharAppend(c, t, '.', "-");
      var r1c, r1t := ReplaceChar(c, '.', "-"), ReplaceChar(t, '.', "-");
      ReplaceCharAppend(r1c, r1t, '[', "-");
      var r2c, r2t := ReplaceChar(r1c, '[', "-"), ReplaceChar(r1t, '[', "-");
      ReplaceCharAppend(r2c, r2t, ']', "");
      assert ReplaceChar(r2c, ']', "") == SanitizeChar(s[0]);
      SanitizeNameCharwise(t);
    }
  }

  /** Each `]` removes one character; `.` and `[` keep the length. */
  lemma {:induction false} SanitizeEachLength(s: string)
    ensures |SanitizeEach(s)| == |s| - Count(s, ']')
  {
    if s != [] {
      SanitizeEachLength(s[1..]);
    }
  }

  /** The name is as long as the address minus the number of `]` in it. */
  lemma SanitizeNameLength(address: string)
    ensures |SanitizeName(address)| == |address| - Count(address, ']')
  {
    SanitizeNameCharwise(address);
    SanitizeEachLength(address);
  }

  /** An address with no `.`, `[` or `]` is already a valid name and is kept unchanged. */
  lemma {:induction false} SanitizeNameIdentity(address: string)
    requires '.' !in address && '[' !in address && ']' !in address
    ensures SanitizeName(address) == address
  {
    SanitizeNameCharwise(address);
    SanitizeEachIdentity(address);
  }

  lemma {:induction false} SanitizeEachIdentity(s: string)
    requires '.' !in s && '[' !in s && ']' !in s
    ensures SanitizeEach(s) == s
  {
    if s != [] {
      assert s[0] in s;
      assert forall ch :: ch in s[1..] ==> ch in s;
      SanitizeEachIdentity(s[1..]);
    }
  }
}
