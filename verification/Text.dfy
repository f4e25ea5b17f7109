/** The string operations of the host language that the model needs. */
module Text {

  /** What `trim` strips. */
  predicate Blank(c: char) {
    var n := c as int;
    || 9 <= n <= 13 || n == 32 || n == 0xA0 || n == 0x1680 || 0x2000 <= n <= 0x200A
    || n == 0x2028 || n == 0x2029 || n == 0x202F || n == 0x205F || n == 0x3000 || n == 0xFEFF
  }

  function TrimLeft(s: string): string {
    if s != "" && Blank(s[0]) then TrimLeft(s[1..]) else s
  }

  function TrimRight(s: string): string {
    if s != "" && Blank(s[|s| - 1]) then TrimRight(s[..|s| - 1]) else s
  }

  function Trim(s: string): string {
    TrimRight(TrimLeft(s))
  }

  /** The characters from `i` on and before `j` are blanks. */
  predicate BlankIn(s: string, i: nat, j: nat)
    requires j <= |s|
  {
    forall k :: i <= k < j ==> Blank(s[k])
  }

  function Leading(s: string): (n: nat)
    ensures n <= |s|
  {
    if s != "" && Blank(s[0]) then 1 + Leading(s[1..]) else 0
  }

  function Trailing(s: string): (n: nat)
    ensures n <= |s|
  {
    if s != "" && Blank(s[|s| - 1]) then 1 + Trailing(s[..|s| - 1]) else 0
  }

  lemma {:induction false} LeadingBlank(s: string)
    ensures TrimLeft(s) == s[Leading(s)..]
    ensures BlankIn(s, 0, Leading(s)) && (Leading(s) < |s| ==> !Blank(s[Leading(s)]))
    decreases |s|
  {
    if s != "" && Blank(s[0]) {
      var rest := s[1..];
      LeadingBlank(rest);
      var n := Leading(rest);
      assert BlankIn(s, 0, n + 1) by {
        forall k | 0 <= k < n + 1 ensures Blank(s[k]) {
          if k > 0 { assert s[k] == rest[k - 1]; }
        }
      }
      assert s[n + 1..] == rest[n..];
    }
  }

  lemma {:induction false} TrailingBlank(s: string)
    ensures TrimRight(s) == s[..|s| - Trailing(s)]
    ensures BlankIn(s, |s| - Trailing(s), |s|) && (Trailing(s) < |s| ==> !Blank(s[|s| - Trailing(s) - 1]))
    decreases |s|
  {
    if s != "" && Blank(s[|s| - 1]) {
      var front := s[..|s| - 1];
      TrailingBlank(front);
      var n := Trailing(front);
      assert BlankIn(s, |front| - n, |s|) by {
        forall k | |front| - n <= k < |s| ensures Blank(s[k]) {
          if k < |front| { assert s[k] == front[k]; }
        }
      }
      assert s[..|front| - n] == front[..|front| - n];
    }
  }

  /** `t` is `s` without its first `i` characters and its last `j`, which are blanks. */
  predicate Stripped(s: string, t: string, i: nat, j: nat) {
    i + j <= |s| && t == s[i..|s| - j] && BlankIn(s, 0, i) && BlankIn(s, |s| - j, |s|)
  }

  /** A trimmed text is the given one without blanks at either end. */
  lemma TrimExactly(s: string)
    ensures Stripped(s, Trim(s), Leading(s), Trailing(TrimLeft(s)))
    ensures Trim(s) != "" ==> !Blank(Trim(s)[0]) && !Blank(Trim(s)[|Trim(s)| - 1])
  {
    var left, i, j := TrimLeft(s), Leading(s), Trailing(TrimLeft(s));
    LeadingBlank(s);
    TrailingBlank(left);
    assert left[..|left| - j] == s[i..|s| - j];
    forall k | |s| - j <= k < |s| ensures Blank(s[k]) {
      assert s[k] == left[k - i];
    }
    if Trim(s) != "" { assert Trim(s)[0] == left[0] && Trim(s)[|Trim(s)| - 1] == left[|left| - j - 1]; }
  }
}
