/** The .NET string operations the editor code relies on: null/empty/white-space tests,
    lower-casing, trimming and substring search. */
module Text {
  import opened Wrappers

  /** White space as `char.IsWhiteSpace` sees it, restricted to ASCII. */
  predicate IsWhiteSpace(c: char)
  {
    c == ' ' || c == '\t' || c == '\n' || c == '\r' || c == '\U{000B}' || c == '\U{000C}'
  }

  /** `string.IsNullOrEmpty`. */
  predicate IsNullOrEmpty(s: Option<string>)
  {
    s.None? || s.value == ""
  }

  /** `string.IsNullOrWhiteSpace`. */
  predicate IsNullOrWhiteSpace(s: Option<string>)
  {
    s.None? || forall i :: 0 <= i < |s.value| ==> IsWhiteSpace(s.value[i])
  }

  /** `char.ToLower`, restricted to ASCII letters. */
  function ToLowerChar(c: char): char
  {
    if 'A' <= c <= 'Z' then (c as int + 32) as char else c
  }

  /** `string.ToLower`: every character lower-cased, length kept. */
  function ToLower(s: string): (r: string)
    ensures |r| == |s|
    ensures forall i :: 0 <= i < |s| ==> r[i] == ToLowerChar(s[i])
  {
    seq(|s|, i requires 0 <= i < |s| => ToLowerChar(s[i]))
  }

  function TrimStart(s: string): string
  {
    if s != [] && IsWhiteSpace(s[0]) then TrimStart(s[1..]) else s
  }

  function TrimEnd(s: string): string
  {
    if s != [] && IsWhiteSpace(s[|s| - 1]) then TrimEnd(s[..|s| - 1]) else s
  }

  /** `string.Trim()`: leading and trailing white space removed. */
  function Trim(s: string): string
  {
    TrimEnd(TrimStart(s))
  }

  /** `string.Contains(q)`: `q` occurs in `s` as a contiguous piece. */
  predicate Contains(s: string, q: string)
  {
    q <= s || (s != [] && Contains(s[1..], q))
  }

  /** The normalised search text: lower-cased, then trimmed. */
  function Query(filter: string): string
  {
    Trim(ToLower(filter))
  }

  lemma {:induction false} TrimStartSpec(s: string)
    ensures TrimStart(s) == "" <==> forall i :: 0 <= i < |s| ==> IsWhiteSpace(s[i])
    ensures TrimStart(s) != "" ==> !IsWhiteSpace(TrimStart(s)[0])
    ensures |TrimStart(s)| <= |s| && TrimStart(s) == s[|s| - |TrimStart(s)|..]
  {
    if s != [] && IsWhiteSpace(s[0]) {
      TrimStartSpec(s[1..]);
      if TrimStart(s) == "" {
        forall i | 0 <= i < |s| ensures IsWhiteSpace(s[i]) {
          if i > 0 { assert s[i] == s[1..][i - 1]; }
        }
      }
    }
  }

  lemma {:induction false} TrimEndSpec(s: string)
    ensures TrimEnd(s) == "" <==> forall i :: 0 <= i < |s| ==> IsWhiteSpace(s[i])
    ensures TrimEnd(s) != "" ==> !IsWhiteSpace(TrimEnd(s)[|TrimEnd(s)| - 1])
    ensures TrimEnd(s) <= s
  {
    if s != [] && IsWhiteSpace(s[|s| - 1]) {
      var p := s[..|s| - 1];
      TrimEndSpec(p);
      if TrimEnd(s) == "" {
        forall i | 0 <= i < |s| ensures IsWhiteSpace(s[i]) {
          if i < |s| - 1 { assert s[i] == p[i]; }
        }
      }
    }
  }

  /** `Trim` yields the empty string exactly for all-white-space input, and otherwise a
      string that neither starts nor ends with white space. */
  lemma TrimSpec(s: string)
    ensures Trim(s) == "" <==> forall i :: 0 <= i < |s| ==> IsWhiteSpace(s[i])
    ensures Trim(s) != "" ==> !IsWhiteSpace(Trim(s)[0]) && !IsWhiteSpace(Trim(s)[|Trim(s)| - 1])
  {
    TrimStartSpec(s);
    var t := TrimStart(s);
    TrimEndSpec(t);
    if Trim(s) != "" {
      assert Trim(s)[0] == t[0];
    }
    if t != "" {
      assert !IsWhiteSpace(t[0]);
      assert Trim(s) != "";
    }
  }

  lemma ToLowerCharKeepsWhiteSpace(c: char)
    ensures IsWhiteSpace(ToLowerChar(c)) <==> IsWhiteSpace(c)
  {
    if 'A' <= c <= 'Z' {
      assert 'a' <= ToLowerChar(c) <= 'z';
    }
  }

  /** Lower-casing neither creates nor removes white space. */
  lemma ToLowerKeepsWhiteSpace(s: string)
    ensures (forall i :: 0 <= i < |s| ==> IsWhiteSpace(s[i])) <==>
            (forall i :: 0 <= i < |ToLower(s)| ==> IsWhiteSpace(ToLower(s)[i]))
  {
    forall i | 0 <= i < |s| ensures IsWhiteSpace(ToLower(s)[i]) <==> IsWhiteSpace(s[i]) {
      ToLowerCharKeepsWhiteSpace(s[i]);
    }
  }

  /** A filter normalises to the empty query exactly when `IsNullOrWhiteSpace` holds of it:
      an empty or white-space-only filter trims away, any other keeps a character. */
  lemma QueryEmptyIffWhiteSpace(filter: string)
    ensures Query(filter) == "" <==> IsNullOrWhiteSpace(Some(filter))
  {
    ToLowerKeepsWhiteSpace(filter);
    TrimSpec(ToLower(filter));
  }

  /** Every string contains the empty string. */
  lemma ContainsEmpty(s: string)
    ensures Contains(s, "")
  {
  }

  /** A string contains each of its contiguous pieces. */
  lemma {:induction false} ContainsSlice(s: string, i: nat, j: nat)
    requires i <= j <= |s|
    ensures Contains(s, s[i..j])
    decreases i
  {
    if i == 0 {
      assert s[i..j] <= s;
    } else {
      ContainsSlice(s[1..], i - 1, j - 1);
      assert s[1..][i - 1..j - 1] == s[i..j];
    }
  }
}
