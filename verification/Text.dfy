/** The few operations of Go's `strings` package the model needs, on byte strings. */
module Text {

  datatype Option<T> = None | Some(value: T)

  /** `sub` occurs in `s` starting at position `i`. */
  predicate OccursAt(s: string, sub: string, i: int) {
    0 <= i <= |s| - |sub| && s[i..i + |sub|] == sub
  }

  /** strings.Index: the first occurrence of `sub` in `s`, or -1. */
  function Index(s: string, sub: string): (i: int)
    ensures i < 0 ==> forall j :: !OccursAt(s, sub, j)
    ensures i >= 0 ==> OccursAt(s, sub, i) && forall j :: j < i ==> !OccursAt(s, sub, j)
  {
    IndexFrom(s, sub, 0)
  }

  function IndexFrom(s: string, sub: string, k: nat): (i: int)
    ensures i < 0 ==> forall j :: k <= j ==> !OccursAt(s, sub, j)
    ensures i >= 0 ==> k <= i && OccursAt(s, sub, i) && forall j :: k <= j < i ==> !OccursAt(s, sub, j)
    decreases |s| - k
  {
    if k + |sub| > |s| then -1
    else if s[k..k + |sub|] == sub then k
    else if k == |s| then -1
    else IndexFrom(s, sub, k + 1)
  }

  /** Index is determined by being the first occurrence. */
  lemma IndexIs(s: string, sub: string, i: int)
    requires OccursAt(s, sub, i)
    requires forall j :: 0 <= j < i ==> !OccursAt(s, sub, j)
    ensures Index(s, sub) == i
  {
  }

  predicate HasPrefix(s: string, prefix: string) {
    |prefix| <= |s| && s[..|prefix|] == prefix
  }

  predicate HasSuffix(s: string, suffix: string) {
    |suffix| <= |s| && s[|s| - |suffix|..] == suffix
  }

  /** strings.Split for a one-byte separator. */
  function Split(s: string, sep: char): (parts: seq<string>)
    ensures |parts| > 0
  {
    if s == "" then [""]
    else
      var rest := Split(s[1..], sep);
      if s[0] == sep then [""] + rest else [[s[0]] + rest[0]] + rest[1..]
  }

  /** strings.Join for a one-byte separator. */
  function Join(parts: seq<string>, sep: char): string {
    if |parts| == 0 then ""
    else if |parts| == 1 then parts[0]
    else parts[0] + [sep] + Join(parts[1..], sep)
  }

  ghost predicate AllFree(parts: seq<string>, sep: char) {
    forall i :: 0 <= i < |parts| ==> sep !in parts[i]
  }

  lemma {:induction false} SplitPrepend(p: string, rest: string, sep: char)
    requires sep !in p
    ensures Split(p + [sep] + rest, sep) == [p] + Split(rest, sep)
    ensures Split(p, sep) == [p]
  {
    if p == "" {
      assert p + [sep] + rest == [sep] + rest;
      assert ([sep] + rest)[1..] == rest;
    } else {
      SplitPrepend(p[1..], rest, sep);
      assert (p + [sep] + rest)[1..] == p[1..] + [sep] + rest;
      assert [p[0]] + p[1..] == p;
      assert p[0] in p;
    }
  }

  /** Splitting what was joined from separator-free parts gives the parts back. */
  lemma {:induction false} SplitJoin(parts: seq<string>, sep: char)
    requires |parts| > 0 && AllFree(parts, sep)
    ensures Split(Join(parts, sep), sep) == parts
  {
    if |parts| == 1 {
      SplitPrepend(parts[0], "", sep);
    } else {
      SplitPrepend(parts[0], Join(parts[1..], sep), sep);
      SplitJoin(parts[1..], sep);
    }
  }

  /** Joining what was split gives the string back, and every part is separator-free. */
  lemma {:induction false} JoinSplit(s: string, sep: char)
    ensures Join(Split(s, sep), sep) == s
    ensures AllFree(Split(s, sep), sep)
  {
    if s != "" {
      JoinSplit(s[1..], sep);
      var rest := Split(s[1..], sep);
      var parts := Split(s, sep);
      if s[0] == sep {
        assert parts[1..] == rest;
      } else {
        assert parts[1..] == rest[1..];
      }
      assert [s[0]] + s[1..] == s;
    }
  }

  /** strings.ToLower, on ASCII. */
  function Lower(s: string): string {
    seq(|s|, i requires 0 <= i < |s| => LowerChar(s[i]))
  }

  function LowerChar(c: char): char {
    if 'A' <= c <= 'Z' then c + ' ' else c
  }

  /** Each capital is lowered to its own letter, and nothing else changes. */
  lemma LowersLetters(s: string)
    ensures |Lower(s)| == |s|
    ensures forall i, k :: 0 <= i < |s| && 0 <= k < 26 && s[i] == "ABCDEFGHIJKLMNOPQRSTUVWXYZ"[k] ==>
              Lower(s)[i] == "abcdefghijklmnopqrstuvwxyz"[k]
    ensures forall i :: 0 <= i < |s| && s[i] !in "ABCDEFGHIJKLMNOPQRSTUVWXYZ" ==> Lower(s)[i] == s[i]
  {
    forall k | 0 <= k < 26
      ensures "ABCDEFGHIJKLMNOPQRSTUVWXYZ"[k] == 'A' + k as char && "abcdefghijklmnopqrstuvwxyz"[k] == 'a' + k as char
    {
    }
    forall c: char | 'A' <= c <= 'Z' ensures c in "ABCDEFGHIJKLMNOPQRSTUVWXYZ" {
      assert "ABCDEFGHIJKLMNOPQRSTUVWXYZ"[(c - 'A') as int] == c;
    }
  }

  predicate IsSpace(c: char) {
    c == ' ' || '\t' <= c <= '\r'
  }

  /** strings.TrimSpace, on ASCII. */
  function TrimSpace(s: string): string {
    if s == "" then s
    else if IsSpace(s[0]) then TrimSpace(s[1..])
    else if IsSpace(s[|s| - 1]) then TrimSpace(s[..|s| - 1])
    else s
  }

  /** The space, the tab, and the four line breaks of ASCII. */
  lemma SpacesExactly(c: char)
    ensures IsSpace(c) <==> c in [' ', '\t', '\n', '\U{0B}', '\U{0C}', '\r']
  {
  }

  /** What is left is what lies between the spaces at the two ends. */
  lemma {:induction false} TrimSpaceExactly(s: string) returns (i: nat, k: nat)
    ensures i <= k <= |s| && TrimSpace(s) == s[i..k]
    ensures forall j :: 0 <= j < i || k <= j < |s| ==> IsSpace(s[j])
    ensures i < k ==> !IsSpace(s[i]) && !IsSpace(s[k - 1])
  {
    i, k := 0, |s|;
    if s == "" {
    } else if IsSpace(s[0]) {
      i, k := TrimSpaceExactly(s[1..]);
      assert s[1..][i..k] == s[i + 1..k + 1];
      i, k := i + 1, k + 1;
    } else if IsSpace(s[|s| - 1]) {
      i, k := TrimSpaceExactly(s[..|s| - 1]);
      assert s[..|s| - 1][i..k] == s[i..k];
    } else {
      assert s[0..|s|] == s;
    }
  }

  /** Padding is trimmed, and nothing else. */
  lemma {:induction false} TrimPadding(left: string, s: string, right: string)
    requires forall c :: c in left || c in right ==> IsSpace(c)
    requires s != "" && !IsSpace(s[0]) && !IsSpace(s[|s| - 1])
    ensures TrimSpace(left + s + right) == s
    decreases |left| + |right|
  {
    var p := left + s + right;
    if left != "" {
      assert p[0] == left[0] && left[0] in left;
      assert p[1..] == left[1..] + s + right;
      TrimPadding(left[1..], s, right);
    } else if right != "" {
      var n := |right| - 1;
      assert p[|p| - 1] == right[n] && right[n] in right;
      assert p[..|p| - 1] == left + s + right[..n];
      assert p[0] == s[0];
      TrimPadding(left, s, right[..n]);
    } else {
      assert p == s;
    }
  }

  /** strings.TrimRight(s, "/"). */
  function TrimSlashes(s: string): string {
    if s != "" && s[|s| - 1] == '/' then TrimSlashes(s[..|s| - 1]) else s
  }

  function Slashes(n: nat): string {
    seq(n, _ => '/')
  }

  /** Two strings trim to the same one exactly when they differ only in how many slashes they end in. */
  lemma TrimSlashesSame(a: string, b: string)
    ensures TrimSlashes(a) == TrimSlashes(b) <==>
            exists u: string, m: nat, n: nat :: a == u + Slashes(m) && b == u + Slashes(n)
  {
    if TrimSlashes(a) == TrimSlashes(b) {
      TrimSlashesShape(a);
      TrimSlashesShape(b);
      var u := TrimSlashes(a);
      assert a == u + Slashes(|a| - |u|) && b == u + Slashes(|b| - |u|);
    }
    if u: string, m: nat, n: nat :| a == u + Slashes(m) && b == u + Slashes(n) {
      TrimSlashesOff(u, m);
      TrimSlashesOff(u, n);
    }
  }

  lemma {:induction false} TrimSlashesShape(s: string)
    ensures var u := TrimSlashes(s);
            |u| <= |s| && s == u + Slashes(|s| - |u|) && (u != "" ==> u[|u| - 1] != '/')
  {
    if s != "" && s[|s| - 1] == '/' {
      TrimSlashesShape(s[..|s| - 1]);
      assert s == s[..|s| - 1] + ['/'];
    }
  }

  lemma {:induction false} TrimSlashesOff(u: string, n: nat)
    ensures TrimSlashes(u + Slashes(n)) == TrimSlashes(u)
  {
    if n == 0 {
      assert u + Slashes(0) == u;
    } else {
      var s := u + Slashes(n);
      assert s[..|s| - 1] == u + Slashes(n - 1);
      TrimSlashesOff(u, n - 1);
    }
  }
}
