/**
 * The PHP string functions the extension relies on: `trim`, `strtolower`,
 * `explode`, and the byte-wise comparison `ksort` uses on string keys.
 */
module Text {

  /** The characters PHP's `trim` strips by default: space, \t, \n, \r, \0 and \x0B. */
  predicate IsTrimmable(c: char) {
    c == ' ' || c == '\t' || c == '\n' || c == '\r' || c == '\0' || c as int == 11
  }

  function TrimLeft(s: string): (t: string)
    ensures |t| <= |s| && t == s[|s| - |t|..]
    ensures |t| > 0 ==> !IsTrimmable(t[0])
    ensures forall i :: 0 <= i < |s| - |t| ==> IsTrimmable(s[i])
  {
    if |s| > 0 && IsTrimmable(s[0]) then
      var t := TrimLeft(s[1..]);
      assert forall i :: 1 <= i < |s| ==> s[1..][i - 1] == s[i];
      assert s[1..][|s| - 1 - |t|..] == s[|s| - |t|..];
      t
    else s
  }

  function TrimRight(s: string): (t: string)
    ensures |t| <= |s| && t == s[..|t|]
    ensures |t| > 0 ==> !IsTrimmable(t[|t| - 1])
    ensures forall i :: |t| <= i < |s| ==> IsTrimmable(s[i])
  {
    if |s| > 0 && IsTrimmable(s[|s| - 1]) then
      var t := TrimRight(s[..|s| - 1]);
      assert forall i :: 0 <= i < |s| - 1 ==> s[..|s| - 1][i] == s[i];
      assert s[..|s| - 1][..|t|] == s[..|t|];
      t
    else s
  }

  /** `trim($s)`. */
  function Trim(s: string): string {
    TrimRight(TrimLeft(s))
  }

  /** `trim` returns a piece of its input that neither starts nor ends with a trimmable character,
      and only trimmable characters were cut away. */
  lemma TrimCuts(s: string)
    ensures exists i, j ::
              && 0 <= i <= j <= |s| && Trim(s) == s[i..j]
              && (forall k :: 0 <= k < i ==> IsTrimmable(s[k]))
              && (forall k :: j <= k < |s| ==> IsTrimmable(s[k]))
    ensures |Trim(s)| > 0 ==> !IsTrimmable(Trim(s)[0]) && !IsTrimmable(Trim(s)[|Trim(s)| - 1])
  {
    var l := TrimLeft(s);
    var t := TrimRight(l);
    var i := |s| - |l|;
    var j := i + |t|;
    assert t == s[i..j];
    assert forall k :: 0 <= k < i ==> IsTrimmable(s[k]);
    forall k | j <= k < |s| ensures IsTrimmable(s[k]) {
      assert s[k] == l[k - i];
    }
    if |t| > 0 {
      assert t[0] == l[0];
    }
  }

  /** Trimming twice is trimming once. */
  lemma TrimIdempotent(s: string)
    ensures Trim(Trim(s)) == Trim(s)
  {
    TrimCuts(s);
    var t := Trim(s);
    if |t| > 0 {
      assert TrimLeft(t) == t;
      assert TrimRight(t) == t;
    }
  }

  /** `strtolower`, on ASCII letters. */
  function Lower(s: string): (t: string)
    ensures |t| == |s|
    ensures forall i :: 0 <= i < |s| ==> t[i] == LowerChar(s[i])
  {
    if |s| == 0 then "" else [LowerChar(s[0])] + Lower(s[1..])
  }

  function LowerChar(c: char): char {
    if 'A' <= c <= 'Z' then (c as int - 'A' as int + 'a' as int) as char else c
  }

  /** `explode($sep, $s)`: the pieces between separators, always at least one. */
  function Split(s: string, sep: char): (parts: seq<string>)
    ensures |parts| >= 1
  {
    if |s| == 0 then [""]
    else
      var rest := Split(s[1..], sep);
      if s[0] == sep then [""] + rest
      else [[s[0]] + rest[0]] + rest[1..]
  }

  /** `implode($sep, $parts)`. */
  function Join(parts: seq<string>, sep: char): string
    requires |parts| >= 1
  {
    if |parts| == 1 then parts[0] else parts[0] + [sep] + Join(parts[1..], sep)
  }

  /** `explode` loses nothing: joining the pieces with the separator gives the input back,
      and no piece contains the separator. */
  lemma {:induction false} SplitJoin(s: string, sep: char)
    ensures Join(Split(s, sep), sep) == s
    ensures forall p :: p in Split(s, sep) ==> sep !in p
  {
    if |s| > 0 {
      SplitJoin(s[1..], sep);
      var rest := Split(s[1..], sep);
      if s[0] == sep {
        assert Split(s, sep)[1..] == rest;
        assert s == [sep] + s[1..];
      } else {
        var parts := Split(s, sep);
        assert parts[1..] == rest[1..];
        if |rest| == 1 {
          assert s == [s[0]] + rest[0];
        } else {
          assert Join(rest, sep) == rest[0] + [sep] + Join(rest[1..], sep);
          assert s == [s[0]] + s[1..];
        }
        forall p | p in parts ensures sep !in p {
          if p == parts[0] {
            assert rest[0] in rest;
          } else {
            assert p in rest;
          }
        }
      }
    }
  }

  /** Byte-wise string order, the order `ksort` gives to non-numeric string keys. */
  predicate LexLess(a: string, b: string) {
    if |a| == 0 then |b| > 0
    else if |b| == 0 then false
    else if a[0] != b[0] then a[0] < b[0]
    else LexLess(a[1..], b[1..])
  }

  lemma {:induction false} LexIrreflexive(a: string)
    ensures !LexLess(a, a)
  {
    if |a| > 0 {
      LexIrreflexive(a[1..]);
    }
  }

  lemma {:induction false} LexTotal(a: string, b: string)
    ensures a == b || LexLess(a, b) || LexLess(b, a)
  {
    if |a| > 0 && |b| > 0 && a[0] == b[0] {
      LexTotal(a[1..], b[1..]);
      if a[1..] == b[1..] {
        assert a == [a[0]] + a[1..] && b == [b[0]] + b[1..];
      }
    }
  }

  lemma {:induction false} LexAsymmetric(a: string, b: string)
    ensures !(LexLess(a, b) && LexLess(b, a))
  {
    if |a| > 0 && |b| > 0 && a[0] == b[0] {
      LexAsymmetric(a[1..], b[1..]);
    }
  }

  lemma {:induction false} LexTransitive(a: string, b: string, c: string)
    requires LexLess(a, b) && LexLess(b, c)
    ensures LexLess(a, c)
  {
    if |a| > 0 && |b| > 0 && |c| > 0 && a[0] == b[0] && b[0] == c[0] {
      LexTransitive(a[1..], b[1..], c[1..]);
    }
  }
}
