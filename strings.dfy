/** The `String.prototype` methods the dashboard uses on paths and names:
    `startsWith`, `endsWith`, `includes`, `indexOf`, `replace` with a string
    pattern, and `toLowerCase`. Strings are modelled as `seq<char>`, a
    sequence of Unicode scalar values; JavaScript's UTF-16 code units agree
    with them for every character outside the surrogate range. */
module Strings {
  import opened Wrappers

  /** `p` occurs in `s` at index `i`. */
  predicate OccursAt(s: string, p: string, i: int)
  {
    0 <= i && i + |p| <= |s| && s[i..i + |p|] == p
  }

  /** `s.startsWith(p)` */
  predicate StartsWith(s: string, p: string)
  {
    p <= s
  }

  /** `s.endsWith(p)` */
  predicate EndsWith(s: string, p: string)
  {
    |p| <= |s| && s[|s| - |p|..] == p
  }

  /** The first index at or after `from` where `p` occurs. */
  function FindFrom(s: string, p: string, from: nat): (r: Option<nat>)
    ensures r.Some? ==> from <= r.value && OccursAt(s, p, r.value)
    ensures r.Some? ==> forall j :: from <= j < r.value ==> !OccursAt(s, p, j)
    ensures r.None? ==> forall j :: from <= j ==> !OccursAt(s, p, j)
    decreases |s| - from
  {
    if from + |p| > |s| then None
    else if s[from..from + |p|] == p then Some(from)
    else FindFrom(s, p, from + 1)
  }

  /** `s.indexOf(p)`, with -1 as `None`: the first occurrence. */
  function IndexOf(s: string, p: string): (r: Option<nat>)
    ensures r.Some? ==> OccursAt(s, p, r.value) && forall j :: 0 <= j < r.value ==> !OccursAt(s, p, j)
    ensures r.None? ==> forall j :: !OccursAt(s, p, j)
  {
    FindFrom(s, p, 0)
  }

  /** The first index at or after `from` where `p` occurs is the one
      `FindFrom` finds. */
  lemma {:induction false} FindFromFirst(s: string, p: string, from: nat, i: nat)
    requires from <= i && OccursAt(s, p, i)
    requires forall j :: from <= j < i ==> !OccursAt(s, p, j)
    ensures FindFrom(s, p, from) == Some(i)
    decreases i - from
  {
    if from < i {
      FindFromFirst(s, p, from + 1, i);
    }
  }

  /** An occurrence with none before it is the one `indexOf` returns. */
  lemma FirstOccurrence(s: string, p: string, i: nat)
    requires OccursAt(s, p, i)
    requires forall j :: 0 <= j < i ==> !OccursAt(s, p, j)
    ensures IndexOf(s, p) == Some(i)
  {
    FindFromFirst(s, p, 0, i);
  }

  /** `s.includes(p)` */
  predicate Contains(s: string, p: string)
  {
    IndexOf(s, p).Some?
  }

  /** `includes` holds exactly when the pattern occurs somewhere. */
  lemma ContainsIffOccurs(s: string, p: string)
    ensures Contains(s, p) <==> exists i :: OccursAt(s, p, i)
  {
    if Contains(s, p) {
      assert OccursAt(s, p, IndexOf(s, p).value);
    }
  }

  /** `s.replace(p, q)` for a string pattern `p` and a replacement without `$`
      patterns: the first occurrence of `p` is replaced, the rest is kept. */
  function ReplaceFirst(s: string, p: string, q: string): (r: string)
    ensures IndexOf(s, p).None? ==> r == s
    ensures IndexOf(s, p).Some? ==>
      var i := IndexOf(s, p).value;
      |r| == |s| - |p| + |q| && r[..i] == s[..i] && r[i..i + |q|] == q && r[i + |q|..] == s[i + |p|..]
  {
    match IndexOf(s, p)
    case None => s
    case Some(i) => s[..i] + q + s[i + |p|..]
  }

  /** An upper-case letter of ASCII or Latin-1: `A`..`Z`, or `À`..`Þ`
      without the sign `×`. */
  predicate IsUpper(c: char)
  {
    'A' <= c <= 'Z' || ('À' <= c <= 'Þ' && c != '×')
  }

  /** `c.toLowerCase()` for the letters of ASCII and Latin-1: an upper-case
      letter moves 32 code points up to its small letter, every other
      character is kept, and no upper-case letter is left. */
  function LowerChar(c: char): (r: char)
    ensures IsUpper(c) ==> r as int == c as int + 32
    ensures !IsUpper(c) ==> r == c
    ensures !IsUpper(r)
  {
    if IsUpper(c) then (c as int + 32) as char else c
  }

  /** `s.toLowerCase()`: each character is lowered on its own, and no
      upper-case letter is left. */
  function ToLower(s: string): (r: string)
    ensures |r| == |s|
    ensures forall i :: 0 <= i < |s| ==> r[i] == LowerChar(s[i])
    ensures forall i :: 0 <= i < |r| ==> !IsUpper(r[i])
  {
    seq(|s|, i requires 0 <= i < |s| => LowerChar(s[i]))
  }

  /** Lowering twice is lowering once. */
  lemma ToLowerIdempotent(s: string)
    ensures ToLower(ToLower(s)) == ToLower(s)
  {
    var r := ToLower(s);
    forall i | 0 <= i < |r|
      ensures ToLower(r)[i] == r[i]
    {
      assert !IsUpper(r[i]);
    }
  }

  /** `a` and `b` are the same letter in either case. */
  predicate SameUpToCase(a: char, b: char)
  {
    a == b || (IsUpper(a) && b as int == a as int + 32) || (IsUpper(b) && a as int == b as int + 32)
  }

  /** Strings that differ only in the case of their letters lower alike,
      which is what makes the search case-insensitive. */
  lemma ToLowerIgnoresCase(s: string, t: string)
    requires |s| == |t| && forall i :: 0 <= i < |s| ==> SameUpToCase(s[i], t[i])
    ensures ToLower(s) == ToLower(t)
  {
    forall i | 0 <= i < |s|
      ensures ToLower(s)[i] == ToLower(t)[i]
    {
      if IsUpper(s[i]) && t[i] as int == s[i] as int + 32 {
        assert !IsUpper(t[i]);
      } else if IsUpper(t[i]) && s[i] as int == t[i] as int + 32 {
        assert !IsUpper(s[i]);
      }
    }
  }
}
