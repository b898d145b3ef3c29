/**
 * String operations shared by the scripts and services: JavaScript's `trim`
 * and `\s`, `split`/`join` on one separator character, and global
 * replacement of a character or of a literal pattern.
 */
module Text {
  import opened Wrappers

  /** ECMAScript WhiteSpace and LineTerminator code points: what `trim` strips and what `\s` matches. */
  predicate IsJsSpace(c: char) {
    c == '\t' || c == '\n' || c == '\U{000B}' || c == '\U{000C}' || c == '\r' || c == ' '
    || c == '\U{00A0}' || c == '\U{1680}' || ('\U{2000}' <= c <= '\U{200A}')
    || c == '\U{2028}' || c == '\U{2029}' || c == '\U{202F}' || c == '\U{205F}'
    || c == '\U{3000}' || c == '\U{FEFF}'
  }

  /** `String.prototype.trimStart`: drop the longest all-whitespace prefix. */
  function TrimStart(s: string): (r: string)
    ensures |r| <= |s| && r == s[|s| - |r|..]
    ensures forall i :: 0 <= i < |s| - |r| ==> IsJsSpace(s[i])
    ensures r == [] || !IsJsSpace(r[0])
  {
    if |s| > 0 && IsJsSpace(s[0]) then TrimStart(s[1..]) else s
  }

  /** `String.prototype.trimEnd`: drop the longest all-whitespace suffix. */
  function TrimEnd(s: string): (r: string)
    ensures |r| <= |s| && r == s[..|r|]
    ensures forall i :: |r| <= i < |s| ==> IsJsSpace(s[i])
    ensures r == [] || !IsJsSpace(r[|r| - 1])
  {
    if |s| > 0 && IsJsSpace(s[|s| - 1]) then TrimEnd(s[..|s| - 1]) else s
  }

  /** `String.prototype.trim`. */
  function Trim(s: string): string {
    TrimEnd(TrimStart(s))
  }

  /** Index of the first occurrence of `c` in `s`. */
  function IndexOf(s: string, c: char): (r: Option<nat>)
    ensures r.Some? ==> r.value < |s| && s[r.value] == c && c !in s[..r.value]
    ensures r.None? <==> c !in s
  {
    if |s| == 0 then None
    else if s[0] == c then Some(0)
    else match IndexOf(s[1..], c)
      case None => None
      case Some(i) => assert s[1..][..i] == s[1..i + 1]; Some(i + 1)
  }

  /** Index of the last occurrence of `c` in `s` (`lastIndexOf`). */
  function LastIndexOf(s: string, c: char): (r: Option<nat>)
    ensures r.Some? ==> r.value < |s| && s[r.value] == c && c !in s[r.value + 1..]
    ensures r.None? <==> c !in s
  {
    if |s| == 0 then None
    else if s[|s| - 1] == c then Some(|s| - 1)
    else
      var r := LastIndexOf(s[..|s| - 1], c);
      assert s == s[..|s| - 1] + [s[|s| - 1]];
      if r.Some? then assert s[r.value + 1..] == s[..|s| - 1][r.value + 1..] + [s[|s| - 1]]; r else r
  }

  /** `s.endsWith(suffix)` / `strings.HasSuffix(s, suffix)`. */
  predicate EndsWith(s: string, suffix: string) {
    |suffix| <= |s| && s[|s| - |suffix|..] == suffix
  }

  /**
   * `s.split(sep)` in JavaScript and `strings.Split(s, sep)` in Go for a
   * one-character separator: the pieces between separators, at least one.
   */
  function Split(s: string, sep: char): (parts: seq<string>)
    ensures |parts| >= 1
    ensures forall i :: 0 <= i < |parts| ==> sep !in parts[i]
    decreases |s|
  {
    match IndexOf(s, sep)
    case None => [s]
    case Some(i) => [s[..i]] + Split(s[i + 1..], sep)
  }

  /** `parts.join(sep)` in JavaScript. */
  function Join(parts: seq<string>, sep: string): string {
    if |parts| == 0 then ""
    else if |parts| == 1 then parts[0]
    else parts[0] + sep + Join(parts[1..], sep)
  }

  /** Joining a non-empty tail after a first piece puts one separator between them. */
  lemma {:induction false} JoinCons(x: string, t: seq<string>, sep: string)
    requires |t| >= 1
    ensures Join([x] + t, sep) == x + sep + Join(t, sep)
  {
    assert ([x] + t)[1..] == t;
  }

  /** Splitting on a character and joining with it again gives back the text. */
  lemma {:induction false} JoinSplit(s: string, sep: char)
    ensures Join(Split(s, sep), [sep]) == s
    decreases |s|
  {
    var r := IndexOf(s, sep);
    if r.Some? {
      JoinSplit(s[r.value + 1..], sep);
      JoinSplitFirst(s, sep, r.value);
    }
  }

  /** The first piece joins back in front of the rest, given that the rest joins back. */
  lemma {:induction false} JoinSplitFirst(s: string, sep: char, i: nat)
    requires IndexOf(s, sep) == Some(i)
    requires Join(Split(s[i + 1..], sep), [sep]) == s[i + 1..]
    ensures Join(Split(s, sep), [sep]) == s
  {
    var parts := Split(s[i + 1..], sep);
    SplitAtFirst(s, sep, i);
    JoinAround(s, i, parts, sep);
  }

  /** Splitting cuts at the first separator and splits what follows it. */
  lemma {:induction false} SplitAtFirst(s: string, sep: char, i: nat)
    requires IndexOf(s, sep) == Some(i)
    ensures i < |s| && s[i] == sep
    ensures Split(s, sep) == [s[..i]] + Split(s[i + 1..], sep)
  {
  }

  /** The piece before a separator, joined in front of pieces that join to the rest, gives back the text. */
  lemma {:induction false} JoinAround(s: string, i: nat, parts: seq<string>, sep: char)
    requires i < |s| && s[i] == sep && |parts| >= 1
    requires Join(parts, [sep]) == s[i + 1..]
    ensures Join([s[..i]] + parts, [sep]) == s
  {
    JoinCons(s[..i], parts, [sep]);
    PieceAround(s, i);
  }

  /** A text is the part before position `i`, the character there and the part after. */
  lemma {:induction false} PieceAround(s: string, i: nat)
    requires i < |s|
    ensures s == s[..i] + [s[i]] + s[i + 1..]
  {
    assert s[..i] + [s[i]] == s[..i + 1];
  }

  /** A text with no separator before position |a| splits there first. */
  lemma {:induction false} SplitAfter(a: string, sep: char, b: string)
    requires sep !in a
    ensures Split(a + [sep] + b, sep) == [a] + Split(b, sep)
  {
    var s := a + [sep] + b;
    assert IndexOf(s, sep) == Some(|a|) by {
      var r := IndexOf(s, sep);
      assert s[|a|] == sep;
      assert sep in s;
      assert forall j :: 0 <= j < |a| ==> s[j] == a[j];
    }
    assert s[..|a|] == a && s[|a| + 1..] == b;
  }

  /** The first piece of a split is the text before the first separator. */
  lemma {:induction false} SplitFirst(s: string, sep: char)
    ensures Split(s, sep)[0] == (match IndexOf(s, sep) case None => s case Some(i) => s[..i])
  {
  }

  /** Everything after the first piece, joined again, is the text after the first separator. */
  lemma {:induction false} JoinSplitTail(s: string, sep: char)
    ensures IndexOf(s, sep).Some? ==> Join(Split(s, sep)[1..], [sep]) == s[IndexOf(s, sep).value + 1..]
    ensures IndexOf(s, sep).None? <==> |Split(s, sep)| == 1
  {
    match IndexOf(s, sep)
    case None =>
    case Some(i) =>
      var rest := s[i + 1..];
      JoinSplit(rest, sep);
      SplitAtFirst(s, sep, i);
      DropFirst(s[..i], Split(rest, sep));
  }

  /** Dropping the first piece of `[x] + t` leaves `t`. */
  lemma {:induction false} DropFirst(x: string, t: seq<string>)
    ensures ([x] + t)[1..] == t
  {
  }

  /** Replace every occurrence of the character `c` by `rep` (`s.replace(/c/g, rep)`). */
  function ReplaceChar(s: string, c: char, rep: string): (r: string)
    ensures c !in rep ==> c !in r
    ensures c !in s ==> r == s
  {
    if s == [] then []
    else (if s[0] == c then rep else [s[0]]) + ReplaceChar(s[1..], c, rep)
  }

  /** Number of occurrences of `c` in `s`. */
  function Count(s: string, c: char): nat {
    if s == [] then 0 else (if s[0] == c then 1 else 0) + Count(s[1..], c)
  }

  /** Each replaced character contributes |rep| characters, every other one itself. */
  lemma {:induction false} ReplaceCharLength(s: string, c: char, rep: string)
    ensures |ReplaceChar(s, c, rep)| == |s| - Count(s, c) + Count(s, c) * |rep|
  {
    if s != [] {
      var t := s[1..];
      ReplaceCharLength(t, c, rep);
      assert |ReplaceChar(s, c, rep)| == (if s[0] == c then |rep| else 1) + |ReplaceChar(t, c, rep)|;
      assert Count(s, c) == (if s[0] == c then Count(t, c) + 1 else Count(t, c));
      ReplaceCharLengthStep(|ReplaceChar(t, c, rep)|, |t|, Count(t, c), |rep|, s[0] == c);
    }
  }

  /** One more character adds |rep| to the length when it is replaced and 1 otherwise. */
  lemma {:induction false} ReplaceCharLengthStep(len: nat, size: nat, n: nat, k: nat, hit: bool)
    requires len == size - n + n * k
    ensures (if hit then k else 1) + len == (size + 1) - (if hit then n + 1 else n) + (if hit then n + 1 else n) * k
  {
    assert (n + 1) * k == n * k + k;
  }

  /** Replacement works piecewise: it distributes over concatenation. */
  lemma {:induction false} ReplaceCharAppend(a: string, b: string, c: char, rep: string)
    ensures ReplaceChar(a + b, c, rep) == ReplaceChar(a, c, rep) + ReplaceChar(b, c, rep)
  {
    if a == [] {
      assert a + b == b;
    } else {
      assert (a + b)[1..] == a[1..] + b;
      ReplaceCharAppend(a[1..], b, c, rep);
    }
  }

  /**
   * `s.replace(new RegExp(pat, 'g'), v)` for a pattern that matches only its
   * own literal text: leftmost, non-overlapping occurrences become `v`.
   */
  function ReplaceAll(s: string, pat: string, v: string): string
    requires |pat| > 0
    decreases |s|
  {
    if |s| == 0 then s
    else if pat <= s then v + ReplaceAll(s[|pat|..], pat, v)
    else [s[0]] + ReplaceAll(s[1..], pat, v)
  }

  /** Text in which `pat` occurs nowhere comes out of the replacement unchanged. */
  lemma {:induction false} ReplaceAllAbsent(s: string, pat: string, v: string)
    requires |pat| > 0 && NotIn(s, pat)
    ensures ReplaceAll(s, pat, v) == s
    decreases |s|
  {
    if |s| > 0 {
      assert s[0..] == s;
      assert NotIn(s[1..], pat) by {
        forall i | 0 <= i < |s| - 1 ensures !(pat <= s[1..][i..]) {
          assert s[1..][i..] == s[i + 1..];
        }
      }
      ReplaceAllAbsent(s[1..], pat, v);
      assert [s[0]] + s[1..] == s;
    }
  }

  /** Concatenation is associative; stated once so that callers need not re-derive it in a large context. */
  lemma {:induction false} AppendAssoc(a: string, b: string, c: string)
    ensures a + b + c == a + (b + c)
  {
  }

  /** A first character that cannot start `pat` is copied and replacement goes on after it. */
  lemma {:induction false} ReplaceAllPlainHead(s: string, pat: string, v: string)
    requires |pat| > 0 && |s| > 0 && s[0] != pat[0]
    ensures ReplaceAll(s, pat, v) == [s[0]] + ReplaceAll(s[1..], pat, v)
  {
    assert !(pat <= s);
  }

  /** `pat` occurs nowhere in `s`. */
  predicate NotIn(s: string, pat: string) {
    forall i :: 0 <= i < |s| ==> !(pat <= s[i..])
  }
}
