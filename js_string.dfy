/**
 * The JavaScript string built-ins the core relies on, over `seq<char>`:
 * `toLowerCase` and `trim` restricted to ASCII, `substring` with its clamping and
 * swapping rules, `startsWith`/`endsWith`/`includes`, and `Array.prototype.join`.
 */
module JsString {

  /** ASCII white space, the characters `trim` and `\s` match below U+0080. */
  predicate IsSpace(c: char) {
    c == ' ' || c == '\t' || c == '\n' || c == '\r' || c == '\U{000B}' || c == '\U{000C}'
  }

  predicate AllSpace(s: string) {
    forall i :: 0 <= i < |s| ==> IsSpace(s[i])
  }

  predicate NoSpace(s: string) {
    forall i :: 0 <= i < |s| ==> !IsSpace(s[i])
  }

  predicate IsUpper(c: char) {
    'A' <= c <= 'Z'
  }

  predicate NoUpper(s: string) {
    forall i :: 0 <= i < |s| ==> !IsUpper(s[i])
  }

  /** `toLowerCase` on one character, ASCII letters only. */
  function LowerChar(c: char): (r: char)
    ensures !IsUpper(r)
    ensures IsSpace(r) <==> IsSpace(c)
    ensures !IsUpper(c) ==> r == c
  {
    if IsUpper(c) then (c as int + 32) as char else c
  }

  /** `toLowerCase`, ASCII letters only. */
  function ToLower(s: string): (r: string)
    ensures |r| == |s|
    ensures forall i :: 0 <= i < |s| ==> r[i] == LowerChar(s[i])
  {
    if s == [] then [] else [LowerChar(s[0])] + ToLower(s[1..])
  }

  /** Concatenation regroups freely. */
  lemma ConcatAssociative(a: string, b: string, c: string)
    ensures a + b + c == a + (b + c)
  {
  }

  lemma {:induction false} ToLowerConcat(a: string, b: string)
    ensures ToLower(a + b) == ToLower(a) + ToLower(b)
  {
    var l, r := ToLower(a + b), ToLower(a) + ToLower(b);
    assert |l| == |r|;
    forall i | 0 <= i < |l| ensures l[i] == r[i] {
      if i < |a| { assert (a + b)[i] == a[i]; } else { assert (a + b)[i] == b[i - |a|]; }
    }
  }

  /** Lower-casing twice is lower-casing once. */
  lemma ToLowerIdempotent(s: string)
    ensures ToLower(ToLower(s)) == ToLower(s)
  {
    var once := ToLower(s);
    assert forall i :: 0 <= i < |once| ==> LowerChar(once[i]) == once[i];
  }

  /** `trimStart`: the longest suffix that does not start with white space. */
  function TrimStart(s: string): (r: string)
    ensures |r| <= |s| && r == s[|s| - |r|..]
    ensures AllSpace(s[..|s| - |r|])
    ensures r == [] || !IsSpace(r[0])
  {
    if s == [] || !IsSpace(s[0]) then s
    else
      var r := TrimStart(s[1..]);
      assert s[1..][..|s| - 1 - |r|] == s[1..|s| - |r|];
      assert s[1..][|s| - 1 - |r|..] == s[|s| - |r|..];
      assert s[..|s| - |r|] == [s[0]] + s[1..|s| - |r|];
      r
  }

  /** `trimEnd`: the longest prefix that does not end with white space. */
  function TrimEnd(s: string): (r: string)
    ensures |r| <= |s| && r == s[..|r|]
    ensures AllSpace(s[|r|..])
    ensures r == [] || !IsSpace(r[|r| - 1])
  {
    if s == [] || !IsSpace(s[|s| - 1]) then s
    else
      var r := TrimEnd(s[..|s| - 1]);
      assert s[..|s| - 1][|r|..] == s[|r|..|s| - 1];
      r
  }

  /** Neither end of the text is white space. */
  predicate Trimmed(s: string) {
    s == [] || (!IsSpace(s[0]) && !IsSpace(s[|s| - 1]))
  }

  /** `String.prototype.trim`: neither end of the result is white space. */
  function Trim(s: string): (r: string)
    ensures Trimmed(r)
  {
    TrimEnd(TrimStart(s))
  }

  lemma {:induction false} TrimStartSpace(pre: string, rest: string)
    requires AllSpace(pre) && (rest == [] || !IsSpace(rest[0]))
    ensures TrimStart(pre + rest) == rest
  {
    if pre != [] {
      assert (pre + rest)[1..] == pre[1..] + rest;
      TrimStartSpace(pre[1..], rest);
    }
  }

  lemma {:induction false} TrimEndSpace(rest: string, post: string)
    requires AllSpace(post) && (rest == [] || !IsSpace(rest[|rest| - 1]))
    ensures TrimEnd(rest + post) == rest
  {
    if post != [] {
      assert (rest + post)[..|rest + post| - 1] == rest + post[..|post| - 1];
      TrimEndSpace(rest, post[..|post| - 1]);
    }
  }

  /** Trimming a text that is white space, a body with non-space ends, white space gives the body. */
  lemma TrimFramed(pre: string, body: string, post: string)
    requires AllSpace(pre) && AllSpace(post)
    requires body != [] && !IsSpace(body[0]) && !IsSpace(body[|body| - 1])
    ensures Trim(pre + body + post) == body
  {
    assert pre + body + post == pre + (body + post);
    TrimStartSpace(pre, body + post);
    TrimEndSpace(body, post);
  }

  /** `s.substring(start, end)`: each bound clamped to `0..|s|`, swapped when start > end. */
  function Substring(s: string, start: int, end: int): (r: string)
    ensures |r| <= |s|
  {
    var a := Clamp(start, |s|);
    var b := Clamp(end, |s|);
    if a <= b then s[a..b] else s[b..a]
  }

  function Clamp(x: int, len: nat): (r: nat)
    ensures r <= len
  {
    if x < 0 then 0 else if x > len then len else x
  }

  /** `s.includes(t)` at a given offset. */
  predicate ContainsAt(s: string, t: string, k: nat) {
    k + |t| <= |s| && s[k..k + |t|] == t
  }

  /** `s.includes(t)`. */
  predicate Contains(s: string, t: string) {
    exists k: nat :: k <= |s| && ContainsAt(s, t, k)
  }

  /** `s.endsWith(t)`. */
  predicate EndsWith(s: string, t: string) {
    |t| <= |s| && s[|s| - |t|..] == t
  }

  lemma ContainsAtMiddle(a: string, t: string, b: string)
    ensures ContainsAt(a + t + b, t, |a|)
  {
    assert (a + t + b)[|a|..|a| + |t|] == t;
  }

  lemma ContainsMiddle(a: string, t: string, b: string)
    ensures Contains(a + t + b, t)
  {
    ContainsAtMiddle(a, t, b);
  }

  /** A substring of a part is a substring of any text the part is embedded in. */
  lemma {:induction false} ContainsWithin(a: string, s: string, b: string, t: string, k: nat)
    requires ContainsAt(s, t, k)
    ensures ContainsAt(a + s + b, t, |a| + k)
  {
    assert (a + s + b)[|a| + k..|a| + k + |t|] == s[k..k + |t|];
  }

  /** Containment is transitive: a substring of a substring is a substring. */
  lemma ContainsAtTrans(s: string, u: string, t: string, j: nat, k: nat)
    requires ContainsAt(s, u, j) && ContainsAt(u, t, k)
    ensures ContainsAt(s, t, j + k)
  {
    forall m | 0 <= m < |t|
      ensures s[j + k..j + k + |t|][m] == t[m]
    {
      assert t[m] == u[k + m] == s[j + k + m];
    }
  }

  /** `parts.join(sep)`. */
  function Join(parts: seq<string>, sep: string): string {
    if parts == [] then ""
    else if |parts| == 1 then parts[0]
    else parts[0] + sep + Join(parts[1..], sep)
  }

  /** Every part of a join appears in the joined text. */
  lemma {:induction false} JoinContains(parts: seq<string>, sep: string, i: nat)
    requires i < |parts|
    ensures Contains(Join(parts, sep), parts[i])
  {
    if |parts| == 1 {
      ContainsAtMiddle("", parts[0], "");
      assert "" + parts[0] + "" == parts[0];
    } else if i == 0 {
      ContainsAtMiddle("", parts[0], sep + Join(parts[1..], sep));
      assert parts[0] + sep + Join(parts[1..], sep) == "" + parts[0] + (sep + Join(parts[1..], sep));
    } else {
      JoinContains(parts[1..], sep, i - 1);
      var k: nat :| ContainsAt(Join(parts[1..], sep), parts[i], k);
      ContainsWithin(parts[0] + sep, Join(parts[1..], sep), "", parts[i], k);
      assert parts[0] + sep + Join(parts[1..], sep) + "" == Join(parts, sep);
    }
  }

  /** A template literal: the concatenation of its literal and interpolated pieces, in order. */
  function Concat(parts: seq<string>): string {
    if parts == [] then "" else parts[0] + Concat(parts[1..])
  }

  lemma {:induction false} ConcatSplit(parts: seq<string>, i: nat)
    requires i <= |parts|
    ensures Concat(parts) == Concat(parts[..i]) + Concat(parts[i..])
  {
    if i > 0 {
      ConcatSplit(parts[1..], i - 1);
      assert parts[1..][..i - 1] == parts[..i][1..];
      assert parts[1..][i - 1..] == parts[i..];
    } else {
      assert parts[i..] == parts;
    }
  }

  /** The pieces `i` to `j` of a template appear in it right after the pieces before `i`. */
  lemma ConcatSliceAt(parts: seq<string>, i: nat, j: nat)
    requires i <= j <= |parts|
    ensures ContainsAt(Concat(parts), Concat(parts[i..j]), |Concat(parts[..i])|)
    ensures |Concat(parts[..i])| + |Concat(parts[i..j])| == |Concat(parts[..j])|
  {
    ConcatSplit(parts, i);
    ConcatSplit(parts[i..], j - i);
    assert parts[i..][..j - i] == parts[i..j];
    ContainsAtMiddle(Concat(parts[..i]), Concat(parts[i..j]), Concat(parts[i..][j - i..]));
    ConcatSplit(parts[..j], i);
    assert parts[..j][..i] == parts[..i] && parts[..j][i..] == parts[i..j];
  }

  /** A template starts with its first pieces. */
  lemma ConcatPrefix(parts: seq<string>, i: nat)
    requires i <= |parts|
    ensures Concat(parts[..i]) <= Concat(parts)
  {
    ConcatSplit(parts, i);
  }

  /** A template ends with its last pieces. */
  lemma ConcatSuffix(parts: seq<string>, i: nat)
    requires i <= |parts|
    ensures EndsWith(Concat(parts), Concat(parts[i..]))
  {
    ConcatSplit(parts, i);
    var a, b := Concat(parts[..i]), Concat(parts[i..]);
    assert (a + b)[|a + b| - |b|..] == b;
  }

  lemma ConcatOne(p: string)
    ensures Concat([p]) == p
  {
    assert [p][1..] == [];
  }

  lemma Concat2(a: string, b: string)
    ensures Concat([a, b]) == a + b
  {
    assert [a, b][1..] == [b];
    ConcatOne(b);
  }

  lemma Concat3(a: string, b: string, c: string)
    ensures Concat([a, b, c]) == a + b + c
  {
    assert [a, b, c][1..] == [b, c];
    Concat2(b, c);
  }

  lemma Concat4(a: string, b: string, c: string, d: string)
    ensures Concat([a, b, c, d]) == a + b + c + d
  {
    assert [a, b, c, d][1..] == [b, c, d];
    Concat3(b, c, d);
  }

  /** Each piece sits in the template right after the pieces before it. */
  lemma ConcatPiece(parts: seq<string>, i: nat)
    requires i < |parts|
    ensures ContainsAt(Concat(parts), parts[i], |Concat(parts[..i])|)
    ensures |Concat(parts[..i])| + |parts[i]| == |Concat(parts[..i + 1])|
  {
    ConcatSliceAt(parts, i, i + 1);
    assert parts[i..i + 1] == [parts[i]];
    ConcatOne(parts[i]);
  }

  /** Whatever one piece contains, the whole template contains. */
  lemma ConcatContainsPiece(parts: seq<string>, j: nat, t: string)
    requires j < |parts| && Contains(parts[j], t)
    ensures Contains(Concat(parts), t)
  {
    ConcatPiece(parts, j);
    var k: nat :| k <= |parts[j]| && ContainsAt(parts[j], t, k);
    ContainsAtTrans(Concat(parts), parts[j], t, |Concat(parts[..j])|, k);
  }

  /** Three consecutive pieces sit together in the template. */
  lemma ConcatPieces3(parts: seq<string>, i: nat)
    requires i + 3 <= |parts|
    ensures ContainsAt(Concat(parts), parts[i] + parts[i + 1] + parts[i + 2], |Concat(parts[..i])|)
    ensures |Concat(parts[..i])| + |parts[i] + parts[i + 1] + parts[i + 2]| == |Concat(parts[..i + 3])|
  {
    ConcatSliceAt(parts, i, i + 3);
    assert parts[i..i + 3] == [parts[i], parts[i + 1], parts[i + 2]];
    Concat3(parts[i], parts[i + 1], parts[i + 2]);
  }

  /** `x`, `y` and `z` occur in `s` in that order, without overlapping. */
  predicate InOrder(s: string, x: string, y: string, z: string) {
    exists i: nat, j: nat, k: nat ::
      && i <= |s| && j <= |s| && k <= |s|
      && ContainsAt(s, x, i) && ContainsAt(s, y, j) && ContainsAt(s, z, k)
      && i + |x| <= j && j + |y| <= k
  }

  /** A piece, then a run of three pieces, then a later piece occur in that order. */
  lemma ConcatInOrder(parts: seq<string>, a: nat, b: nat, c: nat)
    requires a < b && b + 3 <= c < |parts|
    ensures ContainsAt(Concat(parts), parts[a], |Concat(parts[..a])|)
    ensures ContainsAt(Concat(parts), parts[b] + parts[b + 1] + parts[b + 2], |Concat(parts[..b])|)
    ensures ContainsAt(Concat(parts), parts[c], |Concat(parts[..c])|)
    ensures |Concat(parts[..a])| + |parts[a]| <= |Concat(parts[..b])|
    ensures |Concat(parts[..b])| + |parts[b] + parts[b + 1] + parts[b + 2]| <= |Concat(parts[..c])|
    ensures InOrder(Concat(parts), parts[a], parts[b] + parts[b + 1] + parts[b + 2], parts[c])
  {
    ConcatPiece(parts, a);
    ConcatPieces3(parts, b);
    ConcatPiece(parts, c);
    ConcatOffsetMonotone(parts, a + 1, b);
    ConcatOffsetMonotone(parts, b + 3, c);
    assert ContainsAt(Concat(parts), parts[a], |Concat(parts[..a])|);
  }

  lemma ConcatOffsetMonotone(parts: seq<string>, i: nat, j: nat)
    requires i <= j <= |parts|
    ensures |Concat(parts[..i])| <= |Concat(parts[..j])|
  {
    ConcatSliceAt(parts, i, j);
  }

  /** A template ends with the last character of its last piece when that piece is not empty. */
  lemma {:induction false} ConcatLastChar(parts: seq<string>)
    requires |parts| > 0 && parts[|parts| - 1] != []
    ensures Concat(parts) != []
    ensures Concat(parts)[|Concat(parts)| - 1] == parts[|parts| - 1][|parts[|parts| - 1]| - 1]
  {
    if |parts| > 1 {
      ConcatLastChar(parts[1..]);
    } else {
      ConcatOne(parts[0]);
    }
  }

  /** `trim` removes exactly the white space framing a template whose pieces have non-space ends. */
  lemma TrimTemplate(pre: string, parts: seq<string>, post: string)
    requires AllSpace(pre) && AllSpace(post)
    requires |parts| > 0 && parts[0] != [] && parts[|parts| - 1] != []
    requires !IsSpace(parts[0][0]) && !IsSpace(parts[|parts| - 1][|parts[|parts| - 1]| - 1])
    ensures Trim(pre + Concat(parts) + post) == Concat(parts)
  {
    ConcatLastChar(parts);
    TrimFramed(pre, Concat(parts), post);
  }
}
