/** The .NET string and path operations the harness relies on, with ordinal
    comparison, ASCII case rules and '/' as the only directory separator. */
module Text {

  /** `s.TrimStart(c)`: drops every leading occurrence of `c`. */
  function TrimStart(s: string, c: char): (r: string)
    ensures |r| <= |s| && r == s[|s| - |r|..]
    ensures r == [] || r[0] != c
    ensures forall i :: 0 <= i < |s| - |r| ==> s[i] == c
  {
    if |s| > 0 && s[0] == c then TrimStart(s[1..], c) else s
  }

  /** `s.TrimEnd(c)`: drops every trailing occurrence of `c`. */
  function TrimEnd(s: string, c: char): (r: string)
    ensures |r| <= |s| && r == s[..|r|]
    ensures r == [] || r[|r| - 1] != c
    ensures forall i :: |r| <= i < |s| ==> s[i] == c
  {
    if |s| > 0 && s[|s| - 1] == c then TrimEnd(s[..|s| - 1], c) else s
  }

  /** `k` copies of `c`. */
  function Repeat(c: char, k: nat): (r: string)
    ensures |r| == k && forall i :: 0 <= i < k ==> r[i] == c
  {
    if k == 0 then [] else [c] + Repeat(c, k - 1)
  }

  /** A run of the trimmed character alone trims to nothing. */
  lemma {:induction false} TrimStartRun(c: char, k: nat)
    ensures TrimStart(Repeat(c, k), c) == []
  {
    if k > 0 {
      var t := Repeat(c, k);
      assert t[1..] == Repeat(c, k - 1);
      TrimStartRun(c, k - 1);
    }
  }

  /** Leading copies of the trimmed character never change the result. */
  lemma {:induction false} TrimStartIgnoresPrefix(s: string, c: char, k: nat)
    ensures TrimStart(Repeat(c, k) + s, c) == TrimStart(s, c)
  {
    if k > 0 {
      var t := Repeat(c, k) + s;
      assert Repeat(c, k) == [c] + Repeat(c, k - 1);
      assert t == [c] + (Repeat(c, k - 1) + s);
      assert t[1..] == Repeat(c, k - 1) + s;
      assert TrimStart(t, c) == TrimStart(t[1..], c);
      TrimStartIgnoresPrefix(s, c, k - 1);
    } else {
      assert Repeat(c, k) + s == s;
    }
  }

  /** Trailing copies of the trimmed character never change the result. */
  lemma {:induction false} TrimEndIgnoresSuffix(s: string, c: char, k: nat)
    ensures TrimEnd(s + Repeat(c, k), c) == TrimEnd(s, c)
  {
    if k > 0 {
      var t := s + Repeat(c, k);
      assert t[|t| - 1] == c;
      var u := s + Repeat(c, k - 1);
      assert |t[..|t| - 1]| == |u|;
      assert forall i :: 0 <= i < |u| ==> t[..|t| - 1][i] == u[i];
      assert t[..|t| - 1] == u;
      TrimEndIgnoresSuffix(s, c, k - 1);
    } else {
      assert s + Repeat(c, k) == s;
    }
  }

  /** Trimming is idempotent and leaves a string without a leading `c` alone. */
  lemma TrimStartIdempotent(s: string, c: char)
    ensures TrimStart(TrimStart(s, c), c) == TrimStart(s, c)
  {
    var r := TrimStart(s, c);
    assert r == [] || r[0] != c;
  }

  /** `s.StartsWith(p)` with ordinal comparison. */
  predicate StartsWith(s: string, p: string)
  {
    |p| <= |s| && s[..|p|] == p
  }

  /** `sub` occurs in `s` starting at index `i`. */
  predicate OccursAt(s: string, sub: string, i: int)
  {
    0 <= i <= |s| - |sub| && s[i..i + |sub|] == sub
  }

  /** `s.Contains(sub)` with ordinal comparison. */
  predicate Contains(s: string, sub: string)
  {
    exists i :: 0 <= i <= |s| - |sub| && OccursAt(s, sub, i)
  }

  /** The middle piece of a three-piece string lies right after the first. */
  lemma OccursInMiddle(a: string, b: string, c: string)
    ensures OccursAt(a + b + c, b, |a|)
  {
    assert (a + b + c)[|a|..|a| + |b|] == b;
  }

  /** Where each of five joined pieces lies in the joined string. */
  lemma PiecesOccur(a: string, b: string, c: string, d: string, e: string)
    ensures OccursAt(a + b + c + d + e, a, 0)
    ensures OccursAt(a + b + c + d + e, b, |a|)
    ensures OccursAt(a + b + c + d + e, c, |a| + |b|)
    ensures OccursAt(a + b + c + d + e, d, |a| + |b| + |c|)
  {
    var s := a + b + c + d + e;
    assert s == [] + a + (b + c + d + e);
    OccursInMiddle([], a, b + c + d + e);
    assert s == a + b + (c + d + e);
    OccursInMiddle(a, b, c + d + e);
    assert s == (a + b) + c + (d + e);
    OccursInMiddle(a + b, c, d + e);
    OccursInMiddle(a + b + c, d, e);
  }

  /** Every string contains itself. */
  lemma ContainsSelf(s: string)
    ensures Contains(s, s)
  {
    assert s[0..|s|] == s;
    assert OccursAt(s, s, 0);
  }

  /** `s.Split(c)`: the pieces between occurrences of `c`, empty pieces included. */
  function Split(s: string, c: char): (r: seq<string>)
    ensures |r| >= 1
    ensures forall k :: 0 <= k < |r| ==> c !in r[k]
    decreases |s|
  {
    if |s| == 0 then [""]
    else
      var rest := Split(s[1..], c);
      if s[0] == c then [""] + rest
      else [[s[0]] + rest[0]] + rest[1..]
  }

  /** `string.Join(c, parts)`. */
  function Join(parts: seq<string>, c: char): string
    requires |parts| >= 1
  {
    if |parts| == 1 then parts[0] else parts[0] + [c] + Join(parts[1..], c)
  }

  /** Joining the pieces of a split gives back the original string. */
  lemma {:induction false} JoinSplit(s: string, c: char)
    ensures Join(Split(s, c), c) == s
    decreases |s|
  {
    if |s| > 0 {
      var rest := Split(s[1..], c);
      JoinSplit(s[1..], c);
      if s[0] == c {
        assert Split(s, c)[1..] == rest;
      } else {
        var r := Split(s, c);
        if |rest| == 1 {
          assert r == [[s[0]] + rest[0]];
        } else {
          assert r[1..] == rest[1..];
          assert Join(rest, c) == rest[0] + [c] + Join(rest[1..], c);
        }
      }
    }
  }

  /** A string without the separator splits into itself alone. */
  lemma {:induction false} SplitWithoutSeparator(s: string, c: char)
    requires c !in s
    ensures Split(s, c) == [s]
    decreases |s|
  {
    if |s| > 0 {
      assert c !in s[1..];
      SplitWithoutSeparator(s[1..], c);
      assert [s[0]] + s[1..] == s;
    }
  }

  /** Splitting a join of pieces without the separator gives the pieces back. */
  lemma {:induction false} SplitJoin(parts: seq<string>, c: char)
    requires |parts| >= 1 && forall k :: 0 <= k < |parts| ==> c !in parts[k]
    ensures Split(Join(parts, c), c) == parts
    decreases |parts|
  {
    SplitWithoutSeparator(parts[0], c);
    if |parts| > 1 {
      SplitJoin(parts[1..], c);
      SplitAtSeparator(parts[0], c, Join(parts[1..], c));
      assert [parts[0]] + parts[1..] == parts;
    }
  }

  /** ASCII lower-casing of one character. */
  function LowerChar(ch: char): char
  {
    if 'A' <= ch <= 'Z' then (ch as int + 32) as char else ch
  }

  /** `s.ToLower()` restricted to ASCII letters. */
  function ToLower(s: string): (r: string)
    ensures |r| == |s| && forall i :: 0 <= i < |s| ==> r[i] == LowerChar(s[i])
  {
    seq(|s|, i requires 0 <= i < |s| => LowerChar(s[i]))
  }

  /** Index of the last `c` in `s`, or -1. */
  function LastIndexOf(s: string, c: char): (r: int)
    ensures -1 <= r < |s|
    ensures r >= 0 ==> s[r] == c
    ensures forall i :: r < i < |s| ==> s[i] != c
  {
    if |s| == 0 then -1
    else if s[|s| - 1] == c then |s| - 1
    else LastIndexOf(s[..|s| - 1], c)
  }

  /** Appending text without `c` does not move the last `c`. */
  lemma {:induction false} LastIndexOfAppend(p: string, q: string, c: char)
    requires c !in q
    ensures LastIndexOf(p + q, c) == LastIndexOf(p, c)
    decreases |q|
  {
    if |q| == 0 {
      assert p + q == p;
    } else {
      var q' := q[..|q| - 1];
      assert (p + q)[..|p + q| - 1] == p + q';
      assert q[|q| - 1] in q;
      LastIndexOfAppend(p, q', c);
    }
  }

  /** The last `c` of `x + [c] + y` is the one between them when `y` has none. */
  lemma LastIndexOfJunction(x: string, c: char, y: string)
    requires c !in y
    ensures LastIndexOf(x + [c] + y, c) == |x|
  {
    LastIndexOfAppend(x + [c], y, c);
  }

  /** `Path.GetFileName(path)`: what follows the last separator. */
  function FileName(path: string): (r: string)
    ensures '/' !in r
    ensures |r| <= |path| && r == path[|path| - |r|..]
  {
    path[LastIndexOf(path, '/') + 1..]
  }

  /** `Path.GetDirectoryName(path)`: what precedes the last separator ("" when
      there is none, "/" for an entry of the root directory). */
  function DirectoryName(path: string): (r: string)
  {
    var k := LastIndexOf(path, '/');
    if k < 0 then "" else if k == 0 then "/" else path[..k]
  }

  /** `Path.GetExtension(path)`: from the last '.' of the file name on, or ""
      when the file name has no '.' or ends with it. */
  function Extension(path: string): (r: string)
    ensures r == [] || (|r| >= 2 && r[0] == '.' && '.' !in r[1..] && '/' !in r)
  {
    var name := FileName(path);
    var d := LastIndexOf(name, '.');
    if d < 0 || d == |name| - 1 then "" else name[d..]
  }

  /** `Path.Combine(a, b)` for two components. */
  function Combine(a: string, b: string): string
  {
    if b == "" then a
    else if a == "" then b
    else if b[0] == '/' then b
    else if a[|a| - 1] == '/' then a + b
    else a + "/" + b
  }

  /** A plain file name survives `Combine` as the file name of the result. */
  lemma FileNameOfCombine(dir: string, name: string)
    requires name != "" && '/' !in name
    ensures FileName(Combine(dir, name)) == name
  {
    if dir != "" {
      if dir[|dir| - 1] == '/' {
        var x := dir[..|dir| - 1];
        assert dir + name == x + ['/'] + name;
        LastIndexOfJunction(x, '/', name);
      } else {
        assert dir + "/" + name == dir + ['/'] + name;
        LastIndexOfJunction(dir, '/', name);
      }
    } else {
      assert LastIndexOf(name, '/') == -1;
    }
  }

  /** The extension of a combined path is that of the file name. */
  lemma ExtensionOfCombine(dir: string, name: string)
    requires name != "" && '/' !in name
    ensures Extension(Combine(dir, name)) == Extension(name)
  {
    FileNameOfCombine(dir, name);
    assert LastIndexOf(name, '/') == -1;
    assert FileName(name) == name;
  }

  /** The file name of `stem + tail` ends with `tail` when `tail` has no separator. */
  lemma FileNameOfSuffix(stem: string, tail: string)
    requires '/' !in tail
    ensures FileName(stem + tail) == FileName(stem) + tail
  {
    LastIndexOfAppend(stem, tail, '/');
    var k := LastIndexOf(stem, '/');
    assert (stem + tail)[k + 1..] == stem[k + 1..] + tail;
  }

  /** The extension of "stem" + ext, for an extension without '.' or '/' after its dot. */
  lemma ExtensionOfSuffix(stem: string, ext: string)
    requires |ext| >= 2 && ext[0] == '.' && '.' !in ext[1..] && '/' !in ext
    ensures Extension(stem + ext) == ext
  {
    FileNameOfSuffix(stem, ext);
    var head := FileName(stem);
    var name := head + ext;
    assert name == head + ['.'] + ext[1..];
    LastIndexOfJunction(head, '.', ext[1..]);
    assert name[|head|..] == ext;
  }

  /** Splitting at a separator between two strings splits each side apart. */
  lemma {:induction false} SplitAtSeparator(a: string, c: char, b: string)
    ensures Split(a + [c] + b, c) == Split(a, c) + Split(b, c)
    decreases |a|
  {
    if |a| == 0 {
      assert a + [c] + b == [c] + b;
      assert ([c] + b)[1..] == b;
    } else {
      assert (a + [c] + b)[1..] == a[1..] + [c] + b;
      SplitAtSeparator(a[1..], c, b);
    }
  }

  /** The pieces that are not empty, in order. */
  function NonEmpty(parts: seq<string>): (r: seq<string>)
    ensures forall k :: 0 <= k < |r| ==> r[k] != ""
  {
    if parts == [] then []
    else if parts[0] == "" then NonEmpty(parts[1..])
    else [parts[0]] + NonEmpty(parts[1..])
  }

  lemma {:induction false} NonEmptyAppend(p: seq<string>, q: seq<string>)
    ensures NonEmpty(p + q) == NonEmpty(p) + NonEmpty(q)
    decreases |p|
  {
    if p == [] {
      assert p + q == q;
    } else {
      assert (p + q)[1..] == p[1..] + q;
      NonEmptyAppend(p[1..], q);
    }
  }

  /** The directory and file names a '/'-separated path goes through;
      repeated, leading and trailing separators add none. */
  function Components(path: string): seq<string>
  {
    NonEmpty(Split(path, '/'))
  }

  /** A plain name appended with `Combine` is one more component. */
  lemma ComponentsOfCombine(dir: string, name: string)
    requires name != "" && '/' !in name
    ensures Components(Combine(dir, name)) == Components(dir) + [name]
  {
    SplitWithoutSeparator(name, '/');
    assert NonEmpty([name]) == [name];
    if dir == "" {
      assert Components(dir) == [];
    } else if dir[|dir| - 1] == '/' {
      var x := dir[..|dir| - 1];
      assert dir == x + ['/'] + "";
      SplitAtSeparator(x, '/', "");
      NonEmptyAppend(Split(x, '/'), [""]);
      assert NonEmpty([""]) == [];
      assert dir + name == x + ['/'] + name;
      SplitAtSeparator(x, '/', name);
      NonEmptyAppend(Split(x, '/'), [name]);
    } else {
      assert dir + "/" + name == dir + ['/'] + name;
      SplitAtSeparator(dir, '/', name);
      NonEmptyAppend(Split(dir, '/'), [name]);
    }
  }

  /** How many leading components two paths share. */
  function CommonLength(a: seq<string>, b: seq<string>): (k: nat)
    ensures k <= |a| && k <= |b| && a[..k] == b[..k]
    ensures k < |a| && k < |b| ==> a[k] != b[k]
  {
    if a == [] || b == [] || a[0] != b[0] then 0
    else
      var k := 1 + CommonLength(a[1..], b[1..]);
      assert a[..k] == [a[0]] + a[1..][..k - 1];
      assert b[..k] == [b[0]] + b[1..][..k - 1];
      k
  }

  /** `Path.GetRelativePath(relativeTo, path)` for absolute paths on one
      root: climb out of the components of `relativeTo` that `path` does not
      share, then descend into the rest of `path`; "." for the same
      directory. */
  function RelativePath(relativeTo: string, path: string): string
  {
    var b := Components(relativeTo);
    var p := Components(path);
    var k := CommonLength(b, p);
    if k == |b| && k == |p| then "."
    else Join(seq(|b| - k, _ => "..") + p[k..], '/')
  }

  /** A path below `relativeTo` is given by the components under it. */
  lemma RelativeOfDescendant(relativeTo: string, path: string, rest: seq<string>)
    requires Components(path) == Components(relativeTo) + rest && rest != []
    ensures RelativePath(relativeTo, path) == Join(rest, '/')
  {
    var b := Components(relativeTo);
    var p := Components(path);
    assert p[..|b|] == b;
    assert CommonLength(b, p) == |b|;
    assert seq(0, _ => "..") + p[|b|..] == rest;
  }

  /** One decimal digit. */
  function Digit(d: nat): char
    requires d < 10
  {
    "0123456789"[d]
  }

  /** Value of a decimal digit. */
  function DigitValue(ch: char): nat
  {
    if '0' <= ch <= '9' then ch as int - '0' as int else 0
  }

  /** `n.ToString()` for a non-negative integer. */
  function NatToString(n: nat): (r: string)
    ensures |r| >= 1 && forall i :: 0 <= i < |r| ==> '0' <= r[i] <= '9'
  {
    if n < 10 then [Digit(n)] else NatToString(n / 10) + [Digit(n % 10)]
  }

  /** `n.ToString()` for any integer (invariant culture). */
  function IntToString(n: int): string
  {
    if n < 0 then "-" + NatToString(-n) else NatToString(n)
  }

  /** The value of a string of decimal digits. */
  function DecimalValue(s: string): nat
  {
    if |s| == 0 then 0 else 10 * DecimalValue(s[..|s| - 1]) + DigitValue(s[|s| - 1])
  }

  /** Reading back the decimal rendering of `n` gives `n`. */
  lemma {:induction false} NatToStringRoundTrip(n: nat)
    ensures DecimalValue(NatToString(n)) == n
  {
    if n >= 10 {
      NatToStringRoundTrip(n / 10);
      var s := NatToString(n);
      assert s[..|s| - 1] == NatToString(n / 10);
    }
  }

  /** The markup characters HTML encoding replaces by named or numeric
      entities. */
  predicate Markup(ch: char)
  {
    ch == '<' || ch == '>' || ch == '&' || ch == '"' || ch == '\''
  }

  /** The other characters HTML encoding writes as a numeric character
      reference: U+00A0 to U+00FF, and every character outside the Basic
      Multilingual Plane (a surrogate pair in .NET). */
  predicate NumericallyEncoded(ch: char)
  {
    (160 <= ch as int <= 255) || ch as int >= 0x1_0000
  }

  /** `&#` followed by the decimal code point and `;`. */
  function NumericReference(ch: char): (r: string)
    ensures forall i :: 0 <= i < |r| ==> r[i] == '&' || r[i] == '#' || r[i] == ';' || '0' <= r[i] <= '9'
  {
    "&#" + NatToString(ch as int) + ";"
  }

  /** One character as the encoder writes it: nothing it writes opens
      markup or needs a numeric reference itself. */
  function EncodeChar(ch: char): (r: string)
    ensures forall i :: 0 <= i < |r| ==> r[i] != '<' && r[i] != '>' && r[i] != '"' && r[i] != '\''
    ensures forall i :: 0 <= i < |r| ==> !NumericallyEncoded(r[i])
    ensures |r| >= 1
  {
    if ch == '<' then "&lt;"
    else if ch == '>' then "&gt;"
    else if ch == '&' then "&amp;"
    else if ch == '"' then "&quot;"
    else if ch == '\'' then "&#39;"
    else if NumericallyEncoded(ch) then NumericReference(ch)
    else [ch]
  }

  /** `HttpUtility.HtmlEncode`: the result never contains a tag delimiter or
      a quote, so it cannot open markup, and every character it keeps is
      below U+00A0 or in the rest of the Basic Multilingual Plane. */
  function HtmlEncode(s: string): (r: string)
    ensures forall i :: 0 <= i < |r| ==> r[i] != '<' && r[i] != '>' && r[i] != '"' && r[i] != '\''
    ensures forall i :: 0 <= i < |r| ==> !NumericallyEncoded(r[i])
    ensures |r| >= |s|
  {
    if s == [] then [] else EncodeChar(s[0]) + HtmlEncode(s[1..])
  }

  /** A numerically encoded character reads back as its own code point. */
  lemma NumericReferenceReadsBack(ch: char)
    requires NumericallyEncoded(ch)
    ensures var r := EncodeChar(ch);
      |r| >= 4 && r[..2] == "&#" && r[|r| - 1] == ';' && DecimalValue(r[2..|r| - 1]) == ch as int
  {
    var r := EncodeChar(ch);
    assert r[2..|r| - 1] == NatToString(ch as int);
    NatToStringRoundTrip(ch as int);
  }

  /** Encoding works character by character. */
  lemma {:induction false} HtmlEncodeAppend(a: string, b: string)
    ensures HtmlEncode(a + b) == HtmlEncode(a) + HtmlEncode(b)
  {
    if a != [] {
      assert (a + b)[0] == a[0] && (a + b)[1..] == a[1..] + b;
      HtmlEncodeAppend(a[1..], b);
      assert HtmlEncode(a + b) == EncodeChar(a[0]) + (HtmlEncode(a[1..]) + HtmlEncode(b));
    } else {
      assert a + b == b;
    }
  }

  /** Text without markup characters and without characters written as
      numeric references is left as it is. */
  lemma {:induction false} HtmlEncodePlain(s: string)
    requires forall i :: 0 <= i < |s| ==> !Markup(s[i]) && !NumericallyEncoded(s[i])
    ensures HtmlEncode(s) == s
  {
    if s != [] {
      HtmlEncodePlain(s[1..]);
    }
  }
}
