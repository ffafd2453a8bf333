/**
 * String operations the run-preparation code relies on: Java's
 * `String.replace`, `lastIndexOf`, `startsWith`, `Collectors.joining`, and the
 * argument-file quoting convention (a token is wrapped in double quotes and
 * every backslash inside it is doubled). `Unescape`, `Unquote`, `Split` and
 * `IndexOf` are not used by the code itself: they belong to the reader that
 * the quoting convention and the `fml.modFolders` format imply, and serve to
 * state what those formats preserve.
 */
module Text {

  /** The string with every backslash doubled: `s.replace("\\", "\\\\")`. */
  function Escape(s: string): (r: string)
    ensures |r| >= |s|
    ensures (forall i :: 0 <= i < |s| ==> s[i] != '\\') ==> r == s
  {
    if s == [] then []
    else (if s[0] == '\\' then "\\\\" else [s[0]]) + Escape(s[1..])
  }

  /** Halves every pair of backslashes; the reading side of the quoting convention. */
  function Unescape(s: string): string
    decreases |s|
  {
    if s == [] then []
    else if |s| >= 2 && s[0] == '\\' && s[1] == '\\' then "\\" + Unescape(s[2..])
    else [s[0]] + Unescape(s[1..])
  }

  lemma {:induction false} UnescapeEscape(s: string)
    ensures Unescape(Escape(s)) == s
  {
    if s != [] {
      var e := Escape(s[1..]);
      UnescapeEscape(s[1..]);
      if s[0] == '\\' {
        assert Escape(s) == "\\\\" + e;
        assert ("\\\\" + e)[2..] == e;
      } else {
        assert Escape(s) == [s[0]] + e;
        assert ([s[0]] + e)[1..] == e;
      }
    }
  }

  /** Escaping adds only backslashes: a character other than a backslash occurs in
      the escaped string exactly when it occurs in the original one. */
  lemma {:induction false} EscapeKeepsOtherChars(s: string, c: char)
    requires c != '\\'
    ensures c in Escape(s) <==> c in s
  {
    if s != [] {
      EscapeKeepsOtherChars(s[1..], c);
      assert s == [s[0]] + s[1..];
    }
  }

  /** One argument-file token: `"` + the escaped string + `"`. */
  function Quote(s: string): (r: string)
    ensures |r| == |Escape(s)| + 2 && r[0] == '"' && r[|r| - 1] == '"'
    ensures r[1..|r| - 1] == Escape(s)
  {
    "\"" + Escape(s) + "\""
  }

  /** Reads one quoted token back; any other line is returned as it is. This
      reader strips the outer quotes and halves backslashes only: a `"` inside
      the token is taken literally, where a JVM args-file reader would end the
      token there. */
  function Unquote(t: string): string {
    if |t| >= 2 && t[0] == '"' && t[|t| - 1] == '"' then Unescape(t[1..|t| - 1]) else t
  }

  lemma UnquoteQuote(s: string)
    ensures Unquote(Quote(s)) == s
  {
    var q := Quote(s);
    assert q[1..|q| - 1] == Escape(s);
    UnescapeEscape(s);
  }

  /** Quoting does nothing to a `"` inside the value: the interior of the
      quoted token holds a `"` exactly when the value does, so a value with
      a `"` yields a token that ends early for a JVM args-file reader. */
  lemma QuoteKeepsInnerQuote(s: string)
    ensures var q := Quote(s); |q| >= 2 && ('"' in q[1..|q| - 1] <==> '"' in s)
  {
    var q := Quote(s);
    assert q[1..|q| - 1] == Escape(s);
    EscapeKeepsOtherChars(s, '"');
  }

  lemma QuoteInjective(a: string, b: string)
    ensures Quote(a) == Quote(b) ==> a == b
  {
    UnquoteQuote(a);
    UnquoteQuote(b);
  }

  /** `Collectors.joining(sep)`: the parts with `sep` between neighbours. */
  function Join(parts: seq<string>, sep: string): (r: string)
    ensures |parts| == 0 ==> r == ""
    ensures |parts| == 1 ==> r == parts[0]
  {
    if |parts| == 0 then ""
    else if |parts| == 1 then parts[0]
    else parts[0] + sep + Join(parts[1..], sep)
  }

  /** Cuts a string at every occurrence of `c`; the reading side of `Join`. */
  function Split(s: string, c: char): (r: seq<string>)
    ensures |r| >= 1
  {
    if s == [] then [""]
    else
      var rest := Split(s[1..], c);
      if s[0] == c then [""] + rest else [[s[0]] + rest[0]] + rest[1..]
  }

  lemma {:induction false} SplitPrefix(a: string, s: string, c: char)
    requires c !in a
    ensures Split(a + s, c) == [a + Split(s, c)[0]] + Split(s, c)[1..]
  {
    var t := Split(s, c);
    if a == [] {
      assert a + s == s && a + t[0] == t[0];
    } else {
      assert (a + s)[0] == a[0] && (a + s)[1..] == a[1..] + s;
      SplitPrefix(a[1..], s, c);
      var r := Split(a[1..] + s, c);
      assert r[0] == a[1..] + t[0] && r[1..] == t[1..];
      assert [a[0]] + (a[1..] + t[0]) == a + t[0];
    }
  }

  /** Splitting a joined list at the separator gives the list back, provided that
      no part contains the separator character. */
  lemma {:induction false} SplitJoin(parts: seq<string>, c: char)
    requires |parts| >= 1
    requires forall i :: 0 <= i < |parts| ==> c !in parts[i]
    ensures Split(Join(parts, [c]), c) == parts
  {
    if |parts| == 1 {
      SplitPrefix(parts[0], "", c);
      assert parts[0] + "" == parts[0];
    } else {
      var rest := Join(parts[1..], [c]);
      SplitJoin(parts[1..], c);
      assert Join(parts, [c]) == parts[0] + ([c] + rest);
      SplitPrefix(parts[0], [c] + rest, c);
      assert ([c] + rest)[0] == c && ([c] + rest)[1..] == rest;
      assert Split([c] + rest, c) == [""] + parts[1..];
      assert parts[0] + "" == parts[0];
      assert parts == [parts[0]] + parts[1..];
    }
  }

  /** `s.lastIndexOf(c)`: -1 when `c` does not occur. */
  function LastIndexOf(s: string, c: char): (r: int)
    ensures -1 <= r < |s|
    ensures r >= 0 ==> s[r] == c
    ensures forall j :: r < j < |s| ==> s[j] != c
  {
    if s == [] then -1
    else if s[|s| - 1] == c then |s| - 1
    else LastIndexOf(s[..|s| - 1], c)
  }

  /** `s.indexOf(c)`: -1 when `c` does not occur. */
  function IndexOf(s: string, c: char): (r: int)
    ensures -1 <= r < |s|
    ensures r >= 0 ==> s[r] == c
    ensures forall j :: 0 <= j < |s| && (r < 0 || j < r) ==> s[j] != c
  {
    if s == [] then -1
    else if s[0] == c then 0
    else
      var k := IndexOf(s[1..], c);
      if k < 0 then -1 else k + 1
  }

  predicate StartsWith(s: string, prefix: string) {
    |prefix| <= |s| && s[..|prefix|] == prefix
  }

  /** `s.replace(from, to)` for single characters. */
  function ReplaceChar(s: string, from: char, to: char): (r: string)
    ensures |r| == |s|
    ensures forall i :: 0 <= i < |s| ==> r[i] == if s[i] == from then to else s[i]
  {
    if s == [] then [] else [if s[0] == from then to else s[0]] + ReplaceChar(s[1..], from, to)
  }

  /** A child path under a directory (`new File(dir, child)`, `Path.resolve`). */
  function Resolve(dir: string, child: string): string {
    dir + "/" + child
  }

  function ToUpper(c: char): char {
    if 'a' <= c <= 'z' then (c as int - 32) as char else c
  }

  function ToLower(c: char): char {
    if 'A' <= c <= 'Z' then (c as int + 32) as char else c
  }

  /** The string with its first character upper-cased. */
  function Capitalize(s: string): (r: string)
    ensures |r| == |s| && (s != [] ==> r[0] == ToUpper(s[0]) && r[1..] == s[1..])
  {
    if s == [] then s else [ToUpper(s[0])] + s[1..]
  }

  /** The string with its first character lower-cased. */
  function Uncapitalize(s: string): (r: string)
    ensures |r| == |s| && (s != [] ==> r[0] == ToLower(s[0]) && r[1..] == s[1..])
  {
    if s == [] then s else [ToLower(s[0])] + s[1..]
  }
}
