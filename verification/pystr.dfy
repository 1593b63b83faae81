// The few Python string built-ins that generate_data.py relies on, stated on
// seq<char>: str.split("\n"), str.replace("\t", ""), str.split(":", 1),
// str.lower(), str.strip(), str.startswith() and str.endswith().

module PyStr {

  /** Characters for which Python's str.isspace() holds; this is also what
      `\s` matches in a str regular expression. */
  predicate IsSpace(c: char)
  {
    c == ' ' || '\t' <= c <= '\r' || '\U{1c}' <= c <= '\U{1f}'
    || c == '\U{85}' || c == '\U{a0}' || c == '\U{1680}'
    || '\U{2000}' <= c <= '\U{200a}' || c == '\U{2028}' || c == '\U{2029}'
    || c == '\U{202f}' || c == '\U{205f}' || c == '\U{3000}'
  }

  /** `\w` restricted to ASCII: letters, digits and the underscore. */
  predicate IsWordChar(c: char)
  {
    'a' <= c <= 'z' || 'A' <= c <= 'Z' || '0' <= c <= '9' || c == '_'
  }

  predicate IsUpper(c: char)
  {
    'A' <= c <= 'Z'
  }

  predicate StartsWith(s: string, prefix: string)
  {
    |prefix| <= |s| && s[..|prefix|] == prefix
  }

  predicate EndsWith(s: string, suffix: string)
  {
    |suffix| <= |s| && s[|s| - |suffix|..] == suffix
  }

  /** Position of the first occurrence of `c` in `s`. */
  function IndexOf(s: string, c: char): (k: nat)
    requires c in s
    ensures k < |s| && s[k] == c
    ensures forall j | 0 <= j < k :: s[j] != c
  {
    if s[0] == c then 0 else 1 + IndexOf(s[1..], c)
  }

  lemma {:induction false} IndexOfAfter(a: string, c: char, b: string)
    requires c !in a
    ensures c in a + [c] + b && IndexOf(a + [c] + b, c) == |a|
  {
    if a != [] {
      assert (a + [c] + b)[1..] == a[1..] + [c] + b;
      IndexOfAfter(a[1..], c, b);
    }
  }

  /** `s.split("\n")`: the pieces between newlines, including empty ones. */
  function SplitLines(s: string): (lines: seq<string>)
    ensures |lines| >= 1
    ensures forall line <- lines :: '\n' !in line
    ensures JoinLines(lines) == s
    decreases |s|
  {
    if '\n' !in s then [s]
    else
      var k := IndexOf(s, '\n');
      var rest := SplitLines(s[k + 1..]);
      assert s == s[..k] + "\n" + s[k + 1..];
      [s[..k]] + rest
  }

  /** `"\n".join(lines)`: the inverse of SplitLines. */
  function JoinLines(lines: seq<string>): string
    requires |lines| >= 1
  {
    if |lines| == 1 then lines[0] else lines[0] + "\n" + JoinLines(lines[1..])
  }

  lemma {:induction false} SplitJoinLines(lines: seq<string>)
    requires |lines| >= 1
    requires forall line <- lines :: '\n' !in line
    ensures SplitLines(JoinLines(lines)) == lines
  {
    if |lines| > 1 {
      var rest := JoinLines(lines[1..]);
      IndexOfAfter(lines[0], '\n', rest);
      assert (lines[0] + "\n" + rest)[|lines[0]| + 1..] == rest;
      assert (lines[0] + "\n" + rest)[..|lines[0]|] == lines[0];
      SplitJoinLines(lines[1..]);
    }
  }

  /** `s.replace("\t", "")`. */
  function RemoveTabs(s: string): (r: string)
    ensures '\t' !in r
    ensures forall c :: c in r <==> c in s && c != '\t'
    ensures '\t' !in s ==> r == s
  {
    if s == [] then []
    else if s[0] == '\t' then RemoveTabs(s[1..])
    else assert s == [s[0]] + s[1..]; [s[0]] + RemoveTabs(s[1..])
  }

  /** The replacement works piece by piece: it keeps the order of what is
      not a tab. */
  lemma {:induction false} RemoveTabsAppend(a: string, b: string)
    ensures RemoveTabs(a + b) == RemoveTabs(a) + RemoveTabs(b)
  {
    if a != [] {
      assert (a + b)[0] == a[0] && (a + b)[1..] == a[1..] + b;
      RemoveTabsAppend(a[1..], b);
    } else {
      assert a + b == b;
    }
  }

  /** One character: a tab is dropped, anything else is kept. */
  lemma RemoveTabsChar(c: char)
    ensures RemoveTabs([c]) == if c == '\t' then [] else [c]
  {
    assert [c][1..] == [];
  }

  /** `str.lower()` on one character; only A to Z are folded. */
  function LowerChar(c: char): char
  {
    if IsUpper(c) then (c as int - 'A' as int + 'a' as int) as char else c
  }

  /** `s.lower()`, folding ASCII letters only. */
  function Lower(s: string): (r: string)
    ensures |r| == |s|
    ensures forall k | 0 <= k < |s| :: r[k] == LowerChar(s[k])
    ensures forall k | 0 <= k < |r| :: !IsUpper(r[k])
    ensures forall c :: c in r && !('a' <= c <= 'z') ==> c in s
  {
    if s == [] then [] else [LowerChar(s[0])] + Lower(s[1..])
  }

  /** Number of leading characters of `s` that str.strip() removes. */
  function LeadingSpace(s: string): (n: nat)
    ensures n <= |s|
    ensures forall k | 0 <= k < n :: IsSpace(s[k])
    ensures n < |s| ==> !IsSpace(s[n])
  {
    if s == [] || !IsSpace(s[0]) then 0 else 1 + LeadingSpace(s[1..])
  }

  /** Length of `s` once its trailing whitespace is removed. */
  function TrailingStart(s: string): (n: nat)
    ensures n <= |s|
    ensures forall k | n <= k < |s| :: IsSpace(s[k])
    ensures n > 0 ==> !IsSpace(s[n - 1])
  {
    if s == [] || !IsSpace(s[|s| - 1]) then |s| else TrailingStart(s[..|s| - 1])
  }

  /** `s.strip()`: removes leading and trailing whitespace. */
  function Strip(s: string): (r: string)
    ensures |r| <= |s|
    ensures r == "" <==> forall k | 0 <= k < |s| :: IsSpace(s[k])
    ensures r != "" ==> !IsSpace(r[0]) && !IsSpace(r[|r| - 1])
    ensures (s == "" || (!IsSpace(s[0]) && !IsSpace(s[|s| - 1]))) ==> r == s
    ensures var lo := LeadingSpace(s);
      lo + |r| <= |s| && r == s[lo..lo + |r|] &&
      (forall k | 0 <= k < lo :: IsSpace(s[k])) &&
      (forall k | lo + |r| <= k < |s| :: IsSpace(s[k]))
  {
    var lo := LeadingSpace(s);
    var rest := s[lo..];
    var r := rest[..TrailingStart(rest)];
    assert r != "" ==> r[0] == s[lo];
    assert r == "" ==> lo == |s|;
    r
  }
}
