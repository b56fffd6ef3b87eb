/**
 * The string operations of the Java platform and of `hudson.Util` that the
 * plugin's decisions depend on, written out with their exact edge cases.
 */
module JavaText {
  import opened Wrappers

  /** `String.trim()` removes every character whose code is at most U+0020. */
  predicate IsTrimmed(c: char) {
    c <= ' '
  }

  function TrimLeading(s: string): (r: string)
    ensures |r| <= |s| && r == s[|s| - |r|..]
    ensures r == [] || !IsTrimmed(r[0])
    ensures forall k :: 0 <= k < |s| - |r| ==> IsTrimmed(s[k])
  {
    if s != [] && IsTrimmed(s[0]) then TrimLeading(s[1..]) else s
  }

  function TrimTrailing(s: string): (r: string)
    ensures |r| <= |s| && r == s[..|r|]
    ensures r == [] || !IsTrimmed(r[|r| - 1])
    ensures forall k :: |r| <= k < |s| ==> IsTrimmed(s[k])
  {
    if s != [] && IsTrimmed(s[|s| - 1]) then TrimTrailing(s[..|s| - 1]) else s
  }

  /** `String.trim()`: the result neither starts nor ends with a trimmed character. */
  function Trim(s: string): (r: string)
    ensures |r| <= |s|
    ensures r == [] || (!IsTrimmed(r[0]) && !IsTrimmed(r[|r| - 1]))
    ensures (s == [] || (!IsTrimmed(s[0]) && !IsTrimmed(s[|s| - 1]))) ==> r == s
  {
    TrimTrailing(TrimLeading(s))
  }

  /** `hudson.Util.fixEmpty`: `null` and `""` both become `null`. */
  function FixEmpty(s: Option<string>): (r: Option<string>)
    ensures r.Some? <==> s.Some? && s.value != ""
    ensures r.Some? ==> r == s
  {
    if s.Some? && s.value != "" then s else None
  }

  /** Java string concatenation prints `null` for a null reference. */
  function Str(s: Option<string>): string {
    if s.Some? then s.value else "null"
  }

  function EndsWith(s: string, suffix: string): bool {
    |suffix| <= |s| && s[|s| - |suffix|..] == suffix
  }

  /** Case folding of `String.equalsIgnoreCase`, restricted to ASCII letters. */
  function ToUpper(c: char): char {
    if 'a' <= c <= 'z' then (c as int - 'a' as int + 'A' as int) as char else c
  }

  predicate EqualsIgnoreCase(a: string, b: string) {
    |a| == |b| && forall i :: 0 <= i < |a| ==> ToUpper(a[i]) == ToUpper(b[i])
  }

  /** `Boolean.parseBoolean`: true exactly for "true" in any letter case; never throws. */
  predicate ParseBoolean(s: Option<string>) {
    s.Some? && EqualsIgnoreCase(s.value, "true")
  }

  function IndexOf(s: string, c: char): (k: nat)
    requires c in s
    ensures k < |s| && s[k] == c && c !in s[..k]
  {
    if s[0] == c then 0 else 1 + IndexOf(s[1..], c)
  }

  /** Every field between separators, empty ones included. */
  function Fields(s: string, sep: char): (r: seq<string>)
    ensures |r| >= 1
    ensures forall i :: 0 <= i < |r| ==> sep !in r[i]
    decreases |s|
  {
    if sep !in s then [s]
    else
      var k := IndexOf(s, sep);
      [s[..k]] + Fields(s[k + 1..], sep)
  }

  function Join(parts: seq<string>, sep: char): string {
    if |parts| <= 1 then (if parts == [] then "" else parts[0])
    else parts[0] + [sep] + Join(parts[1..], sep)
  }

  /** Splitting into fields loses nothing: joining them back gives the input. */
  lemma {:induction false} JoinFields(s: string, sep: char)
    ensures Join(Fields(s, sep), sep) == s
    decreases |s|
  {
    if sep in s {
      var k := IndexOf(s, sep);
      JoinFields(s[k + 1..], sep);
      assert s == s[..k] + [sep] + s[k + 1..];
    }
  }

  function DropTrailingEmpty(parts: seq<string>): (r: seq<string>)
    ensures |r| <= |parts| && r == parts[..|r|]
    ensures r == [] || r[|r| - 1] != ""
    ensures forall i :: |r| <= i < |parts| ==> parts[i] == ""
  {
    if parts != [] && parts[|parts| - 1] == "" then DropTrailingEmpty(parts[..|parts| - 1]) else parts
  }

  /**
   * `String.split` with a one-character pattern: without a separator the
   * input itself is the only element; otherwise the fields, less the empty
   * ones at the end.
   */
  function Split(s: string, sep: char): (r: seq<string>)
    ensures sep !in s ==> r == [s]
    ensures |r| <= |Fields(s, sep)| && r == Fields(s, sep)[..|r|]
    ensures forall i :: 0 <= i < |r| ==> sep !in r[i]
    ensures sep in s ==> (r == [] || r[|r| - 1] != "")
  {
    if sep !in s then [s] else DropTrailingEmpty(Fields(s, sep))
  }

  /** `s.replace(target, "")`: one left-to-right pass removing non-overlapping occurrences. */
  function RemoveAll(s: string, target: string): (r: string)
    requires target != []
    ensures |r| <= |s|
    decreases |s|
  {
    if |s| < |target| then s
    else if s[..|target|] == target then RemoveAll(s[|target|..], target)
    else [s[0]] + RemoveAll(s[1..], target)
  }
}
