/**
 * The DB2 identifier quoter (`wrapIdentifier`). The source matches the regular
 * expression `(.*?)(\[[0-9]\])` against the name: the first bracketed single digit
 * anywhere in the name, preceded by the shortest run of characters that contains
 * no line terminator. The model spells that match out instead of using a regex.
 */
module IdentifierQuoter {
  import opened Wrappers
  import opened Strings

  /** The characters JavaScript's `.` does not match. */
  predicate IsLineTerminator(c: char) {
    c == '\n' || c == '\r' || c == '\U{2028}' || c == '\U{2029}'
  }

  /** `s[i..i+3]` is an array-index suffix such as `[0]`. */
  predicate IndexAt(s: string, i: nat) {
    i + 3 <= |s| && s[i] == '[' && IsDigit(s[i + 1]) && s[i + 2] == ']'
  }

  predicate HasIndex(s: string) {
    exists i: nat :: i < |s| && IndexAt(s, i)
  }

  /** The first position at or after `from` where an index suffix starts. */
  function FindIndex(s: string, from: nat): (r: Option<nat>)
    ensures r.Some? ==> from <= r.value && IndexAt(s, r.value)
    ensures r.Some? ==> forall j: nat :: from <= j < r.value ==> !IndexAt(s, j)
    ensures r.None? ==> forall j: nat :: from <= j ==> !IndexAt(s, j)
    decreases |s| - from
  {
    if from + 3 > |s| then None
    else if IndexAt(s, from) then Some(from)
    else FindIndex(s, from + 1)
  }

  /** Where the lazy group `(.*?)` starts for a suffix at `e`: just after the last line terminator before it. */
  function GroupStart(s: string, e: nat): (b: nat)
    requires e <= |s|
    ensures b <= e
    ensures forall k :: b <= k < e ==> !IsLineTerminator(s[k])
    ensures b == 0 || IsLineTerminator(s[b - 1])
  {
    if e == 0 then 0 else if IsLineTerminator(s[e - 1]) then e else GroupStart(s, e - 1)
  }

  /** Every `"` doubled, as `value.replace(/"/g, '""')` does: one character longer per quote,
      and collapsing the doubled quotes gives the text back. */
  function Escape(s: string): (r: string)
    ensures |r| == |s| + CountChar(s, '"')
    ensures Unescape(r) == s
  {
    if s == [] then ""
    else
      var t := Escape(s[1..]);
      assert [s[0]] + s[1..] == s;
      if s[0] == '"' then
        assert ("\"\"" + t)[2..] == t;
        "\"\"" + t
      else
        assert ([s[0]] + t)[1..] == t;
        [s[0]] + t
  }

  /** The quoted identifier: `*` as is; a name with an index suffix ends with a suffix;
      any other name is enclosed in double quotes. */
  function WrapIdentifier(value: string): (r: string)
    ensures value == "*" ==> r == "*"
    ensures HasIndex(value) ==> |r| >= 3 && IndexAt(r, |r| - 3)
    ensures value != "*" && !HasIndex(value) ==> |r| >= 2 && r[0] == '"' && r[|r| - 1] == '"'
    decreases |value|
  {
    if value == "*" then value
    else match FindIndex(value, 0)
      case Some(e) =>
        var b := GroupStart(value, e);
        WrapIdentifier(value[b..e]) + value[e..e + 3]
      case None => "\"" + Escape(value) + "\""
  }

  // ---------------------------------------------------------------------------
  // The match, specified independently: the leftmost start, then the shortest group.

  /** The regular expression matches `s` with group 1 = `s[b..e]` and group 2 = `s[e..e+3]`. */
  predicate MatchesAt(s: string, b: nat, e: nat) {
    b <= e && IndexAt(s, e) && forall k :: b <= k < e ==> !IsLineTerminator(s[k])
  }

  /** The match `WrapIdentifier` uses is the one a JavaScript regex engine reports. */
  lemma ChosenMatchIsLeftmostShortest(s: string, e: nat)
    requires FindIndex(s, 0) == Some(e)
    ensures MatchesAt(s, GroupStart(s, e), e)
    ensures forall b', e' :: MatchesAt(s, b', e') ==>
              GroupStart(s, e) < b' || (GroupStart(s, e) == b' && e <= e')
  {
    var b := GroupStart(s, e);
    forall b', e' | MatchesAt(s, b', e')
      ensures b < b' || (b == b' && e <= e')
    {
      assert e <= e';
    }
  }

  /** The regular expression matches nowhere exactly when the name has no index suffix. */
  lemma NoMatchWithoutIndex(s: string)
    ensures FindIndex(s, 0).None? <==> !HasIndex(s)
    ensures !HasIndex(s) ==> forall b, e :: !MatchesAt(s, b, e)
  {
    if FindIndex(s, 0).Some? {
      assert IndexAt(s, FindIndex(s, 0).value);
    }
  }

  // ---------------------------------------------------------------------------
  // The three cases of the quoter.

  lemma WildcardUnchanged()
    ensures WrapIdentifier("*") == "*"
  {}

  function CountChar(s: string, c: char): nat {
    if s == [] then 0 else (if s[0] == c then 1 else 0) + CountChar(s[1..], c)
  }

  /** Collapses every `""` back to `"`. */
  function Unescape(s: string): string
    decreases |s|
  {
    if |s| >= 2 && s[0] == '"' && s[1] == '"' then "\"" + Unescape(s[2..])
    else if s == [] then "" else [s[0]] + Unescape(s[1..])
  }

  /** Strips the surrounding quotes of a quoted name and collapses its doubled quotes. */
  function Unquote(q: string): string {
    if |q| >= 2 then Unescape(q[1..|q| - 1]) else q
  }

  /** Without an index suffix the name is wrapped in quotes with embedded quotes doubled:
      the output is the input plus two quotes plus one per embedded quote, and unquoting recovers the input. */
  lemma PlainNameQuoted(value: string)
    requires value != "*" && !HasIndex(value)
    ensures WrapIdentifier(value) == "\"" + Escape(value) + "\""
    ensures |WrapIdentifier(value)| == |value| + 2 + CountChar(value, '"')
    ensures Unquote(WrapIdentifier(value)) == value
  {
    NoMatchWithoutIndex(value);
    var q := "\"" + Escape(value) + "\"";
    assert q[1..|q| - 1] == Escape(value);
  }

  /** The text before the first suffix contains no suffix, so the recursion stops after one step. */
  lemma {:induction false} PrefixHasNoIndex(s: string, e: nat, b: nat)
    requires FindIndex(s, 0) == Some(e) && b <= e
    ensures !HasIndex(s[b..e])
  {
    if HasIndex(s[b..e]) {
      var t := s[b..e];
      var i: nat :| i < |t| && IndexAt(t, i);
      assert t[i] == s[b + i] && t[i + 1] == s[b + i + 1] && t[i + 2] == s[b + i + 2];
      assert IndexAt(s, b + i);
      assert false;
    }
  }

  /** With an index suffix, the result is the quoted prefix followed by the suffix verbatim;
      the quoted prefix is `*` or a plain quoted name, and everything after the suffix is dropped. */
  lemma IndexedNameQuoted(value: string, e: nat)
    requires value != "*" && FindIndex(value, 0) == Some(e)
    ensures var p := value[GroupStart(value, e)..e];
      && !HasIndex(p)
      && WrapIdentifier(value) == WrapIdentifier(p) + value[e..e + 3]
      && WrapIdentifier(p) == (if p == "*" then "*" else "\"" + Escape(p) + "\"")
  {
    var b := GroupStart(value, e);
    var p := value[b..e];
    PrefixHasNoIndex(value, e, b);
    NoMatchWithoutIndex(p);
  }

  /** Text after the first suffix is discarded, so two different names can quote alike. */
  lemma TrailingTextDropped()
    ensures WrapIdentifier("a[0]b") == WrapIdentifier("a[0]") == "\"a\"[0]"
  {
    assert IndexAt("a[0]b", 1) && !IndexAt("a[0]b", 0);
    assert FindIndex("a[0]b", 0) == Some(1);
    assert IndexAt("a[0]", 1) && !IndexAt("a[0]", 0);
    assert FindIndex("a[0]", 0) == Some(1);
    assert "a[0]b"[0..1] == "a" && "a[0]"[0..1] == "a";
    assert !HasIndex("a") by { NoMatchWithoutIndex("a"); }
  }

  /** Text before a line terminator that precedes the suffix is discarded as well. */
  lemma LineBeforeIndexDropped()
    ensures WrapIdentifier("x\ny[1]") == "\"y\"[1]"
  {
    var s := "x\ny[1]";
    assert IndexAt(s, 3) && !IndexAt(s, 0) && !IndexAt(s, 1) && !IndexAt(s, 2);
    assert FindIndex(s, 0) == Some(3);
    assert GroupStart(s, 3) == 2;
    assert s[2..3] == "y";
    assert !HasIndex("y") by { NoMatchWithoutIndex("y"); }
  }
}
