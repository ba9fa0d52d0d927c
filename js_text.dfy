/**
 * The parts of JavaScript's string semantics the front-end relies on:
 * `String.prototype.trim`, `split` with a one-character separator,
 * `startsWith`, and the truthiness of a string (only "" is falsy).
 * A character is a Unicode scalar value, not a UTF-16 code unit.
 */
module JsText {

  /** JavaScript's WhiteSpace and LineTerminator code points, which `trim` removes. */
  const WhiteSpaceChars: set<char> := {
    '\t', '\n', '\U{000B}', '\U{000C}', '\r', ' ', '\U{00A0}', '\U{1680}',
    '\U{2000}', '\U{2001}', '\U{2002}', '\U{2003}', '\U{2004}', '\U{2005}', '\U{2006}',
    '\U{2007}', '\U{2008}', '\U{2009}', '\U{200A}', '\U{2028}', '\U{2029}', '\U{202F}',
    '\U{205F}', '\U{3000}', '\U{FEFF}'
  }

  predicate IsWhitespace(c: char)
  {
    c in WhiteSpaceChars
  }

  /** A string with no whitespace at either end. */
  predicate IsTrimmed(s: string)
  {
    s == "" || (!IsWhitespace(s[0]) && !IsWhitespace(s[|s| - 1]))
  }

  /** `s.trim()`: whitespace removed from both ends. */
  function Trim(s: string): string
    decreases |s|
  {
    if s != "" && IsWhitespace(s[0]) then Trim(s[1..])
    else if s != "" && IsWhitespace(s[|s| - 1]) then Trim(s[..|s| - 1])
    else s
  }

  /** The trim has whitespace at neither end. */
  lemma {:induction false} TrimIsTrimmed(s: string)
    ensures IsTrimmed(Trim(s))
    decreases |s|
  {
    if s != "" && IsWhitespace(s[0]) {
      TrimIsTrimmed(s[1..]);
    } else if s != "" && IsWhitespace(s[|s| - 1]) {
      TrimIsTrimmed(s[..|s| - 1]);
    }
  }

  /**
   * The trim is the substring of `s` starting at `a`, and every character
   * of `s` outside it is whitespace.
   */
  lemma {:induction false} TrimPosition(s: string) returns (a: nat)
    ensures a + |Trim(s)| <= |s| && Trim(s) == s[a..a + |Trim(s)|]
    ensures forall i :: 0 <= i < a ==> IsWhitespace(s[i])
    ensures forall i :: a + |Trim(s)| <= i < |s| ==> IsWhitespace(s[i])
    decreases |s|
  {
    if s != "" && IsWhitespace(s[0]) {
      var b := TrimPosition(s[1..]);
      a := b + 1;
      assert forall i :: 1 <= i < |s| ==> s[i] == s[1..][i - 1];
    } else if s != "" && IsWhitespace(s[|s| - 1]) {
      a := TrimPosition(s[..|s| - 1]);
    } else {
      a := 0;
    }
  }

  /** A string that is already trimmed is its own trim. */
  lemma TrimOfTrimmed(s: string)
    requires IsTrimmed(s)
    ensures Trim(s) == s
  {
  }

  /** Trimming twice is trimming once. */
  lemma TrimIdempotent(s: string)
    ensures Trim(Trim(s)) == Trim(s)
  {
    TrimIsTrimmed(s);
    TrimOfTrimmed(Trim(s));
  }

  /** A string trims to "" exactly when every character of it is whitespace. */
  lemma TrimEmpty(s: string)
    ensures Trim(s) == "" <==> forall i :: 0 <= i < |s| ==> IsWhitespace(s[i])
  {
    var a := TrimPosition(s);
    if Trim(s) != "" {
      TrimIsTrimmed(s);
      assert s[a] == Trim(s)[0];
    }
  }

  /** `s.split(sep)` for a one-character separator: the pieces between separators, in order. */
  function Split(s: string, sep: char): (parts: seq<string>)
    ensures |parts| >= 1
  {
    if s == "" then [""]
    else
      var rest := Split(s[1..], sep);
      if s[0] == sep then [""] + rest
      else [[s[0]] + rest[0]] + rest[1..]
  }

  /** `parts.join(sep)`: the inverse of Split. */
  function Join(parts: seq<string>, sep: char): string
    requires |parts| >= 1
  {
    if |parts| == 1 then parts[0] else parts[0] + [sep] + Join(parts[1..], sep)
  }

  /** Splitting loses nothing: joining the pieces with the separator gives back the string. */
  lemma {:induction false} JoinSplit(s: string, sep: char)
    ensures Join(Split(s, sep), sep) == s
  {
    if s != "" {
      JoinSplit(s[1..], sep);
      var rest := Split(s[1..], sep);
      if s[0] != sep && |rest| > 1 {
        assert Split(s, sep)[1..] == rest[1..];
      }
    }
  }

  /** No piece contains the separator. */
  lemma {:induction false} SplitPiecesFree(s: string, sep: char)
    ensures forall k :: 0 <= k < |Split(s, sep)| ==> sep !in Split(s, sep)[k]
  {
    if s != "" {
      SplitPiecesFree(s[1..], sep);
    }
  }

  /** A string without the separator splits into itself alone. */
  lemma {:induction false} SplitNoSeparator(s: string, sep: char)
    requires sep !in s
    ensures Split(s, sep) == [s]
  {
    if s != "" {
      SplitNoSeparator(s[1..], sep);
      assert [s[0]] + s[1..] == s;
    }
  }

  /** Splitting at the first separator: the piece before it comes first, then the pieces of the rest. */
  lemma {:induction false} SplitAtFirst(a: string, sep: char, b: string)
    requires sep !in a
    ensures Split(a + [sep] + b, sep) == [a] + Split(b, sep)
  {
    if a != "" {
      assert (a + [sep] + b)[1..] == a[1..] + [sep] + b;
      SplitAtFirst(a[1..], sep, b);
      assert [a[0]] + a[1..] == a;
    } else {
      assert a + [sep] + b == [sep] + b;
    }
  }

  /**
   * The first two pieces of `name=v` followed by nothing or by `=` and
   * anything: the destructuring `[name, value] = s.split('=')` sees these.
   */
  lemma SplitPair(name: string, v: string, tail: string)
    requires '=' !in name && '=' !in v
    requires tail == "" || tail[0] == '='
    ensures var parts := Split(name + "=" + v + tail, '=');
      |parts| >= 2 && parts[0] == name && parts[1] == v
  {
    assert name + "=" + v + tail == name + ['='] + (v + tail);
    SplitAtFirst(name, '=', v + tail);
    if tail == "" {
      assert v + tail == v;
      SplitNoSeparator(v, '=');
    } else {
      assert v + tail == v + ['='] + tail[1..];
      SplitAtFirst(v, '=', tail[1..]);
    }
  }

  /** `s.startsWith(prefix)`. */
  predicate StartsWith(s: string, prefix: string)
  {
    |prefix| <= |s| && s[..|prefix|] == prefix
  }

  /** JavaScript truthiness of an optional string: present and not "". */
  predicate Truthy(s: Option<string>)
  {
    s.Some? && s.value != ""
  }

  /** `a || b` on optional strings: the first truthy one, else the second. */
  function OrElse(a: Option<string>, b: Option<string>): (r: Option<string>)
    ensures Truthy(r) <==> Truthy(a) || Truthy(b)
    ensures Truthy(a) ==> r == a
    ensures !Truthy(a) ==> r == b
  {
    if Truthy(a) then a else b
  }

  import opened Wrappers
}
