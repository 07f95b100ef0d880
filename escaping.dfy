/** `escapeRegExp` (src/getInterface.ts:23-25) and the module-filter pattern built from it
    (src/getInterface.ts:209). */
module Escaping {
  import opened Common

  /** The characters matched by `\s` in a JavaScript regular expression. */
  predicate IsWhitespace(c: char) {
    || '\t' <= c <= '\r'
    || c == ' ' || c == '\U{00A0}' || c == '\U{1680}'
    || '\U{2000}' <= c <= '\U{200A}'
    || c == '\U{2028}' || c == '\U{2029}' || c == '\U{202F}' || c == '\U{205F}'
    || c == '\U{3000}' || c == '\U{FEFF}'
  }

  /** The class `[-[\]{}()*+?.,\\^$|#\s]` of characters that get a backslash. */
  predicate IsSpecial(c: char) {
    c in "-[]{}()*+?.,\\^$|#" || IsWhitespace(c)
  }

  function CountSpecials(s: string): (n: nat)
    ensures n <= |s|
  {
    if s == [] then 0 else (if IsSpecial(s[0]) then 1 else 0) + CountSpecials(s[1..])
  }

  /** What the global replace does to one character: `'\\$&'` for a match. */
  function EscapeChar(c: char): string {
    if IsSpecial(c) then ['\\', c] else [c]
  }

  /** `escapeRegExp(str)`: every special character preceded by one backslash. */
  function EscapeRegExp(s: string): (r: string)
    ensures |r| == |s| + CountSpecials(s)
  {
    if s == [] then [] else EscapeChar(s[0]) + EscapeRegExp(s[1..])
  }

  /** The reading of an escaped pattern as a literal: a backslash followed by a special
      character stands for that character, any other non-special character stands for
      itself, and anything else (a bare special character, a backslash before an ordinary
      character) is not something `EscapeRegExp` produces. */
  function Unescape(r: string): (s: Option<string>)
  {
    if r == [] then Some([])
    else if r[0] == '\\' then
      if |r| >= 2 && IsSpecial(r[1]) then Cons(r[1], Unescape(r[2..])) else None
    else if IsSpecial(r[0]) then None
    else Cons(r[0], Unescape(r[1..]))
  }

  function Cons(c: char, rest: Option<string>): Option<string> {
    if rest.None? then None else Some([c] + rest.value)
  }

  /** Reading the escaped text back gives the input: escaping loses nothing. */
  lemma {:induction false} UnescapeEscape(s: string)
    ensures Unescape(EscapeRegExp(s)) == Some(s)
  {
    if s != [] {
      UnescapeEscape(s[1..]);
      var rest := EscapeRegExp(s[1..]);
      if IsSpecial(s[0]) {
        assert EscapeRegExp(s) == ['\\', s[0]] + rest;
        assert (['\\', s[0]] + rest)[2..] == rest;
      } else {
        assert EscapeRegExp(s) == [s[0]] + rest;
        assert ([s[0]] + rest)[1..] == rest;
        assert s[0] != '\\';
      }
      assert [s[0]] + s[1..] == s;
    }
  }

  /** Every string that reads back as a literal is exactly the escaping of that literal:
      escaped strings are precisely the well-formed ones. */
  lemma {:induction false} EscapeUnescape(r: string, s: string)
    requires Unescape(r) == Some(s)
    ensures EscapeRegExp(s) == r
    decreases |r|
  {
    if r == [] {
    } else if r[0] == '\\' {
      var tail := Unescape(r[2..]);
      assert tail.Some? && s == [r[1]] + tail.value;
      EscapeUnescape(r[2..], tail.value);
      assert s[1..] == tail.value;
      assert r == ['\\', r[1]] + r[2..];
    } else {
      var tail := Unescape(r[1..]);
      assert tail.Some? && s == [r[0]] + tail.value;
      EscapeUnescape(r[1..], tail.value);
      assert s[1..] == tail.value;
      assert r == [r[0]] + r[1..];
    }
  }

  /** Escaping is one-to-one: two module names never give the same escaped text. */
  lemma EscapeInjective(a: string, b: string)
    requires EscapeRegExp(a) == EscapeRegExp(b)
    ensures a == b
  {
    UnescapeEscape(a);
    UnescapeEscape(b);
  }

  /** A regular expression as the host stores it: its source text and its flags. */
  datatype RegExp = RegExp(source: string, ignoreCase: bool)

  const GrepPrefix: string := "(?:^|[^-]* - )"
  const GrepSuffix: string := " - "

  /** `String(value)` for the value assigned to `config.module`. */
  function ModuleText(value: Option<string>): string {
    if value.None? then "undefined" else value.value
  }

  /** The filter installed on the root suite when `config.module` is assigned. The text
      "undefined" has no special character and is written here already escaped;
      `GrepPatternEscapes` shows that both cases escape `ModuleText(value)`. */
  function GrepPattern(value: Option<string>): (p: RegExp)
    ensures p.ignoreCase
    ensures |p.source| >= |GrepPrefix| + |GrepSuffix|
    ensures p.source[..|GrepPrefix|] == GrepPrefix
    ensures p.source[|p.source| - |GrepSuffix|..] == GrepSuffix
  {
    match value
    case None => RegExp(GrepPrefix + "undefined" + GrepSuffix, true)
    case Some(s) => RegExp(GrepPrefix + EscapeRegExp(s) + GrepSuffix, true)
  }

  /** The filter is the fixed prefix, the escaped `String(value)` and the fixed suffix. */
  lemma GrepPatternEscapes(value: Option<string>)
    ensures GrepPattern(value).source == GrepPrefix + EscapeRegExp(ModuleText(value)) + GrepSuffix
    ensures |GrepPattern(value).source| == |GrepPrefix| + |ModuleText(value)| + CountSpecials(ModuleText(value)) + |GrepSuffix|
  {
    if value.None? {
      UndefinedEscapesToItself();
    }
  }

  /** `String(undefined)` has no special character, so escaping leaves it as it is. */
  lemma UndefinedEscapesToItself()
    ensures CountSpecials("undefined") == 0
    ensures EscapeRegExp("undefined") == "undefined"
  {
    var u := "undefined";
    assert forall i :: 0 <= i < |u| ==> 'a' <= u[i] <= 'z';
    PlainTextEscapesToItself(u);
  }

  /** Text without a special character is left as it is. */
  lemma {:induction false} PlainTextEscapesToItself(s: string)
    requires forall i :: 0 <= i < |s| ==> !IsSpecial(s[i])
    ensures CountSpecials(s) == 0 && EscapeRegExp(s) == s
  {
    if s != [] {
      PlainTextEscapesToItself(s[1..]);
    }
  }

  /** Distinct module names give distinct filters; the name is recovered from the filter by
      unescaping the text between the fixed prefix and suffix. */
  lemma GrepPatternRecoversName(name: string, p: RegExp)
    requires p == GrepPattern(Some(name))
    ensures Unescape(p.source[|GrepPrefix|..|p.source| - |GrepSuffix|]) == Some(name)
  {
    var e := EscapeRegExp(name);
    assert p.source == GrepPrefix + e + GrepSuffix;
    assert p.source[|GrepPrefix|..|p.source| - |GrepSuffix|] == e;
    UnescapeEscape(name);
  }
}
