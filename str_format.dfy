/**
 * Python's `str.format`, restricted to keyword arguments and to replacement
 * fields that are plain names. It is the reference semantics against which
 * the prompt rendering is proved: a single left-to-right pass over the
 * template in which literal text is copied, `{{` and `}}` become single
 * braces, and each `{name}` is replaced by the argument's text, which is
 * never scanned again.
 */
module StrFormat {
  import opened Wrappers

  /** The exceptions `str.format` raises on the templates this model covers. */
  datatype FormatError =
    | SingleOpenBrace                  // a '{' that is the last character
    | SingleCloseBrace                 // a '}' outside a field that is not doubled
    | UnclosedField                    // "{name" with no closing '}'
    | BraceInFieldName                 // a '{' inside a replacement field
    | PositionalIndex(field: string)   // "{}" or "{0}": no positional arguments are passed
    | MissingKey(name: string)         // the KeyError for a name not among the arguments
    | UnsupportedField(field: string)  // conversion, format spec, attribute or index syntax

  predicate IsBrace(ch: char) {
    ch == '{' || ch == '}'
  }

  predicate NoBraces(s: string) {
    '{' !in s && '}' !in s
  }

  lemma NoBracesAppend(a: string, b: string)
    requires NoBraces(a) && NoBraces(b)
    ensures NoBraces(a + b)
  {
  }

  /** The length of the longest prefix of `s` that holds no brace. */
  function BraceFreeLength(s: string): (n: nat)
    ensures n <= |s|
    ensures NoBraces(s[..n])
    ensures n < |s| ==> IsBrace(s[n])
  {
    if s == [] || IsBrace(s[0]) then 0
    else
      var m := BraceFreeLength(s[1..]);
      assert s[..1 + m] == [s[0]] + s[1..][..m];
      1 + m
  }

  predicate IsDecimal(s: string) {
    forall i | 0 <= i < |s| :: '0' <= s[i] <= '9'
  }

  /** Field syntax beyond a plain name: conversion, format spec, attribute, index. */
  predicate HasFieldSyntax(s: string) {
    '!' in s || ':' in s || '.' in s || '[' in s
  }

  /**
   * A field that `str.format` looks up among its keyword arguments. The empty
   * field and an all-digit field index the positional arguments instead.
   */
  predicate IsKeyword(field: string) {
    field != [] && !IsDecimal(field) && !HasFieldSyntax(field)
  }

  /** The text that replaces the field `{field}`. */
  function LookUp(field: string, kwargs: map<string, string>): (r: Result<string, FormatError>)
    ensures r.Ok? <==> IsKeyword(field) && field in kwargs
    ensures r.Ok? ==> r.value == kwargs[field]
    ensures IsKeyword(field) && field !in kwargs ==> r == Err(MissingKey(field))
  {
    if HasFieldSyntax(field) then Err(UnsupportedField(field))
    else if field == [] || IsDecimal(field) then Err(PositionalIndex(field))
    else if field in kwargs then Ok(kwargs[field])
    else Err(MissingKey(field))
  }

  /** `text` followed by the formatted rest, or the error formatting the rest raised. */
  function Prepend(text: string, rest: Result<string, FormatError>): Result<string, FormatError> {
    match rest
    case Ok(s) => Ok(text + s)
    case Err(e) => Err(e)
  }

  lemma PrependPrepend(a: string, b: string, rest: Result<string, FormatError>)
    ensures Prepend(a, Prepend(b, rest)) == Prepend(a + b, rest)
  {
    if rest.Ok? {
      assert a + (b + rest.value) == (a + b) + rest.value;
    }
  }

  /** `template.format(**kwargs)` */
  function Format(template: string, kwargs: map<string, string>): Result<string, FormatError>
    decreases |template|
  {
    if template == [] then Ok([])
    else if template[0] == '{' then
      if |template| == 1 then Err(SingleOpenBrace)
      else if template[1] == '{' then Prepend("{", Format(template[2..], kwargs))
      else
        var n := BraceFreeLength(template[1..]);
        if 1 + n == |template| then Err(UnclosedField)
        else if template[1 + n] == '{' then Err(BraceInFieldName)
        else
          match LookUp(template[1..1 + n], kwargs)
          case Err(e) => Err(e)
          case Ok(value) => Prepend(value, Format(template[2 + n..], kwargs))
    else if template[0] == '}' then
      if |template| > 1 && template[1] == '}' then Prepend("}", Format(template[2..], kwargs))
      else Err(SingleCloseBrace)
    else
      Prepend(template[..1], Format(template[1..], kwargs))
  }

  /** Text without braces is copied unchanged in front of whatever follows it. */
  lemma {:induction false} FormatLiteralThen(literal: string, rest: string, kwargs: map<string, string>)
    requires NoBraces(literal)
    ensures Format(literal + rest, kwargs) == Prepend(literal, Format(rest, kwargs))
  {
    if literal == [] {
      assert literal + rest == rest;
      match Format(rest, kwargs)
      case Ok(s) => assert literal + s == s;
      case Err(_) =>
    } else {
      var t := literal + rest;
      assert t[0] == literal[0] && !IsBrace(t[0]);
      assert t[..1] == literal[..1];
      assert t[1..] == literal[1..] + rest;
      assert literal[..1] + literal[1..] == literal;
      FormatLiteralThen(literal[1..], rest, kwargs);
      PrependPrepend(literal[..1], literal[1..], Format(rest, kwargs));
    }
  }

  /** A template without braces formats to itself, whatever the arguments. */
  lemma FormatPlain(template: string, kwargs: map<string, string>)
    requires NoBraces(template)
    ensures Format(template, kwargs) == Ok(template)
  {
    FormatLiteralThen(template, [], kwargs);
    assert template + [] == template;
  }

  /** A keyword field is replaced by its argument's text, which is not scanned again. */
  lemma FormatField(name: string, rest: string, kwargs: map<string, string>)
    requires NoBraces(name) && IsKeyword(name) && name in kwargs
    ensures Format("{" + name + "}" + rest, kwargs) == Prepend(kwargs[name], Format(rest, kwargs))
  {
    var t := "{" + name + "}" + rest;
    var n := BraceFreeLength(t[1..]);
    FieldEnd(name, rest);
    assert t[1..] == name + "}" + rest;
    assert n == |name|;
    assert t[1..1 + n] == name;
    assert t[2 + n..] == rest;
  }

  /** A field whose name is not among the arguments raises KeyError. */
  lemma FormatMissingKey(name: string, rest: string, kwargs: map<string, string>)
    requires NoBraces(name) && IsKeyword(name) && name !in kwargs
    ensures Format("{" + name + "}" + rest, kwargs) == Err(MissingKey(name))
  {
    var t := "{" + name + "}" + rest;
    FieldEnd(name, rest);
    assert t[1..] == name + "}" + rest;
    assert t[1..1 + |name|] == name;
  }

  /** The field body of `{name}rest` ends exactly at the closing brace. */
  lemma FieldEnd(name: string, rest: string)
    requires NoBraces(name)
    ensures BraceFreeLength(name + "}" + rest) == |name|
  {
    var s := name + "}" + rest;
    assert s[|name|] == '}';
  }

  /** Literal text in front of a template that formats to `text`. */
  lemma FormatLiteralBefore(literal: string, rest: string, text: string, kwargs: map<string, string>)
    requires NoBraces(literal) && Format(rest, kwargs) == Ok(text)
    ensures Format(literal + rest, kwargs) == Ok(literal + text)
  {
    FormatLiteralThen(literal, rest, kwargs);
  }

  /** A keyword field in front of a template that formats to `text`. */
  lemma FormatFieldBefore(name: string, rest: string, text: string, kwargs: map<string, string>)
    requires NoBraces(name) && IsKeyword(name) && name in kwargs
    requires Format(rest, kwargs) == Ok(text)
    ensures Format("{" + name + "}" + rest, kwargs) == Ok(kwargs[name] + text)
  {
    FormatField(name, rest, kwargs);
  }

  /** Literal text, a keyword field, and more literal text. */
  lemma FormatOneField(before: string, name: string, after: string, kwargs: map<string, string>)
    requires NoBraces(before) && NoBraces(after)
    requires NoBraces(name) && IsKeyword(name) && name in kwargs
    ensures Format(before + ("{" + name + "}" + after), kwargs) == Ok(before + (kwargs[name] + after))
  {
    FormatPlain(after, kwargs);
    FormatFieldBefore(name, after, after, kwargs);
    FormatLiteralBefore(before, "{" + name + "}" + after, kwargs[name] + after, kwargs);
  }

  /** A template with two keyword fields formats to its literal text with both arguments in place. */
  lemma FormatTwoFields(head: string, first: string, between: string, second: string, tail: string,
                        kwargs: map<string, string>)
    requires NoBraces(head) && NoBraces(between) && NoBraces(tail)
    requires NoBraces(first) && IsKeyword(first) && first in kwargs
    requires NoBraces(second) && IsKeyword(second) && second in kwargs
    ensures Format(head + ("{" + first + "}" + (between + ("{" + second + "}" + tail))), kwargs)
         == Ok(head + (kwargs[first] + (between + (kwargs[second] + tail))))
  {
    var rest := between + ("{" + second + "}" + tail);
    FormatOneField(between, second, tail, kwargs);
    FormatFieldBefore(first, rest, between + (kwargs[second] + tail), kwargs);
    FormatLiteralBefore(head, "{" + first + "}" + rest, kwargs[first] + (between + (kwargs[second] + tail)), kwargs);
  }
}
