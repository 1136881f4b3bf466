/** `template.format(**kwargs)` for the templates the framework formats:
    base URLs with `{environment}` and endpoint paths with named placeholders.
    Only named fields without conversion, format specification, attribute or
    index are modelled; `{{` and `}}` stand for literal braces. */
module StrFormat {
  import opened Outcomes
  import opened JsonValue
  import opened PyStrings

  /** No brace at all: the text is copied unchanged. */
  predicate Plain(t: string) {
    '{' !in t && '}' !in t
  }

  /** A field name made of digits only (or empty) refers to a positional
      argument; none is passed. */
  predicate Positional(name: string) {
    forall i :: 0 <= i < |name| ==> '0' <= name[i] <= '9'
  }

  /** A field name using attribute access, indexing, a conversion or a
      format specification. */
  predicate Compound(name: string) {
    '.' in name || '[' in name || '!' in name || ':' in name
  }

  /** The text of one replacement field. */
  function FieldValue(name: string, args: Object): (r: Result<string>)
    ensures Positional(name) ==> r == Err(IndexError)
    ensures !Positional(name) && !Compound(name) && name !in args ==> r == Err(KeyError(name))
    ensures !Positional(name) && !Compound(name) && name in args ==> r == Text(args[name])
  {
    if Positional(name) then Err(IndexError)
    else if Compound(name) then Err(Unsupported("compound replacement field"))
    else if name !in args then Err(KeyError(name))
    else Text(args[name])
  }

  /** `t.format(**args)`, left to right: the first malformed brace or
      failing field is the error. */
  function Format(t: string, args: Object): Result<string>
    decreases |t|
  {
    if t == [] then Ok([])
    else if t[0] == '{' then
      if |t| >= 2 && t[1] == '{' then
        var rest :- Format(t[2..], args);
        Ok("{" + rest)
      else
        var close := Find(t, "}");
        if close == -1 then Err(ValueError("expected '}' before end of string"))
        else
          var name := t[1..close];
          if '{' in name then Err(ValueError("unexpected '{' in field name"))
          else
            var value :- FieldValue(name, args);
            var rest :- Format(t[close + 1..], args);
            Ok(value + rest)
    else if t[0] == '}' then
      if |t| >= 2 && t[1] == '}' then
        var rest :- Format(t[2..], args);
        Ok("}" + rest)
      else Err(ValueError("Single '}' encountered in format string"))
    else
      var rest :- Format(t[1..], args);
      Ok([t[0]] + rest)
  }

  /** Text without braces is copied, whatever the arguments. */
  lemma {:induction false} FormatPlain(t: string, args: Object)
    requires Plain(t)
    ensures Format(t, args) == Ok(t)
    decreases |t|
  {
    if t != [] {
      FormatPlain(t[1..], args);
      assert t == [t[0]] + t[1..];
    }
  }

  /** A brace-free prefix is copied in front of the formatted rest. */
  lemma {:induction false} FormatPlainPrefix(p: string, rest: string, args: Object)
    requires Plain(p)
    ensures Format(p + rest, args) == (var r :- Format(rest, args); Ok(p + r))
    decreases |p|
  {
    if p != [] {
      var t := p + rest;
      assert p[0] in p;
      assert t[0] == p[0] && t[1..] == p[1..] + rest;
      assert Plain(p[1..]) by {
        forall c | c in p[1..] ensures c in p { }
      }
      FormatPlainPrefix(p[1..], rest, args);
      assert Format(t, args) == (var x :- Format(p[1..] + rest, args); Ok([p[0]] + x));
      var r := Format(rest, args);
      if r.Ok? {
        assert Format(p[1..] + rest, args) == Ok(p[1..] + r.value);
        assert [p[0]] + (p[1..] + r.value) == p + r.value;
      } else {
        assert Format(p[1..] + rest, args) == Err(r.error);
      }
    } else {
      assert p + rest == rest;
      var r := Format(rest, args);
      if r.Ok? {
        assert p + r.value == r.value;
      } else {
        assert r == Err(r.error);
      }
    }
  }

  /** A replacement field is its argument's text in front of the formatted
      rest. */
  lemma FormatField(name: string, rest: string, args: Object)
    requires name != [] && Plain(name)
    ensures Format("{" + name + "}" + rest, args)
         == (var v :- FieldValue(name, args); var r :- Format(rest, args); Ok(v + r))
  {
    var t := "{" + name + "}" + rest;
    CharSubstring(name, '}');
    assert t[0] == '{' && t[1] == name[0];
    assert OccursAt("}", t, |name| + 1);
    forall j | 0 <= j < |name| + 1 ensures !OccursAt("}", t, j) {
      if j > 0 {
        assert t[j] == name[j - 1];
        assert t[j..j + 1] == [t[j]];
      }
    }
    var close := Find(t, "}");
    assert close == |name| + 1;
    assert t[1..close] == name;
    assert t[close + 1..] == rest;
  }

  /** Doubled braces stand for one literal brace. */
  lemma FormatEscapes(rest: string, args: Object)
    ensures Format("{{" + rest, args) == (var r :- Format(rest, args); Ok("{" + r))
    ensures Format("}}" + rest, args) == (var r :- Format(rest, args); Ok("}" + r))
  {
    assert ("{{" + rest)[2..] == rest;
    assert ("}}" + rest)[2..] == rest;
  }

  /** The shape of a two-field template, grouped from the right. */
  lemma TwoFieldsShape(p1: string, n1: string, p2: string, n2: string)
    ensures p1 + "{" + n1 + "}" + p2 + "{" + n2 + "}" == p1 + ("{" + n1 + "}" + (p2 + ("{" + n2 + "}" + [])))
  {
    var tail := "{" + n2 + "}";
    assert tail + [] == tail;
    assert p1 + "{" + n1 + "}" + p2 + tail == p1 + ("{" + n1 + "}" + (p2 + tail));
  }

  /** A field alone formats to its argument's text. */
  lemma FormatFieldAlone(name: string, args: Object)
    requires name != [] && Plain(name)
    ensures Format("{" + name + "}" + [], args) == (var v :- FieldValue(name, args); Ok(v))
  {
    FormatPlain([], args);
    FormatField(name, [], args);
    var f := FieldValue(name, args);
    if f.Ok? {
      assert f.value + [] == f.value;
    }
  }

  /** A template of two plain pieces each followed by one field: the
      fields are filled left to right, and the first failing field is the
      error. */
  lemma FormatTwoFields(p1: string, n1: string, p2: string, n2: string, args: Object)
    requires Plain(p1) && Plain(p2)
    requires n1 != [] && Plain(n1) && n2 != [] && Plain(n2)
    ensures Format(p1 + "{" + n1 + "}" + p2 + "{" + n2 + "}", args)
         == (var v1 :- FieldValue(n1, args); var v2 :- FieldValue(n2, args); Ok(p1 + v1 + p2 + v2))
  {
    TwoFieldsShape(p1, n1, p2, n2);
    var tail := "{" + n2 + "}" + [];
    var mid := p2 + tail;
    var field := "{" + n1 + "}" + mid;
    FormatFieldAlone(n2, args);
    FormatPlainPrefix(p2, tail, args);
    FormatField(n1, mid, args);
    FormatPlainPrefix(p1, field, args);
    ChainTwoFields(FieldValue(n1, args), FieldValue(n2, args),
                   Format(tail, args), Format(mid, args), Format(field, args), Format(p1 + field, args), p1, p2);
  }

  /** The outcomes of the four formatting steps of a two-field template
      compose left to right. */
  lemma ChainTwoFields(f1: Result<string>, f2: Result<string>, rTail: Result<string>, rMid: Result<string>,
                       rField: Result<string>, rWhole: Result<string>, p1: string, p2: string)
    requires rTail == (var v :- f2; Ok(v))
    requires rMid == (var r :- rTail; Ok(p2 + r))
    requires rField == (var v :- f1; var r :- rMid; Ok(v + r))
    requires rWhole == (var r :- rField; Ok(p1 + r))
    ensures rWhole == (var v1 :- f1; var v2 :- f2; Ok(p1 + v1 + p2 + v2))
  {
    if f1.Ok? && f2.Ok? {
      assert p1 + (f1.value + (p2 + f2.value)) == p1 + f1.value + p2 + f2.value;
    }
  }
}
