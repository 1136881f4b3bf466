/** `tupleware`: the recursive conversion of loaded JSON into records that
    allow attribute access (`endpoints.<suite>.<endpoint>`, `cargs().environment`).
    A dict becomes a named tuple whose fields are its keys in sorted order, or
    a plain dict when the keys are not usable field names; a list becomes a
    list; anything else is returned as it is. */
module Tupleware {
  import opened JsonValue

  /** The converted value: a named tuple (`TWare`), a dict, a list or a leaf. */
  datatype TW =
    | Record(fields: seq<string>, values: seq<TW>)
    | Dict(entries: map<string, TW>)
    | List(items: seq<TW>)
    | Leaf(value: Json)

  /** Python's `a <= b` on strings: code points compared lexicographically,
      a proper prefix first. */
  predicate StrLe(a: string, b: string)
    decreases |a|
  {
    a == [] || (b != [] && (a[0] < b[0] || (a[0] == b[0] && StrLe(a[1..], b[1..]))))
  }

  lemma {:induction false} StrLeReflexive(a: string)
    ensures StrLe(a, a)
    decreases |a|
  {
    if a != [] {
      StrLeReflexive(a[1..]);
    }
  }

  lemma {:induction false} StrLeTotal(a: string, b: string)
    ensures StrLe(a, b) || StrLe(b, a)
    decreases |a|
  {
    if a != [] && b != [] && a[0] == b[0] {
      StrLeTotal(a[1..], b[1..]);
    }
  }

  lemma {:induction false} StrLeAntisymmetric(a: string, b: string)
    requires StrLe(a, b) && StrLe(b, a)
    ensures a == b
    decreases |a|
  {
    if a != [] {
      StrLeAntisymmetric(a[1..], b[1..]);
      assert a == [a[0]] + a[1..] && b == [b[0]] + b[1..];
    }
  }

  lemma {:induction false} StrLeTransitive(a: string, b: string, c: string)
    requires StrLe(a, b) && StrLe(b, c)
    ensures StrLe(a, c)
    decreases |a|
  {
    if a != [] && a[0] == b[0] && b[0] == c[0] {
      StrLeTransitive(a[1..], b[1..], c[1..]);
    }
  }

  /** Adding an element to a set with a least element keeps a least
      element: the old least one or the new one, whichever is smaller. */
  lemma LeastOfInsert(t: set<string>, y: string, m: string)
    requires m in t && forall x :: x in t ==> StrLe(m, x)
    ensures exists k :: k in t + {y} && forall x :: x in t + {y} ==> StrLe(k, x)
  {
    StrLeReflexive(y);
    if StrLe(m, y) {
      assert m in t + {y};
    } else {
      StrLeTotal(m, y);
      forall x | x in t + {y} ensures StrLe(y, x) {
        if x != y {
          StrLeTransitive(y, m, x);
        }
      }
      assert y in t + {y};
    }
  }

  /** Every finite non-empty set of strings has a least element. */
  lemma {:induction false} LeastExists(s: set<string>)
    requires s != {}
    ensures exists m :: m in s && forall x :: x in s ==> StrLe(m, x)
    decreases |s|
  {
    var y :| y in s;
    var t := s - {y};
    assert t + {y} == s;
    if t == {} {
      StrLeReflexive(y);
      assert forall x :: x in s ==> x == y;
      assert y in s;
    } else {
      LeastExists(t);
      var m :| m in t && forall x :: x in t ==> StrLe(m, x);
      LeastOfInsert(t, y, m);
    }
  }



  ghost predicate StrictlySorted(r: seq<string>) {
    forall i, j :: 0 <= i < j < |r| ==> StrLe(r[i], r[j]) && r[i] != r[j]
  }

  /** `sorted(keys)`. */
  ghost function SortedKeys(s: set<string>): (r: seq<string>)
    ensures |r| == |s|
    ensures forall x :: x in r <==> x in s
    ensures StrictlySorted(r)
    decreases |s|
  {
    if s == {} then []
    else
      LeastExists(s);
      var m :| m in s && forall x :: x in s ==> StrLe(m, x);
      var rest := SortedKeys(s - {m});
      SortedCons(m, rest, s);
      [m] + rest
  }

  /** The least element of a set in front of the sorted rest of it. */
  lemma SortedCons(m: string, rest: seq<string>, s: set<string>)
    requires m in s && forall x :: x in s ==> StrLe(m, x)
    requires StrictlySorted(rest) && forall x :: x in rest <==> x in s - {m}
    ensures StrictlySorted([m] + rest)
  {
    var r := [m] + rest;
    forall i, j | 0 <= i < j < |r| ensures StrLe(r[i], r[j]) && r[i] != r[j] {
      assert r[j] == rest[j - 1] && r[j] in s - {m};
      if i > 0 {
        assert r[i] == rest[i - 1];
      }
    }
  }

  /** Python reserved words, which `namedtuple` cannot use as field names. */
  const Keywords: set<string> := {
    "False", "None", "True", "and", "as", "assert", "async", "await", "break",
    "class", "continue", "def", "del", "elif", "else", "except", "finally", "for",
    "from", "global", "if", "import", "in", "is", "lambda", "nonlocal", "not", "or",
    "pass", "raise", "return", "try", "while", "with", "yield"}

  predicate IdentStart(c: char) {
    ('a' <= c <= 'z') || ('A' <= c <= 'Z') || c == '_'
  }

  predicate IdentPart(c: char) {
    IdentStart(c) || ('0' <= c <= '9')
  }

  /** `str.isidentifier()` for ASCII names. */
  predicate IsIdentifier(name: string) {
    name != [] && IdentStart(name[0]) && forall i :: 1 <= i < |name| ==> IdentPart(name[i])
  }

  /** A name `namedtuple(..., rename=True)` keeps at position `index`:
      an identifier that is not a keyword and does not start with `_`, or the
      very name `_<index>` the renaming would give it. */
  predicate KeptFieldName(name: string, index: nat) {
    (IsIdentifier(name) && name !in Keywords && name[0] != '_')
    || name == "_" + DigitsText(index)
  }

  /** The record can be built from the keys exactly when no key is renamed;
      a renamed key is an unexpected keyword argument. */
  predicate RecordBuildable(names: seq<string>) {
    forall i :: 0 <= i < |names| ==> KeptFieldName(names[i], i)
  }

  /** `tupleware(obj)`. */
  ghost function Tupleware(j: Json): (r: TW)
    ensures j.JObj? && RecordBuildable(SortedKeys(j.fields.Keys)) ==>
              r.Record? && r.fields == SortedKeys(j.fields.Keys) && |r.values| == |r.fields|
    ensures j.JObj? && !RecordBuildable(SortedKeys(j.fields.Keys)) ==>
              r.Dict? && r.entries.Keys == j.fields.Keys
    ensures j.JArr? ==> r.List? && |r.items| == |j.items|
    ensures !j.JObj? && !j.JArr? ==> r == Leaf(j)
  {
    match j
    case JObj(m) =>
      var names := SortedKeys(m.Keys);
      if RecordBuildable(names)
      then Record(names, seq(|names|, i requires 0 <= i < |names| => Tupleware(m[names[i]])))
      else Dict(map k | k in m :: Tupleware(m[k]))
    case JArr(a) => List(seq(|a|, i requires 0 <= i < |a| => Tupleware(a[i])))
    case _ => Leaf(j)
  }

  /** The first position of `k` in `s`. */
  function IndexOf(s: seq<string>, k: string): (i: nat)
    ensures i <= |s|
    ensures i < |s| <==> k in s
    ensures i < |s| ==> s[i] == k
  {
    if s == [] then 0
    else if s[0] == k then 0
    else 1 + IndexOf(s[1..], k)
  }

  /** Back to plain JSON: a record becomes the dict of its fields (`_asdict()`). */
  function Plain(t: TW): Json
    decreases t
  {
    match t
    case Record(fs, vs) =>
      JObj(map k | k in fs :: var i := IndexOf(fs, k); if i < |vs| then Plain(vs[i]) else JNull)
    case Dict(e) => JObj(map k | k in e :: Plain(e[k]))
    case List(items) => JArr(seq(|items|, i requires 0 <= i < |items| => Plain(items[i])))
    case Leaf(v) => v
  }

  /** A record built from all the keys of `m`, each field holding a value
      that reads back as the key's value, reads back as `m`. */
  lemma PlainRecord(m: map<string, Json>, names: seq<string>, vs: seq<TW>)
    requires forall x :: x in names <==> x in m
    requires |vs| == |names|
    requires forall i :: 0 <= i < |names| ==> Plain(vs[i]) == m[names[i]]
    ensures Plain(Record(names, vs)) == JObj(m)
  {
    var r := Plain(Record(names, vs)).fields;
    forall k | k in m ensures k in r && r[k] == m[k] {
      var i := IndexOf(names, k);
      assert Plain(vs[i]) == m[names[i]];
    }
    assert r.Keys == m.Keys;
  }

  /** A dict all of whose values read back as `m`'s reads back as `m`. */
  lemma PlainDict(m: map<string, Json>, e: map<string, TW>)
    requires e.Keys == m.Keys
    requires forall k :: k in m ==> Plain(e[k]) == m[k]
    ensures Plain(Dict(e)) == JObj(m)
  {
    assert Plain(Dict(e)).fields == m;
  }

  /** How a dict is converted, field by field. */
  lemma TuplewareObject(m: map<string, Json>)
    ensures var names := SortedKeys(m.Keys); var t := Tupleware(JObj(m));
      if RecordBuildable(names)
      then t.Record? && t.fields == names && |t.values| == |names|
           && forall i :: 0 <= i < |names| ==> t.values[i] == Tupleware(m[names[i]])
      else t.Dict? && t.entries.Keys == m.Keys && forall k :: k in m ==> t.entries[k] == Tupleware(m[k])
  {
  }

  /** A dict whose values convert back to themselves converts back to itself. */
  lemma RoundTripObject(m: map<string, Json>)
    requires forall k :: k in m ==> Plain(Tupleware(m[k])) == m[k]
    ensures Plain(Tupleware(JObj(m))) == JObj(m)
  {
    var names := SortedKeys(m.Keys);
    var t := Tupleware(JObj(m));
    TuplewareObject(m);
    if RecordBuildable(names) {
      RecordReadsBack(m, names, t);
    } else {
      DictReadsBack(m, t);
    }
  }

  /** A record converted from `m` reads back as `m`. */
  lemma RecordReadsBack(m: map<string, Json>, names: seq<string>, t: TW)
    requires forall k :: k in m ==> Plain(Tupleware(m[k])) == m[k]
    requires forall x :: x in names <==> x in m
    requires t.Record? && t.fields == names && |t.values| == |names|
    requires forall i :: 0 <= i < |names| ==> t.values[i] == Tupleware(m[names[i]])
    ensures Plain(t) == JObj(m)
  {
    forall i | 0 <= i < |names| ensures Plain(t.values[i]) == m[names[i]] {
      assert names[i] in m;
    }
    PlainRecord(m, names, t.values);
    assert t == Record(names, t.values);
  }

  /** A dict converted from `m` reads back as `m`. */
  lemma DictReadsBack(m: map<string, Json>, t: TW)
    requires forall k :: k in m ==> Plain(Tupleware(m[k])) == m[k]
    requires t.Dict? && t.entries.Keys == m.Keys && forall k :: k in m ==> t.entries[k] == Tupleware(m[k])
    ensures Plain(t) == JObj(m)
  {
    PlainDict(m, t.entries);
    assert t == Dict(t.entries);
  }

  /** The conversion loses nothing: reading every record back as a dict gives
      the original value, so every field holds its key's converted value. */
  lemma {:induction false} TuplewareRoundTrip(j: Json)
    ensures Plain(Tupleware(j)) == j
    decreases j
  {
    match j
    case JObj(m) =>
      forall k | k in m ensures Plain(Tupleware(m[k])) == m[k] {
        TuplewareRoundTrip(m[k]);
      }
      RoundTripObject(m);
    case JArr(a) =>
      var t := Tupleware(j);
      forall i | 0 <= i < |a| ensures Plain(t.items[i]) == a[i] {
        TuplewareRoundTrip(a[i]);
      }
      assert Plain(t).items == a;
    case _ =>
  }

  /** Two keys are listed smaller first. */
  lemma SortedPair(a: string, b: string)
    requires StrLe(a, b) && a != b
    ensures SortedKeys({a, b}) == [a, b]
  {
    var names := SortedKeys({a, b});
    assert |{a, b}| == 2;
    assert a in names && b in names;
    if names[0] == b {
      StrLeAntisymmetric(a, b);
    }
  }

  lemma PairKeys(x: Json, y: Json)
    ensures SortedKeys(map["b" := x, "a" := y].Keys) == ["a", "b"]
  {
    assert map["b" := x, "a" := y].Keys == {"a", "b"};
    SortedPair("a", "b");
  }

  lemma PairBuildable()
    ensures RecordBuildable(["a", "b"])
  {
    assert KeptFieldName("a", 0);
    assert KeptFieldName("b", 1);
  }

  /** The fields of a record are the keys in sorted order. */
  lemma RecordFieldsSorted(x: Json, y: Json)
    ensures Tupleware(JObj(map["b" := x, "a" := y]))
         == Record(["a", "b"], [Tupleware(y), Tupleware(x)])
  {
    var m := map["b" := x, "a" := y];
    PairKeys(x, y);
    PairBuildable();
    TuplewareObject(m);
    var t := Tupleware(JObj(m));
    assert t.values[0] == Tupleware(y) && t.values[1] == Tupleware(x);
    assert t.values == [Tupleware(y), Tupleware(x)];
  }

  /** A single key sorts to itself. */
  lemma SingleKeySorted(k: string)
    ensures SortedKeys({k}) == [k]
  {
    var r := SortedKeys({k});
    assert |r| == 1 && r[0] in {k};
  }

  /** A key that is a reserved word cannot be a field, so the dict stays a dict. */
  lemma KeywordKeyStaysDict(v: Json)
    ensures Tupleware(JObj(map["class" := v])) == Dict(map["class" := Tupleware(v)])
  {
    var m := map["class" := v];
    assert m.Keys == {"class"};
    SingleKeySorted("class");
    assert !KeptFieldName("class", 0) by {
      assert "class" in Keywords;
      assert ("_" + DigitsText(0))[0] == '_';
    }
    TuplewareObject(m);
    var t := Tupleware(JObj(m));
    assert t.entries == map["class" := Tupleware(v)];
  }

  /** Renaming gives a leading-underscore name at position `i` the name `_<i>`,
      so `_0` is accepted as the first field while `_1` is not. */
  lemma UnderscoreKeys(v: Json)
    ensures Tupleware(JObj(map["_0" := v])).Record?
    ensures Tupleware(JObj(map["_1" := v])).Dict?
  {
    var m0 := map["_0" := v];
    var m1 := map["_1" := v];
    assert m0.Keys == {"_0"} && m1.Keys == {"_1"};
    assert SortedKeys(m0.Keys) == ["_0"];
    assert SortedKeys(m1.Keys) == ["_1"];
    assert DigitsText(0) == "0";
    assert KeptFieldName("_0", 0);
    assert !KeptFieldName("_1", 0);
    TuplewareObject(m0);
    TuplewareObject(m1);
  }
}
