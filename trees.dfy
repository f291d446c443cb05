/**
 * The two document trees the descriptor codec reads and writes, in place of XML and JSON text.
 * `Element` is what SimpleXML exposes of a parsed element (name, attributes with their
 * namespace, own text, child elements) and what `addChild`/`addAttribute` build; `Json` is the
 * PHP value `json_decode($text, true)` returns and `json_encode` consumes.
 */
module Trees {
  import opened Wrappers
  import opened OrderedMaps

  /** A decoded JSON value; an object is a PHP array with string keys. */
  datatype Json = JNull | JString(str: string) | JArray(items: seq<Json>) | JObject(members: seq<(string, Json)>)

  /** An attribute, with the namespace URI it belongs to ("" for an attribute without prefix). */
  datatype Attribute = Attribute(ns: string, name: string, value: string)

  /** An element with its attributes in document order, its own text and its child elements. */
  datatype Element = Element(name: string, attrs: seq<Attribute>, text: string, children: seq<Element>)

  /** The namespace of `xml:lang`. */
  const XmlNamespace := "http://www.w3.org/XML/1998/namespace"
  /** The namespace of `xsi:nil`. */
  const XsiNamespace := "http://www.w3.org/2001/XMLSchema-instance"
  /** The namespace of namespace declarations such as `xmlns:xsi`. */
  const XmlnsNamespace := "http://www.w3.org/2000/xmlns/"

  /** `$node->attributes($ns)[$name]`: the value of the first attribute with that namespace and name. */
  function Attr(attrs: seq<Attribute>, ns: string, name: string): (r: Option<string>)
    ensures r.None? <==> forall i :: 0 <= i < |attrs| ==> !(attrs[i].ns == ns && attrs[i].name == name)
    ensures r.Some? ==> exists i :: 0 <= i < |attrs| && attrs[i] == Attribute(ns, name, r.value)
  {
    if |attrs| == 0 then None
    else if attrs[0].ns == ns && attrs[0].name == name then Some(attrs[0].value)
    else
      var rest := Attr(attrs[1..], ns, name);
      assert forall i :: 1 <= i < |attrs| ==> attrs[i] == attrs[1..][i - 1];
      rest
  }

  /** `foreach ($node->Name as ...)`: the children with that name, in document order. */
  function ChildrenNamed(cs: seq<Element>, name: string): (r: seq<Element>)
    ensures |r| <= |cs|
    ensures forall i :: 0 <= i < |r| ==> r[i].name == name
  {
    if |cs| == 0 then []
    else (if cs[0].name == name then [cs[0]] else []) + ChildrenNamed(cs[1..], name)
  }

  lemma {:induction false} ChildrenNamedAppend(a: seq<Element>, b: seq<Element>, name: string)
    ensures ChildrenNamed(a + b, name) == ChildrenNamed(a, name) + ChildrenNamed(b, name)
    decreases |a|
  {
    if |a| == 0 {
      assert a + b == b;
    } else {
      assert (a + b)[1..] == a[1..] + b;
      ChildrenNamedAppend(a[1..], b, name);
    }
  }

  lemma {:induction false} ChildrenNamedAll(cs: seq<Element>, name: string)
    requires forall i :: 0 <= i < |cs| ==> cs[i].name == name
    ensures ChildrenNamed(cs, name) == cs
    decreases |cs|
  {
    if |cs| > 0 {
      ChildrenNamedAll(cs[1..], name);
    }
  }

  lemma {:induction false} ChildrenNamedNone(cs: seq<Element>, name: string)
    requires forall i :: 0 <= i < |cs| ==> cs[i].name != name
    ensures ChildrenNamed(cs, name) == []
    decreases |cs|
  {
    if |cs| > 0 {
      ChildrenNamedNone(cs[1..], name);
    }
  }

  /** Segments of children laid end to end. */
  function Flatten(parts: seq<seq<Element>>): (r: seq<Element>)
  {
    if |parts| == 0 then [] else parts[0] + Flatten(parts[1..])
  }

  /** Each segment holds children of its own name only. */
  ghost predicate NamedSegments(parts: seq<seq<Element>>, names: seq<string>) {
    |parts| == |names| &&
    forall i, m :: 0 <= i < |parts| && 0 <= m < |parts[i]| ==> parts[i][m].name == names[i]
  }

  lemma FlattenCons(x: seq<Element>, rest: seq<seq<Element>>)
    ensures Flatten([x] + rest) == x + Flatten(rest)
  {
    assert ([x] + rest)[1..] == rest;
  }

  /** Five segments laid end to end. */
  lemma Flatten5(a: seq<Element>, b: seq<Element>, c: seq<Element>, d: seq<Element>, e: seq<Element>)
    ensures Flatten([a, b, c, d, e]) == a + b + c + d + e
  {
    FlattenCons(e, []);
    assert [e] == [e] + [];
    FlattenCons(d, [e]);
    assert [d, e] == [d] + [e];
    FlattenCons(c, [d, e]);
    assert [c, d, e] == [c] + [d, e];
    FlattenCons(b, [c, d, e]);
    assert [b, c, d, e] == [b] + [c, d, e];
    FlattenCons(a, [b, c, d, e]);
    assert [a, b, c, d, e] == [a] + [b, c, d, e];
  }

  /** A name no segment carries picks nothing. */
  lemma {:induction false} ChildrenNamedFlattenAbsent(parts: seq<seq<Element>>, names: seq<string>, name: string)
    requires NamedSegments(parts, names) && name !in names
    ensures ChildrenNamed(Flatten(parts), name) == []
    decreases |parts|
  {
    if |parts| > 0 {
      ChildrenNamedAppend(parts[0], Flatten(parts[1..]), name);
      ChildrenNamedNone(parts[0], name);
      assert NamedSegments(parts[1..], names[1..]);
      ChildrenNamedFlattenAbsent(parts[1..], names[1..], name);
    }
  }

  /** When the segments carry distinct names, a segment's name picks exactly that segment. */
  lemma {:induction false} ChildrenNamedFlatten(parts: seq<seq<Element>>, names: seq<string>, k: nat)
    requires NamedSegments(parts, names) && k < |parts|
    requires forall i, j :: 0 <= i < j < |names| ==> names[i] != names[j]
    ensures ChildrenNamed(Flatten(parts), names[k]) == parts[k]
    decreases |parts|
  {
    ChildrenNamedAppend(parts[0], Flatten(parts[1..]), names[k]);
    assert NamedSegments(parts[1..], names[1..]);
    if k == 0 {
      ChildrenNamedAll(parts[0], names[0]);
      ChildrenNamedFlattenAbsent(parts[1..], names[1..], names[0]);
    } else {
      ChildrenNamedNone(parts[0], names[k]);
      ChildrenNamedFlatten(parts[1..], names[1..], k - 1);
    }
  }

  /** `f` applied to each item in order. */
  function MapSeq<A, B>(f: A -> B, items: seq<A>): (r: seq<B>)
    ensures |r| == |items|
    ensures forall i :: 0 <= i < |items| ==> r[i] == f(items[i])
  {
    seq(|items|, i requires 0 <= i < |items| => f(items[i]))
  }

  /** A non-empty sequence is its prefix followed by its last element. */
  lemma PrefixSnoc<T>(s: seq<T>)
    requires |s| > 0
    ensures s[..|s| - 1] + [s[|s| - 1]] == s
  {
  }

  lemma MapSeqSnoc<A, B>(f: A -> B, items: seq<A>, i: nat)
    requires i < |items|
    ensures MapSeq(f, items[..i + 1]) == MapSeq(f, items[..i]) + [f(items[i])]
  {
    assert items[..i + 1][i] == items[i];
    assert forall k :: 0 <= k < i ==> items[..i + 1][k] == items[..i][k];
  }

  /** `$node->Name`: the first child with that name, if any. */
  function FirstChild(cs: seq<Element>, name: string): (r: Option<Element>)
    ensures r.None? <==> forall i :: 0 <= i < |cs| ==> cs[i].name != name
    ensures forall i :: 0 <= i < |cs| && cs[i].name == name && (forall j :: 0 <= j < i ==> cs[j].name != name) ==>
                        r == Some(cs[i])
  {
    FirstNamed(cs, name);
    var named := ChildrenNamed(cs, name);
    if |named| == 0 then None else Some(named[0])
  }

  /** The filtered children are empty exactly when no child has the name, and start with the first child that has it. */
  lemma {:induction false} FirstNamed(cs: seq<Element>, name: string)
    ensures |ChildrenNamed(cs, name)| == 0 <==> forall i :: 0 <= i < |cs| ==> cs[i].name != name
    ensures forall i :: 0 <= i < |cs| && cs[i].name == name && (forall j :: 0 <= j < i ==> cs[j].name != name) ==>
                        ChildrenNamed(cs, name)[0] == cs[i]
    decreases |cs|
  {
    if |cs| > 0 && cs[0].name != name {
      FirstNamed(cs[1..], name);
      forall i | 0 <= i < |cs| && cs[i].name == name && (forall j :: 0 <= j < i ==> cs[j].name != name)
        ensures ChildrenNamed(cs, name)[0] == cs[i]
      {
        assert cs[1..][i - 1] == cs[i];
        assert forall j :: 0 <= j < i - 1 ==> cs[1..][j] == cs[j + 1];
      }
      if forall i :: 0 <= i < |cs[1..]| ==> cs[1..][i].name != name {
        assert forall i :: 1 <= i < |cs| ==> cs[i] == cs[1..][i - 1];
      }
    }
  }

  /** `strval` of each node: its text. */
  function Texts(nodes: seq<Element>): (r: seq<string>)
    ensures |r| == |nodes|
    ensures forall i :: 0 <= i < |nodes| ==> r[i] == nodes[i].text
  {
    seq(|nodes|, i requires 0 <= i < |nodes| => nodes[i].text)
  }

  /** The members of a PHP array holding a decoded JSON value; a list or a scalar has no string keys. */
  function Members(j: Json): seq<(string, Json)> {
    if j.JObject? then j.members else []
  }

  /** `isset($a[$key])` on a member holding a string, and that string. */
  function StringMember(members: seq<(string, Json)>, key: string): Option<string> {
    var v: Option<Json> := Get(members, key);
    if v.Some? && v.value.JString? then Some(v.value.str) else None
  }

  /** `strval` of a decoded JSON string or null. */
  function TextOf(j: Json): string {
    if j.JString? then j.str else ""
  }

  /** A member written only when it has a value (the `if (!is_null(...)) $a[$key] = ...` pattern). */
  function Field(key: string, value: Option<Json>): seq<(string, Json)> {
    if value.Some? then [(key, value.value)] else []
  }

  /** Members written in order, each only when it has a value. */
  function Fields(fs: seq<(string, Option<Json>)>): seq<(string, Json)> {
    if |fs| == 0 then [] else Fields(fs[..|fs| - 1]) + Field(fs[|fs| - 1].0, fs[|fs| - 1].1)
  }

  /** One more field adds its member, if it has a value, after the others. */
  lemma FieldsPrefix(fs: seq<(string, Option<Json>)>, k: nat)
    requires 0 < k <= |fs|
    ensures Fields(fs[..k]) == Fields(fs[..k - 1]) + Field(fs[k - 1].0, fs[k - 1].1)
  {
    assert fs[..k][..k - 1] == fs[..k - 1];
  }

  /** Five fields written in turn. */
  lemma FieldsOfFive(fs: seq<(string, Option<Json>)>)
    requires |fs| == 5
    ensures Fields(fs) == Field(fs[0].0, fs[0].1) + Field(fs[1].0, fs[1].1) + Field(fs[2].0, fs[2].1) +
                          Field(fs[3].0, fs[3].1) + Field(fs[4].0, fs[4].1)
  {
    var f0 := Field(fs[0].0, fs[0].1);
    var f1 := f0 + Field(fs[1].0, fs[1].1);
    var f2 := f1 + Field(fs[2].0, fs[2].1);
    var f3 := f2 + Field(fs[3].0, fs[3].1);
    assert Fields(fs[..1]) == f0 by {
      FieldsPrefix(fs, 1);
      assert fs[..0] == [];
    }
    assert Fields(fs[..2]) == f1 by {
      FieldsPrefix(fs, 2);
    }
    assert Fields(fs[..3]) == f2 by {
      FieldsPrefix(fs, 3);
    }
    assert Fields(fs[..4]) == f3 by {
      FieldsPrefix(fs, 4);
    }
    FieldsPrefix(fs, 5);
    assert fs[..5] == fs;
  }

  ghost predicate DistinctNames(fs: seq<(string, Option<Json>)>) {
    forall i, j :: 0 <= i < j < |fs| ==> fs[i].0 != fs[j].0
  }

  /** A name none of the fields has is not a member. */
  lemma {:induction false} FieldsAbsent(fs: seq<(string, Option<Json>)>, k: string)
    requires forall i :: 0 <= i < |fs| ==> fs[i].0 != k
    ensures !HasKey(Fields(fs), k)
  {
    if |fs| > 0 {
      var n := |fs| - 1;
      FieldsAbsent(fs[..n], k);
      var h := Fields(fs[..n]);
      var r := Fields(fs);
      assert r == h + Field(fs[n].0, fs[n].1);
      forall i | 0 <= i < |r| ensures r[i].0 != k {
        if i < |h| {
          assert r[i] == h[i];
        }
      }
    }
  }

  /** Each field is found under its name with its own value, or not at all when it has none. */
  lemma {:induction false} FieldsGet(fs: seq<(string, Option<Json>)>, m: nat)
    requires DistinctNames(fs) && m < |fs|
    ensures Get(Fields(fs), fs[m].0) == fs[m].1
  {
    var n := |fs| - 1;
    var h := Fields(fs[..n]);
    var f := Field(fs[n].0, fs[n].1);
    assert Fields(fs) == h + f;
    GetAppend(h, f, fs[m].0);
    if m < n {
      assert fs[..n][m] == fs[m];
      FieldsGet(fs[..n], m);
      assert Get(f, fs[m].0) == None;
    } else {
      FieldsAbsent(fs[..n], fs[n].0);
    }
  }

  /** The members have distinct names, carry no null unless a field's value is null, and are empty only when no field has a value. */
  lemma {:induction false} FieldsShape(fs: seq<(string, Option<Json>)>)
    requires DistinctNames(fs)
    ensures UniqueKeys(Fields(fs))
    ensures (forall i :: 0 <= i < |fs| ==> fs[i].1 != Some(JNull)) ==>
      forall i :: 0 <= i < |Fields(fs)| ==> Fields(fs)[i].1 != JNull
    ensures |Fields(fs)| == 0 <==> forall i :: 0 <= i < |fs| ==> fs[i].1.None?
  {
    if |fs| > 0 {
      var n := |fs| - 1;
      var h := Fields(fs[..n]);
      var f := Field(fs[n].0, fs[n].1);
      var r := h + f;
      assert Fields(fs) == r;
      assert DistinctNames(fs[..n]);
      FieldsShape(fs[..n]);
      FieldsAbsent(fs[..n], fs[n].0);
      forall i, j | 0 <= i < j < |r| ensures r[i].0 != r[j].0 {
        if j >= |h| {
          assert r[j] == f[0] && r[i] == h[i];
        } else {
          assert r[i] == h[i] && r[j] == h[j];
        }
      }
      if forall i :: 0 <= i < |fs| ==> fs[i].1 != Some(JNull) {
        forall i | 0 <= i < |r| ensures r[i].1 != JNull {
          if i >= |h| {
            assert r[i] == f[0];
          } else {
            assert fs[..n][..] == fs[..n];
            assert r[i] == h[i];
          }
        }
      }
      if forall i :: 0 <= i < |fs| ==> fs[i].1.None? {
        assert forall i :: 0 <= i < n ==> fs[..n][i].1.None?;
      } else {
        var i :| 0 <= i < |fs| && fs[i].1.Some?;
        if i < n {
          assert fs[..n][i].1.Some?;
        }
      }
    }
  }

  /** An attribute lookup in two attribute lists laid end to end finds it in the first when it is there. */
  lemma {:induction false} AttrAppend(a: seq<Attribute>, b: seq<Attribute>, ns: string, name: string)
    ensures Attr(a + b, ns, name) == if Attr(a, ns, name).Some? then Attr(a, ns, name) else Attr(b, ns, name)
    decreases |a|
  {
    if |a| == 0 {
      assert a + b == b;
    } else if !(a[0].ns == ns && a[0].name == name) {
      assert (a + b)[1..] == a[1..] + b;
      AttrAppend(a[1..], b, ns, name);
    }
  }
}
