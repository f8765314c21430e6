/** The locale-file merge of the translation script: for each language the
    English file's tree of keys is first matched against the language's
    current file (`getKeysComparision`), and the gaps are then filled from a
    machine translation of the English file (`fillObject`). Reading and
    writing the files and the translation service are outside the model; the
    trees are their inputs. */
module Translate {

  /** A parsed translation file: objects of keyed entries, in key order, and
      strings; `Missing` is `undefined`, the value of an absent key. */
  datatype Tree = Obj(fields: seq<Field>) | Str(s: string) | Missing
  datatype Field = Field(key: string, value: Tree)

  /** JavaScript truthiness: objects, and strings other than "". */
  predicate Truthy(t: Tree) {
    t.Obj? || (t.Str? && t.s != "")
  }

  predicate HasKey(fields: seq<Field>, key: string) {
    exists k :: 0 <= k < |fields| && fields[k].key == key
  }

  /** The value under `key` among the entries, or `Missing`. */
  function FieldValue(fields: seq<Field>, key: string): Tree {
    if |fields| == 0 then Missing
    else if fields[0].key == key then fields[0].value
    else FieldValue(fields[1..], key)
  }

  /** `t[key]`: only an object has entries. */
  function Get(t: Tree, key: string): Tree {
    if t.Obj? then FieldValue(t.fields, key) else Missing
  }

  /** `t || {}`. */
  function OrEmpty(t: Tree): (r: Tree)
    ensures Truthy(t) ==> r == t
    ensures !Truthy(t) ==> r == Obj([])
  {
    if Truthy(t) then t else Obj([])
  }

  /** `getKeysComparision(obj, other)`: obj's keys, in obj's order; under a
      nested object the comparison with other's entry (or `{}`), under a leaf
      other's entry, which may be `undefined`. */
  function Comparison(obj: Tree, other: Tree): (r: Tree)
    requires obj.Obj?
    ensures r.Obj? && |r.fields| == |obj.fields|
    ensures forall k :: 0 <= k < |obj.fields| ==> r.fields[k].key == obj.fields[k].key
    decreases obj
  {
    Obj(seq(|obj.fields|, k requires 0 <= k < |obj.fields| =>
      var f := obj.fields[k];
      Field(f.key,
        if f.value.Obj? then Comparison(f.value, OrEmpty(Get(other, f.key)))
        else Get(other, f.key))))
  }

  /** `fillObject(obj, other)`: obj's keys, in obj's order; under a nested
      object the fill with other's entry (or `{}`), under a leaf obj's value
      when it is truthy and other's entry otherwise. */
  function Filled(obj: Tree, other: Tree): (r: Tree)
    requires obj.Obj?
    ensures r.Obj? && |r.fields| == |obj.fields|
    ensures forall k :: 0 <= k < |obj.fields| ==> r.fields[k].key == obj.fields[k].key
    decreases obj
  {
    Obj(seq(|obj.fields|, k requires 0 <= k < |obj.fields| =>
      var f := obj.fields[k];
      Field(f.key,
        if f.value.Obj? then Filled(f.value, OrEmpty(Get(other, f.key)))
        else if Truthy(f.value) then f.value
        else Get(other, f.key))))
  }

  /** The script's result for one language: the English file compared with the
      current file, then filled from the machine translation. */
  function Merged(english: Tree, current: Tree, machine: Tree): Tree
    requires english.Obj?
  {
    Filled(Comparison(english, current), machine)
  }

  // ---------------------------------------------------------------------------
  // The loops

  /** The comparison: a fresh record per level, filled in a loop over the
      entries, recursing into nested objects (`obj[key] || {}` is `obj[key]`
      there, since an object is truthy). */
  method GetKeysComparison(obj: Tree, otherObj: Tree) returns (response: Tree)
    requires obj.Obj?
    ensures response == Comparison(obj, otherObj)
    decreases obj
  {
    var fields: seq<Field> := [];
    for k := 0 to |obj.fields|
      invariant |fields| == k
      invariant forall j :: 0 <= j < k ==> fields[j] == Comparison(obj, otherObj).fields[j]
    {
      var f := obj.fields[k];
      var value: Tree;
      if f.value.Obj? {
        value := GetKeysComparison(f.value, OrEmpty(Get(otherObj, f.key)));
      } else {
        value := Get(otherObj, f.key);
      }
      fields := fields + [Field(f.key, value)];
    }
    response := Obj(fields);
  }

  /** The fill, in the same form. */
  method FillObject(obj: Tree, otherObj: Tree) returns (response: Tree)
    requires obj.Obj?
    ensures response == Filled(obj, otherObj)
    decreases obj
  {
    var fields: seq<Field> := [];
    for k := 0 to |obj.fields|
      invariant |fields| == k
      invariant forall j :: 0 <= j < k ==> fields[j] == Filled(obj, otherObj).fields[j]
    {
      var f := obj.fields[k];
      var value: Tree;
      if f.value.Obj? {
        value := FillObject(f.value, OrEmpty(Get(otherObj, f.key)));
      } else if Truthy(f.value) {
        value := f.value;
      } else {
        value := Get(otherObj, f.key);
      }
      fields := fields + [Field(f.key, value)];
    }
    response := Obj(fields);
  }

  // ---------------------------------------------------------------------------
  // Shape

  /** `t` has `model`'s keys at every object of `model`, in the same order. */
  predicate Shaped(model: Tree, t: Tree)
    decreases model
  {
    model.Obj? ==>
      && t.Obj? && |t.fields| == |model.fields|
      && forall k :: 0 <= k < |model.fields| ==>
           t.fields[k].key == model.fields[k].key && Shaped(model.fields[k].value, t.fields[k].value)
  }

  lemma {:induction false} ComparisonShaped(obj: Tree, other: Tree)
    requires obj.Obj?
    ensures Shaped(obj, Comparison(obj, other))
    decreases obj
  {
    var r := Comparison(obj, other);
    forall k | 0 <= k < |obj.fields|
      ensures Shaped(obj.fields[k].value, r.fields[k].value)
    {
      var f := obj.fields[k];
      if f.value.Obj? {
        ComparisonShaped(f.value, OrEmpty(Get(other, f.key)));
      }
    }
  }

  lemma {:induction false} FilledShaped(obj: Tree, other: Tree)
    requires obj.Obj?
    ensures Shaped(obj, Filled(obj, other))
    decreases obj
  {
    var r := Filled(obj, other);
    forall k | 0 <= k < |obj.fields|
      ensures Shaped(obj.fields[k].value, r.fields[k].value)
    {
      var f := obj.fields[k];
      if f.value.Obj? {
        FilledShaped(f.value, OrEmpty(Get(other, f.key)));
      }
    }
  }

  lemma {:induction false} ShapedTransitive(a: Tree, b: Tree, c: Tree)
    requires Shaped(a, b) && Shaped(b, c)
    ensures Shaped(a, c)
    decreases a
  {
    if a.Obj? {
      forall k | 0 <= k < |a.fields|
        ensures Shaped(a.fields[k].value, c.fields[k].value)
      {
        ShapedTransitive(a.fields[k].value, b.fields[k].value, c.fields[k].value);
      }
    }
  }

  /** At every object of the English file the language's file has exactly
      that object's keys, in the English order. Under an English string the
      file may still hold an object: see MergedKeepsCurrentObject. */
  lemma MergedHasEnglishShape(english: Tree, current: Tree, machine: Tree)
    requires english.Obj?
    ensures Shaped(english, Merged(english, current, machine))
  {
    var c := Comparison(english, current);
    ComparisonShaped(english, current);
    FilledShaped(c, machine);
    ShapedTransitive(english, c, Merged(english, current, machine));
  }

  // ---------------------------------------------------------------------------
  // Values along a path of keys

  /** The value reached by following `path` with `Get`. */
  function At(t: Tree, path: seq<string>): Tree
    decreases |path|
  {
    if |path| == 0 then t else At(Get(t, path[0]), path[1..])
  }

  /** `path` leads through objects of `t`, by keys they have, to a value that
      is not an object: a string of the file, or an `undefined` entry. */
  predicate Leaf(t: Tree, path: seq<string>)
    decreases |path|
  {
    && |path| > 0 && t.Obj? && HasKey(t.fields, path[0])
    && (if |path| == 1 then !Get(t, path[0]).Obj? else Leaf(Get(t, path[0]), path[1..]))
  }

  /** In two entry lists with the same keys, a key present in them is found at
      the same index in both. */
  lemma {:induction false} LookupIndex(fs: seq<Field>, gs: seq<Field>, key: string) returns (i: nat)
    requires |fs| == |gs| && forall k :: 0 <= k < |fs| ==> fs[k].key == gs[k].key
    requires HasKey(fs, key)
    ensures i < |fs| && fs[i].key == key
    ensures FieldValue(fs, key) == fs[i].value && FieldValue(gs, key) == gs[i].value
  {
    if fs[0].key == key {
      i := 0;
    } else {
      var k :| 0 <= k < |fs| && fs[k].key == key;
      assert fs[1..][k - 1].key == key;
      var j := LookupIndex(fs[1..], gs[1..], key);
      i := j + 1;
    }
  }

  /** Looking through an `|| {}` changes nothing. */
  lemma AtOrEmpty(t: Tree, path: seq<string>)
    requires |path| > 0
    ensures At(OrEmpty(t), path) == At(t, path)
  {
    assert Get(OrEmpty(t), path[0]) == Get(t, path[0]);
  }

  /** At a leaf of obj the comparison holds other's value there. */
  lemma {:induction false} ComparisonAt(obj: Tree, other: Tree, path: seq<string>)
    requires obj.Obj? && Leaf(obj, path)
    ensures At(Comparison(obj, other), path) == At(other, path)
    ensures !At(other, path).Obj? ==> Leaf(Comparison(obj, other), path)
    decreases |path|
  {
    var c := Comparison(obj, other);
    var key := path[0];
    var i := LookupIndex(obj.fields, c.fields, key);
    var v := obj.fields[i].value;
    assert HasKey(c.fields, key) by {
      assert c.fields[i].key == key;
    }
    if |path| == 1 {
      assert Get(c, key) == Get(other, key);
    } else {
      var sub := OrEmpty(Get(other, key));
      assert Get(c, key) == Comparison(v, sub);
      ComparisonAt(v, sub, path[1..]);
      AtOrEmpty(Get(other, key), path[1..]);
    }
  }

  /** At a leaf of obj the fill keeps obj's value when it is truthy and takes
      other's value otherwise. */
  lemma {:induction false} FilledAt(obj: Tree, other: Tree, path: seq<string>)
    requires obj.Obj? && Leaf(obj, path)
    ensures At(Filled(obj, other), path) == if Truthy(At(obj, path)) then At(obj, path) else At(other, path)
    decreases |path|
  {
    var r := Filled(obj, other);
    var key := path[0];
    var i := LookupIndex(obj.fields, r.fields, key);
    var v := obj.fields[i].value;
    if |path| > 1 {
      var sub := OrEmpty(Get(other, key));
      assert Get(r, key) == Filled(v, sub);
      FilledAt(v, sub, path[1..]);
      AtOrEmpty(Get(other, key), path[1..]);
    }
  }

  /** For every string of the English file, the language's file keeps its
      current translation when that is a non-empty string, and otherwise takes
      the machine translation. (Where the current file has an object in place
      of the English string, the fill recurses into it instead.) */
  lemma MergedAt(english: Tree, current: Tree, machine: Tree, path: seq<string>)
    requires english.Obj? && Leaf(english, path)
    requires !At(current, path).Obj?
    ensures At(Merged(english, current, machine), path)
         == if Truthy(At(current, path)) then At(current, path) else At(machine, path)
  {
    ComparisonAt(english, current, path);
    FilledAt(Comparison(english, current), machine, path);
  }

  /** `path` leads through objects of `t`, by keys they have. */
  predicate Through(t: Tree, path: seq<string>)
    decreases |path|
  {
    && |path| > 0 && t.Obj? && HasKey(t.fields, path[0])
    && (|path| == 1 || Through(Get(t, path[0]), path[1..]))
  }

  /** A path to a leaf of obj leads through the comparison's objects too. */
  lemma {:induction false} ComparisonThrough(obj: Tree, other: Tree, path: seq<string>)
    requires obj.Obj? && Leaf(obj, path)
    ensures Through(Comparison(obj, other), path)
    decreases |path|
  {
    var c := Comparison(obj, other);
    var key := path[0];
    var i := LookupIndex(obj.fields, c.fields, key);
    assert HasKey(c.fields, key) by {
      assert c.fields[i].key == key;
    }
    if |path| > 1 {
      var v := obj.fields[i].value;
      var sub := OrEmpty(Get(other, key));
      assert Get(c, key) == Comparison(v, sub);
      ComparisonThrough(v, sub, path[1..]);
    }
  }

  /** Where obj holds an object, the fill holds the fill of that object with
      other's value there (or `{}`). */
  lemma {:induction false} FilledAtObject(obj: Tree, other: Tree, path: seq<string>)
    requires Through(obj, path) && At(obj, path).Obj?
    ensures At(Filled(obj, other), path) == Filled(At(obj, path), OrEmpty(At(other, path)))
    decreases |path|
  {
    var r := Filled(obj, other);
    var key := path[0];
    var i := LookupIndex(obj.fields, r.fields, key);
    var v := obj.fields[i].value;
    var sub := OrEmpty(Get(other, key));
    if |path| == 1 {
      assert Get(r, key) == Filled(v, sub);
    } else {
      assert v.Obj?;
      assert Get(r, key) == Filled(v, sub);
      FilledAtObject(v, sub, path[1..]);
      AtOrEmpty(Get(other, key), path[1..]);
    }
  }

  /** Where the English file has a string and the current file an object, the
      comparison copies the current object and the fill recurses into it: the
      language's file keeps that object's keys, which the English file does
      not have, filled from the machine translation. */
  lemma MergedKeepsCurrentObject(english: Tree, current: Tree, machine: Tree, path: seq<string>)
    requires english.Obj? && Leaf(english, path)
    requires At(current, path).Obj?
    ensures At(Merged(english, current, machine), path)
         == Filled(At(current, path), OrEmpty(At(machine, path)))
  {
    var c := Comparison(english, current);
    ComparisonAt(english, current, path);
    ComparisonThrough(english, current, path);
    FilledAtObject(c, machine, path);
  }

  /** For instance `{a: "x"}` merged with a current `{a: {b: "y"}}` writes
      `{a: {b: "y"}}`: key `a.b` is not in the English file. */
  lemma MergedKeepsCurrentObjectExample()
    ensures Merged(Obj([Field("a", Str("x"))]), Obj([Field("a", Obj([Field("b", Str("y"))]))]), Obj([]))
         == Obj([Field("a", Obj([Field("b", Str("y"))]))])
  {
    var english := Obj([Field("a", Str("x"))]);
    var inner := Obj([Field("b", Str("y"))]);
    var current := Obj([Field("a", inner)]);
    assert english.fields[0].key == "a";
    assert Get(english, "a") == Str("x");
    assert Leaf(english, ["a"]);
    assert Get(current, "a") == inner;
    assert At(current, ["a"]) == inner;
    MergedKeepsCurrentObject(english, current, Obj([]), ["a"]);
    assert At(Obj([]), ["a"]) == Missing;
    var f := Filled(inner, Obj([]));
    assert f.fields[0] == Field("b", Str("y"));
    assert f == inner;
    var m := Merged(english, current, Obj([]));
    assert m.fields[0].key == "a";
    assert Get(m, "a") == At(m, ["a"]) == f;
    assert m.fields[0].value == Get(m, "a");
  }

  // ---------------------------------------------------------------------------
  // A file against itself

  /** Keys are distinct at every level, as in any JavaScript object. */
  predicate WellFormed(t: Tree)
    decreases t
  {
    t.Obj? ==>
      && (forall i, j :: 0 <= i < j < |t.fields| ==> t.fields[i].key != t.fields[j].key)
      && forall k :: 0 <= k < |t.fields| ==> WellFormed(t.fields[k].value)
  }

  lemma {:induction false} FieldValueDistinct(fs: seq<Field>, k: nat)
    requires k < |fs|
    requires forall i, j :: 0 <= i < j < |fs| ==> fs[i].key != fs[j].key
    ensures FieldValue(fs, fs[k].key) == fs[k].value
  {
    if k > 0 {
      assert fs[0].key != fs[k].key;
      assert fs[1..][k - 1] == fs[k];
      FieldValueDistinct(fs[1..], k - 1);
    }
  }

  /** Comparing a file with itself gives it back. */
  lemma {:induction false} ComparisonWithItself(o: Tree)
    requires o.Obj? && WellFormed(o)
    ensures Comparison(o, o) == o
    decreases o
  {
    var r := Comparison(o, o);
    forall k | 0 <= k < |o.fields|
      ensures r.fields[k] == o.fields[k]
    {
      var f := o.fields[k];
      FieldValueDistinct(o.fields, k);
      if f.value.Obj? {
        ComparisonWithItself(f.value);
      }
    }
    assert r.fields == o.fields;
  }

  /** Filling a file from itself gives it back. */
  lemma {:induction false} FilledWithItself(o: Tree)
    requires o.Obj? && WellFormed(o)
    ensures Filled(o, o) == o
    decreases o
  {
    var r := Filled(o, o);
    forall k | 0 <= k < |o.fields|
      ensures r.fields[k] == o.fields[k]
    {
      var f := o.fields[k];
      FieldValueDistinct(o.fields, k);
      if f.value.Obj? {
        FilledWithItself(f.value);
      }
    }
    assert r.fields == o.fields;
  }
}
