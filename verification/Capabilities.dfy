/** Capability negotiation: a client's nested request against the server's nested support. */
module Capabilities {
  import opened Options
  import opened Sorting
  import opened Text

  /** A decoded JSON value; an object's fields stand in the order in which the runtime iterates them. */
  datatype Any = Bool(on: bool) | Object(fields: seq<Field>) | Null | Other

  datatype Field = Field(key: string, value: Any)

  // ---------------------------------------------------------------------------
  // Trees
  // ---------------------------------------------------------------------------

  /** Keys are distinct within each object, as in any map. */
  ghost predicate IsTree(v: Any) {
    v.Object? ==>
      && (forall i, j :: 0 <= i < j < |v.fields| ==> v.fields[i].key != v.fields[j].key)
      && (forall i :: 0 <= i < |v.fields| ==> IsTree(v.fields[i].value))
  }

  function Lookup(fields: seq<Field>, key: string): Option<Any> {
    if fields == [] then None
    else if fields[0].key == key then Some(fields[0].value)
    else Lookup(fields[1..], key)
  }

  /** The value at a path of keys. */
  function At(v: Any, path: seq<string>): Option<Any>
    decreases |path|
  {
    if path == [] then Some(v)
    else if !v.Object? || Lookup(v.fields, path[0]).None? then None
    else At(Lookup(v.fields, path[0]).value, path[1..])
  }

  predicate TrueAt(v: Any, path: seq<string>) {
    At(v, path) == Some(Bool(true))
  }

  lemma {:induction false} LookupFinds(fields: seq<Field>, i: nat)
    requires i < |fields| && forall j, k :: 0 <= j < k < |fields| ==> fields[j].key != fields[k].key
    ensures Lookup(fields, fields[i].key) == Some(fields[i].value)
  {
    if i > 0 { LookupFinds(fields[1..], i - 1); }
  }

  lemma {:induction false} LookupIsField(fields: seq<Field>, key: string) returns (i: nat)
    requires Lookup(fields, key).Some?
    ensures i < |fields| && fields[i] == Field(key, Lookup(fields, key).value)
  {
    if fields[0].key == key {
      i := 0;
    } else {
      i := LookupIsField(fields[1..], key);
      i := i + 1;
    }
  }

  // ---------------------------------------------------------------------------
  // Shape
  // ---------------------------------------------------------------------------

  datatype Shape = Fine | Bad(path: string, reason: string)

  function Named(prefix: string): string {
    if prefix == "" then "capabilities" else prefix
  }

  /** invalidCapabilityShape: the first offence in iteration order. */
  function ShapeOf(prefix: string, v: Any): Shape
    decreases v, 1
  {
    match v
    case Bool(_) => Fine
    case Object(fields) => FieldsShape(prefix, fields)
    case Null => Bad(Named(prefix), "null")
    case Other => Bad(Named(prefix), "type")
  }

  function FieldsShape(prefix: string, fields: seq<Field>): Shape
    decreases fields, 0
  {
    if fields == [] then Fine
    else if Trim(fields[0].key) == "" then Bad(Named(prefix), "empty key")
    else
      var r := ShapeOf((if prefix == "" then "capabilities." else prefix + ".") + Trim(fields[0].key), fields[0].value);
      if r.Bad? && r.path != "" then r else FieldsShape(prefix, fields[1..])
  }

  ghost predicate WellShaped(v: Any) {
    match v
    case Bool(_) => true
    case Object(fields) => forall i :: 0 <= i < |fields| ==> Trim(fields[i].key) != "" && WellShaped(fields[i].value)
    case Null => false
    case Other => false
  }

  lemma {:induction false} ShapeIffWellShaped(prefix: string, v: Any)
    ensures ShapeOf(prefix, v).Fine? <==> WellShaped(v)
    ensures ShapeOf(prefix, v).Bad? ==> ShapeOf(prefix, v).path != ""
    decreases v, 1
  {
    if v.Object? {
      FieldsShapeIff(prefix, v.fields);
    }
  }

  lemma {:induction false} FieldsShapeIff(prefix: string, fields: seq<Field>)
    ensures FieldsShape(prefix, fields).Fine? <==>
            forall i :: 0 <= i < |fields| ==> Trim(fields[i].key) != "" && WellShaped(fields[i].value)
    ensures FieldsShape(prefix, fields).Bad? ==> FieldsShape(prefix, fields).path != ""
    decreases fields, 0
  {
    if fields != [] && Trim(fields[0].key) != "" {
      var next := (if prefix == "" then "capabilities." else prefix + ".") + Trim(fields[0].key);
      ShapeIffWellShaped(next, fields[0].value);
      FieldsShapeIff(prefix, fields[1..]);
      assert forall i :: 0 < i < |fields| ==> fields[i] == fields[1..][i - 1];
    }
  }

  // ---------------------------------------------------------------------------
  // Required paths
  // ---------------------------------------------------------------------------

  function Below(prefix: string, key: string): string {
    if prefix == "" then Trim(key) else prefix + "." + Trim(key)
  }

  /** collectRequiredCapabilityPaths. */
  function Collect(prefix: string, v: Any): seq<string>
    decreases v, 1
  {
    match v
    case Bool(on) => if on && Trim(prefix) != "" then [prefix] else []
    case Object(fields) => CollectFields(prefix, fields)
    case Null => []
    case Other => []
  }

  function CollectFields(prefix: string, fields: seq<Field>): seq<string>
    decreases fields, 0
  {
    if fields == [] then [] else CollectField(prefix, fields[0]) + CollectFields(prefix, fields[1..])
  }

  function CollectField(prefix: string, field: Field): seq<string>
    decreases field, 0
  {
    if Trim(field.key) == "" then [] else Collect(Below(prefix, field.key), field.value)
  }

  /** The dotted name of a path under a prefix. */
  function Dotted(prefix: string, path: seq<string>): string
    decreases |path|
  {
    if path == [] then prefix else Dotted(Below(prefix, path[0]), path[1..])
  }

  ghost predicate NoBlankKey(path: seq<string>) {
    forall i :: 0 <= i < |path| ==> Trim(path[i]) != ""
  }

  lemma {:induction false} CollectFieldsIff(prefix: string, fields: seq<Field>, s: string)
    ensures s in CollectFields(prefix, fields) <==>
            exists i :: 0 <= i < |fields| && s in CollectField(prefix, fields[i])
  {
    if fields != [] {
      var rest := fields[1..];
      CollectFieldsIff(prefix, rest, s);
      if i :| 0 <= i < |rest| && s in CollectField(prefix, rest[i]) {
        assert fields[i + 1] == rest[i];
      }
      if i :| 0 < i < |fields| && s in CollectField(prefix, fields[i]) {
        assert rest[i - 1] == fields[i];
      }
    }
  }

  /** What is collected names a leaf requested true. */
  lemma {:induction false} CollectedIsRequested(prefix: string, v: Any, s: string) returns (path: seq<string>)
    requires IsTree(v) && s in Collect(prefix, v)
    ensures TrueAt(v, path) && NoBlankKey(path) && s == Dotted(prefix, path)
    decreases v
  {
    path := [];
    if v.Object? {
      CollectFieldsIff(prefix, v.fields, s);
      var i :| 0 <= i < |v.fields| && s in CollectField(prefix, v.fields[i]);
      var rest := CollectedIsRequested(Below(prefix, v.fields[i].key), v.fields[i].value, s);
      LookupFinds(v.fields, i);
      path := [v.fields[i].key] + rest;
      assert path[1..] == rest;
    }
  }

  /** Every leaf requested true is collected. */
  lemma {:induction false} RequestedIsCollected(prefix: string, v: Any, path: seq<string>)
    requires TrueAt(v, path) && NoBlankKey(path) && Trim(Dotted(prefix, path)) != ""
    ensures Dotted(prefix, path) in Collect(prefix, v)
    decreases |path|
  {
    if path != [] {
      var child := Lookup(v.fields, path[0]).value;
      var i := LookupIsField(v.fields, path[0]);
      RequestedIsCollected(Below(prefix, path[0]), child, path[1..]);
      CollectFieldsIff(prefix, v.fields, Dotted(prefix, path));
    }
  }

  // ---------------------------------------------------------------------------
  // Dotted names
  // ---------------------------------------------------------------------------

  /** strings.Split at every dot. */
  function Split(s: string): (r: seq<string>)
    ensures r != []
  {
    if s == "" then [""]
    else if s[0] == '.' then [""] + Split(s[1..])
    else [[s[0]] + Split(s[1..])[0]] + Split(s[1..])[1..]
  }

  predicate IsGoodKey(k: string) {
    k != "" && Trimmed(k) && '.' !in k
  }

  lemma {:induction false} SplitDotFree(k: string)
    requires '.' !in k
    ensures Split(k) == [k]
  {
    if k != "" {
      SplitDotFree(k[1..]);
      assert k == [k[0]] + k[1..];
    }
  }

  lemma {:induction false} SplitSnoc(p: string, k: string)
    requires '.' !in k
    ensures Split(p + "." + k) == Split(p) + [k]
  {
    var s := p + "." + k;
    if p == "" {
      assert s[1..] == k;
      SplitDotFree(k);
    } else {
      SplitSnoc(p[1..], k);
      assert s[1..] == p[1..] + "." + k;
    }
  }

  lemma {:induction false} SplitDotted(prefix: string, path: seq<string>)
    requires prefix != "" && forall i :: 0 <= i < |path| ==> IsGoodKey(path[i])
    ensures Split(Dotted(prefix, path)) == Split(prefix) + path
    decreases |path|
  {
    if path != [] {
      var key, rest, next := path[0], path[1..], Below(prefix, path[0]);
      assert IsGoodKey(key) && next == prefix + "." + key;
      SplitSnoc(prefix, key);
      SplitDotted(next, rest);
      AddFirst(Split(prefix), path);
    }
  }

  lemma AddFirst(before: seq<string>, path: seq<string>)
    requires path != []
    ensures before + [path[0]] + path[1..] == before + path
  {
  }

  lemma {:induction false} DottedExtends(prefix: string, path: seq<string>)
    requires prefix != ""
    ensures prefix <= Dotted(prefix, path)
    decreases |path|
  {
    if path != [] { DottedExtends(Below(prefix, path[0]), path[1..]); }
  }

  lemma {:induction false} StartsWithInk(s: string)
    requires s != "" && !IsSpace(s[0])
    ensures Trim(s) != ""
  {
    if IsSpace(s[|s| - 1]) { StartsWithInk(s[..|s| - 1]); }
  }

  /** A name made of good keys is not blank and splits into exactly those keys. */
  lemma NameOfGoodPath(path: seq<string>)
    requires path != [] && forall i :: 0 <= i < |path| ==> IsGoodKey(path[i])
    ensures Split(Dotted("", path)) == path && Trim(Dotted("", path)) != "" && NoBlankKey(path)
  {
    var k := path[0];
    SplitDotFree(k);
    SplitDotted(k, path[1..]);
    DottedExtends(k, path[1..]);
    assert [k] + path[1..] == path;
    StartsWithInk(Dotted(k, path[1..]));
  }

  /** All keys are trimmed, non-blank and free of dots. */
  ghost predicate GoodKeys(v: Any) {
    v.Object? ==> forall i :: 0 <= i < |v.fields| ==> IsGoodKey(v.fields[i].key) && GoodKeys(v.fields[i].value)
  }

  lemma {:induction false} PathOfGoodKeys(v: Any, path: seq<string>)
    requires GoodKeys(v) && At(v, path).Some?
    ensures forall i :: 0 <= i < |path| ==> IsGoodKey(path[i])
    decreases |path|
  {
    if path != [] {
      var i := LookupIsField(v.fields, path[0]);
      PathOfGoodKeys(v.fields[i].value, path[1..]);
      assert forall j :: 0 < j < |path| ==> path[j] == path[1..][j - 1];
    }
  }

  // ---------------------------------------------------------------------------
  // Negotiation
  // ---------------------------------------------------------------------------

  function Rejected(required: seq<string>, supported: Any): seq<string> {
    if required == [] then []
    else
      var before, path := Rejected(required[..|required| - 1], supported), required[|required| - 1];
      if TrueAt(supported, Split(path)) then before else before + [path]
  }

  /** unsupportedRequestedCapabilities. */
  function Unsupported(requested: Any, supported: Any): seq<string> {
    Rejected(Sort(Less, Collect("", requested)), supported)
  }

  ghost predicate Offends(requested: Any, supported: Any, path: seq<string>) {
    TrueAt(requested, path) && !TrueAt(supported, path)
  }

  lemma {:induction false} RejectedMembers(required: seq<string>, supported: Any)
    ensures forall s :: s in Rejected(required, supported) <==> s in required && !TrueAt(supported, Split(s))
  {
    if required != [] {
      var init, last := required[..|required| - 1], required[|required| - 1];
      assert required == init + [last];
      RejectedMembers(init, supported);
    }
  }

  lemma OrderedSnoc(s: seq<string>, x: string)
    requires Ordered(Less, s) && forall y :: y in s ==> !Less(x, y)
    ensures Ordered(Less, s + [x])
  {
  }

  lemma {:induction false} RejectedOrdered(required: seq<string>, supported: Any)
    requires Ordered(Less, required)
    ensures Ordered(Less, Rejected(required, supported))
  {
    if required != [] {
      var init, last := required[..|required| - 1], required[|required| - 1];
      RejectedOrdered(init, supported);
      forall s | s in Rejected(init, supported) ensures !Less(last, s) {
        RejectedMembers(init, supported);
        var i :| 0 <= i < |init| && init[i] == s;
        assert required[i] == s;
      }
      OrderedSnoc(Rejected(init, supported), last);
    }
  }

  lemma UnsupportedMembers(requested: Any, supported: Any)
    ensures Ordered(Less, Unsupported(requested, supported))
    ensures forall s :: s in Unsupported(requested, supported) <==>
            s in Collect("", requested) && !TrueAt(supported, Split(s))
  {
    var required := Collect("", requested);
    LessIsWeakOrder();
    SortSorts(Less, required);
    RejectedMembers(Sort(Less, required), supported);
    RejectedOrdered(Sort(Less, required), supported);
    assert forall s :: s in Sort(Less, required) <==> s in multiset(Sort(Less, required));
  }

  /** What is rejected is the dotted names of the offending leaves, and nothing else. */
  lemma UnsupportedIffOffends(requested: Any, supported: Any, s: string)
    requires requested.Object? && IsTree(requested) && GoodKeys(requested)
    ensures s in Unsupported(requested, supported) <==>
            exists path :: Offends(requested, supported, path) && s == Dotted("", path)
  {
    UnsupportedMembers(requested, supported);
    if s in Unsupported(requested, supported) {
      var path := CollectedIsRequested("", requested, s);
      PathOfGoodKeys(requested, path);
      NameOfGoodPath(path);
      assert Offends(requested, supported, path);
    }
    if path :| Offends(requested, supported, path) && s == Dotted("", path) {
      PathOfGoodKeys(requested, path);
      NameOfGoodPath(path);
      RequestedIsCollected("", requested, path);
    }
  }

  /** Negotiation succeeds exactly when the server supports every leaf requested true, at the same path. */
  lemma NegotiationIsExact(requested: Any, supported: Any)
    requires requested.Object? && IsTree(requested) && GoodKeys(requested)
    ensures Unsupported(requested, supported) == [] <==>
            forall path :: TrueAt(requested, path) ==> TrueAt(supported, path)
  {
    var rejected := Unsupported(requested, supported);
    if rejected == [] {
      forall path | TrueAt(requested, path) ensures TrueAt(supported, path) {
        UnsupportedIffOffends(requested, supported, Dotted("", path));
        assert !Offends(requested, supported, path);
      }
    } else {
      assert rejected[0] in rejected;
      UnsupportedIffOffends(requested, supported, rejected[0]);
    }
  }

  /** Requests with the same leaves are answered with the same path, the least offending name,
      in whatever order their maps are iterated. */
  lemma ReportedPathIsLeastOffender(requested: Any, other: Any, supported: Any)
    requires requested.Object? && IsTree(requested) && GoodKeys(requested)
    requires other.Object? && IsTree(other) && GoodKeys(other)
    requires forall path :: TrueAt(requested, path) <==> TrueAt(other, path)
    requires Unsupported(requested, supported) != []
    ensures var reported := Unsupported(requested, supported)[0];
            && (exists path :: Offends(requested, supported, path) && reported == Dotted("", path))
            && (forall path :: Offends(requested, supported, path) ==> !Less(Dotted("", path), reported))
            && Unsupported(other, supported) != [] && Unsupported(other, supported)[0] == reported
  {
    SameNames(requested, other, supported);
    var a, b := Unsupported(requested, supported), Unsupported(other, supported);
    assert a[0] in a && a[0] in b;
    UnsupportedIffOffends(requested, supported, a[0]);
    LeastIsFirst(requested, supported);
    LeastIsFirst(other, supported);
    assert b[0] in b && b[0] in a;
    LessTotal(a[0], b[0]);
    forall path | Offends(requested, supported, path) ensures !Less(Dotted("", path), a[0]) {
      UnsupportedIffOffends(requested, supported, Dotted("", path));
    }
  }

  lemma SameNames(requested: Any, other: Any, supported: Any)
    requires requested.Object? && IsTree(requested) && GoodKeys(requested)
    requires other.Object? && IsTree(other) && GoodKeys(other)
    requires forall path :: TrueAt(requested, path) <==> TrueAt(other, path)
    ensures forall s :: s in Unsupported(requested, supported) <==> s in Unsupported(other, supported)
  {
    forall s ensures s in Unsupported(requested, supported) <==> s in Unsupported(other, supported) {
      UnsupportedIffOffends(requested, supported, s);
      UnsupportedIffOffends(other, supported, s);
      forall path ensures Offends(requested, supported, path) <==> Offends(other, supported, path) { }
    }
  }

  lemma LeastIsFirst(requested: Any, supported: Any)
    ensures forall s :: s in Unsupported(requested, supported) ==> !Less(s, Unsupported(requested, supported)[0])
  {
    UnsupportedMembers(requested, supported);
    var rejected := Unsupported(requested, supported);
    forall s | s in rejected ensures !Less(s, rejected[0]) {
      var i :| 0 <= i < |rejected| && rejected[i] == s;
      LessTotal(s, s);
    }
  }

  /** For keys of any form: each requested leaf is looked up at the path that its dotted name splits into. */
  lemma NegotiationOfAnyKeys(requested: Any, supported: Any)
    requires requested.Object? && IsTree(requested)
    ensures Unsupported(requested, supported) == [] <==>
            forall path :: TrueAt(requested, path) && NoBlankKey(path) && Trim(Dotted("", path)) != "" ==>
              TrueAt(supported, Split(Dotted("", path)))
  {
    UnsupportedMembers(requested, supported);
    var rejected := Unsupported(requested, supported);
    if rejected == [] {
      forall path | TrueAt(requested, path) && NoBlankKey(path) && Trim(Dotted("", path)) != ""
        ensures TrueAt(supported, Split(Dotted("", path)))
      {
        RequestedIsCollected("", requested, path);
      }
    } else {
      var s := rejected[0];
      assert s in rejected;
      var path := CollectedIsRequested("", requested, s);
      CollectedIsInk("", requested, s);
    }
  }

  lemma {:induction false} CollectedIsInk(prefix: string, v: Any, s: string)
    requires s in Collect(prefix, v)
    ensures Trim(s) != ""
    decreases v
  {
    if v.Object? {
      CollectFieldsIff(prefix, v.fields, s);
      var i :| 0 <= i < |v.fields| && s in CollectField(prefix, v.fields[i]);
      CollectedIsInk(Below(prefix, v.fields[i].key), v.fields[i].value, s);
    }
  }

  /** A dot in a key is read as a step into an object, so such a request can pass without its leaf being there. */
  lemma DottedKeyIsReadAsPath()
    ensures var requested := Object([Field("a.b", Bool(true))]);
            var supported := Object([Field("a", Object([Field("b", Bool(true))]))]);
            Unsupported(requested, supported) == [] && TrueAt(requested, ["a.b"]) && !TrueAt(supported, ["a.b"])
  {
    var requested := Object([Field("a.b", Bool(true))]);
    var inner := Object([Field("b", Bool(true))]);
    var supported := Object([Field("a", inner)]);
    assert Trim("a.b") == "a.b";
    assert Collect("", requested) == ["a.b"] by {
      assert Collect("a.b", Bool(true)) == ["a.b"];
      assert requested.fields[1..] == [];
    }
    assert Sort(Less, ["a.b"]) == ["a.b"] by { assert ["a.b"][1..] == []; }
    SplitDotFree("a");
    SplitSnoc("a", "b");
    assert "a" + "." + "b" == "a.b" && ["a"] + ["b"] == ["a", "b"];
    assert TrueAt(supported, ["a", "b"]) by {
      assert ["a", "b"][1..] == ["b"] && ["b"][1..] == [];
      assert At(inner, ["b"]) == At(Bool(true), []);
      assert At(supported, ["a", "b"]) == At(inner, ["b"]);
    }
    assert ["a.b"][..0] == [];
    assert At(requested, ["a.b"]) == At(Bool(true), ["a.b"][1..]);
    assert Lookup(supported.fields, "a.b") == None by { assert "a.b"[1] == '.'; assert |"a.b"| != |"a"|; }
  }

  // ---------------------------------------------------------------------------
  // The checks as the handshake runs them
  // ---------------------------------------------------------------------------

  datatype Verdict = Accepted | InvalidShape(path: string) | CapabilityUnsupported(path: string)

  lemma CollectFieldsStep(prefix: string, fields: seq<Field>, i: nat)
    requires i < |fields|
    ensures CollectFields(prefix, fields[i..]) ==
            CollectField(prefix, fields[i]) + CollectFields(prefix, fields[i + 1..])
  {
    assert fields[i..][1..] == fields[i + 1..];
  }

  method CollectRequiredCapabilityPaths(prefix: string, value: Any, out: seq<string>) returns (paths: seq<string>)
    ensures paths == out + Collect(prefix, value)
    decreases value
  {
    paths := out;
    match value
    case Bool(on) => if on && Trim(prefix) != "" { paths := paths + [prefix]; }
    case Object(fields) =>
      for i := 0 to |fields|
        invariant paths + CollectFields(prefix, fields[i..]) == out + CollectFields(prefix, fields)
      {
        CollectFieldsStep(prefix, fields, i);
        if Trim(fields[i].key) != "" {
          paths := CollectRequiredCapabilityPaths(Below(prefix, fields[i].key), fields[i].value, paths);
        }
      }
    case Null =>
    case Other =>
  }

  method CapabilityAtPath(source: Any, path: seq<string>) returns (enabled: bool, known: bool)
    ensures known <==> path != [] && At(source, path).Some? && At(source, path).value.Bool?
    ensures enabled && known <==> path != [] && TrueAt(source, path)
  {
    if path == [] { return false, false; }
    var current := source;
    for i := 0 to |path|
      invariant At(source, path) == At(current, path[i..])
    {
      assert path[i..][1..] == path[i + 1..];
      if !current.Object? { return false, false; }
      var value := Lookup(current.fields, path[i]);
      if value.None? { return false, false; }
      current := value.value;
    }
    if current.Bool? { return current.on, true; }
    return false, false;
  }

  method UnsupportedRequestedCapabilities(requested: Any, supported: Any) returns (out: seq<string>)
    requires requested.Object?
    ensures out == Unsupported(requested, supported)
  {
    var collected := CollectRequiredCapabilityPaths("", requested, []);
    assert collected == Collect("", requested);
    var required := Sort(Less, collected);
    out := [];
    for i := 0 to |required|
      invariant out == Rejected(required[..i], supported)
    {
      assert required[..i + 1][..i] == required[..i];
      var ok, known := CapabilityAtPath(supported, Split(required[i]));
      if !(known && ok) { out := out + [required[i]]; }
    }
    assert required[..|required|] == required;
  }

  /** The capability part of the handshake's validation. */
  method ValidateCapabilities(requested: Any, supported: Any) returns (verdict: Verdict)
    requires requested.Object? && IsTree(requested)
    ensures verdict.InvalidShape? <==> !WellShaped(requested)
    ensures GoodKeys(requested) ==>
              (verdict.Accepted? <==>
                 WellShaped(requested) && forall path :: TrueAt(requested, path) ==> TrueAt(supported, path))
    ensures GoodKeys(requested) && verdict.CapabilityUnsupported? ==>
              && (exists path :: Offends(requested, supported, path) && verdict.path == Dotted("", path))
              && (forall path :: Offends(requested, supported, path) ==> !Less(Dotted("", path), verdict.path))
  {
    ShapeIffWellShaped("", requested);
    var shape := ShapeOf("", requested);
    if shape.Bad? { return InvalidShape(shape.path); }
    var rejected := UnsupportedRequestedCapabilities(requested, supported);
    if GoodKeys(requested) { NegotiationIsExact(requested, supported); }
    if rejected == [] { return Accepted; }
    if GoodKeys(requested) {
      ReportedPathIsLeastOffender(requested, requested, supported);
    }
    return CapabilityUnsupported(rejected[0]);
  }
}
