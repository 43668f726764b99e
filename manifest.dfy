/**
 * The manifest patch of the scaffolder: `package.json` is parsed, its `name`
 * property is assigned, and the value is pretty-printed back with a trailing
 * newline. `JSON.parse` and `JSON.stringify` belong to the JavaScript runtime;
 * they are inputs of the model (a `Codec`), and only the property assignment
 * in between is modelled in detail.
 */
module Manifest {
  import opened Wrappers

  /** A JSON value as `JSON.parse` builds it; an object keeps its members in property order. */
  datatype Json =
    | Null
    | Boolean(b: bool)
    | Number(literal: string)
    | Str(s: string)
    | Arr(items: seq<Json>)
    | Obj(members: seq<Member>)

  datatype Member = Member(key: string, value: Json)

  /** The property names of an object, in order. */
  function Keys(ms: seq<Member>): (ks: seq<string>)
    ensures |ks| == |ms|
    ensures forall i :: 0 <= i < |ms| ==> ks[i] == ms[i].key
  {
    if ms == [] then [] else [ms[0].key] + Keys(ms[1..])
  }

  /** No two members share a name, as in every object `JSON.parse` builds. */
  predicate DistinctKeys(ms: seq<Member>)
  {
    forall i, j :: 0 <= i < j < |ms| ==> ms[i].key != ms[j].key
  }

  /** The property read `o[key]`: the value of the member with that name, if any. */
  function Get(ms: seq<Member>, key: string): (r: Option<Json>)
    ensures r.Some? <==> key in Keys(ms)
    ensures r.Some? ==> Member(key, r.value) in ms
  {
    if ms == [] then None
    else if ms[0].key == key then Some(ms[0].value)
    else Get(ms[1..], key)
  }

  /**
   * The property write `o[key] = v` on an ordinary object: a member that has
   * the name keeps its place and takes the new value; otherwise a new member
   * goes last. Every other member keeps its value and its place.
   */
  function SetProperty(ms: seq<Member>, key: string, v: Json): (r: seq<Member>)
    ensures |r| == if key in Keys(ms) then |ms| else |ms| + 1
    ensures key in Keys(ms) ==> Keys(r) == Keys(ms)
    ensures key !in Keys(ms) ==> r == ms + [Member(key, v)]
    ensures forall i :: 0 <= i < |ms| && ms[i].key != key ==> r[i] == ms[i]
  {
    if ms == [] then [Member(key, v)]
    else if ms[0].key == key then [Member(key, v)] + ms[1..]
    else
      var rest := SetProperty(ms[1..], key, v);
      assert Keys(ms) == [ms[0].key] + Keys(ms[1..]);
      assert Keys([ms[0]] + rest) == [ms[0].key] + Keys(rest);
      [ms[0]] + rest
  }

  /** After `o[key] = v`, reading `key` gives `v` and reading any other name gives what it gave before. */
  lemma {:induction false} GetAfterSetProperty(ms: seq<Member>, key: string, v: Json)
    ensures Get(SetProperty(ms, key, v), key) == Some(v)
    ensures forall k :: k != key ==> Get(SetProperty(ms, key, v), k) == Get(ms, k)
  {
    if ms != [] && ms[0].key != key {
      GetAfterSetProperty(ms[1..], key, v);
      assert ([ms[0]] + SetProperty(ms[1..], key, v))[1..] == SetProperty(ms[1..], key, v);
    }
  }

  /** Setting a property of an object with distinct member names leaves the names distinct. */
  lemma SetPropertyKeepsKeysDistinct(ms: seq<Member>, key: string, v: Json)
    requires DistinctKeys(ms)
    ensures DistinctKeys(SetProperty(ms, key, v))
  {
  }

  /**
   * Each member after `o[key] = v` is the member that was at its place, or the
   * new member, either in place of the first member named `key` or appended.
   */
  lemma {:induction false} SetPropertyMembers(ms: seq<Member>, key: string, v: Json)
    ensures var r := SetProperty(ms, key, v);
            forall i :: 0 <= i < |r| ==>
              (i < |ms| && r[i] == ms[i]) || (r[i] == Member(key, v) && (i == |ms| || ms[i].key == key))
  {
    if ms != [] && ms[0].key != key {
      SetPropertyMembers(ms[1..], key, v);
      var rest := SetProperty(ms[1..], key, v);
      assert SetProperty(ms, key, v) == [ms[0]] + rest;
      forall i | 1 <= i < 1 + |rest|
        ensures (i < |ms| && ([ms[0]] + rest)[i] == ms[i])
             || (([ms[0]] + rest)[i] == Member(key, v) && (i == |ms| || ms[i].key == key))
      {
        assert ([ms[0]] + rest)[i] == rest[i - 1];
        assert i - 1 < |ms[1..]| ==> ms[1..][i - 1] == ms[i];
      }
    }
  }

  /** `"name"` is not an array index, so setting it keeps an object in enumeration order. */
  lemma NameIsNotArrayIndex()
    ensures !IsArrayIndex("name")
  {
    assert !('0' <= "name"[0] <= '9');
  }

  /** Setting `name` to a string on a value `JSON.parse` can return gives a value it can return. */
  lemma SetNameKeepsCanonical(ms: seq<Member>, name: string, c: Codec)
    requires Canonical(Obj(ms), c)
    ensures Canonical(Obj(SetProperty(ms, "name", Str(name))), c)
  {
    var r := SetProperty(ms, "name", Str(name));
    SetPropertyKeepsKeysDistinct(ms, "name", Str(name));
    SetPropertyMembers(ms, "name", Str(name));
    NameIsNotArrayIndex();
    forall i, j | 0 <= i < j < |r| && IsArrayIndex(r[j].key)
      ensures IsArrayIndex(r[i].key) && DigitsValue(r[i].key) < DigitsValue(r[j].key)
    {
      assert j < |ms| && r[j] == ms[j];
      assert r[i] == ms[i];
    }
    forall i | 0 <= i < |r| ensures Canonical(r[i].value, c) {
      if i < |ms| && r[i] == ms[i] {
        assert Canonical(ms[i].value, c);
      }
    }
  }

  /** Why `pkg.name = ...` throws: in strict-mode code, setting a property on `null` or on a primitive is a TypeError. */
  datatype AssignError = CannotSetOnNull | CannotCreateOnPrimitive(target: Json)

  /**
   * `pkg.name = name`, seen through `JSON.stringify`. On an object the member
   * is set. On an array the assignment succeeds but adds a property that
   * `JSON.stringify` does not write, so the array comes back unchanged. On
   * `null`, a string, a number or a boolean it throws.
   */
  function AssignName(pkg: Json, name: string): (r: Result<Json, AssignError>)
    ensures r.Ok? <==> pkg.Obj? || pkg.Arr?
    ensures pkg.Obj? ==> r.Ok? && r.value.Obj? && Get(r.value.members, "name") == Some(Str(name))
    ensures pkg.Obj? ==> forall k :: k != "name" ==> Get(r.value.members, k) == Get(pkg.members, k)
    ensures pkg.Arr? ==> r == Ok(pkg)
  {
    match pkg
    case Obj(ms) =>
      GetAfterSetProperty(ms, "name", Str(name));
      Ok(Obj(SetProperty(ms, "name", Str(name))))
    case Arr(_) => Ok(pkg)
    case Null => Err(CannotSetOnNull)
    case _ => Err(CannotCreateOnPrimitive(pkg))
  }

  /** `JSON.parse` (`None` for a SyntaxError) and `JSON.stringify(_, null, 2)`. */
  datatype Codec = Codec(parse: string -> Option<Json>, stringify: Json -> string)

  /** `s` is a non-empty run of decimal digits. */
  predicate IsDigits(s: string)
  {
    |s| > 0 && forall i :: 0 <= i < |s| ==> '0' <= s[i] <= '9'
  }

  /** The number a run of decimal digits denotes. */
  function DigitsValue(s: string): (n: nat)
    requires IsDigits(s)
    decreases |s|
  {
    var last := (s[|s| - 1] as int) - ('0' as int);
    if |s| == 1 then last else 10 * DigitsValue(s[..|s| - 1]) + last
  }

  /** A property name that is an array index: the decimal text, without leading zeros, of an integer below 2^32 - 1. */
  predicate IsArrayIndex(k: string)
  {
    IsDigits(k) && (k[0] != '0' || |k| == 1) && DigitsValue(k) < 0xFFFF_FFFF
  }

  /**
   * The order in which a JavaScript object enumerates its own properties, and
   * so the order `JSON.parse` leaves them in: array indices first, ascending,
   * then every other name in the order it was created.
   */
  predicate EnumerationOrder(ms: seq<Member>)
  {
    forall i, j :: 0 <= i < j < |ms| && IsArrayIndex(ms[j].key) ==>
      IsArrayIndex(ms[i].key) && DigitsValue(ms[i].key) < DigitsValue(ms[j].key)
  }

  /**
   * A value as `JSON.parse` can return it: every object has distinct member
   * names in enumeration order, and every number is held as the text that
   * `JSON.stringify` prints for it, the text that parses back to itself
   * (`1.0` and `-0` are read as `1` and `0`).
   */
  ghost predicate Canonical(j: Json, c: Codec)
  {
    match j
    case Number(lit) => c.parse(lit) == Some(j)
    case Arr(items) => forall i :: 0 <= i < |items| ==> Canonical(items[i], c)
    case Obj(ms) =>
      && DistinctKeys(ms)
      && EnumerationOrder(ms)
      && forall i :: 0 <= i < |ms| ==> Canonical(ms[i].value, c)
    case _ => true
  }

  /** Reading back what was pretty-printed, with its trailing newline, gives the same value, for every value `JSON.parse` can return. */
  ghost predicate RoundTrips(c: Codec)
  {
    forall j :: Canonical(j, c) ==> c.parse(c.stringify(j) + "\n") == Some(j)
  }

  datatype PatchError = Unparsable | NotAssignable(reason: AssignError)

  /** The text written back to `package.json` in place of `text`, or why none is. */
  function PatchManifest(text: string, name: string, c: Codec): (r: Result<string, PatchError>)
    ensures r.Ok? ==> |r.value| > 0 && r.value[|r.value| - 1] == '\n'
    ensures r == Err(Unparsable) <==> c.parse(text).None?
    ensures r.Err? && r != Err(Unparsable) <==>
              c.parse(text).Some? && !c.parse(text).value.Obj? && !c.parse(text).value.Arr?
  {
    match c.parse(text)
    case None => Err(Unparsable)
    case Some(pkg) =>
      match AssignName(pkg, name)
      case Err(e) => Err(NotAssignable(e))
      case Ok(patched) => Ok(c.stringify(patched) + "\n")
  }

  /**
   * With a codec that reads back what it prints, the patched manifest of an
   * object that `JSON.parse` can return reads back as that object with `name`
   * set: every other member keeps its value and place, and a missing `name` is
   * added last.
   */
  lemma PatchedManifestReadsBack(text: string, name: string, c: Codec, ms: seq<Member>)
    requires RoundTrips(c)
    requires c.parse(text) == Some(Obj(ms)) && Canonical(Obj(ms), c)
    ensures PatchManifest(text, name, c).Ok?
    ensures c.parse(PatchManifest(text, name, c).value) == Some(Obj(SetProperty(ms, "name", Str(name))))
  {
    SetNameKeepsCanonical(ms, name, c);
  }

  /** A sample patch: `{"name":"template","version":"1.0.0"}` patched for `my-app`. */
  lemma TemplateScenario()
    ensures SetProperty([Member("name", Str("template")), Member("version", Str("1.0.0"))], "name", Str("my-app"))
         == [Member("name", Str("my-app")), Member("version", Str("1.0.0"))]
  {
  }

  /** The sample manifest is a value `JSON.parse` can return. */
  lemma TemplateManifestCanonical(c: Codec)
    ensures Canonical(Obj([Member("name", Str("template")), Member("version", Str("1.0.0"))]), c)
  {
    NameIsNotArrayIndex();
    assert !('0' <= "version"[0] <= '9');
  }
}
