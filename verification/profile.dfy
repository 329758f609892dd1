/**
 The scalar part of a user account and the allow-listed partial update.

 A PATCH request carries a JSON object. Its keys must all be among the seven
 updatable field names; when they are, each key's field is assigned the
 object's value for that key, one key after the other.
 */
module Profiles {
  import opened Outcomes

  /** A JSON value as it arrives in a request body. `Undefined` is what reading
      a key of a JavaScript object yields when the key is neither one of the
      object's own entries nor a property the object inherits from
      `Object.prototype`. */
  datatype Value =
    | Undefined
    | Null
    | Bool(b: bool)
    | Num(n: int)
    | Str(s: string)
    | Arr(items: seq<Value>)
    | Obj(entries: seq<(string, Value)>)

  /** No key occurs in two entries. */
  predicate DistinctKeys(entries: seq<(string, Value)>)
  {
    forall i, j :: 0 <= i < j < |entries| ==> entries[i].0 != entries[j].0
  }

  /** A parsed JSON object: its entries in key order, each key once. (Parsing
      text that repeats a key keeps only the last occurrence, so a parsed
      request body never has a key twice.) */
  type JsonObject = entries: seq<(string, Value)> | DistinctKeys(entries)

  /** `Object.keys(body)`: the keys of the object, in order, each once. */
  function Keys(body: JsonObject): (ks: seq<string>)
    ensures |ks| == |body|
    ensures forall i :: 0 <= i < |body| ==> ks[i] == body[i].0
    ensures forall i, j :: 0 <= i < j < |ks| ==> ks[i] != ks[j]
  {
    seq(|body|, i requires 0 <= i < |body| => body[i].0)
  }

  /** `body[k]` for an own key `k` of the body, or for a key that is not an
      `Object.prototype` property either (every allow-listed key is one): the
      value stored under `k`, or `Undefined` when there is none. Inherited
      properties are not modelled. */
  function Lookup(body: JsonObject, k: string): (v: Value)
    ensures forall i :: 0 <= i < |body| && body[i].0 == k ==> v == body[i].1
    ensures k in Keys(body) ==> (k, v) in body
    ensures k !in Keys(body) ==> v == Undefined
  {
    if body == [] then Undefined
    else if body[0].0 == k then
      assert Keys(body)[0] == k;
      body[0].1
    else
      assert Keys(body) == [body[0].0] + Keys(body[1..]);
      Lookup(body[1..], k)
  }

  /** The fields a PATCH request may change. */
  datatype Field = Name | Email | Password | Age | Dob | Mobile | Gender

  /** The allow-list, spelled as the request keys spell the fields. */
  const AllowedUpdates: seq<string> := ["name", "email", "password", "age", "dob", "mobile", "gender"]

  /** The request key that names field `f`. */
  function FieldName(f: Field): (k: string)
    ensures k in AllowedUpdates
  {
    match f
    case Name => "name"
    case Email => "email"
    case Password => "password"
    case Age => "age"
    case Dob => "dob"
    case Mobile => "mobile"
    case Gender => "gender"
  }

  /** The field a request key names, if the key is on the allow-list. */
  function FieldOf(k: string): (r: Option<Field>)
    ensures r.Some? <==> k in AllowedUpdates
    ensures r.Some? ==> FieldName(r.value) == k
  {
    if k == "name" then Some(Name)
    else if k == "email" then Some(Email)
    else if k == "password" then Some(Password)
    else if k == "age" then Some(Age)
    else if k == "dob" then Some(Dob)
    else if k == "mobile" then Some(Mobile)
    else if k == "gender" then Some(Gender)
    else None
  }

  /** Each field has its own key, and reading that key back gives the field. */
  lemma FieldNameRoundTrip(f: Field, g: Field)
    ensures FieldOf(FieldName(f)) == Some(f)
    ensures FieldName(f) == FieldName(g) ==> f == g
  {
  }

  /** `updates.every(u => allowedUpdates.includes(u))`: stops at the first key
      that is not on the allow-list. */
  function AllAllowed(updates: seq<string>): (ok: bool)
    ensures ok <==> forall i :: 0 <= i < |updates| ==> updates[i] in AllowedUpdates
  {
    if updates == [] then true
    else if updates[0] !in AllowedUpdates then false
    else AllAllowed(updates[1..])
  }

  /** A single key off the allow-list rejects the whole update, wherever it stands. */
  lemma ForeignKeyRejects(updates: seq<string>, k: string)
    requires k in updates && k !in AllowedUpdates
    ensures !AllAllowed(updates)
  {
  }

  /** The seven updatable fields of a user. */
  datatype Profile = Profile(
    name: Value, email: Value, password: Value,
    age: Value, dob: Value, mobile: Value, gender: Value)

  /** The value of field `f`. */
  function Get(p: Profile, f: Field): Value
  {
    match f
    case Name => p.name
    case Email => p.email
    case Password => p.password
    case Age => p.age
    case Dob => p.dob
    case Mobile => p.mobile
    case Gender => p.gender
  }

  /** `user[f] = v` on the profile: field `f` becomes `v`, every other field stays. */
  function Set(p: Profile, f: Field, v: Value): (r: Profile)
    ensures Get(r, f) == v
    ensures forall g :: g != f ==> Get(r, g) == Get(p, g)
  {
    match f
    case Name => p.(name := v)
    case Email => p.(email := v)
    case Password => p.(password := v)
    case Age => p.(age := v)
    case Dob => p.(dob := v)
    case Mobile => p.(mobile := v)
    case Gender => p.(gender := v)
  }

  /** Two profiles that agree on every field are the same profile. */
  lemma ProfileExtensionality(p: Profile, q: Profile)
    requires forall f :: Get(p, f) == Get(q, f)
    ensures p == q
  {
    assert Get(p, Name) == Get(q, Name) && Get(p, Email) == Get(q, Email);
    assert Get(p, Password) == Get(q, Password) && Get(p, Age) == Get(q, Age);
    assert Get(p, Dob) == Get(q, Dob) && Get(p, Mobile) == Get(q, Mobile);
    assert Get(p, Gender) == Get(q, Gender);
  }

  /** `updates.forEach(u => user[u] = body[u])` on the profile, for keys that
      passed the gate: the assignments of `updates` in order, the last one
      outermost. */
  function ApplyKeys(p: Profile, updates: seq<string>, body: JsonObject): (r: Profile)
    requires AllAllowed(updates)
    ensures forall f :: FieldName(f) !in updates ==> Get(r, f) == Get(p, f)
    decreases |updates|
  {
    if updates == [] then p
    else
      var k := updates[|updates| - 1];
      Set(ApplyKeys(p, updates[..|updates| - 1], body), FieldOf(k).value, Lookup(body, k))
  }

  /** After an allowed update, a field the request names holds the body's value
      for its key, and every field the request does not name is unchanged. */
  lemma {:induction false} ApplyKeysGet(p: Profile, updates: seq<string>, body: JsonObject, f: Field)
    requires AllAllowed(updates)
    ensures Get(ApplyKeys(p, updates, body), f)
              == if FieldName(f) in updates then Lookup(body, FieldName(f)) else Get(p, f)
  {
    if updates != [] {
      var n := |updates| - 1;
      var k := updates[n];
      assert updates == updates[..n] + [k];
      ApplyKeysGet(p, updates[..n], body, f);
      if FieldName(f) != k {
        assert FieldOf(k).value != f;
      }
    }
  }

  /** An update whose every key came from the request body itself: each field
      the body names takes the body's value and the rest are unchanged. */
  lemma PatchSemantics(p: Profile, body: JsonObject)
    requires AllAllowed(Keys(body))
    ensures forall f :: Get(ApplyKeys(p, Keys(body), body), f)
                          == if FieldName(f) in Keys(body) then Lookup(body, FieldName(f)) else Get(p, f)
    ensures forall f :: FieldName(f) in Keys(body) ==> (FieldName(f), Get(ApplyKeys(p, Keys(body), body), f)) in body
  {
    forall f ensures Get(ApplyKeys(p, Keys(body), body), f)
                       == if FieldName(f) in Keys(body) then Lookup(body, FieldName(f)) else Get(p, f) {
      ApplyKeysGet(p, Keys(body), body, f);
    }
  }

  /** An empty body passes the gate and changes nothing. */
  lemma EmptyPatchIsIdentity(p: Profile, body: JsonObject)
    requires body == []
    ensures AllAllowed(Keys(body)) && ApplyKeys(p, Keys(body), body) == p
  {
  }

  /** A body naming every field replaces the whole profile with the body's values. */
  lemma {:induction false} ApplyKeysAllFields(p: Profile, q: Profile, updates: seq<string>, body: JsonObject)
    requires AllAllowed(updates)
    requires forall f :: FieldName(f) in updates
    requires forall f :: Lookup(body, FieldName(f)) == Get(q, f)
    ensures ApplyKeys(p, updates, body) == q
  {
    forall f ensures Get(ApplyKeys(p, updates, body), f) == Get(q, f) {
      ApplyKeysGet(p, updates, body, f);
    }
    ProfileExtensionality(ApplyKeys(p, updates, body), q);
  }
}
