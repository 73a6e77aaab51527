/** JSON-like values as the configuration middleware sees them: the tree that
    `workspace.getConfiguration` returns, with objects as ordered lists of own properties. */
module Json {
  import opened Common

  datatype Json =
    | Undefined
    | Null
    | Bool(b: bool)
    | Num(n: int)
    | Str(s: string)
    | Arr(items: seq<Json>)
    | Obj(members: seq<Member>)

  /** One own property of an object, in insertion order. */
  datatype Member = Member(key: string, value: Json)

  /** No two properties of one object share a key. */
  predicate UniqueKeys(ms: seq<Member>) {
    forall i, j :: 0 <= i < j < |ms| ==> ms[i].key != ms[j].key
  }

  /** Every object in the tree has unique keys, as every JavaScript object does. */
  predicate WellFormed(v: Json)
    decreases v
  {
    match v
    case Arr(items) => forall i :: 0 <= i < |items| ==> WellFormed(items[i])
    case Obj(ms) => UniqueKeys(ms) && forall i :: 0 <= i < |ms| ==> WellFormed(ms[i].value)
    case _ => true
  }

  /** The values a JavaScript program can actually hold. */
  type JsonValue = v: Json | WellFormed(v) witness Undefined

  /** JavaScript truthiness: `false`, `0`, `""`, `null` and `undefined` are falsy. */
  predicate Truthy(v: Json) {
    match v
    case Undefined => false
    case Null => false
    case Bool(b) => b
    case Num(n) => n != 0
    case Str(s) => s != ""
    case _ => true
  }

  /** `key` is one of the keys of `ms`. */
  predicate HasKey(ms: seq<Member>, key: string) {
    exists i :: 0 <= i < |ms| && ms[i].key == key
  }

  /** `ms[i]` is the first property with key `key`. */
  predicate FirstWithKey(ms: seq<Member>, key: string, i: int) {
    0 <= i < |ms| && ms[i].key == key && forall j :: 0 <= j < i ==> ms[j].key != key
  }

  /** The value of property `key`, if the object has one: that of the first property with
      this key. */
  function Lookup(ms: seq<Member>, key: string): (r: Option<Json>)
    ensures r.Some? <==> HasKey(ms, key)
    ensures r.Some? ==> exists i :: FirstWithKey(ms, key, i) && ms[i].value == r.value
    decreases |ms|
  {
    if ms == [] then None
    else if ms[0].key == key then
      assert FirstWithKey(ms, key, 0);
      Some(ms[0].value)
    else
      var r := Lookup(ms[1..], key);
      assert HasKey(ms, key) <==> HasKey(ms[1..], key) by {
        if HasKey(ms, key) {
          var i :| 0 <= i < |ms| && ms[i].key == key;
          assert ms[1..][i - 1].key == key;
        }
        if HasKey(ms[1..], key) {
          var i :| 0 <= i < |ms[1..]| && ms[1..][i].key == key;
          assert ms[i + 1].key == key;
        }
      }
      assert r.Some? ==> exists i :: FirstWithKey(ms, key, i) && ms[i].value == r.value by {
        if r.Some? {
          var i :| FirstWithKey(ms[1..], key, i) && ms[1..][i].value == r.value;
          assert ms[i + 1] == ms[1..][i];
          forall j | 0 <= j < i + 1 ensures ms[j].key != key {
            if j > 0 {
              assert ms[j] == ms[1..][j - 1];
            }
          }
          assert FirstWithKey(ms, key, i + 1);
        }
      }
      r
  }

  /** `obj[key] = value` on the properties of an object: an existing property keeps its
      place, a new one is appended. */
  function SetMember(ms: seq<Member>, key: string, value: Json): (r: seq<Member>)
    ensures Lookup(r, key) == Some(value)
    ensures forall k :: k != key ==> Lookup(r, k) == Lookup(ms, k)
    decreases |ms|
  {
    if ms == [] then [Member(key, value)]
    else if ms[0].key == key then [Member(key, value)] + ms[1..]
    else
      var rest := SetMember(ms[1..], key, value);
      assert ([ms[0]] + rest)[1..] == rest;
      [ms[0]] + rest
  }

  /** A property that is new goes to the end of the object. */
  lemma {:induction false} SetMemberAppends(ms: seq<Member>, key: string, value: Json)
    requires !HasKey(ms, key)
    ensures SetMember(ms, key, value) == ms + [Member(key, value)]
    decreases |ms|
  {
    if ms != [] {
      assert ms[0].key != key;
      SetMemberAppends(ms[1..], key, value);
      assert [ms[0]] + (ms[1..] + [Member(key, value)]) == ms + [Member(key, value)];
    }
  }

  /** Every property of the result is the one set or one that was already there. */
  lemma {:induction false} SetMemberMembers(ms: seq<Member>, key: string, value: Json)
    ensures forall m :: m in SetMember(ms, key, value) ==> m == Member(key, value) || m in ms
    decreases |ms|
  {
    if ms != [] && ms[0].key != key {
      SetMemberMembers(ms[1..], key, value);
      var rest := SetMember(ms[1..], key, value);
      forall m | m in [ms[0]] + rest ensures m == Member(key, value) || m in ms {
        if m != ms[0] {
          assert m in rest;
        }
      }
    }
  }

  /** Setting a property never duplicates a key. */
  lemma {:induction false} SetMemberUnique(ms: seq<Member>, key: string, value: Json)
    requires UniqueKeys(ms)
    ensures UniqueKeys(SetMember(ms, key, value))
    decreases |ms|
  {
    if ms != [] && ms[0].key != key {
      var rest := SetMember(ms[1..], key, value);
      assert UniqueKeys(ms[1..]);
      SetMemberUnique(ms[1..], key, value);
      SetMemberMembers(ms[1..], key, value);
      forall j | 0 <= j < |rest| ensures rest[j].key != ms[0].key {
        assert rest[j] in rest;
        if rest[j] != Member(key, value) {
          var k :| 0 <= k < |ms[1..]| && ms[1..][k] == rest[j];
          assert ms[k + 1] == rest[j];
        }
      }
      UniqueCons(ms[0], rest);
    }
  }

  /** A property whose key the rest lacks can go in front. */
  lemma UniqueCons(m: Member, rest: seq<Member>)
    requires UniqueKeys(rest) && forall j :: 0 <= j < |rest| ==> rest[j].key != m.key
    ensures UniqueKeys([m] + rest)
  {
    var r := [m] + rest;
    forall i, j | 0 <= i < j < |r| ensures r[i].key != r[j].key {
      assert r[j] == rest[j - 1];
      if i > 0 {
        assert r[i] == rest[i - 1];
      }
    }
  }

  /** `obj[key]` read through an object; anything else has no properties here. */
  function Get(v: Json, key: string): Option<Json> {
    if v.Obj? then Lookup(v.members, key) else None
  }

  /** `obj[section][key]`, or `None` when either level is missing. */
  function Get2(v: Json, section: string, key: string): Option<Json> {
    match Get(v, section)
    case Some(inner) => Get(inner, key)
    case None => None
  }

  /** `obj[section]` is an object. */
  predicate ObjectAt(v: Json, section: string) {
    Get(v, section).Some? && Get(v, section).value.Obj?
  }

  /** `obj[section]` takes a property assignment without a `TypeError`: an object, or an
      array (which keeps the named property only as an extra that JSON drops). */
  predicate AssignableAt(v: Json, section: string) {
    Get(v, section).Some? && (Get(v, section).value.Obj? || Get(v, section).value.Arr?)
  }

  /** `obj[section][key] = value`: a `TypeError` unless `obj` is an object and `obj[section]`
      an object or an array; into an object, only that one property changes; into an
      array, the named property is not part of the JSON value, which stays as it was. */
  function SetIn(v: Json, section: string, key: string, value: Json): (r: Result<Json>)
    ensures r.Success? <==> v.Obj? && AssignableAt(v, section)
    ensures r.Success? ==> r.value.Obj?
    ensures r.Success? && ObjectAt(v, section) ==> Get2(r.value, section, key) == Some(value)
    ensures r.Success? && !ObjectAt(v, section) ==> r.value == v
    ensures r.Success? ==> forall k :: k != key ==> Get2(r.value, section, k) == Get2(v, section, k)
    ensures r.Success? ==> forall s :: s != section ==> Get(r.value, s) == Get(v, s)
  {
    if v.Obj? then
      match Lookup(v.members, section)
      case Some(Obj(inner)) => Success(Obj(SetMember(v.members, section, Obj(SetMember(inner, key, value)))))
      case Some(Arr(_)) => Success(v)
      case _ => Failure("TypeError: Cannot set properties of " + section)
    else
      Failure("TypeError: Cannot set properties of " + section)
  }

  /** What `SetIn` leaves in any one section, and whether it could write. */
  lemma SetInGet(v: Json, section: string, key: string, value: Json, sec: string)
    ensures SetIn(v, section, key, value).Success? <==> v.Obj? && AssignableAt(v, section)
    ensures SetIn(v, section, key, value).Success? && sec != section ==>
            Get(SetIn(v, section, key, value).value, sec) == Get(v, sec)
    ensures SetIn(v, section, key, value).Success? ==>
            var r := SetIn(v, section, key, value).value;
            r.Obj? && AssignableAt(r, section) && (ObjectAt(r, sec) <==> ObjectAt(v, sec))
  {
  }

  /** What `SetIn` leaves at any one place of the tree. */
  lemma SetInGet2(v: Json, section: string, key: string, value: Json, sec: string, k: string)
    requires SetIn(v, section, key, value).Success?
    ensures Get2(SetIn(v, section, key, value).value, sec, k) ==
            if sec == section && k == key && ObjectAt(v, section) then Some(value) else Get2(v, sec, k)
  {
  }

  /** Setting a well-formed value keeps the tree well formed. */
  lemma {:induction false} SetInWellFormed(v: Json, section: string, key: string, value: Json)
    requires WellFormed(v) && WellFormed(value)
    requires SetIn(v, section, key, value).Success?
    ensures WellFormed(SetIn(v, section, key, value).value)
  {
    var ms := v.members;
    var inner := Lookup(ms, section).value;
    if inner.Arr? {
      return;
    }
    LookupWellFormed(ms, section);
    var inner' := SetMember(inner.members, key, value);
    SetMemberWellFormed(inner.members, key, value);
    SetMemberWellFormed(ms, section, Obj(inner'));
  }

  /** Property values of a well-formed object are well formed. */
  lemma {:induction false} LookupWellFormed(ms: seq<Member>, key: string)
    requires forall i :: 0 <= i < |ms| ==> WellFormed(ms[i].value)
    ensures Lookup(ms, key).Some? ==> WellFormed(Lookup(ms, key).value)
    decreases |ms|
  {
    if ms != [] && ms[0].key != key {
      LookupWellFormed(ms[1..], key);
    }
  }

  /** `SetMember` keeps the properties well formed. */
  lemma {:induction false} SetMemberWellFormed(ms: seq<Member>, key: string, value: Json)
    requires UniqueKeys(ms) && forall i :: 0 <= i < |ms| ==> WellFormed(ms[i].value)
    requires WellFormed(value)
    ensures WellFormed(Obj(SetMember(ms, key, value)))
  {
    var r := SetMember(ms, key, value);
    SetMemberMembers(ms, key, value);
    SetMemberUnique(ms, key, value);
    forall i | 0 <= i < |r| ensures WellFormed(r[i].value) {
      assert r[i] in r;
      if r[i] != Member(key, value) {
        var j :| 0 <= j < |ms| && ms[j] == r[i];
      }
    }
  }
}
