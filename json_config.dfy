/**
 * The JSON configuration store: a string-keyed map whose values are JSON
 * values. `Get` decodes an entry into a typed target the way the JSON
 * round trip of modules/config/json does; the decoders below say which
 * JSON values each target type accepts.
 */
module JsonConf {
  import opened Wrappers

  /** A JSON value; numbers are integral in this model. */
  datatype Json =
    | JNull
    | JBool(b: bool)
    | JNum(n: int)
    | JStr(s: string)
    | JArr(items: seq<Json>)
    | JObj(fields: map<string, Json>)

  // Decoding a JSON value into a typed target. Decoding `null` succeeds and
  // leaves the target at its `prior` value; a value of the wrong kind fails.

  function DecodeBool(j: Json, prior: bool): (r: Option<bool>)
    ensures r.Some? <==> (j.JBool? || j.JNull?)
    ensures j.JBool? ==> r == Some(j.b)
  {
    match j
    case JBool(b) => Some(b)
    case JNull => Some(prior)
    case _ => None
  }

  function DecodeInt(j: Json, prior: int): (r: Option<int>)
    ensures r.Some? <==> (j.JNum? || j.JNull?)
    ensures j.JNum? ==> r == Some(j.n)
  {
    match j
    case JNum(n) => Some(n)
    case JNull => Some(prior)
    case _ => None
  }

  function DecodeString(j: Json, prior: string): (r: Option<string>)
    ensures r.Some? <==> (j.JStr? || j.JNull?)
    ensures j.JStr? ==> r == Some(j.s)
  {
    match j
    case JStr(s) => Some(s)
    case JNull => Some(prior)
    case _ => None
  }

  /** The strings of an array whose every item is a string. */
  function Strings(items: seq<Json>): (r: Option<seq<string>>)
    ensures r.Some? <==> forall i :: 0 <= i < |items| ==> items[i].JStr?
    ensures r.Some? ==> |r.value| == |items| && forall i :: 0 <= i < |items| ==> r.value[i] == items[i].s
  {
    if |items| == 0 then Some([])
    else if !items[0].JStr? then None
    else match Strings(items[1..])
      case None => None
      case Some(rest) => Some([items[0].s] + rest)
  }

  /**
   * Decoding into a []string target: an array of strings replaces it, and
   * null sets it to the nil slice, which reads as empty.
   */
  function DecodeStrings(j: Json, prior: seq<string>): (r: Option<seq<string>>)
    ensures j.JNull? ==> r == Some([])
    ensures !j.JNull? && !j.JArr? ==> r.None?
  {
    match j
    case JArr(items) => Strings(items)
    case JNull => Some([])
    case _ => None
  }

  /**
   * Decoding into a map[string]int target: an object of numbers is merged
   * into it, and null sets it to the nil map, which reads as empty (and
   * panics when written).
   */
  function DecodeIntMap(j: Json, prior: map<string, int>): (r: Option<map<string, int>>)
    ensures r.Some? <==> j.JNull? || (j.JObj? && forall k :: k in j.fields ==> j.fields[k].JNum?)
    ensures j.JNull? ==> r == Some(map[])
    ensures j.JObj? && r.Some? ==>
      r.value.Keys == prior.Keys + j.fields.Keys &&
      forall k :: k in r.value ==> r.value[k] == if k in j.fields then j.fields[k].n else prior[k]
  {
    match j
    case JNull => Some(map[])
    case JObj(fields) =>
      if forall k :: k in fields ==> fields[k].JNum?
      then Some(prior + map k | k in fields :: fields[k].n)
      else None
    case _ => None
  }

  /**
   * Decoding into a map[string]string target: an object of strings is
   * merged into it, and null sets it to the nil map, which reads as empty.
   */
  function DecodeStringMap(j: Json, prior: map<string, string>): (r: Option<map<string, string>>)
    ensures r.Some? <==> j.JNull? || (j.JObj? && forall k :: k in j.fields ==> j.fields[k].JStr?)
    ensures j.JNull? ==> r == Some(map[])
    ensures j.JObj? && r.Some? ==>
      r.value.Keys == prior.Keys + j.fields.Keys &&
      forall k :: k in r.value ==> r.value[k] == if k in j.fields then j.fields[k].s else prior[k]
  {
    match j
    case JNull => Some(map[])
    case JObj(fields) =>
      if forall k :: k in fields ==> fields[k].JStr?
      then Some(prior + map k | k in fields :: fields[k].s)
      else None
    case _ => None
  }

  /** The entry under `key`, if any. */
  function Lookup(entries: map<string, Json>, key: string): (r: Option<Json>)
    ensures r.Some? <==> key in entries
    ensures r.Some? ==> r.value == entries[key]
  {
    if key in entries then Some(entries[key]) else None
  }

  /**
   * `IsSet` of the source: false when the key is absent, the boolean when it
   * holds one; `None` stands for the failing type assertion (a panic) when the
   * key holds something that is not a boolean.
   */
  function IsSetIn(entries: map<string, Json>, key: string): (r: Option<bool>)
    ensures r == Some(true) <==> key in entries && entries[key] == JBool(true)
    ensures r == Some(false) <==> key !in entries || entries[key] == JBool(false)
    ensures r.None? <==> key in entries && !entries[key].JBool?
  {
    if key !in entries then Some(false)
    else if entries[key].JBool? then Some(entries[key].b)
    else None
  }

  /**
   * `Get` into a string variable holding `prior`: false when the key is
   * absent or does not decode as a string; `null` leaves `prior`.
   */
  function GetString(entries: map<string, Json>, key: string, prior: string): (r: Option<string>)
    ensures r.Some? <==> key in entries && (entries[key].JStr? || entries[key].JNull?)
    ensures r.Some? && entries[key].JStr? ==> r.value == entries[key].s
    ensures r.Some? && entries[key].JNull? ==> r.value == prior
  {
    match Lookup(entries, key)
    case None => None
    case Some(j) => DecodeString(j, prior)
  }

  /** `Get` into an int variable holding `prior`, in the same way. */
  function GetInt(entries: map<string, Json>, key: string, prior: int): (r: Option<int>)
    ensures r.Some? <==> key in entries && (entries[key].JNum? || entries[key].JNull?)
    ensures r.Some? && entries[key].JNum? ==> r.value == entries[key].n
    ensures r.Some? && entries[key].JNull? ==> r.value == prior
  {
    match Lookup(entries, key)
    case None => None
    case Some(j) => DecodeInt(j, prior)
  }

  /** A configuration object whose entries are updated in place. */
  class Config {
    var entries: map<string, Json>

    /** DefaultConfig: an empty configuration. */
    constructor ()
      ensures entries == map[]
    {
      entries := map[];
    }

    /** FromFile: a configuration holding the entries read back from its file. */
    constructor FromFile(entries: map<string, Json>)
      ensures this.entries == entries
    {
      this.entries := entries;
    }

    /** Set overwrites the entry under `key`; other entries are kept. */
    method Set(key: string, val: Json)
      modifies this
      ensures entries == old(entries)[key := val]
    {
      entries := entries[key := val];
    }

    /** Set each entry of `m` in turn; the keys are distinct, so their order does not matter. */
    method SetAll(m: map<string, Json>)
      modifies this
      ensures entries == old(entries) + m
    {
      var todo := m.Keys;
      while todo != {}
        invariant todo <= m.Keys
        invariant entries == old(entries) + map k | k in m && k !in todo :: m[k]
        decreases todo
      {
        var k :| k in todo;
        Set(k, m[k]);
        todo := todo - {k};
      }
      assert (map k | k in m && k !in todo :: m[k]) == m;
    }

    function Exists(key: string): (r: bool)
      reads this
      ensures r <==> key in entries
    {
      key in entries
    }

    function Get(key: string): (r: Option<Json>)
      reads this
      ensures r == Lookup(entries, key)
    {
      Lookup(entries, key)
    }

    function IsSet(key: string): (r: Option<bool>)
      reads this
      ensures r == IsSetIn(entries, key)
    {
      IsSetIn(entries, key)
    }
  }

  /** After Set(k, v), Get(k) yields v and every other key is unaffected. */
  lemma GetAfterSet(entries: map<string, Json>, k: string, v: Json, other: string)
    ensures Lookup(entries[k := v], k) == Some(v)
    ensures other != k ==> Lookup(entries[k := v], other) == Lookup(entries, other)
  {
  }

  /** A string list survives encoding as a JSON array and decoding back. */
  lemma {:induction false} StringsRoundTrip(s: seq<string>, prior: seq<string>)
    ensures DecodeStrings(JArr(seq(|s|, i requires 0 <= i < |s| => JStr(s[i]))), prior) == Some(s)
  {
    var items := seq(|s|, i requires 0 <= i < |s| => JStr(s[i]));
    var r := Strings(items);
    assert r.Some?;
    assert r.value == s;
  }
}
