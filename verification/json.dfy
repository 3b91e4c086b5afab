/** JSON values as the signalling protocol carries them, shared by the mediator
    (JavaScript's JSON.parse / JSON.stringify) and the Android clients (Gson's
    JsonElement). Numbers are integers: floating point is not part of this model. */
module Json {

  datatype Option<+T> = None | Some(value: T)

  datatype Result<+T, +E> = Success(value: T) | Failure(error: E)

  datatype Json =
    | JNull
    | JBool(b: bool)
    | JNum(n: int)
    | JStr(s: string)
    | JArr(items: seq<Json>)
    | JObj(fields: seq<(string, Json)>)

  /** An incoming text frame as a JSON parser sees it: empty (or white space only),
      not JSON at all, or one JSON document. */
  datatype Text = Blank | Garbage | Doc(value: Json)

  /** Property lookup on an object's members. When a key is repeated, the last
      occurrence wins, as in both JSON.parse and Gson's JsonObject. */
  function Get(fields: seq<(string, Json)>, key: string): (r: Option<Json>)
    ensures r.None? <==> forall i :: 0 <= i < |fields| ==> fields[i].0 != key
    ensures r.Some? ==> exists i :: 0 <= i < |fields| && fields[i] == (key, r.value)
                                    && forall j :: i < j < |fields| ==> fields[j].0 != key
  {
    if |fields| == 0 then None
    else if fields[|fields| - 1].0 == key then Some(fields[|fields| - 1].1)
    else Get(fields[..|fields| - 1], key)
  }

  /** A member of a value that is an object; nothing for any other value. */
  function Field(j: Json, key: string): (r: Option<Json>)
    ensures !j.JObj? ==> r.None?
  {
    if j.JObj? then Get(j.fields, key) else None
  }

  predicate DistinctKeys(fields: seq<(string, Json)>)
  {
    forall i, j :: 0 <= i < j < |fields| ==> fields[i].0 != fields[j].0
  }

  /** In an object whose keys are distinct, every member is found by its key. */
  lemma GetDistinct(fields: seq<(string, Json)>, i: int)
    requires DistinctKeys(fields) && 0 <= i < |fields|
    ensures Get(fields, fields[i].0) == Some(fields[i].1)
  {
    var r := Get(fields, fields[i].0);
    var i' :| 0 <= i' < |fields| && fields[i'] == (fields[i].0, r.value);
    assert i' == i;
  }

  function DigitChar(d: int): char
    requires 0 <= d < 10
  {
    "0123456789"[d]
  }

  /** Decimal digits of a natural number, most significant first. */
  function NatToString(n: nat): (r: string)
    ensures 1 <= |r|
    ensures forall i :: 0 <= i < |r| ==> '0' <= r[i] <= '9'
    decreases n
  {
    if n < 10 then [DigitChar(n)] else NatToString(n / 10) + [DigitChar(n % 10)]
  }

  /** Decimal text of an integer, with a leading '-' for a negative one. */
  function IntToString(i: int): (r: string)
    ensures 1 <= |r|
    ensures r[0] == '-' <==> i < 0
  {
    if i < 0 then "-" + NatToString(-i) else NatToString(i)
  }

  /** Joins texts with a separator between neighbours. */
  function Join(parts: seq<string>, sep: string): (r: string)
    ensures |parts| == 0 ==> r == ""
    ensures |parts| == 1 ==> r == parts[0]
  {
    if |parts| == 0 then ""
    else if |parts| == 1 then parts[0]
    else parts[0] + sep + Join(parts[1..], sep)
  }

  /** String body escaping: a quote and a backslash are preceded by a backslash.
      Control characters and \u escapes are not part of this model. */
  function Escape(s: string): (r: string)
    ensures |s| <= |r|
    ensures (forall i :: 0 <= i < |s| ==> s[i] != '"' && s[i] != '\\') ==> r == s
  {
    if |s| == 0 then ""
    else (if s[0] == '"' || s[0] == '\\' then ['\\', s[0]] else [s[0]]) + Escape(s[1..])
  }

  /** Reads an escaped string body back: a backslash keeps the character after it. */
  function Unescape(t: string): (r: string)
    ensures |r| <= |t|
  {
    if |t| == 0 then ""
    else if t[0] == '\\' && |t| >= 2 then [t[1]] + Unescape(t[2..])
    else [t[0]] + Unescape(t[1..])
  }

  lemma {:induction false} EscapeRoundTrip(s: string)
    ensures Unescape(Escape(s)) == s
  {
    if |s| > 0 {
      var rest := Escape(s[1..]);
      EscapeRoundTrip(s[1..]);
      if s[0] == '"' || s[0] == '\\' {
        var t := ['\\', s[0]] + rest;
        assert t[2..] == rest;
        assert Unescape(t) == [s[0]] + Unescape(rest);
      } else {
        var t := [s[0]] + rest;
        assert t[1..] == rest;
        assert Unescape(t) == [s[0]] + Unescape(rest);
      }
      assert s == [s[0]] + s[1..];
    }
  }

  function Quote(s: string): (r: string)
    ensures |r| == |Escape(s)| + 2 && r[0] == '"' && r[|r| - 1] == '"'
  {
    "\"" + Escape(s) + "\""
  }

  /** The keys of an object in the order they first occur, each once. */
  function Keys(fields: seq<(string, Json)>): (r: seq<string>)
    ensures forall k :: k in r <==> exists i :: 0 <= i < |fields| && fields[i].0 == k
    ensures forall i, j :: 0 <= i < j < |r| ==> r[i] != r[j]
    ensures |r| <= |fields|
  {
    if |fields| == 0 then []
    else
      var init := fields[..|fields| - 1];
      var r := Keys(init);
      assert forall i :: 0 <= i < |init| ==> init[i] == fields[i];
      if fields[|fields| - 1].0 in r then r else r + [fields[|fields| - 1].0]
  }

  /** The members an object keeps when a key repeats: JSON.parse and Gson's
      JsonObject both hold one member per key, at the key's first position and
      with its last value. */
  function Members(fields: seq<(string, Json)>): (r: seq<(string, Json)>)
    ensures DistinctKeys(r)
    ensures forall i :: 0 <= i < |r| ==> r[i] in fields
    ensures forall i :: 0 <= i < |r| ==> Get(fields, r[i].0) == Some(r[i].1)
    ensures |r| <= |fields|
  {
    var ks := Keys(fields);
    KeysFound(fields);
    seq(|ks|, i requires 0 <= i < |ks| => (ks[i], Get(fields, ks[i]).value))
  }

  lemma KeysFound(fields: seq<(string, Json)>)
    ensures forall k :: k in Keys(fields) ==> Get(fields, k).Some?
  {
    forall k | k in Keys(fields) ensures Get(fields, k).Some? {
      var i :| 0 <= i < |fields| && fields[i].0 == k;
    }
  }

  /** Keeping one member per key changes no lookup. */
  lemma MembersLookup(fields: seq<(string, Json)>, key: string)
    ensures Get(Members(fields), key) == Get(fields, key)
  {
    var m := Members(fields);
    var ks := Keys(fields);
    assert |m| == |ks| && forall i :: 0 <= i < |m| ==> m[i].0 == ks[i];
    if key in ks {
      var i :| 0 <= i < |ks| && ks[i] == key;
      GetDistinct(m, i);
    } else {
      assert forall i :: 0 <= i < |m| ==> m[i].0 != key;
    }
  }

  /** An object whose keys are already distinct keeps all of its members, in order. */
  lemma {:induction false} MembersDistinct(fields: seq<(string, Json)>)
    requires DistinctKeys(fields)
    ensures Members(fields) == fields
  {
    KeysDistinct(fields);
    forall i | 0 <= i < |fields| ensures Members(fields)[i] == fields[i] {
      GetDistinct(fields, i);
    }
  }

  lemma {:induction false} KeysDistinct(fields: seq<(string, Json)>)
    requires DistinctKeys(fields)
    ensures Keys(fields) == seq(|fields|, i requires 0 <= i < |fields| => fields[i].0)
  {
    if |fields| > 0 {
      var init := fields[..|fields| - 1];
      assert DistinctKeys(init);
      KeysDistinct(init);
      assert forall i :: 0 <= i < |init| ==> init[i] == fields[i];
      assert fields[|fields| - 1].0 !in Keys(init);
    }
  }

  /** Compact JSON text of a value, without white space: the shape both
      JSON.stringify and Gson's JsonElement.toString produce. */
  function Serialize(j: Json): (r: string)
    ensures 1 <= |r|
    ensures j.JStr? <==> r[0] == '"'
    ensures j.JObj? <==> r[0] == '{'
    ensures j.JArr? <==> r[0] == '['
  {
    match j
    case JNull => "null"
    case JBool(b) => if b then "true" else "false"
    case JNum(n) => IntToString(n)
    case JStr(s) => Quote(s)
    case JArr(items) =>
      "[" + Join(seq(|items|, i requires 0 <= i < |items| => Serialize(items[i])), ",") + "]"
    case JObj(fields) =>
      var members := Members(fields);
      "{" + Join(seq(|members|, i requires 0 <= i < |members| =>
                       Quote(members[i].0) + ":" + Serialize(members[i].1)), ",") + "}"
  }

  /** A string serializes as a quoted text, never as itself, whose body reads
      back as the string. */
  lemma SerializeString(x: string)
    ensures var t := Serialize(JStr(x));
            && |t| >= |x| + 2 && t != x
            && t[0] == '"' && t[|t| - 1] == '"'
            && Unescape(t[1..|t| - 1]) == x
  {
    var t := Serialize(JStr(x));
    assert t[1..|t| - 1] == Escape(x);
    EscapeRoundTrip(x);
  }

  /** Number.MAX_SAFE_INTEGER: every integer up to it in magnitude is a double. */
  const MaxSafeInteger := 9007199254740991

  /** The numeric value of a text of decimal digits. */
  function DigitsValue(k: string): nat
  {
    if |k| == 0 then 0
    else DigitsValue(k[..|k| - 1]) * 10 + (if '0' <= k[|k| - 1] <= '9' then (k[|k| - 1] - '0') as int else 0)
  }

  /** A key that names an array index: canonical decimal digits below 2^32 - 1.
      A JavaScript object lists such keys first, in ascending numeric order. */
  predicate IndexKey(k: string)
  {
    && |k| >= 1
    && (forall i :: 0 <= i < |k| ==> '0' <= k[i] <= '9')
    && (k[0] == '0' ==> |k| == 1)
    && DigitsValue(k) < 0xFFFF_FFFF
  }

  /** Whether JSON.parse reads the text of `j` back as `j`: no object in it has
      an index key, which JSON.parse would move to the front, and no number is
      beyond the integers a double holds exactly. */
  predicate JsExact(j: Json)
  {
    match j
    case JNum(n) => -MaxSafeInteger <= n <= MaxSafeInteger
    case JArr(items) => forall i :: 0 <= i < |items| ==> JsExact(items[i])
    case JObj(fields) => forall i :: 0 <= i < |fields| ==> !IndexKey(fields[i].0) && JsExact(fields[i].1)
    case _ => true
  }
}
