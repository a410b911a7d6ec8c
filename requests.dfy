/** Request builders: the query string of `get_photos` (python/icloudbridge.py:949-961)
    and the JSON payloads of `create_reminder` (python/icloudbridge.py:805-811) and
    `update_reminder` (python/icloudbridge.py:842-852). URL quoting of identifiers and the
    path prefix are not modelled. */
module Requests {
  import opened Wrappers
  import opened JsonValues
  import opened IsoDates

  // ---- decimal text of an integer, `str(n)` ----

  function NaturalString(n: nat): (r: string)
    ensures |r| > 0 && AllDigits(r)
  {
    if n < 10 then [DigitChar(n)] else NaturalString(n / 10) + [DigitChar(n % 10)]
  }

  /** `str(n)` for a Python `int`: its decimal digits, after a `-` when negative. */
  function DecimalString(n: int): (r: string)
    ensures |r| > 0 && '&' !in r && '=' !in r
  {
    var digits := NaturalString(if n < 0 then -n else n);
    assert forall i :: 0 <= i < |digits| ==> IsDigit(digits[i]);
    if n < 0 then "-" + digits else digits
  }

  lemma {:induction false} ReadNaturalString(n: nat)
    ensures ReadDecimal(NaturalString(n)) == n
  {
    if n >= 10 {
      var s := NaturalString(n);
      assert s[..|s| - 1] == NaturalString(n / 10);
      ReadNaturalString(n / 10);
    }
  }

  /** Reads back the text `str` produces. */
  function ReadInteger(s: string): int
    requires s != [] && (s[0] == '-' ==> AllDigits(s[1..])) && (s[0] != '-' ==> AllDigits(s))
  {
    if s[0] == '-' then -(ReadDecimal(s[1..]) as int) else ReadDecimal(s)
  }

  lemma DecimalStringRoundTrip(n: int)
    ensures var s := DecimalString(n);
            s != [] && (s[0] == '-' ==> AllDigits(s[1..])) && (s[0] != '-' ==> AllDigits(s)) && ReadInteger(s) == n
  {
    var m := if n < 0 then -n else n;
    ReadNaturalString(m);
    if n < 0 {
      assert DecimalString(n)[1..] == NaturalString(m);
    }
  }

  // ---- joining and splitting on a separator ----

  /** `sep.join(parts)`. */
  function Join(parts: seq<string>, sep: char): string
  {
    if parts == [] then ""
    else if |parts| == 1 then parts[0]
    else parts[0] + [sep] + Join(parts[1..], sep)
  }

  /** `s.split(sep)`. */
  function Split(s: string, sep: char): (r: seq<string>)
    ensures |r| > 0
  {
    if s == [] then [""]
    else
      var rest := Split(s[1..], sep);
      if s[0] == sep then [""] + rest else [[s[0]] + rest[0]] + rest[1..]
  }

  lemma {:induction false} SplitWithoutSep(a: string, sep: char)
    requires sep !in a
    ensures Split(a, sep) == [a]
  {
    if a != [] {
      SplitWithoutSep(a[1..], sep);
      assert [a[0]] + a[1..] == a;
    }
  }

  lemma {:induction false} SplitAtSep(a: string, b: string, sep: char)
    requires sep !in a
    ensures Split(a + [sep] + b, sep) == [a] + Split(b, sep)
  {
    if a == [] {
      assert a + [sep] + b == [sep] + b;
      assert ([sep] + b)[1..] == b;
    } else {
      assert (a + [sep] + b)[1..] == a[1..] + [sep] + b;
      SplitAtSep(a[1..], b, sep);
      assert [a[0]] + a[1..] == a;
    }
  }

  /** Splitting undoes joining when no part contains the separator. */
  lemma {:induction false} SplitJoin(parts: seq<string>, sep: char)
    requires parts != []
    requires forall i :: 0 <= i < |parts| ==> sep !in parts[i]
    ensures Split(Join(parts, sep), sep) == parts
  {
    if |parts| == 1 {
      SplitWithoutSep(parts[0], sep);
    } else {
      SplitAtSep(parts[0], Join(parts[1..], sep), sep);
      SplitJoin(parts[1..], sep);
    }
  }

  // ---- the query string of get_photos ----

  datatype Param = Param(key: string, value: string)

  /** The parameters `get_photos` sends, in its fixed order: each only when it differs
      from its default (`limit` 100, `offset` 0, `sort` "album", `type` None). */
  function PhotoParams(limit: int, offset: int, sort: string, mediaType: Option<string>): (r: seq<Param>)
    ensures |r| <= 4
    ensures r == [] <==> limit == 100 && offset == 0 && sort == "album" && mediaType.None?
  {
    (if limit != 100 then [Param("limit", DecimalString(limit))] else [])
    + (if offset != 0 then [Param("offset", DecimalString(offset))] else [])
    + (if sort != "album" then [Param("sort", sort)] else [])
    + (if mediaType.Some? then [Param("type", mediaType.value)] else [])
  }

  /** Each parameter as `key=value`. */
  function Render(ps: seq<Param>): (r: seq<string>)
    ensures |r| == |ps|
    ensures forall i :: 0 <= i < |ps| ==> r[i] == ps[i].key + "=" + ps[i].value
  {
    if ps == [] then [] else [ps[0].key + "=" + ps[0].value] + Render(ps[1..])
  }

  /** `"?" + "&".join(params)` when there are any, else nothing. */
  function QueryString(ps: seq<Param>): (r: string)
    ensures r == "" <==> ps == []
    ensures ps != [] ==> r[0] == '?' && r[1..] == Join(Render(ps), '&')
  {
    if ps == [] then "" else "?" + Join(Render(ps), '&')
  }

  /** `get_photos`'s query building: append each non-default parameter to `params` and
      join them. */
  method PhotosQuery(limit: int, offset: int, sort: string, mediaType: Option<string>) returns (query: string)
    ensures query == QueryString(PhotoParams(limit, offset, sort, mediaType))
    ensures query == "" <==> limit == 100 && offset == 0 && sort == "album" && mediaType.None?
  {
    var params: seq<Param> := [];
    if limit != 100 {
      params := params + [Param("limit", DecimalString(limit))];
    }
    if offset != 0 {
      params := params + [Param("offset", DecimalString(offset))];
    }
    if sort != "album" {
      params := params + [Param("sort", sort)];
    }
    if mediaType.Some? {
      params := params + [Param("type", mediaType.value)];
    }
    assert params == PhotoParams(limit, offset, sort, mediaType);
    if params != [] {
      query := "?" + Join(Render(params), '&');
    } else {
      query := "";
    }
  }

  /** `key=value` read back at the first `=`. */
  function ParseParam(s: string): Param
  {
    var k := BeforeFirst(s, '=');
    if |k| < |s| then Param(k, s[|k| + 1..]) else Param(s, "")
  }

  /** The text of `s` before the first `c`. */
  function BeforeFirst(s: string, c: char): (r: string)
    ensures c !in r && r <= s
    ensures |r| < |s| ==> s[|r|] == c
  {
    if s == [] || s[0] == c then [] else [s[0]] + BeforeFirst(s[1..], c)
  }

  function ParseParams(parts: seq<string>): (r: seq<Param>)
    ensures |r| == |parts|
    ensures forall i :: 0 <= i < |parts| ==> r[i] == ParseParam(parts[i])
  {
    if parts == [] then [] else [ParseParam(parts[0])] + ParseParams(parts[1..])
  }

  /** How a server reads the query string back. */
  function ParseQuery(q: string): seq<Param>
  {
    if q == [] || q[0] != '?' then [] else ParseParams(Split(q[1..], '&'))
  }

  lemma {:induction false} BeforeFirstAt(a: string, b: string, c: char)
    requires c !in a
    ensures BeforeFirst(a + [c] + b, c) == a
  {
    if a == [] {
      assert (a + [c] + b)[0] == c;
    } else {
      assert (a + [c] + b)[1..] == a[1..] + [c] + b;
      BeforeFirstAt(a[1..], b, c);
      assert [a[0]] + a[1..] == a;
    }
  }

  lemma ParseRendered(key: string, value: string)
    requires '=' !in key
    ensures ParseParam(key + "=" + value) == Param(key, value)
  {
    var s := key + "=" + value;
    assert s == key + ['='] + value;
    BeforeFirstAt(key, value, '=');
    assert s[|key| + 1..] == value;
  }

  /** A parameter the query syntax can carry unambiguously. */
  predicate Plain(p: Param) {
    '&' !in p.key && '=' !in p.key && '&' !in p.value
  }

  predicate AllPlain(ps: seq<Param>) {
    forall i :: 0 <= i < |ps| ==> Plain(ps[i])
  }

  lemma AllPlainAppend(a: seq<Param>, b: seq<Param>)
    requires AllPlain(a) && AllPlain(b)
    ensures AllPlain(a + b)
  {
    forall i | 0 <= i < |a + b|
      ensures Plain((a + b)[i])
    {
      if i >= |a| {
        assert (a + b)[i] == b[i - |a|];
      }
    }
  }

  /** Reading a query string back gives the parameters it was built from. */
  lemma QueryRoundTrip(ps: seq<Param>)
    requires AllPlain(ps)
    ensures ParseQuery(QueryString(ps)) == ps
  {
    if ps != [] {
      var parts := Render(ps);
      forall i | 0 <= i < |parts|
        ensures '&' !in parts[i]
      {
        assert Plain(ps[i]);
        assert parts[i] == ps[i].key + "=" + ps[i].value;
      }
      SplitJoin(parts, '&');
      var q := QueryString(ps);
      assert q[1..] == Join(parts, '&');
      forall i | 0 <= i < |ps|
        ensures ParseParam(parts[i]) == ps[i]
      {
        assert Plain(ps[i]);
        ParseRendered(ps[i].key, ps[i].value);
      }
    }
  }

  /** The query string round-trips: a server splitting it on `&` and `=` gets back
      exactly the non-default parameters, in the fixed order, provided the `sort` and
      `type` values hold no `&` (the source does not escape them). */
  lemma PhotosQueryRoundTrip(limit: int, offset: int, sort: string, mediaType: Option<string>)
    requires '&' !in sort
    requires mediaType.Some? ==> '&' !in mediaType.value
    ensures ParseQuery(QueryString(PhotoParams(limit, offset, sort, mediaType))) == PhotoParams(limit, offset, sort, mediaType)
  {
    var a := if limit != 100 then [Param("limit", DecimalString(limit))] else [];
    var b := if offset != 0 then [Param("offset", DecimalString(offset))] else [];
    var c := if sort != "album" then [Param("sort", sort)] else [];
    var d := if mediaType.Some? then [Param("type", mediaType.value)] else [];
    assert AllPlain(a) && AllPlain(b) && AllPlain(c) && AllPlain(d);
    AllPlainAppend(a, b);
    AllPlainAppend(a + b, c);
    AllPlainAppend(a + b + c, d);
    assert PhotoParams(limit, offset, sort, mediaType) == a + b + c + d;
    QueryRoundTrip(a + b + c + d);
  }

  /** The order of the keys is fixed: `limit`, `offset`, `sort`, `type`, each at most once. */
  lemma PhotoParamsOrder(limit: int, offset: int, sort: string, mediaType: Option<string>)
    ensures var keys := seq(|PhotoParams(limit, offset, sort, mediaType)|, i requires 0 <= i < |PhotoParams(limit, offset, sort, mediaType)| => PhotoParams(limit, offset, sort, mediaType)[i].key);
            keys == (if limit != 100 then ["limit"] else []) + (if offset != 0 then ["offset"] else [])
                    + (if sort != "album" then ["sort"] else []) + (if mediaType.Some? then ["type"] else [])
  {
  }

  // ---- reminder payloads ----

  /** A `dueDate` argument as it goes into a payload: `_format_iso_date(due_date)`. */
  function DateArg(d: Option<DateTime>): Json
  {
    if d.Some? then JString(FormatIsoDate(d.value)) else JNull
  }

  /** An optional boolean argument as it goes into a payload. */
  function BoolArg(b: Option<bool>): Json
  {
    if b.Some? then JBool(b.value) else JNull
  }

  /** `payload` carries `arg` under `key` exactly when `arg is not None`. */
  predicate Carries(payload: Object, key: string, arg: Json)
  {
    (key in payload <==> arg != JNull) && (key in payload ==> payload[key] == arg)
  }

  /** `create_reminder`'s payload: `title` always, the other arguments only when not `None`. */
  method CreatePayload(title: Json, notes: Json, priority: Json, dueDate: Option<DateTime>) returns (payload: Object)
    ensures payload.Keys <= {"title", "notes", "priority", "dueDate"}
    ensures "title" in payload && payload["title"] == title
    ensures Carries(payload, "notes", notes) && Carries(payload, "priority", priority)
    ensures Carries(payload, "dueDate", DateArg(dueDate))
  {
    payload := map["title" := title];
    if notes != JNull {
      payload := payload["notes" := notes];
    }
    if priority != JNull {
      payload := payload["priority" := priority];
    }
    if dueDate.Some? {
      payload := payload["dueDate" := JString(FormatIsoDate(dueDate.value))];
    }
  }

  /** `update_reminder`'s payload: exactly the arguments that are not `None`. */
  method UpdatePayload(title: Json, notes: Json, isCompleted: Option<bool>, priority: Json, dueDate: Option<DateTime>)
    returns (payload: Object)
    ensures payload.Keys <= {"title", "notes", "isCompleted", "priority", "dueDate"}
    ensures Carries(payload, "title", title) && Carries(payload, "notes", notes)
    ensures Carries(payload, "isCompleted", BoolArg(isCompleted)) && Carries(payload, "priority", priority)
    ensures Carries(payload, "dueDate", DateArg(dueDate))
  {
    payload := map[];
    if title != JNull {
      payload := payload["title" := title];
    }
    if notes != JNull {
      payload := payload["notes" := notes];
    }
    if isCompleted.Some? {
      payload := payload["isCompleted" := JBool(isCompleted.value)];
    }
    if priority != JNull {
      payload := payload["priority" := priority];
    }
    if dueDate.Some? {
      payload := payload["dueDate" := JString(FormatIsoDate(dueDate.value))];
    }
  }
}
