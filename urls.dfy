/**
  Target URLs: the fixed service endpoint, the operation's path suffix and,
  when there are request parameters, a query string in which the parameters
  appear in increasing key order, joined by '&' (the encoding of Go's
  url.Values). Percent-escaping is not modelled: keys and values are written
  as given.
 */
module Urls {
  import opened Payloads

  const ApiURL := "https://api.opsgenie.com"

  /** Multi-valued query parameters, as Go's url.Values. */
  type Values = map<string, seq<string>>

  /** Lexicographic order on strings, character by character, a proper prefix first. */
  predicate Below(a: string, b: string)
    decreases |a|
  {
    a == [] || (b != [] && (a[0] < b[0] || (a[0] == b[0] && Below(a[1..], b[1..]))))
  }

  lemma {:induction false} BelowReflexive(a: string)
    ensures Below(a, a)
    decreases |a|
  {
    if a != [] {
      BelowReflexive(a[1..]);
    }
  }

  lemma {:induction false} BelowTotal(a: string, b: string)
    ensures Below(a, b) || Below(b, a)
    decreases |a|
  {
    if a != [] && b != [] && a[0] == b[0] {
      BelowTotal(a[1..], b[1..]);
    }
  }

  lemma {:induction false} BelowAntisymmetric(a: string, b: string)
    requires Below(a, b) && Below(b, a)
    ensures a == b
    decreases |a|
  {
    if a != [] && b != [] {
      BelowAntisymmetric(a[1..], b[1..]);
      assert a == [a[0]] + a[1..] && b == [b[0]] + b[1..];
    }
  }

  lemma {:induction false} BelowTransitive(a: string, b: string, c: string)
    requires Below(a, b) && Below(b, c)
    ensures Below(a, c)
    decreases |a|
  {
    if a != [] && b != [] && c != [] && a[0] == b[0] == c[0] {
      BelowTransitive(a[1..], b[1..], c[1..]);
    }
  }

  /** `k` is the least element of `s`. */
  predicate IsLeast(k: string, s: set<string>) {
    k in s && forall j :: j in s ==> Below(k, j)
  }

  lemma {:induction false} LeastExists(s: set<string>)
    requires s != {}
    ensures exists k :: IsLeast(k, s)
    decreases |s|
  {
    var x :| x in s;
    if s == {x} {
      BelowReflexive(x);
      assert IsLeast(x, s);
    } else {
      var rest := s - {x};
      LeastExists(rest);
      var m :| IsLeast(m, rest);
      BelowTotal(x, m);
      if Below(x, m) {
        forall j | j in s
          ensures Below(x, j)
        {
          if j == x {
            BelowReflexive(x);
          } else {
            BelowTransitive(x, m, j);
          }
        }
        assert IsLeast(x, s);
      } else {
        assert IsLeast(m, s);
      }
    }
  }

  lemma LeastUnique(k: string, k': string, s: set<string>)
    requires IsLeast(k, s) && IsLeast(k', s)
    ensures k == k'
  {
    BelowAntisymmetric(k, k');
  }

  /** The elements of `s` in increasing order: the order sort.Strings gives to a map's keys. */
  ghost function SortedKeys(s: set<string>): (r: seq<string>)
    ensures |r| == |s|
    ensures forall k :: k in r <==> k in s
    decreases |s|
  {
    if s == {} then
      []
    else
      LeastExists(s);
      var k :| IsLeast(k, s);
      [k] + SortedKeys(s - {k})
  }

  /** A non-empty key set lists its least key first, then the rest in order. */
  lemma SortedKeysFirst(s: set<string>)
    requires s != {}
    ensures IsLeast(SortedKeys(s)[0], s)
    ensures SortedKeys(s) == [SortedKeys(s)[0]] + SortedKeys(s - {SortedKeys(s)[0]})
  {
  }

  /** Every key appears once, each strictly below the keys after it. */
  lemma {:induction false} SortedKeysIncreasing(s: set<string>)
    ensures var r := SortedKeys(s);
            forall i, j :: 0 <= i < j < |r| ==> Below(r[i], r[j]) && r[i] != r[j]
    decreases |s|
  {
    if s != {} {
      SortedKeysFirst(s);
      var r := SortedKeys(s);
      var k := r[0];
      var rest := s - {k};
      var t := SortedKeys(rest);
      assert r == [k] + t;
      SortedKeysIncreasing(rest);
      forall i, j | 0 <= i < j < |r|
        ensures Below(r[i], r[j]) && r[i] != r[j]
      {
        assert r[j] == t[j - 1];
        if i == 0 {
          assert t[j - 1] in rest;
        } else {
          assert r[i] == t[i - 1];
        }
      }
    }
  }

  /** One encoded parameter. */
  function Pair(k: string, v: string): string {
    k + "=" + v
  }

  /** The encoded pairs of one key, one per value, in value order. */
  function PairsOf(k: string, vs: seq<string>): (r: seq<string>)
    ensures |r| == |vs|
    ensures forall i :: 0 <= i < |vs| ==> r[i] == Pair(k, vs[i])
  {
    if vs == [] then [] else PairsOf(k, vs[..|vs| - 1]) + [Pair(k, vs[|vs| - 1])]
  }

  /** The encoded pairs of the keys `keys`, key after key. */
  function Pairs(values: Values, keys: seq<string>): seq<string>
    requires forall k :: k in keys ==> k in values
  {
    if keys == [] then [] else Pairs(values, keys[..|keys| - 1]) + PairsOf(keys[|keys| - 1], values[keys[|keys| - 1]])
  }

  /** The parts joined with '&'. */
  function Join(parts: seq<string>): string {
    if |parts| == 0 then ""
    else if |parts| == 1 then parts[0]
    else Join(parts[..|parts| - 1]) + "&" + parts[|parts| - 1]
  }

  /** The query string of `values`: every value of every key, keys in increasing order. */
  ghost function Encoded(values: Values): string {
    Join(Pairs(values, SortedKeys(values.Keys)))
  }

  /** The URL for `suffix` with `params` as its query; no '?' when there is no query. */
  ghost function UrlOf(suffix: string, params: Query): string {
    var query := Encoded(ValuesOf(params));
    ApiURL + suffix + (if query == "" then "" else "?" + query)
  }

  /** url.Values.Add: appends `v` to the values of `k`. */
  function Add(values: Values, k: string, v: string): (r: Values)
    ensures r.Keys == values.Keys + {k}
    ensures r[k] == (if k in values then values[k] else []) + [v]
    ensures forall j :: j in values && j != k ==> r[j] == values[j]
  {
    values[k := (if k in values then values[k] else []) + [v]]
  }

  /** Single-valued parameters as url.Values. */
  function ValuesOf(params: Query): Values {
    map k | k in params :: [params[k]]
  }

  lemma PairsOfSnoc(k: string, vs: seq<string>, v: string)
    ensures PairsOf(k, vs + [v]) == PairsOf(k, vs) + [Pair(k, v)]
  {
    assert (vs + [v])[..|vs|] == vs;
  }

  lemma PairsSnoc(values: Values, keys: seq<string>, k: string)
    requires forall j :: j in keys ==> j in values
    requires k in values
    ensures Pairs(values, keys + [k]) == Pairs(values, keys) + PairsOf(k, values[k])
  {
    assert (keys + [k])[..|keys|] == keys;
  }

  lemma JoinSnoc(parts: seq<string>, p: string)
    ensures Join(parts + [p]) == if parts == [] then p else Join(parts) + "&" + p
  {
    assert (parts + [p])[..|parts|] == parts;
  }

  lemma SortedKeysStep(s: set<string>, k: string)
    requires IsLeast(k, s)
    ensures SortedKeys(s) == [k] + SortedKeys(s - {k})
  {
    SortedKeysFirst(s);
    LeastUnique(k, SortedKeys(s)[0], s);
  }

  /** Writing the pair of the i-th value extends the joined text by one part. */
  lemma JoinStep(parts: seq<string>, k: string, vs: seq<string>, i: nat)
    requires i < |vs|
    ensures var before := parts + PairsOf(k, vs[..i]);
            Join(parts + PairsOf(k, vs[..i + 1]))
            == if before == [] then Pair(k, vs[i]) else Join(before) + "&" + Pair(k, vs[i])
  {
    var before := parts + PairsOf(k, vs[..i]);
    assert vs[..i + 1] == vs[..i] + [vs[i]];
    PairsOfSnoc(k, vs[..i], vs[i]);
    assert parts + PairsOf(k, vs[..i + 1]) == before + [Pair(k, vs[i])];
    JoinSnoc(before, Pair(k, vs[i]));
  }

  /**
    Go's url.Values.Encode without escaping: visits the keys in increasing
    order (each step takes the least key not yet written) and writes
    "key=value" for each of its values, with '&' before every pair but the first.
   */
  method Encode(values: Values) returns (query: string)
    ensures query == Encoded(values)
  {
    var remaining := values.Keys;
    ghost var done: seq<string> := [];
    ghost var todo := SortedKeys(remaining);
    ghost var parts: seq<string> := [];
    query := "";
    while remaining != {}
      invariant remaining <= values.Keys
      invariant forall j :: j in done ==> j in values
      invariant todo == SortedKeys(remaining)
      invariant done + todo == SortedKeys(values.Keys)
      invariant parts == Pairs(values, done)
      invariant query == Join(parts)
      invariant |query| > 0 <==> parts != []
      decreases |remaining|
    {
      LeastExists(remaining);
      var k :| k in remaining && forall j :: j in remaining ==> Below(k, j);
      SortedKeysStep(remaining, k);
      query := WriteValues(query, k, values[k], parts);
      PairsSnoc(values, done, k);
      parts := parts + PairsOf(k, values[k]);
      Shift(done, todo);
      done := done + [k];
      todo := todo[1..];
      remaining := remaining - {k};
    }
    assert todo == [] && done == SortedKeys(values.Keys);
  }

  lemma Shift(a: seq<string>, b: seq<string>)
    requires b != []
    ensures a + b == (a + [b[0]]) + b[1..]
  {
  }

  /** The inner loop of Encode: writes one key's pairs after the text written so far. */
  method WriteValues(query: string, k: string, vs: seq<string>, ghost parts: seq<string>) returns (out: string)
    requires query == Join(parts)
    requires |query| > 0 <==> parts != []
    ensures out == Join(parts + PairsOf(k, vs))
    ensures |out| > 0 <==> parts + PairsOf(k, vs) != []
  {
    out := query;
    var i := 0;
    assert parts + PairsOf(k, vs[..i]) == parts;
    while i < |vs|
      invariant 0 <= i <= |vs|
      invariant out == Join(parts + PairsOf(k, vs[..i]))
      invariant |out| > 0 <==> parts + PairsOf(k, vs[..i]) != []
    {
      JoinStep(parts, k, vs, i);
      if |out| > 0 {
        out := out + "&";
      }
      out := out + Pair(k, vs[i]);
      i := i + 1;
    }
    assert vs[..i] == vs;
  }

  /**
    Builds the request URL: copies every request parameter into a fresh
    url.Values (in the map's iteration order, which is arbitrary) and appends
    the encoded query, if any, after a '?'.
   */
  method CreateURL(suffix: string, params: Query) returns (url: string)
    ensures url == UrlOf(suffix, params)
  {
    var parameters := CopyParams(params);
    var query := Encode(parameters);
    url := ApiURL + suffix;
    if query != "" {
      url := url + "?" + query;
    }
  }

  /** The range loop of createURL: adds every request parameter, in the map's arbitrary order, to a fresh url.Values. */
  method CopyParams(params: Query) returns (parameters: Values)
    ensures parameters == ValuesOf(params)
  {
    parameters := map[];
    var remaining := params.Keys;
    while remaining != {}
      invariant remaining <= params.Keys
      invariant parameters.Keys == params.Keys - remaining
      invariant forall j :: j in parameters ==> parameters[j] == [params[j]]
      decreases |remaining|
    {
      var k :| k in remaining;
      parameters := Add(parameters, k, params[k]);
      remaining := remaining - {k};
    }
    ValuesOfCopy(params, parameters);
  }

  /** A copy of every parameter, one value per key, is the parameters' url.Values. */
  lemma ValuesOfCopy(params: Query, parameters: Values)
    requires parameters.Keys == params.Keys
    requires forall j :: j in parameters ==> parameters[j] == [params[j]]
    ensures parameters == ValuesOf(params)
  {
  }

  /** Without parameters the URL is the endpoint followed by the suffix. */
  lemma UrlWithoutParams(suffix: string)
    ensures UrlOf(suffix, map[]) == ApiURL + suffix
  {
    assert ValuesOf(map[]).Keys == {};
  }

  /** A single parameter yields "?key=value". */
  lemma UrlWithOneParam(suffix: string, k: string, v: string)
    ensures UrlOf(suffix, map[k := v]) == ApiURL + suffix + "?" + k + "=" + v
  {
    var values := ValuesOf(map[k := v]);
    assert values.Keys == {k};
    var keys := SortedKeys(values.Keys);
    assert keys == [k];
    assert [] + [k] == [k];
    PairsSnoc(values, [], k);
    assert PairsOf(k, [v]) == [Pair(k, v)] by { PairsOfSnoc(k, [], v); }
  }

  /** The mandatory query of the fetch and the delete: "apiKey" sorts before "name". */
  lemma UrlWithMandatoryQuery(suffix: string, apiKey: string, name: string)
    ensures UrlOf(suffix, map["apiKey" := apiKey, "name" := name])
            == ApiURL + suffix + "?apiKey=" + apiKey + "&name=" + name
  {
    var query := Encoded(ValuesOf(map["apiKey" := apiKey, "name" := name]));
    EncodedMandatory(apiKey, name);
    MandatoryText(apiKey, name);
    assert query == "apiKey=" + apiKey + "&name=" + name;
    assert "?" + query == "?apiKey=" + apiKey + "&name=" + name;
  }

  lemma EncodedMandatory(apiKey: string, name: string)
    ensures Encoded(ValuesOf(map["apiKey" := apiKey, "name" := name]))
            == Join([Pair("apiKey", apiKey), Pair("name", name)])
  {
    var values := ValuesOf(map["apiKey" := apiKey, "name" := name]);
    ValuesOfMandatory(apiKey, name);
    SortedMandatoryKeys();
    PairsMandatory(values, apiKey, name);
  }

  lemma ValuesOfMandatory(apiKey: string, name: string)
    ensures ValuesOf(map["apiKey" := apiKey, "name" := name]) == map["apiKey" := [apiKey], "name" := [name]]
  {
  }

  lemma PairsMandatory(values: Values, apiKey: string, name: string)
    requires values == map["apiKey" := [apiKey], "name" := [name]]
    ensures Pairs(values, ["apiKey", "name"]) == [Pair("apiKey", apiKey), Pair("name", name)]
  {
    PairsOfTwo(values, "apiKey", "name");
    PairsOfOne("apiKey", apiKey);
    PairsOfOne("name", name);
  }

  lemma PairsOfOne(k: string, v: string)
    ensures PairsOf(k, [v]) == [Pair(k, v)]
  {
    assert [v][..0] == [];
  }

  lemma PairsOfTwo(values: Values, a: string, b: string)
    requires a in values && b in values
    ensures Pairs(values, [a, b]) == PairsOf(a, values[a]) + PairsOf(b, values[b])
  {
    assert [a, b][..1] == [a];
    assert [a][..0] == [];
    assert Pairs(values, [a]) == [] + PairsOf(a, values[a]);
    assert [] + PairsOf(a, values[a]) == PairsOf(a, values[a]);
  }

  lemma SortedMandatoryKeys()
    ensures SortedKeys({"apiKey", "name"}) == ["apiKey", "name"]
  {
    var s: set<string> := {"apiKey", "name"};
    var keys := SortedKeys(s);
    SortedKeysFirst(s);
    assert Below("apiKey", "name");
    assert !Below("name", "apiKey");
    assert Below(keys[0], "apiKey");
    assert keys[0] == "apiKey";
    assert s - {"apiKey"} == {"name"};
    assert SortedKeys({"name"}) == ["name"] by {
      SortedKeysFirst({"name"});
    }
  }

  lemma MandatoryText(apiKey: string, name: string)
    ensures Join([Pair("apiKey", apiKey), Pair("name", name)]) == "apiKey=" + apiKey + "&name=" + name
  {
    JoinSnoc([Pair("apiKey", apiKey)], Pair("name", name));
    assert [Pair("apiKey", apiKey)] + [Pair("name", name)] == [Pair("apiKey", apiKey), Pair("name", name)];
  }

  /** The package's own URL test: suffix "/v1/test" with apiKey=test. */
  lemma UrlOfPackageTest()
    ensures UrlOf("/v1/test", map["apiKey" := "test"]) == "https://api.opsgenie.com/v1/test?apiKey=test"
  {
    UrlWithOneParam("/v1/test", "apiKey", "test");
  }
}
