/**
 * The parts of Next.js navigation the pages use: the current URL's query as
 * `URLSearchParams` sees it (`get`, `toString` and the parser behind
 * `new URLSearchParams(text)`), and the router whose `push` calls are
 * recorded in order. Percent-encoding is not modelled: the round trip between
 * the parser and `toString` is proved for keys and values without `&` or `=`.
 */
module Navigation {
  import opened Wrappers
  import Text

  /** A query, as its key/value pairs in order. */
  type Query = seq<(string, string)>

  /** Text that needs no escaping inside a query: it has neither `&` nor `=`. */
  predicate Plain(s: string) {
    forall i :: 0 <= i < |s| ==> s[i] != '&' && s[i] != '='
  }

  predicate PlainQuery(q: Query) {
    forall i :: 0 <= i < |q| ==> Plain(q[i].0) && Plain(q[i].1)
  }

  /** `searchParams.get(key)`: the value of the first pair with that key, if any. */
  function GetParam(q: Query, key: string): (r: Option<string>)
    ensures r.None? <==> forall i :: 0 <= i < |q| ==> q[i].0 != key
    ensures r.Some? ==> exists i :: 0 <= i < |q| && q[i] == (key, r.value) &&
                                    forall j :: 0 <= j < i ==> q[j].0 != key
  {
    if q == [] then None
    else if q[0].0 == key then Some(q[0].1)
    else
      var r := GetParam(q[1..], key);
      assert forall i :: 0 < i < |q| ==> q[i] == q[1..][i - 1];
      if r.Some? then
        ghost var i :| 0 <= i < |q[1..]| && q[1..][i] == (key, r.value) &&
                       forall j :: 0 <= j < i ==> q[1..][j].0 != key;
        assert q[i + 1] == (key, r.value);
        r
      else r
  }

  /** `searchParams.toString()`: the pairs as `key=value`, joined by `&`. */
  function Serialize(q: Query): string {
    if q == [] then ""
    else if |q| == 1 then q[0].0 + "=" + q[0].1
    else q[0].0 + "=" + q[0].1 + "&" + Serialize(q[1..])
  }

  /** One `key=value` segment, split at its first `=`; a segment without `=` has the empty value. */
  function SplitPair(segment: string): (string, string) {
    match Text.FirstIndex(segment, '=')
    case None => (segment, "")
    case Some(j) => (segment[..j], segment[j + 1..])
  }

  /** `new URLSearchParams(text)`: the `&`-separated segments in order, empty segments skipped. */
  function ParseQuery(s: string): Query
    decreases |s|
  {
    match Text.FirstIndex(s, '&')
    case None => if s == "" then [] else [SplitPair(s)]
    case Some(i) =>
      var rest := ParseQuery(s[i + 1..]);
      if i == 0 then rest else [SplitPair(s[..i])] + rest
  }

  /** The first `c` of `a + [c] + b` is the one after `a`, when `a` has none. */
  lemma FirstIndexAfter(a: string, c: char, b: string)
    requires forall i :: 0 <= i < |a| ==> a[i] != c
    ensures Text.FirstIndex(a + [c] + b, c) == Some(|a|)
  {
    var s := a + [c] + b;
    assert s[|a|] == c;
  }

  /** A plain pair reads back from its `key=value` segment. */
  lemma SplitPlainPair(k: string, v: string)
    requires Plain(k) && Plain(v)
    ensures SplitPair(k + "=" + v) == (k, v)
  {
    FirstIndexAfter(k, '=', v);
    var s := k + "=" + v;
    assert s == k + ['='] + v;
    assert s[..|k|] == k;
    assert s[|k| + 1..] == v;
  }

  /** The segment of a plain pair has no `&`. */
  lemma PlainSegment(k: string, v: string)
    requires Plain(k) && Plain(v)
    ensures forall i :: 0 <= i < |k + "=" + v| ==> (k + "=" + v)[i] != '&'
  {
    var first := k + "=" + v;
    forall i | 0 <= i < |first| ensures first[i] != '&' {
      if i < |k| { assert first[i] == k[i]; }
      else if i > |k| { assert first[i] == v[i - |k| - 1]; }
    }
  }

  /** A non-empty segment without `&`, followed by `&` and more text, parses as that pair and then the rest. */
  lemma ParseSegmentThenRest(first: string, tail: string)
    requires first != "" && forall i :: 0 <= i < |first| ==> first[i] != '&'
    ensures ParseQuery(first + "&" + tail) == [SplitPair(first)] + ParseQuery(tail)
  {
    var s := first + "&" + tail;
    assert s == first + ['&'] + tail;
    FirstIndexAfter(first, '&', tail);
    assert s[..|first|] == first;
    assert s[|first| + 1..] == tail;
  }

  lemma PlainQueryTail(q: Query)
    requires PlainQuery(q) && q != []
    ensures PlainQuery(q[1..])
  {
    forall i | 0 <= i < |q[1..]| ensures Plain(q[1..][i].0) && Plain(q[1..][i].1) {
      assert q[1..][i] == q[i + 1];
    }
  }

  /** Parsing the text of a plain query gives the query back. */
  lemma {:induction false} ParseSerialize(q: Query)
    requires PlainQuery(q)
    ensures ParseQuery(Serialize(q)) == q
    decreases |q|
  {
    if q != [] {
      var k, v := q[0].0, q[0].1;
      SplitPlainPair(k, v);
      PlainSegment(k, v);
      if |q| == 1 {
        assert Text.FirstIndex(k + "=" + v, '&') == None;
        assert q == [(k, v)];
      } else {
        ParseSegmentThenRest(k + "=" + v, Serialize(q[1..]));
        PlainQueryTail(q);
        ParseSerialize(q[1..]);
        assert q == [(k, v)] + q[1..];
      }
    }
  }

  /** The query text of a route: everything after its first `?`, or nothing. */
  function QueryText(url: string): (t: string)
    ensures |t| <= |url|
  {
    match Text.FirstIndex(url, '?')
    case None => ""
    case Some(i) => url[i + 1..]
  }

  /** The path of a route: everything before its first `?`. */
  function Path(url: string): (p: string)
    ensures |p| <= |url| && p == url[..|p|]
  {
    match Text.FirstIndex(url, '?')
    case None => url
    case Some(i) => url[..i]
  }

  /** A route `path?text` splits back into its path and its query text. */
  lemma RouteParts(path: string, text: string)
    requires forall i :: 0 <= i < |path| ==> path[i] != '?'
    ensures Path(path + "?" + text) == path
    ensures QueryText(path + "?" + text) == text
  {
    var url := path + "?" + text;
    assert url == path + ['?'] + text;
    FirstIndexAfter(path, '?', text);
    assert url[..|path|] == path;
    assert url[|path| + 1..] == text;
  }

  /** `useSearchParams().get(key)` on the page a route leads to. */
  function RouteParam(url: string, key: string): Option<string> {
    GetParam(ParseQuery(QueryText(url)), key)
  }

  /** The route `path?key=value` has that path and reads `value` back under `key`. */
  lemma RouteWithOneParam(path: string, key: string, value: string)
    requires forall i :: 0 <= i < |path| ==> path[i] != '?'
    requires Plain(key) && Plain(value)
    ensures Path(path + "?" + key + "=" + value) == path
    ensures RouteParam(path + "?" + key + "=" + value, key) == Some(value)
  {
    var text := key + "=" + value;
    assert path + "?" + key + "=" + value == path + "?" + text;
    RouteParts(path, text);
    ParseSerialize([(key, value)]);
    assert Serialize([(key, value)]) == text;
  }

  /** `useRouter()`: every route passed to `router.push`, in order. */
  class Router {
    var pushed: seq<string>

    constructor ()
      ensures pushed == []
    {
      pushed := [];
    }

    /** `router.push(url)`. */
    method Push(url: string)
      modifies this
      ensures pushed == old(pushed) + [url]
    {
      pushed := pushed + [url];
    }
  }
}
