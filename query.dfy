/** The list views build their request URLs by appending `key=value&` for every
    non-empty filter, with values not URL-encoded. `Parse` is the partner: the reading a
    server gives the query the browser sends (split at `&`, each piece split at its first
    `=`, with no `%` or `+` decoding). */
module Query {

  type Params = seq<(string, string)>

  /** `key=value&` when the value is non-empty (a truthy string), nothing otherwise. */
  function Param(key: string, value: string): (s: string)
    ensures value == "" ==> s == ""
    ensures value != "" ==> s == key + "=" + value + "&"
  {
    if value == "" then "" else key + "=" + value + "&"
  }

  /** The text appended for the given filters, in order. */
  function Append(params: Params): string {
    if params == [] then "" else Param(params[0].0, params[0].1) + Append(params[1..])
  }

  /** The filters that contribute to the query: those with a non-empty value. */
  function Present(params: Params): (r: Params)
    ensures forall p :: p in r <==> p in params && p.1 != ""
    ensures |r| <= |params|
  {
    if params == [] then []
    else (if params[0].1 != "" then [params[0]] else []) + Present(params[1..])
  }

  /** The index of the first `c` in `s`, or `|s|` when there is none. */
  function IndexOf(s: string, c: char): (i: nat)
    ensures i <= |s|
    ensures forall k :: 0 <= k < i ==> s[k] != c
    ensures i < |s| ==> s[i] == c
  {
    if s == [] then 0 else if s[0] == c then 0 else 1 + IndexOf(s[1..], c)
  }

  function Pair(segment: string): (string, string) {
    var i := IndexOf(segment, '=');
    (segment[..i], if i < |segment| then segment[i + 1..] else "")
  }

  /** The key/value pairs of a query string; empty pieces (such as the one after a
      trailing `&`) are skipped. */
  function Parse(q: string): Params
    decreases |q|
  {
    if q == [] then []
    else
      var i := IndexOf(q, '&');
      (if i == 0 then [] else [Pair(q[..i])]) + (if i < |q| then Parse(q[i + 1..]) else [])
  }

  /** The query part of a URL as the browser sends it: what follows the first `?`, up to
      the first `#`, which starts the fragment that is never sent. */
  function QueryOf(url: string): string {
    var h := IndexOf(url, '#');
    var i := IndexOf(url[..h], '?');
    if i < h then url[i + 1..h] else ""
  }

  /** A filter value is read back unchanged when neither it nor its key can be mistaken
      for a separator or for the start of the fragment. */
  predicate Safe(p: (string, string)) {
    '&' !in p.0 && '=' !in p.0 && '#' !in p.0 && '&' !in p.1 && '#' !in p.1
  }

  lemma {:induction false} IndexOfAbsent(s: string, c: char)
    requires c !in s
    ensures IndexOf(s, c) == |s|
  {
    if s != [] {
      assert c !in s[1..];
      IndexOfAbsent(s[1..], c);
    }
  }

  lemma {:induction false} IndexOfSplit(a: string, c: char, b: string)
    requires c !in a
    ensures IndexOf(a + [c] + b, c) == |a|
  {
    if a != [] {
      assert (a + [c] + b)[1..] == a[1..] + [c] + b;
      IndexOfSplit(a[1..], c, b);
    }
  }

  lemma ParseParam(key: string, value: string, rest: string)
    requires Safe((key, value)) && value != ""
    ensures Parse(Param(key, value) + rest) == [(key, value)] + Parse(rest)
  {
    var seg := key + "=" + value;
    var q := Param(key, value) + rest;
    assert q == seg + ['&'] + rest;
    assert '&' !in seg;
    IndexOfSplit(seg, '&', rest);
    assert q[..|seg|] == seg;
    assert q[|seg| + 1..] == rest;
    assert seg == key + ['='] + value;
    IndexOfSplit(key, '=', value);
    assert seg[..|key|] == key;
    assert seg[|key| + 1..] == value;
  }

  /** Reading the appended text back yields exactly the non-empty filters, in order. */
  lemma {:induction false} ParseAppend(params: Params)
    requires forall p :: p in params ==> Safe(p)
    ensures Parse(Append(params)) == Present(params)
  {
    if params != [] {
      var k, v := params[0].0, params[0].1;
      var rest := params[1..];
      assert Safe(params[0]) by { assert params[0] in params; }
      assert forall p :: p in rest ==> Safe(p) by {
        forall p | p in rest ensures Safe(p) { assert p in params; }
      }
      ParseAppend(rest);
      assert Append(params) == Param(k, v) + Append(rest);
      if v != "" {
        ParseParam(k, v, Append(rest));
        assert Present(params) == [params[0]] + Present(rest);
      } else {
        assert Param(k, v) + Append(rest) == Append(rest);
        assert Present(params) == Present(rest);
      }
    }
  }

  /** Nothing is appended exactly when every filter is empty. */
  lemma {:induction false} AppendEmpty(params: Params)
    ensures Append(params) == "" <==> forall p :: p in params ==> p.1 == ""
  {
    if params != [] {
      assert forall p :: p in params <==> p == params[0] || p in params[1..];
      AppendEmpty(params[1..]);
    }
  }

  lemma QueryOfUrl(path: string, query: string)
    requires '?' !in path && '#' !in path && '#' !in query
    ensures QueryOf(path + "?" + query) == query
  {
    var url := path + "?" + query;
    IndexOfAbsent(url, '#');
    assert url[..|url|] == url;
    IndexOfSplit(path, '?', query);
    assert url[|path| + 1..] == query;
  }

  /** No safe filter list puts a `#` into the appended text. */
  lemma {:induction false} AppendNoFragment(params: Params)
    requires forall p :: p in params ==> Safe(p)
    ensures '#' !in Append(params)
  {
    if params != [] {
      assert Safe(params[0]) by { assert params[0] in params; }
      assert forall p :: p in params[1..] ==> Safe(p) by {
        forall p | p in params[1..] ensures Safe(p) { assert p in params; }
      }
      AppendNoFragment(params[1..]);
    }
  }

  /** A list endpoint with its filters: `path + "?"`, then `key=value&` for each non-empty filter. */
  function Url(path: string, params: Params): string {
    path + "?" + Append(params)
  }

  /** A server reading the query of the built URL sees exactly the non-empty filters, in
      order, as long as no value holds an `&` or `#` and no key holds `&`, `=` or `#`. */
  lemma UrlReadsBack(path: string, params: Params)
    requires '?' !in path && '#' !in path
    requires forall p :: p in params ==> Safe(p)
    ensures Parse(QueryOf(Url(path, params))) == Present(params)
  {
    AppendNoFragment(params);
    QueryOfUrl(path, Append(params));
    ParseAppend(params);
  }

  /** The URL ends in a bare `?` exactly when every filter is empty. */
  lemma UrlBare(path: string, params: Params)
    ensures Url(path, params) == path + "?" <==> forall p :: p in params ==> p.1 == ""
  {
    AppendEmpty(params);
    if Url(path, params) == path + "?" {
      assert Append(params) == Url(path, params)[|path| + 1..];
    }
  }

  lemma AppendTwo(a: (string, string), b: (string, string))
    ensures Append([a, b]) == Param(a.0, a.1) + Param(b.0, b.1)
  {
    assert [a, b][1..] == [b];
    assert [b][1..] == [];
    assert Append([b]) == Param(b.0, b.1) + Append([]);
    assert Append([]) == "";
    assert Append([a, b]) == Param(a.0, a.1) + Append([b]);
  }

  lemma AppendOne(a: (string, string))
    ensures Append([a]) == Param(a.0, a.1)
  {
    assert [a][1..] == [];
    assert Append([a]) == Param(a.0, a.1) + Append([]);
  }

  /** A first value carrying `&k2=v2` produces the same text as the two filters would. */
  lemma PoseAsSecond(k1: string, v1: string, k2: string, v2: string)
    requires v1 != "" && v2 != ""
    ensures Append([(k1, v1 + "&" + k2 + "=" + v2), (k2, "")]) == Append([(k1, v1), (k2, v2)])
  {
    AppendTwo((k1, v1 + "&" + k2 + "=" + v2), (k2, ""));
    AppendTwo((k1, v1), (k2, v2));
    var head, second := k1 + "=", k2 + "=" + v2 + "&";
    calc {
      Param(k1, v1 + "&" + k2 + "=" + v2);
      head + (v1 + "&" + k2 + "=" + v2) + "&";
      { Associate(head, v1 + "&" + k2 + "=" + v2, "&"); }
      head + (v1 + "&" + k2 + "=" + v2 + "&");
      { assert v1 + "&" + k2 + "=" + v2 + "&" == v1 + "&" + second; }
      head + (v1 + "&" + second);
      { Associate(head, v1 + "&", second); }
      head + (v1 + "&") + second;
      { Associate(head, v1, "&"); }
      Param(k1, v1) + Param(k2, v2);
    }
  }

  /** A first value starting with `#` opens the fragment: the browser sends only `key=`,
      so the server reads that filter as empty and every later one as absent. */
  lemma FragmentCutsFirst(path: string, key: string, value: string, rest: Params)
    requires '?' !in path && '#' !in path
    requires '&' !in key && '=' !in key && '#' !in key
    requires value != "" && value[0] == '#'
    ensures Parse(QueryOf(Url(path, [(key, value)] + rest))) == [(key, "")]
  {
    var params := [(key, value)] + rest;
    assert params[0] == (key, value) && params[1..] == rest;
    var url := Url(path, params);
    var head := path + "?" + key + "=";
    var tail := value[1..] + "&" + Append(rest);
    assert value == ['#'] + value[1..];
    assert url == head + ['#'] + tail;
    assert '#' !in head;
    IndexOfSplit(head, '#', tail);
    assert url[..|head|] == head;
    var segment := key + "=";
    assert head == path + ['?'] + segment;
    IndexOfSplit(path, '?', segment);
    assert QueryOf(url) == segment;
    IndexOfAbsent(segment, '&');
    assert segment == key + ['='] + "";
    IndexOfSplit(key, '=', "");
    assert segment[..|key|] == key;
    assert Pair(segment) == (key, "");
  }

  lemma Associate(a: string, b: string, c: string)
    ensures a + b + c == a + (b + c)
  {
  }
}
