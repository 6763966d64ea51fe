/** Query strings, from both ends of an HTTP call: the dashboard writes `name=value`
    pairs after a '?', and the function app reads them back with `req.Url.Query` and
    `HttpUtility.ParseQueryString(...)[name]`. */
module QueryStrings {
  import opened Common
  import opened Text

  /** The index of the first `c` in `s`, or `|s|` when there is none. */
  function IndexOf(s: string, c: char): (i: nat)
    ensures i <= |s|
    ensures forall j :: 0 <= j < i ==> s[j] != c
    ensures i < |s| ==> s[i] == c
  {
    LeadingCount(s, ch => ch != c)
  }

  lemma IndexOfAbsent(a: string, c: char)
    requires c !in a
    ensures IndexOf(a, c) == |a|
  {
    assert forall j :: 0 <= j < |a| ==> a[j] != c;
  }

  lemma IndexOfAt(a: string, c: char, b: string)
    requires c !in a
    ensures IndexOf(a + [c] + b, c) == |a|
  {
    var s := a + [c] + b;
    assert s[|a|] == c;
    assert forall j :: 0 <= j < |a| ==> s[j] == a[j] && a[j] != c;
  }

  /** `s` cut at every `sep`; the separators are dropped and empty pieces kept. */
  function Split(s: string, sep: char): (parts: seq<string>)
    ensures |parts| >= 1
    decreases |s|
  {
    var i := IndexOf(s, sep);
    if i == |s| then [s] else [s[..i]] + Split(s[i + 1..], sep)
  }

  lemma SplitAbsent(a: string, sep: char)
    requires sep !in a
    ensures Split(a, sep) == [a]
  {
    IndexOfAbsent(a, sep);
  }

  lemma SplitAt(a: string, sep: char, b: string)
    requires sep !in a
    ensures Split(a + [sep] + b, sep) == [a] + Split(b, sep)
  {
    IndexOfAt(a, sep, b);
    var s := a + [sep] + b;
    assert s[..|a|] == a;
    assert s[|a| + 1..] == b;
  }

  // ---------------------------------------------------------------- reading a query

  /** One entry of the collection `ParseQueryString` builds. A piece without '=' has a
      `null` name and is all value. */
  datatype Entry = Entry(name: Option<string>, value: string)

  /** One '&'-separated piece: the name is what precedes the first '=', the value what
      follows it. */
  function EntryOf(piece: string): (e: Entry)
    ensures e.name.None? <==> '=' !in piece
    ensures e.name.Some? ==> piece == e.name.value + "=" + e.value
  {
    var i := IndexOf(piece, '=');
    if i == |piece| then
      IndexOfAbsent(piece, '=');
      Entry(None, piece)
    else
      assert piece == piece[..i] + "=" + piece[i + 1..];
      Entry(Some(piece[..i]), piece[i + 1..])
  }

  /** `HttpUtility.ParseQueryString(query)`: one leading '?' is skipped, an empty query
      has no entries, and otherwise every '&'-separated piece is an entry, in order. */
  function ParseQueryString(query: string): (entries: seq<Entry>)
    ensures query == [] || query == "?" ==> entries == []
  {
    var q := if query != [] && query[0] == '?' then query[1..] else query;
    if q == [] then []
    else
      var pieces := Split(q, '&');
      seq(|pieces|, i requires 0 <= i < |pieces| => EntryOf(pieces[i]))
  }

  /** The collection's keys compare ignoring case. */
  predicate SameKey(key: Option<string>, name: string) {
    key.Some? && ToLower(key.value) == ToLower(name)
  }

  /** The values of the entries named `name`, in order. */
  function ValuesOf(entries: seq<Entry>, name: string): (vs: seq<string>)
    ensures |vs| <= |entries|
  {
    if entries == [] then []
    else (if SameKey(entries[0].name, name) then [entries[0].value] else []) + ValuesOf(entries[1..], name)
  }

  function JoinCommas(vs: seq<string>): string
    requires vs != []
  {
    if |vs| == 1 then vs[0] else vs[0] + "," + JoinCommas(vs[1..])
  }

  /** `collection[name]`: `null` when no entry has that name, otherwise the values of
      all entries with that name joined by commas. */
  function Lookup(entries: seq<Entry>, name: string): (r: Option<string>)
    ensures r.None? <==> forall i :: 0 <= i < |entries| ==> !SameKey(entries[i].name, name)
  {
    var vs := ValuesOf(entries, name);
    ValuesOfEmpty(entries, name);
    if vs == [] then None else Some(JoinCommas(vs))
  }

  lemma {:induction false} ValuesOfEmpty(entries: seq<Entry>, name: string)
    ensures ValuesOf(entries, name) == [] <==> forall i :: 0 <= i < |entries| ==> !SameKey(entries[i].name, name)
  {
    if entries != [] {
      ValuesOfEmpty(entries[1..], name);
      forall i | 1 <= i < |entries| ensures entries[i] == entries[1..][i - 1] {}
    }
  }

  /** When exactly one entry carries the name, the lookup yields its value as is. */
  lemma {:induction false} ValuesOfSingle(entries: seq<Entry>, name: string, k: int)
    requires 0 <= k < |entries| && SameKey(entries[k].name, name)
    requires forall i :: 0 <= i < |entries| && i != k ==> !SameKey(entries[i].name, name)
    ensures ValuesOf(entries, name) == [entries[k].value]
  {
    var rest := entries[1..];
    forall i | 0 <= i < |rest| ensures rest[i] == entries[i + 1] {}
    if k == 0 {
      ValuesOfEmpty(rest, name);
    } else {
      ValuesOfSingle(rest, name, k - 1);
    }
  }

  /** `req.Url.Query`: from the first '?' (inclusive) up to the fragment; empty when
      the URL has no query. */
  function UriQuery(url: string): (q: string)
    ensures q == [] || q[0] == '?'
  {
    var h := IndexOf(url, '#');
    var i := IndexOf(url[..h], '?');
    if i == h then [] else url[i..h]
  }

  /** The part of the URL before its query. */
  function UriPath(url: string): (p: string)
    ensures |p| <= |url| && p == url[..|p|]
  {
    var h := IndexOf(url, '#');
    url[..IndexOf(url[..h], '?')]
  }

  /** `ParseQueryString(req.Url.Query)[name]`: what the receiving function reads. */
  function QueryValue(url: string, name: string): Option<string> {
    Lookup(ParseQueryString(UriQuery(url)), name)
  }

  // ---------------------------------------------------------------- writing a query

  /** `name1=value1&name2=value2&...`, as the dashboard's interpolated URLs write them. */
  function Encode(pairs: seq<(string, string)>): (q: string)
    ensures pairs != [] ==> q != []
  {
    if pairs == [] then []
    else if |pairs| == 1 then pairs[0].0 + "=" + pairs[0].1
    else pairs[0].0 + "=" + pairs[0].1 + "&" + Encode(pairs[1..])
  }

  /** The pairs can be read back: names hold no '=' or '&', values no '&'. */
  predicate Encodable(pairs: seq<(string, string)>) {
    forall i :: 0 <= i < |pairs| ==> '=' !in pairs[i].0 && '&' !in pairs[i].0 && '&' !in pairs[i].1
  }

  /** No two names are equal ignoring case. */
  predicate DistinctNames(pairs: seq<(string, string)>) {
    forall i, j :: 0 <= i < j < |pairs| ==> ToLower(pairs[i].0) != ToLower(pairs[j].0)
  }

  lemma {:induction false} SplitEncode(pairs: seq<(string, string)>)
    requires pairs != [] && Encodable(pairs)
    ensures Split(Encode(pairs), '&') == seq(|pairs|, i requires 0 <= i < |pairs| => pairs[i].0 + "=" + pairs[i].1)
  {
    var first := pairs[0].0 + "=" + pairs[0].1;
    assert '&' !in first by {
      forall j | 0 <= j < |first| ensures first[j] != '&' {
        if j < |pairs[0].0| {
          assert first[j] == pairs[0].0[j];
        } else if j > |pairs[0].0| {
          assert first[j] == pairs[0].1[j - |pairs[0].0| - 1];
        }
      }
    }
    if |pairs| == 1 {
      SplitAbsent(first, '&');
    } else {
      var rest := pairs[1..];
      assert Encodable(rest) by {
        forall i | 0 <= i < |rest| ensures rest[i] == pairs[i + 1] {}
      }
      SplitEncode(rest);
      assert Encode(pairs) == first + ['&'] + Encode(rest);
      SplitAt(first, '&', Encode(rest));
    }
  }

  lemma EntryOfPair(name: string, value: string)
    requires '=' !in name
    ensures EntryOf(name + "=" + value) == Entry(Some(name), value)
  {
    var piece := name + "=" + value;
    IndexOfAt(name, '=', value);
    assert piece[..|name|] == name;
    assert piece[|name| + 1..] == value;
  }

  /** Reading an encoded query gives back the pairs as entries, in order. */
  lemma ParseEncode(pairs: seq<(string, string)>)
    requires pairs != [] && Encodable(pairs)
    ensures var entries := ParseQueryString("?" + Encode(pairs));
      && |entries| == |pairs|
      && forall i :: 0 <= i < |pairs| ==> entries[i] == Entry(Some(pairs[i].0), pairs[i].1)
  {
    var q := "?" + Encode(pairs);
    assert q[1..] == Encode(pairs);
    var pieces := Split(Encode(pairs), '&');
    SplitEncode(pairs);
    var entries := ParseQueryString(q);
    assert entries == seq(|pieces|, i requires 0 <= i < |pieces| => EntryOf(pieces[i]));
    forall i | 0 <= i < |pairs| ensures entries[i] == Entry(Some(pairs[i].0), pairs[i].1) {
      assert pieces[i] == pairs[i].0 + "=" + pairs[i].1;
      EntryOfPair(pairs[i].0, pairs[i].1);
    }
  }

  /** Every name of an encoded query reads back as its value, and a name that is not
      there reads back as `null`. */
  lemma QueryRoundTrip(pairs: seq<(string, string)>, name: string)
    requires pairs != [] && Encodable(pairs) && DistinctNames(pairs)
    ensures var r := Lookup(ParseQueryString("?" + Encode(pairs)), name);
      && (forall i :: 0 <= i < |pairs| && ToLower(pairs[i].0) == ToLower(name) ==> r == Some(pairs[i].1))
      && ((forall i :: 0 <= i < |pairs| ==> ToLower(pairs[i].0) != ToLower(name)) ==> r.None?)
  {
    var entries := ParseQueryString("?" + Encode(pairs));
    ParseEncode(pairs);
    forall k | 0 <= k < |pairs| && ToLower(pairs[k].0) == ToLower(name)
      ensures Lookup(entries, name) == Some(pairs[k].1)
    {
      ValuesOfSingle(entries, name, k);
    }
  }

  /** A URL whose base holds no '?' or '#' and whose query holds no '#' splits back
      into the two. */
  lemma UriParts(path: string, query: string)
    requires '?' !in path && '#' !in path && '#' !in query
    ensures UriQuery(path + "?" + query) == "?" + query
    ensures UriPath(path + "?" + query) == path
  {
    var url := path + "?" + query;
    assert '#' !in url by {
      forall j | 0 <= j < |url| ensures url[j] != '#' {
        if j < |path| {
          assert url[j] == path[j];
        } else if j > |path| {
          assert url[j] == query[j - |path| - 1];
        }
      }
    }
    IndexOfAbsent(url, '#');
    assert url[..|url|] == path + ['?'] + query;
    IndexOfAt(path, '?', query);
  }

  /** A URL without '?' or '#' has an empty query. */
  lemma UriWithoutQuery(path: string)
    requires '?' !in path && '#' !in path
    ensures UriQuery(path) == [] && UriPath(path) == path
  {
    IndexOfAbsent(path, '#');
    assert path[..|path|] == path;
    IndexOfAbsent(path, '?');
  }

  // ---------------------------------------------------------------- writing a URL

  /** A base URL with no query or fragment of its own. */
  predicate PlainBase(base: string) {
    '?' !in base && '#' !in base
  }

  /** Appending a literal path without delimiters keeps a base URL plain. */
  lemma PlainPath(base: string, path: string)
    requires PlainBase(base) && PlainBase(path)
    ensures PlainBase(base + path)
  {
  }

  /** The names a query can carry and read back. */
  predicate QueryName(name: string) {
    name != [] && '=' !in name && '&' !in name && '#' !in name
  }

  /** The values a query can carry and read back. */
  predicate QueryText(value: string) {
    '&' !in value && '#' !in value
  }

  /** A URL with a one-name query, read back by the receiving function, names the path
      and the value the dashboard wrote, and nothing under any other name. */
  lemma SingleQuery(prefix: string, name: string, value: string, other: string)
    requires PlainBase(prefix) && QueryName(name) && QueryText(value)
    ensures var url := prefix + "?" + name + "=" + value;
      && UriPath(url) == prefix
      && QueryValue(url, name) == Some(value)
      && (ToLower(other) != ToLower(name) ==> QueryValue(url, other).None?)
  {
    var pairs := [(name, value)];
    var q := Encode(pairs);
    assert q == name + "=" + value;
    assert '#' !in q;
    assert prefix + "?" + name + "=" + value == prefix + "?" + q;
    UriParts(prefix, q);
    QueryRoundTrip(pairs, name);
    QueryRoundTrip(pairs, other);
  }

  /** A URL with a two-name query reads back both values. */
  lemma PairQuery(prefix: string, n1: string, v1: string, n2: string, v2: string)
    requires PlainBase(prefix) && QueryName(n1) && QueryText(v1) && QueryName(n2) && QueryText(v2)
    requires ToLower(n1) != ToLower(n2)
    ensures var url := prefix + "?" + n1 + "=" + v1 + "&" + n2 + "=" + v2;
      && UriPath(url) == prefix
      && QueryValue(url, n1) == Some(v1)
      && QueryValue(url, n2) == Some(v2)
  {
    var pairs := [(n1, v1), (n2, v2)];
    var q := Encode(pairs);
    assert Encode(pairs[1..]) == n2 + "=" + v2;
    assert q == n1 + "=" + v1 + "&" + n2 + "=" + v2;
    assert '#' !in q;
    assert prefix + "?" + n1 + "=" + v1 + "&" + n2 + "=" + v2 == prefix + "?" + q;
    UriParts(prefix, q);
    QueryRoundTrip(pairs, n1);
    QueryRoundTrip(pairs, n2);
  }

  /** Writing `?name=` as one literal or as three pieces gives the same URL. */
  lemma QueryLead(prefix: string, name: string, value: string)
    ensures prefix + "?" + name + "=" + value == prefix + ("?" + name + "=") + value
  {
  }

  /** The same for a second name after `&`. */
  lemma PairLead(prefix: string, n1: string, v1: string, n2: string, v2: string)
    ensures prefix + "?" + n1 + "=" + v1 + "&" + n2 + "=" + v2
         == prefix + ("?" + n1 + "=") + v1 + ("&" + n2 + "=") + v2
  {
  }
}
