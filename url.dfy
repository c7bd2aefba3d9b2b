/**
 * Reading a search parameter from a request URL, as
 * `new URL(request.url).searchParams.get(name)` does for the plain ASCII
 * names and values used here.
 */
module Url {
  import opened Wrappers

  /** The first position of `c` in `s`, or `|s|` when there is none. */
  function IndexOf(s: string, c: char): (r: nat)
    ensures r <= |s|
    ensures c !in s[..r]
    ensures r < |s| ==> s[r] == c
    ensures c !in s ==> r == |s|
  {
    if s == [] then 0
    else if s[0] == c then 0
    else
      var r := 1 + IndexOf(s[1..], c);
      assert s[..r] == [s[0]] + s[1..][..r - 1];
      r
  }

  lemma IndexOfAfter(a: string, b: string, c: char)
    requires c !in a && b != [] && b[0] == c
    ensures IndexOf(a + b, c) == |a|
  {
    var s := a + b;
    assert forall i :: 0 <= i < |a| ==> s[i] == a[i];
    assert s[|a|] == c;
    assert forall r :: |a| < r <= |s| ==> s[..r][|a|] == c;
  }

  /** `parts.join(sep)`: the pieces with one separator between each two. */
  function Join(parts: seq<string>, sep: char): string
    decreases |parts|
  {
    if parts == [] then ""
    else if |parts| == 1 then parts[0]
    else parts[0] + [sep] + Join(parts[1..], sep)
  }

  /** Joining a first piece onto a non-empty rest puts one separator between them. */
  lemma JoinCons(a: string, rest: seq<string>, sep: char)
    requires rest != []
    ensures Join([a] + rest, sep) == a + [sep] + Join(rest, sep)
    ensures forall k :: 1 <= k < |[a] + rest| ==> ([a] + rest)[k] == rest[k - 1]
  {
    assert ([a] + rest)[1..] == rest;
  }

  /** `s.split(sep)`, keeping empty pieces: the separator-free pieces that join back to `s`. */
  function Split(s: string, sep: char): (parts: seq<string>)
    ensures |parts| >= 1
    ensures forall k :: 0 <= k < |parts| ==> sep !in parts[k]
    ensures Join(parts, sep) == s
    ensures sep !in s ==> parts == [s]
    decreases |s|
  {
    var i := IndexOf(s, sep);
    if i == |s| then
      assert s[..i] == s;
      [s]
    else
      var rest := Split(s[i + 1..], sep);
      JoinCons(s[..i], rest, sep);
      assert s == s[..i] + [sep] + s[i + 1..];
      [s[..i]] + rest
  }

  /** The value of the first `name=value` pair of `pairs` whose name is `name`; a pair without `=` has the empty value. */
  function Lookup(pairs: seq<string>, name: string): Option<string> {
    if pairs == [] then None
    else
      var eq := IndexOf(pairs[0], '=');
      if pairs[0][..eq] == name then
        Some(if eq < |pairs[0]| then pairs[0][eq + 1..] else "")
      else Lookup(pairs[1..], name)
  }

  /** The query of a URL: what follows its first `?`, up to a `#`. */
  function Query(url: string): Option<string> {
    var base := url[..IndexOf(url, '#')];
    var q := IndexOf(base, '?');
    if q == |base| then None else Some(base[q + 1..])
  }

  function SearchParam(url: string, name: string): Option<string> {
    match Query(url)
    case None => None
    case Some(query) => Lookup(Split(query, '&'), name)
  }

  /** A URL without `?` has no parameters. */
  lemma NoQueryNoParam(url: string, name: string)
    requires '?' !in url
    ensures SearchParam(url, name) == None
  {
    var base := url[..IndexOf(url, '#')];
    assert forall i :: 0 <= i < |base| ==> base[i] == url[i];
  }

  /** The query of `path?query` is `query` when the path has no `?` and neither part a `#`. */
  lemma QueryAfterMark(path: string, query: string)
    requires '?' !in path && '#' !in path && '#' !in query
    ensures Query(path + "?" + query) == Some(query)
  {
    var url := path + "?" + query;
    assert url == path + ("?" + query);
    assert '#' !in url;
    assert url[..|url|] == url;
    IndexOfAfter(path, "?" + query, '?');
    assert url[|path| + 1..] == query;
  }

  /** A query that is the single pair `name=value` has `value` for `name`. */
  lemma LookupSinglePair(name: string, value: string)
    requires '&' !in name && '&' !in value && '=' !in name
    ensures Lookup(Split(name + "=" + value, '&'), name) == Some(value)
  {
    var pair := name + "=" + value;
    assert '&' !in pair;
    assert pair == name + ("=" + value);
    IndexOfAfter(name, "=" + value, '=');
    assert pair[..|name|] == name;
    assert pair[|name| + 1..] == value;
  }

  /**
   * `path?name=value` carries `value` for `name` when neither the path nor
   * the value holds a `?`, `#`, `&` or `=` that would split them otherwise.
   */
  lemma SingleParam(path: string, name: string, value: string)
    requires '?' !in path && '#' !in path && '#' !in name && '#' !in value
    requires '&' !in name && '&' !in value && '=' !in name
    ensures SearchParam(path + "?" + name + "=" + value, name) == Some(value)
  {
    var pair := name + "=" + value;
    assert path + "?" + name + "=" + value == path + "?" + pair;
    assert '#' !in pair;
    QueryAfterMark(path, pair);
    LookupSinglePair(name, value);
  }
}
