/**
 * The target URL of the form: the base URL, then "/viewform?", then one
 * `key=value` segment per application field, in insertion order, joined by
 * '&'. A reference parser (split on '&', then cut each segment at its first
 * '=') recovers the fields from the URL.
 */
module Query {
  const ViewForm: string := "/viewform"

  /** Application data: (key, value) pairs in the order they were configured. */
  type Fields = seq<(string, string)>

  function Segment(key: string, value: string): (s: string)
    ensures |s| == |key| + 1 + |value|
    ensures s[..|key|] == key && s[|key|] == '=' && s[|key| + 1..] == value
  {
    key + "=" + value
  }

  /** One segment per field, in order. */
  function Segments(data: Fields): (segs: seq<string>)
    ensures |segs| == |data|
    ensures forall i :: 0 <= i < |data| ==> segs[i] == Segment(data[i].0, data[i].1)
  {
    if data == [] then [] else [Segment(data[0].0, data[0].1)] + Segments(data[1..])
  }

  /** The parts with `sep` between consecutive ones (none before the first, none after the last). */
  function Join(sep: string, parts: seq<string>): (s: string)
    ensures parts == [] ==> s == []
    ensures parts != [] ==> |s| == TotalLength(parts) + (|parts| - 1) * |sep|
    ensures parts != [] ==> s[..|parts[0]|] == parts[0]
  {
    if parts == [] then []
    else if |parts| == 1 then parts[0]
    else parts[0] + sep + Join(sep, parts[1..])
  }

  function TargetUrl(baseUrl: string, data: Fields): (url: string)
    ensures |url| >= |baseUrl + ViewForm + "?"|
    ensures url[..|baseUrl + ViewForm + "?"|] == baseUrl + ViewForm + "?"
    ensures data == [] <==> url == baseUrl + ViewForm + "?"
  {
    var prefix := baseUrl + ViewForm + "?";
    var query := Join("&", Segments(data));
    prefix + query
  }

  /** The part of a target URL after "/viewform?". */
  function QueryPart(baseUrl: string, url: string): (q: string)
    requires |url| >= |baseUrl + ViewForm + "?"|
  {
    url[|baseUrl + ViewForm + "?"|..]
  }

  // ---------------------------------------------------------------------------
  // Counting characters

  function Count(c: char, s: string): (n: nat)
    ensures n <= |s|
    ensures n == 0 <==> c !in s
  {
    if s == [] then 0 else (if s[0] == c then 1 else 0) + Count(c, s[1..])
  }

  function CountAll(c: char, parts: seq<string>): (n: nat)
  {
    if parts == [] then 0 else Count(c, parts[0]) + CountAll(c, parts[1..])
  }

  function TotalLength(parts: seq<string>): (n: nat)
  {
    if parts == [] then 0 else |parts[0]| + TotalLength(parts[1..])
  }

  lemma {:induction false} CountAppend(c: char, a: string, b: string)
    ensures Count(c, a + b) == Count(c, a) + Count(c, b)
  {
    if a == [] {
      assert a + b == b;
    } else {
      assert (a + b)[1..] == a[1..] + b;
      CountAppend(c, a[1..], b);
    }
  }

  /** Joining n parts with a one-character separator adds exactly n - 1 of it. */
  lemma {:induction false} JoinSeparators(c: char, parts: seq<string>)
    requires parts != []
    ensures Count(c, Join([c], parts)) == |parts| - 1 + CountAll(c, parts)
  {
    if |parts| > 1 {
      JoinSeparators(c, parts[1..]);
      CountAppend(c, parts[0], [c]);
      CountAppend(c, parts[0] + [c], Join([c], parts[1..]));
    }
  }

  // ---------------------------------------------------------------------------
  // Reference parser

  /** Splits at every occurrence of `c`, keeping empty pieces, as str.split does. */
  function Split(s: string, c: char): (parts: seq<string>)
    ensures |parts| == Count(c, s) + 1
    ensures forall i :: 0 <= i < |parts| ==> c !in parts[i]
  {
    if s == [] then [[]]
    else
      var rest := Split(s[1..], c);
      if s[0] == c then [[]] + rest else [[s[0]] + rest[0]] + rest[1..]
  }

  /** Cuts at the first `c`: the text before it and the text after it. */
  function Cut(s: string, c: char): (r: (string, string))
    ensures c !in s ==> r == (s, [])
    ensures c in s ==> s == r.0 + [c] + r.1 && c !in r.0
  {
    if s == [] then ([], [])
    else if s[0] == c then ([], s[1..])
    else
      var r := Cut(s[1..], c);
      assert s == [s[0]] + s[1..];
      ([s[0]] + r.0, r.1)
  }

  function ParsePairs(parts: seq<string>): (data: Fields)
    ensures |data| == |parts|
    ensures forall i :: 0 <= i < |parts| ==> data[i] == Cut(parts[i], '=')
  {
    if parts == [] then [] else [Cut(parts[0], '=')] + ParsePairs(parts[1..])
  }

  /** The fields named by a query string; the empty query names none. */
  function ParseQuery(q: string): (data: Fields)
  {
    if q == [] then [] else ParsePairs(Split(q, '&'))
  }

  lemma {:induction false} SplitWithout(s: string, c: char)
    requires c !in s
    ensures Split(s, c) == [s]
  {
    if s != [] {
      SplitWithout(s[1..], c);
      assert [s[0]] + s[1..] == s;
    }
  }

  lemma {:induction false} SplitAfter(p: string, rest: string, c: char)
    requires c !in p
    ensures Split(p + [c] + rest, c) == [p] + Split(rest, c)
  {
    var s := p + [c] + rest;
    if p == [] {
      assert s[1..] == rest;
    } else {
      assert s[1..] == p[1..] + [c] + rest;
      SplitAfter(p[1..], rest, c);
      assert [p[0]] + p[1..] == p;
    }
  }

  /** Splitting a join recovers the parts when no part holds the separator. */
  lemma {:induction false} SplitJoin(parts: seq<string>, c: char)
    requires parts != []
    requires forall i :: 0 <= i < |parts| ==> c !in parts[i]
    ensures Split(Join([c], parts), c) == parts
  {
    if |parts| == 1 {
      SplitWithout(parts[0], c);
    } else {
      SplitJoin(parts[1..], c);
      SplitAfter(parts[0], Join([c], parts[1..]), c);
      assert [parts[0]] + parts[1..] == parts;
    }
  }

  lemma {:induction false} CutSegment(key: string, value: string)
    requires '=' !in key
    ensures Cut(Segment(key, value), '=') == (key, value)
  {
    if key == [] {
      assert Segment(key, value)[1..] == value;
    } else {
      var s := Segment(key, value);
      assert s[0] == key[0] && s[0] != '=';
      assert s[1..] == Segment(key[1..], value);
      CutSegment(key[1..], value);
      assert [key[0]] + key[1..] == key;
    }
  }

  /** Fields whose keys hold neither '&' nor '=', and whose values hold no '&'. */
  predicate Plain(data: Fields) {
    forall i :: 0 <= i < |data| ==> '&' !in data[i].0 && '=' !in data[i].0 && '&' !in data[i].1
  }

  /**
   * The query of a target URL names the configured fields, in order, and holds
   * one '&' fewer than there are fields.
   */
  lemma {:induction false} TargetUrlRoundTrip(baseUrl: string, data: Fields)
    requires Plain(data)
    ensures ParseQuery(QueryPart(baseUrl, TargetUrl(baseUrl, data))) == data
    ensures data != [] ==> Count('&', QueryPart(baseUrl, TargetUrl(baseUrl, data))) == |data| - 1
  {
    var segs := Segments(data);
    var q := QueryPart(baseUrl, TargetUrl(baseUrl, data));
    assert q == Join("&", segs);
    if data != [] {
      forall i | 0 <= i < |segs| ensures '&' !in segs[i] {
        CountAppend('&', data[i].0 + "=", data[i].1);
        CountAppend('&', data[i].0, "=");
      }
      SplitJoin(segs, '&');
      JoinSeparators('&', segs);
      NoSeparatorCount('&', segs);
      assert q != [];
      forall i | 0 <= i < |data| ensures ParsePairs(segs)[i] == data[i] {
        CutSegment(data[i].0, data[i].1);
      }
    }
  }

  lemma {:induction false} NoSeparatorCount(c: char, parts: seq<string>)
    requires forall i :: 0 <= i < |parts| ==> c !in parts[i]
    ensures CountAll(c, parts) == 0
  {
    if parts != [] {
      NoSeparatorCount(c, parts[1..]);
    }
  }
}
