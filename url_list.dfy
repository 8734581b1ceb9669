/** The resolved request list and its text form (url_list.go). */
module UrlList {
  import opened Base
  import opened GoStrings

  /** An `http.Cookie` as far as the converter fills it in. */
  datatype Cookie = Cookie(name: string, value: string, path: string)

  /** A request URL: the base URL of the chosen server, the resolved path,
      and the query parameters in the order they were added. */
  datatype Url = Url(base: string, path: string, query: seq<(string, string)>)

  /** `name=value` pairs joined with `&`. */
  function EncodeQuery(query: seq<(string, string)>): string {
    if |query| == 0 then ""
    else if |query| == 1 then query[0].0 + "=" + query[0].1
    else query[0].0 + "=" + query[0].1 + "&" + EncodeQuery(query[1..])
  }

  /** `URL.String()`: base, path, then `?query` when there is a query. */
  function UrlString(u: Url): string {
    u.base + u.path + (if |u.query| == 0 then "" else "?" + EncodeQuery(u.query))
  }

  /** One request of the plan (`urlData`). */
  datatype UrlData = UrlData(url: Url, verb: string, mediaType: string, payload: string, cookies: seq<Cookie>)

  /** `urlData.String`: the URL alone for GET, otherwise the URL, the method
      and the payload separated by single spaces. */
  function Line(d: UrlData): (r: string)
    ensures d.verb == "GET" ==> r == UrlString(d.url)
    ensures d.verb != "GET" ==> r == UrlString(d.url) + " " + d.verb + " " + d.payload
  {
    if d.verb == "GET" then UrlString(d.url)
    else UrlString(d.url) + " " + d.verb + " " + d.payload
  }

  /** A line of a non-GET entry splits back into its URL, method and payload
      (the payload may itself hold spaces) when the URL and the method hold
      none. */
  lemma LineSplitsBack(d: UrlData)
    requires d.verb != "GET"
    requires !Contains(UrlString(d.url), " ") && !Contains(d.verb, " ")
    ensures SplitN(Line(d), " ", 3) == [UrlString(d.url), d.verb, d.payload]
  {
    var u := UrlString(d.url);
    var rest := d.verb + " " + d.payload;
    assert Line(d) == u + " " + rest;
    SplitNAfter(u, " ", rest, 3);
    SplitNAfter(d.verb, " ", d.payload, 2);
  }

  // ---------------------------------------------------------------------
  // mapSlice

  /** `mapSlice` specialised to string results: `f` of each element in
      order, leaving out every empty string (the zero value). */
  function Collect<T>(data: seq<T>, f: T -> string): seq<string> {
    if |data| == 0 then []
    else
      var v := f(data[|data| - 1]);
      Collect(data[..|data| - 1], f) + (if v == "" then [] else [v])
  }

  method MapSlice<T>(data: seq<T>, f: T -> string) returns (res: seq<string>)
    ensures res == Collect(data, f)
  {
    res := [];
    var i := 0;
    while i < |data|
      invariant 0 <= i <= |data|
      invariant res == Collect(data[..i], f)
    {
      var v := f(data[i]);
      if v != "" {
        res := res + [v];
      }
      assert data[..i + 1][..i] == data[..i];
      i := i + 1;
    }
    assert data[..i] == data;
  }

  /** Collecting preserves order: the result for `a + b` is the result for
      `a` followed by the result for `b`. */
  lemma {:induction false} CollectAppend<T>(a: seq<T>, b: seq<T>, f: T -> string)
    ensures Collect(a + b, f) == Collect(a, f) + Collect(b, f)
    decreases |b|
  {
    if |b| > 0 {
      assert (a + b)[..|a + b| - 1] == a + b[..|b| - 1];
      CollectAppend(a, b[..|b| - 1], f);
    } else {
      assert a + b == a;
    }
  }

  /** Nothing empty survives, and the result is never longer than the
      input. */
  lemma {:induction false} CollectElements<T>(data: seq<T>, f: T -> string)
    ensures forall k :: 0 <= k < |Collect(data, f)| ==> Collect(data, f)[k] != ""
    ensures |Collect(data, f)| <= |data|
  {
    if |data| > 0 {
      CollectElements(data[..|data| - 1], f);
    }
  }

  /** Every survivor is the image of an element: `j` is its position in
      the input. */
  lemma {:induction false} CollectSource<T>(data: seq<T>, f: T -> string, k: nat) returns (j: nat)
    requires k < |Collect(data, f)|
    ensures j < |data| && Collect(data, f)[k] == f(data[j])
  {
    var init := data[..|data| - 1];
    if k < |Collect(init, f)| {
      j := CollectSource(init, f, k);
    } else {
      j := |data| - 1;
    }
  }

  /** When `f` never gives the empty string, nothing is dropped. */
  lemma {:induction false} CollectKeepsAll<T>(data: seq<T>, f: T -> string)
    requires forall k :: 0 <= k < |data| ==> f(data[k]) != ""
    ensures |Collect(data, f)| == |data|
    ensures forall k :: 0 <= k < |data| ==> Collect(data, f)[k] == f(data[k])
  {
    if |data| > 0 {
      CollectKeepsAll(data[..|data| - 1], f);
    }
  }

  // ---------------------------------------------------------------------
  // uniqueSlice

  /** `uniqueSlice`: each distinct element once, at its first occurrence. */
  function Dedup<T(==)>(data: seq<T>): seq<T> {
    if |data| == 0 then []
    else
      var seen := Dedup(data[..|data| - 1]);
      if data[|data| - 1] in seen then seen else seen + [data[|data| - 1]]
  }

  method UniqueSlice<T(==)>(data: seq<T>) returns (res: seq<T>)
    ensures res == Dedup(data)
  {
    var filter: map<T, bool> := map[];
    res := [];
    var i := 0;
    while i < |data|
      invariant 0 <= i <= |data|
      invariant res == Dedup(data[..i])
      invariant forall x :: x in filter <==> x in res
    {
      var e := data[i];
      if e !in filter {
        filter := filter[e := true];
        res := res + [e];
      }
      assert data[..i + 1][..i] == data[..i];
      i := i + 1;
    }
    assert data[..i] == data;
  }

  /** The index of the first occurrence of `x` in `s`. */
  function FirstIndex<T(==)>(s: seq<T>, x: T): (r: nat)
    requires x in s
    ensures r < |s| && s[r] == x && x !in s[..r]
  {
    if s[0] == x then 0 else FirstIndex(s[1..], x) + 1
  }

  lemma FirstIndexInPrefix<T>(s: seq<T>, n: nat, x: T)
    requires n <= |s| && x in s[..n]
    ensures FirstIndex(s, x) == FirstIndex(s[..n], x)
  {
    var i := FirstIndex(s[..n], x);
    assert s[..n][..i] == s[..i];
  }

  /** The first occurrence is no later than any occurrence. */
  lemma FirstIndexAtMost<T>(s: seq<T>, x: T, n: nat)
    requires n < |s| && s[n] == x
    ensures FirstIndex(s, x) <= n
  {
    var r := FirstIndex(s, x);
    assert s[n] in s[..n + 1];
  }

  /** `uniqueSlice` keeps exactly the elements of its input, each once, in
      the order of their first occurrences, and never grows the input. */
  lemma {:induction false} DedupSpec<T>(data: seq<T>)
    ensures forall x :: x in Dedup(data) ==> x in data
    ensures forall x :: x in data ==> x in Dedup(data)
    ensures forall i, j :: 0 <= i < j < |Dedup(data)| ==> Dedup(data)[i] != Dedup(data)[j]
    ensures forall i, j :: 0 <= i < j < |Dedup(data)| ==>
              FirstIndex(data, Dedup(data)[i]) < FirstIndex(data, Dedup(data)[j])
    ensures |Dedup(data)| <= |data|
  {
    if |data| > 0 {
      var n := |data| - 1;
      var init := data[..n];
      var last := data[n];
      DedupSpec(init);
      var u := Dedup(init);
      assert data == init + [last];
      forall x | x in u ensures x in init && FirstIndex(data, x) == FirstIndex(init, x) {
        FirstIndexInPrefix(data, n, x);
      }
      if last !in u {
        assert last !in init;
        assert FirstIndex(data, last) == n;
      }
    }
  }

  // ---------------------------------------------------------------------
  // Rendering the list

  /** `urlList.String`. */
  function ListString(l: seq<UrlData>): string {
    Join(Collect(l, Line), "\n")
  }

  /** The line an entry contributes to the file of media type `mediaType`:
      its own line when its media type is that one or unset, else nothing. */
  function LineFor(mediaType: string): UrlData -> string {
    (d: UrlData) => if d.mediaType != mediaType && d.mediaType != "" then "" else Line(d)
  }

  /** `urlList.StringByMediaType`. */
  function StringByMediaType(l: seq<UrlData>, mediaType: string): string {
    Join(Collect(l, LineFor(mediaType)), "\n")
  }

  function MediaTypeOf(d: UrlData): string {
    d.mediaType
  }

  /** `urlList.MediaTypes`. */
  function MediaTypes(l: seq<UrlData>): seq<string> {
    Dedup(Collect(l, MediaTypeOf))
  }

  /** The entries kept for one media type, in order. */
  function Selected(l: seq<UrlData>, mediaType: string): seq<UrlData> {
    if |l| == 0 then []
    else
      var d := l[|l| - 1];
      Selected(l[..|l| - 1], mediaType) + (if d.mediaType == mediaType || d.mediaType == "" then [d] else [])
  }

  /** When no entry renders as the empty string (a GET entry with an empty
      URL would), the list text is every entry's line, in list order,
      joined with newlines. */
  lemma ListStringLines(l: seq<UrlData>)
    requires forall k :: 0 <= k < |l| ==> Line(l[k]) != ""
    ensures ListString(l) == Join(seq(|l|, k requires 0 <= k < |l| => Line(l[k])), "\n")
  {
    CollectKeepsAll(l, Line);
    assert Collect(l, Line) == seq(|l|, k requires 0 <= k < |l| => Line(l[k]));
  }

  /** The text for one media type holds the lines of exactly the entries
      whose media type is that one or unset, in order, and no blank line
      for the others. */
  lemma {:induction false} StringByMediaTypeSelects(l: seq<UrlData>, mediaType: string)
    ensures Collect(l, LineFor(mediaType)) == Collect(Selected(l, mediaType), Line)
    ensures forall k :: 0 <= k < |Collect(l, LineFor(mediaType))| ==> Collect(l, LineFor(mediaType))[k] != ""
    ensures StringByMediaType(l, mediaType) == Join(Collect(Selected(l, mediaType), Line), "\n")
  {
    CollectElements(l, LineFor(mediaType));
    if |l| > 0 {
      var init := l[..|l| - 1];
      var d := l[|l| - 1];
      StringByMediaTypeSelects(init, mediaType);
      if d.mediaType == mediaType || d.mediaType == "" {
        assert LineFor(mediaType)(d) == Line(d);
        CollectAppend(Selected(init, mediaType), [d], Line);
        assert [d][..0] == [];
      } else {
        assert LineFor(mediaType)(d) == "";
        assert Collect(l, LineFor(mediaType)) == Collect(init, LineFor(mediaType));
        assert Selected(l, mediaType) == Selected(init, mediaType);
      }
    }
  }

  /** Every entry of the `j`-th media type comes after some entry of each
      earlier one. */
  lemma EarlierTypeFirst(l: seq<UrlData>, i: nat, j: nat, k: nat) returns (p: nat)
    requires i < j < |MediaTypes(l)| && k < |l| && l[k].mediaType == MediaTypes(l)[j]
    ensures p < k && l[p].mediaType == MediaTypes(l)[i]
  {
    var f := MediaTypeOf;
    var c := Collect(l, f);
    var m := MediaTypes(l);
    DedupSpec(c);
    CollectElements(l, f);
    assert m[j] in c;
    var pre := Collect(l[..k], f);
    CollectAppend(l[..k + 1], l[k + 1..], f);
    assert l == l[..k + 1] + l[k + 1..];
    assert l[..k + 1][..k] == l[..k];
    assert Collect(l[..k + 1], f) == pre + [m[j]];
    assert c[|pre|] == m[j];
    FirstIndexAtMost(c, m[j], |pre|);
    var q := FirstIndex(c, m[i]);
    assert c[q] == pre[q];
    p := CollectSource(l[..k], f, q);
  }

  /** The media types are the distinct non-empty media types of the list,
      in order of first appearance. */
  lemma MediaTypesSpec(l: seq<UrlData>)
    ensures forall x :: x in MediaTypes(l) ==> x != "" && exists k :: 0 <= k < |l| && l[k].mediaType == x
    ensures forall k :: 0 <= k < |l| && l[k].mediaType != "" ==> l[k].mediaType in MediaTypes(l)
    ensures forall i, j :: 0 <= i < j < |MediaTypes(l)| ==> MediaTypes(l)[i] != MediaTypes(l)[j]
    ensures forall i, j, k :: 0 <= i < j < |MediaTypes(l)| && 0 <= k < |l| && l[k].mediaType == MediaTypes(l)[j] ==>
              exists p :: 0 <= p < k && l[p].mediaType == MediaTypes(l)[i]
  {
    forall i, j, k | 0 <= i < j < |MediaTypes(l)| && 0 <= k < |l| && l[k].mediaType == MediaTypes(l)[j]
      ensures exists p :: 0 <= p < k && l[p].mediaType == MediaTypes(l)[i]
    {
      var p := EarlierTypeFirst(l, i, j, k);
    }
    var f := MediaTypeOf;
    var c := Collect(l, f);
    CollectElements(l, f);
    DedupSpec(c);
    forall x | x in MediaTypes(l)
      ensures x != "" && exists k :: 0 <= k < |l| && l[k].mediaType == x
    {
      var i :| 0 <= i < |c| && c[i] == x;
      var j := CollectSource(l, f, i);
      assert l[j].mediaType == x;
    }
    forall k | 0 <= k < |l| && l[k].mediaType != ""
      ensures l[k].mediaType in c
    {
      var x := l[k].mediaType;
      CollectAppend(l[..k + 1], l[k + 1..], f);
      assert l == l[..k + 1] + l[k + 1..];
      assert l[..k + 1][..k] == l[..k];
      assert Collect(l[..k + 1], f) == Collect(l[..k], f) + [x];
    }
  }

  /** With no media type set on any entry, there is no media type at all
      and the text for any media type is the whole list. */
  lemma {:induction false} UnsetMediaTypes(l: seq<UrlData>, mediaType: string)
    requires forall k :: 0 <= k < |l| ==> l[k].mediaType == ""
    ensures MediaTypes(l) == []
    ensures StringByMediaType(l, mediaType) == ListString(l)
  {
    MediaTypesSpec(l);
    if |MediaTypes(l)| > 0 {
      assert MediaTypes(l)[0] in MediaTypes(l);
    }
    SelectedAll(l, mediaType);
    StringByMediaTypeSelects(l, mediaType);
  }

  lemma {:induction false} SelectedAll(l: seq<UrlData>, mediaType: string)
    requires forall k :: 0 <= k < |l| ==> l[k].mediaType == ""
    ensures Selected(l, mediaType) == l
  {
    if |l| > 0 {
      SelectedAll(l[..|l| - 1], mediaType);
      assert l == l[..|l| - 1] + [l[|l| - 1]];
    }
  }
}
