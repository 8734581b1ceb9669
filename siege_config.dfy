/** The Siege configuration file and its `key = value` rendering
    (siege_config.go). The reflection walk over the struct becomes an
    explicit table of the fields in declaration order. */
module Siege {
  import opened Base
  import opened GoStrings
  import UrlList

  /** `SiegeCreds`. */
  datatype Creds = Creds(user: string, password: string, realm: string)

  const NoCreds := Creds("", "", "")

  /** `SiegeCreds.String`: `user:pass:realm`, or `user:pass` without a realm. */
  function CredsString(c: Creds): (r: string)
    ensures c.realm != "" ==> r == c.user + ":" + c.password + ":" + c.realm
    ensures c.realm == "" ==> r == c.user + ":" + c.password
  {
    if c.realm != "" then c.user + ":" + c.password + ":" + c.realm
    else c.user + ":" + c.password
  }

  /** The rendering cuts back into its parts at the colons when the user
      and the password hold none (the realm may). */
  lemma CredsSplitBack(c: Creds)
    requires !Contains(c.user, ":") && !Contains(c.password, ":")
    ensures SplitN(CredsString(c), ":", 3) == [c.user, c.password] + (if c.realm != "" then [c.realm] else [])
  {
    if c.realm != "" {
      var rest := c.password + ":" + c.realm;
      assert CredsString(c) == c.user + ":" + rest;
      SplitNAfter(c.user, ":", rest, 3);
      SplitNAfter(c.password, ":", c.realm, 2);
    } else {
      SplitNAfter(c.user, ":", c.password, 3);
      FindSpec(c.password, ":");
    }
  }

  /** `SiegeBoolTF.String`. */
  function BoolTF(b: bool): (r: string)
    ensures r == "true" <==> b
    ensures r == "false" <==> !b
  {
    if b then "true" else "false"
  }

  /** `SiegeBoolOO.String`. */
  function BoolOO(b: bool): (r: string)
    ensures r == "on" <==> b
    ensures r == "off" <==> !b
  {
    if b then "on" else "off"
  }

  // ---------------------------------------------------------------------
  // Struct tags

  /** `siegeConfigFieldOptions`. */
  datatype FieldOptions = FieldOptions(omitEmpty: bool)

  /** `parseOpts`: `omitempty` is on when some option is exactly that word,
      which is the options half of `ParseTag` below. */
  method ParseOpts(opts: seq<string>) returns (out: FieldOptions)
    ensures out.omitEmpty <==> exists k :: 0 <= k < |opts| && opts[k] == "omitempty"
    ensures out == FieldOptions("omitempty" in opts)
  {
    out := FieldOptions(false);
    var i := 0;
    while i < |opts|
      invariant 0 <= i <= |opts|
      invariant out.omitEmpty <==> exists k :: 0 <= k < i && opts[k] == "omitempty"
    {
      if opts[i] == "omitempty" {
        out := out.(omitEmpty := true);
      }
      i := i + 1;
    }
  }

  /** `parseTag`: the name is the text before the first comma, and the
      options are the comma-separated words after it, read as `ParseOpts`
      reads them (the membership its postcondition states). */
  function ParseTag(tag: string): (string, FieldOptions) {
    var parts := Split(tag, ",");
    (parts[0], FieldOptions("omitempty" in parts[1..]))
  }

  /** The name of a tag is its text up to the first comma, and holds no
      comma; a tag without a comma has no options. */
  lemma ParseTagName(tag: string)
    ensures Find(tag, ",").None? ==> ParseTag(tag).0 == tag && !ParseTag(tag).1.omitEmpty
    ensures Find(tag, ",").Some? ==> ParseTag(tag).0 == tag[..Find(tag, ",").value]
    ensures !Contains(ParseTag(tag).0, ",")
  {
    SplitPiecesFree(tag, ",");
  }

  /** A string none of whose characters is `c` does not contain `[c]`. */
  lemma Lacks(s: string, c: char)
    requires forall i :: 0 <= i < |s| ==> s[i] != c
    ensures !Contains(s, [c])
  {
    forall i: nat | i + 1 <= |s|
      ensures !OccursAt(s, [c], i)
    {
      assert s[i..i + 1] == [s[i]];
    }
  }

  /** A comma-free tag is a bare name with the option off. */
  lemma BareTag(name: string)
    requires !Contains(name, ",")
    ensures ParseTag(name) == (name, FieldOptions(false))
  {
    FindSpec(name, ",");
  }

  /** A comma-free name followed by `,omitempty` is that name with the
      option on. */
  lemma OmitEmptyTag(name: string)
    requires !Contains(name, ",")
    ensures ParseTag(name + ",omitempty") == (name, FieldOptions(true))
  {
    Lacks("omitempty", ',');
    FindSpec("omitempty", ",");
    SplitAfter(name, ",", "omitempty");
    assert name + ",omitempty" == name + "," + "omitempty";
    assert Split("omitempty", ",") == ["omitempty"];
    assert Split(name + ",omitempty", ",")[1..] == ["omitempty"];
  }

  // ---------------------------------------------------------------------
  // Header keys (`http.Header.Add` stores under the canonical key)

  /** A byte allowed in a header field name. */
  predicate TokenChar(c: char) {
    ('a' <= c <= 'z') || ('A' <= c <= 'Z') || ('0' <= c <= '9') || c in "!#$%&'*+-.^_`|~"
  }

  function UpperChar(c: char): char {
    if 'a' <= c <= 'z' then (c as int - 32) as char else c
  }

  function LowerChar(c: char): char {
    if 'A' <= c <= 'Z' then (c as int + 32) as char else c
  }

  /** Upper-case the first letter and every letter after a dash, lower-case
      the others. */
  function Capitalize(s: string, upper: bool): (r: string)
    ensures |r| == |s|
  {
    if |s| == 0 then ""
    else [if upper then UpperChar(s[0]) else LowerChar(s[0])] + Capitalize(s[1..], s[0] == '-')
  }

  /** `textproto.CanonicalMIMEHeaderKey`: keys holding a byte that cannot
      appear in a header name are left alone. */
  function CanonicalKey(s: string): (r: string)
    ensures |r| == |s|
  {
    if forall i :: 0 <= i < |s| ==> TokenChar(s[i]) then Capitalize(s, true) else s
  }

  lemma {:induction false} CapitalizeIdempotent(s: string, upper: bool)
    ensures Capitalize(Capitalize(s, upper), upper) == Capitalize(s, upper)
    ensures forall i :: 0 <= i < |s| && TokenChar(s[i]) ==> TokenChar(Capitalize(s, upper)[i])
  {
    if |s| > 0 {
      var c := Capitalize(s, upper);
      CapitalizeIdempotent(s[1..], s[0] == '-');
      assert c[1..] == Capitalize(s[1..], s[0] == '-');
      assert c[0] == '-' <==> s[0] == '-';
      forall i | 0 <= i < |s| && TokenChar(s[i]) ensures TokenChar(c[i]) {
        if i > 0 {
          assert c[i] == c[1..][i - 1];
          assert s[i] == s[1..][i - 1];
        }
      }
    }
  }

  /** Canonicalizing twice changes nothing more. */
  lemma CanonicalKeyIdempotent(s: string)
    ensures CanonicalKey(CanonicalKey(s)) == CanonicalKey(s)
  {
    CapitalizeIdempotent(s, true);
  }

  /** `http.Header`. */
  type Header = map<string, seq<string>>

  /** `http.Header.Add`: append the value under the canonical key. */
  function AddHeader(h: Header, key: string, value: string): (r: Header)
    ensures r.Keys == h.Keys + {CanonicalKey(key)}
    ensures r[CanonicalKey(key)] == (if CanonicalKey(key) in h then h[CanonicalKey(key)] else []) + [value]
    ensures forall k :: k in h && k != CanonicalKey(key) ==> r[k] == h[k]
  {
    var k := CanonicalKey(key);
    h[k := (if k in h then h[k] else []) + [value]]
  }

  // ---------------------------------------------------------------------
  // The field table

  /** `proxy-port` is an `int16`. */
  newtype Int16 = x: int | -0x8000 <= x < 0x8000

  /** A field's value, by the Go type that decides how it renders. */
  datatype FieldValue =
    | Vars(vars: map<string, string>)
    | Text(s: string)
    | Texts(items: seq<string>)
    | Int(i: int)
    | Float(x: real)
    | TF(b: bool)
    | OO(b: bool)
    | Login(c: Creds)
    | Urls(l: seq<UrlList.UrlData>)
    | Duration(nanos: int)
    | Headers(h: Header)

  /** A struct field: its `siege` tag and its value. */
  datatype Field = Field(tag: string, value: FieldValue)

  /** `reflect.Value.IsZero` per type. The header map is never zero: it is
      always allocated, and a nil map is the only zero map. */
  predicate IsZero(v: FieldValue) {
    match v
    case Vars(vars) => |vars| == 0
    case Text(s) => s == ""
    case Texts(items) => |items| == 0
    case Int(i) => i == 0
    case Float(x) => x == 0.0
    case TF(b) => !b
    case OO(b) => !b
    case Login(c) => c == NoCreds
    case Urls(l) => |l| == 0
    case Duration(nanos) => nanos == 0
    case Headers(_) => false
  }

  /** What the rendering takes from outside the model: `%f` of a float,
      `time.Duration.String`, and the order Go happens to visit the header
      map in. */
  datatype Formats = Formats(floatText: real -> string, durationText: int -> string, headerOrder: seq<string>)

  /** `order` lists every key of `m` exactly once. */
  predicate Enumerates<V>(order: seq<string>, m: map<string, V>) {
    (forall k :: k in m ==> k in order)
    && (forall i :: 0 <= i < |order| ==> order[i] in m)
    && (forall i, j :: 0 <= i < j < |order| ==> order[i] != order[j])
  }

  /** `s + "\n"` for each line, in order. */
  function Lines(ls: seq<string>): string {
    if |ls| == 0 then "" else ls[0] + "\n" + Lines(ls[1..])
  }

  lemma {:induction false} LinesAppend(a: seq<string>, b: seq<string>)
    ensures Lines(a + b) == Lines(a) + Lines(b)
  {
    if |a| > 0 {
      LinesAppend(a[1..], b);
      assert (a + b)[1..] == a[1..] + b;
    } else {
      assert a + b == b;
    }
  }

  /** The text splits back at the newlines into its lines (and the empty
      piece after the last newline) when no line holds a newline. */
  lemma {:induction false} LinesSplitBack(ls: seq<string>)
    requires forall k :: 0 <= k < |ls| ==> !Contains(ls[k], "\n")
    ensures Split(Lines(ls), "\n") == ls + [""]
  {
    if |ls| == 0 {
      assert Find("", "\n").None?;
    } else {
      LinesSplitBack(ls[1..]);
      SplitAfter(ls[0], "\n", Lines(ls[1..]));
      assert ls == [ls[0]] + ls[1..];
    }
  }

  /** `SiegeVars.String`: one `name = value` line per variable, in the
      order the map is visited. */
  function VarLines(vars: map<string, string>, order: seq<string>): seq<string> {
    if |order| == 0 then []
    else
      var name := order[|order| - 1];
      VarLines(vars, order[..|order| - 1]) + (if name in vars then [name + " = " + vars[name]] else [])
  }

  method VarsString(vars: map<string, string>, order: seq<string>) returns (output: string)
    requires Enumerates(order, vars)
    ensures output == Lines(VarLines(vars, order))
  {
    output := "";
    var i := 0;
    while i < |order|
      invariant 0 <= i <= |order|
      invariant output == Lines(VarLines(vars, order[..i]))
    {
      var variable := order[i];
      LinesAppend(VarLines(vars, order[..i]), [variable + " = " + vars[variable]]);
      output := output + variable + " = " + vars[variable] + "\n";
      assert order[..i + 1][..i] == order[..i];
      i := i + 1;
    }
    assert order[..i] == order;
  }

  /** One `name = key: value` line per value of each header, keys in the
      order the map is visited. */
  function HeaderLines(name: string, h: Header, keys: seq<string>): seq<string> {
    if |keys| == 0 then []
    else
      var key := keys[|keys| - 1];
      HeaderLines(name, h, keys[..|keys| - 1])
        + (if key in h then seq(|h[key]|, j requires 0 <= j < |h[key]| => name + " = " + key + ": " + h[key][j]) else [])
  }

  /** The lines one field contributes to the file (the body of the loop in
      `SiegeConfig.String`). */
  function FieldLines(f: Field, fmt: Formats): seq<string> {
    if f.tag == "-" then []
    else
      var (name, opts) := ParseTag(f.tag);
      if opts.omitEmpty && IsZero(f.value) then []
      else
        match f.value
        case Vars(_) => []
        case Text(s) => [name + " = " + s]
        case Texts(items) => ItemLines(name, items)
        case Int(i) => [name + " = " + IntToString(i)]
        case Float(x) => [name + " = " + fmt.floatText(x)]
        case TF(b) => [name + " = " + BoolTF(b)]
        case OO(b) => [name + " = " + BoolOO(b)]
        case Login(c) => [name + " = " + CredsString(c)]
        case Urls(l) => [name + " = " + UrlList.ListString(l)]
        case Duration(nanos) => [name + " = " + fmt.durationText(nanos)]
        case Headers(h) => HeaderLines(name, h, fmt.headerOrder)
  }

  /** A list-valued field repeats its key once per item. */
  function ItemLines(name: string, items: seq<string>): seq<string> {
    seq(|items|, k requires 0 <= k < |items| => name + " = " + items[k])
  }

  /** The lines of every field of `table`, in table order. */
  function LinesOf(table: seq<Field>, lines: Field -> seq<string>): seq<string> {
    if |table| == 0 then []
    else LinesOf(table[..|table| - 1], lines) + lines(table[|table| - 1])
  }

  /** The field lines of a table, in table order. */
  function TableLines(table: seq<Field>, fmt: Formats): seq<string> {
    LinesOf(table, f => FieldLines(f, fmt))
  }

  /** All lines of the file: the variables first, then the fields. */
  function RenderLines(vars: map<string, string>, varOrder: seq<string>, table: seq<Field>, fmt: Formats): seq<string> {
    VarLines(vars, varOrder) + TableLines(table, fmt)
  }

  lemma {:induction false} LinesOfAppend(a: seq<Field>, b: seq<Field>, lines: Field -> seq<string>)
    ensures LinesOf(a + b, lines) == LinesOf(a, lines) + LinesOf(b, lines)
    decreases |b|
  {
    if |b| == 0 {
      assert a + b == a;
    } else {
      var n := |b| - 1;
      assert (a + b)[..|a + b| - 1] == a + b[..n];
      assert (a + b)[|a + b| - 1] == b[n];
      LinesOfAppend(a, b[..n], lines);
    }
  }

  /** The lines of a table are those of its first part followed by those of
      the rest: fields render in declaration order. */
  lemma TableLinesAppend(a: seq<Field>, b: seq<Field>, fmt: Formats)
    ensures TableLines(a + b, fmt) == TableLines(a, fmt) + TableLines(b, fmt)
  {
    LinesOfAppend(a, b, f => FieldLines(f, fmt));
  }

  /** Field `k` contributes its own lines between those of the fields
      before and after it. */
  lemma TableLinesAt(table: seq<Field>, k: nat, fmt: Formats)
    requires k < |table|
    ensures TableLines(table, fmt) == TableLines(table[..k], fmt) + FieldLines(table[k], fmt) + TableLines(table[k + 1..], fmt)
  {
    assert table == table[..k] + [table[k]] + table[k + 1..];
    TableLinesAppend(table[..k] + [table[k]], table[k + 1..], fmt);
    TableLinesAppend(table[..k], [table[k]], fmt);
    assert [table[k]][..0] == [];
  }

  /** A field tagged `-`, or an `omitempty` field at its zero value, can be
      removed from the table without changing the output. */
  lemma HiddenFieldsEmitNothing(table: seq<Field>, k: nat, fmt: Formats)
    requires k < |table|
    requires table[k].tag == "-" || (ParseTag(table[k].tag).1.omitEmpty && IsZero(table[k].value))
    ensures TableLines(table, fmt) == TableLines(table[..k] + table[k + 1..], fmt)
  {
    TableLinesAt(table, k, fmt);
    TableLinesAppend(table[..k], table[k + 1..], fmt);
  }

  /** A string-slice field gives one `name = element` line per element, in
      order; a header field gives one `name = Key: value` line per value of
      each key. */
  lemma FieldLineCounts(f: Field, fmt: Formats)
    requires f.tag != "-" && !ParseTag(f.tag).1.omitEmpty
    ensures f.value.Texts? ==> |FieldLines(f, fmt)| == |f.value.items|
    ensures f.value.Texts? ==>
      forall k :: 0 <= k < |f.value.items| ==> FieldLines(f, fmt)[k] == ParseTag(f.tag).0 + " = " + f.value.items[k]
    ensures f.value.Headers? ==> |FieldLines(f, fmt)| == ValueCount(f.value.h, fmt.headerOrder)
  {
    if f.value.Headers? {
      HeaderLinesCount(ParseTag(f.tag).0, f.value.h, fmt.headerOrder);
    }
  }

  /** The number of values under the listed keys. */
  function ValueCount(h: Header, keys: seq<string>): nat {
    if |keys| == 0 then 0
    else ValueCount(h, keys[..|keys| - 1]) + (if keys[|keys| - 1] in h then |h[keys[|keys| - 1]]| else 0)
  }

  /** There is one header line per value. */
  lemma {:induction false} HeaderLinesCount(name: string, h: Header, keys: seq<string>)
    ensures |HeaderLines(name, h, keys)| == ValueCount(h, keys)
  {
    if |keys| > 0 {
      HeaderLinesCount(name, h, keys[..|keys| - 1]);
    }
  }

  /** Every header line names a key of the map and one of its values. */
  lemma {:induction false} HeaderLineSource(name: string, h: Header, keys: seq<string>, i: nat) returns (key: string, j: nat)
    requires i < |HeaderLines(name, h, keys)|
    ensures key in h && j < |h[key]| && HeaderLines(name, h, keys)[i] == name + " = " + key + ": " + h[key][j]
  {
    var init := keys[..|keys| - 1];
    var prev := HeaderLines(name, h, init);
    if i < |prev| {
      key, j := HeaderLineSource(name, h, init, i);
    } else {
      key := keys[|keys| - 1];
      j := i - |prev|;
    }
  }

  // ---------------------------------------------------------------------
  // The configuration object

  /** `SiegeConfig`; `NewSiegeConfig` is the constructor. */
  class SiegeConfig {
    var variables: map<string, string>
    var verbose: bool
    var color: bool
    var quiet: bool
    var jsonOutput: bool
    var showLogfile: bool
    var logging: bool
    var logFile: string
    var getMethod: string
    var useParser: bool
    var noFollow: seq<string>
    var csvOutput: bool
    var showTimestamp: bool
    var showFullUrl: bool
    var showId: bool
    var threadLimit: int
    var protocol: string
    var chunked: bool
    var cache: bool
    var connection: string
    var concurrent: int
    var duration: int
    var reps: int
    var delay: real
    var urlFile: string
    var singleUrl: string
    var timeout: int
    var expireSession: bool
    var useCookies: bool
    var allowedFailures: int
    var useRandomUrls: bool
    var benchmarkMode: bool
    var userAgent: string
    var acceptEncoding: string
    var escapeUrls: bool
    var loginInfo: Creds
    var loginUrls: seq<UrlList.UrlData>
    var ftpLoginInfo: Creds
    var ftpUnique: bool
    var sslUserCert: string
    var sslUserKey: string
    var sslTimeout: int
    var sslCiphers: string
    var proxyHost: string
    var proxyPort: Int16
    var proxyLogin: Creds
    var followRedirects: bool
    var headers: Header

    /** `NewSiegeConfig`: Siege's own defaults, every other field at its
        zero value, and an allocated empty header map. */
    constructor ()
      ensures Defaults()
      ensures getMethod == "HEAD" && urlFile == ""
      ensures headers == map[] && loginInfo == NoCreds && sslUserCert == "" && sslUserKey == ""
    {
      variables := map[];
      verbose := true;
      color := true;
      quiet := false;
      jsonOutput := true;
      showLogfile := true;
      logging := false;
      logFile := "";
      getMethod := "HEAD";
      useParser := true;
      noFollow := ["ad.doubleclick.net", "pagead2.googlesyndication.com", "ads.pubsqrd.com", "ib.adnxs.com"];
      csvOutput := false;
      showTimestamp := false;
      showFullUrl := false;
      showId := false;
      threadLimit := 255;
      protocol := "HTTP/1.1";
      chunked := true;
      cache := false;
      connection := "close";
      concurrent := 25;
      duration := 0;
      reps := 0;
      delay := 0.0;
      urlFile := "";
      singleUrl := "";
      timeout := 0;
      expireSession := false;
      useCookies := true;
      allowedFailures := 0;
      useRandomUrls := false;
      benchmarkMode := false;
      userAgent := "";
      acceptEncoding := "gzip, deflate";
      escapeUrls := true;
      loginInfo := NoCreds;
      loginUrls := [];
      ftpLoginInfo := NoCreds;
      ftpUnique := true;
      sslUserCert := "";
      sslUserKey := "";
      sslTimeout := 0;
      sslCiphers := "";
      proxyHost := "";
      proxyPort := 0;
      proxyLogin := NoCreds;
      followRedirects := true;
      headers := map[];
    }

    /** Every field other than the request method, the URL file and the
        four the security schemes set holds its `NewSiegeConfig` value. */
    predicate Defaults()
      reads this`variables, this`verbose, this`color, this`quiet, this`jsonOutput,
        this`showLogfile, this`logging, this`logFile, this`useParser, this`noFollow,
        this`csvOutput, this`showTimestamp, this`showFullUrl, this`showId, this`threadLimit,
        this`protocol, this`chunked, this`cache, this`connection, this`concurrent,
        this`duration, this`reps, this`delay, this`singleUrl, this`timeout, this`expireSession,
        this`useCookies, this`allowedFailures, this`useRandomUrls, this`benchmarkMode,
        this`userAgent, this`acceptEncoding, this`escapeUrls, this`loginUrls,
        this`ftpLoginInfo, this`ftpUnique, this`sslTimeout, this`sslCiphers, this`proxyHost,
        this`proxyPort, this`proxyLogin, this`followRedirects
    {
      variables == map[] && verbose && color && !quiet && jsonOutput && showLogfile && !logging
      && logFile == "" && useParser
      && noFollow == ["ad.doubleclick.net", "pagead2.googlesyndication.com", "ads.pubsqrd.com", "ib.adnxs.com"]
      && !csvOutput && !showTimestamp && !showFullUrl && !showId
      && threadLimit == 255 && protocol == "HTTP/1.1" && chunked && !cache && connection == "close"
      && concurrent == 25 && duration == 0 && reps == 0 && delay == 0.0 && singleUrl == ""
      && timeout == 0 && !expireSession && useCookies && allowedFailures == 0 && !useRandomUrls
      && !benchmarkMode && userAgent == "" && acceptEncoding == "gzip, deflate" && escapeUrls
      && loginUrls == [] && ftpLoginInfo == NoCreds && ftpUnique && sslTimeout == 0 && sslCiphers == ""
      && proxyHost == "" && proxyPort == 0 && proxyLogin == NoCreds && followRedirects
    }

    /** The `k`-th field in declaration order with its tag, `file` holding
        `file` instead of the current URL file. */
    function FieldAt(k: nat, file: string): Field
      reads this`variables, this`verbose, this`color, this`quiet, this`jsonOutput,
        this`showLogfile, this`logging, this`logFile, this`getMethod, this`useParser, this`noFollow,
        this`csvOutput, this`showTimestamp, this`showFullUrl, this`showId, this`threadLimit,
        this`protocol, this`chunked, this`cache, this`connection, this`concurrent,
        this`duration, this`reps, this`delay, this`singleUrl, this`timeout, this`expireSession,
        this`useCookies, this`allowedFailures, this`useRandomUrls, this`benchmarkMode,
        this`userAgent, this`acceptEncoding, this`escapeUrls, this`loginInfo, this`loginUrls,
        this`ftpLoginInfo, this`ftpUnique, this`sslUserCert, this`sslUserKey, this`sslTimeout,
        this`sslCiphers, this`proxyHost, this`proxyPort, this`proxyLogin, this`followRedirects,
        this`headers
    {
      match k
      case 0 => Field("-", Vars(variables))
      case 1 => Field("verbose", TF(verbose))
      case 2 => Field("color", OO(color))
      case 3 => Field("quiet", TF(quiet))
      case 4 => Field("json_output", TF(jsonOutput))
      case 5 => Field("show-logfile", TF(showLogfile))
      case 6 => Field("logging", TF(logging))
      case 7 => Field("logfile,omitempty", Text(logFile))
      case 8 => Field("gmethod", Text(getMethod))
      case 9 => Field("parser", TF(useParser))
      case 10 => Field("nofollow", Texts(noFollow))
      case 11 => Field("csv,omitempty", TF(csvOutput))
      case 12 => Field("timestamp,omitempty", TF(showTimestamp))
      case 13 => Field("fullurl,omitempty", TF(showFullUrl))
      case 14 => Field("display-id,omitempty", TF(showId))
      case 15 => Field("limit", Int(threadLimit))
      case 16 => Field("protocol", Text(protocol))
      case 17 => Field("chunked", TF(chunked))
      case 18 => Field("cache", TF(cache))
      case 19 => Field("connection", Text(connection))
      case 20 => Field("concurrent", Int(concurrent))
      case 21 => Field("time,omitempty", Duration(duration))
      case 22 => Field("reps,omitempty", Int(reps))
      case 23 => Field("delay", Float(delay))
      case 24 => Field("file,omitempty", Text(file))
      case 25 => Field("url,omitempty", Text(singleUrl))
      case 26 => Field("timeout,omitempty", Int(timeout))
      case 27 => Field("expire-session,omitempty", TF(expireSession))
      case 28 => Field("cookies", TF(useCookies))
      case 29 => Field("failures,omitempty", Int(allowedFailures))
      case 30 => Field("internet", TF(useRandomUrls))
      case 31 => Field("benchmark", TF(benchmarkMode))
      case 32 => Field("user-agent,omitempty", Text(userAgent))
      case 33 => Field("accept-encoding", Text(acceptEncoding))
      case 34 => Field("url-escaping", TF(escapeUrls))
      case 35 => Field("login,omitempty", Login(loginInfo))
      case 36 => Field("login-url,omitempty", Urls(loginUrls))
      case 37 => Field("ftp-login,omitempty", Login(ftpLoginInfo))
      case 38 => Field("unique", TF(ftpUnique))
      case 39 => Field("ssl-cert,omitempty", Text(sslUserCert))
      case 40 => Field("ssl-key,omitempty", Text(sslUserKey))
      case 41 => Field("ssl-timeout,omitempty", Int(sslTimeout))
      case 42 => Field("ssl-ciphers,omitempty", Text(sslCiphers))
      case 43 => Field("proxy-host,omitempty", Text(proxyHost))
      case 44 => Field("proxy-port,omitempty", Int(proxyPort as int))
      case 45 => Field("proxy-login,omitempty", Login(proxyLogin))
      case 46 => Field("follow-location", TF(followRedirects))
      case _ => Field("header,omitempty", Headers(headers))
    }

    /** The fields from the `k`-th on. */
    function FieldsFrom(k: nat, file: string): (t: seq<Field>)
      requires k <= 48
      reads this`variables, this`verbose, this`color, this`quiet, this`jsonOutput,
        this`showLogfile, this`logging, this`logFile, this`getMethod, this`useParser, this`noFollow,
        this`csvOutput, this`showTimestamp, this`showFullUrl, this`showId, this`threadLimit,
        this`protocol, this`chunked, this`cache, this`connection, this`concurrent,
        this`duration, this`reps, this`delay, this`singleUrl, this`timeout, this`expireSession,
        this`useCookies, this`allowedFailures, this`useRandomUrls, this`benchmarkMode,
        this`userAgent, this`acceptEncoding, this`escapeUrls, this`loginInfo, this`loginUrls,
        this`ftpLoginInfo, this`ftpUnique, this`sslUserCert, this`sslUserKey, this`sslTimeout,
        this`sslCiphers, this`proxyHost, this`proxyPort, this`proxyLogin, this`followRedirects,
        this`headers
      ensures |t| == 48 - k
      decreases 48 - k
    {
      if k == 48 then [] else [FieldAt(k, file)] + FieldsFrom(k + 1, file)
    }

    /** The fields in declaration order with their tags, `file` holding
        `file` instead of the current URL file. */
    function TableWith(file: string): (t: seq<Field>)
      reads this`variables, this`verbose, this`color, this`quiet, this`jsonOutput,
        this`showLogfile, this`logging, this`logFile, this`getMethod, this`useParser, this`noFollow,
        this`csvOutput, this`showTimestamp, this`showFullUrl, this`showId, this`threadLimit,
        this`protocol, this`chunked, this`cache, this`connection, this`concurrent,
        this`duration, this`reps, this`delay, this`singleUrl, this`timeout, this`expireSession,
        this`useCookies, this`allowedFailures, this`useRandomUrls, this`benchmarkMode,
        this`userAgent, this`acceptEncoding, this`escapeUrls, this`loginInfo, this`loginUrls,
        this`ftpLoginInfo, this`ftpUnique, this`sslUserCert, this`sslUserKey, this`sslTimeout,
        this`sslCiphers, this`proxyHost, this`proxyPort, this`proxyLogin, this`followRedirects,
        this`headers
      ensures |t| == 48
    {
      FieldsFrom(0, file)
    }

    function Table(): seq<Field>
      reads this
    {
      TableWith(urlFile)
    }

    lemma {:induction false} FieldsFromEntries(k: nat, file: string)
      requires k <= 48
      ensures forall j :: 0 <= j < 48 - k ==> FieldsFrom(k, file)[j] == FieldAt(k + j, file)
      decreases 48 - k
    {
      if k < 48 {
        FieldsFromEntries(k + 1, file);
      }
    }

    /** The table holds the fields in declaration order. */
    lemma TableEntries(file: string)
      ensures forall j :: 0 <= j < 48 ==> TableWith(file)[j] == FieldAt(j, file)
    {
      FieldsFromEntries(0, file);
    }

    /** The URL file is the 25th field and no other field depends on it. */
    lemma TableWithFile(file: string, other: string)
      ensures TableWith(file) == TableWith(other)[24 := Field("file,omitempty", Text(file))]
    {
      TableEntries(file);
      TableEntries(other);
      var t := TableWith(file);
      var u := TableWith(other)[24 := Field("file,omitempty", Text(file))];
      forall j | 0 <= j < 48
        ensures t[j] == u[j]
      {
      }
    }

    /** `conf.Headers.Add`. */
    method AddHeaderValue(key: string, value: string)
      modifies this`headers
      ensures headers == AddHeader(old(headers), key, value)
    {
      headers := AddHeader(headers, key, value);
    }

    /** `SiegeConfig.String`: the variables, then each field's lines. */
    method String(varOrder: seq<string>, fmt: Formats) returns (text: string)
      requires Enumerates(varOrder, variables) && Enumerates(fmt.headerOrder, headers)
      ensures text == Lines(RenderLines(variables, varOrder, Table(), fmt))
    {
      var writer := VarsString(variables, varOrder);
      var fields := WriteTable(Table(), fmt);
      LinesAppend(VarLines(variables, varOrder), TableLines(Table(), fmt));
      text := writer + fields;
    }
  }

  /** The field loop of `SiegeConfig.String`. */
  method WriteTable(table: seq<Field>, fmt: Formats) returns (text: string)
    ensures text == Lines(TableLines(table, fmt))
  {
    text := "";
    var i := 0;
    while i < |table|
      invariant 0 <= i <= |table|
      invariant text == Lines(TableLines(table[..i], fmt))
    {
      var fieldText := WriteField(table[i], fmt);
      LinesAppend(TableLines(table[..i], fmt), FieldLines(table[i], fmt));
      text := text + fieldText;
      assert table[..i + 1][..i] == table[..i];
      i := i + 1;
    }
    assert table[..i] == table;
  }

  /** The text of one field (the loop body of `SiegeConfig.String`). */
  method WriteField(f: Field, fmt: Formats) returns (text: string)
    ensures text == Lines(FieldLines(f, fmt))
  {
    text := "";
    if f.tag == "-" {
      return;
    }
    var (name, opts) := ParseTag(f.tag);
    if opts.omitEmpty && IsZero(f.value) {
      return;
    }
    match f.value {
      case Vars(_) =>
      case Text(s) =>
        text := name + " = " + s + "\n";
      case Texts(items) =>
        text := WriteItems(name, items);
      case Int(i) =>
        text := name + " = " + IntToString(i) + "\n";
      case Float(x) =>
        text := name + " = " + fmt.floatText(x) + "\n";
      case TF(b) =>
        text := name + " = " + BoolTF(b) + "\n";
      case OO(b) =>
        text := name + " = " + BoolOO(b) + "\n";
      case Login(c) =>
        text := name + " = " + CredsString(c) + "\n";
      case Urls(l) =>
        text := name + " = " + UrlList.ListString(l) + "\n";
      case Duration(nanos) =>
        text := name + " = " + fmt.durationText(nanos) + "\n";
      case Headers(h) =>
        text := WriteHeader(name, h, fmt.headerOrder);
    }
  }

  /** The list case of `SiegeConfig.String`: one line per item. */
  method WriteItems(name: string, items: seq<string>) returns (text: string)
    ensures text == Lines(ItemLines(name, items))
  {
    text := "";
    var idx := 0;
    while idx < |items|
      invariant 0 <= idx <= |items|
      invariant text == Lines(ItemLines(name, items[..idx]))
    {
      LinesAppend(ItemLines(name, items[..idx]), [name + " = " + items[idx]]);
      assert ItemLines(name, items[..idx + 1]) == ItemLines(name, items[..idx]) + [name + " = " + items[idx]];
      text := text + name + " = " + items[idx] + "\n";
      idx := idx + 1;
    }
    assert items[..idx] == items;
  }

  /** The header case of `SiegeConfig.String`: every value of every key. */
  method WriteHeader(name: string, h: Header, keys: seq<string>) returns (text: string)
    ensures text == Lines(HeaderLines(name, h, keys))
  {
    text := "";
    var i := 0;
    while i < |keys|
      invariant 0 <= i <= |keys|
      invariant text == Lines(HeaderLines(name, h, keys[..i]))
    {
      var key := keys[i];
      var valueList := if key in h then h[key] else [];
      ghost var before := HeaderLines(name, h, keys[..i]);
      ghost var done: seq<string> := [];
      assert before + done == before;
      var idx := 0;
      while idx < |valueList|
        invariant 0 <= idx <= |valueList|
        invariant done == seq(idx, j requires 0 <= j < idx => name + " = " + key + ": " + valueList[j])
        invariant text == Lines(before + done)
      {
        var line := name + " = " + key + ": " + valueList[idx];
        LinesAppend(before + done, [line]);
        text := text + line + "\n";
        done := done + [line];
        assert before + done == (before + (done[..idx])) + [line];
        idx := idx + 1;
      }
      assert keys[..i + 1][..i] == keys[..i];
      assert HeaderLines(name, h, keys[..i + 1]) == before + done;
      i := i + 1;
    }
    assert keys[..i] == keys;
  }

  /** A bare-named field that renders as a single line puts that line in
      the output. */
  lemma {:induction false} SingleLineField(table: seq<Field>, k: nat, name: string, v: FieldValue, line: string, fmt: Formats)
    requires k < |table| && table[k] == Field(name, v)
    requires name != "-" && forall i :: 0 <= i < |name| ==> name[i] != ','
    requires (v.Text? && line == name + " = " + v.s) || (v.Int? && line == name + " = " + IntToString(v.i))
    ensures line in TableLines(table, fmt)
  {
    Lacks(name, ',');
    BareTag(name);
    assert FieldLines(table[k], fmt) == [line];
    TableLinesAt(table, k, fmt);
  }

  /** A fresh configuration asks for the `HEAD` method. */
  lemma DefaultMethodLine(c: SiegeConfig, fmt: Formats)
    requires c.getMethod == "HEAD"
    ensures "gmethod = HEAD" in TableLines(c.Table(), fmt)
  {
    c.TableEntries(c.urlFile);
    var t := c.Table();
    assert t[8] == Field("gmethod", Text("HEAD"));
    SingleLineField(t, 8, "gmethod", Text("HEAD"), "gmethod = HEAD", fmt);
  }

  /** A fresh configuration runs 25 concurrent users. */
  lemma DefaultConcurrencyLine(c: SiegeConfig, fmt: Formats)
    requires c.Defaults()
    ensures "concurrent = 25" in TableLines(c.Table(), fmt)
  {
    c.TableEntries(c.urlFile);
    var t := c.Table();
    assert t[20] == Field("concurrent", Int(25));
    assert IntToString(25) == "25";
    SingleLineField(t, 20, "concurrent", Int(25), "concurrent = 25", fmt);
  }

  /** A fresh configuration speaks HTTP/1.1. */
  lemma DefaultProtocolLine(c: SiegeConfig, fmt: Formats)
    requires c.Defaults()
    ensures "protocol = HTTP/1.1" in TableLines(c.Table(), fmt)
  {
    c.TableEntries(c.urlFile);
    var t := c.Table();
    assert t[16] == Field("protocol", Text("HTTP/1.1"));
    SingleLineField(t, 16, "protocol", Text("HTTP/1.1"), "protocol = HTTP/1.1", fmt);
  }

  /** An empty header map writes no line although the map is not zero. */
  lemma EmptyHeadersWriteNothing(c: SiegeConfig, fmt: Formats)
    requires c.headers == map[]
    ensures FieldLines(c.Table()[47], fmt) == []
  {
    c.TableEntries(c.urlFile);
    assert c.Table()[47] == Field("header" + ",omitempty", Headers(map[]));
    Lacks("header", ',');
    HeaderField("header", map[], fmt);
    HeaderLinesEmpty("header", fmt.headerOrder);
  }

  /** A header field renders its header lines whatever its tag options. */
  lemma HeaderField(name: string, h: Header, fmt: Formats)
    requires !Contains(name, ",")
    ensures FieldLines(Field(name + ",omitempty", Headers(h)), fmt) == HeaderLines(name, h, fmt.headerOrder)
  {
    OmitEmptyTag(name);
    assert name + ",omitempty" != "-";
  }

  lemma {:induction false} HeaderLinesEmpty(name: string, keys: seq<string>)
    ensures HeaderLines(name, map[], keys) == []
  {
    if |keys| > 0 {
      HeaderLinesEmpty(name, keys[..|keys| - 1]);
    }
  }
}
