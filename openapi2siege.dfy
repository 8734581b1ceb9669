/** The naming of the output files: `prefixFilename`, the prefix taken
    from a media type, and the loop that writes one URL file and one Siege
    configuration per media type. */
module FileNaming {
  import opened Base
  import opened GoStrings
  import opened UrlList
  import S = Siege
  import P = Payloads
  import V = V3

  // ---------------------------------------------------------------------
  // Slash-separated paths (Go's `path` package)

  /** The index of the last `/` in `p`, if any. */
  function LastSlash(p: string): (r: Option<nat>)
    ensures r.Some? ==> r.value < |p|
  {
    if |p| == 0 then None
    else if p[|p| - 1] == '/' then Some(|p| - 1)
    else LastSlash(p[..|p| - 1])
  }

  /** `path.Split`: the directory up to and including the last slash, and
      the file name after it. */
  function PathSplit(p: string): (string, string) {
    match LastSlash(p)
    case None => ("", p)
    case Some(i) => (p[..i + 1], p[i + 1..])
  }

  /** The elements of a path that `path.Clean` keeps, from the front:
      empty and `.` elements go, `..` removes the element before it, or is
      dropped at the root, or is kept at the start of a relative path. */
  function CleanSegments(segs: seq<string>, rooted: bool, kept: seq<string>): seq<string>
    decreases |segs|
  {
    if |segs| == 0 then kept
    else
      var seg := segs[0];
      if seg == "" || seg == "." then CleanSegments(segs[1..], rooted, kept)
      else if seg == ".." then
        if |kept| > 0 && kept[|kept| - 1] != ".." then CleanSegments(segs[1..], rooted, kept[..|kept| - 1])
        else if rooted then CleanSegments(segs[1..], rooted, kept)
        else CleanSegments(segs[1..], rooted, kept + [seg])
      else CleanSegments(segs[1..], rooted, kept + [seg])
  }

  /** The elements of a slash-separated path, empty ones included. */
  function Segments(p: string): (r: seq<string>)
    ensures |r| >= 1
    decreases |p|
  {
    if |p| == 0 then [""]
    else
      var rest := Segments(p[1..]);
      if p[0] == '/' then [""] + rest
      else [[p[0]] + rest[0]] + rest[1..]
  }

  /** `path.Clean`, by the rules it documents; an empty result reads `.`. */
  function Clean(p: string): string {
    var rooted := |p| > 0 && p[0] == '/';
    var kept := CleanSegments(Segments(p), rooted, []);
    if rooted then "/" + Join(kept, "/")
    else if |kept| == 0 then "."
    else Join(kept, "/")
  }

  /** `path.Join` of two elements: the non-empty ones joined by a slash and
      cleaned, or the empty string when both are empty. */
  function PathJoin(dir: string, elem: string): string {
    if dir == "" && elem == "" then ""
    else if dir == "" then Clean(elem)
    else if elem == "" then Clean(dir)
    else Clean(dir + "/" + elem)
  }

  /** `prefixFilename`: the file name of `filename` gets `prefix.` in front,
      and the directory is joined back on. */
  function PrefixFilename(prefix: string, filename: string): string {
    var (dir, file) := PathSplit(filename);
    PathJoin(dir, prefix + "." + file)
  }

  /** A path element that cleaning leaves alone. */
  predicate Plain(seg: string) {
    seg != "" && seg != "." && seg != ".." && '/' !in seg
  }

  /** A path without a slash is a single element. */
  lemma {:induction false} SegmentsOfElement(b: string)
    requires '/' !in b
    ensures Segments(b) == [b]
    decreases |b|
  {
    if |b| > 0 {
      assert b[0] in b;
      assert '/' !in b[1..] by {
        forall k | 0 <= k < |b[1..]| ensures b[1..][k] != '/' {
          assert b[1..][k] == b[k + 1];
        }
      }
      SegmentsOfElement(b[1..]);
      assert [b[0]] + b[1..] == b;
    }
  }

  /** A slash separates the elements before it from those after it. */
  lemma {:induction false} SegmentsAppend(a: string, b: string)
    ensures Segments(a + "/" + b) == Segments(a) + Segments(b)
    decreases |a|
  {
    var p := a + "/" + b;
    if |a| == 0 {
      assert p[1..] == b;
    } else {
      assert p[1..] == a[1..] + "/" + b;
      SegmentsAppend(a[1..], b);
      SegmentsFront(a[0], Segments(a[1..]), Segments(b));
    }
  }

  /** The element a character is prepended to is the first one. */
  lemma SegmentsFront(c: char, sa: seq<string>, sb: seq<string>)
    requires |sa| >= 1
    ensures [[c] + (sa + sb)[0]] + (sa + sb)[1..] == [[c] + sa[0]] + sa[1..] + sb
  {
    assert (sa + sb)[1..] == sa[1..] + sb;
  }

  /** Joining slash-free elements and cutting at the slashes gives them
      back. */
  lemma {:induction false} SegmentsOfJoin(dirs: seq<string>)
    requires |dirs| > 0
    requires forall k :: 0 <= k < |dirs| ==> '/' !in dirs[k]
    ensures Segments(Join(dirs, "/")) == dirs
    decreases |dirs|
  {
    SegmentsOfElement(dirs[0]);
    if |dirs| > 1 {
      SegmentsOfJoin(dirs[1..]);
      SegmentsAppend(dirs[0], Join(dirs[1..], "/"));
      assert dirs == [dirs[0]] + dirs[1..];
    }
  }

  lemma {:induction false} JoinSnoc(parts: seq<string>, x: string, sep: string)
    requires |parts| > 0
    ensures Join(parts + [x], sep) == Join(parts, sep) + sep + x
    decreases |parts|
  {
    if |parts| > 1 {
      assert (parts + [x])[1..] == parts[1..] + [x];
      JoinSnoc(parts[1..], x, sep);
    }
  }

  lemma {:induction false} LastSlashAfter(a: string, file: string)
    requires '/' !in file
    ensures LastSlash(a + "/" + file) == Some(|a|)
    decreases |file|
  {
    var p := a + "/" + file;
    if |file| > 0 {
      assert p[..|p| - 1] == a + "/" + file[..|file| - 1];
      assert p[|p| - 1] == file[|file| - 1];
      assert file[|file| - 1] in file;
      LastSlashAfter(a, file[..|file| - 1]);
    }
  }

  lemma {:induction false} CleanKeepsPlain(segs: seq<string>, rest: seq<string>, rooted: bool, kept: seq<string>)
    requires forall k :: 0 <= k < |segs| ==> Plain(segs[k])
    ensures CleanSegments(segs + rest, rooted, kept) == CleanSegments(rest, rooted, kept + segs)
    decreases |segs|
  {
    if |segs| > 0 {
      assert (segs + rest)[0] == segs[0];
      assert (segs + rest)[1..] == segs[1..] + rest;
      CleanKeepsPlain(segs[1..], rest, rooted, kept + [segs[0]]);
      assert kept + [segs[0]] + segs[1..] == kept + segs;
    } else {
      assert segs + rest == rest;
      assert kept + segs == kept;
    }
  }

  lemma PathSplitAfter(d: string, file: string)
    requires '/' !in file
    ensures PathSplit(d + "/" + file) == (d + "/", file)
  {
    var p := d + "/" + file;
    LastSlashAfter(d, file);
    assert p[..|d| + 1] == d + "/";
    assert p[|d| + 1..] == file;
  }

  lemma JoinStarts(dirs: seq<string>)
    requires |dirs| > 0 && |dirs[0]| > 0
    ensures |Join(dirs, "/")| > 0 && Join(dirs, "/")[0] == dirs[0][0]
  {
    if |dirs| > 1 {
      assert Join(dirs, "/") == dirs[0] + "/" + Join(dirs[1..], "/");
    }
  }

  lemma SegmentsDoubled(dirs: seq<string>, named: string)
    requires |dirs| > 0
    requires forall k :: 0 <= k < |dirs| ==> '/' !in dirs[k]
    requires '/' !in named
    ensures Segments(Join(dirs, "/") + "/" + "/" + named) == dirs + ["", named]
  {
    var d := Join(dirs, "/");
    var tail := "" + "/" + named;
    assert d + "/" + "/" + named == d + "/" + tail;
    SegmentsAppend(d, tail);
    SegmentsAppend("", named);
    SegmentsOfElement(named);
    SegmentsOfJoin(dirs);
    assert Segments("") == [""];
  }

  lemma CleanDropsEmpty(dirs: seq<string>, named: string)
    requires forall k :: 0 <= k < |dirs| ==> Plain(dirs[k])
    requires Plain(named)
    ensures CleanSegments(dirs + ["", named], false, []) == dirs + [named]
  {
    CleanKeepsPlain(dirs, ["", named], false, []);
    assert [] + dirs == dirs;
    assert ["", named][1..] == [named];
    assert CleanSegments(["", named], false, dirs) == CleanSegments([named], false, dirs);
    assert CleanSegments([named], false, dirs) == CleanSegments([], false, dirs + [named]);
  }

  /** Cleaning plain elements joined with a doubled slash before the last
      one only removes the empty element. */
  lemma CleanDoubleSlash(dirs: seq<string>, named: string)
    requires |dirs| > 0
    requires forall k :: 0 <= k < |dirs| ==> Plain(dirs[k])
    requires Plain(named)
    ensures Clean(Join(dirs, "/") + "/" + "/" + named) == Join(dirs + [named], "/")
  {
    var d := Join(dirs, "/");
    var joined := d + "/" + "/" + named;
    SegmentsDoubled(dirs, named);
    CleanDropsEmpty(dirs, named);
    JoinStarts(dirs);
    assert joined[0] == d[0];
    var kept := CleanSegments(Segments(joined), false, []);
    assert kept == dirs + [named];
    assert Clean(joined) == Join(kept, "/");
  }

  /** A plain element is already clean. */
  lemma CleanPlain(named: string)
    requires Plain(named)
    ensures Clean(named) == named
  {
    SegmentsOfElement(named);
    assert named[0] in named;
    assert CleanSegments([named], false, []) == CleanSegments([], false, [named]);
  }

  lemma {:induction false} NoLastSlash(s: string)
    requires '/' !in s
    ensures LastSlash(s) == None
    decreases |s|
  {
    if |s| > 0 {
      assert s[|s| - 1] in s;
      assert forall k :: 0 <= k < |s| - 1 ==> s[..|s| - 1][k] == s[k];
      NoLastSlash(s[..|s| - 1]);
    }
  }

  /** A plain element with a slash-free prefix and a dot in front stays
      plain. */
  lemma PrefixedPlain(prefix: string, file: string)
    requires Plain(file) && '/' !in prefix
    ensures Plain(prefix + "." + file)
  {
    var named := prefix + "." + file;
    assert named[|prefix|] == '.';
    assert named[|named| - 1] == file[|file| - 1];
    forall k | 0 <= k < |named|
      ensures named[k] != '/'
    {
      if k < |prefix| {
        assert named[k] == prefix[k];
      } else if k > |prefix| {
        assert named[k] == file[k - |prefix| - 1];
      }
    }
    if |named| == 2 {
      assert file == [named[1]];
    }
  }

  /** `prefixFilename` keeps the directory of a clean relative path and puts
      the prefix and a dot in front of its last element. */
  lemma PrefixKeepsDirectory(prefix: string, dirs: seq<string>, file: string)
    requires forall k :: 0 <= k < |dirs| ==> Plain(dirs[k])
    requires Plain(file) && '/' !in prefix
    ensures PrefixFilename(prefix, Join(dirs + [file], "/")) == Join(dirs + [prefix + "." + file], "/")
  {
    var named := prefix + "." + file;
    PrefixedPlain(prefix, file);
    var filename := Join(dirs + [file], "/");
    if |dirs| == 0 {
      assert dirs + [file] == [file];
      assert dirs + [named] == [named];
      assert filename == file;
      NoLastSlash(file);
      assert PathSplit(filename) == ("", file);
      CleanPlain(named);
      assert PathJoin("", named) == named;
    } else {
      var d := Join(dirs, "/");
      JoinSnoc(dirs, file, "/");
      assert filename == d + "/" + file;
      PathSplitAfter(d, file);
      assert PathSplit(filename) == (d + "/", file);
      assert PathJoin(d + "/", named) == Clean(d + "/" + "/" + named);
      CleanDoubleSlash(dirs, named);
    }
  }

  /** A leading slash adds an empty first element. */
  lemma SegmentsRooted(x: string)
    ensures Segments("/" + x) == [""] + Segments(x)
  {
    assert ("/" + x)[1..] == x;
  }

  /** The text `path.Join` cleans for a rooted directory and a file name. */
  lemma RootedJoinText(d: string, named: string)
    ensures ("/" + d + "/") + "/" + named == "/" + (d + "/" + "/" + named)
  {
  }

  /** The elements of a rooted directory, a doubled slash and a name. */
  lemma RootedSegments(dirs: seq<string>, named: string)
    requires |dirs| > 0
    requires forall k :: 0 <= k < |dirs| ==> '/' !in dirs[k]
    requires '/' !in named
    ensures Segments("/" + (Join(dirs, "/") + "/" + "/" + named)) == [""] + (dirs + ["", named])
  {
    SegmentsRooted(Join(dirs, "/") + "/" + "/" + named);
    SegmentsDoubled(dirs, named);
  }

  /** Cleaning drops the leading and the doubled empty elements. */
  lemma CleanRootedPlain(dirs: seq<string>, named: string)
    requires forall k :: 0 <= k < |dirs| ==> Plain(dirs[k])
    requires Plain(named)
    ensures CleanSegments([""] + (dirs + ["", named]), true, []) == dirs + [named]
  {
    var segs := [""] + (dirs + ["", named]);
    assert segs[1..] == dirs + ["", named];
    CleanKeepsPlain(dirs, ["", named], true, []);
    assert [] + dirs == dirs;
    assert CleanSegments(["", named], true, dirs) == CleanSegments([named], true, dirs);
    assert CleanSegments([named], true, dirs) == CleanSegments([], true, dirs + [named]);
  }

  /** Cleaning a rooted path of plain elements with a doubled slash before
      the last one only removes the empty elements. */
  lemma CleanRootedDoubleSlash(dirs: seq<string>, named: string)
    requires |dirs| > 0
    requires forall k :: 0 <= k < |dirs| ==> Plain(dirs[k])
    requires Plain(named)
    ensures Clean("/" + (Join(dirs, "/") + "/" + "/" + named)) == "/" + Join(dirs + [named], "/")
  {
    var p := "/" + (Join(dirs, "/") + "/" + "/" + named);
    assert p[0] == '/';
    RootedSegments(dirs, named);
    CleanRootedPlain(dirs, named);
  }

  /** Cleaning `//named` gives `/named`. */
  lemma CleanRootedFile(named: string)
    requires Plain(named)
    ensures Clean("/" + "/" + named) == "/" + named
  {
    SegmentsRooted("/" + named);
    SegmentsRooted(named);
    SegmentsOfElement(named);
    assert "/" + "/" + named == "/" + ("/" + named);
    var segs := ["", "", named];
    assert Segments("/" + "/" + named) == segs;
    assert CleanSegments(segs, true, []) == CleanSegments(segs[1..], true, []);
    assert segs[1..][1..] == [named];
    assert CleanSegments([named], true, []) == CleanSegments([], true, [named]);
  }

  /** A file at the root keeps its place: `/file` becomes `/prefix.file`. */
  lemma PrefixRootFile(named: string, file: string)
    requires Plain(file) && Plain(named)
    ensures PathSplit("/" + file) == ("/", file)
    ensures PathJoin("/", named) == "/" + named
  {
    assert "/" + file == "" + "/" + file;
    PathSplitAfter("", file);
    CleanRootedFile(named);
  }

  /** `path.Split` of a file under a rooted directory. */
  lemma RootedDirSplit(dirs: seq<string>, file: string)
    requires |dirs| > 0 && '/' !in file
    ensures PathSplit("/" + Join(dirs + [file], "/")) == ("/" + Join(dirs, "/") + "/", file)
  {
    var d := Join(dirs, "/");
    JoinSnoc(dirs, file, "/");
    RootedText(d, file);
    PathSplitAfter("/" + d, file);
  }

  lemma RootedText(d: string, file: string)
    ensures "/" + (d + "/" + file) == ("/" + d) + "/" + file
  {
  }

  /** `path.Join` of a rooted directory and a plain file name. */
  lemma RootedDirJoin(dirs: seq<string>, named: string)
    requires |dirs| > 0
    requires forall k :: 0 <= k < |dirs| ==> Plain(dirs[k])
    requires Plain(named)
    ensures PathJoin("/" + Join(dirs, "/") + "/", named) == "/" + Join(dirs + [named], "/")
  {
    var d := Join(dirs, "/");
    RootedJoinText(d, named);
    CleanRootedDoubleSlash(dirs, named);
  }

  /** `prefixFilename` keeps the directory of a clean absolute path and puts
      the prefix and a dot in front of its last element. */
  lemma PrefixKeepsRootedDirectory(prefix: string, dirs: seq<string>, file: string)
    requires forall k :: 0 <= k < |dirs| ==> Plain(dirs[k])
    requires Plain(file) && '/' !in prefix
    ensures PrefixFilename(prefix, "/" + Join(dirs + [file], "/")) == "/" + Join(dirs + [prefix + "." + file], "/")
  {
    var named := prefix + "." + file;
    var filename := "/" + Join(dirs + [file], "/");
    PrefixedPlain(prefix, file);
    if |dirs| == 0 {
      assert dirs + [file] == [file];
      assert dirs + [named] == [named];
      PrefixRootFile(named, file);
      assert PathSplit(filename) == ("/", file);
    } else {
      RootedDirSplit(dirs, file);
      RootedDirJoin(dirs, named);
    }
  }

  // ---------------------------------------------------------------------
  // Media type prefixes

  /** The file prefix of a media type: the text after its last `/`, then
      after the last `+` of that (the structured syntax suffix of section
      4.2.8 of RFC 6838, when there is one). */
  function MediaTypePrefix(mediaType: string): string {
    LastPiece(LastPiece(mediaType, "/"), "+")
  }

  /** A media type with a structured syntax suffix is named by the suffix,
      as `application/vnd.api+json` is by `json`. */
  lemma SuffixNamesFile(top: string, subtype: string, suffix: string)
    requires '/' !in subtype && '/' !in suffix && '+' !in suffix
    ensures MediaTypePrefix(top + "/" + subtype + "+" + suffix) == suffix
  {
    var sub := subtype + "+" + suffix;
    assert '/' !in sub;
    CharFree(sub, '/');
    assert top + "/" + subtype + "+" + suffix == top + "/" + sub;
    LastPieceAfter(top, "/", sub);
    CharFree(suffix, '+');
    LastPieceAfter(subtype, "+", suffix);
  }

  /** Without a suffix the subtype names the file, as `text/plain` gives
      `plain`. */
  lemma SubtypeNamesFile(top: string, subtype: string)
    requires '/' !in subtype && '+' !in subtype
    ensures MediaTypePrefix(top + "/" + subtype) == subtype
  {
    CharFree(subtype, '/');
    LastPieceAfter(top, "/", subtype);
    CharFree(subtype, '+');
    FindSpec(subtype, "+");
  }

  /** A string without the character `c` holds no occurrence of `[c]`. */
  lemma CharFree(s: string, c: char)
    requires c !in s
    ensures !Contains(s, [c])
  {
    forall i: nat | i <= |s|
      ensures !OccursAt(s, [c], i)
    {
      if i + 1 <= |s| {
        assert s[i..i + 1] == [s[i]];
      }
    }
  }

  // ---------------------------------------------------------------------
  // Writing the outputs

  /** One media type's pair of files, as the loop would write them. */
  datatype Output = Output(urlFile: string, urlText: string, configFile: string, configText: string)

  /** The configured file name, prefixed by the media type only when there
      is more than one media type. */
  function OutputName(mediaType: string, name: string, multiple: bool): (r: string)
    ensures !multiple ==> r == name
  {
    if multiple then PrefixFilename(MediaTypePrefix(mediaType), name) else name
  }

  /** The configuration text of a field table with `file` as its URL
      file. */
  function ConfigText(vars: map<string, string>, table: seq<S.Field>, file: string, varOrder: seq<string>, fmt: S.Formats): string
    requires |table| == 48
  {
    S.Lines(S.RenderLines(vars, varOrder, table[24 := S.Field("file,omitempty", S.Text(file))], fmt))
  }

  /** Every output's configuration text is `table` rendered with that
      output's URL file. */
  predicate ConfigsRendered(outputs: seq<Output>, vars: map<string, string>, table: seq<S.Field>, varOrder: seq<string>, fmt: S.Formats)
    requires |table| == 48
  {
    forall i :: 0 <= i < |outputs| ==> outputs[i].configText == ConfigText(vars, table, outputs[i].urlFile, varOrder, fmt)
  }

  /** The URL file name, the URL text and the configuration file name the
      loop produces for each media type, in order. */
  function Plan(mediaTypes: seq<string>, urls: seq<UrlData>, urlFile: string, configFile: string, multiple: bool): seq<(string, string, string)> {
    if |mediaTypes| == 0 then []
    else
      var mediaType := mediaTypes[|mediaTypes| - 1];
      Plan(mediaTypes[..|mediaTypes| - 1], urls, urlFile, configFile, multiple)
        + [(OutputName(mediaType, urlFile, multiple), StringByMediaType(urls, mediaType), OutputName(mediaType, configFile, multiple))]
  }

  /** Appending the output of the `i`-th media type keeps the outputs in
      step with the plan. */
  lemma Extend(outputs: seq<Output>, output: Output, mediaTypes: seq<string>, i: nat, urls: seq<UrlData>, urlFile: string, configFile: string, multiple: bool,
               vars: map<string, string>, table: seq<S.Field>, varOrder: seq<string>, fmt: S.Formats)
    requires i < |mediaTypes| && |outputs| == i && |table| == 48
    requires Written(outputs) == Plan(mediaTypes[..i], urls, urlFile, configFile, multiple)
    requires ConfigsRendered(outputs, vars, table, varOrder, fmt)
    requires output.urlFile == OutputName(mediaTypes[i], urlFile, multiple)
    requires output.urlText == StringByMediaType(urls, mediaTypes[i])
    requires output.configFile == OutputName(mediaTypes[i], configFile, multiple)
    requires output.configText == ConfigText(vars, table, output.urlFile, varOrder, fmt)
    ensures Written(outputs + [output]) == Plan(mediaTypes[..i + 1], urls, urlFile, configFile, multiple)
    ensures ConfigsRendered(outputs + [output], vars, table, varOrder, fmt)
  {
    PlanStep(mediaTypes, i, urls, urlFile, configFile, multiple);
    assert (outputs + [output])[..i] == outputs;
  }

  lemma PlanStep(mediaTypes: seq<string>, i: nat, urls: seq<UrlData>, urlFile: string, configFile: string, multiple: bool)
    requires i < |mediaTypes|
    ensures Plan(mediaTypes[..i + 1], urls, urlFile, configFile, multiple)
      == Plan(mediaTypes[..i], urls, urlFile, configFile, multiple)
        + [(OutputName(mediaTypes[i], urlFile, multiple), StringByMediaType(urls, mediaTypes[i]), OutputName(mediaTypes[i], configFile, multiple))]
  {
    assert mediaTypes[..i + 1][..i] == mediaTypes[..i];
  }

  /** The names and URL text of each output. */
  function Written(outputs: seq<Output>): seq<(string, string, string)> {
    if |outputs| == 0 then []
    else
      var o := outputs[|outputs| - 1];
      Written(outputs[..|outputs| - 1]) + [(o.urlFile, o.urlText, o.configFile)]
  }

  /** The plan, entry by entry: the files of the `i`-th media type carry its
      prefix exactly when there are several media types, and its URL file
      holds its entries. */
  lemma {:induction false} PlanEntries(mediaTypes: seq<string>, urls: seq<UrlData>, urlFile: string, configFile: string, multiple: bool)
    ensures |Plan(mediaTypes, urls, urlFile, configFile, multiple)| == |mediaTypes|
    ensures forall i :: 0 <= i < |mediaTypes| ==>
      Plan(mediaTypes, urls, urlFile, configFile, multiple)[i]
        == (OutputName(mediaTypes[i], urlFile, multiple), StringByMediaType(urls, mediaTypes[i]), OutputName(mediaTypes[i], configFile, multiple))
    decreases |mediaTypes|
  {
    if |mediaTypes| > 0 {
      var init := mediaTypes[..|mediaTypes| - 1];
      PlanEntries(init, urls, urlFile, configFile, multiple);
      forall i | 0 <= i < |init|
        ensures mediaTypes[i] == init[i]
      {
      }
    }
  }

  /** The names and text of what was written, output by output. */
  lemma {:induction false} WrittenEntries(outputs: seq<Output>)
    ensures |Written(outputs)| == |outputs|
    ensures forall i :: 0 <= i < |outputs| ==>
      Written(outputs)[i] == (outputs[i].urlFile, outputs[i].urlText, outputs[i].configFile)
    decreases |outputs|
  {
    if |outputs| > 0 {
      WrittenEntries(outputs[..|outputs| - 1]);
    }
  }

  /** One turn of the loop: the file names for the media type, its URL text,
      and the configuration rendered with its URL file. */
  method WriteOne(urls: seq<UrlData>, mediaType: string, multiple: bool, conf: S.SiegeConfig, urlFile: string, configFile: string, varOrder: seq<string>, fmt: S.Formats, ghost table: seq<S.Field>)
    returns (output: Output)
    requires S.Enumerates(varOrder, conf.variables) && S.Enumerates(fmt.headerOrder, conf.headers)
    requires conf.TableWith("") == table
    modifies conf`urlFile
    ensures conf.TableWith("") == table
    ensures conf.urlFile == output.urlFile
    ensures output.urlFile == OutputName(mediaType, urlFile, multiple)
    ensures output.urlText == StringByMediaType(urls, mediaType)
    ensures output.configFile == OutputName(mediaType, configFile, multiple)
    ensures output.configText == ConfigText(conf.variables, table, output.urlFile, varOrder, fmt)
  {
    var myUrlFile := OutputName(mediaType, urlFile, multiple);
    var myConfigFile := OutputName(mediaType, configFile, multiple);
    conf.urlFile := myUrlFile;
    var configText := conf.String(varOrder, fmt);
    conf.TableWithFile(myUrlFile, "");
    output := Output(myUrlFile, StringByMediaType(urls, mediaType), myConfigFile, configText);
  }

  /** The end of the conversion: the request method becomes GET, and for
      each distinct media type, in order, a URL file holding that media
      type's entries is written, and the configuration is rendered with
      that URL file. */
  method WriteOutputs(urls: seq<UrlData>, conf: S.SiegeConfig, urlFile: string, configFile: string, varOrder: seq<string>, fmt: S.Formats)
    returns (outputs: seq<Output>)
    requires S.Enumerates(varOrder, conf.variables) && S.Enumerates(fmt.headerOrder, conf.headers)
    modifies conf`getMethod, conf`urlFile
    ensures conf.getMethod == "GET"
    ensures Written(outputs) == Plan(MediaTypes(urls), urls, urlFile, configFile, |MediaTypes(urls)| > 1)
    ensures ConfigsRendered(outputs, conf.variables, conf.TableWith(""), varOrder, fmt)
    ensures |outputs| > 0 ==> conf.urlFile == outputs[|outputs| - 1].urlFile
    ensures |outputs| == 0 ==> conf.urlFile == old(conf.urlFile)
  {
    conf.getMethod := "GET";
    outputs := WriteAll(urls, MediaTypes(urls), conf, urlFile, configFile, varOrder, fmt);
  }

  /** The loop over the media types. */
  method WriteAll(urls: seq<UrlData>, mediaTypes: seq<string>, conf: S.SiegeConfig, urlFile: string, configFile: string, varOrder: seq<string>, fmt: S.Formats)
    returns (outputs: seq<Output>)
    requires S.Enumerates(varOrder, conf.variables) && S.Enumerates(fmt.headerOrder, conf.headers)
    modifies conf`urlFile
    ensures |outputs| == |mediaTypes|
    ensures Written(outputs) == Plan(mediaTypes, urls, urlFile, configFile, |mediaTypes| > 1)
    ensures ConfigsRendered(outputs, conf.variables, conf.TableWith(""), varOrder, fmt)
    ensures |outputs| > 0 ==> conf.urlFile == outputs[|outputs| - 1].urlFile
    ensures |outputs| == 0 ==> conf.urlFile == old(conf.urlFile)
  {
    var multiple := |mediaTypes| > 1;
    ghost var table := conf.TableWith("");
    outputs := [];
    var i := 0;
    while i < |mediaTypes|
      invariant 0 <= i <= |mediaTypes|
      invariant |outputs| == i
      invariant conf.TableWith("") == table
      invariant Written(outputs) == Plan(mediaTypes[..i], urls, urlFile, configFile, multiple)
      invariant ConfigsRendered(outputs, conf.variables, table, varOrder, fmt)
      invariant i > 0 ==> conf.urlFile == outputs[i - 1].urlFile
      invariant i == 0 ==> conf.urlFile == old(conf.urlFile)
    {
      outputs := WriteNext(outputs, urls, mediaTypes, i, conf, urlFile, configFile, varOrder, fmt, table);
      i := i + 1;
    }
    assert mediaTypes[..i] == mediaTypes;
  }

  /** One turn of the loop over the media types: the `i`-th one's files. */
  method WriteNext(outputs: seq<Output>, urls: seq<UrlData>, mediaTypes: seq<string>, i: nat, conf: S.SiegeConfig, urlFile: string, configFile: string,
                   varOrder: seq<string>, fmt: S.Formats, ghost table: seq<S.Field>)
    returns (next: seq<Output>)
    requires S.Enumerates(varOrder, conf.variables) && S.Enumerates(fmt.headerOrder, conf.headers)
    requires i < |mediaTypes| && |outputs| == i && conf.TableWith("") == table
    requires Written(outputs) == Plan(mediaTypes[..i], urls, urlFile, configFile, |mediaTypes| > 1)
    requires ConfigsRendered(outputs, conf.variables, table, varOrder, fmt)
    modifies conf`urlFile
    ensures |next| == i + 1 && conf.TableWith("") == table
    ensures Written(next) == Plan(mediaTypes[..i + 1], urls, urlFile, configFile, |mediaTypes| > 1)
    ensures ConfigsRendered(next, conf.variables, table, varOrder, fmt)
    ensures conf.urlFile == next[i].urlFile
  {
    var multiple := |mediaTypes| > 1;
    var output := WriteOne(urls, mediaTypes[i], multiple, conf, urlFile, configFile, varOrder, fmt, table);
    Extend(outputs, output, mediaTypes, i, urls, urlFile, configFile, multiple, conf.variables, table, varOrder, fmt);
    next := outputs + [output];
  }

  // ---------------------------------------------------------------------
  // Entries without a media type

  /** As written, a conversion that succeeds leaves every entry without a
      media type, so the loop over the media types has nothing to visit:
      neither a URL file nor a configuration file is written. */
  lemma NothingWritten(doc: V.Document, s: V.Settings, keys: seq<string>, marshal: P.Value -> string, urlFile: string, configFile: string)
    requires S.Enumerates(keys, doc.paths)
    requires V.HandleSpec(doc, s, keys, marshal).Ok?
    ensures var u := V.HandleSpec(doc, s, keys, marshal).value.urls;
      Plan(MediaTypes(u), u, urlFile, configFile, |MediaTypes(u)| > 1) == []
  {
    V.HandleRequestsShape(doc, s, keys, marshal);
  }

  /** The media types the loop is meant to visit: those the entries carry,
      or, when none carries one, the empty media type once, which keeps
      the configured file names and selects every entry. */
  function IntendedMediaTypes(urls: seq<UrlData>): (r: seq<string>)
    ensures |r| > 0
    ensures |MediaTypes(urls)| > 0 ==> r == MediaTypes(urls)
  {
    if |MediaTypes(urls)| == 0 then [""] else MediaTypes(urls)
  }

  /** With the fallback, a list whose entries carry no media type is
      written once, under the configured names, with every entry. */
  lemma FallbackWritesWholeList(urls: seq<UrlData>, urlFile: string, configFile: string)
    requires forall k :: 0 <= k < |urls| ==> urls[k].mediaType == ""
    ensures var types := IntendedMediaTypes(urls);
      Plan(types, urls, urlFile, configFile, |types| > 1) == [(urlFile, ListString(urls), configFile)]
  {
    UnsetMediaTypes(urls, "");
    assert IntendedMediaTypes(urls) == [""];
    PlanEntries([""], urls, urlFile, configFile, false);
  }

  /** With the fallback, every conversion that succeeds writes exactly one
      URL file and one configuration file, under the configured names,
      holding every request. */
  lemma ConversionWritesOnce(doc: V.Document, s: V.Settings, keys: seq<string>, marshal: P.Value -> string, urlFile: string, configFile: string)
    requires S.Enumerates(keys, doc.paths)
    requires V.HandleSpec(doc, s, keys, marshal).Ok?
    ensures var u := V.HandleSpec(doc, s, keys, marshal).value.urls;
      var types := IntendedMediaTypes(u);
      Plan(types, u, urlFile, configFile, |types| > 1) == [(urlFile, ListString(u), configFile)]
  {
    V.HandleRequestsShape(doc, s, keys, marshal);
    FallbackWritesWholeList(V.HandleSpec(doc, s, keys, marshal).value.urls, urlFile, configFile);
  }

  /** The write step with the fallback: at least one pair of files is
      written, one per media type the list is meant to be split by. */
  method WriteIntendedOutputs(urls: seq<UrlData>, conf: S.SiegeConfig, urlFile: string, configFile: string, varOrder: seq<string>, fmt: S.Formats)
    returns (outputs: seq<Output>)
    requires S.Enumerates(varOrder, conf.variables) && S.Enumerates(fmt.headerOrder, conf.headers)
    modifies conf`getMethod, conf`urlFile
    ensures conf.getMethod == "GET"
    ensures |outputs| > 0 && conf.urlFile == outputs[|outputs| - 1].urlFile
    ensures Written(outputs) == Plan(IntendedMediaTypes(urls), urls, urlFile, configFile, |IntendedMediaTypes(urls)| > 1)
    ensures ConfigsRendered(outputs, conf.variables, conf.TableWith(""), varOrder, fmt)
  {
    conf.getMethod := "GET";
    outputs := WriteAll(urls, IntendedMediaTypes(urls), conf, urlFile, configFile, varOrder, fmt);
  }
}
