/**
 * `ImageJUtil.createJSONConfiguration`: the descriptor of a points or pixels
 * layer built from a source path. In folder mode the directory listing is
 * scanned for tiles named `..._X<n>..._Y<n>...`; the tile counts come from
 * the spread of their coordinates, the sizes from the dimensions of the first
 * tile, and a display-name template from the first tile's name. The listing,
 * the dimension probe and the user name are inputs of the model.
 */
module ImageJUtil {
  import opened Wrappers
  import opened Text
  import NodePath

  // ---------------------------------------------------------------------------
  // Modes and inputs

  /** `ImageJUtil.LayersMode`. */
  const SingleImage: int := 0
  const Folder: int := 1
  const ImageList: int := 2

  /** What `fs.stat` reports for an entry: whether it is a regular file, or an error. */
  datatype Stat = Stats(isFile: bool) | StatError

  /** One directory entry: its name and what `stat` reports for it. */
  datatype Entry = Entry(name: string, stat: Stat)

  /** What `ImageJUtil.Image.getSize` reports for a path. */
  datatype Probe = Dimensions(width: nat, height: nat) | ProbeError

  // ---------------------------------------------------------------------------
  // Tile coordinates in file names

  /** A match of `/_X[0-9]+/` (or `_Y`): where it starts and its digits. */
  datatype Tag = Tag(start: nat, digits: string)

  /** `_<axis><digit>` starts at index `i`. */
  predicate TagAt(s: string, i: int, axis: char) {
    0 <= i && i + 2 < |s| && s[i] == '_' && s[i + 1] == axis && IsDigit(s[i + 2])
  }

  /** The longest run of digits at the start of `s`. */
  function LeadingDigits(s: string): (r: string)
    ensures |r| <= |s| && r == s[..|r|] && AllDigits(r)
    ensures |r| == |s| || !IsDigit(s[|r|])
  {
    if s != [] && IsDigit(s[0]) then [s[0]] + LeadingDigits(s[1..]) else []
  }

  /** The leftmost match of `/_<axis>[0-9]+/` at or after `from`, digits taken greedily. */
  function FindTag(s: string, axis: char, from: nat): (r: Option<Tag>)
    ensures r.Some? ==> from <= r.value.start && TagAt(s, r.value.start, axis)
    ensures r.Some? ==> AllDigits(r.value.digits)
    decreases |s| - from
  {
    if from + 2 >= |s| then None
    else if TagAt(s, from, axis) then Some(Tag(from, LeadingDigits(s[from + 2..])))
    else FindTag(s, axis, from + 1)
  }

  /**
   * `FindTag` finds the leftmost tag at or after `from`, with all the digits
   * that follow it; when it finds none, there is none.
   */
  lemma {:induction false} FindTagLeftmost(s: string, axis: char, from: nat)
    ensures var r := FindTag(s, axis, from);
      && (r.Some? ==> r.value.digits == LeadingDigits(s[r.value.start + 2..]))
      && (r.Some? ==> forall j :: from <= j < r.value.start ==> !TagAt(s, j, axis))
      && (r.None? ==> forall j :: from <= j ==> !TagAt(s, j, axis))
    decreases |s| - from
  {
    if from + 2 < |s| && !TagAt(s, from, axis) {
      FindTagLeftmost(s, axis, from + 1);
    }
  }

  /** The text the regular expression matched: `_<axis><digits>`. */
  function MatchText(axis: char, t: Tag): string {
    ['_', axis] + t.digits
  }

  /** A regular file whose name has both an `_X<n>` and a `_Y<n>` is a tile. */
  predicate IsTile(e: Entry) {
    e.stat == Stats(true) && FindTag(e.name, 'X', 0).Some? && FindTag(e.name, 'Y', 0).Some?
  }

  /** The number in the first `_<axis><n>` of a name (0 when there is none). */
  function Coordinate(name: string, axis: char): nat {
    match FindTag(name, axis, 0)
    case Some(t) => DecimalValue(t.digits)
    case None => 0
  }

  /**
   * The display-name template: the name split on its `_X<n>` text, the first
   * two pieces joined by `_X{x}`, and that result split on the `_Y<n>` text,
   * its first two pieces joined by `_Y{y}`. A second piece that does not
   * exist renders as `undefined`, as the template literal does.
   */
  function Template(name: string): string
    requires FindTag(name, 'X', 0).Some? && FindTag(name, 'Y', 0).Some?
  {
    var xm := MatchText('X', FindTag(name, 'X', 0).value);
    var ym := MatchText('Y', FindTag(name, 'Y', 0).value);
    var temp := SplitHead(name, xm) + "_X{x}" + OrUndefined(SplitSecond(name, xm));
    SplitHead(temp, ym) + "_Y{y}" + OrUndefined(SplitSecond(temp, ym))
  }

  // ---------------------------------------------------------------------------
  // The folder scan

  /** The tiles of a listing, in listing order. */
  function Tiles(files: seq<Entry>): (ts: seq<Entry>)
    ensures |ts| <= |files|
    ensures forall e :: e in ts ==> e in files && IsTile(e)
    ensures forall e :: e in files && IsTile(e) ==> e in ts
  {
    if files == [] then []
    else Tiles(files[..|files| - 1]) + (if IsTile(files[|files| - 1]) then [files[|files| - 1]] else [])
  }

  /** Tiles are picked from each part of a listing independently, and one entry is kept exactly when it is a tile. */
  lemma {:induction false} TilesAppend(u: seq<Entry>, v: seq<Entry>)
    ensures Tiles(u + v) == Tiles(u) + Tiles(v)
    decreases |v|
  {
    if v == [] {
      assert u + v == u;
    } else {
      var init, last := v[..|v| - 1], v[|v| - 1];
      assert (u + v)[..|u + v| - 1] == u + init;
      TilesAppend(u, init);
    }
  }

  lemma TilesSingle(e: Entry)
    ensures Tiles([e]) == (if IsTile(e) then [e] else [])
  {
    assert [e][..0] == [];
  }

  function Coordinates(ts: seq<Entry>, axis: char): (cs: seq<nat>)
    ensures |cs| == |ts|
    ensures forall k :: 0 <= k < |ts| ==> cs[k] == Coordinate(ts[k].name, axis)
  {
    if ts == [] then [] else Coordinates(ts[..|ts| - 1], axis) + [Coordinate(ts[|ts| - 1].name, axis)]
  }

  /** The first tile's name: the image that is probed and named by the template. */
  function FirstTile(files: seq<Entry>): Option<string> {
    var ts := Tiles(files);
    if ts == [] then None else Some(ts[0].name)
  }

  function TemplateOf(first: Option<string>): Option<string> {
    match first
    case None => None
    case Some(name) =>
      if FindTag(name, 'X', 0).Some? && FindTag(name, 'Y', 0).Some? then Some(Template(name)) else None
  }

  /** The four variables of the scan. */
  datatype ScanState = ScanState(xValues: seq<nat>, yValues: seq<nat>, aImage: Option<string>, template: Option<string>)

  /** What one directory entry does to the scan. */
  function Visit(st: ScanState, file: Entry): ScanState {
    if IsTile(file) then
      ScanState(st.xValues + [Coordinate(file.name, 'X')], st.yValues + [Coordinate(file.name, 'Y')],
                if st.aImage.None? then Some(file.name) else st.aImage,
                if st.template.None? then Some(Template(file.name)) else st.template)
    else st
  }

  /** The scan over a listing, one entry after the other. */
  function Scan(files: seq<Entry>): ScanState {
    if files == [] then ScanState([], [], None, None)
    else Visit(Scan(files[..|files| - 1]), files[|files| - 1])
  }

  /** The template is always the one of the representative image, a name with both tags. */
  lemma {:induction false} ScanTemplate(files: seq<Entry>)
    ensures Scan(files).aImage.Some? ==>
      FindTag(Scan(files).aImage.value, 'X', 0).Some? && FindTag(Scan(files).aImage.value, 'Y', 0).Some?
    ensures Scan(files).template == TemplateOf(Scan(files).aImage)
  {
    if files != [] {
      ScanTemplate(files[..|files| - 1]);
    }
  }

  lemma CoordinatesSnoc(ts: seq<Entry>, e: Entry, axis: char)
    ensures Coordinates(ts + [e], axis) == Coordinates(ts, axis) + [Coordinate(e.name, axis)]
  {
    assert (ts + [e])[..|ts|] == ts;
  }

  /** The coordinate lists hold the coordinates of every tile, in listing order. */
  lemma {:induction false} ScanCoordinates(files: seq<Entry>)
    ensures Scan(files).xValues == Coordinates(Tiles(files), 'X')
    ensures Scan(files).yValues == Coordinates(Tiles(files), 'Y')
  {
    if files != [] {
      var init, last := files[..|files| - 1], files[|files| - 1];
      ScanCoordinates(init);
      if IsTile(last) {
        CoordinatesSnoc(Tiles(init), last, 'X');
        CoordinatesSnoc(Tiles(init), last, 'Y');
      } else {
        assert Tiles(files) == Tiles(init) + [] == Tiles(init);
      }
    }
  }

  /** The representative image is the first tile. */
  lemma {:induction false} ScanFirstTile(files: seq<Entry>)
    ensures Scan(files).aImage == FirstTile(files)
  {
    if files != [] {
      var init, last := files[..|files| - 1], files[|files| - 1];
      ScanFirstTile(init);
      var ts := Tiles(init);
      if IsTile(last) {
        assert Tiles(files) == ts + [last];
        if ts != [] {
          assert Tiles(files)[0] == ts[0];
        }
      } else {
        assert Tiles(files) == ts + [] == ts;
      }
    }
  }

  /**
   * After the scan the coordinate lists hold the coordinates of every tile in
   * listing order, and the representative image and the template both come
   * from the first tile.
   */
  lemma ScanMeaning(files: seq<Entry>)
    ensures Scan(files).xValues == Coordinates(Tiles(files), 'X')
    ensures Scan(files).yValues == Coordinates(Tiles(files), 'Y')
    ensures Scan(files).aImage == FirstTile(files)
    ensures Scan(files).template == TemplateOf(FirstTile(files))
  {
    ScanCoordinates(files);
    ScanFirstTile(files);
    ScanTemplate(files);
  }

  /**
   * The `files.forEach` scan: every tile pushes its coordinates, and the
   * first one found becomes the representative image and the template.
   */
  method ScanFolder(files: seq<Entry>)
    returns (xValues: seq<nat>, yValues: seq<nat>, aImage: Option<string>, template: Option<string>)
    ensures xValues == Coordinates(Tiles(files), 'X')
    ensures yValues == Coordinates(Tiles(files), 'Y')
    ensures aImage == FirstTile(files)
    ensures template == TemplateOf(FirstTile(files))
  {
    xValues, yValues, aImage, template := [], [], None, None;
    var k := 0;
    while k < |files|
      invariant 0 <= k <= |files|
      invariant ScanState(xValues, yValues, aImage, template) == Scan(files[..k])
    {
      var file := files[k];
      assert files[..k + 1][..k] == files[..k];
      if file.stat.Stats? && file.stat.isFile {
        var xString := FindTag(file.name, 'X', 0);
        var yString := FindTag(file.name, 'Y', 0);
        if xString.Some? && yString.Some? {
          xValues := xValues + [DecimalValue(xString.value.digits)];
          yValues := yValues + [DecimalValue(yString.value.digits)];
          if aImage.None? {
            aImage := Some(file.name);
          }
          if template.None? {
            template := Some(Template(file.name));
          }
        }
      }
      k := k + 1;
    }
    assert files[..|files|] == files;
    ScanMeaning(files);
  }

  // ---------------------------------------------------------------------------
  // Tile arithmetic

  function Min(vs: seq<nat>): (m: nat)
    requires |vs| > 0
    ensures m in vs && forall k :: 0 <= k < |vs| ==> m <= vs[k]
  {
    if |vs| == 1 then vs[0]
    else
      var m := Min(vs[1..]);
      assert m in vs;
      if vs[0] <= m then vs[0] else m
  }

  function Max(vs: seq<nat>): (m: nat)
    requires |vs| > 0
    ensures m in vs && forall k :: 0 <= k < |vs| ==> vs[k] <= m
  {
    if |vs| == 1 then vs[0]
    else
      var m := Max(vs[1..]);
      assert m in vs;
      if vs[0] >= m then vs[0] else m
  }

  /** `max - min + 1`: how many tiles the coordinates span along one axis. */
  function TileCount(vs: seq<nat>): (n: nat)
    requires |vs| > 0
    ensures n >= 1
    ensures forall k :: 0 <= k < |vs| ==> vs[k] - Min(vs) < n
  {
    Max(vs) - Min(vs) + 1
  }

  /** The pair `[tileSize, size]` the dimension promise resolves with. */
  datatype Sizes = Sizes(tileSize: nat, size: nat)

  function MaxNat(a: nat, b: nat): nat {
    if a >= b then a else b
  }

  /** `count * side`: the pixels spanned by `count` tiles of `side` pixels. */
  function Span(count: nat, side: nat): (r: nat)
    ensures count >= 1 ==> r >= side
  {
    if count == 0 then 0 else side + Span(count - 1, side)
  }

  lemma {:induction false} SpanIsProduct(count: nat, side: nat)
    ensures Span(count, side) == count * side
  {
    if count > 0 {
      SpanIsProduct(count - 1, side);
    }
  }

  /** More tiles span at least as many pixels. */
  lemma {:induction false} SpanMonotonic(a: nat, b: nat, side: nat)
    requires a <= b
    ensures Span(a, side) <= Span(b, side)
  {
    if a < b {
      SpanMonotonic(a, b - 1, side);
    }
  }

  /**
   * A mosaic of `xTiles` by `yTiles` images of `width` by `height` pixels:
   * the tile size is the larger side of one image, the size the larger
   * side of the whole mosaic.
   */
  function MosaicSizes(width: nat, height: nat, xTiles: nat, yTiles: nat): (s: Sizes)
    requires xTiles >= 1 && yTiles >= 1
    ensures s.tileSize == MaxNat(width, height)
    ensures s.size >= s.tileSize
    ensures s.size >= Span(xTiles, width) && s.size >= Span(yTiles, height)
    ensures s.size == Span(xTiles, width) || s.size == Span(yTiles, height)
  {
    Sizes(MaxNat(width, height), MaxNat(Span(xTiles, width), Span(yTiles, height)))
  }

  /** The outcome of the dimension promise. */
  datatype DimOutcome =
    | Resolved(sizes: Sizes, template: Option<string>)
    | Rejected
    | Pending

  /** Every `stat` call of the listing succeeds, so every per-entry promise settles. */
  predicate StatsSettle(files: seq<Entry>) {
    forall k :: 0 <= k < |files| ==> files[k].stat.Stats?
  }

  /**
   * The dimension promise. A listing of `None` is a `readdir` error: the
   * callback throws and the promise never settles; so does a listing with an
   * entry whose `stat` fails, because that entry's callback throws before
   * resolving and `Promise.all` waits for it forever; so does a folder
   * without tiles, whose representative image is `undefined`; and so does a
   * mode outside the three known ones.
   */
  function LayerDimensions(sourcePath: string, mode: int, listing: Option<seq<Entry>>, probe: string -> Probe): (d: DimOutcome)
    ensures d.Resolved? ==> d.sizes.tileSize <= d.sizes.size
    ensures mode != SingleImage && mode != Folder && mode != ImageList ==> d.Pending?
    ensures mode == ImageList ==> d == Resolved(Sizes(256, 256), None)
    ensures d.Resolved? && d.template.Some? ==> mode == Folder
  {
    if mode == Folder then
      match listing
      case None => Pending
      case Some(files) =>
        var ts := Tiles(files);
        if !StatsSettle(files) || ts == [] then Pending
        else
          var xTiles := TileCount(Coordinates(ts, 'X'));
          var yTiles := TileCount(Coordinates(ts, 'Y'));
          match probe(NodePath.Join([sourcePath, ts[0].name]))
          case Dimensions(w, h) => Resolved(MosaicSizes(w, h, xTiles, yTiles), TemplateOf(FirstTile(files)))
          case ProbeError => Rejected
    else if mode == SingleImage then
      match probe(sourcePath)
      case Dimensions(w, h) => Resolved(Sizes(MaxNat(w, h), MaxNat(w, h)), None)
      case ProbeError => Rejected
    else if mode == ImageList then Resolved(Sizes(256, 256), None)
    else Pending
  }

  // ---------------------------------------------------------------------------
  // The layer descriptor

  datatype PointsOptions = PointsOptions(
    tileSize: nat, size: nat, bounds: seq<seq<int>>, localRS: bool, grid: bool,
    color: string, fillColor: string, radius: nat)

  /** The configuration object handed to `next`; `EmptyConfig` is `{}`. */
  datatype LayerConfig =
    | EmptyConfig
    | PointsLayer(name: string, author: string, kind: string, url: string, options: PointsOptions)
    | PixelsLayer(name: string, author: string, kind: string, role: string,
                  tileSize: nat, size: nat, norm: nat, pixelsUrlTemplate: string)
  {
    /** `config.name` in a template literal. */
    function Name(): string {
      if EmptyConfig? then "undefined" else name
    }
  }

  /** The name the layer takes: the folder template, or else the source's basename. */
  function LayerFileName(sourcePath: string, template: Option<string>): string {
    match template
    case Some(t) => t
    case None => NodePath.Basename(sourcePath)
  }

  /** The `switch (layerType)` that builds the descriptor from the resolved sizes. */
  function Descriptor(layerType: string, filename: string, sizes: Sizes, author: string): (c: LayerConfig)
    ensures layerType == "points" <==> c.PointsLayer?
    ensures layerType == "pixels" <==> c.PixelsLayer?
  {
    if layerType == "points" then
      PointsLayer("centroid_" + filename, author, "csvTiles",
                  "points_" + ReplaceAll(filename, ' ', '_') + ".csv",
                  PointsOptions(sizes.tileSize, sizes.size, [[-256, 0], [0, 256]], true, true, "blue", "blue", 5))
    else if layerType == "pixels" then
      PixelsLayer("holes_" + filename, author, "pixelsLayer", "holes",
                  sizes.tileSize, sizes.size, 1, "holes_" + ReplaceAll(filename, ' ', '_') + ".txt")
    else EmptyConfig
  }

  /**
   * `createJSONConfiguration(sourcePath, destinationPath, mode, layerType, next)`:
   * the configuration passed to `next`, or `None` when `next` is never called.
   * `destinationPath` is accepted and, as in the source, not used.
   */
  function JsonConfiguration(sourcePath: string, destinationPath: string, mode: int, layerType: string,
                             listing: Option<seq<Entry>>, probe: string -> Probe, author: string): Option<LayerConfig>
  {
    match LayerDimensions(sourcePath, mode, listing, probe)
    case Resolved(sizes, template) => Some(Descriptor(layerType, LayerFileName(sourcePath, template), sizes, author))
    case _ => None
  }

  /** The folder branch of the dimension promise, with the listing scanned step by step. */
  method FolderDimensions(sourcePath: string, files: seq<Entry>, probe: string -> Probe) returns (dims: DimOutcome)
    ensures dims == LayerDimensions(sourcePath, Folder, Some(files), probe)
  {
    var xValues, yValues, aImage, template := ScanFolder(files);
    if !StatsSettle(files) || aImage.None? {
      dims := Pending;
    } else {
      ghost var ts := Tiles(files);
      assert ts != [] && aImage.value == ts[0].name;
      var xTiles := TileCount(xValues);
      var yTiles := TileCount(yValues);
      var probed := probe(NodePath.Join([sourcePath, aImage.value]));
      if probed.Dimensions? {
        dims := Resolved(MosaicSizes(probed.width, probed.height, xTiles, yTiles), template);
      } else {
        dims := Rejected;
      }
    }
  }

  /** The same computation, with the folder scanned step by step. */
  method CreateJsonConfiguration(sourcePath: string, destinationPath: string, mode: int, layerType: string,
                                 listing: Option<seq<Entry>>, probe: string -> Probe, author: string)
    returns (config: Option<LayerConfig>)
    ensures config == JsonConfiguration(sourcePath, destinationPath, mode, layerType, listing, probe, author)
  {
    var dims: DimOutcome;
    if mode == Folder {
      if listing.None? {
        dims := Pending;
      } else {
        dims := FolderDimensions(sourcePath, listing.value, probe);
      }
    } else if mode == SingleImage {
      var probed := probe(sourcePath);
      if probed.Dimensions? {
        var tileSize := MaxNat(probed.width, probed.height);
        dims := Resolved(Sizes(tileSize, tileSize), None);
      } else {
        dims := Rejected;
      }
    } else if mode == ImageList {
      dims := Resolved(Sizes(256, 256), None);
    } else {
      dims := Pending;
    }
    if dims.Resolved? {
      var filename := if dims.template.Some? then dims.template.value else NodePath.Basename(sourcePath);
      config := Some(Descriptor(layerType, filename, dims.sizes, author));
    } else {
      config := None;
    }
  }

  // ---------------------------------------------------------------------------
  // Properties

  /** `m` followed by text that does not start with a digit: the digit run is `m`. */
  lemma {:induction false} LeadingDigitsOf(m: string, rest: string)
    requires AllDigits(m)
    requires rest == [] || !IsDigit(rest[0])
    ensures LeadingDigits(m + rest) == m
  {
    if m != [] {
      assert (m + rest)[1..] == m[1..] + rest;
      LeadingDigitsOf(m[1..], rest);
    }
  }

  /** The character at `j` is not a `_` followed by `c` (nor a final `_`). */
  predicate NoUnderscoreBefore(s: string, j: int, c: char)
    requires 0 <= j < |s|
  {
    s[j] == '_' ==> j + 1 < |s| && s[j + 1] != c
  }

  /** Every `_` of `s` is followed by a character other than `c`. */
  predicate UnderscoresNotBefore(s: string, c: char) {
    forall j :: 0 <= j < |s| ==> NoUnderscoreBefore(s, j, c)
  }

  /** In `s`, no occurrence of a pattern `_c...` starts at an index `j` of `p` that keeps `_c` apart. */
  lemma NoPatternAt(s: string, p: string, pat: string, j: nat)
    requires |pat| >= 2 && pat[0] == '_' && UnderscoresNotBefore(p, pat[1])
    requires j < |p| <= |s| && s[..|p|] == p
    ensures !OccursAt(s, pat, j)
  {
    assert NoUnderscoreBefore(p, j, pat[1]);
    assert s[j] == p[j];
    if j + 1 < |p| {
      assert s[j + 1] == p[j + 1];
    }
    if j + |pat| <= |s| {
      assert s[j..j + |pat|][0] == s[j] && s[j..j + |pat|][1] == s[j + 1];
    }
  }

  /** A pattern `_c...` that cannot start at any `_` of `s` does not occur in `s`. */
  lemma AbsentPattern(s: string, pat: string)
    requires |pat| >= 2 && pat[0] == '_' && UnderscoresNotBefore(s, pat[1])
    ensures IndexOf(s, pat) == None
    ensures SplitHead(s, pat) == s
  {
    assert s[..|s|] == s;
    forall j ensures !OccursAt(s, pat, j) {
      if 0 <= j < |s| {
        NoPatternAt(s, s, pat, j);
      }
    }
  }

  /** Two texts in which no `_` is followed by `c` make one. */
  lemma UnderscoresNotBeforeConcat(u: string, v: string, c: char)
    requires UnderscoresNotBefore(u, c) && UnderscoresNotBefore(v, c)
    ensures UnderscoresNotBefore(u + v, c)
  {
    var s := u + v;
    forall j | 0 <= j < |s| ensures NoUnderscoreBefore(s, j, c) {
      if j < |u| {
        assert NoUnderscoreBefore(u, j, c);
        assert s[j] == u[j];
        if j + 1 < |u| {
          assert s[j + 1] == u[j + 1];
        }
      } else {
        assert NoUnderscoreBefore(v, j - |u|, c);
        assert s[j] == v[j - |u|];
        if j + 1 < |s| {
          assert s[j + 1] == v[j + 1 - |u|];
        }
      }
    }
  }

  /** In `_<axis>` followed by a text without `_`, the one `_` is followed by `axis`, not by `c`. */
  lemma MarkNotBefore(axis: char, m: string, c: char)
    requires axis != c && axis != '_' && '_' !in m
    ensures UnderscoresNotBefore(['_', axis] + m, c)
  {
    var s := ['_', axis] + m;
    forall j | 0 <= j < |s| ensures NoUnderscoreBefore(s, j, c) {
      if j < 2 {
        assert s[0] == '_' && s[1] == axis;
      } else {
        assert s[j] == m[j - 2] && m[j - 2] in m;
      }
    }
  }

  /** ... nor before its occurrence right after `p`. */
  lemma FirstPattern(p: string, pat: string, rest: string)
    requires |pat| >= 2 && pat[0] == '_' && UnderscoresNotBefore(p, pat[1])
    ensures IndexOf(p + pat + rest, pat) == Some(|p|)
    ensures SplitHead(p + pat + rest, pat) == p
  {
    var s := p + pat + rest;
    IndexOfLeftmost(s, pat);
    assert s[|p|..|p| + |pat|] == pat;
    assert OccursAt(s, pat, |p|);
    assert s[..|p|] == p;
    forall j | 0 <= j < |p| ensures !OccursAt(s, pat, j) {
      NoPatternAt(s, p, pat, j);
    }
  }

  /** Splitting `p + pat + rest` on `pat`, when `pat` first occurs after `p` and not in `rest`. */
  lemma SplitAfter(p: string, pat: string, rest: string)
    requires IndexOf(p + pat + rest, pat) == Some(|p|)
    requires SplitHead(rest, pat) == rest
    ensures SplitHead(p + pat + rest, pat) == p
    ensures SplitSecond(p + pat + rest, pat) == Some(rest)
  {
    var s := p + pat + rest;
    assert s[..|p|] == p;
    assert s[|p| + |pat|..] == rest;
  }

  /** The leftmost tag of an axis, when no earlier position holds one. */
  lemma TagFoundAt(s: string, axis: char, i: nat)
    requires TagAt(s, i, axis)
    requires forall j :: 0 <= j < i ==> !TagAt(s, j, axis)
    ensures FindTag(s, axis, 0) == Some(Tag(i, LeadingDigits(s[i + 2..])))
  {
    FindTagLeftmost(s, axis, 0);
  }

  lemma TagSuffix(p: string, axis: char, m: string, rest: string)
    ensures (p + ['_', axis] + m + rest)[|p| + 2..] == m + rest
    ensures (p + ['_', axis] + m + rest)[..|p|] == p
  {
  }

  /** No tag starts inside a prefix `p` of `s` in which no `_` is followed by the axis letter. */
  lemma NoTagBefore(s: string, p: string, axis: char)
    requires |p| <= |s| && s[..|p|] == p && UnderscoresNotBefore(p, axis)
    ensures forall j :: 0 <= j < |p| ==> !TagAt(s, j, axis)
  {
    forall j | 0 <= j < |p| ensures !TagAt(s, j, axis) {
      assert NoUnderscoreBefore(p, j, axis);
      assert s[j] == p[j];
      if j + 1 < |p| {
        assert s[j + 1] == p[j + 1];
      }
    }
  }

  /** The first tag of an axis, in a name `p_<axis><m>rest` whose prefix holds none. */
  lemma TagFirst(p: string, axis: char, m: string, rest: string)
    requires UnderscoresNotBefore(p, axis)
    requires |m| > 0 && AllDigits(m)
    requires rest == [] || !IsDigit(rest[0])
    ensures FindTag(p + ['_', axis] + m + rest, axis, 0) == Some(Tag(|p|, m))
  {
    var s := p + ['_', axis] + m + rest;
    TagSuffix(p, axis, m, rest);
    LeadingDigitsOf(m, rest);
    assert s[|p|] == '_' && s[|p| + 1] == axis && s[|p| + 2] == m[0];
    NoTagBefore(s, p, axis);
    TagFoundAt(s, axis, |p|);
  }

  /** The name of a tile at `_X<m>` and `_Y<n>`, with text `a`, `b`, `c` around the tags. */
  function TileName(a: string, m: string, b: string, n: string, c: string): string {
    a + "_X" + m + b + "_Y" + n + c
  }

  lemma TileNameParts(a: string, m: string, b: string, n: string, c: string)
    ensures TileName(a, m, b, n, c) == a + ['_', 'X'] + m + (b + "_Y" + n + c)
    ensures TileName(a, m, b, n, c) == (a + "_X" + m + b) + ['_', 'Y'] + n + c
    ensures TileName(a, m, b, n, c) == a + ("_X" + m) + (b + ("_Y" + n) + c)
  {
  }

  lemma DigitsNoUnderscore(m: string)
    requires AllDigits(m)
    ensures '_' !in m
  {
    forall i | 0 <= i < |m| ensures m[i] != '_' {
      assert IsDigit(m[i]);
    }
  }

  /** No `_` of `s` is followed by `X` or `Y` (nor ends it): no tag text can start inside `s`. */
  predicate NoTagStart(s: string) {
    UnderscoresNotBefore(s, 'X') && UnderscoresNotBefore(s, 'Y')
  }

  lemma TileNameXTag(a: string, m: string, b: string, n: string, c: string)
    requires UnderscoresNotBefore(a, 'X')
    requires |m| > 0 && AllDigits(m)
    requires b == [] || !IsDigit(b[0])
    ensures FindTag(TileName(a, m, b, n, c), 'X', 0) == Some(Tag(|a|, m))
  {
    TileNameParts(a, m, b, n, c);
    var rest := b + "_Y" + n + c;
    assert rest == [] || !IsDigit(rest[0]) by {
      if b == [] { assert rest[0] == '_'; } else { assert rest[0] == b[0]; }
    }
    TagFirst(a, 'X', m, rest);
  }

  lemma TileNameYTag(a: string, m: string, b: string, n: string, c: string)
    requires UnderscoresNotBefore(a, 'Y') && UnderscoresNotBefore(b, 'Y') && AllDigits(m)
    requires |n| > 0 && AllDigits(n)
    requires c == [] || !IsDigit(c[0])
    ensures FindTag(TileName(a, m, b, n, c), 'Y', 0) == Some(Tag(|a| + 2 + |m| + |b|, n))
  {
    var p := a + "_X" + m + b;
    assert TileName(a, m, b, n, c) == p + ['_', 'Y'] + n + c by {
      TileNameParts(a, m, b, n, c);
    }
    assert UnderscoresNotBefore(p, 'Y') by {
      DigitsNoUnderscore(m);
      MarkNotBefore('X', m, 'Y');
      assert ['_', 'X'] + m == "_X" + m;
      UnderscoresNotBeforeConcat(a, "_X" + m, 'Y');
      UnderscoresNotBeforeConcat(a + ("_X" + m), b, 'Y');
      assert a + ("_X" + m) + b == p;
    }
    TagFirst(p, 'Y', n, c);
  }

  /** A tile name finds `m` as its X tag and `n` as its Y tag. */
  lemma TileNameTags(a: string, m: string, b: string, n: string, c: string)
    requires NoTagStart(a) && NoTagStart(b)
    requires |m| > 0 && AllDigits(m) && |n| > 0 && AllDigits(n)
    requires b == [] || !IsDigit(b[0])
    requires c == [] || !IsDigit(c[0])
    ensures FindTag(TileName(a, m, b, n, c), 'X', 0) == Some(Tag(|a|, m))
    ensures FindTag(TileName(a, m, b, n, c), 'Y', 0) == Some(Tag(|a| + 2 + |m| + |b|, n))
  {
    TileNameXTag(a, m, b, n, c);
    TileNameYTag(a, m, b, n, c);
  }

  /** A tag text of one axis between two texts lets no `_` be followed by the other axis letter. */
  lemma TagTextBetween(u: string, axis: char, digits: string, v: string, c: char)
    requires UnderscoresNotBefore(u, c) && UnderscoresNotBefore(v, c)
    requires axis != c && axis != '_' && AllDigits(digits)
    ensures UnderscoresNotBefore(u + (['_', axis] + digits) + v, c)
  {
    DigitsNoUnderscore(digits);
    MarkNotBefore(axis, digits, c);
    UnderscoresNotBeforeConcat(u, ['_', axis] + digits, c);
    UnderscoresNotBeforeConcat(u + (['_', axis] + digits), v, c);
  }

  /** Splitting a tile name on its `_X<m>` text: `a`, then the rest of the name. */
  lemma TemplateFirstHalf(a: string, m: string, b: string, n: string, c: string)
    requires UnderscoresNotBefore(a, 'X') && UnderscoresNotBefore(b, 'X') && UnderscoresNotBefore(c, 'X')
    requires AllDigits(n)
    ensures var name, xm := TileName(a, m, b, n, c), "_X" + m;
      SplitHead(name, xm) + "_X{x}" + OrUndefined(SplitSecond(name, xm)) == (a + "_X{x}" + b) + ("_Y" + n) + c
  {
    var xm, r1 := "_X" + m, b + ("_Y" + n) + c;
    assert TileName(a, m, b, n, c) == a + xm + r1 by {
      TileNameParts(a, m, b, n, c);
    }
    TagTextBetween(b, 'Y', n, c, 'X');
    FirstPattern(a, xm, r1);
    AbsentPattern(r1, xm);
    SplitAfter(a, xm, r1);
  }

  /** Splitting `a_X{x}b_Y<n>c` on its `_Y<n>` text: `a_X{x}b`, then `c`. */
  lemma TemplateSecondHalf(a: string, b: string, n: string, c: string)
    requires UnderscoresNotBefore(a, 'Y') && UnderscoresNotBefore(b, 'Y') && UnderscoresNotBefore(c, 'Y')
    ensures var temp, ym := (a + "_X{x}" + b) + ("_Y" + n) + c, "_Y" + n;
      SplitHead(temp, ym) + "_Y{y}" + OrUndefined(SplitSecond(temp, ym)) == a + "_X{x}" + b + "_Y{y}" + c
  {
    var p, ym := a + "_X{x}" + b, "_Y" + n;
    assert UnderscoresNotBefore(p, 'Y') by {
      MarkNotBefore('X', "{x}", 'Y');
      assert ['_', 'X'] + "{x}" == "_X{x}";
      UnderscoresNotBeforeConcat(a, "_X{x}", 'Y');
      UnderscoresNotBeforeConcat(a + "_X{x}", b, 'Y');
    }
    FirstPattern(p, ym, c);
    AbsentPattern(c, ym);
    SplitAfter(p, ym, c);
  }

  /**
   * The template of a tile name keeps the text around the tags and puts the
   * placeholders `{x}` and `{y}` in place of the numbers, whenever no other
   * tag text can start in that surrounding text.
   */
  lemma TemplateOfTileName(a: string, m: string, b: string, n: string, c: string)
    requires NoTagStart(a) && NoTagStart(b) && NoTagStart(c)
    requires |m| > 0 && AllDigits(m) && |n| > 0 && AllDigits(n)
    requires b == [] || !IsDigit(b[0])
    requires c == [] || !IsDigit(c[0])
    ensures FindTag(TileName(a, m, b, n, c), 'X', 0).Some? && FindTag(TileName(a, m, b, n, c), 'Y', 0).Some?
    ensures Template(TileName(a, m, b, n, c)) == a + "_X{x}" + b + "_Y{y}" + c
  {
    var name := TileName(a, m, b, n, c);
    TileNameTags(a, m, b, n, c);
    assert MatchText('X', FindTag(name, 'X', 0).value) == "_X" + m;
    assert MatchText('Y', FindTag(name, 'Y', 0).value) == "_Y" + n;
    TemplateFirstHalf(a, m, b, n, c);
    TemplateSecondHalf(a, b, n, c);
  }

  lemma NoUnderscoreNoTagStart(s: string)
    requires '_' !in s
    ensures NoTagStart(s)
  {
    forall j | 0 <= j < |s| ensures s[j] != '_' {
      assert s[j] in s;
    }
  }

  /**
   * A name with an underscore of its own before the tags, such as
   * `scan_01_X3_Y4.tif`, keeps it in its template: `scan_01_X{x}_Y{y}.tif`.
   */
  lemma UnderscoredTileName(stem: string, serial: string, m: string, n: string, ext: string)
    requires '_' !in stem && '_' !in ext && |serial| > 0 && '_' !in serial
    requires serial[0] != 'X' && serial[0] != 'Y'
    requires |m| > 0 && AllDigits(m) && |n| > 0 && AllDigits(n)
    requires ext == [] || !IsDigit(ext[0])
    ensures var name := TileName(stem + "_" + serial, m, "", n, ext);
      && FindTag(name, 'X', 0).Some? && FindTag(name, 'Y', 0).Some?
      && Template(name) == (stem + "_" + serial) + "_X{x}" + "_Y{y}" + ext
  {
    var a := stem + "_" + serial;
    NoUnderscoreNoTagStart(stem);
    NoUnderscoreNoTagStart(ext);
    NoUnderscoreNoTagStart("");
    assert '_' !in serial[1..] by {
      forall j | 0 <= j < |serial[1..]| ensures serial[1..][j] != '_' {
        assert serial[1..][j] in serial;
      }
    }
    assert ['_', serial[0]] + serial[1..] == "_" + serial;
    MarkNotBefore(serial[0], serial[1..], 'X');
    MarkNotBefore(serial[0], serial[1..], 'Y');
    UnderscoresNotBeforeConcat(stem, "_" + serial, 'X');
    UnderscoresNotBeforeConcat(stem, "_" + serial, 'Y');
    TemplateOfTileName(a, m, "", n, ext);
    assert a + "_X{x}" + "" == a + "_X{x}";
  }

  /** Every column and every row of a mosaic ends within its size. */
  lemma MosaicCovers(w: nat, h: nat, xTiles: nat, yTiles: nat, column: nat, row: nat)
    requires column < xTiles && row < yTiles
    ensures Span(column + 1, w) <= MosaicSizes(w, h, xTiles, yTiles).size
    ensures Span(row + 1, h) <= MosaicSizes(w, h, xTiles, yTiles).size
  {
    SpanMonotonic(column + 1, xTiles, w);
    SpanMonotonic(row + 1, yTiles, h);
  }

  /** Every tile of a mosaic built from the coordinate lists ends within its size. */
  lemma CoordinatesWithinMosaic(sizes: Sizes, w: nat, h: nat, xs: seq<nat>, ys: seq<nat>, k: nat)
    requires |xs| == |ys| && k < |xs|
    requires sizes == MosaicSizes(w, h, TileCount(xs), TileCount(ys))
    ensures Span(xs[k] - Min(xs) + 1, w) <= sizes.size
    ensures Span(ys[k] - Min(ys) + 1, h) <= sizes.size
  {
    MosaicCovers(w, h, TileCount(xs), TileCount(ys), xs[k] - Min(xs), ys[k] - Min(ys));
  }

  /** In folder mode the sizes come from the first tile's dimensions and the tile counts. */
  lemma FolderSizes(sourcePath: string, files: seq<Entry>, probe: string -> Probe)
    requires LayerDimensions(sourcePath, Folder, Some(files), probe).Resolved?
    ensures var ts := Tiles(files);
      var p := probe(NodePath.Join([sourcePath, ts[0].name]));
      && ts != [] && p.Dimensions?
      && LayerDimensions(sourcePath, Folder, Some(files), probe).sizes ==
           MosaicSizes(p.width, p.height, TileCount(Coordinates(ts, 'X')), TileCount(Coordinates(ts, 'Y')))
  {
  }

  /** In folder mode the layer is named after the template of the first tile. */
  lemma FolderConfiguration(sourcePath: string, destinationPath: string, layerType: string,
                            files: seq<Entry>, probe: string -> Probe, author: string)
    requires LayerDimensions(sourcePath, Folder, Some(files), probe).Resolved?
    ensures var ts, d := Tiles(files), LayerDimensions(sourcePath, Folder, Some(files), probe);
      && ts != [] && FindTag(ts[0].name, 'X', 0).Some? && FindTag(ts[0].name, 'Y', 0).Some?
      && d.template == Some(Template(ts[0].name))
      && JsonConfiguration(sourcePath, destinationPath, Folder, layerType, Some(files), probe, author)
           == Some(Descriptor(layerType, Template(ts[0].name), d.sizes, author))
  {
    var ts := Tiles(files);
    assert ts[0] in ts;
  }

  /**
   * What `next` receives in each mode: nothing for an unknown mode or a
   * listing error; for an image list a 256-pixel layer named after the
   * source; for a single image a square layer of its larger side, unless the
   * image cannot be read.
   */
  lemma ConfigurationByMode(sourcePath: string, destinationPath: string, mode: int, layerType: string,
                            listing: Option<seq<Entry>>, probe: string -> Probe, author: string)
    ensures var c := JsonConfiguration(sourcePath, destinationPath, mode, layerType, listing, probe, author);
      && (mode != SingleImage && mode != Folder && mode != ImageList ==> c.None?)
      && (mode == Folder && listing.None? ==> c.None?)
      && (mode == Folder && listing.Some? && Tiles(listing.value) == [] ==> c.None?)
      && (mode == Folder && listing.Some? && !StatsSettle(listing.value) ==> c.None?)
      && (mode == ImageList ==> c == Some(Descriptor(layerType, NodePath.Basename(sourcePath), Sizes(256, 256), author)))
      && (mode == SingleImage ==> (c.None? <==> probe(sourcePath).ProbeError?))
      && (mode == SingleImage && probe(sourcePath).Dimensions? ==>
            var side := MaxNat(probe(sourcePath).width, probe(sourcePath).height);
            c == Some(Descriptor(layerType, NodePath.Basename(sourcePath), Sizes(side, side), author)))
  {
  }

  /** `prefix + name.replace(/ /g, "_") + suffix`: the name with its spaces turned to `_`. */
  lemma SpacelessFileName(prefix: string, name: string, suffix: string)
    requires ' ' !in prefix && ' ' !in suffix
    ensures var u := prefix + ReplaceAll(name, ' ', '_') + suffix;
      && |u| == |prefix| + |name| + |suffix| && ' ' !in u
      && u[..|prefix|] == prefix && u[|u| - |suffix|..] == suffix
      && forall i :: 0 <= i < |name| && name[i] != ' ' ==> u[|prefix| + i] == name[i]
  {
    var r := ReplaceAll(name, ' ', '_');
    var u := prefix + r + suffix;
    forall i | 0 <= i < |u| ensures u[i] != ' ' {
      if i < |prefix| {
        assert u[i] == prefix[i];
      } else if i < |prefix| + |r| {
        assert u[i] == r[i - |prefix|];
      } else {
        assert u[i] == suffix[i - |prefix| - |r|];
      }
    }
    assert forall i :: 0 <= i < |name| ==> u[|prefix| + i] == r[i];
    assert u[..|prefix|] == prefix;
    assert u[|u| - |suffix|..] == suffix;
  }

  /** A points layer loads `points_<name>.csv`, a pixels layer `holes_<name>.txt`, spaces turned to `_`. */
  lemma LayerUrls(filename: string, sizes: Sizes, author: string)
    ensures var c := Descriptor("points", filename, sizes, author);
      && c.name == "centroid_" + filename
      && c.options.tileSize == sizes.tileSize && c.options.size == sizes.size
      && |c.url| == |filename| + 11 && ' ' !in c.url
      && c.url[..7] == "points_" && c.url[|c.url| - 4..] == ".csv"
      && forall i :: 0 <= i < |filename| && filename[i] != ' ' ==> c.url[7 + i] == filename[i]
    ensures var c := Descriptor("pixels", filename, sizes, author);
      && c.name == "holes_" + filename && c.role == "holes"
      && c.tileSize == sizes.tileSize && c.size == sizes.size
      && |c.pixelsUrlTemplate| == |filename| + 10 && ' ' !in c.pixelsUrlTemplate
      && c.pixelsUrlTemplate[..6] == "holes_" && c.pixelsUrlTemplate[|c.pixelsUrlTemplate| - 4..] == ".txt"
      && forall i :: 0 <= i < |filename| && filename[i] != ' ' ==> c.pixelsUrlTemplate[6 + i] == filename[i]
  {
    SpacelessFileName("points_", filename, ".csv");
    SpacelessFileName("holes_", filename, ".txt");
  }
}
