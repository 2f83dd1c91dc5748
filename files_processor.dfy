/** src/FilesProcessor.ts: naming the rendered pages and building the
    list of output files.  The exporter's template rendering and Jimp's
    buffer encoding are parameters; callbacks that the source invokes
    synchronously become returned values. */
module FilesProcessing {
  import opened Wrappers
  import opened Text

  /** `ResultFile`: an output file name and its bytes. */
  datatype ResultFile = ResultFile(name: string, buffer: seq<bv8>)

  datatype Mime = Png | Jpeg

  /** A rendered page (`ResultItem`): the exporter data of its frames, the
      encoder of its bitmap, and the bitmap's size. */
  datatype Page<D> = Page(data: D, encode: Mime -> seq<bv8>, width: nat, height: nat)

  /** The options `start` and `processPackResultItem` read, after
      defaulting and validation; `fileExt` is the resolved exporter's. */
  datatype OutputOptions = OutputOptions(
    textureName: string,
    suffix: string,
    suffixInitialValue: int,
    textureFormat: string,
    removeFileExtension: bool,
    prependFolderName: bool,
    base64Export: bool,
    scale: real,
    trimMode: string,
    fileExt: string)

  /** The `opts` handed to the exporter; `imageData` holds the bytes whose
      base64 text the source passes. */
  datatype ExportOptions = ExportOptions(
    imageName: string,
    imageData: seq<bv8>,
    format: string,
    textureFormat: string,
    imageWidth: nat,
    imageHeight: nat,
    removeFileExtension: bool,
    prependFolderName: bool,
    base64Export: bool,
    scale: real,
    trimMode: string)

  /** `startExporter`: renders one page's metadata. */
  type Exporter<-D> = (D, ExportOptions) -> seq<bv8>

  /** `pixelFormat`: RGBA8888 exactly for png, RGB888 otherwise. */
  function PixelFormat(textureFormat: string): (r: string)
    ensures r == "RGBA8888" <==> textureFormat == "png"
    ensures r == "RGB888" <==> textureFormat != "png"
  {
    if textureFormat == "png" then "RGBA8888" else "RGB888"
  }

  /** `mime`: PNG exactly for png, JPEG otherwise. */
  function MimeOf(textureFormat: string): (r: Mime)
    ensures r == Png <==> textureFormat == "png"
  {
    if textureFormat == "png" then Png else Jpeg
  }

  /** The pixel format and the mime type always agree. */
  lemma PixelFormatMatchesMime(textureFormat: string)
    ensures PixelFormat(textureFormat) == "RGBA8888" <==> MimeOf(textureFormat) == Png
  {
  }

  /** `tinifyImage`: compression is disabled, the buffer is handed on. */
  function TinifyImage(buffer: seq<bv8>, o: OutputOptions): (r: seq<bv8>)
    ensures r == buffer
  {
    buffer
  }

  function ExportOptionsFor<D>(fName: string, page: Page<D>, buffer: seq<bv8>, o: OutputOptions): ExportOptions {
    ExportOptions(fName + "." + o.textureFormat, buffer, PixelFormat(o.textureFormat), o.textureFormat,
                  page.width, page.height, o.removeFileExtension, o.prependFolderName, o.base64Export,
                  o.scale, o.trimMode)
  }

  /** The files of one page: the metadata file, then the image unless it
      is embedded as base64. */
  function PageFiles<D>(fName: string, page: Page<D>, o: OutputOptions, exporter: Exporter<D>): seq<ResultFile> {
    var buffer := TinifyImage(page.encode(MimeOf(o.textureFormat)), o);
    [ResultFile(fName + "." + o.fileExt, exporter(page.data, ExportOptionsFor(fName, page, buffer, o)))]
      + (if o.base64Export then [] else [ResultFile(fName + "." + o.textureFormat, buffer)])
  }

  /** Number of files each page contributes. */
  function FilesPerPage(o: OutputOptions): (n: nat)
    ensures n == 1 <==> o.base64Export
    ensures 1 <= n <= 2
  {
    if o.base64Export then 1 else 2
  }

  /** One page yields the metadata file first, carrying the exporter's
      output for that page's image name, then the image file exactly when
      `base64Export` is off. */
  lemma PageFilesLayout<D>(fName: string, page: Page<D>, o: OutputOptions, exporter: Exporter<D>)
    ensures var files, image := PageFiles(fName, page, o, exporter), page.encode(MimeOf(o.textureFormat));
      && |files| == FilesPerPage(o)
      && files[0].name == fName + "." + o.fileExt
      && files[0].buffer == exporter(page.data, ExportOptionsFor(fName, page, image, o))
      && (!o.base64Export ==> files[1] == ResultFile(fName + "." + o.textureFormat, image))
  {
  }

  /** `processPackResultItem`, with the file list its callback receives
      as the result. */
  method ProcessPackResultItem<D>(fName: string, item: Page<D>, o: OutputOptions, exporter: Exporter<D>)
    returns (files: seq<ResultFile>)
    ensures files == PageFiles(fName, item, o, exporter)
  {
    files := [];
    var pixelFormat := PixelFormat(o.textureFormat);
    var mime := MimeOf(o.textureFormat);
    var srcBuffer := item.encode(mime);
    var buffer := TinifyImage(srcBuffer, o);
    var opts := ExportOptions(fName + "." + o.textureFormat, buffer, pixelFormat, o.textureFormat,
                              item.width, item.height, o.removeFileExtension, o.prependFolderName,
                              o.base64Export, o.scale, o.trimMode);
    files := files + [ResultFile(fName + "." + o.fileExt, exporter(item.data, opts))];
    if !o.base64Export {
      files := files + [ResultFile(fName + "." + o.textureFormat, buffer)];
    }
  }

  /** The name of the page numbered `ix` among `count` pages: the texture
      name, followed by the suffix and the counter only when there are
      several pages. */
  function PageName(o: OutputOptions, count: nat, ix: int): (r: string)
    ensures IsPrefix(o.textureName, r)
    ensures count <= 1 ==> r == o.textureName
    ensures count > 1 ==> r[|o.textureName|..] == o.suffix + IntToString(ix)
  {
    o.textureName + (if count > 1 then o.suffix + IntToString(ix) else "")
  }

  /** The names of `count` pages, the counter starting at
      `suffixInitialValue` and going up by one per page. */
  function PageNames(o: OutputOptions, count: nat): (names: seq<string>)
    ensures |names| == count
  {
    seq(count, k requires 0 <= k < count => PageName(o, count, o.suffixInitialValue + k))
  }

  /** With several pages, different counters give different names, so no
      two pages of one result share a name. */
  lemma PageNamesDistinct(o: OutputOptions, count: nat, a: nat, b: nat)
    requires count > 1 && a < count && b < count && a != b
    ensures PageNames(o, count)[a] != PageNames(o, count)[b]
  {
    var ia, ib := o.suffixInitialValue + a, o.suffixInitialValue + b;
    var na, nb := PageName(o, count, ia), PageName(o, count, ib);
    assert PageNames(o, count)[a] == na && PageNames(o, count)[b] == nb;
    if na == nb {
      var sa, sb := IntToString(ia), IntToString(ib);
      assert o.suffix + sa == o.suffix + sb;
      assert sa == (o.suffix + sa)[|o.suffix|..] == (o.suffix + sb)[|o.suffix|..] == sb;
      IntToStringInjective(ia, ib);
    }
  }

  /** The files of the first `j` pages, in page order, page `k` named
      `names[k]`. */
  function FilesUpTo<D>(pages: seq<Page<D>>, names: seq<string>, o: OutputOptions, exporter: Exporter<D>, j: nat): seq<ResultFile>
    requires j <= |pages| == |names|
  {
    if j == 0 then []
    else FilesUpTo(pages, names, o, exporter, j - 1) + PageFiles(names[j - 1], pages[j - 1], o, exporter)
  }

  /** Position of the first file of page `k` in the collected list. */
  function BlockStart(k: nat, o: OutputOptions): nat {
    if o.base64Export then k else 2 * k
  }

  /** The files of page `k` within the collected list. */
  function Block(files: seq<ResultFile>, k: nat, o: OutputOptions): seq<ResultFile> {
    if BlockStart(k + 1, o) <= |files| then files[BlockStart(k, o) .. BlockStart(k + 1, o)] else []
  }

  /** Appending one page's files after `m` pages leaves the earlier pages'
      blocks in place and makes the new files block `m`. */
  lemma BlockOfAppend(prev: seq<ResultFile>, last: seq<ResultFile>, m: nat, k: nat, o: OutputOptions)
    requires |prev| == BlockStart(m, o) && |last| == FilesPerPage(o) && k <= m
    ensures Block(prev + last, k, o) == if k < m then Block(prev, k, o) else last
  {
    var all := prev + last;
    if k < m {
      assert BlockStart(k + 1, o) <= BlockStart(m, o);
      assert all[BlockStart(k, o) .. BlockStart(k + 1, o)] == prev[BlockStart(k, o) .. BlockStart(k + 1, o)];
    } else {
      assert all[BlockStart(k, o) .. BlockStart(k + 1, o)] == last;
    }
  }

  lemma PageFilesLength<D>(fName: string, page: Page<D>, o: OutputOptions, exporter: Exporter<D>)
    ensures |PageFiles(fName, page, o, exporter)| == FilesPerPage(o)
  {
  }

  /** Each page contributes exactly its own files, in page order: the
      first `j` pages give `FilesPerPage(o)` files each, and page `k`'s
      files are the `k`-th block. */
  lemma {:induction false} FilesUpToLayout<D>(pages: seq<Page<D>>, names: seq<string>, o: OutputOptions, exporter: Exporter<D>, j: nat)
    requires j <= |pages| == |names|
    ensures |FilesUpTo(pages, names, o, exporter, j)| == BlockStart(j, o)
    ensures forall k :: 0 <= k < j ==>
      Block(FilesUpTo(pages, names, o, exporter, j), k, o) == PageFiles(names[k], pages[k], o, exporter)
  {
    if j > 0 {
      FilesUpToLayout(pages, names, o, exporter, j - 1);
      var prev := FilesUpTo(pages, names, o, exporter, j - 1);
      var last := PageFiles(names[j - 1], pages[j - 1], o, exporter);
      PageFilesLength(names[j - 1], pages[j - 1], o, exporter);
      assert FilesUpTo(pages, names, o, exporter, j) == prev + last;
      forall k | 0 <= k < j
        ensures Block(prev + last, k, o) == PageFiles(names[k], pages[k], o, exporter)
      {
        BlockOfAppend(prev, last, j - 1, k, o);
      }
    }
  }

  /** Every page gives `FilesPerPage(o)` files: `n` pages give `n` or
      `2n` files. */
  lemma FileCount<D>(pages: seq<Page<D>>, names: seq<string>, o: OutputOptions, exporter: Exporter<D>)
    requires |pages| == |names|
    ensures |FilesUpTo(pages, names, o, exporter, |pages|)| == if o.base64Export then |pages| else 2 * |pages|
  {
    FilesUpToLayout(pages, names, o, exporter, |pages|);
  }

  /** The naming loop of `start`, run once every page has been rendered:
      page `j` is named with counter `suffixInitialValue + j`, its files
      are appended, and the callback fires when the last part is ready. */
  method NamePages<D>(packResult: seq<Page<D>>, o: OutputOptions, exporter: Exporter<D>)
    returns (delivered: Option<seq<ResultFile>>)
    requires |packResult| > 0
    ensures delivered == Some(FilesUpTo(packResult, PageNames(o, |packResult|), o, exporter, |packResult|))
  {
    delivered := None;
    var resFiles: seq<ResultFile> := [];
    var readyParts := 0;
    var suffix := o.suffix;
    var ix := o.suffixInitialValue;
    ghost var names := PageNames(o, |packResult|);
    for j := 0 to |packResult|
      invariant ix == o.suffixInitialValue + j
      invariant readyParts == j
      invariant resFiles == FilesUpTo(packResult, names, o, exporter, j)
      invariant delivered == if j == |packResult| then Some(resFiles) else None
    {
      var fName := o.textureName + (if |packResult| > 1 then suffix + IntToString(ix) else "");
      assert names[j] == PageName(o, |packResult|, ix);
      assert fName == names[j];
      var files := ProcessPackResultItem(fName, packResult[j], o, exporter);
      resFiles := resFiles + files;
      readyParts := readyParts + 1;
      if readyParts >= |packResult| {
        delivered := Some(resFiles);
      }
      ix := ix + 1;
    }
  }

  /** `start` after packing and rendering: each rendered page is collected
      in order, and once all are in they are named and their files are
      handed to the callback.  `None` means the callback is never invoked,
      which happens when there are no pages. */
  method Start<D>(pages: seq<Page<D>>, o: OutputOptions, exporter: Exporter<D>)
    returns (delivered: Option<seq<ResultFile>>)
    ensures delivered.Some? <==> |pages| > 0
    ensures delivered.Some? ==> delivered.value == FilesUpTo(pages, PageNames(o, |pages|), o, exporter, |pages|)
  {
    delivered := None;
    var packResult: seq<Page<D>> := [];
    for r := 0 to |pages|
      invariant packResult == pages[..r]
      invariant (r < |pages| || r == 0) ==> delivered == None
      invariant r == |pages| && r > 0 ==> delivered == Some(FilesUpTo(pages, PageNames(o, |pages|), o, exporter, |pages|))
    {
      packResult := packResult + [pages[r]];
      if |packResult| >= |pages| {
        assert packResult == pages;
        delivered := NamePages(packResult, o, exporter);
      }
    }
  }
}
