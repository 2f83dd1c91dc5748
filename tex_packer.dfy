/** src/index.ts: `fixPath`, `getErrorDescription`, and the option
    defaulting and validation that `packAsync` performs before any image
    is loaded.  Options are values, so the copy `packAsync` makes before
    overwriting fields is implicit: the caller's value is never changed.
    An absent option (`undefined`) is `None`. */
module TexPacker {
  import opened Wrappers
  import opened Text
  import opened Packers
  import opened Filters

  // ---------------------------------------------------------------------
  // getErrorDescription

  const ErrorPrefix: string := "@sar-creator/tex-packer: "

  /** `getErrorDescription`: the package name, ": ", then the text. */
  function ErrorDescription(txt: string): (r: string)
    ensures IsPrefix(ErrorPrefix, r) && r[|ErrorPrefix|..] == txt
  {
    "@sar-creator/tex-packer" + ": " + txt
  }

  // ---------------------------------------------------------------------
  // fixPath

  /** `String.prototype.split` on a one-character separator. */
  function Split(s: string, sep: char): (parts: seq<string>)
    ensures |parts| >= 1
  {
    if |s| == 0 then [""]
    else
      var rest := Split(s[1..], sep);
      if s[0] == sep then [""] + rest else [[s[0]] + rest[0]] + rest[1..]
  }

  /** `Array.prototype.join`. */
  function Join(parts: seq<string>, sep: string): string {
    if |parts| == 0 then ""
    else if |parts| == 1 then parts[0]
    else parts[0] + sep + Join(parts[1..], sep)
  }

  /** The character-wise reading of `fixPath`'s rewrite. */
  function ReplaceBackslashes(s: string): (r: string)
    ensures |r| == |s|
  {
    seq(|s|, i requires 0 <= i < |s| => if s[i] == '\\' then '/' else s[i])
  }

  /** Splitting on backslashes and joining with slashes replaces each
      backslash by a slash and keeps every other character. */
  lemma {:induction false} SplitJoinReplaces(path: string)
    ensures Join(Split(path, '\\'), "/") == ReplaceBackslashes(path)
  {
    if |path| > 0 {
      var rest := Split(path[1..], '\\');
      SplitJoinReplaces(path[1..]);
      assert ReplaceBackslashes(path) == ReplaceBackslashes(path[..1]) + ReplaceBackslashes(path[1..]);
      if path[0] != '\\' && |rest| > 1 {
        assert Join(Split(path, '\\'), "/") == [path[0]] + rest[0] + "/" + Join(rest[1..], "/");
      }
    }
  }

  /** `fixPath`: `path.split("\\").join("/")`, which turns every backslash
      into a slash and keeps every other character in place. */
  function FixPath(path: string): (r: string)
    ensures r == ReplaceBackslashes(path)
  {
    SplitJoinReplaces(path);
    Join(Split(path, '\\'), "/")
  }

  /** The result has no backslash, the same length, the same characters
      elsewhere, and fixing it again changes nothing. */
  lemma FixPathNormalises(path: string)
    ensures |FixPath(path)| == |path|
    ensures forall i :: 0 <= i < |path| ==> FixPath(path)[i] != '\\'
    ensures forall i :: 0 <= i < |path| && path[i] != '\\' ==> FixPath(path)[i] == path[i]
    ensures FixPath(FixPath(path)) == FixPath(path)
  {
  }

  // ---------------------------------------------------------------------
  // options

  /** A registered exporter: its metadata file extension and whether it
      can describe rotated and trimmed frames (absent reads as false). */
  datatype Exporter = Exporter(fileExt: string, allowRotation: bool, allowTrim: bool)

  /** `options.exporter`: a predefined exporter's name or a custom one. */
  datatype ExporterOption = Named(name: string) | Custom(exporter: Exporter)

  /** `TexturePackerOptions`, minus `appInfo`. */
  datatype UserOptions = UserOptions(
    textureName: Option<string>,
    suffix: Option<string>,
    suffixInitialValue: Option<int>,
    width: Option<int>,
    height: Option<int>,
    powerOfTwo: Option<bool>,
    fixedSize: Option<bool>,
    padding: Option<int>,
    extrude: Option<int>,
    allowRotation: Option<bool>,
    detectIdentical: Option<bool>,
    allowTrim: Option<bool>,
    trimMode: Option<string>,
    alphaThreshold: Option<int>,
    removeFileExtension: Option<bool>,
    prependFolderName: Option<bool>,
    textureFormat: Option<string>,
    base64Export: Option<bool>,
    scale: Option<real>,
    scaleMethod: Option<string>,
    tinify: Option<bool>,
    tinifyKey: Option<string>,
    filter: Option<string>,
    packer: Option<string>,
    packerMethod: Option<string>,
    exporter: Option<ExporterOption>)

  /** `{}`: no option given. */
  const NoOptions: UserOptions := UserOptions(
    None, None, None, None, None, None, None, None, None, None, None, None, None,
    None, None, None, None, None, None, None, None, None, None, None, None, None)

  function Default<T>(v: Option<T>, d: T): Option<T> {
    if v.None? then Some(d) else v
  }

  /** Every option `packAsync` defaults (lines 326-348) is present. */
  predicate Filled(o: UserOptions) {
    && o.textureName.Some? && o.suffix.Some? && o.suffixInitialValue.Some?
    && o.width.Some? && o.height.Some? && o.powerOfTwo.Some? && o.fixedSize.Some?
    && o.padding.Some? && o.extrude.Some? && o.allowRotation.Some?
    && o.detectIdentical.Some? && o.allowTrim.Some? && o.trimMode.Some?
    && o.alphaThreshold.Some? && o.removeFileExtension.Some? && o.prependFolderName.Some?
    && o.textureFormat.Some? && o.base64Export.Some? && o.scale.Some?
    && o.scaleMethod.Some? && o.tinify.Some? && o.tinifyKey.Some? && o.filter.Some?
  }

  /** The field-by-field defaulting of `packAsync`; `powerOfTwo` is
      coerced with `!!`, every other field is defaulted only when absent. */
  function FillDefaults(o: UserOptions): (r: UserOptions)
    ensures Filled(r)
  {
    o.(
      textureName := Default(o.textureName, "pack-result"),
      suffix := Default(o.suffix, "-"),
      suffixInitialValue := Default(o.suffixInitialValue, 0),
      width := Default(o.width, 2048),
      height := Default(o.height, 2048),
      powerOfTwo := Some(o.powerOfTwo == Some(true)),
      fixedSize := Default(o.fixedSize, false),
      padding := Default(o.padding, 0),
      extrude := Default(o.extrude, 0),
      allowRotation := Default(o.allowRotation, true),
      detectIdentical := Default(o.detectIdentical, true),
      allowTrim := Default(o.allowTrim, true),
      trimMode := Default(o.trimMode, "trim"),
      alphaThreshold := Default(o.alphaThreshold, 0),
      removeFileExtension := Default(o.removeFileExtension, false),
      prependFolderName := Default(o.prependFolderName, true),
      textureFormat := Default(o.textureFormat, "png"),
      base64Export := Default(o.base64Export, false),
      scale := Default(o.scale, 1.0),
      scaleMethod := Default(o.scaleMethod, "BILINEAR"),
      tinify := Default(o.tinify, false),
      tinifyKey := Default(o.tinifyKey, ""),
      filter := Default(o.filter, "none"))
  }

  /** The documented defaults, as `packAsync` fills them into `{}`. */
  lemma DefaultsOfNoOptions()
    ensures FillDefaults(NoOptions) == UserOptions(
      Some("pack-result"), Some("-"), Some(0), Some(2048), Some(2048), Some(false), Some(false),
      Some(0), Some(0), Some(true), Some(true), Some(true), Some("trim"), Some(0),
      Some(false), Some(true), Some("png"), Some(false), Some(1.0), Some("BILINEAR"),
      Some(false), Some(""), Some("none"), None, None, None)
  {
  }

  /** Every option the caller gave is kept, except `powerOfTwo`, which
      becomes a boolean; packer, method and exporter are left for the
      validation step. */
  lemma FillDefaultsKeepsSupplied(o: UserOptions)
    ensures var r := FillDefaults(o);
      && (o.textureName.Some? ==> r.textureName == o.textureName)
      && (o.suffix.Some? ==> r.suffix == o.suffix)
      && (o.suffixInitialValue.Some? ==> r.suffixInitialValue == o.suffixInitialValue)
      && (o.width.Some? ==> r.width == o.width)
      && (o.height.Some? ==> r.height == o.height)
      && r.powerOfTwo == Some(o.powerOfTwo == Some(true))
      && (o.fixedSize.Some? ==> r.fixedSize == o.fixedSize)
      && (o.padding.Some? ==> r.padding == o.padding)
      && (o.extrude.Some? ==> r.extrude == o.extrude)
      && (o.allowRotation.Some? ==> r.allowRotation == o.allowRotation)
      && (o.detectIdentical.Some? ==> r.detectIdentical == o.detectIdentical)
      && (o.allowTrim.Some? ==> r.allowTrim == o.allowTrim)
      && (o.trimMode.Some? ==> r.trimMode == o.trimMode)
      && (o.alphaThreshold.Some? ==> r.alphaThreshold == o.alphaThreshold)
      && (o.removeFileExtension.Some? ==> r.removeFileExtension == o.removeFileExtension)
      && (o.prependFolderName.Some? ==> r.prependFolderName == o.prependFolderName)
      && (o.textureFormat.Some? ==> r.textureFormat == o.textureFormat)
      && (o.base64Export.Some? ==> r.base64Export == o.base64Export)
      && (o.scale.Some? ==> r.scale == o.scale)
      && (o.scaleMethod.Some? ==> r.scaleMethod == o.scaleMethod)
      && (o.tinify.Some? ==> r.tinify == o.tinify)
      && (o.tinifyKey.Some? ==> r.tinifyKey == o.tinifyKey)
      && (o.filter.Some? ==> r.filter == o.filter)
      && r.packer == o.packer && r.packerMethod == o.packerMethod && r.exporter == o.exporter
  {
  }

  /** Every defaulted option the caller left out gets its documented
      default, whatever else was given; `powerOfTwo` is false unless it was
      given as true. */
  lemma FillDefaultsFillsAbsent(o: UserOptions)
    ensures var r := FillDefaults(o);
      && (o.textureName.None? ==> r.textureName == Some("pack-result"))
      && (o.suffix.None? ==> r.suffix == Some("-"))
      && (o.suffixInitialValue.None? ==> r.suffixInitialValue == Some(0))
      && (o.width.None? ==> r.width == Some(2048))
      && (o.height.None? ==> r.height == Some(2048))
      && (o.powerOfTwo != Some(true) ==> r.powerOfTwo == Some(false))
      && (o.fixedSize.None? ==> r.fixedSize == Some(false))
      && (o.padding.None? ==> r.padding == Some(0))
      && (o.extrude.None? ==> r.extrude == Some(0))
      && (o.allowRotation.None? ==> r.allowRotation == Some(true))
      && (o.detectIdentical.None? ==> r.detectIdentical == Some(true))
      && (o.allowTrim.None? ==> r.allowTrim == Some(true))
      && (o.trimMode.None? ==> r.trimMode == Some("trim"))
      && (o.alphaThreshold.None? ==> r.alphaThreshold == Some(0))
      && (o.removeFileExtension.None? ==> r.removeFileExtension == Some(false))
      && (o.prependFolderName.None? ==> r.prependFolderName == Some(true))
      && (o.textureFormat.None? ==> r.textureFormat == Some("png"))
      && (o.base64Export.None? ==> r.base64Export == Some(false))
      && (o.scale.None? ==> r.scale == Some(1.0))
      && (o.scaleMethod.None? ==> r.scaleMethod == Some("BILINEAR"))
      && (o.tinify.None? ==> r.tinify == Some(false))
      && (o.tinifyKey.None? ==> r.tinifyKey == Some(""))
      && (o.filter.None? ==> r.filter == Some("none"))
  {
  }

  /** Defaulting twice is defaulting once. */
  lemma FillDefaultsIdempotent(o: UserOptions)
    ensures FillDefaults(FillDefaults(o)) == FillDefaults(o)
  {
  }

  // ---------------------------------------------------------------------
  // validation

  /** The errors option checking can end in, in the order they are tried.
      `ExporterUndefined` is the `TypeError` of reading `allowRotation` from
      a missing exporter; `UnknownExporter` is the descriptive error the
      source means to raise there. */
  datatype ConfigError =
    | UnknownPacker(packer: string)
    | UnknownPackerMethod(packerMethod: string)
    | ExporterUndefined
    | UnknownExporter(exporter: string)
    | UnknownFilter(filter: string)

  /** The text of the `Error` thrown, for the descriptive errors. */
  function Message(e: ConfigError): (m: string)
    requires !e.ExporterUndefined?
    ensures IsPrefix(ErrorPrefix, m)
    ensures e.UnknownPacker? ==> m[|ErrorPrefix|..] == "Unknown packer " + e.packer
    ensures e.UnknownPackerMethod? ==> m[|ErrorPrefix|..] == "Unknown packer method " + e.packerMethod
    ensures e.UnknownExporter? ==> m[|ErrorPrefix|..] == "Unknown exporter " + e.exporter
    ensures e.UnknownFilter? ==> m[|ErrorPrefix|..] == "Unknown filter " + e.filter
  {
    match e
    case UnknownPacker(p) => ErrorDescription("Unknown packer " + p)
    case UnknownPackerMethod(p) => ErrorDescription("Unknown packer method " + p)
    case UnknownExporter(x) => ErrorDescription("Unknown exporter " + x)
    case UnknownFilter(f) => ErrorDescription("Unknown filter " + f)
  }

  /** The options after validation, with the strategies they resolved to. */
  datatype Config = Config(
    options: UserOptions,
    packer: PackerKind,
    packerMethod: string,
    exporter: Exporter,
    filter: FilterKind)

  /** `!x` for an optional string: absent or empty. */
  predicate Falsy(s: Option<string>) {
    s.None? || s.value == ""
  }

  function ResolveExporter(x: ExporterOption, exporterByType: string -> Option<Exporter>): Option<Exporter> {
    match x
    case Named(n) => exporterByType(n)
    case Custom(e) => Some(e)
  }

  /** The packer name looked up: a falsy packer becomes MaxRectsBin. */
  function PackerName(o: UserOptions): string {
    if Falsy(o.packer) then MaxRectsBin.Type() else o.packer.value
  }

  /** The method name looked up: a falsy method becomes the packer's default. */
  function MethodName(o: UserOptions, k: PackerKind, bin: BinPackerInfo): string {
    if Falsy(o.packerMethod) then DefaultMethodOf(k, bin) else o.packerMethod.value
  }

  /** The exporter looked up: a falsy exporter becomes JsonHash. */
  function ExporterChoice(o: UserOptions): ExporterOption {
    if o.exporter.None? || o.exporter.value == Named("") then Named("JsonHash") else o.exporter.value
  }

  /** Lines 323-392 of `packAsync`.  With `checkExporterFirst` false this is
      the code as written, which reads the exporter's flags before testing
      that it exists; with it true, the missing exporter is reported by
      name before its flags are read. */
  function Validate(
    options: Option<UserOptions>, bin: BinPackerInfo,
    exporterByType: string -> Option<Exporter>, checkExporterFirst: bool): (r: Result<Config, ConfigError>)
    ensures r.Success? ==> Filled(r.value.options)
    ensures r.Success? ==>
      var o := FillDefaults(options.GetOr(NoOptions));
      r.value.options == o.(
        packer := Some(PackerName(o)),
        packerMethod := Some(MethodName(o, r.value.packer, bin)),
        exporter := Some(ExporterChoice(o)),
        allowRotation := if r.value.exporter.allowRotation then o.allowRotation else Some(false),
        allowTrim := if r.value.exporter.allowTrim then o.allowTrim else Some(false))
    ensures r.Success? ==>
      var o := FillDefaults(options.GetOr(NoOptions));
      && Some(r.value.packer) == GetPackerByType(PackerName(o))
      && Some(r.value.packerMethod) == MethodByType(r.value.packer, MethodName(o, r.value.packer, bin), bin)
      && Some(r.value.exporter) == ResolveExporter(ExporterChoice(o), exporterByType)
      && Some(r.value.filter) == GetFilterByType(o.filter.value)
  {
    var o := FillDefaults(options.GetOr(NoOptions));
    var o := o.(packer := Some(PackerName(o)), exporter := Some(ExporterChoice(o)));
    match GetPackerByType(o.packer.value)
    case None => Failure(UnknownPacker(o.packer.value))
    case Some(packer) =>
      var o := o.(packerMethod := Some(MethodName(o, packer, bin)));
      match MethodByType(packer, o.packerMethod.value, bin)
      case None => Failure(UnknownPackerMethod(o.packerMethod.value))
      case Some(packerMethod) =>
        match ResolveExporter(o.exporter.value, exporterByType)
        case None =>
          if checkExporterFirst then Failure(UnknownExporter(o.exporter.value.name))
          else Failure(ExporterUndefined)
        case Some(exporter) =>
          var o := o.(
            allowRotation := if !exporter.allowRotation then Some(false) else o.allowRotation,
            allowTrim := if !exporter.allowTrim then Some(false) else o.allowTrim);
          match GetFilterByType(o.filter.value)
          case None => Failure(UnknownFilter(o.filter.value))
          case Some(filter) => Success(Config(o, packer, packerMethod, exporter, filter))
  }

  /** `packAsync`'s option handling as written: the "Unknown exporter"
      error is never raised, because a missing exporter fails earlier,
      reading `allowRotation`. */
  function Configure(options: Option<UserOptions>, bin: BinPackerInfo, exporterByType: string -> Option<Exporter>): (r: Result<Config, ConfigError>)
    ensures !(r.Failure? && r.error.UnknownExporter?)
  {
    Validate(options, bin, exporterByType, false)
  }

  /** The same with the exporter's existence checked before use: it never
      ends in the `TypeError`, and an unknown exporter is reported under the
      name that no exporter answers to. */
  function ConfigureChecked(options: Option<UserOptions>, bin: BinPackerInfo, exporterByType: string -> Option<Exporter>): (r: Result<Config, ConfigError>)
    ensures !(r.Failure? && r.error.ExporterUndefined?)
    ensures r.Failure? && r.error.UnknownExporter? ==> exporterByType(r.error.exporter).None?
  {
    Validate(options, bin, exporterByType, true)
  }

  /** Errors are raised in a fixed order: unknown packer, then unknown
      method, then the exporter, then unknown filter; validation succeeds
      exactly when all four lookups succeed. */
  lemma ErrorOrder(options: Option<UserOptions>, bin: BinPackerInfo, exporterByType: string -> Option<Exporter>, checkExporterFirst: bool)
    ensures var o := FillDefaults(options.GetOr(NoOptions));
      var r := Validate(options, bin, exporterByType, checkExporterFirst);
      var pk := GetPackerByType(PackerName(o));
      && (pk.None? ==> r == Failure(UnknownPacker(PackerName(o))))
      && (pk.Some? ==>
            var mn := MethodName(o, pk.value, bin);
            var ex := ResolveExporter(ExporterChoice(o), exporterByType);
            && (MethodByType(pk.value, mn, bin).None? ==> r == Failure(UnknownPackerMethod(mn)))
            && (MethodByType(pk.value, mn, bin).Some? && ex.None? ==> r.Failure? && r.error.ExporterUndefined? != checkExporterFirst)
            && (MethodByType(pk.value, mn, bin).Some? && ex.Some? && GetFilterByType(o.filter.value).None? ==>
                  r == Failure(UnknownFilter(o.filter.value)))
            && (r.Success? <==> MethodByType(pk.value, mn, bin).Some? && ex.Some? && GetFilterByType(o.filter.value).Some?))
  {
  }

  /** A successful configuration records what each lookup found, with the
      documented fallbacks for a falsy packer, method and exporter. */
  lemma ConfigResolvesDefaults(options: Option<UserOptions>, bin: BinPackerInfo, exporterByType: string -> Option<Exporter>)
    requires ConfigureChecked(options, bin, exporterByType).Success?
    ensures var c, u := ConfigureChecked(options, bin, exporterByType).value, options.GetOr(NoOptions);
      && Some(c.packer) == GetPackerByType(PackerName(u))
      && Some(c.exporter) == ResolveExporter(ExporterChoice(u), exporterByType)
      && ToLower(c.packer.Type()) == ToLower(PackerName(u))
      && (Falsy(u.packer) ==> c.packer == MaxRectsBin)
      && (Falsy(u.packerMethod) ==> c.options.packerMethod == Some(DefaultMethodOf(c.packer, bin)))
      && Some(c.packerMethod) == MethodByType(c.packer, c.options.packerMethod.value, bin)
      && ((u.exporter.None? || u.exporter == Some(Named(""))) ==> Some(c.exporter) == exporterByType("JsonHash"))
      && ToLower(c.filter.Type()) == ToLower(c.options.filter.value)
  {
    var o := FillDefaults(options.GetOr(NoOptions));
    if Falsy(o.packer) {
      GetPackerByTypeExact(MaxRectsBin.Type(), MaxRectsBin);
    }
  }

  /** An exporter that cannot rotate or trim turns those options off
      whatever the caller asked; otherwise they are the defaulted ones. */
  lemma ExporterForcesFlags(options: Option<UserOptions>, bin: BinPackerInfo, exporterByType: string -> Option<Exporter>)
    requires ConfigureChecked(options, bin, exporterByType).Success?
    ensures var c, o := ConfigureChecked(options, bin, exporterByType).value, FillDefaults(options.GetOr(NoOptions));
      && c.options.allowRotation == (if c.exporter.allowRotation then o.allowRotation else Some(false))
      && c.options.allowTrim == (if c.exporter.allowTrim then o.allowTrim else Some(false))
  {
  }

  /** Every error of the corrected validation carries the package prefix. */
  lemma ErrorsArePrefixed(options: Option<UserOptions>, bin: BinPackerInfo, exporterByType: string -> Option<Exporter>)
    requires ConfigureChecked(options, bin, exporterByType).Failure?
    ensures IsPrefix(ErrorPrefix, Message(ConfigureChecked(options, bin, exporterByType).error))
  {
  }

  /** A concrete case: an exporter name nobody registered ends in the
      `TypeError`, not in the descriptive message. */
  lemma UnknownExporterNameGivesTypeError()
    ensures Configure(Some(NoOptions.(exporter := Some(Named("Foo")))),
                      BinPackerInfo("MaxRectsBinDefault", q => Some(q)),
                      _ => None)
            == Failure(ExporterUndefined)
  {
    GetPackerByTypeExact("MaxRectsBin", MaxRectsBin);
    GetFilterByTypeExact("none", NoFilter);
  }

  /** Checked first, a missing exporter is reported by its name, and in
      every other case the result is the one of the code as written. */
  lemma CheckedReportsUnknownExporter(options: Option<UserOptions>, bin: BinPackerInfo, exporterByType: string -> Option<Exporter>)
    ensures var written, checked := Configure(options, bin, exporterByType), ConfigureChecked(options, bin, exporterByType);
      && (written == Failure(ExporterUndefined) ==>
            var x := ExporterChoice(FillDefaults(options.GetOr(NoOptions)));
            x.Named? && exporterByType(x.name).None? && checked == Failure(UnknownExporter(x.name))
            && Message(checked.error) == ErrorDescription("Unknown exporter " + x.name))
      && (written != Failure(ExporterUndefined) ==> checked == written)
  {
  }
}
