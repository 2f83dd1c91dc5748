/** src/packers/MaxRectsPacker.ts: the packer that delegates to the
    `maxrects-packer` engine.  The engine itself is not modelled: it is a
    function parameter that returns bins of placements for the input. */
module MaxRectsPacking {
  import opened Wrappers
  import opened Text
  import opened Registry
  import opened TextureRendering

  /** `MaxRectsPackerMethod`; `Name` is the enum value. */
  datatype Method = Smart | SmartArea | Square | SquareArea | SmartSquare | SmartSquareArea {
    function Name(): string {
      match this
      case Smart => "Smart"
      case SmartArea => "SmartArea"
      case Square => "Square"
      case SquareArea => "SquareArea"
      case SmartSquare => "SmartSquare"
      case SmartSquareArea => "SmartSquareArea"
    }
  }

  /** The keys of `METHOD` in declaration order (each key is its value). */
  const Methods: seq<Method> := [Smart, SmartArea, Square, SquareArea, SmartSquare, SmartSquareArea]

  const MethodNames: seq<string> := ["Smart", "SmartArea", "Square", "SquareArea", "SmartSquare", "SmartSquareArea"]

  const PackerType: string := "MaxRectsPacker"
  const DefaultMethod: Method := Smart

  datatype PackingLogic = MaxArea | MaxEdge

  /** The options object handed to the engine. */
  datatype EngineOptions = EngineOptions(
    smart: bool,
    pot: bool,
    square: bool,
    allowRotation: bool,
    logic: PackingLogic)

  /** The flags `pack` derives from the method string: `pot` is never set,
      rotation is the packer's own flag, and only a method name can set
      `smart` or `square` or select edge logic. */
  function EngineOptionsFor(packMethod: string, allowRotate: bool): (r: EngineOptions)
    ensures !r.pot && r.allowRotation == allowRotate
    ensures r.smart || r.square || r.logic == MaxEdge ==> packMethod in MethodNames
  {
    EngineOptions(
      smart := packMethod == "Smart" || packMethod == "SmartArea" || packMethod == "SmartSquare" || packMethod == "SmartSquareArea",
      pot := false,
      square := packMethod == "Square" || packMethod == "SquareArea" || packMethod == "SmartSquare" || packMethod == "SmartSquareArea",
      allowRotation := allowRotate,
      logic := if packMethod == "Smart" || packMethod == "Square" || packMethod == "SmartSquare" then MaxEdge else MaxArea)
  }

  /** A method name without its "Smart" prefix. */
  function Stem(name: string): string {
    if IsPrefix("Smart", name) then name[5..] else name
  }

  /** The flags follow the method's name: `smart` for names starting with
      "Smart", `square` for names whose stem starts with "Square", edge
      logic for names not ending in "Area"; `pot` is never set and the
      rotation flag is the packer's own. */
  lemma FlagsFollowMethodName(m: Method, allowRotate: bool)
    ensures var f, name := EngineOptionsFor(m.Name(), allowRotate), m.Name();
      && (f.smart <==> IsPrefix("Smart", name))
      && (f.square <==> IsPrefix("Square", Stem(name)))
      && (f.logic == MaxEdge <==> !IsSuffix("Area", name))
      && !f.pot
      && f.allowRotation == allowRotate
  {
    match m
    case Smart =>
      assert "Smart"[..5] == "Smart";
    case SmartArea =>
      assert "SmartArea"[..5] == "Smart" && "SmartArea"[5..] == "Area";
      assert "SmartArea"[9 - 4..] == "Area";
    case Square =>
      assert "Square"[..5] != "Smart" by { assert "Square"[..5][2] != "Smart"[2]; }
      assert "Square"[..6] == "Square";
    case SquareArea =>
      assert "SquareArea"[..5] != "Smart" by { assert "SquareArea"[..5][2] != "Smart"[2]; }
      assert "SquareArea"[..6] == "Square";
      assert "SquareArea"[10 - 4..] == "Area";
    case SmartSquare =>
      assert "SmartSquare"[..5] == "Smart" && "SmartSquare"[5..] == "Square";
      assert "SmartSquare"[5..][..6] == "Square";
    case SmartSquareArea =>
      assert "SmartSquareArea"[..5] == "Smart" && "SmartSquareArea"[5..] == "SquareArea";
      assert "SmartSquareArea"[5..][..6] == "Square";
      assert "SmartSquareArea"[15 - 4..] == "Area";
  }

  /** A string that names no method sets neither flag and uses area logic. */
  lemma UnknownMethodFlags(packMethod: string, allowRotate: bool)
    requires forall m: Method :: m.Name() != packMethod
    ensures var f := EngineOptionsFor(packMethod, allowRotate);
      !f.smart && !f.square && f.logic == MaxArea && !f.pot && f.allowRotation == allowRotate
  {
    assert Smart.Name() != packMethod && SmartArea.Name() != packMethod && Square.Name() != packMethod;
    assert SquareArea.Name() != packMethod && SmartSquare.Name() != packMethod && SmartSquareArea.Name() != packMethod;
  }

  /** The display name of a flag combination: "Smart", then "square"
      ("Square" when it comes first), then the logic. */
  function Label(f: EngineOptions): string {
    (if f.smart then "Smart " else "")
    + (if f.square then (if f.smart then "square " else "Square ") else "")
    + (if f.logic == MaxEdge then "edge logic" else "area logic")
  }

  /** The flags `pack` uses for each of the six method names. */
  lemma EngineOptionsOfMethods()
    ensures EngineOptionsFor("Smart", false) == EngineOptions(true, false, false, false, MaxEdge)
    ensures EngineOptionsFor("SmartArea", false) == EngineOptions(true, false, false, false, MaxArea)
    ensures EngineOptionsFor("Square", false) == EngineOptions(false, false, true, false, MaxEdge)
    ensures EngineOptionsFor("SquareArea", false) == EngineOptions(false, false, true, false, MaxArea)
    ensures EngineOptionsFor("SmartSquare", false) == EngineOptions(true, false, true, false, MaxEdge)
    ensures EngineOptionsFor("SmartSquareArea", false) == EngineOptions(true, false, true, false, MaxArea)
  {
  }

  /** The labels of the six flag combinations the methods use. */
  lemma LabelsOfMethods()
    ensures Label(EngineOptions(true, false, false, false, MaxEdge)) == "Smart edge logic"
    ensures Label(EngineOptions(true, false, false, false, MaxArea)) == "Smart area logic"
    ensures Label(EngineOptions(false, false, true, false, MaxEdge)) == "Square edge logic"
    ensures Label(EngineOptions(false, false, true, false, MaxArea)) == "Square area logic"
    ensures Label(EngineOptions(true, false, true, false, MaxEdge)) == "Smart square edge logic"
    ensures Label(EngineOptions(true, false, true, false, MaxArea)) == "Smart square area logic"
  {
    assert "Smart " + "" + "edge logic" == "Smart edge logic";
    assert "Smart " + "" + "area logic" == "Smart area logic";
    assert "" + "Square " + "edge logic" == "Square edge logic";
    assert "" + "Square " + "area logic" == "Square area logic";
    assert "Smart " + "square " + "edge logic" == "Smart square edge logic";
    assert "Smart " + "square " + "area logic" == "Smart square area logic";
  }

  /** `getMethodProps`: exact (case-sensitive) switch on the method name;
      any other id throws.  A method's display name describes the flags
      `pack` uses for it, and its description is empty. */
  function GetMethodProps(id: string): (r: Result<MethodProps, string>)
    ensures r.Success? <==> id in MethodNames
    ensures r.Success? ==> r.value == MethodProps(Label(EngineOptionsFor(id, false)), "")
    ensures r.Failure? ==> r.error == "Unknown method " + id
  {
    EngineOptionsOfMethods();
    LabelsOfMethods();
    if id == "Smart" then
      Success(MethodProps("Smart edge logic", ""))
    else if id == "SmartArea" then
      Success(MethodProps("Smart area logic", ""))
    else if id == "Square" then
      Success(MethodProps("Square edge logic", ""))
    else if id == "SquareArea" then
      Success(MethodProps("Square area logic", ""))
    else if id == "SmartSquare" then
      Success(MethodProps("Smart square edge logic", ""))
    else if id == "SmartSquareArea" then
      Success(MethodProps("Smart square area logic", ""))
    else Failure("Unknown method " + id)
  }

  /** The names switched on are exactly the names of the six methods. */
  lemma MethodPropsCoverMethods(id: string)
    ensures GetMethodProps(id).Success? <==> exists m: Method :: m.Name() == id
  {
    if GetMethodProps(id).Success? {
      var i :| 0 <= i < |MethodNames| && MethodNames[i] == id;
      assert Methods[i].Name() == id;
    } else {
      forall m: Method ensures m.Name() != id {
        match m case _ =>
      }
    }
  }

  /** `getMethodByType`: case-insensitive first match over the keys. */
  function GetMethodByType(query: string): (r: Option<Method>)
    ensures r.Some? ==> r.value in Methods && ToLower(r.value.Name()) == ToLower(query)
    ensures r.None? <==> forall i :: 0 <= i < |MethodNames| ==> ToLower(MethodNames[i]) != ToLower(query)
  {
    match FindType(MethodNames, query)
    case None => None
    case Some(i) =>
      assert MethodNames[i] == Methods[i].Name();
      Some(Methods[i])
  }

  /** Each method is found by any casing of its name, and only by it; the
      six lowered names differ (already in length), so the first match is
      the only one. */
  lemma GetMethodByTypeExact(query: string, m: Method)
    ensures GetMethodByType(query) == Some(m) <==> ToLower(query) == ToLower(m.Name())
  {
    var r := GetMethodByType(query);
    if ToLower(query) == ToLower(m.Name()) {
      var i := match m
        case Smart => 0 case SmartArea => 1 case Square => 2
        case SquareArea => 3 case SmartSquare => 4 case SmartSquareArea => 5;
      assert Methods[i] == m;
      assert ToLower(MethodNames[i]) == ToLower(query);
      assert r.Some?;
      assert |r.value.Name()| == |m.Name()|;
      match m case _ => match r.value case _ =>
    }
  }

  /** The default method is found by its own name. */
  lemma DefaultMethodIsKnown()
    ensures GetMethodByType(DefaultMethod.Name()) == Some(Smart)
    ensures GetMethodProps(DefaultMethod.Name()).Success?
  {
    GetMethodByTypeExact(DefaultMethod.Name(), Smart);
  }

  /** The sprite record the packer receives as `data`; `pack` writes its
      placement back into it. */
  class Sprite {
    var frame: Frame
    var rotated: bool

    constructor(frame: Frame, rotated: bool)
      ensures this.frame == frame && this.rotated == rotated
    {
      this.frame := frame;
      this.rotated := rotated;
    }
  }

  /** An element of `input`: the size submitted and the sprite as data. */
  datatype InputRect = InputRect(width: nat, height: nat, data: Sprite)

  /** A rectangle placed by the engine, carrying the data it was given. */
  datatype Placement = Placement(x: int, y: int, rot: bool, data: Sprite)

  datatype EngineBin = EngineBin(rects: seq<Placement>)

  /** `new MaxRectsPackerEngine(width, height, padding, options)` followed by
      `addArray(input)`: the bins it ends with. */
  type Engine = (int, int, int, EngineOptions, seq<InputRect>) -> seq<EngineBin>

  /** `pack` reads `bins[0].rects` of an engine that produced no bin. */
  datatype PackError = NoBin

  ghost function Inputs(data: seq<Sprite>): (input: seq<InputRect>)
    reads set s | s in data
    ensures |input| == |data|
  {
    seq(|data|, i reads set s | s in data requires 0 <= i < |data| => InputRect(data[i].frame.w, data[i].frame.h, data[i]))
  }

  /** What the engine is taken to do with the input: every rectangle of its
      first bin carries one of the submitted sprites, each at most once. */
  predicate PlacesInputOnce(bins: seq<EngineBin>, data: seq<Sprite>) {
    |bins| > 0 ==>
      && (forall k :: 0 <= k < |bins[0].rects| ==> bins[0].rects[k].data in data)
      && (forall i, j :: 0 <= i < j < |bins[0].rects| ==> bins[0].rects[i].data != bins[0].rects[j].data)
  }

  class MaxRectsPacker {
    var binWidth: int
    var binHeight: int
    var allowRotate: bool

    constructor(width: int, height: int, allowRotate: bool)
      ensures binWidth == width && binHeight == height && this.allowRotate == allowRotate
    {
      binWidth := width;
      binHeight := height;
      this.allowRotate := allowRotate;
    }

    ghost function EngineResult(engine: Engine, data: seq<Sprite>, packMethod: string): seq<EngineBin>
      reads this, set s | s in data
    {
      engine(binWidth, binHeight, 0, EngineOptionsFor(packMethod, allowRotate), Inputs(data))
    }

    /** `pack`: submit every sprite at its frame size, then copy the first
        bin's placements back into the sprites and return them in the
        engine's order.  `rotated` is only ever set, never cleared. */
    method Pack(data: seq<Sprite>, packMethod: string, engine: Engine) returns (r: Result<seq<Sprite>, PackError>)
      requires PlacesInputOnce(EngineResult(engine, data, packMethod), data)
      modifies set s | s in data
      ensures var bins := old(EngineResult(engine, data, packMethod));
        r.Failure? <==> |bins| == 0
      ensures var bins := old(EngineResult(engine, data, packMethod));
        r.Success? ==>
          var rects := bins[0].rects;
          && |r.value| == |rects|
          && (forall k :: 0 <= k < |rects| ==> r.value[k] == rects[k].data)
          && (forall k :: 0 <= k < |rects| ==>
                && rects[k].data.frame == old(rects[k].data.frame).(x := rects[k].x, y := rects[k].y)
                && rects[k].data.rotated == (old(rects[k].data.rotated) || rects[k].rot))
      ensures var bins := old(EngineResult(engine, data, packMethod));
        forall s :: s in data && (|bins| == 0 || forall k :: 0 <= k < |bins[0].rects| ==> bins[0].rects[k].data != s) ==>
          s.frame == old(s.frame) && s.rotated == old(s.rotated)
    {
      var options := EngineOptionsFor(packMethod, allowRotate);

      var input: seq<InputRect> := [];
      for i := 0 to |data|
        invariant input == Inputs(data)[..i]
      {
        input := input + [InputRect(data[i].frame.w, data[i].frame.h, data[i])];
      }
      assert input == Inputs(data);

      var bins := engine(binWidth, binHeight, 0, options, input);
      if |bins| == 0 {
        return Failure(NoBin);
      }
      var rects := bins[0].rects;

      var res: seq<Sprite> := [];
      for k := 0 to |rects|
        invariant |res| == k && forall j :: 0 <= j < k ==> res[j] == rects[j].data
        invariant forall j :: 0 <= j < k ==>
          && rects[j].data.frame == old(rects[j].data.frame).(x := rects[j].x, y := rects[j].y)
          && rects[j].data.rotated == (old(rects[j].data.rotated) || rects[j].rot)
        invariant forall j :: k <= j < |rects| ==>
          rects[j].data.frame == old(rects[j].data.frame) && rects[j].data.rotated == old(rects[j].data.rotated)
        invariant forall s :: s in data && (forall j :: 0 <= j < |rects| ==> rects[j].data != s) ==>
          s.frame == old(s.frame) && s.rotated == old(s.rotated)
      {
        var item := rects[k];
        item.data.frame := item.data.frame.(x := item.x, y := item.y);
        if item.rot {
          item.data.rotated := true;
        }
        res := res + [item.data];
      }
      r := Success(res);
    }
  }
}
