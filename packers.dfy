/** src/packers/index.ts: the registry of packers, and the per-packer
    statics (`defaultMethod`, `getMethodByType`) that option checking
    dispatches to.  MaxRectsBin's own source is not part of this model:
    its type string is the `PackerType.MAX_RECTS_BIN` enum value and its
    two statics are supplied as a `BinPackerInfo`. */
module Packers {
  import opened Wrappers
  import opened Text
  import opened Registry
  import MaxRectsPacking
  import OptimalPacking

  datatype PackerKind = MaxRectsBin | MaxRectsPacker | OptimalPacker {
    /** The static `type` getter of each packer class. */
    function Type(): string {
      match this
      case MaxRectsBin => "MaxRectsBin"
      case MaxRectsPacker => MaxRectsPacking.PackerType
      case OptimalPacker => OptimalPacking.PackerType
    }
  }

  /** `list`, in registration order. */
  const List: seq<PackerKind> := [MaxRectsBin, MaxRectsPacker, OptimalPacker]

  const Types: seq<string> := ["MaxRectsBin", "MaxRectsPacker", "OptimalPacker"]

  /** `getPackerByType`: the first packer in `list` whose type equals the
      query ignoring case, or none. */
  function GetPackerByType(query: string): (r: Option<PackerKind>)
    ensures r.Some? ==> ToLower(r.value.Type()) == ToLower(query)
    ensures r.None? <==> forall i :: 0 <= i < |List| ==> ToLower(List[i].Type()) != ToLower(query)
  {
    match FindType(Types, query)
    case None =>
      assert forall i :: 0 <= i < |List| ==> List[i].Type() == Types[i];
      None
    case Some(i) =>
      assert List[i].Type() == Types[i];
      Some(List[i])
  }

  /** The three lowered types differ (in length), so a packer is returned
      exactly when the query is its type in some casing. */
  lemma GetPackerByTypeExact(query: string, k: PackerKind)
    ensures GetPackerByType(query) == Some(k) <==> ToLower(query) == ToLower(k.Type())
  {
    var r := GetPackerByType(query);
    if ToLower(query) == ToLower(k.Type()) {
      var i := match k case MaxRectsBin => 0 case MaxRectsPacker => 1 case OptimalPacker => 2;
      assert List[i] == k;
      assert r.Some?;
      assert |r.value.Type()| == |k.Type()|;
      match k case _ => match r.value case _ =>
    }
  }

  /** MaxRectsBin's `defaultMethod` and `getMethodByType`, whose source is
      not part of this model. */
  datatype BinPackerInfo = BinPackerInfo(defaultMethod: string, methodByType: string -> Option<string>)

  /** `packer.getMethodByType(query)`, as the method's enum value: for
      MaxRectsBin the supplied lookup, for the other two packers one of their
      own method names that equals the query ignoring case, or none when no
      method name does. */
  function MethodByType(k: PackerKind, query: string, bin: BinPackerInfo): (r: Option<string>)
    ensures k == MaxRectsBin ==> r == bin.methodByType(query)
    ensures k == MaxRectsPacker ==>
      && (r.Some? ==> r.value in MaxRectsPacking.MethodNames && ToLower(r.value) == ToLower(query))
      && (r.None? <==> forall i :: 0 <= i < |MaxRectsPacking.MethodNames| ==> ToLower(MaxRectsPacking.MethodNames[i]) != ToLower(query))
    ensures k == OptimalPacker ==>
      && (r.Some? ==> r.value == OptimalPacking.DefaultMethod.Name())
      && (r.Some? <==> ToLower(query) == ToLower(OptimalPacking.DefaultMethod.Name()))
  {
    match k
    case MaxRectsBin => bin.methodByType(query)
    case MaxRectsPacker =>
      (match MaxRectsPacking.GetMethodByType(query)
       case None => None
       case Some(m) =>
         assert m.Name() in MaxRectsPacking.MethodNames by {
           var i :| 0 <= i < |MaxRectsPacking.Methods| && MaxRectsPacking.Methods[i] == m;
           assert MaxRectsPacking.MethodNames[i] == m.Name();
         }
         Some(m.Name()))
    case OptimalPacker =>
      (match OptimalPacking.GetMethodByType(query)
       case None => None
       case Some(m) => Some(m.Name()))
  }

  /** `packer.defaultMethod`: MaxRectsBin's supplied default, "Smart" for
      MaxRectsPacker and "Automatic" for OptimalPacker; each of the latter
      two is resolved to itself by its packer's `getMethodByType` and
      described by its `getMethodProps`. */
  function DefaultMethodOf(k: PackerKind, bin: BinPackerInfo): (r: string)
    ensures k == MaxRectsBin ==> r == bin.defaultMethod
    ensures k != MaxRectsBin ==> MethodByType(k, r, bin) == Some(r)
    ensures k == MaxRectsPacker ==> r == "Smart" && MaxRectsPacking.GetMethodProps(r).Success?
    ensures k == OptimalPacker ==> r == "Automatic" && OptimalPacking.GetMethodProps(r).Success?
  {
    match k
    case MaxRectsBin => bin.defaultMethod
    case MaxRectsPacker =>
      MaxRectsPacking.DefaultMethodIsKnown();
      MaxRectsPacking.DefaultMethod.Name()
    case OptimalPacker => OptimalPacking.DefaultMethod.Name()
  }
}
