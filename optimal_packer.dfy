/** src/packers/OptimalPacker.ts: a placeholder packer that registers one
    method and refuses to pack. */
module OptimalPacking {
  import opened Wrappers
  import opened Text
  import opened Registry

  datatype Method = Automatic {
    function Name(): string {
      "Automatic"
    }
  }

  const PackerType: string := "OptimalPacker"
  const DefaultMethod: Method := Automatic

  const Message: string := "OptimalPacker is a dummy and cannot be used directly"

  /** `pack` throws whatever it is given. */
  function Pack<T>(data: seq<T>, packMethod: string): (r: Result<seq<T>, string>)
    ensures r.Failure? && r.error == Message
  {
    Failure(Message)
  }

  /** `getMethodProps`: only the exact name "Automatic" is described. */
  function GetMethodProps(id: string): (r: Result<MethodProps, string>)
    ensures r.Success? <==> id == Automatic.Name()
    ensures r.Success? ==> r.value == MethodProps("Automatic", "")
    ensures r.Failure? ==> r.error == "Unknown method " + id
  {
    if id == "Automatic" then Success(MethodProps("Automatic", "")) else Failure("Unknown method " + id)
  }

  /** `getMethodByType`: case-insensitive search of the single key. */
  function GetMethodByType(query: string): (r: Option<Method>)
    ensures r.Some? <==> ToLower(query) == ToLower("Automatic")
  {
    match FindType(["Automatic"], query)
    case None => None
    case Some(_) => Some(Automatic)
  }

  /** Every casing of "automatic" finds the default method, which is
      described under its own name. */
  lemma DefaultMethodIsKnown(query: string)
    requires ToLower(query) == ToLower(DefaultMethod.Name())
    ensures GetMethodByType(query) == Some(DefaultMethod)
    ensures GetMethodProps(DefaultMethod.Name()).Success?
  {
  }
}
