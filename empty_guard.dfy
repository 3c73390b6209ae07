// The guard hydrators use to reject empty input.

module EmptyGuard {
  import opened Wrappers
  import opened PhpValue

  /** The name used when the caller gives none. */
  const DefaultDataName := "Argument"

  /**
   * `guardAgainstEmpty`: fails with "<dataName> cannot be empty" exactly
   * when `data` is empty in PHP's sense, and otherwise does nothing.
   */
  function GuardAgainstEmpty(data: Value, dataName: string := DefaultDataName): (r: Outcome<string>)
    ensures r.Fail? <==> IsEmpty(data)
    ensures r.Fail? ==> r.error == dataName + " cannot be empty"
  {
    if IsEmpty(data) then Fail(dataName + " cannot be empty") else Pass
  }

  /**
   * The values the guard rejects are exactly null, false, 0, "", "0" and
   * the empty array.
   */
  lemma {:induction false} RejectedValues(data: Value, dataName: string)
    ensures GuardAgainstEmpty(data, dataName).Fail? <==>
      data in {Null, Bool(false), Int(0), Str(""), Str("0"), Arr([])}
  {
    match data
    case Str(s) =>
      assert IsEmptyString(s) <==> s == "" || s == "0";
    case Arr(es) =>
      assert IsEmpty(data) <==> es == [];
    case _ =>
  }

  /** Without a name the message reads "Argument cannot be empty". */
  lemma DefaultMessage(data: Value)
    requires IsEmpty(data)
    ensures GuardAgainstEmpty(data) == Fail("Argument cannot be empty")
  {
    assert DefaultDataName + " cannot be empty" == "Argument cannot be empty";
  }
}
