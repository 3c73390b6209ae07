// The @SerializedName annotation: the name a property is serialized under,
// validated when the annotation is read.

module SerializedName {
  import opened Wrappers
  import opened PhpValue

  /** `static::class` of the annotation (the class is final). */
  const ClassName := "PayNL\\Sdk\\Packages\\Symfony\\Serializer\\Annotation\\SerializedName"

  const NotSetMessage := "Parameter of annotation \"" + ClassName + "\" should be set."

  const NotNonEmptyStringMessage := "Parameter of annotation \"" + ClassName + "\" must be a non-empty string."

  datatype SerializedName = SerializedName(serializedName: string)
  {
    /** `getSerializedName`: the name the annotation was built with. */
    function GetSerializedName(): (r: string)
      ensures r == serializedName
    {
      serializedName
    }
  }

  /**
   * The constructor, given the annotation's parameters: `value` must be set
   * (present and not null) and must be a string PHP does not consider empty.
   */
  function New(data: seq<(Key, Value)>): (r: Result<SerializedName, string>)
    ensures r.Success? <==> Get(Arr(data), "value").Str? && !IsEmptyString(Get(Arr(data), "value").s)
    ensures r.Success? ==> r.value.GetSerializedName() == Get(Arr(data), "value").s
    ensures Get(Arr(data), "value") == Null ==> r == Failure(NotSetMessage)
    ensures r.Failure? && Get(Arr(data), "value") != Null ==> r == Failure(NotNonEmptyStringMessage)
  {
    var v := Get(Arr(data), "value");
    if v.Null? then Failure(NotSetMessage)
    else if !v.Str? || IsEmpty(v) then Failure(NotNonEmptyStringMessage)
    else Success(SerializedName(v.s))
  }

  /** The two failures are told apart by their messages. */
  lemma MessagesDiffer()
    ensures NotSetMessage != NotNonEmptyStringMessage
  {
    var n := |ClassName| + 27;
    assert NotSetMessage[n] == 's';
    assert NotNonEmptyStringMessage[n] == 'm';
  }

  /**
   * Any name PHP does not consider empty is accepted and read back
   * unchanged; "" and "0" are refused.
   */
  lemma NameRoundTrip(name: string, rest: seq<(Key, Value)>)
    ensures New([(StrKey("value"), Str(name))] + rest).Success? <==> name != "" && name != "0"
    ensures name != "" && name != "0" ==>
      New([(StrKey("value"), Str(name))] + rest).value.GetSerializedName() == name
  {
    assert Find([(StrKey("value"), Str(name))] + rest, StrKey("value")) == Some(Str(name));
  }
}
