/** The icon record of an Instant Answer and the rule that decodes its two
    dimensions: an integer is taken as it is, the empty string means 0, and
    anything else is an error. */
module Icon {
  import opened Json

  /** An image attached to an answer or a related topic. The service sends the
      keys "Height", "URL" and "Width". */
  datatype Icon = Icon(height: u64, url: string, width: u64)

  /** The reason the visitor gives when it rejects a string. */
  const NonEmptyString := "got a non-empty string"

  /** The visitor's answer to an unsigned integer: accept it unchanged. */
  function VisitU64(v: u64): (r: Result<u64>)
    ensures r.Ok? && r.value == v
  {
    Ok(v)
  }

  /** The visitor's answer to a string: only the empty string is accepted, and
      it stands for 0. */
  function VisitStr(v: string): (r: Result<u64>)
    ensures r.Ok? <==> v == ""
    ensures r.Ok? ==> r.value == 0
    ensures r.Err? ==> r.error == InvalidValue(NonEmptyString)
  {
    if v == "" then Ok(0) else Err(InvalidValue(NonEmptyString))
  }

  /** Deserialize a dimension with the u64-or-empty-string visitor. The
      deserializer calls the visit_* method for the kind of value it holds;
      the visitor overrides only visit_u64 and visit_str, so every other kind
      falls to the default, which rejects it as the wrong type. */
  function DeserializeU64OrEmptyString(v: Value): (r: Result<u64>)
    ensures r.Ok? <==> v.UInt? || v == Str("")
    ensures v.UInt? ==> r == Ok(v.u)
    ensures v == Str("") ==> r == Ok(0)
    ensures v.Str? && v.s != "" ==> r == Err(InvalidValue(NonEmptyString))
    ensures !v.UInt? && !v.Str? ==> r == Err(InvalidType)
  {
    match v
    case UInt(n) => VisitU64(n)
    case Str(s) => VisitStr(s)
    case _ => Err(InvalidType)
  }

  /** Deserialize a Rust `String` with the serde of this code's era: a JSON
      string is taken verbatim, and null (which reaches visit_unit) is the
      empty string; every other kind is the wrong type. */
  function DeserializeString(v: Value): (r: Result<string>)
    ensures r.Ok? <==> v.Str? || v.Null?
    ensures v.Str? ==> r == Ok(v.s)
    ensures v.Null? ==> r == Ok("")
    ensures !v.Str? && !v.Null? ==> r == Err(InvalidType)
  {
    match v
    case Str(s) => Ok(s)
    case Null => Ok("")
    case _ => Err(InvalidType)
  }

  /** Look up a struct field in a JSON object; an absent key is a missing field. */
  function Field(fields: map<string, Value>, key: string): (r: Result<Value>)
    ensures r.Ok? <==> key in fields
    ensures r.Ok? ==> r.value == fields[key]
    ensures r.Err? ==> r.error == MissingField(key)
  {
    if key in fields then Ok(fields[key]) else Err(MissingField(key))
  }

  /** Decode an Icon from a JSON object: Height and Width go through the
      u64-or-empty-string rule, URL must be a string or null, keys other than
      these three are ignored, and a value that is not an object is the wrong
      type. */
  function DecodeIcon(v: Value): (r: Result<Icon>)
    ensures r.Ok? <==>
      v.Object? && "Height" in v.fields && "URL" in v.fields && "Width" in v.fields
      && DeserializeU64OrEmptyString(v.fields["Height"]).Ok?
      && (v.fields["URL"].Str? || v.fields["URL"].Null?)
      && DeserializeU64OrEmptyString(v.fields["Width"]).Ok?
    ensures r.Ok? ==>
      Ok(r.value.url) == DeserializeString(v.fields["URL"])
      && Ok(r.value.height) == DeserializeU64OrEmptyString(v.fields["Height"])
      && Ok(r.value.width) == DeserializeU64OrEmptyString(v.fields["Width"])
  {
    match v
    case Object(fields) =>
      var height :- Field(fields, "Height");
      var h :- DeserializeU64OrEmptyString(height);
      var url :- Field(fields, "URL");
      var u :- DeserializeString(url);
      var width :- Field(fields, "Width");
      var w :- DeserializeU64OrEmptyString(width);
      Ok(Icon(h, u, w))
    case _ => Err(InvalidType)
  }

  /** The JSON object the service sends for an icon whose dimensions are known. */
  function IconJson(icon: Icon): Value {
    Object(map["Height" := UInt(icon.height), "URL" := Str(icon.url), "Width" := UInt(icon.width)])
  }

  // ---------------------------------------------------------------------------
  // Properties of the dimension rule

  /** Every unsigned integer decodes to itself. */
  lemma IntegerDecodesUnchanged(n: u64)
    ensures DeserializeU64OrEmptyString(UInt(n)) == Ok(n)
  {
  }

  /** The empty string decodes to 0. */
  lemma EmptyStringDecodesToZero()
    ensures DeserializeU64OrEmptyString(Str("")) == Ok(0)
  {
  }

  /** A non-empty string is rejected, never read as a number ("50" included). */
  lemma NonEmptyStringRejected(s: string)
    requires s != ""
    ensures DeserializeU64OrEmptyString(Str(s)).Err?
  {
  }

  /** Null, booleans, negative and fractional numbers, arrays and objects are
      all rejected as the wrong type. */
  lemma OtherKindsRejected(v: Value)
    requires !v.UInt? && !v.Str?
    ensures DeserializeU64OrEmptyString(v) == Err(InvalidType)
  {
  }

  /** The exact preimage of each result: `n` comes from the integer `n`, and
      additionally from "" when `n` is 0. */
  lemma DecodedFrom(v: Value, n: u64)
    ensures DeserializeU64OrEmptyString(v) == Ok(n) <==> v == UInt(n) || (n == 0 && v == Str(""))
  {
  }

  /** The rule is not injective: the integer 0 and the empty string agree. */
  lemma ZeroAndEmptyStringCollide()
    ensures UInt(0) != Str("")
    ensures DeserializeU64OrEmptyString(UInt(0)) == DeserializeU64OrEmptyString(Str(""))
  {
  }

  // ---------------------------------------------------------------------------
  // Properties of the Icon decoder

  /** An icon with integer dimensions survives the trip through its JSON form. */
  lemma IconRoundTrip(icon: Icon)
    ensures DecodeIcon(IconJson(icon)) == Ok(icon)
  {
  }

  /** The service's "unknown dimension" convention: empty strings give 0 by 0. */
  lemma UnknownDimensionsDecodeToZero(url: string)
    ensures DecodeIcon(Object(map["Height" := Str(""), "URL" := Str(url), "Width" := Str("")]))
            == Ok(Icon(0, url, 0))
  {
  }

  /** Height and Width are decoded by the same rule: exchanging their JSON
      values exchanges the decoded dimensions and keeps the outcome. */
  lemma DimensionsDecodedAlike(fields: map<string, Value>)
    requires "Height" in fields && "Width" in fields
    ensures var swapped := fields["Height" := fields["Width"]]["Width" := fields["Height"]];
      DecodeIcon(Object(swapped)).Ok? == DecodeIcon(Object(fields)).Ok?
      && (DecodeIcon(Object(fields)).Ok? ==>
            DecodeIcon(Object(swapped)).value
            == DecodeIcon(Object(fields)).value.(height := DecodeIcon(Object(fields)).value.width,
                                                 width := DecodeIcon(Object(fields)).value.height))
  {
  }

  /** A null URL decodes to the empty URL; the dimensions are unaffected. */
  lemma NullUrlDecodesToEmpty(height: u64, width: u64)
    ensures DecodeIcon(Object(map["Height" := UInt(height), "URL" := Null, "Width" := UInt(width)]))
            == Ok(Icon(height, "", width))
  {
  }

  /** Keys other than Height, URL and Width do not affect the outcome. */
  lemma OtherKeysIgnored(fields: map<string, Value>, key: string, x: Value)
    requires key != "Height" && key != "URL" && key != "Width"
    ensures DecodeIcon(Object(fields[key := x])) == DecodeIcon(Object(fields))
  {
  }
}
