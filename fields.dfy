/**
 * The field checks Django REST framework runs on a request before a serializer's own
 * `validate`: a `CharField` trims surrounding whitespace, refuses a missing required value,
 * a blank value (unless blank is allowed) and a value over its maximum length; a
 * `ChoiceField` refuses a value outside its choices. A missing key and an explicit null are
 * both `None`.
 */
module Fields {
  import opened Wrappers
  import Text

  const REQUIRED: string := "This field is required."
  const BLANK: string := "This field may not be blank."

  /** Every present value trimmed, as the serializer hands it to `validate`. */
  function Trimmed(v: Option<string>): (r: Option<string>)
    ensures r.None? <==> v.None?
  {
    if v.None? then None else Some(Text.Strip(v.value))
  }

  /** `CharField(required, allow_blank, max_length)` with `trim_whitespace` on, as in every serializer here. */
  function CharField(v: Option<string>, required: bool, allowBlank: bool, maxLength: Option<nat>): (r: Result<Option<string>>)
    ensures v.None? ==> (r.Ok? <==> !required)
    ensures v.Some? ==> (r.Ok? <==> (allowBlank || Text.Strip(v.value) != [])
                                    && (maxLength.None? || |Text.Strip(v.value)| <= maxLength.value))
    ensures r.Ok? ==> r.value == Trimmed(v)
  {
    if v.None? then
      if required then Err(REQUIRED) else Ok(None)
    else
      var t := Text.Strip(v.value);
      if t == [] && !allowBlank then Err(BLANK)
      else if maxLength.Some? && |t| > maxLength.value then
        Err("Ensure this field has no more than " + Text.NatToString(maxLength.value) + " characters.")
      else Ok(Some(t))
  }

  /** A value the field accepted passes it again unchanged. */
  lemma CharFieldStable(v: Option<string>, required: bool, allowBlank: bool, maxLength: Option<nat>)
    requires CharField(v, required, allowBlank, maxLength).Ok?
    ensures var w := CharField(v, required, allowBlank, maxLength).value;
            CharField(w, required, allowBlank, maxLength) == Ok(w)
  {
    if v.Some? {
      Text.StripIdempotent(v.value);
    }
  }

  /** `ChoiceField(choices, required)`: the value as given, when it is one of the choices. */
  function ChoiceField(v: Option<string>, required: bool, choices: set<string>): (r: Result<Option<string>>)
    ensures r.Ok? <==> (v.None? ==> !required) && (v.Some? ==> v.value in choices)
    ensures r.Ok? ==> r.value == v
  {
    if v.None? then
      if required then Err(REQUIRED) else Ok(None)
    else if v.value !in choices then Err("\"" + v.value + "\" is not a valid choice.")
    else Ok(v)
  }
}
