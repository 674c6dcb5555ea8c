/** The shared input component: its character counter, the password
    show/hide toggle, when the counter shows, and the counter's colour. */
module FormField {
  import opened Common

  datatype CounterColour = Grey | Yellow | Red

  /** The counter's colour. `count > 0.8 * max` is the integer comparison
      `5 * count > 4 * max`. */
  function ColourOf(count: nat, max: nat): (c: CounterColour)
    ensures c == Grey <==> 5 * count <= 4 * max
    ensures c == Yellow <==> 4 * max < 5 * count && count < max
    ensures max > 0 ==> (c == Red <==> count >= max)
  {
    if 5 * count > 4 * max then
      if count >= max then Red else Yellow
    else Grey
  }

  function Rank(c: CounterColour): nat
  {
    match c
    case Grey => 0
    case Yellow => 1
    case Red => 2
  }

  /** Typing more characters never makes the counter calmer. */
  lemma ColourMonotone(count: nat, more: nat, max: nat)
    requires count <= more
    ensures Rank(ColourOf(count, max)) <= Rank(ColourOf(more, max))
  {
  }

  /** The `type` the input is rendered with: a password field shows its
      text while `showPassword` is on; every other type is kept. */
  function InputType(fieldType: string, showPassword: bool): (t: string)
    ensures fieldType == "password" ==> (t == "text" <==> showPassword)
    ensures fieldType == "password" && !showPassword ==> t == "password"
    ensures fieldType != "password" ==> t == fieldType
  {
    if fieldType == "password" && showPassword then "text" else fieldType
  }

  /** The counter shows when a (non-zero) `maxLength` is given and there is
      no error message. */
  predicate CounterShown(maxLength: nat, error: Option<string>)
  {
    maxLength != 0 && !Truthy(error)
  }

  /** `value?.length || 0` */
  function InitialCount(value: Option<string>): (n: nat)
    ensures value.Some? ==> n == |value.value|
    ensures value.None? ==> n == 0
  {
    if value.Some? then |value.value| else 0
  }

  class Field {
    const fieldType: string
    /** 0 stands for an absent `maxLength` */
    const maxLength: nat
    var charCount: nat
    var showPassword: bool
    /** the values handed to `setFunc`, in order */
    var forwarded: seq<string>

    constructor (fieldType: string, maxLength: nat, value: Option<string>)
      ensures this.fieldType == fieldType && this.maxLength == maxLength
      ensures charCount == InitialCount(value) && !showPassword && forwarded == []
    {
      this.fieldType := fieldType;
      this.maxLength := maxLength;
      charCount := InitialCount(value);
      showPassword := false;
      forwarded := [];
    }

    /** `handleChange`: the value always goes to `setFunc`; the counter
        follows it only when there is a `maxLength`. */
    method HandleChange(value: string)
      modifies this
      ensures forwarded == old(forwarded) + [value]
      ensures charCount == (if maxLength != 0 then |value| else old(charCount))
      ensures showPassword == old(showPassword)
    {
      forwarded := forwarded + [value];
      if maxLength != 0 {
        charCount := |value|;
      }
    }

    /** The eye button. */
    method TogglePassword()
      modifies this
      ensures showPassword == !old(showPassword)
      ensures charCount == old(charCount) && forwarded == old(forwarded)
    {
      showPassword := !showPassword;
    }

    function RenderedType(): (t: string)
      reads this
      ensures fieldType == "password" ==> (t == "text" <==> showPassword)
      ensures fieldType != "password" ==> t == fieldType
    {
      InputType(fieldType, showPassword)
    }

    /** The colour of the counter, when it is shown. */
    function Counter(error: Option<string>): (c: Option<CounterColour>)
      reads this
      ensures c.Some? <==> CounterShown(maxLength, error)
      ensures c.Some? ==> (c.value == Red <==> charCount >= maxLength)
    {
      if CounterShown(maxLength, error) then Some(ColourOf(charCount, maxLength)) else None
    }
  }
}
