/** Miscellaneous utilities for objects (oracle.kv.impl.util.ObjectUtil).
    The class has no state and no instances; its one utility is a function here. */
module ObjectUtil {
  import opened Common

  datatype IllegalArgumentException = IllegalArgumentException(message: string)

  /** Java's rendering of a possibly null string in a concatenation. */
  function NullableText(s: Option<string>): (text: string)
    ensures s.Some? ==> text == s.value
    ensures s.None? ==> text == "null"
  {
    if s.None? then "null" else s.value
  }

  const MESSAGE_HEAD: string := "The value of "
  const MESSAGE_TAIL: string := " must not be null"

  /** checkNull: rejects a null value with a message naming the variable. */
  function CheckNull<T>(variableName: Option<string>, value: Option<T>): (r: Outcome<IllegalArgumentException>)
    ensures r.Fail? <==> value.None?
    ensures r.Fail? ==> r.error.message == MESSAGE_HEAD + NullableText(variableName) + MESSAGE_TAIL
  {
    if value.None? then Fail(IllegalArgumentException(MESSAGE_HEAD + NullableText(variableName) + MESSAGE_TAIL))
    else Pass
  }

  /** The variable's name can be read back from the message of the exception,
      between the fixed head and tail. */
  lemma CheckNullNamesTheVariable<T>(name: string)
    ensures var r := CheckNull<T>(Some(name), None);
            && r.Fail?
            && |r.error.message| == |MESSAGE_HEAD| + |name| + |MESSAGE_TAIL|
            && r.error.message[..|MESSAGE_HEAD|] == MESSAGE_HEAD
            && r.error.message[|MESSAGE_HEAD|..|MESSAGE_HEAD| + |name|] == name
            && r.error.message[|MESSAGE_HEAD| + |name|..] == MESSAGE_TAIL
  {
    var m := MESSAGE_HEAD + name + MESSAGE_TAIL;
    assert m[..|MESSAGE_HEAD|] == MESSAGE_HEAD;
    assert m[|MESSAGE_HEAD|..|MESSAGE_HEAD| + |name|] == name;
    assert m[|MESSAGE_HEAD| + |name|..] == MESSAGE_TAIL;
  }

  /** Different variable names give different messages. */
  lemma CheckNullMessagesDistinguishNames<T>(a: string, b: string)
    requires a != b
    ensures CheckNull<T>(Some(a), None).error.message != CheckNull<T>(Some(b), None).error.message
  {
    CheckNullNamesTheVariable<T>(a);
    CheckNullNamesTheVariable<T>(b);
  }
}
