/**
 * The slice of `System.Text.Json` both configuration stores use: a document
 * is malformed text, the literal `null`, an object of named members, or
 * some other value; `JsonSerializer.Deserialize<T>` maps an object onto
 * `T`'s properties by exact (case-sensitive) name, leaves an absent member
 * at the property's initializer, ignores members `T` does not have, and
 * throws on a member of the wrong JSON type or a number outside `int`.
 */
module ConfigurationJson {
  import opened Wrappers

  datatype JsonValue = JString(text: string) | JBool(flag: bool) | JNumber(number: int) | JOther

  datatype Json = Malformed | NullLiteral | Object(members: map<string, JsonValue>) | NotAnObject

  /** What `Deserialize<T>` does: throws, answers null, or answers a value. */
  datatype Deserialized<T> = Threw | Null | Parsed(value: T)

  /** The contents of a configuration file, or its absence (`File.Exists` false). */
  datatype ConfigFile = Absent | Stored(json: Json)

  /** A C# `int`. */
  predicate IsInt32(n: int) {
    -0x8000_0000 <= n < 0x8000_0000
  }

  type Int32 = n: int | IsInt32(n)

  /** A `string` property: absent gives the default; a non-string member throws. */
  function StringMember(members: map<string, JsonValue>, name: string, default: string): (r: Option<string>)
    ensures name !in members ==> r == Some(default)
    ensures name in members && members[name].JString? ==> r == Some(members[name].text)
    ensures name in members && !members[name].JString? ==> r == None
  {
    if name !in members then Some(default)
    else match members[name]
      case JString(text) => Some(text)
      case _ => None
  }

  /** A `bool` property: absent gives the default; anything but `true`/`false` throws. */
  function BoolMember(members: map<string, JsonValue>, name: string, default: bool): (r: Option<bool>)
    ensures name !in members ==> r == Some(default)
    ensures name in members && members[name].JBool? ==> r == Some(members[name].flag)
    ensures name in members && !members[name].JBool? ==> r == None
  {
    if name !in members then Some(default)
    else match members[name]
      case JBool(flag) => Some(flag)
      case _ => None
  }

  /** An `int` property: absent gives the default; a non-number or one outside `int` throws. */
  function Int32Member(members: map<string, JsonValue>, name: string, default: Int32): (r: Option<Int32>)
    ensures name !in members ==> r == Some(default)
    ensures name in members && members[name].JNumber? && IsInt32(members[name].number) ==> r == Some(members[name].number)
    ensures name in members && !(members[name].JNumber? && IsInt32(members[name].number)) ==> r == None
  {
    if name !in members then Some(default)
    else match members[name]
      case JNumber(n) => if IsInt32(n) then Some(n) else None
      case _ => None
  }
}
