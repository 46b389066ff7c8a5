/** Claim lookups over a decoded token payload (Ext.cs).

    A payload maps each claim name to its element: `Some(text)` is a
    non-null element whose `ToString()` is `text`, and `None` is a null
    element, on which `element.ToString()` throws a `NullReferenceException`.
    Where the C# helpers return `false` and leave the out value at `""` or
    `0`, these return `Ok(None)`, and `GetOr("")` / `GetOr(0)` gives the out
    value; where they throw, these return the exception. */
module Claims {
  import opened Wrappers
  import opened Text

  type Payload = map<string, Option<string>>

  /** The message of the `NullReferenceException` a null element throws. */
  const NullReferenceMessage: string := "Object reference not set to an instance of an object."

  /** `payload.TryGetString(key, out value)`. */
  function TryGetString(p: Payload, key: string): (r: Result<Option<string>>)
    ensures r.Err? <==> key in p && p[key].None?
    ensures r.Err? ==> r.failure == Exception(NullReferenceMessage)
    ensures r == Ok(None) <==> key !in p || p[key] == Some("")
    ensures r.Ok? && r.value.Some? ==> r.value.value != "" && p[key] == Some(r.value.value)
  {
    if key !in p then Ok(None)
    else
      match p[key]
      case None => Err(Exception(NullReferenceMessage))
      case Some(text) => if text == "" then Ok(None) else Ok(Some(text))
  }

  /** `payload.TryGetInt(key, out value)`. */
  function TryGetInt(p: Payload, key: string): (r: Result<Option<int>>)
    ensures key !in p ==> r == Ok(None)
    ensures r.Err? <==> key in p && p[key].None?
    ensures r.Err? ==> r.failure == Exception(NullReferenceMessage)
    ensures key in p && p[key].Some? ==> r == Ok(ParseInt32(p[key].value))
    ensures r.Ok? && r.value.Some? ==> IsInt32(r.value.value)
  {
    if key !in p then Ok(None)
    else
      match p[key]
      case None => Err(Exception(NullReferenceMessage))
      case Some(text) => Ok(ParseInt32(text))
  }

  /** A claim written as a decimal C# int is read back as that int. */
  lemma TryGetIntReadsDecimal(p: Payload, key: string, n: int)
    requires IsInt32(n) && key in p && p[key] == Some(ShowInt(n))
    ensures TryGetInt(p, key) == Ok(Some(n))
  {
    ParseShowRoundTrip(n);
  }

  /** A claim written as a decimal beyond the range of a C# int (a 64-bit
      `exp` after January 2038, say) is not read: the out value is 0. */
  lemma TryGetIntRejectsWide(p: Payload, key: string, n: int)
    requires !IsInt32(n) && key in p && p[key] == Some(ShowInt(n))
    ensures TryGetInt(p, key) == Ok(None) && TryGetInt(p, key).value.GetOr(0) == 0
  {
    ParseShowRoundTrip(n);
  }

  /** A claim whose text has neither digits nor white space gives the out value 0. */
  lemma TryGetIntDefaultsToZero(p: Payload, key: string)
    requires key in p && p[key].Some? && |p[key].value| > 0
    requires forall i :: 0 <= i < |p[key].value| ==> !IsWhite(p[key].value[i]) && !IsDigit(p[key].value[i])
    ensures TryGetInt(p, key) == Ok(None) && TryGetInt(p, key).value.GetOr(0) == 0
  {
    ParseRejectsNonNumeric(p[key].value);
  }
}
