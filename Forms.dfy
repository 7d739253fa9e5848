/** What the add and edit forms share: their five text inputs and the way an
    optional input becomes an optional field of the submitted item. */
module Forms {
  import opened Wrappers
  import opened Json
  import opened JsText

  /** The text of the name, price, quantity, description and expiry inputs. */
  datatype Fields = Fields(name: string, price: string, qty: string, description: string, expiryDate: string)

  const EmptyFields := Fields("", "", "", "", "")

  /** `s.trim() || undefined`: absent for a blank input, otherwise the text
      without surrounding white space, which trimming leaves as it is. */
  function TrimmedOrNone(s: string): (r: Option<Json>)
    ensures r.None? <==> forall k :: 0 <= k < |s| ==> IsJsSpace(s[k])
    ensures r.Some? ==> r.value.JStr? && r.value.s != "" && Trim(r.value.s) == r.value.s
  {
    BlankIffAllSpace(s);
    TrimIdempotent(s);
    if IsBlank(s) then None else Some(JStr(Trim(s)))
  }

  /** A text with nothing to trim and not empty comes back unchanged. */
  lemma TrimmedOrNoneOfTrimmed(s: string)
    requires s != "" && Trim(s) == s
    ensures TrimmedOrNone(s) == Some(JStr(s))
  {
  }
}
