/** The ids of virtual routes: "virtual-" + template id + "-" + YYYY-MM-DD,
    built by generateRoutes and taken apart by position in materializeRoute
    (the last ten characters are the date, everything between the prefix
    and the character before the date is the template id). */
module VirtualIds {
  import opened Wrappers
  import opened Text

  const VirtualPrefix: string := "virtual-"

  function EncodeVirtualId(templateId: string, date: string): (id: string)
    ensures StartsWith(id, VirtualPrefix)
    ensures |id| == |templateId| + |date| + 9
  {
    VirtualPrefix + templateId + "-" + date
  }

  /** The template id and the date text of a virtual id. */
  function DecodeVirtualId(id: string): (r: Result<(string, string)>)
    ensures r.Err? <==> !StartsWith(id, VirtualPrefix)
    ensures r.Err? ==> r.error == Error(PlainError, "ID de rota virtual inválido")
    ensures r.Ok? && |id| >= 18 ==> |r.value.1| == 10
  {
    if !StartsWith(id, VirtualPrefix) then Fail("ID de rota virtual inválido")
    else
      var w := id[|VirtualPrefix|..];
      Ok((JsSubstring(w, 0, |w| - 11), JsSubstring(w, |w| - 10, |w|)))
  }

  /** Decoding recovers exactly the template id and the date, whatever the
      template id contains (hyphens included), when the date has ten
      characters. */
  lemma DecodeEncode(templateId: string, date: string)
    requires |date| == 10
    ensures DecodeVirtualId(EncodeVirtualId(templateId, date)) == Ok((templateId, date))
  {
    var id := EncodeVirtualId(templateId, date);
    var w := id[|VirtualPrefix|..];
    assert w == templateId + "-" + date;
    assert w[0..|w| - 11] == templateId;
    assert w[|w| - 10..|w|] == date;
  }

  /** Conversely, a decoded id of at least 19 characters is the prefix, the
      template id, one separator character (not checked to be '-') and the
      ten-character date. */
  lemma EncodeDecode(id: string, templateId: string, date: string)
    requires |id| >= 19
    requires DecodeVirtualId(id) == Ok((templateId, date))
    ensures |date| == 10
    ensures id == VirtualPrefix + templateId + [id[|id| - 11]] + date
  {
    var w := id[|VirtualPrefix|..];
    assert templateId == w[0..|w| - 11];
    assert date == w[|w| - 10..|w|];
    assert id == VirtualPrefix + w;
    assert w == w[0..|w| - 11] + [w[|w| - 11]] + w[|w| - 10..|w|];
  }

  /** The date of a virtual id is its last ten characters. */
  lemma DecodedDateIsSuffix(id: string)
    requires StartsWith(id, VirtualPrefix) && |id| >= 18
    ensures DecodeVirtualId(id).value.1 == id[|id| - 10..]
  {
    var w := id[|VirtualPrefix|..];
    assert w[|w| - 10..|w|] == id[|id| - 10..];
  }
}
