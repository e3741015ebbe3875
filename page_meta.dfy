/** The asset metadata both scrapers read from an asset page: the asset
    name (`.gateway-title`), its location (`.layout-route`) and the serial
    number. Each element is given as its `innerText`, `None` for one that
    is missing from the page. */
module PageMeta {

  import opened Options
  import opened Text
  import opened Records
  import opened Serial

  const MetaKeys: set<string> := {"assetName", "cartridgeLocation", "serialNumber"}

  /** A text field of the page: `el?.innerText?.trim()`, kept only when
      truthy (not missing and not empty). */
  function Field(text: Option<string>): (r: Option<string>)
    ensures r.Some? <==> text.Some? && Trim(text.value) != ""
    ensures r.Some? ==> r.value == Trim(text.value)
  {
    if text.Some? && Trim(text.value) != "" then Some(Trim(text.value)) else None
  }

  /** `if (v) record[k] = v` */
  function SetField(r: Record, k: string, v: Option<string>): (m: Record)
    ensures m.Keys == if v.Some? then r.Keys + {k} else r.Keys
    ensures forall j :: j in m ==> m[j] == (if j == k && v.Some? then Str(v.value) else r[j])
    ensures (forall j :: j in r ==> r[j].Str?) ==> (forall j :: j in m ==> m[j].Str?)
  {
    if v.Some? then r[k := Str(v.value)] else r
  }

  /** The metadata record built by the page script: a field is set only
      when its text is present (and, for name and location, non-empty
      after trimming). */
  function Meta(name: Option<string>, location: Option<string>, spans: seq<string>): (r: Record)
    ensures r.Keys <= MetaKeys
    ensures forall k :: k in r ==> r[k].Str?
  {
    var withName := SetField(map[], "assetName", Field(name));
    var withLocation := SetField(withName, "cartridgeLocation", Field(location));
    SetField(withLocation, "serialNumber", SerialNumber(spans))
  }

  /** Each metadata field is present exactly under its own rule, and then
      holds the trimmed, non-empty text (so it is truthy). */
  lemma MetaFields(name: Option<string>, location: Option<string>, spans: seq<string>)
    ensures var r := Meta(name, location, spans);
      && ("assetName" in r <==> name.Some? && Trim(name.value) != "")
      && ("assetName" in r ==> r["assetName"] == Str(Trim(name.value)) && Truthy(r["assetName"]))
      && ("cartridgeLocation" in r <==> location.Some? && Trim(location.value) != "")
      && ("cartridgeLocation" in r ==>
            r["cartridgeLocation"] == Str(Trim(location.value)) && Truthy(r["cartridgeLocation"]))
      && ("serialNumber" in r <==> |SerialSpans(spans)| >= 2)
      && ("serialNumber" in r ==> r["serialNumber"] == Str(SerialNumber(spans).value))
  {
    var withName := SetField(map[], "assetName", Field(name));
    var withLocation := SetField(withName, "cartridgeLocation", Field(location));
    var r := SetField(withLocation, "serialNumber", SerialNumber(spans));
    assert Meta(name, location, spans) == r;
    assert "assetName" in r <==> "assetName" in withName;
    assert "cartridgeLocation" in r <==> "cartridgeLocation" in withLocation;
  }
}
