/**
 * A user's thumbnail (src/Ukey1/Thumbnail.php). It is built once from an
 * optional details array and never changes, so it is a value. Without
 * details (null or an empty array) every accessor gives null.
 */
module Thumbnails {
  import opened Wrappers
  import opened Values

  /** `present` is the source's `$exists`; `defaultImage` its `$default`, null when never assigned. */
  datatype Thumbnail = Thumbnail(present: bool, defaultImage: Value, data: map<string, Value>) {

    /** `isDefault` */
    function IsDefault(): Value {
      defaultImage
    }

    /** `url`, `width` and `height` read one key of the details, null without details. */
    function Detail(key: string): (v: Value)
      ensures present ==> v == Lookup(data, key)
      ensures !present ==> v == Null
    {
      if present then Lookup(data, key) else Null
    }

    function Url(): Value { Detail("url") }
    function Width(): Value { Detail("width") }
    function Height(): Value { Detail("height") }
  }

  /**
   * The constructor: details count only when the array is non-empty; then
   * the thumbnail is the default one unless `isset` is truthy.
   */
  function FromData(data: Option<map<string, Value>>): (t: Thumbnail)
    ensures t.present <==> data.Some? && |data.value| > 0
    ensures t.present ==> t.data == data.value && t.IsDefault() == Bool(!Truthy(Lookup(data.value, "isset")))
    ensures !t.present ==> t.IsDefault() == Null
  {
    if data.Some? && |data.value| > 0 then
      Thumbnail(true, Bool(!Truthy(Lookup(data.value, "isset"))), data.value)
    else Thumbnail(false, Null, map[])
  }

  /** Null details and an empty array build the same thumbnail, with nothing to read. */
  lemma NoDetails()
    ensures FromData(None) == FromData(Some(map[]))
    ensures FromData(None).Url() == FromData(None).Width() == FromData(None).Height() == FromData(None).IsDefault() == Null
  {
  }

  /** A custom thumbnail: details with a truthy `isset` are not the default and expose their URL. */
  lemma CustomThumbnail(data: map<string, Value>)
    requires Truthy(Lookup(data, "isset"))
    ensures FromData(Some(data)).IsDefault() == Bool(false)
    ensures FromData(Some(data)).Url() == Lookup(data, "url")
  {
    assert "isset" in data;
  }

  /** Details that do not mention `isset` describe the default thumbnail. */
  lemma MissingIssetIsDefault(data: map<string, Value>)
    requires |data| > 0 && "isset" !in data
    ensures FromData(Some(data)).IsDefault() == Bool(true)
  {
  }
}
