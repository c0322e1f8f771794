/** Media URL resolution (`getImageUrl`): from one of the content API's media
    shapes and an optional size key to an absolute URL, or none. */
module Media {
  import opened Wrappers
  import Config
  import Viewport

  /** One entry of a `formats` object: `{url}`, the url possibly missing. */
  datatype Format = Format(url: Option<string>)

  /** An attribute-bearing object: a base `url` and a `formats` object keyed
      by size name. A missing `formats` reads the same as an empty one. */
  datatype Attrs = Attrs(url: Option<string>, formats: map<string, Format>)

  /** The `data` wrapper of the v4 shape, `{attributes}`. */
  datatype DataWrap = DataWrap(attributes: Option<Attrs>)

  /** A non-null media object as the resolver reads it: a flat `url` and
      `formats`, a `data.attributes` wrapper, an `attributes` wrapper. A `url`
      is `Some` exactly when it is a string. */
  datatype MediaObj = MediaObj(url: Option<string>, formats: map<string, Format>,
                               data: Option<DataWrap>, attributes: Option<Attrs>)

  /** `formats[sizeKey].url`, when the size key, the entry and its url are all
      truthy. */
  function FormatPath(formats: map<string, Format>, sizeKey: Option<string>): Option<string> {
    if Truthy(sizeKey) && sizeKey.value in formats && Truthy(formats[sizeKey.value].url)
    then formats[sizeKey.value].url
    else None
  }

  /** The path a wrapped attribute object resolves to: the size-specific one,
      else a truthy base url, else none. */
  function AttrsPath(a: Attrs, sizeKey: Option<string>): Option<string> {
    if FormatPath(a.formats, sizeKey).Some? then FormatPath(a.formats, sizeKey)
    else if Truthy(a.url) then a.url
    else None
  }

  /** The attributes inside `data.attributes`, when both are present. */
  function DataAttrs(m: MediaObj): Option<Attrs> {
    if m.data.Some? then m.data.value.attributes else None
  }

  function Absolute(path: string): string {
    Config.ApiBaseUrl + path
  }

  /** Every path string a media object holds, in any shape. */
  function AttrsPaths(a: Attrs): set<string> {
    (if a.url.Some? then {a.url.value} else {})
    + set k | k in a.formats && a.formats[k].url.Some? :: a.formats[k].url.value
  }

  function Paths(m: MediaObj): set<string> {
    AttrsPaths(Attrs(m.url, m.formats))
    + (if DataAttrs(m).Some? then AttrsPaths(DataAttrs(m).value) else {})
    + (if m.attributes.Some? then AttrsPaths(m.attributes.value) else {})
  }

  /** The shapes are tried in order: a flat string `url` (even an empty one),
      then `data.attributes`, then `attributes`; the first that yields a path
      wins. The result is the origin followed by a path the object holds, and
      `null` (no object) or a shape with nothing usable gives none. */
  function GetImageUrl(media: Option<MediaObj>, sizeKey: Option<string>): (r: Option<string>)
    ensures media.None? ==> r.None?
    ensures r.Some? ==>
      && |Config.ApiBaseUrl| <= |r.value|
      && r.value[..|Config.ApiBaseUrl|] == Config.ApiBaseUrl
      && r.value[|Config.ApiBaseUrl|..] in Paths(media.value)
  {
    if media.None? then None
    else
      var m := media.value;
      if m.url.Some? then
        var fp := FormatPath(m.formats, sizeKey);
        if fp.Some? then Some(Absolute(fp.value)) else Some(Absolute(m.url.value))
      else if DataAttrs(m).Some? && AttrsPath(DataAttrs(m).value, sizeKey).Some? then
        Some(Absolute(AttrsPath(DataAttrs(m).value, sizeKey).value))
      else if m.attributes.Some? && AttrsPath(m.attributes.value, sizeKey).Some? then
        Some(Absolute(AttrsPath(m.attributes.value, sizeKey).value))
      else None
  }

  /** The attribute object whose paths decide the result: the flat shape when
      `url` is a string, else the first wrapper that yields a path. */
  function Chosen(m: MediaObj, sizeKey: Option<string>): Option<Attrs> {
    if m.url.Some? then Some(Attrs(m.url, m.formats))
    else if DataAttrs(m).Some? && AttrsPath(DataAttrs(m).value, sizeKey).Some? then DataAttrs(m)
    else if m.attributes.Some? && AttrsPath(m.attributes.value, sizeKey).Some? then m.attributes
    else None
  }

  /** The size-specific url is preferred over the base url whenever the size
      key names an entry of the chosen shape's `formats` with a url. */
  lemma PrefersSizedFormat(m: MediaObj, sizeKey: Option<string>)
    requires Chosen(m, sizeKey).Some?
    requires Truthy(sizeKey)
    requires var a := Chosen(m, sizeKey).value;
      sizeKey.value in a.formats && Truthy(a.formats[sizeKey.value].url)
    ensures GetImageUrl(Some(m), sizeKey)
         == Some(Absolute(Chosen(m, sizeKey).value.formats[sizeKey.value].url.value))
  {
  }

  /** Without a usable size-specific url, the chosen shape's base url is used. */
  lemma FallsBackToBaseUrl(m: MediaObj, sizeKey: Option<string>)
    requires Chosen(m, sizeKey).Some?
    requires FormatPath(Chosen(m, sizeKey).value.formats, sizeKey).None?
    ensures GetImageUrl(Some(m), sizeKey) == Some(Absolute(Chosen(m, sizeKey).value.url.value))
  {
  }

  /** A url is found exactly when some shape, tried in order, yields one. */
  lemma NoneIffNoShapeResolves(m: MediaObj, sizeKey: Option<string>)
    ensures GetImageUrl(Some(m), sizeKey).None? <==> Chosen(m, sizeKey).None?
  {
  }

  /** A flat string `url` decides the result alone: the wrappers are not read. */
  lemma FlatShapeShadowsWrappers(m: MediaObj, sizeKey: Option<string>)
    requires m.url.Some?
    ensures GetImageUrl(Some(m), sizeKey)
         == GetImageUrl(Some(m.(data := None, attributes := None)), sizeKey)
  {
  }

  /** A resolving `data.attributes` decides the result: `attributes` is not read. */
  lemma DataShapeShadowsAttributes(m: MediaObj, sizeKey: Option<string>)
    requires m.url.None?
    requires DataAttrs(m).Some? && AttrsPath(DataAttrs(m).value, sizeKey).Some?
    ensures GetImageUrl(Some(m), sizeKey) == GetImageUrl(Some(m.(attributes := None)), sizeKey)
  {
  }

  /** The page asks for the viewport's size tier
      (`getImageUrl(image, setImageSize())`): the deciding shape's `formats`
      entry under that tier's key is used when it has a url, and its base url
      otherwise; viewports of different tiers ask under different keys. */
  lemma ViewportTierSelectsFormat(m: MediaObj, width: int, other: int)
    ensures var key := Viewport.ImageSize(width).Key();
      var c := Chosen(m, Some(key));
      && (c.None? ==> GetImageUrl(Some(m), Some(key)).None?)
      && (c.Some? && key in c.value.formats && Truthy(c.value.formats[key].url) ==>
            GetImageUrl(Some(m), Some(key)) == Some(Absolute(c.value.formats[key].url.value)))
      && (c.Some? && !(key in c.value.formats && Truthy(c.value.formats[key].url)) ==>
            GetImageUrl(Some(m), Some(key)) == Some(Absolute(c.value.url.value)))
    ensures Viewport.ImageSize(width) != Viewport.ImageSize(other) ==>
      Viewport.ImageSize(width).Key() != Viewport.ImageSize(other).Key()
  {
    var key := Viewport.ImageSize(width).Key();
    if Chosen(m, Some(key)).Some? {
      if FormatPath(Chosen(m, Some(key)).value.formats, Some(key)).Some? {
        PrefersSizedFormat(m, Some(key));
      } else {
        FallsBackToBaseUrl(m, Some(key));
      }
    }
  }

  /** A flat object with a small format: the small key picks the format,
      a key the object has no format for falls back to the base url, and an
      object with no url anywhere resolves to nothing. */
  lemma Examples()
    ensures var m := MediaObj(Some("/x.png"), map["small" := Format(Some("/x-small.png"))], None, None);
      && GetImageUrl(Some(m), Some("small")) == Some("http://localhost:1337/x-small.png")
      && GetImageUrl(Some(m), Some("large")) == Some("http://localhost:1337/x.png")
    ensures GetImageUrl(Some(MediaObj(None, map[], None, None)), Some("small")) == None
  {
    assert Absolute("/x-small.png") == "http://localhost:1337/x-small.png";
    assert Absolute("/x.png") == "http://localhost:1337/x.png";
  }
}
