/**
 * The catalog records of types.go and the passes that tidy the URLs in them
 * after decoding. A record the client edits in place (a product, a model,
 * a product line) is a class; a record that is only read is a datatype.
 */
module Records {
  import opened Text
  import opened Dates

  /** A numeric PSREF product ID. */
  type PID = Uint64

  // ---- normalizeURL ----

  /** No character of `s` is a backslash. */
  predicate NoBackslash(s: string) { forall i :: 0 <= i < |s| ==> s[i] != '\\' }

  /**
   * strings.ReplaceAll(s, "\\", "/"): the same length, no backslash left,
   * each backslash turned into a slash and every other character kept.
   */
  function NormalizeURL(s: string): (r: string)
    ensures |r| == |s| && NoBackslash(r)
    ensures forall i :: 0 <= i < |s| && s[i] == '\\' ==> r[i] == '/'
    ensures forall i :: 0 <= i < |s| && s[i] != '\\' ==> r[i] == s[i]
  {
    seq(|s|, i requires 0 <= i < |s| => if s[i] == '\\' then '/' else s[i])
  }

  /** A string without backslashes is left as it is. */
  lemma NormalizeURLFixes(s: string)
    requires NoBackslash(s)
    ensures NormalizeURL(s) == s
  {
  }

  /** Normalizing twice is the same as normalizing once. */
  lemma NormalizeURLIdempotent(s: string)
    ensures NormalizeURL(NormalizeURL(s)) == NormalizeURL(s)
  {
    NormalizeURLFixes(NormalizeURL(s));
  }

  // ---- Records that are only read ----

  /** A short product description; its normalize pass changes nothing. */
  datatype ProductShort = ProductShort(
    ID: PID, Key: string, Name: string, WithdrawnStatus: Int64,
    Updated: CalendarDate, ModelModified: CalendarDate, ConfigModified: CalendarDate)

  /** A product series; its normalize pass visits every ProductShort and so changes nothing. */
  datatype Series = Series(Name: string, Products: seq<ProductShort>)

  /** A basic model entry of a product's model list. */
  datatype ModelInfo = ModelInfo(Code: string, Summary: string, Updated: CalendarDate)

  /** A reference to a documentation resource. */
  datatype Documentation = Documentation(ProductID: PID, Title: string, URL: string)

  /** One named value of a model's specification. */
  datatype KeyValue = KeyValue(Name: string, Value: string)

  // ---- Product lines and product types ----

  /** A product line: its normalize pass rewrites the image URL. */
  class ProductLine {
    var Name: string
    var Image: string
    var Series: seq<Series>

    constructor(name: string, image: string, series: seq<Series>)
      ensures Name == name && Image == image && Series == series
    {
      Name, Image, Series := name, image, series;
    }

    /**
     * ProductLine.normalize: only the image URL is rewritten; the series
     * (whose own normalize passes change nothing) keep their values.
     */
    method Normalize()
      modifies this
      ensures Image == NormalizeURL(old(Image))
      ensures Name == old(Name) && Series == old(Series)
    {
      Image := NormalizeURL(Image);
      var i := 0;
      while i < |Series|
        invariant 0 <= i <= |Series|
        invariant Image == NormalizeURL(old(Image))
        invariant Name == old(Name) && Series == old(Series)
      {
        Series := Series[i := NormalizeSeries(Series[i])];
        i := i + 1;
      }
    }
  }

  /** Series.normalize: every product in it goes through ProductShort.normalize, which does nothing. */
  function NormalizeSeries(s: Series): (r: Series)
    ensures r == s
  {
    s.(Products := seq(|s.Products|, i requires 0 <= i < |s.Products| => s.Products[i]))
  }

  /** A top-level product type with its lineup. */
  datatype ProductType = ProductType(Name: string, BgColor: string, Lineup: seq<ProductLine>)

  /** Every product line of a list of product types. */
  function LinesOf(types: seq<ProductType>): set<ProductLine>
  {
    set i, l | 0 <= i < |types| && l in types[i].Lineup :: l
  }

  /**
   * ProductType.normalize: every line of the lineup is normalized once. A
   * line listed twice is normalized twice, which gives the same image since
   * normalizing is idempotent.
   */
  method NormalizeType(t: ProductType)
    modifies set l | l in t.Lineup
    ensures forall l :: l in t.Lineup ==>
      l.Image == NormalizeURL(old(l.Image)) && l.Name == old(l.Name) && l.Series == old(l.Series)
  {
    var i := 0;
    while i < |t.Lineup|
      invariant 0 <= i <= |t.Lineup|
      invariant forall l :: l in t.Lineup ==> l.Name == old(l.Name) && l.Series == old(l.Series)
      invariant forall l :: l in t.Lineup ==>
        l.Image == if l in t.Lineup[..i] then NormalizeURL(old(l.Image)) else old(l.Image)
    {
      var line := t.Lineup[i];
      if line in t.Lineup[..i] {
        NormalizeURLIdempotent(old(line.Image));
      }
      line.Normalize();
      assert t.Lineup[..i + 1] == t.Lineup[..i] + [line];
      i := i + 1;
    }
    assert t.Lineup[..i] == t.Lineup;
  }

  // ---- Products and models ----

  /** A full product record: the URL fields are normalized in place after decoding. */
  class Product {
    var ID: PID
    var Key: string
    var Name: string
    var RefURL: string
    var WithdrawnStatus: Int64
    var SpecURL: string
    var USPdf: string
    var EMEAPdf: string
    var WWPdf: string
    var Image: string
    var Images: seq<string>
    var Models: seq<ModelInfo>
    var Docs: seq<Documentation>

    constructor(id: PID, key: string, name: string, image: string, images: seq<string>)
      ensures ID == id && Key == key && Name == name && Image == image && Images == images
      ensures RefURL == "" && SpecURL == "" && USPdf == "" && EMEAPdf == "" && WWPdf == ""
      ensures WithdrawnStatus == 0 && Models == [] && Docs == []
    {
      ID, Key, Name, Image, Images := id, key, name, image, images;
      RefURL, SpecURL, USPdf, EMEAPdf, WWPdf := "", "", "", "", "";
      WithdrawnStatus, Models, Docs := 0, [], [];
    }

    /** No URL field of the product holds a backslash. */
    predicate Normalized()
      reads this
    {
      NoBackslash(RefURL) && NoBackslash(SpecURL) && NoBackslash(USPdf) && NoBackslash(EMEAPdf)
      && NoBackslash(WWPdf) && NoBackslash(Image) && forall u :: u in Images ==> NoBackslash(u)
    }

    /**
     * Product.normalize: the seven kinds of URL field are rewritten, the
     * image list keeps its length, and nothing else changes.
     */
    method Normalize()
      modifies this
      ensures NormalizedFrom(this, old(Image))
    {
      var images := NormalizeEach(Images);
      RefURL, SpecURL, USPdf, EMEAPdf, WWPdf, Image, Images :=
        NormalizeURL(RefURL), NormalizeURL(SpecURL), NormalizeURL(USPdf), NormalizeURL(EMEAPdf),
        NormalizeURL(WWPdf), NormalizeURL(Image), images;
    }
  }

  /**
   * The state `Normalize` leaves a product in, against the state before the
   * call: the image is `image` normalized, the other URL fields and each entry
   * of the image list are normalized, the list keeps its length, every other
   * field is kept, and no URL field holds a backslash.
   */
  twostate predicate NormalizedFrom(p: Product, image: string)
    reads p
  {
    && p.Image == NormalizeURL(image)
    && p.RefURL == NormalizeURL(old(p.RefURL)) && p.SpecURL == NormalizeURL(old(p.SpecURL))
    && p.USPdf == NormalizeURL(old(p.USPdf)) && p.EMEAPdf == NormalizeURL(old(p.EMEAPdf))
    && p.WWPdf == NormalizeURL(old(p.WWPdf))
    && |p.Images| == |old(p.Images)|
    && (forall i :: 0 <= i < |p.Images| ==> p.Images[i] == NormalizeURL(old(p.Images[i])))
    && p.ID == old(p.ID) && p.Key == old(p.Key) && p.Name == old(p.Name)
    && p.WithdrawnStatus == old(p.WithdrawnStatus) && p.Models == old(p.Models) && p.Docs == old(p.Docs)
    && p.Normalized()
  }

  /** The loop over a product's image list: each entry normalized where it stands. */
  method NormalizeEach(images: seq<string>) returns (r: seq<string>)
    ensures |r| == |images|
    ensures forall i :: 0 <= i < |r| ==> r[i] == NormalizeURL(images[i])
    ensures forall u :: u in r ==> NoBackslash(u)
  {
    r := images;
    var i := 0;
    while i < |r|
      invariant 0 <= i <= |r| == |images|
      invariant forall j :: 0 <= j < i ==> r[j] == NormalizeURL(images[j])
      invariant forall j :: i <= j < |r| ==> r[j] == images[j]
    {
      r := r[i := NormalizeURL(r[i])];
      i := i + 1;
    }
  }

  /** The value of the first detail named `name`, or "" when no detail has that name. */
  function FirstDetail(details: seq<KeyValue>, name: string): (v: string)
    ensures (exists i :: 0 <= i < |details| && details[i].Name == name) ==>
      exists i :: 0 <= i < |details| && details[i].Name == name && v == details[i].Value &&
        forall j :: 0 <= j < i ==> details[j].Name != name
    ensures (forall i :: 0 <= i < |details| ==> details[i].Name != name) ==> v == ""
  {
    if details == [] then ""
    else if details[0].Name == name then details[0].Value
    else
      var v := FirstDetail(details[1..], name);
      assert forall i :: 1 <= i < |details| ==> details[i] == details[1..][i - 1];
      v
  }

  /**
   * A full model record: the fields of the product it belongs to (embedded,
   * so `normalize` on a model is the product's pass) and its own fields.
   */
  class Model {
    const product: Product
    var WithdrawnStatus: Int64
    var RefURL: string
    var Detail: seq<KeyValue>
    var Code: string

    constructor(p: Product, refURL: string, detail: seq<KeyValue>, code: string)
      ensures product == p && RefURL == refURL && Detail == detail && Code == code && WithdrawnStatus == 0
    {
      product, RefURL, Detail, Code, WithdrawnStatus := p, refURL, detail, code, 0;
    }

    /** Model.DetailByName: a first-match scan of the specification. */
    method DetailByName(name: string) returns (v: string)
      ensures v == FirstDetail(Detail, name)
    {
      var i := 0;
      while i < |Detail|
        invariant 0 <= i <= |Detail|
        invariant FirstDetail(Detail, name) == FirstDetail(Detail[i..], name)
      {
        if Detail[i].Name == name {
          return Detail[i].Value;
        }
        assert Detail[i..][1..] == Detail[i + 1..];
        i := i + 1;
      }
      return "";
    }
  }
}
