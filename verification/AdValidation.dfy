/**
 What an ad must satisfy to be stored: its own fields, its images, and the attribute values its
 category asks for (services/listing/internal/domain/ad.go:150-182,
 services/listing/internal/domain/attribute.go).
 */
module AdValidation {
  import opened Collections
  import opened Listing

  const MAX_TITLE_LEN := 120
  const MAX_IMAGES := 10
  const MAX_INT64: int := 0x7fff_ffff_ffff_ffff

  /** Length in bytes, as UTF-8. */
  function Utf8Length(s: string): nat {
    if s == "" then 0 else
    var c := s[|s| - 1] as int;
    Utf8Length(s[..|s| - 1]) + if c < 0x80 then 1 else if c < 0x800 then 2 else if c < 0x1_0000 then 3 else 4
  }

  lemma {:induction false} Utf8Bounds(s: string)
    ensures |s| <= Utf8Length(s) <= 4 * |s|
  {
    if s != "" {
      Utf8Bounds(s[..|s| - 1]);
    }
  }

  /** What is wrong with an ad, in the order it is looked for. */
  datatype Flaw =
    | EmptyTitle | TitleTooLong | NegativePrice | MissingCategory | MissingRegion
    | TooManyImages | MultipleCovers
    | UnknownAttribute | InvalidValue | MissingRequired

  function CoreFlaw(a: Ad): Option<Flaw> {
    if a.title == "" then Some(EmptyTitle)
    else if Utf8Length(a.title) > MAX_TITLE_LEN then Some(TitleTooLong)
    else if a.price < 0 then Some(NegativePrice)
    else if a.categoryId == "" then Some(MissingCategory)
    else if a.regionId == 0 then Some(MissingRegion)
    else None
  }

  /* Images */

  predicate TwoCovers(images: seq<AdImage>) {
    exists i, j | 0 <= i < j < |images| :: images[i].isCover && images[j].isCover
  }

  function ImagesFlaw(images: seq<AdImage>): Option<Flaw> {
    if |images| > MAX_IMAGES then Some(TooManyImages) else if TwoCovers(images) then Some(MultipleCovers) else None
  }

  method ValidateImages(images: seq<AdImage>) returns (flaw: Option<Flaw>)
    ensures flaw == ImagesFlaw(images)
  {
    if |images| > MAX_IMAGES {
      return Some(TooManyImages);
    }
    var covers := 0;
    ghost var first := 0;
    for i := 0 to |images|
      invariant 0 <= covers <= i && 0 <= first <= i
      invariant covers == 0 ==> forall j :: 0 <= j < i ==> !images[j].isCover
      invariant covers == 1 ==> first < i && images[first].isCover && forall j :: 0 <= j < i && j != first ==> !images[j].isCover
      invariant covers > 1 ==> exists j, k :: 0 <= j < k < i && images[j].isCover && images[k].isCover
    {
      if images[i].isCover {
        first := if covers == 0 then i else first;
        covers := covers + 1;
      }
    }
    flaw := if covers > 1 then Some(MultipleCovers) else None;
  }

  /* Attribute values */

  datatype AttrType = EnumAttr | IntAttr | DecimalAttr | BoolAttr | StringAttr | UnknownType

  datatype AttrSpec = AttrSpec(slug: string, kind: AttrType, required: bool, options: seq<string>)

  predicate IsDigits(s: string) {
    s != "" && forall i | 0 <= i < |s| :: '0' <= s[i] <= '9'
  }

  function ValueOf(s: string): nat
    requires forall i | 0 <= i < |s| :: '0' <= s[i] <= '9'
  {
    if s == "" then 0 else ValueOf(s[..|s| - 1]) * 10 + (s[|s| - 1] as int - '0' as int)
  }

  function Unsigned(s: string): string {
    if s != "" && (s[0] == '+' || s[0] == '-') then s[1..] else s
  }

  /** A decimal integer that 64 bits hold. */
  predicate IsInt64(s: string) {
    var digits := Unsigned(s);
    IsDigits(digits) && ValueOf(digits) <= if s[0] == '-' then MAX_INT64 + 1 else MAX_INT64
  }

  /** `isFloat` says which texts the standard library reads as 64-bit floating-point numbers. */
  predicate ValidValue(spec: AttrSpec, value: string, isFloat: string -> bool) {
    match spec.kind
    case IntAttr => IsInt64(value)
    case DecimalAttr => isFloat(value)
    case BoolAttr => value == "true" || value == "false"
    case EnumAttr => value in spec.options
    case StringAttr => value != ""
    case UnknownType => false
  }

  /** The specification of a slug; the last one counts if there are several. */
  function SpecOf(specs: seq<AttrSpec>, slug: string): Option<AttrSpec> {
    if specs == [] then None
    else if specs[|specs| - 1].slug == slug then Some(specs[|specs| - 1])
    else SpecOf(specs[..|specs| - 1], slug)
  }

  predicate Provided(values: seq<AttributeValue>, slug: string) {
    exists i | 0 <= i < |values| :: values[i].slug == slug
  }

  /** Every value belongs to an attribute of the category and is of its type, and nothing required is missing. */
  predicate Fits(specs: seq<AttrSpec>, values: seq<AttributeValue>, isFloat: string -> bool) {
    (forall i | 0 <= i < |values| :: ValueFlaw(specs, values[i], isFloat).None?) && Complete(specs, values)
  }

  predicate Complete(specs: seq<AttrSpec>, values: seq<AttributeValue>) {
    forall i | 0 <= i < |specs| :: specs[i].required ==> Provided(values, specs[i].slug)
  }

  function ValueFlaw(specs: seq<AttrSpec>, v: AttributeValue, isFloat: string -> bool): Option<Flaw> {
    match SpecOf(specs, v.slug)
    case None => Some(UnknownAttribute)
    case Some(spec) => if ValidValue(spec, v.value, isFloat) then None else Some(InvalidValue)
  }

  /** The flaw of the first value that has one. */
  function FirstFlaw(specs: seq<AttrSpec>, values: seq<AttributeValue>, isFloat: string -> bool): Option<Flaw> {
    if values == [] then None else
    var before := FirstFlaw(specs, values[..|values| - 1], isFloat);
    if before.Some? then before else ValueFlaw(specs, values[|values| - 1], isFloat)
  }

  function AttributesFlaw(specs: seq<AttrSpec>, values: seq<AttributeValue>, isFloat: string -> bool): Option<Flaw> {
    var flaw := FirstFlaw(specs, values, isFloat);
    if flaw.Some? then flaw else if !Complete(specs, values) then Some(MissingRequired) else None
  }

  lemma {:induction false} FirstFlawBlames(specs: seq<AttrSpec>, values: seq<AttributeValue>, isFloat: string -> bool)
    ensures var flaw := FirstFlaw(specs, values, isFloat);
            if flaw.None? then forall i :: 0 <= i < |values| ==> ValueFlaw(specs, values[i], isFloat).None?
            else exists i :: 0 <= i < |values| && ValueFlaw(specs, values[i], isFloat) == flaw
                   && forall j :: 0 <= j < i ==> ValueFlaw(specs, values[j], isFloat).None?
  {
    if values != [] {
      var n := |values| - 1;
      FirstFlawBlames(specs, values[..n], isFloat);
      assert forall j :: 0 <= j < n ==> values[..n][j] == values[j];
    }
  }

  /** Values are accepted exactly when they fit; else the first offending value is blamed, or, if
      all are good, a missing required attribute. */
  lemma AcceptedIffFits(specs: seq<AttrSpec>, values: seq<AttributeValue>, isFloat: string -> bool)
    ensures var flaw := AttributesFlaw(specs, values, isFloat);
            && (flaw.None? <==> Fits(specs, values, isFloat))
            && (flaw == Some(MissingRequired) <==>
                  !Complete(specs, values) && forall i :: 0 <= i < |values| ==> ValueFlaw(specs, values[i], isFloat).None?)
            && (flaw.Some? && flaw.value != MissingRequired ==>
                  exists i :: 0 <= i < |values| && ValueFlaw(specs, values[i], isFloat) == flaw
                    && forall j :: 0 <= j < i ==> ValueFlaw(specs, values[j], isFloat).None?)
  {
    FirstFlawBlames(specs, values, isFloat);
  }

  method ValidateAttributes(specs: seq<AttrSpec>, values: seq<AttributeValue>, isFloat: string -> bool) returns (flaw: Option<Flaw>)
    ensures flaw == AttributesFlaw(specs, values, isFloat)
  {
    var specBySlug: map<string, AttrSpec> := map[];
    for i := 0 to |specs|
      invariant forall slug :: slug in specBySlug <==> SpecOf(specs[..i], slug).Some?
      invariant forall slug :: slug in specBySlug ==> SpecOf(specs[..i], slug) == Some(specBySlug[slug])
    {
      assert specs[..i + 1][..i] == specs[..i];
      specBySlug := specBySlug[specs[i].slug := specs[i]];
    }
    assert specs[..|specs|] == specs;
    var provided: set<string> := {};
    for i := 0 to |values|
      invariant FirstFlaw(specs, values[..i], isFloat).None?
      invariant forall slug :: slug in provided <==> exists j :: 0 <= j < i && values[j].slug == slug
    {
      assert values[..i + 1][..i] == values[..i];
      if values[i].slug !in specBySlug {
        FlawStays(specs, values, i + 1, isFloat);
        return Some(UnknownAttribute);
      }
      if !ValidValue(specBySlug[values[i].slug], values[i].value, isFloat) {
        FlawStays(specs, values, i + 1, isFloat);
        return Some(InvalidValue);
      }
      provided := provided + {values[i].slug};
    }
    assert values[..|values|] == values;
    for i := 0 to |specs|
      invariant forall j :: 0 <= j < i && specs[j].required ==> specs[j].slug in provided
    {
      if specs[i].required && specs[i].slug !in provided {
        assert !Provided(values, specs[i].slug);
        return Some(MissingRequired);
      }
    }
    flaw := None;
  }

  lemma {:induction false} FlawStays(specs: seq<AttrSpec>, values: seq<AttributeValue>, i: nat, isFloat: string -> bool)
    requires i <= |values| && FirstFlaw(specs, values[..i], isFloat).Some?
    ensures FirstFlaw(specs, values, isFloat) == FirstFlaw(specs, values[..i], isFloat)
  {
    if i == |values| {
      assert values[..i] == values;
    } else {
      var init := values[..|values| - 1];
      assert init[..i] == values[..i];
      FlawStays(specs, init, i, isFloat);
    }
  }
}
