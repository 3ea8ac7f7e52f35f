/**
 What the checks of an ad let through, said of the texts themselves
 (services/listing/internal/domain/ad.go:151-182, services/listing/internal/domain/attribute.go:32-76).
 */
module AdValues {
  import opened Collections
  import opened Listing
  import opened AdValidation

  /* Titles */

  /** The bytes that write a character in UTF-8 (section 3 of RFC 3629): the leading byte tells
      how many follow, each byte that follows carries six bits, and no shorter form would do. */
  predicate Writes(bytes: seq<int>, c: int) {
    match |bytes|
    case 1 => bytes[0] == c && 0 <= c <= 0x7F
    case 2 => 0xC0 <= bytes[0] <= 0xDF && Tail(bytes) && c == Join(bytes[0] - 0xC0, bytes, 1) && c >= 0x80
    case 3 => 0xE0 <= bytes[0] <= 0xEF && Tail(bytes) && c == Join(bytes[0] - 0xE0, bytes, 1) && c >= 0x800
    case 4 => 0xF0 <= bytes[0] <= 0xF7 && Tail(bytes) && c == Join(bytes[0] - 0xF0, bytes, 1) && c >= 0x1_0000
    case _ => false
  }

  predicate Tail(bytes: seq<int>) {
    forall i | 1 <= i < |bytes| :: 0x80 <= bytes[i] <= 0xBF
  }

  function Join(lead: int, bytes: seq<int>, k: nat): int
    requires k <= |bytes|
    decreases |bytes| - k
  {
    if k == |bytes| then lead else Join(lead * 64 + bytes[k] - 0x80, bytes, k + 1)
  }

  lemma ShortJoins(lead: int, bytes: seq<int>)
    requires Tail(bytes)
    ensures |bytes| == 2 ==> Join(lead, bytes, 1) == lead * 64 + (bytes[1] - 0x80)
    ensures |bytes| == 3 ==> Join(lead, bytes, 1) == (lead * 64 + (bytes[1] - 0x80)) * 64 + (bytes[2] - 0x80)
    ensures |bytes| == 4 ==>
              Join(lead, bytes, 1) == ((lead * 64 + (bytes[1] - 0x80)) * 64 + (bytes[2] - 0x80)) * 64 + (bytes[3] - 0x80)
  {
    if |bytes| == 2 {
      assert Join(lead * 64 + bytes[1] - 0x80, bytes, 2) == lead * 64 + bytes[1] - 0x80;
    } else if |bytes| == 3 {
      var a := lead * 64 + bytes[1] - 0x80;
      assert Join(a, bytes, 2) == Join(a * 64 + bytes[2] - 0x80, bytes, 3) == a * 64 + bytes[2] - 0x80;
    } else if |bytes| == 4 {
      var a := lead * 64 + bytes[1] - 0x80;
      var b := a * 64 + bytes[2] - 0x80;
      assert Join(a, bytes, 2) == Join(b, bytes, 3) == Join(b * 64 + bytes[3] - 0x80, bytes, 4);
    }
  }

  /** A character counts for as many bytes as UTF-8 writes it with. */
  lemma CountsItsBytes(c: char, bytes: seq<int>)
    requires Writes(bytes, c as int)
    ensures Utf8Length([c]) == |bytes|
  {
    assert [c][..0] == "";
    assert Utf8Length([c]) == if c as int < 0x80 then 1 else if c as int < 0x800 then 2 else if c as int < 0x1_0000 then 3 else 4;
    ShortJoins(bytes[0] - if |bytes| == 2 then 0xC0 else if |bytes| == 3 then 0xE0 else 0xF0, bytes);
  }

  /** Every character can be written. */
  lemma CanBeWritten(c: char) returns (bytes: seq<int>)
    ensures Writes(bytes, c as int)
  {
    var n := c as int;
    if n < 0x80 {
      bytes := [n];
    } else if n < 0x800 {
      bytes := [0xC0 + n / 64, 0x80 + n % 64];
      ShortJoins(n / 64, bytes);
    } else if n < 0x1_0000 {
      bytes := [0xE0 + n / 64 / 64, 0x80 + n / 64 % 64, 0x80 + n % 64];
      ShortJoins(n / 64 / 64, bytes);
    } else {
      bytes := [0xF0 + n / 64 / 64 / 64, 0x80 + n / 64 / 64 % 64, 0x80 + n / 64 % 64, 0x80 + n % 64];
      ShortJoins(n / 64 / 64 / 64, bytes);
    }
  }

  /** Texts count for their bytes together. */
  lemma {:induction false} LengthsAdd(s: string, t: string)
    ensures Utf8Length(s + t) == Utf8Length(s) + Utf8Length(t)
  {
    if t == "" {
      assert s + t == s;
    } else {
      var n := |t| - 1;
      assert (s + t)[..|s + t| - 1] == s + t[..n];
      LengthsAdd(s, t[..n]);
    }
  }

  /** The fields of an ad are looked at in turn: title, its length in bytes, price, category, region. */
  lemma FirstCoreFlaw(a: Ad)
    ensures CoreFlaw(a).None? <==>
              1 <= Utf8Length(a.title) <= 120 && a.price >= 0 && a.categoryId != "" && a.regionId != 0
    ensures CoreFlaw(a) == Some(EmptyTitle) <==> a.title == ""
    ensures CoreFlaw(a) == Some(TitleTooLong) <==> Utf8Length(a.title) > 120
    ensures CoreFlaw(a) == Some(NegativePrice) <==> 1 <= Utf8Length(a.title) <= 120 && a.price < 0
    ensures CoreFlaw(a) == Some(MissingCategory) <==> 1 <= Utf8Length(a.title) <= 120 && a.price >= 0 && a.categoryId == ""
    ensures CoreFlaw(a) == Some(MissingRegion) <==>
              1 <= Utf8Length(a.title) <= 120 && a.price >= 0 && a.categoryId != "" && a.regionId == 0
  {
    Utf8Bounds(a.title);
  }

  /** More than ten images are too many, else two covers are; one cover, or none, is fine. */
  lemma FirstImagesFlaw(images: seq<AdImage>)
    ensures ImagesFlaw(images) == Some(TooManyImages) <==> |images| >= 11
    ensures ImagesFlaw(images).None? <==>
              |images| <= 10 && forall i, j :: 0 <= i < |images| && 0 <= j < |images| && images[i].isCover && images[j].isCover ==> i == j
    ensures ImagesFlaw(images).Some? && |images| <= 10 ==> ImagesFlaw(images) == Some(MultipleCovers)
  {
  }

  /* Attribute values */

  /** The numeral of a number, without leading zeros. */
  function Numeral(n: nat): string {
    (if n < 10 then "" else Numeral(n / 10)) + [('0' as int + n % 10) as char]
  }

  function IntegerText(n: int): string {
    if n < 0 then "-" + Numeral(-n) else Numeral(n)
  }

  predicate AllDigits(s: string) {
    forall i | 0 <= i < |s| :: '0' <= s[i] <= '9'
  }

  lemma DigitsGrow(s: string, d: char)
    requires AllDigits(s) && '0' <= d <= '9'
    ensures AllDigits(s + [d]) && IsDigits(s + [d])
  {
    hide ValueOf;
  }

  lemma OneMoreDigit(s: string, longer: string, d: char)
    requires AllDigits(s) && AllDigits(longer) && longer == s + [d]
    ensures ValueOf(longer) == ValueOf(s) * 10 + (d as int - '0' as int)
  {
    hide AllDigits;
    assert longer[..|longer| - 1] == s && longer[|longer| - 1] == d;
  }

  lemma {:induction false} NumeralReadsBack(n: nat)
    ensures IsDigits(Numeral(n)) && ValueOf(Numeral(n)) == n
  {
    var last := ('0' as int + n % 10) as char;
    var init := if n < 10 then "" else Numeral(n / 10);
    assert Numeral(n) == init + [last] && ValueOf("") == 0;
    hide ValueOf;
    hide Numeral;
    if n >= 10 {
      NumeralReadsBack(n / 10);
    }
    DigitsGrow(init, last);
    OneMoreDigit(init, init + [last], last);
  }

  lemma {:induction false} ZerosCountNothing(s: string, digits: string)
    requires IsDigits(digits) && forall i :: 0 <= i < |s| ==> s[i] == '0'
    ensures IsDigits(s + digits) && ValueOf(s + digits) == ValueOf(digits)
  {
    var n := |digits| - 1;
    assert (s + digits)[..|s| + n] == s + digits[..n];
    if n == 0 {
      AllZeros(s);
      assert s + digits[..0] == s;
      assert ValueOf(digits[..0]) == 0;
    } else {
      ZerosCountNothing(s, digits[..n]);
    }
  }

  lemma {:induction false} AllZeros(s: string)
    requires forall i :: 0 <= i < |s| ==> s[i] == '0'
    ensures ValueOf(s) == 0
  {
    if s != "" {
      AllZeros(s[..|s| - 1]);
    }
  }

  lemma SignedDigits(sign: string, digits: string)
    requires IsDigits(digits) && (sign == "" || sign == "+" || sign == "-")
    ensures IsInt64(sign + digits) <==> ValueOf(digits) <= if sign == "-" then MAX_INT64 + 1 else MAX_INT64
  {
    hide ValueOf;
    assert sign == "" ==> sign + digits == digits;
    assert sign != "" ==> (sign + digits)[0] == sign[0] && (sign + digits)[1..] == digits;
    assert '0' <= digits[0] <= '9';
  }

  /** An integer's text is accepted exactly when the integer is one of 64 bits. */
  lemma IntegersOf64Bits(n: int)
    ensures IsInt64(IntegerText(n)) <==> -9223372036854775808 <= n <= 9223372036854775807
  {
    hide IsInt64;
    hide ValueOf;
    hide IsDigits;
    var size: nat := if n < 0 then -n else n;
    var text := Numeral(size);
    assert IntegerText(n) == if n < 0 then "-" + text else text;
    hide IntegerText;
    hide Numeral;
    NumeralReadsBack(size);
    if n < 0 {
      SignedDigits("-", text);
    } else {
      SignedDigits("", text);
      assert "" + text == text;
    }
  }

  /** A plus sign and zeros in front change nothing. */
  lemma PaddedIntegers(n: nat, zeros: string)
    requires forall i :: 0 <= i < |zeros| ==> zeros[i] == '0'
    ensures IsInt64(zeros + Numeral(n)) <==> IsInt64(IntegerText(n))
    ensures IsInt64("+" + zeros + Numeral(n)) <==> IsInt64(IntegerText(n))
    ensures n > 0 ==> (IsInt64("-" + zeros + Numeral(n)) <==> IsInt64(IntegerText(0 - n)))
  {
    hide Numeral;
    hide ValueOf;
    hide IsInt64;
    hide IntegerText;
    var text := zeros + Numeral(n);
    NumeralReadsBack(n);
    ZerosCountNothing(zeros, Numeral(n));
    IntegersOf64Bits(n);
    IntegersOf64Bits(0 - n);
    SignedDigits("", text);
    SignedDigits("+", text);
    SignedDigits("-", text);
    assert "" + text == text && "+" + zeros + Numeral(n) == "+" + text && "-" + zeros + Numeral(n) == "-" + text;
  }

  /** Anything accepted is a sign, or none, and digits. */
  lemma OnlyIntegersAccepted(s: string)
    requires IsInt64(s)
    ensures s != "" && forall i :: 0 <= i < |s| ==> '0' <= s[i] <= '9' || (i == 0 && (s[0] == '+' || s[0] == '-') && |s| > 1)
  {
    forall i | 1 <= i < |s| ensures '0' <= s[i] <= '9' {
      assert Unsigned(s) == s[1..] ==> s[i] == s[1..][i - 1];
    }
  }

  /** The specification that counts for a slug is the last one for it. */
  lemma {:induction false} LastSpecCounts(specs: seq<AttrSpec>, slug: string)
    ensures SpecOf(specs, slug).None? <==> forall i :: 0 <= i < |specs| ==> specs[i].slug != slug
    ensures SpecOf(specs, slug).Some? ==>
              exists i :: 0 <= i < |specs| && specs[i] == SpecOf(specs, slug).value && specs[i].slug == slug
                && forall j :: i < j < |specs| ==> specs[j].slug != slug
  {
    if specs != [] {
      var n := |specs| - 1;
      LastSpecCounts(specs[..n], slug);
      assert forall i :: 0 <= i < n ==> specs[..n][i] == specs[i];
    }
  }

  /** A value is good for its attribute by the attribute's type, and a value of no attribute of
      the category is unknown. */
  lemma GoodForItsType(specs: seq<AttrSpec>, v: AttributeValue, isFloat: string -> bool)
    ensures match SpecOf(specs, v.slug)
            case None => ValueFlaw(specs, v, isFloat) == Some(UnknownAttribute)
            case Some(spec) =>
              var good := ValueFlaw(specs, v, isFloat).None?;
              && (!good ==> ValueFlaw(specs, v, isFloat) == Some(InvalidValue))
              && (spec.kind == IntAttr ==> (good <==> IsInt64(v.value)))
              && (spec.kind == DecimalAttr ==> (good <==> isFloat(v.value)))
              && (spec.kind == BoolAttr ==> (good <==> v.value in {"true", "false"}))
              && (spec.kind == EnumAttr ==> (good <==> exists k :: 0 <= k < |spec.options| && spec.options[k] == v.value))
              && (spec.kind == StringAttr ==> (good <==> |v.value| >= 1))
              && (spec.kind == UnknownType ==> !good)
  {
  }
}
