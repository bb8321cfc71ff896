/** Extraction of listings, ratings and seller age from the marketplace's decoded JSON
    responses. Every Python exception inside a parser is caught there and replaced by
    an empty or zero result; inside this module an exception is a `Failure`. */
module Parsers {
  import opened Wrappers
  import opened Text
  import opened Json
  import Models

  // ---------------------------------------------------------------------------
  // Search results
  // ---------------------------------------------------------------------------

  /** One parsed search item. Fields the parser copies from the response without
      converting them keep their decoded JSON value. */
  datatype RawListingApi = RawListingApi(
    id: string,
    title: Json,
    price: real,
    priceStr: string,
    imageUrl: Json,
    location: Json,
    sellerId: string,
    sellerName: Json,
    detailUrl: string,
    originalPrice: Json,
    wantsCount: Json,
    tags: seq<string>,
    rawLink: string,
    postTime: Option<int>)

  const InspectionTag: string := "验货宝"
  const AppScheme: string := "fleamarket://"
  const WebPrefix: string := "https://www.goofish.com/"

  /** The price text: the `text` of each dict part of a list, concatenated, or `str()`
      of a value that is not a list. */
  function PriceText(parts: Json): string {
    if parts.JArr? then PartsText(parts.items) else Str(parts)
  }

  function PartsText(parts: seq<Json>): string {
    if |parts| == 0 then ""
    else
      var head := if parts[0].JObj? then Str(Get(parts[0], "text", JStr("")).value) else "";
      head + PartsText(parts[1..])
  }

  /** The price text with "当前价", then "¥", then "," replaced by nothing, in that
      order. */
  function WithoutPriceMarks(priceStr: string): (r: string)
    ensures '¥' !in r && ',' !in r
  {
    var s1 := Replace(priceStr, "当前价", "");
    ReplaceOneChar(s1, '¥');
    var s2 := Replace(s1, "¥", "");
    ReplaceOneChar(s2, ',');
    Replace(s2, ",", "")
  }

  /** The price text with "当前价", "¥" and "," removed and surrounding whitespace
      stripped; an empty result becomes "0". */
  function CleanPrice(priceStr: string): (r: string)
    ensures |r| > 0 && IsStripped(r)
    ensures '¥' !in r && ',' !in r
  {
    var s3 := WithoutPriceMarks(priceStr);
    var t := Strip(s3);
    StripIsSlice(s3);
    StripKeepsChars(s3);
    if t == "" then "0" else t
  }

  /** A leading "当前价" label is dropped. */
  lemma CleanPriceDropsLabel(s: string)
    ensures CleanPrice("当前价" + s) == CleanPrice(s)
  {
    ReplacePrefix("当前价", "", s);
    var s1 := Replace(s, "当前价", "");
    assert "" + s1 == s1;
    assert Replace("当前价" + s, "当前价", "") == s1;
  }

  /** A leading "¥" is dropped. */
  lemma CleanPriceDropsYuan(s: string)
    ensures CleanPrice("¥" + s) == CleanPrice(s)
  {
    var s1 := Replace(s, "当前价", "");
    ReplaceOtherFirst('¥', s, "当前价", "");
    assert Replace("¥" + s, "当前价", "") == "¥" + s1;
    ReplacePrefix("¥", "", s1);
    assert Replace("¥" + s1, "¥", "") == Replace(s1, "¥", "");
  }

  /** A leading "," is dropped. */
  lemma CleanPriceDropsComma(s: string)
    ensures CleanPrice("," + s) == CleanPrice(s)
  {
    var s1 := Replace(s, "当前价", "");
    var s2 := Replace(s1, "¥", "");
    ReplaceOtherFirst(',', s, "当前价", "");
    assert Replace("," + s, "当前价", "") == "," + s1;
    ReplaceOtherFirst(',', s1, "¥", "");
    assert Replace("," + s1, "¥", "") == "," + s2;
    ReplacePrefix(",", "", s2);
    assert Replace("," + s2, ",", "") == Replace(s2, ",", "");
  }

  /** A text with none of the marks and no surrounding whitespace is kept whole: cleaning
      removes nothing else. */
  lemma CleanPriceKeepsPlain(t: string)
    requires t != "" && IsStripped(t)
    requires '¥' !in t && ',' !in t && !IsInfix("当前价", t)
    ensures CleanPrice(t) == t
  {
    ReplaceAbsent(t, "当前价", "");
    CharInfix('¥', t);
    ReplaceAbsent(t, "¥", "");
    CharInfix(',', t);
    ReplaceAbsent(t, ",", "");
    StripOfStripped(t);
  }

  /** A digit string holds none of the price marks and has no surrounding whitespace. */
  lemma DigitsHoldNoPriceMarks(s: string)
    requires IsDigits(s)
    ensures '当' !in s && '¥' !in s && ',' !in s
    ensures IsStripped(s)
  {
    forall i | 0 <= i < |s| ensures s[i] != '当' && s[i] != '¥' && s[i] != ',' {
      assert IsDigitChar(s[i]);
    }
    assert IsDigitChar(s[0]) && IsDigitChar(s[|s| - 1]);
  }

  /** Two digit strings run together are again a digit string. */
  lemma DigitsJoin(a: string, b: string)
    requires IsDigits(a) && IsDigits(b)
    ensures IsDigits(a + b)
  {
    forall i | 0 <= i < |a + b| ensures IsDigitChar((a + b)[i]) {
      if i < |a| { assert (a + b)[i] == a[i]; } else { assert (a + b)[i] == b[i - |a|]; }
    }
  }

  /** A thousands separator between digits is removed: "1,299" cleans to "1299". */
  lemma CleanPriceDropsInnerComma(a: string, b: string)
    requires IsDigits(a) && IsDigits(b)
    ensures CleanPrice(a + "," + b) == a + b
  {
    var s := a + "," + b;
    DigitsHoldNoPriceMarks(a);
    DigitsHoldNoPriceMarks(b);
    assert '当' !in s && '¥' !in s;
    LabelAbsent(s);
    MarkAbsent(s, '¥');
    MarkBetween(a, b, ',');
    assert WithoutPriceMarks(s) == a + b;
    DigitsJoin(a, b);
    CleanPriceOfDigits(s, a + b);
  }

  /** A "¥" between digits is removed: "12¥99" cleans to "1299". */
  lemma CleanPriceDropsInnerYuan(a: string, b: string)
    requires IsDigits(a) && IsDigits(b)
    ensures CleanPrice(a + "¥" + b) == a + b
  {
    var s := a + "¥" + b;
    DigitsHoldNoPriceMarks(a);
    DigitsHoldNoPriceMarks(b);
    assert '当' !in s;
    LabelAbsent(s);
    MarkBetween(a, b, '¥');
    assert ',' !in a + b;
    MarkAbsent(a + b, ',');
    assert WithoutPriceMarks(s) == a + b;
    DigitsJoin(a, b);
    CleanPriceOfDigits(s, a + b);
  }

  lemma LabelAbsent(s: string)
    requires '当' !in s
    ensures Replace(s, "当前价", "") == s
  {
    InfixHasFirstChar("当前价", s);
    ReplaceAbsent(s, "当前价", "");
  }

  lemma MarkAbsent(s: string, c: char)
    requires c !in s
    ensures Replace(s, [c], "") == s
  {
    ReplaceOneChar(s, c);
    RemoveAbsentChar(s, c);
  }

  lemma MarkBetween(a: string, b: string, c: char)
    requires c !in a && c !in b
    ensures Replace(a + [c] + b, [c], "") == a + b
  {
    ReplaceOneChar(a + [c] + b, c);
    assert RemoveChar([c], c) == [] by {
      assert [c][1..] == [];
    }
    assert RemoveChar(a + [c], c) == a by {
      RemoveCharConcat(a, [c], c);
      RemoveAbsentChar(a, c);
    }
    assert RemoveChar(a + [c] + b, c) == a + b by {
      RemoveCharConcat(a + [c], b, c);
      RemoveAbsentChar(b, c);
    }
  }

  /** A text whose marks leave a digit string cleans to that digit string. */
  lemma CleanPriceOfDigits(s: string, d: string)
    requires WithoutPriceMarks(s) == d && IsDigits(d)
    ensures CleanPrice(s) == d
  {
    DigitsHoldNoPriceMarks(d);
    StripOfStripped(d);
  }

  /** A price that is only the "当前价" label cleans to "0" and is priced 0. */
  lemma LabelOnlyPriceIsZero()
    ensures CleanPrice("当前价") == "0"
    ensures PriceOf(CleanPrice("当前价")) == Success(0.0)
  {
    CleanPriceDropsLabel("");
    assert "当前价" + "" == "当前价";
    EmptyPriceIsZero();
  }

  /** The price parts of the search tests, `[{"text": "当前价", "value": "9999"}]`, read
      as the label alone: the value is not part of the text, so the listing is priced 0. */
  lemma TestPricePartsAreLabelOnly()
    ensures PriceText(JArr([JObj(map["text" := JStr("当前价"), "value" := JStr("9999")])])) == "当前价"
  {
    var part := JObj(map["text" := JStr("当前价"), "value" := JStr("9999")]);
    assert Get(part, "text", JStr("")).value == JStr("当前价");
    assert PartsText([part]) == "当前价" + PartsText([]);
  }

  /** The numeric price of a cleaned price text. A text with "万" is scaled by 10000
      and raises when the rest is no number; any other text that is not digits once
      its dots are removed is 0, and one that is raises when `float` rejects it. */
  function PriceOf(clean: string): (r: Result<real>)
    ensures r.Failure? ==> '万' in clean || IsDigits(RemoveChar(clean, '.'))
    ensures '万' !in clean && !IsDigits(RemoveChar(clean, '.')) ==> r == Success(0.0)
  {
    if '万' in clean then
      match ParseFloat(RemoveChar(clean, '万'))
      case None => Failure("ValueError: could not convert string to float")
      case Some(v) => Success(v * 10000.0)
    else if IsDigits(RemoveChar(clean, '.')) then
      match ParseFloat(clean)
      case None => Failure("ValueError: could not convert string to float")
      case Some(v) => Success(v)
    else Success(0.0)
  }

  /** The tags of an item: "包邮" first when the click tag is "freeship", then one
      "验货宝" for each r1 tag whose content contains it. */
  function TagsOf(clickTag: Json, r1Tags: Json): (r: Result<seq<string>>)
    ensures r.Success? ==> forall t <- r.value :: t == Models.FreeShippingTag || t == InspectionTag
    ensures r.Success? ==> (Models.FreeShippingTag in r.value <==> clickTag == JStr("freeship"))
  {
    var base := if clickTag == JStr("freeship") then [Models.FreeShippingTag] else [];
    if r1Tags.JArr? then
      var extra :- InspectionTags(r1Tags.items);
      Success(base + extra)
    else Success(base)
  }

  /** One "验货宝" per tag item whose `data.content` contains it. */
  function InspectionTags(items: seq<Json>): (r: Result<seq<string>>)
    ensures r.Success? ==> |r.value| <= |items| && forall t <- r.value :: t == InspectionTag
  {
    if |items| == 0 then Success([])
    else
      var content :- TagContent(items[0]);
      var has :- ContainsText(content, InspectionTag);
      var rest :- InspectionTags(items[1..]);
      Success(if has then [InspectionTag] + rest else rest)
  }

  /** `tag_item.get("data", {}).get("content", "")`: fails unless the item, and its
      `data` when present, are dicts. */
  function TagContent(item: Json): (r: Result<Json>)
    ensures r.Success? <==> item.JObj? && ("data" in item.fields ==> item.fields["data"].JObj?)
    ensures r.Success? && "data" in item.fields && "content" in item.fields["data"].fields ==>
              r.value == item.fields["data"].fields["content"]
  {
    var data :- Get(item, "data", EmptyObj);
    Get(data, "content", JStr(""))
  }

  /** The item's content can be tested for "验货宝" without raising. */
  predicate TagItemReads(item: Json) {
    TagContent(item).Success? && ContainsText(TagContent(item).value, InspectionTag).Success?
  }

  /** The item's content contains "验货宝". */
  predicate MarksInspection(item: Json) {
    TagContent(item).Success? && ContainsText(TagContent(item).value, InspectionTag) == Success(true)
  }

  /** How many items mark an inspection: the reference count of "验货宝" tags. */
  function InspectedCount(items: seq<Json>): nat {
    if |items| == 0 then 0
    else (if MarksInspection(items[0]) then 1 else 0) + InspectedCount(items[1..])
  }

  /** The tag list reads exactly when every item does, and then carries one "验货宝" per
      item that marks an inspection. */
  lemma {:induction false} InspectionTagsCount(items: seq<Json>)
    ensures InspectionTags(items).Success? <==> forall i | 0 <= i < |items| :: TagItemReads(items[i])
    ensures InspectionTags(items).Success? ==> |InspectionTags(items).value| == InspectedCount(items)
  {
    if |items| > 0 {
      InspectionTagsCount(items[1..]);
      assert forall i | 1 <= i < |items| :: items[i] == items[1..][i - 1];
      if forall i | 0 <= i < |items| :: TagItemReads(items[i]) {
        assert TagItemReads(items[0]);
        assert forall i | 0 <= i < |items[1..]| :: TagItemReads(items[1..][i]) by {
          forall i | 0 <= i < |items[1..]| ensures TagItemReads(items[1..][i]) {
            assert items[1..][i] == items[i + 1];
          }
        }
      }
    }
  }

  /** An item marking an inspection makes the count positive. */
  lemma {:induction false} InspectedCountPositive(items: seq<Json>, i: int)
    requires 0 <= i < |items| && MarksInspection(items[i])
    ensures InspectedCount(items) > 0
  {
    if i > 0 {
      assert items[1..][i - 1] == items[i];
      InspectedCountPositive(items[1..], i - 1);
    }
  }

  /** A readable tag list holds "验货宝" when some item's `data.content` is a string
      containing it. */
  lemma InspectionTagFromContent(items: seq<Json>, i: int)
    requires 0 <= i < |items| && items[i].JObj? && "data" in items[i].fields
    requires items[i].fields["data"].JObj? && "content" in items[i].fields["data"].fields
    requires items[i].fields["data"].fields["content"].JStr?
    requires IsInfix(InspectionTag, items[i].fields["data"].fields["content"].s)
    requires InspectionTags(items).Success?
    ensures InspectionTag in InspectionTags(items).value
  {
    assert MarksInspection(items[i]);
    InspectedCountPositive(items, i);
    InspectionTagsCount(items);
    var tags := InspectionTags(items).value;
    assert tags[0] in tags;
  }

  /** `int(v)` for a value whose `str()` is a digit string, `None` otherwise. */
  function DigitValue(v: Json): (r: Option<nat>)
    ensures r.Some? <==> IsDigits(Str(v))
  {
    var s := Str(v);
    if IsDigits(s) then Some(DigitsValue(s)) else None
  }

  /** Publish time in seconds: the millisecond timestamp floor-divided by 1000, when
      the value is truthy and all digits; otherwise no publish time. */
  function PostTimeOf(ts: Json): (r: Option<int>)
    ensures r.Some? <==> Truthy(ts) && IsDigits(Str(ts))
    ensures r.Some? ==> 0 <= r.value && r.value * 1000 <= DigitValue(ts).value < r.value * 1000 + 1000
  {
    if Truthy(ts) then
      match DigitValue(ts)
      case Some(ms) => Some(ms / 1000)
      case None => None
    else None
  }

  /** The browser URL of an app link; a link that is not a string raises. */
  function DetailUrl(rawLink: Json): (r: Result<string>)
    ensures r.Success? <==> rawLink.JStr?
  {
    if rawLink.JStr? then Success(Replace(rawLink.s, AppScheme, WebPrefix))
    else Failure("AttributeError: object has no attribute 'replace'")
  }

  /** One search item, or the exception processing it raises. */
  function ParseItem(item: Json): (r: Result<RawListingApi>)
    ensures r.Success? ==> item.JObj?
    ensures r.Success? ==> forall t <- r.value.tags :: t == Models.FreeShippingTag || t == InspectionTag
  {
    var main :- GetPath(item, ["data", "item", "main"]);
    var mainData :- Get(main, "exContent", EmptyObj);
    var clickParams :- GetPath(main, ["clickParam", "args"]);
    // Once the first lookup on each dict has succeeded, the later ones cannot fail.
    if !mainData.JObj? || !clickParams.JObj? then Failure("AttributeError: object has no attribute 'get'")
    else
      var title := Field(mainData, "title", JStr("未知标题"));
      var priceStr := PriceText(Field(mainData, "price", JArr([])));
      var price :- PriceOf(CleanPrice(priceStr));
      var area := Field(mainData, "area", JStr("地区未知"));
      var seller := Field(mainData, "userNickName", JStr("匿名卖家"));
      var sellerId := Field(mainData, "userId", JStr(""));
      var rawLink := Field(main, "targetUrl", JStr(""));
      var imageUrl := Field(mainData, "picUrl", JStr(""));
      var publishTime := Field(clickParams, "publishTime", JStr(""));
      var itemId := Field(mainData, "itemId", JStr("未知ID"));
      var originalPrice := Field(mainData, "oriPrice", JStr("暂无"));
      var wantsCount := Field(clickParams, "wantNum", JNull);
      var clickTag := Field(clickParams, "tag", JNull);
      var fishTags := Field(mainData, "fishTags", EmptyObj);
      var r1 :- Get(fishTags, "r1", EmptyObj);
      var r1Tags :- Get(r1, "tagList", JArr([]));
      var tags :- TagsOf(clickTag, r1Tags);
      var postTime := PostTimeOf(publishTime);
      var detailUrl :- DetailUrl(rawLink);
      Success(RawListingApi(
        id := Str(itemId),
        title := title,
        price := price,
        priceStr := "¥" + priceStr,
        imageUrl := imageUrl,
        location := area,
        sellerId := Str(sellerId),
        sellerName := seller,
        detailUrl := detailUrl,
        originalPrice := originalPrice,
        wantsCount := wantsCount,
        tags := tags,
        rawLink := rawLink.s,
        postTime := postTime))
  }

  /** Every item through `parse`, in order; the first item that raises makes the whole
      list raise. The search response uses it with `ParseItem`. */
  function ParseItems<T>(parse: Json -> Result<T>, items: seq<Json>): (r: Result<seq<T>>)
    ensures r.Success? <==> forall i :: 0 <= i < |items| ==> parse(items[i]).Success?
    ensures r.Success? ==> |r.value| == |items|
    ensures r.Success? ==> forall i :: 0 <= i < |items| ==> r.value[i] == parse(items[i]).value
  {
    if |items| == 0 then Success([])
    else
      var head :- parse(items[0]);
      var rest :- ParseItems(parse, items[1..]);
      assert forall i :: 1 <= i < |items| ==> items[i] == items[1..][i - 1];
      Success([head] + rest)
  }

  function ParseSearchResultsOrRaise(response: Json): Result<seq<RawListingApi>> {
    var data :- Get(response, "data", EmptyObj);
    var items :- Get(data, "resultList", JArr([]));
    if !Truthy(items) then Success([])
    else
      var elements :- Elements(items);
      ParseItems(ParseItem, elements)
  }

  /** The listings of a search response; an empty list when the result list is
      missing or empty, and when anything raises. */
  function ParseSearchResults(response: Json): (r: seq<RawListingApi>)
    ensures ParseSearchResultsOrRaise(response).Success? ==> r == ParseSearchResultsOrRaise(response).value
    ensures ParseSearchResultsOrRaise(response).Failure? ==> r == []
  {
    match ParseSearchResultsOrRaise(response)
    case Success(v) => v
    case Failure(_) => []
  }

  /** A response without a data object, or whose data has no or an empty result list,
      parses to no listings. */
  lemma MissingResultListIsEmpty(response: Json)
    requires response.JObj?
    requires || "data" !in response.fields
             || (response.fields["data"].JObj? && "resultList" !in response.fields["data"].fields)
             || (response.fields["data"].JObj? && "resultList" in response.fields["data"].fields
                 && response.fields["data"].fields["resultList"] == JArr([]))
    ensures ParseSearchResults(response) == []
  {
  }

  /** One item that raises empties the whole result, whatever the other items hold. */
  lemma OneBadItemEmptiesAll(items: seq<Json>, i: nat)
    requires i < |items| && ParseItem(items[i]).Failure?
    ensures ParseSearchResults(JObj(map["data" := JObj(map["resultList" := JArr(items)])])) == []
  {
    var response := JObj(map["data" := JObj(map["resultList" := JArr(items)])]);
    assert ParseItems(ParseItem, items).Failure?;
    assert Truthy(JArr(items));
  }

  /** When every item parses, the result holds one listing per item, in order. */
  lemma GoodItemsAllKept(items: seq<Json>)
    requires forall i :: 0 <= i < |items| ==> ParseItem(items[i]).Success?
    ensures var r := ParseSearchResults(JObj(map["data" := JObj(map["resultList" := JArr(items)])]));
            |r| == |items| && forall i :: 0 <= i < |items| ==> r[i] == ParseItem(items[i]).value
  {
    if |items| > 0 {
      assert Truthy(JArr(items));
    }
  }

  // ---------------------------------------------------------------------------
  // Properties of the field conversions
  // ---------------------------------------------------------------------------

  /** A plain digit price is its integer value. */
  lemma PriceOfDigits(s: string)
    requires IsDigits(s)
    ensures PriceOf(s) == Success(DigitsValue(s) as real)
  {
    assert '万' !in s by {
      forall i | 0 <= i < |s| ensures s[i] != '万' {
        assert IsDigitChar(s[i]);
      }
    }
    assert '.' !in s by {
      forall i | 0 <= i < |s| ensures s[i] != '.' {
        assert IsDigitChar(s[i]);
      }
    }
    RemoveAbsentChar(s, '.');
    ParseFloatOfDigits(s);
  }

  /** A digit count of "万" is that count times ten thousand. */
  lemma PriceOfWan(s: string)
    requires IsDigits(s)
    ensures PriceOf(s + "万").Success? && PriceOf(s + "万").value == DigitsValue(s) as real * 10000.0
  {
    var t := s + "万";
    assert '万' in t by {
      assert t[|s|] == '万';
    }
    assert RemoveChar(t, '万') == s by {
      DigitsHoldNoMarks(s);
      RemoveCharAppend(s, '万');
    }
    ParseFloatOfDigits(s);
    PriceOfWanText(t, DigitsValue(s) as real);
  }

  /** A text with "万" whose remainder reads as `n` is priced at `n` ten-thousands. */
  lemma PriceOfWanText(t: string, n: real)
    requires '万' in t && ParseFloat(RemoveChar(t, '万')) == Some(n)
    ensures PriceOf(t).Success? && PriceOf(t).value == n * 10000.0
  {
  }

  /** The price comes from `float`: the number before "万" times ten thousand when the
      text has "万", the whole text when it is digits once its dots are removed; in
      both cases the price raises exactly when that `float` does. */
  lemma PriceOfFloat(clean: string)
    ensures '万' in clean ==>
              var n := ParseFloat(RemoveChar(clean, '万'));
              && (PriceOf(clean).Success? <==> n.Some?)
              && (n.Some? ==> PriceOf(clean).value == n.value * 10000.0)
    ensures '万' !in clean && IsDigits(RemoveChar(clean, '.')) ==>
              var n := ParseFloat(clean);
              && (PriceOf(clean).Success? <==> n.Some?)
              && (n.Some? ==> PriceOf(clean).value == n.value)
  {
  }

  /** A digit string holds neither "万" nor '.'. */
  lemma DigitsHoldNoMarks(s: string)
    requires IsDigits(s)
    ensures '万' !in s && '.' !in s
  {
    forall i | 0 <= i < |s| ensures s[i] != '万' && s[i] != '.' {
      assert IsDigitChar(s[i]);
    }
  }

  /** A literal "<digits>.<digits>" holds no "万" and is digits once its dot goes. */
  lemma DecimalLiteralShape(whole: string, frac: string)
    requires IsDigits(whole) && IsDigits(frac)
    ensures '万' !in whole + "." + frac
    ensures RemoveChar(whole + "." + frac, '.') == whole + frac
    ensures IsDigits(whole + frac)
  {
    DigitsHoldNoMarks(whole);
    DigitsHoldNoMarks(frac);
    assert RemoveChar(whole + "." + frac, '.') == whole + frac by {
      MarkBetween(whole, frac, '.');
      ReplaceOneChar(whole + "." + frac, '.');
    }
    DigitsJoin(whole, frac);
  }

  /** A decimal price "<digits>.<digits>" is its decimal value, and the same text
      followed by "万" is ten thousand times that. */
  lemma PriceOfDecimal(whole: string, frac: string)
    requires IsDigits(whole) && IsDigits(frac)
    ensures var r := PriceOf(whole + "." + frac); r.Success? && r.value == DecimalValue(whole, frac)
    ensures var r := PriceOf(whole + "." + frac + "万"); r.Success? && r.value == DecimalValue(whole, frac) * 10000.0
  {
    var t := whole + "." + frac;
    DecimalLiteralShape(whole, frac);
    ParseFloatOfDecimal(whole, frac);
    RemoveCharAppend(t, '万');
    assert (t + "万")[|t|] == '万';
  }

  lemma {:induction false} RemoveCharAppend(s: string, c: char)
    requires c !in s
    ensures RemoveChar(s + [c], c) == s
    decreases |s|
  {
    if |s| == 0 {
      assert s + [c] == [c];
    } else {
      assert (s + [c])[1..] == s[1..] + [c];
      RemoveCharAppend(s[1..], c);
      assert s == [s[0]] + s[1..];
    }
  }

  /** A cleaned text that is not numeric, such as "面议", is priced 0. */
  lemma NonNumericPriceIsZero()
    ensures PriceOf("面议") == Success(0.0)
  {
    assert '万' !in "面议";
    assert RemoveChar("面议", '.') == "面议";
    assert !IsDigitChar('面');
  }

  /** An empty price text cleans to "0", which is priced 0. */
  lemma EmptyPriceIsZero()
    ensures CleanPrice("") == "0"
    ensures PriceOf(CleanPrice("")) == Success(0.0)
  {
    assert Replace("", "当前价", "") == "";
    assert Replace("", "¥", "") == "" && Replace("", ",", "") == "";
    assert WithoutPriceMarks("") == "";
    assert Strip("") == "";
    PriceOfDigits("0");
  }

  /** Click tag "freeship" and an r1 tag mentioning "验货宝" give both tags, in that order. */
  lemma TagsScenario(content: string)
    requires IsInfix(InspectionTag, content)
    ensures TagsOf(JStr("freeship"), JArr([JObj(map["data" := JObj(map["content" := JStr(content)])])]))
         == Success([Models.FreeShippingTag, InspectionTag])
  {
    var data := JObj(map["content" := JStr(content)]);
    var item := JObj(map["data" := data]);
    assert Get(item, "data", EmptyObj) == Success(data);
    assert Get(data, "content", JStr("")) == Success(JStr(content));
    assert ContainsText(JStr(content), InspectionTag) == Success(true);
    var items := [item];
    assert items[0] == item && items[1..] == [];
    assert InspectionTags(items[1..]) == Success([]);
    assert [InspectionTag] + [] == [InspectionTag];
    assert InspectionTags(items) == Success([InspectionTag]);
    assert [Models.FreeShippingTag] + [InspectionTag] == [Models.FreeShippingTag, InspectionTag];
    assert TagsOf(JStr("freeship"), JArr(items)) == Success([Models.FreeShippingTag] + [InspectionTag]);
  }

  /** A millisecond timestamp given as a number is converted by floor division. */
  lemma PostTimeOfNumber(ms: nat)
    requires ms > 0
    ensures PostTimeOf(JInt(ms)) == Some(ms / 1000)
  {
    StrOfNatIsDigits(ms);
  }

  /** A timestamp that is neither a string nor a non-negative integer gives no time. */
  lemma PostTimeOfOther(ts: Json)
    requires !ts.JStr? && !(ts.JInt? && ts.i >= 0)
    ensures PostTimeOf(ts).None?
  {
    StrNotDigits(ts);
  }

  /** An app link becomes the web URL with the same path; a link without the app
      scheme is kept as it is. */
  lemma DetailUrlRewrite(path: string)
    requires !IsInfix(AppScheme, path)
    ensures DetailUrl(JStr(AppScheme + path)) == Success(WebPrefix + path)
    ensures DetailUrl(JStr(path)) == Success(path)
  {
    ReplacePrefix(AppScheme, WebPrefix, path);
    ReplaceAbsent(path, AppScheme, WebPrefix);
  }

  // ---------------------------------------------------------------------------
  // Ratings
  // ---------------------------------------------------------------------------

  /** Counts of the rating cards; a rate is a percentage, 0 when its total is 0. */
  datatype Ratings = Ratings(
    sellerPositive: nat,
    sellerTotal: nat,
    sellerRate: real,
    buyerPositive: nat,
    buyerTotal: nat,
    buyerRate: real,
    totalTransactions: nat)

  const ZeroRatings: Ratings := Ratings(0, 0, 0.0, 0, 0, 0.0, 0)

  datatype Tally = Tally(sellerPositive: nat, sellerTotal: nat, buyerPositive: nat, buyerTotal: nat) {
    predicate Valid() {
      sellerPositive <= sellerTotal && buyerPositive <= buyerTotal
    }
  }

  /** The role and rate of one card, or `None` when its role list is empty. */
  function CardRole(card: Json): Result<Option<(Json, Json)>> {
    var cardData :- Get(card, "cardData", EmptyObj);
    var roleTag :- Get(cardData, "rateTagList", JArr([]));
    if !Truthy(roleTag) then Success(None)
    else
      var role :- if roleTag.JArr? then Get(roleTag.items[0], "text", JStr("")) else Success(JStr(""));
      Success(Some((role, Field(cardData, "rate", JInt(0)))))
  }

  /** The tally after one more card: a seller card counts before a buyer card, and a
      card is positive when its rate equals 1. */
  function CountCard(t: Tally, card: Json): (r: Result<Tally>)
    requires t.Valid()
    ensures r.Success? ==> r.value.Valid()
    ensures r.Success? ==> r.value.sellerTotal + r.value.buyerTotal <= t.sellerTotal + t.buyerTotal + 1
    ensures r.Success? ==> t.sellerTotal <= r.value.sellerTotal && t.buyerTotal <= r.value.buyerTotal
  {
    var roleRate :- CardRole(card);
    match roleRate
    case None => Success(t)
    case Some((role, rate)) =>
      var seller :- ContainsText(role, "卖家");
      if seller then
        Success(t.(sellerTotal := t.sellerTotal + 1,
                   sellerPositive := t.sellerPositive + (if EqualsOne(rate) then 1 else 0)))
      else
        var buyer :- ContainsText(role, "买家");
        if buyer then
          Success(t.(buyerTotal := t.buyerTotal + 1,
                     buyerPositive := t.buyerPositive + (if EqualsOne(rate) then 1 else 0)))
        else Success(t)
  }

  function CountCards(t: Tally, cards: seq<Json>): (r: Result<Tally>)
    requires t.Valid()
    ensures r.Success? ==> r.value.Valid()
    ensures r.Success? ==> r.value.sellerTotal + r.value.buyerTotal <= t.sellerTotal + t.buyerTotal + |cards|
    decreases |cards|
  {
    if |cards| == 0 then Success(t)
    else
      var t1 :- CountCard(t, cards[0]);
      CountCards(t1, cards[1..])
  }

  /** `positive / total * 100`, or 0 for no cards. */
  function Rate(positive: nat, total: nat): (r: real)
    requires positive <= total
    ensures 0.0 <= r <= 100.0
    ensures total == 0 ==> r == 0.0
    ensures total > 0 && positive == total ==> r == 100.0
  {
    if total > 0 then positive as real / total as real * 100.0 else 0.0
  }

  function RatingsOrRaise(response: Json): (r: Result<Ratings>)
    ensures r.Success? ==> r.value.sellerPositive <= r.value.sellerTotal && r.value.buyerPositive <= r.value.buyerTotal
  {
    var data :- Get(response, "data", EmptyObj);
    var cardList :- Get(data, "cardList", JArr([]));
    var cards :- Elements(cardList);
    var t :- CountCards(Tally(0, 0, 0, 0), cards);
    Success(Ratings(
      sellerPositive := t.sellerPositive,
      sellerTotal := t.sellerTotal,
      sellerRate := Rate(t.sellerPositive, t.sellerTotal),
      buyerPositive := t.buyerPositive,
      buyerTotal := t.buyerTotal,
      buyerRate := Rate(t.buyerPositive, t.buyerTotal),
      totalTransactions := t.sellerTotal + t.buyerTotal))
  }

  /** The ratings of a response, all zero when anything raises. */
  function ParseRatings(response: Json): (r: Ratings)
    ensures r.sellerPositive <= r.sellerTotal && r.buyerPositive <= r.buyerTotal
    ensures r.totalTransactions == r.sellerTotal + r.buyerTotal
    ensures r.sellerTotal == 0 ==> r.sellerRate == 0.0
    ensures r.buyerTotal == 0 ==> r.buyerRate == 0.0
    ensures 0.0 <= r.sellerRate <= 100.0 && 0.0 <= r.buyerRate <= 100.0
    ensures RatingsOrRaise(response).Failure? ==> r == ZeroRatings
  {
    match RatingsOrRaise(response)
    case Success(v) => v
    case Failure(_) => ZeroRatings
  }

  /** A card of the given role text and rate. */
  function Card(role: string, rate: Json): Json {
    JObj(map["cardData" := JObj(map["rate" := rate, "rateTagList" := JArr([JObj(map["text" := JStr(role)])])])])
  }

  /** A response holding the given cards. */
  function RatingsResponse(cards: seq<Json>): Json {
    JObj(map["data" := JObj(map["cardList" := JArr(cards)])])
  }

  /** Number of rates in `rates` equal to 1. */
  function CountOnes(rates: seq<Json>): nat {
    if |rates| == 0 then 0 else (if EqualsOne(rates[0]) then 1 else 0) + CountOnes(rates[1..])
  }

  /** Seller cards only: the seller total is the number of cards and the positives
      are the cards rated 1. */
  lemma {:induction false} SellerCardsCounted(t: Tally, rates: seq<Json>)
    requires t.Valid()
    ensures var r := CountCards(t, seq(|rates|, i requires 0 <= i < |rates| => Card("卖家", rates[i])));
            && r.Success?
            && r.value.sellerTotal == t.sellerTotal + |rates|
            && r.value.sellerPositive == t.sellerPositive + CountOnes(rates)
            && r.value.buyerTotal == t.buyerTotal
    decreases |rates|
  {
    var cards := seq(|rates|, i requires 0 <= i < |rates| => Card("卖家", rates[i]));
    if |rates| > 0 {
      assert ContainsText(JStr("卖家"), "卖家") == Success(true) by {
        assert InfixAt("卖家", "卖家", 0);
      }
      var t1 := CountCard(t, cards[0]);
      assert t1.Success?;
      var tail := seq(|rates| - 1, i requires 0 <= i < |rates| - 1 => Card("卖家", rates[1..][i]));
      assert cards[1..] == tail;
      SellerCardsCounted(t1.value, rates[1..]);
    }
  }

  /** Three seller cards rated 1, 1 and -1 give total 3, positive 2 and rate 200/3. */
  lemma RatingsScenario()
    ensures var r := ParseRatings(RatingsResponse([Card("卖家", JInt(1)), Card("卖家", JInt(1)), Card("卖家", JInt(-1))]));
            r.sellerTotal == 3 && r.sellerPositive == 2 && r.sellerRate == 200.0 / 3.0
            && r.buyerTotal == 0 && r.totalTransactions == 3
  {
    var rates := [JInt(1), JInt(1), JInt(-1)];
    var cards := [Card("卖家", JInt(1)), Card("卖家", JInt(1)), Card("卖家", JInt(-1))];
    assert cards == seq(|rates|, i requires 0 <= i < |rates| => Card("卖家", rates[i]));
    SellerCardsCounted(Tally(0, 0, 0, 0), rates);
    assert CountOnes(rates) == 2;
  }

  // ---------------------------------------------------------------------------
  // User head and reputation
  // ---------------------------------------------------------------------------

  datatype UserHead = UserHead(registrationDays: nat, nickName: Json, userId: Json)

  function UserHeadOrRaise(response: Json): Result<UserHead> {
    var main :- GetPath(response, ["data", "item", "main"]);
    var userHead :- Get(main, "userHead", EmptyObj);
    var regDays :- Get(userHead, "regDays", JInt(0));
    Success(UserHead(DigitValue(regDays).GetOr(0), Field(userHead, "nickName", JStr("")), Field(userHead, "userId", JStr(""))))
  }

  /** The seller's registration age and names; a non-digit age is 0, and a response
      that raises gives 0 days and empty names. */
  function ParseUserHead(response: Json): (r: UserHead)
    ensures UserHeadOrRaise(response).Failure? ==> r == UserHead(0, JStr(""), JStr(""))
    ensures UserHeadOrRaise(response).Success? ==> r == UserHeadOrRaise(response).value
  {
    match UserHeadOrRaise(response)
    case Success(v) => v
    case Failure(_) => UserHead(0, JStr(""), JStr(""))
  }

  /** A response carrying `regDays`. */
  function UserHeadResponse(regDays: Json): Json {
    JObj(map["data" := JObj(map["item" := JObj(map["main" := JObj(map["userHead" := JObj(map["regDays" := regDays])])])])])
  }

  /** The age read from a response carrying `regDays` is its digit value, or 0. */
  lemma UserHeadResponseDays(regDays: Json)
    ensures ParseUserHead(UserHeadResponse(regDays)).registrationDays == DigitValue(regDays).GetOr(0)
  {
    var userHead := JObj(map["regDays" := regDays]);
    var main := JObj(map["userHead" := userHead]);
    assert GetPath(UserHeadResponse(regDays), ["data", "item", "main"]) == Success(main);
    assert UserHeadOrRaise(UserHeadResponse(regDays)).Success?;
  }

  /** A numeric age is read as it is; an age that is not digits is 0. */
  lemma RegDaysParsed(n: nat, v: Json)
    requires !v.JStr? && !(v.JInt? && v.i >= 0)
    ensures ParseUserHead(UserHeadResponse(JInt(n))).registrationDays == n
    ensures ParseUserHead(UserHeadResponse(v)).registrationDays == 0
  {
    UserHeadResponseDays(JInt(n));
    StrOfNatIsDigits(n);
    UserHeadResponseDays(v);
    StrNotDigits(v);
  }

  /** Seller age as text: "{d}天" below a year, otherwise whole years followed by the
      remaining days when there are any. */
  function RegistrationText(days: nat): (t: string)
    ensures days < 365 ==> t == NatToString(days) + "天"
    ensures days >= 365 && days % 365 == 0 ==> t == NatToString(days / 365) + "年"
  {
    if days >= 365 then
      var years := days / 365;
      var rest := days % 365;
      if rest > 0 then NatToString(years) + "年" + NatToString(rest) + "天"
      else NatToString(years) + "年"
    else NatToString(days) + "天"
  }

  /** Reads a registration text back into days. */
  function ParseRegistrationText(t: string): Option<nat> {
    match IndexOf(t, '年')
    case None =>
      if |t| > 1 && t[|t| - 1] == '天' && IsDigits(t[..|t| - 1]) then Some(DigitsValue(t[..|t| - 1])) else None
    case Some(k) =>
      var years := t[..k];
      var rest := t[k + 1..];
      if !IsDigits(years) then None
      else if rest == "" then Some(DigitsValue(years) * 365)
      else if |rest| > 1 && rest[|rest| - 1] == '天' && IsDigits(rest[..|rest| - 1])
      then Some(DigitsValue(years) * 365 + DigitsValue(rest[..|rest| - 1]))
      else None
  }

  /** The registration text loses nothing: reading it back gives the days. */
  lemma RegistrationTextRoundTrip(days: nat)
    ensures ParseRegistrationText(RegistrationText(days)) == Some(days)
  {
    if days < 365 {
      NatToStringRoundTrip(days);
      DaysTextRead(NatToString(days));
    } else if days % 365 == 0 {
      WholeYearsRoundTrip(days);
    } else {
      YearsAndDaysRoundTrip(days);
    }
  }

  lemma WholeYearsRoundTrip(days: nat)
    requires days >= 365 && days % 365 == 0
    ensures ParseRegistrationText(RegistrationText(days)) == Some(days)
  {
    var ys := NatToString(days / 365);
    NatToStringRoundTrip(days / 365);
    assert RegistrationText(days) == ys + "年" + "";
    YearsTextRead(ys);
  }

  lemma YearsAndDaysRoundTrip(days: nat)
    requires days >= 365 && days % 365 > 0
    ensures ParseRegistrationText(RegistrationText(days)) == Some(days)
  {
    var ys := NatToString(days / 365);
    var ds := NatToString(days % 365);
    NatToStringRoundTrip(days / 365);
    NatToStringRoundTrip(days % 365);
    assert RegistrationText(days) == ys + "年" + (ds + "天");
    YearsDaysTextRead(ys, ds);
  }

  /** "<digits>年<rest>" splits at its first '年' into the digits and the rest. */
  lemma YearsSplit(ys: string, rest: string)
    requires IsDigits(ys)
    ensures var t := ys + "年" + rest;
            IndexOf(t, '年') == Some(|ys|) && t[..|ys|] == ys && t[|ys| + 1..] == rest
  {
    var t := ys + "年" + rest;
    assert '年' !in ys by {
      forall i | 0 <= i < |ys| ensures ys[i] != '年' { assert IsDigitChar(ys[i]); }
    }
    assert t[|ys|] == '年';
    assert t[..|ys|] == ys;
    IndexOfIsFirst(t, '年', |ys|);
  }

  /** "<digits>年" reads as that many years. */
  lemma YearsTextRead(ys: string)
    requires IsDigits(ys)
    ensures ParseRegistrationText(ys + "年" + "") == Some(DigitsValue(ys) * 365)
  {
    YearsSplit(ys, "");
  }

  /** "<digits>年<digits>天" reads as those years and days. */
  lemma YearsDaysTextRead(ys: string, ds: string)
    requires IsDigits(ys) && IsDigits(ds)
    ensures var r := ParseRegistrationText(ys + "年" + (ds + "天"));
            r.Some? && r.value == DigitsValue(ys) * 365 + DigitsValue(ds)
  {
    var rest := ds + "天";
    YearsSplit(ys, rest);
    assert rest[..|rest| - 1] == ds;
    ReadYearsAndDays(ys + "年" + rest, |ys|);
  }

  /** A text whose first '年' follows digits, and is followed by digits and '天', reads
      as those years and days. */
  lemma ReadYearsAndDays(t: string, k: nat)
    requires IndexOf(t, '年') == Some(k) && IsDigits(t[..k])
    requires var rest := t[k + 1..]; |rest| > 1 && rest[|rest| - 1] == '天' && IsDigits(rest[..|rest| - 1])
    ensures var rest := t[k + 1..];
            var r := ParseRegistrationText(t);
            r.Some? && r.value == DigitsValue(t[..k]) * 365 + DigitsValue(rest[..|rest| - 1])
  {
  }

  /** "<digits>天" reads as that many days. */
  lemma DaysTextRead(ds: string)
    requires IsDigits(ds)
    ensures ParseRegistrationText(ds + "天") == Some(DigitsValue(ds))
  {
    var t := ds + "天";
    assert '年' !in t by {
      forall i | 0 <= i < |t| ensures t[i] != '年' {
        if i < |ds| { assert IsDigitChar(ds[i]); }
      }
    }
    assert t[..|t| - 1] == ds;
  }

  /** 730 days is shown as exactly two years. */
  lemma RegistrationTextTwoYears()
    ensures RegistrationText(730) == "2年"
  {
  }

  datatype Reputation = Reputation(
    registrationDays: nat,
    registrationText: string,
    sellerTotal: nat,
    sellerRate: real,
    totalTransactions: nat,
    reputationScore: real)

  /** The weighted score: 40% positive rate, 30% transactions (saturating at 1000) and
      30% age (saturating at 3650 days), out of 100; 0 for a seller without ratings. */
  function CalculateReputation(ratings: Ratings, registrationDays: nat): (r: Reputation)
    ensures ratings.sellerTotal == 0 ==> r.reputationScore == 0.0
    ensures 0.0 <= ratings.sellerRate <= 100.0 ==> 0.0 <= r.reputationScore <= 100.0
    ensures r.registrationText == RegistrationText(registrationDays)
    ensures r.registrationDays == registrationDays && r.sellerTotal == ratings.sellerTotal
    ensures r.sellerRate == ratings.sellerRate && r.totalTransactions == ratings.totalTransactions
  {
    var score :=
      if ratings.sellerTotal > 0 then
        var normalizedRate := ratings.sellerRate / 100.0;
        var normalizedTransactions := MinReal(ratings.totalTransactions as real / 1000.0, 1.0);
        var normalizedRegistration := MinReal(registrationDays as real / 3650.0, 1.0);
        (normalizedRate * 0.4 + normalizedTransactions * 0.3 + normalizedRegistration * 0.3) * 100.0
      else 0.0;
    Reputation(registrationDays, RegistrationText(registrationDays), ratings.sellerTotal,
               ratings.sellerRate, ratings.totalTransactions, score)
  }

  function MinReal(a: real, b: real): real {
    if a <= b then a else b
  }

  /** A seller rated all positive, with at least 1000 transactions and ten years of
      age, scores the full 100. */
  lemma FullReputation(ratings: Ratings, registrationDays: nat)
    requires ratings.sellerTotal > 0 && ratings.sellerRate == 100.0
    requires ratings.totalTransactions >= 1000 && registrationDays >= 3650
    ensures CalculateReputation(ratings, registrationDays).reputationScore == 100.0
  {
  }
}
