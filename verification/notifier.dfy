/** Delivery of one matching listing: a Discord direct message carrying an embed, then
    the optional push channels. The Discord client and the channel requests are
    parameters; only the decisions taken on their outcomes are modelled. */
module Notifier {
  import opened Wrappers
  import opened Text
  import opened Models
  import opened Notifications
  import Parsers
  import Parser

  const TitleLimit: nat := 256
  const ReasonLimit: nat := 100
  const TagLimit: nat := 5
  const DaysPerYear: nat := 365
  /** The original-price text the site shows when there is none. */
  const NoOriginalPrice: string := "暂无"
  const UnknownLocation: string := "Unknown"

  /** The value of an embed field. Number formatting is kept symbolic. */
  datatype FieldValue =
    | Plain(text: string)
    /** `¥` and the amount with thousands separators and two decimals, then
        ` (原价: <original>)` when an original price is given. */
    | Price(amount: real, original: Option<string>)
    /** A fraction shown as a whole percentage. */
    | Percent(fraction: real)
    /** A number shown without decimals. */
    | Whole(value: real)

  datatype EmbedField = EmbedField(name: string, value: FieldValue, inline: bool)

  datatype Embed = Embed(title: string, url: string, fields: seq<EmbedField>, thumbnail: Option<string>, footer: string)

  predicate HasField(e: Embed, name: string) {
    exists f <- e.fields :: f.name == name
  }

  /** The original price is shown when it is a non-empty text other than the site's
      "none" marker. */
  function PriceField(l: Listing): (v: FieldValue)
    ensures v.Price? && v.amount == l.price
    ensures v.original.Some? <==> l.originalPrice.Some? && l.originalPrice.value != "" && l.originalPrice.value != NoOriginalPrice
    ensures v.original.Some? ==> v.original == l.originalPrice
  {
    match l.originalPrice
    case Some(o) => if o != "" && o != NoOriginalPrice then Price(l.price, Some(o)) else Price(l.price, None)
    case None => Price(l.price, None)
  }

  /** The seller's age as shown in the embed: days below a year, otherwise whole years
      with the remaining days dropped. */
  function RegistrationShort(days: nat): (t: string)
    requires days > 0
  {
    if days >= DaysPerYear then NatToString(days / DaysPerYear) + "年"
    else NatToString(days) + "天"
  }

  /** The embed's short age agrees with the full registration text exactly when no days
      are dropped: under a year, or a whole number of years. */
  lemma RegistrationShortMatchesText(days: nat)
    requires days > 0
    ensures RegistrationShort(days) == Parsers.RegistrationText(days) <==> days < DaysPerYear || days % DaysPerYear == 0
  {
    if days >= DaysPerYear && days % DaysPerYear != 0 {
      var rest := NatToString(days % DaysPerYear);
      assert |rest| > 0;
      assert |Parsers.RegistrationText(days)| > |RegistrationShort(days)|;
    }
  }

  /** The short age reads back as the days under a year, and as the whole years' days
      from a year on. */
  lemma RegistrationShortReadsBack(days: nat)
    requires days > 0
    ensures Parsers.ParseRegistrationText(RegistrationShort(days))
         == Some(if days < DaysPerYear then days else days - days % DaysPerYear)
  {
    if days >= DaysPerYear {
      var whole := days - days % DaysPerYear;
      assert whole / DaysPerYear == days / DaysPerYear && whole % DaysPerYear == 0 && whole >= DaysPerYear;
      RegistrationShortMatchesText(whole);
      Parsers.RegistrationTextRoundTrip(whole);
    } else {
      RegistrationShortMatchesText(days);
      Parsers.RegistrationTextRoundTrip(days);
    }
  }

  /** An optional embed field and whether it is added. */
  datatype Candidate = Candidate(shown: bool, field: EmbedField)

  /** The fields of the candidates that are added, in order. */
  function Shown(cs: seq<Candidate>): (fs: seq<EmbedField>)
    ensures |fs| <= |cs|
    ensures forall f <- fs :: exists c <- cs :: c.shown && c.field == f
    ensures (forall c <- cs :: !c.shown) ==> fs == []
  {
    if |cs| == 0 then []
    else
      var rest := Shown(cs[1..]);
      assert forall c <- cs[1..] :: c in cs;
      if cs[0].shown then [cs[0].field] + rest else rest
  }

  /** Among candidates with distinct names, a name is among the added fields exactly when
      its candidate is shown. */
  lemma {:induction false} ShownHasName(cs: seq<Candidate>, i: nat)
    requires i < |cs|
    requires forall j, k :: 0 <= j < k < |cs| ==> cs[j].field.name != cs[k].field.name
    ensures (exists f <- Shown(cs) :: f.name == cs[i].field.name) <==> cs[i].shown
    decreases |cs|
  {
    if i == 0 {
      if cs[0].shown {
        assert Shown(cs)[0] == cs[0].field;
      }
    } else {
      ShownHasName(cs[1..], i - 1);
      assert cs[1..][i - 1] == cs[i];
      if cs[0].shown {
        assert Shown(cs) == [cs[0].field] + Shown(cs[1..]);
      }
    }
  }

  /** The seven optional fields, in the order they are added. */
  function OptionalFields(l: Listing, confidence: Option<real>, reason: Option<string>): (cs: seq<Candidate>)
    ensures |cs| == 7
    ensures forall j, k :: 0 <= j < k < |cs| ==> cs[j].field.name != cs[k].field.name
  {
    var days := l.sellerRegistrationDays;
    var cs := [
      Candidate(l.wantsCount.Some?,
        EmbedField("Want Count", Plain(IntToString(l.wantsCount.GetOr(0)) + "人想要"), true)),
      Candidate(confidence.Some?, EmbedField("AI Confidence", Percent(confidence.GetOr(0.0)), true)),
      Candidate(reason.Some? && reason.value != "",
        EmbedField("AI Reason", Plain(Take(reason.GetOr(""), ReasonLimit)), false)),
      Candidate(days > 0,
        EmbedField("Seller Registration", Plain(if days > 0 then RegistrationShort(days) else ""), true)),
      Candidate(l.sellerRating > 0.0, EmbedField("Seller Rating", Percent(l.sellerRating), true)),
      Candidate(l.reputationScore > 0.0, EmbedField("Reputation Score", Whole(l.reputationScore), true)),
      Candidate(|l.tags| > 0, EmbedField("Tags", Plain(JoinWith(Take(l.tags, TagLimit), ", ")), false))];
    assert cs[0].field.name[0] == 'W' && cs[1].field.name[3] == 'C' && cs[2].field.name[3] == 'R';
    assert cs[3].field.name[7] == 'R' && |cs[3].field.name| == 19 && cs[4].field.name[8] == 'a';
    assert cs[5].field.name[0] == 'R' && cs[6].field.name[0] == 'T';
    cs
  }

  /** The three fields every embed starts with. */
  function FixedFields(l: Listing, q: Query): (fs: seq<EmbedField>)
    ensures |fs| == 3 && fs[0].name == "Price" && fs[1].name == "Location" && fs[2].name == "Query"
  {
    [EmbedField("Price", PriceField(l), true),
     EmbedField("Location", Plain(if l.location == "" then UnknownLocation else l.location), true),
     EmbedField("Query", Plain("#" + IntToString(q.id) + ": " + q.keyword), true)]
  }

  /** The embed for a listing: the title cut to 256 characters and linked to the listing,
      price, location and query always shown, then the optional fields that apply, a
      thumbnail when there is an image and the seller in the footer. */
  function BuildEmbed(l: Listing, q: Query, confidence: Option<real>, reason: Option<string>): (e: Embed)
    ensures |e.title| <= TitleLimit && |e.title| <= |l.title| && e.title == l.title[..|e.title|]
    ensures e.title == l.title <==> |l.title| <= TitleLimit
    ensures e.url == l.detailUrl
    ensures 3 <= |e.fields| <= 10
    ensures e.fields[0] == EmbedField("Price", PriceField(l), true)
    ensures e.fields[1] == EmbedField("Location", Plain(if l.location == "" then UnknownLocation else l.location), true)
    ensures e.fields[2].name == "Query"
    ensures e.thumbnail.Some? <==> l.imageUrl != ""
    ensures e.thumbnail.Some? ==> e.thumbnail.value == l.imageUrl
    ensures e.footer == "Seller: " + l.sellerName
  {
    Embed(Take(l.title, TitleLimit), l.detailUrl,
          FixedFields(l, q) + Shown(OptionalFields(l, confidence, reason)),
          if l.imageUrl != "" then Some(l.imageUrl) else None,
          "Seller: " + l.sellerName)
  }

  /** Each optional field appears exactly when its value is present (or, for the
      reason, non-empty; for the numbers, positive). */
  lemma EmbedOptionalFields(l: Listing, q: Query, confidence: Option<real>, reason: Option<string>)
    ensures var e := BuildEmbed(l, q, confidence, reason);
            (HasField(e, "Want Count") <==> l.wantsCount.Some?) &&
            (HasField(e, "AI Confidence") <==> confidence.Some?) &&
            (HasField(e, "AI Reason") <==> reason.Some? && reason.value != "") &&
            (HasField(e, "Seller Registration") <==> l.sellerRegistrationDays > 0) &&
            (HasField(e, "Seller Rating") <==> l.sellerRating > 0.0) &&
            (HasField(e, "Reputation Score") <==> l.reputationScore > 0.0) &&
            (HasField(e, "Tags") <==> |l.tags| > 0)
  {
    var cs := OptionalFields(l, confidence, reason);
    var e := BuildEmbed(l, q, confidence, reason);
    forall i | 0 <= i < 7
      ensures HasField(e, cs[i].field.name) <==> cs[i].shown
    {
      OptionalHasName(l, q, confidence, reason, i);
    }
    assert cs[0].field.name == "Want Count";
    assert cs[1].field.name == "AI Confidence";
    assert cs[2].field.name == "AI Reason";
    assert cs[3].field.name == "Seller Registration";
    assert cs[4].field.name == "Seller Rating";
    assert cs[5].field.name == "Reputation Score";
    assert cs[6].field.name == "Tags";
  }

  lemma OptionalHasName(l: Listing, q: Query, confidence: Option<real>, reason: Option<string>, i: nat)
    requires i < 7
    ensures var cs := OptionalFields(l, confidence, reason);
            HasField(BuildEmbed(l, q, confidence, reason), cs[i].field.name) <==> cs[i].shown
  {
    var cs := OptionalFields(l, confidence, reason);
    var fixed := FixedFields(l, q);
    var e := BuildEmbed(l, q, confidence, reason);
    OptionalNamesNotFixed(l, confidence, reason, i);
    assert e.fields == fixed + Shown(cs);
    FixedThenShown(fixed, cs, i);
  }

  /** No optional field is named like one of the fixed fields. */
  lemma OptionalNamesNotFixed(l: Listing, confidence: Option<real>, reason: Option<string>, i: nat)
    requires i < 7
    ensures var name := OptionalFields(l, confidence, reason)[i].field.name;
            name != "Price" && name != "Location" && name != "Query"
  {
    var name := OptionalFields(l, confidence, reason)[i].field.name;
    assert name[0] != 'P' && name[0] != 'L' && name[0] != 'Q';
  }

  /** Behind fields of other names, a candidate's name is present exactly when it is
      shown. */
  lemma FixedThenShown(fixed: seq<EmbedField>, cs: seq<Candidate>, i: nat)
    requires i < |cs|
    requires forall j, k :: 0 <= j < k < |cs| ==> cs[j].field.name != cs[k].field.name
    requires forall f <- fixed :: f.name != cs[i].field.name
    ensures (exists f <- fixed + Shown(cs) :: f.name == cs[i].field.name) <==> cs[i].shown
  {
    ShownHasName(cs, i);
    var all := fixed + Shown(cs);
    assert forall f <- all :: f in fixed || f in Shown(cs);
    assert forall f <- Shown(cs) :: f in all;
  }

  /** The AI reason is shown cut to 100 characters, on its own line. */
  lemma ReasonFieldCut(l: Listing, q: Query, confidence: Option<real>, reason: string)
    requires reason != ""
    ensures EmbedField("AI Reason", Plain(Take(reason, ReasonLimit)), false) in BuildEmbed(l, q, confidence, Some(reason)).fields
    ensures |Take(reason, ReasonLimit)| == Min(|reason|, ReasonLimit)
  {
    var cs := OptionalFields(l, confidence, Some(reason));
    ShownContains(cs, 2);
  }

  /** The tags are shown as the first five at most, joined with commas, on their own
      line. */
  lemma TagsFieldCut(l: Listing, q: Query, confidence: Option<real>, reason: Option<string>)
    requires |l.tags| > 0
    ensures EmbedField("Tags", Plain(JoinWith(Take(l.tags, TagLimit), ", ")), false) in BuildEmbed(l, q, confidence, reason).fields
    ensures |Take(l.tags, TagLimit)| == Min(|l.tags|, TagLimit) && Take(l.tags, TagLimit) == l.tags[..Min(|l.tags|, TagLimit)]
  {
    var cs := OptionalFields(l, confidence, reason);
    ShownContains(cs, 6);
  }

  lemma {:induction false} ShownContains(cs: seq<Candidate>, i: nat)
    requires i < |cs| && cs[i].shown
    ensures cs[i].field in Shown(cs)
    decreases |cs|
  {
    if i > 0 {
      ShownContains(cs[1..], i - 1);
      assert cs[1..][i - 1] == cs[i];
    }
  }

  /** A listing straight from the search feed, without AI data, carries only the three
      fixed fields. */
  lemma PlainListingEmbed(raw: RawListing, q: Query)
    ensures |BuildEmbed(Parser.NormalizeListing(raw), q, None, None).fields| == 3
  {
    var cs := OptionalFields(Parser.NormalizeListing(raw), None, None);
    assert forall c <- cs :: !c.shown;
  }

  /** How looking up the Discord user went. */
  datatype UserLookup = UserFound | UserMissing | UserNotFound | LookupRaised(message: string)

  /** How sending the direct message went: delivered, refused by the user's privacy
      settings, another HTTP error, or an exception the sender does not catch. */
  datatype DmDelivery = DmSent | DmForbidden | DmHttpError(message: string) | DmRaised(message: string)

  /** `_send_discord_dm`: no embed and `False` when the user cannot be obtained; otherwise
      the embed is built and sent, `True` on delivery and `False` on a refused or failed
      request. Any other exception from the send propagates. */
  function SendDiscordDm(l: Listing, q: Query, confidence: Option<real>, reason: Option<string>,
                         lookup: UserLookup, delivery: DmDelivery): (r: Result<(Option<Embed>, bool)>)
    ensures !lookup.UserFound? ==> r == Success((None, false))
    ensures r.Failure? <==> lookup.UserFound? && delivery.DmRaised?
    ensures r.Success? ==> (r.value.1 <==> lookup.UserFound? && delivery.DmSent?)
    ensures r.Success? && lookup.UserFound? ==> r.value.0 == Some(BuildEmbed(l, q, confidence, reason))
  {
    if !lookup.UserFound? then Success((None, false))
    else
      var embed := BuildEmbed(l, q, confidence, reason);
      match delivery
      case DmSent => Success((Some(embed), true))
      case DmForbidden => Success((Some(embed), false))
      case DmHttpError(_) => Success((Some(embed), false))
      case DmRaised(m) => Failure(m)
  }

  /** The record handed to every push channel: the listing's full fields, the price also
      as display text. */
  function ProductData(l: Listing): (d: map<string, PValue>)
    ensures d.Keys == {"title", "price", "price_str", "location", "detail_url", "image_url",
                       "seller_name", "seller_rating", "wants_count", "tags"}
  {
    map["title" := PText(l.title),
        "price" := PNumber(l.price),
        "price_str" := PMoney(l.price),
        "location" := PText(l.location),
        "detail_url" := PText(l.detailUrl),
        "image_url" := PText(l.imageUrl),
        "seller_name" := PText(l.sellerName),
        "seller_rating" := PNumber(l.sellerRating),
        "wants_count" := PCount(l.wantsCount),
        "tags" := PTags(l.tags)]
  }

  /** What a push channel shows: the full title (not cut like the embed's), the display
      price, the listing link, and the reason or an empty text. */
  lemma ChannelMessage(l: Listing, reason: Option<string>)
    ensures FormatMessage(ProductData(l), reason.GetOr(""))
         == map["title" := PText(l.title), "price" := PMoney(l.price), "link" := PText(l.detailUrl),
                "reason" := PText(reason.GetOr(""))]
  {
  }

  /** The result of `send_listing`: the embed that was sent (if any), whether the direct
      message went out, and the per-channel results. */
  datatype Dispatch = Dispatch(embed: Option<Embed>, dmOk: bool, channels: map<string, bool>)

  /** `send_listing`: the direct message first, then every enabled push channel whatever
      the direct message did. Only an uncaught exception from the direct message stops
      the push channels from being tried. */
  function SendListing(l: Listing, q: Query, confidence: Option<real>, reason: Option<string>,
                       lookup: UserLookup, delivery: DmDelivery,
                       m: Manager, outcome: Channel -> ChannelOutcome): (r: Result<Dispatch>)
    requires m.Valid()
    ensures r.Failure? <==> lookup.UserFound? && delivery.DmRaised?
    ensures r.Success? ==> r.value.channels == SendToAll(m, outcome)
    ensures r.Success? ==> (r.value.dmOk <==> lookup.UserFound? && delivery.DmSent?)
  {
    var (embed, ok) :- SendDiscordDm(l, q, confidence, reason, lookup, delivery);
    Success(Dispatch(embed, ok, SendToAll(m, outcome)))
  }

  /** The push channels receive the same results whether or not the direct message went
      out. */
  lemma ChannelsIndependentOfDm(l: Listing, q: Query, confidence: Option<real>, reason: Option<string>,
                                lookup1: UserLookup, delivery1: DmDelivery,
                                lookup2: UserLookup, delivery2: DmDelivery,
                                m: Manager, outcome: Channel -> ChannelOutcome)
    requires m.Valid()
    requires !delivery1.DmRaised? && !delivery2.DmRaised?
    ensures SendListing(l, q, confidence, reason, lookup1, delivery1, m, outcome).Success?
    ensures SendListing(l, q, confidence, reason, lookup1, delivery1, m, outcome).value.channels
         == SendListing(l, q, confidence, reason, lookup2, delivery2, m, outcome).value.channels
  {
  }
}
