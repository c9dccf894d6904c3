/**
 * The token-creation form of `src/components/TokenCreationForm.tsx`: the
 * `tokenFormSchema` record validator, the symbol upper-casing, which fields
 * each token mode shows, and the creation-cost total.
 * Numbers are `real`; whether a string is a URL is a parameter `isUrl`.
 */
module TokenForm {
  import opened Wrappers
  import Text

  datatype SocialLinks = SocialLinks(twitter: Option<string>, website: Option<string>, discord: Option<string>)

  /** The form's values as the schema sees them; `mode` and `curveType` come in as text. */
  datatype Values = Values(
    name: string,
    symbol: string,
    description: string,
    mode: string,
    totalSupply: Option<real>,
    basePrice: real,
    curveType: Option<string>,
    royaltyPercent: real,
    socialLinks: SocialLinks,
    enableNftIntegration: bool,
    seedLiquidity: Option<real>)

  /** The schema's fields that carry a rule, in the order the schema lists them. */
  datatype Field = Name | Symbol | Description | Mode | BasePrice | CurveType | RoyaltyPercent
                 | Twitter | Website | Discord | SeedLiquidity

  predicate ModeOk(mode: string) {
    mode == "curve" || mode == "fixed" || mode == "amm"
  }

  predicate CurveTypeOk(curveType: Option<string>) {
    curveType.None? || curveType.value == "linear" || curveType.value == "exponential"
      || curveType.value == "logarithmic"
  }

  /** `z.string().url().optional().or(z.literal(""))`. */
  predicate LinkOk(link: Option<string>, isUrl: string -> bool) {
    link.None? || link.value == "" || isUrl(link.value)
  }

  /** The rule the schema attaches to one field. `totalSupply` and the NFT switch carry none. */
  predicate RuleHolds(v: Values, f: Field, isUrl: string -> bool) {
    match f
    case Name => 2 <= |v.name| <= 50
    case Symbol => 2 <= |v.symbol| <= 10
    case Description => 10 <= |v.description| <= 500
    case Mode => ModeOk(v.mode)
    case BasePrice => v.basePrice >= 0.001
    case CurveType => CurveTypeOk(v.curveType)
    case RoyaltyPercent => 0.0 <= v.royaltyPercent <= 10.0
    case Twitter => LinkOk(v.socialLinks.twitter, isUrl)
    case Website => LinkOk(v.socialLinks.website, isUrl)
    case Discord => LinkOk(v.socialLinks.discord, isUrl)
    case SeedLiquidity => v.seedLiquidity.None? || v.seedLiquidity.value >= 0.0
  }

  const AllFields: seq<Field> :=
    [Name, Symbol, Description, Mode, BasePrice, CurveType, RoyaltyPercent,
     Twitter, Website, Discord, SeedLiquidity]

  lemma AllFieldsListed()
    ensures forall f :: f in AllFields
  {
    forall f: Field ensures f in AllFields {
      match f
      case Name => case Symbol => case Description => case Mode => case BasePrice =>
      case CurveType => case RoyaltyPercent => case Twitter => case Website =>
      case Discord => case SeedLiquidity =>
    }
  }

  /** The fields whose rule fails, in schema order. */
  function FailingAmong(v: Values, fields: seq<Field>, isUrl: string -> bool): (r: seq<Field>)
    ensures |r| <= |fields|
  {
    if fields == [] then []
    else (if RuleHolds(v, fields[0], isUrl) then [] else [fields[0]])
         + FailingAmong(v, fields[1..], isUrl)
  }

  /** A field is reported exactly when it is among those checked and its rule fails. */
  lemma {:induction false} FailingAmongIff(v: Values, fields: seq<Field>, isUrl: string -> bool)
    ensures forall f :: f in FailingAmong(v, fields, isUrl) <==> f in fields && !RuleHolds(v, f, isUrl)
  {
    if fields != [] {
      FailingAmongIff(v, fields[1..], isUrl);
      assert forall f :: f in fields <==> f == fields[0] || f in fields[1..];
    }
  }

  /** The issues `safeParse` reports: exactly the fields whose rule fails. */
  function Issues(v: Values, isUrl: string -> bool): (r: seq<Field>)
    ensures forall f :: f in r <==> !RuleHolds(v, f, isUrl)
  {
    FailingAmongIff(v, AllFields, isUrl);
    AllFieldsListed();
    FailingAmong(v, AllFields, isUrl)
  }

  /** Accepted values: every rule holds. */
  predicate Valid(v: Values, isUrl: string -> bool) {
    forall f :: RuleHolds(v, f, isUrl)
  }

  /** `tokenFormSchema.safeParse`: the values with the symbol upper-cased, or the failing fields. */
  function Parse(v: Values, isUrl: string -> bool): (r: Result<Values, seq<Field>>)
    ensures r.Ok? <==> Valid(v, isUrl)
    ensures r.Ok? ==> r.value == v.(symbol := Text.Upper(v.symbol))
    ensures r.Err? ==> r.error != [] && forall f :: f in r.error <==> !RuleHolds(v, f, isUrl)
  {
    var issues := Issues(v, isUrl);
    if issues == [] then Ok(v.(symbol := Text.Upper(v.symbol)))
    else
      assert issues[0] in issues;
      Err(issues)
  }

  /** The whole schema, rule by rule, with its bounds written out. */
  lemma ValidIff(v: Values, isUrl: string -> bool)
    ensures Valid(v, isUrl) <==>
      && 2 <= |v.name| <= 50
      && 2 <= |v.symbol| <= 10
      && 10 <= |v.description| <= 500
      && (v.mode == "curve" || v.mode == "fixed" || v.mode == "amm")
      && v.basePrice >= 0.001
      && (v.curveType.None? || v.curveType.value in {"linear", "exponential", "logarithmic"})
      && 0.0 <= v.royaltyPercent <= 10.0
      && (v.socialLinks.twitter.None? || v.socialLinks.twitter.value == "" || isUrl(v.socialLinks.twitter.value))
      && (v.socialLinks.website.None? || v.socialLinks.website.value == "" || isUrl(v.socialLinks.website.value))
      && (v.socialLinks.discord.None? || v.socialLinks.discord.value == "" || isUrl(v.socialLinks.discord.value))
      && (v.seedLiquidity.None? || v.seedLiquidity.value >= 0.0)
  {
    if Valid(v, isUrl) {
      assert RuleHolds(v, Name, isUrl) && RuleHolds(v, Symbol, isUrl);
      assert RuleHolds(v, Description, isUrl) && RuleHolds(v, Mode, isUrl);
      assert RuleHolds(v, BasePrice, isUrl) && RuleHolds(v, CurveType, isUrl);
      assert RuleHolds(v, RoyaltyPercent, isUrl) && RuleHolds(v, Twitter, isUrl);
      assert RuleHolds(v, Website, isUrl) && RuleHolds(v, Discord, isUrl);
      assert RuleHolds(v, SeedLiquidity, isUrl);
    } else {
      var f :| !RuleHolds(v, f, isUrl);
    }
  }

  /** `totalSupply` and the NFT switch never cause a rejection. */
  lemma UnconstrainedFields(v: Values, supply: Option<real>, nft: bool, isUrl: string -> bool)
    ensures Parse(v.(totalSupply := supply, enableNftIntegration := nft), isUrl).Ok?
        <==> Parse(v, isUrl).Ok?
  {
    var w := v.(totalSupply := supply, enableNftIntegration := nft);
    assert forall f :: RuleHolds(w, f, isUrl) == RuleHolds(v, f, isUrl);
  }

  /** The symbol input's `onChange`: every keystroke stores the upper-cased text. */
  function OnSymbolInput(typed: string): (stored: string)
    ensures |stored| == |typed| && Text.IsUpperCase(stored)
    ensures forall i :: 0 <= i < |typed| ==> stored[i] == Text.UpperChar(typed[i])
  {
    Text.UpperNormalises(typed);
    Text.Upper(typed)
  }

  /** A symbol that came through the input is accepted unchanged by the schema's upper-casing. */
  lemma TypedSymbolKept(v: Values, typed: string, isUrl: string -> bool)
    requires v.symbol == OnSymbolInput(typed)
    requires Valid(v, isUrl)
    ensures Parse(v, isUrl) == Ok(v)
  {
    Text.UpperNormalises(typed);
  }

  /** The Total Supply field is shown only in fixed mode. */
  predicate ShowsTotalSupply(mode: string) {
    mode == "fixed"
  }

  /** The Curve Type field is shown only in curve mode. */
  predicate ShowsCurveType(mode: string) {
    mode == "curve"
  }

  /** The Initial Liquidity field is shown in curve and amm mode. */
  predicate ShowsSeedLiquidity(mode: string) {
    mode == "amm" || mode == "curve"
  }

  /** For each accepted mode: fixed shows only the supply; curve shows curve type and liquidity; amm only liquidity. */
  lemma VisibilityByMode(mode: string)
    requires ModeOk(mode)
    ensures ShowsTotalSupply(mode) <==> !ShowsSeedLiquidity(mode)
    ensures ShowsCurveType(mode) ==> ShowsSeedLiquidity(mode) && !ShowsTotalSupply(mode)
    ensures mode == "amm" <==> ShowsSeedLiquidity(mode) && !ShowsCurveType(mode)
  {
  }

  /** The form's `defaultValues`. */
  const Defaults: Values := Values(
    "", "", "", "curve", None, 0.01, Some("exponential"), 2.5,
    SocialLinks(Some(""), Some(""), Some("")), false, Some(10.0))

  /** The defaults meet every enum, numeric and link rule. */
  lemma DefaultsMeetOtherRules(isUrl: string -> bool)
    ensures forall f :: f !in {Name, Symbol, Description} ==> RuleHolds(Defaults, f, isUrl)
  {
    assert forall f :: f !in {Name, Symbol, Description} ==> RuleHolds(Defaults, f, isUrl) by {
      forall f | f !in {Name, Symbol, Description} ensures RuleHolds(Defaults, f, isUrl) {
        match f
        case Mode =>
        case BasePrice => assert Defaults.basePrice == 0.01;
        case CurveType =>
        case RoyaltyPercent =>
        case Twitter =>
        case Website =>
        case Discord =>
        case SeedLiquidity =>
      }
    }
  }

  /** So the defaults cannot be submitted unchanged: the issues are exactly the three text fields. */
  lemma DefaultsReported(isUrl: string -> bool)
    ensures Parse(Defaults, isUrl).Err?
    ensures forall f :: f in Parse(Defaults, isUrl).error <==> f in {Name, Symbol, Description}
  {
    DefaultsMeetOtherRules(isUrl);
    assert !RuleHolds(Defaults, Name, isUrl);
  }

  const PlatformFee: real := 0.1
  const GasFee: real := 0.01

  /** The Initial Liquidity line is shown when the seed liquidity is set and not zero. */
  predicate ShowsLiquidityLine(seed: Option<real>) {
    seed.Some? && seed.value != 0.0
  }

  /** `0.11 + (seedLiquidity || 0)`. */
  function CreationCost(seed: Option<real>): (total: real)
    ensures total == PlatformFee + GasFee + (if ShowsLiquidityLine(seed) then seed.value else 0.0)
  {
    0.11 + seed.GetOr(0.0)
  }

  /** For an accepted form the total is at least the fixed fees, and exceeds them exactly when liquidity is shown. */
  lemma CostOfValidForm(v: Values, isUrl: string -> bool)
    requires Valid(v, isUrl)
    ensures CreationCost(v.seedLiquidity) >= 0.11
    ensures CreationCost(v.seedLiquidity) > 0.11 <==> ShowsLiquidityLine(v.seedLiquidity)
  {
    assert RuleHolds(v, SeedLiquidity, isUrl);
  }

  /** In fixed mode the liquidity field is hidden, yet the default seed liquidity still enters the total. */
  lemma HiddenLiquidityCounted()
    ensures !ShowsSeedLiquidity(Defaults.(mode := "fixed").mode)
    ensures CreationCost(Defaults.(mode := "fixed").seedLiquidity) == 10.11
  {
  }
}
