/** The shared vocabulary of the ad generator: the three closed enumerations
    with their fixed string identifiers, the form record and one generated ad. */
module AdTypes {
  import opened Wrappers

  /** Target platform of a campaign, in declaration order. */
  datatype Platform = Instagram | Facebook | GoogleAds | Website | Email | LinkedIn | Twitter | TikTok

  /** Tone of voice, in declaration order. */
  datatype Tone = Professional | Friendly | Bold | Emotional | Fun | Luxury | Urgent

  /** Call to action, in declaration order. */
  datatype CallToAction = ShopNow | LearnMore | SignUp | BookNow | LimitedOffer | ContactUs | Subscribe

  /** The string value each enum member stands for. */
  function PlatformId(p: Platform): string {
    match p
    case Instagram => "Instagram"
    case Facebook => "Facebook"
    case GoogleAds => "Google Ads"
    case Website => "Website Landing Page"
    case Email => "Email Marketing"
    case LinkedIn => "LinkedIn"
    case Twitter => "Twitter / X"
    case TikTok => "TikTok"
  }

  function ToneId(t: Tone): string {
    match t
    case Professional => "Professional"
    case Friendly => "Friendly"
    case Bold => "Bold"
    case Emotional => "Emotional"
    case Fun => "Fun"
    case Luxury => "Luxury"
    case Urgent => "Urgent"
  }

  function CallToActionId(c: CallToAction): string {
    match c
    case ShopNow => "Shop Now"
    case LearnMore => "Learn More"
    case SignUp => "Sign Up"
    case BookNow => "Book Now"
    case LimitedOffer => "Get Limited Offer"
    case ContactUs => "Contact Us"
    case Subscribe => "Subscribe"
  }

  /** Every member of each enumeration, in declaration order (what
      `Object.values` yields for a string enum). */
  const AllPlatforms: seq<Platform> := [Instagram, Facebook, GoogleAds, Website, Email, LinkedIn, Twitter, TikTok]
  const AllTones: seq<Tone> := [Professional, Friendly, Bold, Emotional, Fun, Luxury, Urgent]
  const AllCallsToAction: seq<CallToAction> := [ShopNow, LearnMore, SignUp, BookNow, LimitedOffer, ContactUs, Subscribe]

  /** Reading a string back as an enum member: the member whose identifier it is. */
  function PlatformFromId(s: string): (r: Option<Platform>)
    ensures r.Some? ==> PlatformId(r.value) == s
    ensures forall p :: PlatformId(p) == s ==> r == Some(p)
  {
    if s == "Instagram" then Some(Instagram)
    else if s == "Facebook" then Some(Facebook)
    else if s == "Google Ads" then Some(GoogleAds)
    else if s == "Website Landing Page" then Some(Website)
    else if s == "Email Marketing" then Some(Email)
    else if s == "LinkedIn" then Some(LinkedIn)
    else if s == "Twitter / X" then Some(Twitter)
    else if s == "TikTok" then Some(TikTok)
    else None
  }

  function ToneFromId(s: string): (r: Option<Tone>)
    ensures r.Some? ==> ToneId(r.value) == s
    ensures forall t :: ToneId(t) == s ==> r == Some(t)
  {
    if s == "Professional" then Some(Professional)
    else if s == "Friendly" then Some(Friendly)
    else if s == "Bold" then Some(Bold)
    else if s == "Emotional" then Some(Emotional)
    else if s == "Fun" then Some(Fun)
    else if s == "Luxury" then Some(Luxury)
    else if s == "Urgent" then Some(Urgent)
    else None
  }

  function CallToActionFromId(s: string): (r: Option<CallToAction>)
    ensures r.Some? ==> CallToActionId(r.value) == s
    ensures forall c :: CallToActionId(c) == s ==> r == Some(c)
  {
    if s == "Shop Now" then Some(ShopNow)
    else if s == "Learn More" then Some(LearnMore)
    else if s == "Sign Up" then Some(SignUp)
    else if s == "Book Now" then Some(BookNow)
    else if s == "Get Limited Offer" then Some(LimitedOffer)
    else if s == "Contact Us" then Some(ContactUs)
    else if s == "Subscribe" then Some(Subscribe)
    else None
  }

  /** `Platform` has exactly eight members, listed once each, with pairwise distinct identifiers. */
  lemma PlatformsEnumerated()
    ensures |AllPlatforms| == 8
    ensures forall p :: p in AllPlatforms
    ensures forall i, j :: 0 <= i < j < |AllPlatforms| ==> PlatformId(AllPlatforms[i]) != PlatformId(AllPlatforms[j])
  {
    forall p ensures p in AllPlatforms {
      match p
      case Instagram => case Facebook => case GoogleAds => case Website =>
      case Email => case LinkedIn => case Twitter => case TikTok =>
    }
    forall i, j | 0 <= i < j < |AllPlatforms|
      ensures PlatformId(AllPlatforms[i]) != PlatformId(AllPlatforms[j])
    {
      assert PlatformFromId(PlatformId(AllPlatforms[i])) == Some(AllPlatforms[i]);
    }
  }

  /** `Tone` has exactly seven members, listed once each, with pairwise distinct identifiers. */
  lemma TonesEnumerated()
    ensures |AllTones| == 7
    ensures forall t :: t in AllTones
    ensures forall i, j :: 0 <= i < j < |AllTones| ==> ToneId(AllTones[i]) != ToneId(AllTones[j])
  {
    forall t ensures t in AllTones {
      match t
      case Professional => case Friendly => case Bold => case Emotional =>
      case Fun => case Luxury => case Urgent =>
    }
    forall i, j | 0 <= i < j < |AllTones|
      ensures ToneId(AllTones[i]) != ToneId(AllTones[j])
    {
      assert ToneFromId(ToneId(AllTones[i])) == Some(AllTones[i]);
    }
  }

  /** `CallToAction` has exactly seven members, listed once each, with pairwise distinct identifiers. */
  lemma CallsToActionEnumerated()
    ensures |AllCallsToAction| == 7
    ensures forall c :: c in AllCallsToAction
    ensures forall i, j :: 0 <= i < j < |AllCallsToAction| ==> CallToActionId(AllCallsToAction[i]) != CallToActionId(AllCallsToAction[j])
  {
    forall c ensures c in AllCallsToAction {
      match c
      case ShopNow => case LearnMore => case SignUp => case BookNow =>
      case LimitedOffer => case ContactUs => case Subscribe =>
    }
    forall i, j | 0 <= i < j < |AllCallsToAction|
      ensures CallToActionId(AllCallsToAction[i]) != CallToActionId(AllCallsToAction[j])
    {
      assert CallToActionFromId(CallToActionId(AllCallsToAction[i])) == Some(AllCallsToAction[i]);
    }
  }

  /** The campaign form: seven fields, three of them drawn from the enumerations. */
  datatype AdFormData = AdFormData(
    productName: string,
    industry: string,
    targetAudience: string,
    platform: Platform,
    tone: Tone,
    cta: CallToAction,
    includeEmojis: bool)

  /** One generated ad; `explanation` is its only optional field and
      `metadata` is a full copy of the form that produced it. */
  datatype AdResult = AdResult(
    id: string,
    headline: string,
    body: string,
    ctaLine: string,
    explanation: Option<string>,
    timestamp: int,
    metadata: AdFormData)

  /** The ads produced by one generation, in the order the model returned them. */
  type Batch = seq<AdResult>
}
