/** The generation service: a fixed system instruction, a prompt rendered from
    the form, one call to the external model (an oracle here), and the mapping
    of each returned item to an `AdResult`. Every failure becomes one fixed
    error message. */
module GeminiService {
  import opened Wrappers
  import opened AdTypes
  import opened TextLines

  const ModelId: string := "gemini-2.5-flash"

  /** The lines of the system-instruction template literal, its leading and
      trailing indentation included. */
  const SystemInstructionLines: seq<string> := [
    "",
    "    You are an expert world-class marketing copywriter with 20 years of experience. ",
    "    Your goal is to generate high-converting, persuasive, and creative advertisement copy.",
    "    Strictly follow the user's constraints regarding platform, tone, and audience.",
    "    ",
    "    Platform specific rules:",
    "    - Instagram/TikTok: Visual, punchy, use hashtags if appropriate.",
    "    - LinkedIn: Professional, value-driven.",
    "    - Google Ads: Concise, keyword-rich headlines.",
    "    - Email: Subject line (headline) and body content.",
    "  "
  ]

  const SystemInstruction: string := JoinLines(SystemInstructionLines)

  /** The phrase the prompt uses for the emoji flag. */
  function EmojiPhrase(includeEmojis: bool): string {
    if includeEmojis then "Yes, use relevant emojis" else "No emojis"
  }

  /** The labels that open the seven field lines of the prompt. */
  const ProductTag: string := "    Product/Service: "
  const IndustryTag: string := "    Industry: "
  const AudienceTag: string := "    Target Audience: "
  const PlatformTag: string := "    Platform: "
  const ToneTag: string := "    Tone: "
  const CtaTag: string := "    Desired CTA: "
  const EmojiTag: string := "    Use Emojis: "

  /** The opening lines of the prompt template literal: a blank line, then
      one labelled line per form field. */
  function FieldLines(f: AdFormData): seq<string> {
    [ "",
      ProductTag + f.productName,
      IndustryTag + f.industry,
      AudienceTag + f.targetAudience,
      PlatformTag + PlatformId(f.platform),
      ToneTag + ToneId(f.tone),
      CtaTag + CallToActionId(f.cta),
      EmojiTag + EmojiPhrase(f.includeEmojis) ]
  }

  /** The closing lines of the prompt template literal, the same for every form. */
  const InstructionLines: seq<string> := [
    "",
    "    Generate 3 distinct variations (A/B/C testing) of ad copy.",
    "    Variation 1 should focus on benefits.",
    "    Variation 2 should focus on addressing a pain point.",
    "    Variation 3 should be short and punchy.",
    "  "
  ]

  /** The lines of the prompt template literal for one form. */
  function PromptLines(f: AdFormData): seq<string> {
    FieldLines(f) + InstructionLines
  }

  /** The user prompt sent with the request. */
  function Prompt(f: AdFormData): string {
    JoinLines(PromptLines(f))
  }

  /** The free-text fields of the form hold no newline. */
  predicate SingleLineFields(f: AdFormData) {
    SingleLine(f.productName) && SingleLine(f.industry) && SingleLine(f.targetAudience)
  }

  /** One property of the requested item object. */
  datatype SchemaProperty = SchemaProperty(name: string, description: string)

  /** The requested output shape: an array of objects with these string
      properties, of which `required` lists the mandatory ones. */
  datatype ResponseSchema = ArrayOfObjects(properties: seq<SchemaProperty>, required: seq<string>)

  const Schema: ResponseSchema := ArrayOfObjects(
    [ SchemaProperty("headline", "The main hook or subject line"),
      SchemaProperty("body", "The main ad content"),
      SchemaProperty("ctaLine", "The closing call to action phrase"),
      SchemaProperty("explanation", "Brief marketing rationale for this variation") ],
    ["headline", "body", "ctaLine"])

  /** What is sent to the external model. */
  datatype Request = Request(
    model: string,
    contents: string,
    systemInstruction: string,
    responseMimeType: string,
    schema: ResponseSchema)

  function BuildRequest(f: AdFormData): Request {
    Request(ModelId, Prompt(f), SystemInstruction, "application/json", Schema)
  }

  /** What the external call can come back with: a response with text, a
      response whose text is absent, or a thrown error. */
  datatype Reply = Text(text: string) | NoText | Thrown(message: string)

  /** One element of the parsed JSON array. */
  datatype RawItem = RawItem(headline: string, body: string, ctaLine: string, explanation: Option<string>)

  const FailureMessage: string := "Failed to generate ad copy. Please try again."

  /** One returned item as an ad: fields copied, id and timestamp added, the form attached. */
  function ToAdResult(item: RawItem, f: AdFormData, id: string, timestamp: int): AdResult {
    AdResult(id, item.headline, item.body, item.ctaLine, item.explanation, timestamp, f)
  }

  /** The `map` over the parsed array; item `k` of the whole array gets the
      `k`-th fresh id and the `k`-th clock reading. */
  function MapItems(items: seq<RawItem>, f: AdFormData, ids: nat -> string, clock: nat -> int, start: nat): (r: Batch)
    ensures |r| == |items|
    ensures forall k :: 0 <= k < |items| ==>
      r[k] == ToAdResult(items[k], f, ids(start + k), clock(start + k))
    decreases |items|
  {
    if |items| == 0 then []
    else [ToAdResult(items[0], f, ids(start), clock(start))] + MapItems(items[1..], f, ids, clock, start + 1)
  }

  /** One generation. `call` stands for the external model, `parse` for
      `JSON.parse` followed by the array check of `map` (None when either
      throws), `ids` and `clock` for the random id and the clock. */
  function GenerateAdCopy(f: AdFormData, call: Request -> Reply, parse: string -> Option<seq<RawItem>>,
                          ids: nat -> string, clock: nat -> int): (r: Result<Batch, string>)
    ensures r.Failure? ==> r.error == FailureMessage
    ensures r.Success? <==>
      call(BuildRequest(f)).Text? && call(BuildRequest(f)).text != "" && parse(call(BuildRequest(f)).text).Some?
    ensures r.Success? ==>
      var items := parse(call(BuildRequest(f)).text).value;
      && |r.value| == |items|
      && forall k :: 0 <= k < |items| ==>
        && r.value[k].headline == items[k].headline
        && r.value[k].body == items[k].body
        && r.value[k].ctaLine == items[k].ctaLine
        && r.value[k].explanation == items[k].explanation
        && r.value[k].id == ids(k)
        && r.value[k].timestamp == clock(k)
        && r.value[k].metadata == f
  {
    match call(BuildRequest(f))
    case Thrown(_) => Failure(FailureMessage)
    case NoText => Failure(FailureMessage)
    case Text(t) =>
      if t == "" then Failure(FailureMessage)
      else
        match parse(t)
        case None => Failure(FailureMessage)
        case Some(items) => Success(MapItems(items, f, ids, clock, 0))
  }

  /** The system instruction is the same for every form; two requests differ
      only when their prompts do. */
  lemma RequestVariesOnlyByPrompt(f: AdFormData, g: AdFormData)
    ensures BuildRequest(f).systemInstruction == BuildRequest(g).systemInstruction == SystemInstruction
    ensures BuildRequest(f) == BuildRequest(g) <==> Prompt(f) == Prompt(g)
  {
  }

  /** The schema marks exactly headline, body and ctaLine as required; each of
      them is a declared property, and explanation is declared but optional. */
  lemma SchemaRequiresCopyFields()
    ensures Schema.required == ["headline", "body", "ctaLine"]
    ensures forall n :: n in Schema.required ==> exists p :: p in Schema.properties && p.name == n
    ensures (exists p :: p in Schema.properties && p.name == "explanation") && "explanation" !in Schema.required
  {
    assert Schema.properties[0].name == "headline";
    assert Schema.properties[3].name == "explanation";
  }

  /** None of the prompt's field labels holds a newline. */
  lemma TagsSingleLine()
    ensures SingleLine(ProductTag) && SingleLine(IndustryTag) && SingleLine(AudienceTag)
    ensures SingleLine(PlatformTag) && SingleLine(ToneTag) && SingleLine(CtaTag) && SingleLine(EmojiTag)
  {
  }

  /** Every enum identifier, and either emoji phrase, fits on one line. */
  lemma PlatformIdSingleLine(p: Platform)
    ensures SingleLine(PlatformId(p))
  {
    match p
    case Instagram => case Facebook => case GoogleAds => case Website =>
    case Email => case LinkedIn => case Twitter => case TikTok =>
  }

  lemma ToneIdSingleLine(t: Tone)
    ensures SingleLine(ToneId(t))
  {
  }

  lemma CallToActionIdSingleLine(c: CallToAction)
    ensures SingleLine(CallToActionId(c))
  {
  }

  lemma EmojiPhraseSingleLine(includeEmojis: bool)
    ensures SingleLine(EmojiPhrase(includeEmojis))
  {
  }

  /** The seven labelled lines and the blank line before them fit on one line each. */
  lemma FieldLinesSingleLine(f: AdFormData)
    requires SingleLineFields(f)
    ensures forall k :: 0 <= k < |FieldLines(f)| ==> SingleLine(FieldLines(f)[k])
  {
    PlatformIdSingleLine(f.platform);
    ToneIdSingleLine(f.tone);
    CallToActionIdSingleLine(f.cta);
    EmojiPhraseSingleLine(f.includeEmojis);
    TagsSingleLine();
  }

  /** Read back line by line, the prompt has each of the seven form fields on
      its own labelled line, the emoji flag as one of its two phrases. */
  lemma PromptLabelledLines(f: AdFormData)
    requires SingleLineFields(f)
    ensures var ls := SplitLines(Prompt(f));
      && |ls| > 8
      && ls[0] == ""
      && ls[1] == ProductTag + f.productName
      && ls[2] == IndustryTag + f.industry
      && ls[3] == AudienceTag + f.targetAudience
      && ls[4] == PlatformTag + PlatformId(f.platform)
      && ls[5] == ToneTag + ToneId(f.tone)
      && ls[6] == CtaTag + CallToActionId(f.cta)
      && ls[7] == EmojiTag + (if f.includeEmojis then "Yes, use relevant emojis" else "No emojis")
  {
    var fl := FieldLines(f);
    var tail := SplitLines(JoinLines(InstructionLines));
    assert SplitLines(Prompt(f)) == fl + tail by {
      FieldLinesSingleLine(f);
      SplitJoinAppend(fl, InstructionLines);
    }
    assert (fl + tail)[..8] == fl;
  }

  /** The tag in front of two values tells nothing apart: equal labelled
      lines have equal values. */
  lemma UnLabel(tag: string, a: string, b: string)
    requires tag + a == tag + b
    ensures a == b
  {
    assert a == (tag + a)[|tag|..];
    assert b == (tag + b)[|tag|..];
  }

  /** For single-line text fields the prompt determines the whole form: no two
      different forms are sent with the same prompt. */
  lemma PromptDeterminesForm(f: AdFormData, g: AdFormData)
    requires SingleLineFields(f) && SingleLineFields(g)
    requires Prompt(f) == Prompt(g)
    ensures f == g
  {
    PromptLabelledLines(f);
    PromptLabelledLines(g);
    var lf, lg := SplitLines(Prompt(f)), SplitLines(Prompt(g));
    UnLabel(ProductTag, f.productName, g.productName);
    UnLabel(IndustryTag, f.industry, g.industry);
    UnLabel(AudienceTag, f.targetAudience, g.targetAudience);
    UnLabel(PlatformTag, PlatformId(f.platform), PlatformId(g.platform));
    UnLabel(ToneTag, ToneId(f.tone), ToneId(g.tone));
    UnLabel(CtaTag, CallToActionId(f.cta), CallToActionId(g.cta));
    UnLabel(EmojiTag, EmojiPhrase(f.includeEmojis), EmojiPhrase(g.includeEmojis));
    assert PlatformFromId(PlatformId(f.platform)) == Some(f.platform);
    assert ToneFromId(ToneId(f.tone)) == Some(f.tone);
    assert CallToActionFromId(CallToActionId(f.cta)) == Some(f.cta);
    assert |EmojiPhrase(true)| != |EmojiPhrase(false)|;
  }

  /** Ids of one batch are distinct whenever the id source never repeats:
      the service adds no uniqueness of its own. */
  lemma BatchIdsDistinct(f: AdFormData, call: Request -> Reply, parse: string -> Option<seq<RawItem>>,
                         ids: nat -> string, clock: nat -> int)
    requires forall m: nat, n: nat :: m != n ==> ids(m) != ids(n)
    ensures var r := GenerateAdCopy(f, call, parse, ids, clock);
      r.Success? ==> forall j, k :: 0 <= j < k < |r.value| ==> r.value[j].id != r.value[k].id
  {
  }
}
